/** The expression-tree nodes the modelled encoders and decoders handle
    (System.Linq.Expressions). Every other node kind is `OtherNode`, known only
    by its ExpressionType and result type; the parameter nodes a
    runtime-variables node lists are among those. */
module Ast {
  import opened Runtime

  datatype Expr =
    | ConditionalNode(test: Expr, ifTrue: Expr, ifFalse: Expr, resultType: RtType)
    | RuntimeVariablesNode(variables: seq<Expr>, resultType: RtType)
    | DefaultNode(resultType: RtType)
    | OtherNode(nodeType: ExpressionType, resultType: RtType)
}
