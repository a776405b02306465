/** The `default` node decoder (Deserializer.DefaultExpression.cs). */
module DefaultDecoding {
  import opened Runtime
  import opened Json
  import opened Ast

  /** DefaultExpression(nodeType, type, obj): Expression.Default(type) when
      the node type is Default, NotSupportedException otherwise;
      Expression.Default rejects a null type. The object is not read. */
  function DefaultExpression(nodeType: ExpressionType, t: Option<RtType>, obj: seq<(string, Doc)>): (r: Result<Expr>)
    ensures nodeType != DefaultNodeType ==> r == Err(NotSupported)
    ensures nodeType == DefaultNodeType && t.None? ==> r == Err(ArgumentNull)
    ensures r.Ok? <==> nodeType == DefaultNodeType && t.Some?
    ensures r.Ok? ==> r.value.DefaultNode? && r.value.resultType == t.value
  {
    if nodeType != DefaultNodeType then Err(NotSupported)
    else if t.None? then Err(ArgumentNull)
    else Ok(DefaultNode(t.value))
  }

  /** The extra fields of the document never change the outcome. */
  lemma DefaultIgnoresObject(nodeType: ExpressionType, t: Option<RtType>, obj1: seq<(string, Doc)>, obj2: seq<(string, Doc)>)
    ensures DefaultExpression(nodeType, t, obj1) == DefaultExpression(nodeType, t, obj2)
  {
  }
}
