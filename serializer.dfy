/** The node encoders for `conditional`, `runtimeVariables` and `default`
    (Serialization.Conditional.cs, Serialization.RuntimeVariables.cs,
    Serialization.Default.cs). Each tests the node's kind; on a mismatch it
    writes nothing and returns false, on a match it appends its properties
    to the object being written and returns true. */
module Serialization {
  import opened Runtime
  import opened Json
  import opened Ast

  /** The properties the conditional encoder writes: its tag, then the three
      children, each encoded by `encode`. */
  function ConditionalFields(encode: Expr -> Doc, e: Expr): seq<(string, Doc)>
    requires e.ConditionalNode?
  {
    [("typeName", Str("conditional")),
     ("test", encode(e.test)),
     ("ifTrue", encode(e.ifTrue)),
     ("ifFalse", encode(e.ifFalse))]
  }

  /** Enumerable(items, encode) on the writing side: an array holding the
      encoding of each item, in order. */
  function EncodeAll(encode: Expr -> Doc, items: seq<Expr>): (r: Doc)
    ensures r.Arr? && |r.items| == |items|
    ensures forall i :: 0 <= i < |items| ==> r.items[i] == encode(items[i])
  {
    Arr(seq(|items|, i requires 0 <= i < |items| => encode(items[i])))
  }

  /** The properties the runtime-variables encoder writes: its tag, then the
      variables as an array. */
  function RuntimeVariablesFields(encode: Expr -> Doc, e: Expr): seq<(string, Doc)>
    requires e.RuntimeVariablesNode?
  {
    [("typeName", Str("runtimeVariables")),
     ("variables", EncodeAll(encode, e.variables))]
  }

  /** The default encoder writes its tag only. */
  function DefaultFields(): seq<(string, Doc)> {
    [("typeName", Str("default"))]
  }

  /** The serializer's state while one object is written: the properties
      written so far, in order. `expression` stands for Serializer.Expression,
      the recursive encoding of a child node. */
  class Serializer {
    const expression: Expr -> Doc
    var written: seq<(string, Doc)>

    constructor (expression: Expr -> Doc)
      ensures this.expression == expression && written == []
    {
      this.expression := expression;
      written := [];
    }

    /** Prop(name, value): writes one property. */
    method Prop(name: string, value: Doc)
      modifies this
      ensures written == old(written) + [(name, value)]
    {
      written := written + [(name, value)];
    }

    method ConditionalExpression(e: Expr) returns (ok: bool)
      modifies this
      ensures ok <==> e.ConditionalNode?
      ensures ok ==> written == old(written) + ConditionalFields(expression, e)
      ensures !ok ==> written == old(written)
    {
      if !e.ConditionalNode? {
        return false;
      }
      Prop("typeName", Str("conditional"));
      Prop("test", expression(e.test));
      Prop("ifTrue", expression(e.ifTrue));
      Prop("ifFalse", expression(e.ifFalse));
      return true;
    }

    method RuntimeVariablesExpression(e: Expr) returns (ok: bool)
      modifies this
      ensures ok <==> e.RuntimeVariablesNode?
      ensures ok ==> written == old(written) + RuntimeVariablesFields(expression, e)
      ensures !ok ==> written == old(written)
    {
      if !e.RuntimeVariablesNode? {
        return false;
      }
      Prop("typeName", Str("runtimeVariables"));
      Prop("variables", EncodeAll(expression, e.variables));
      return true;
    }

    method DefaultExpression(e: Expr) returns (ok: bool)
      modifies this
      ensures ok <==> e.DefaultNode?
      ensures ok ==> written == old(written) + DefaultFields()
      ensures !ok ==> written == old(written)
    {
      if !e.DefaultNode? {
        return false;
      }
      Prop("typeName", Str("default"));
      return true;
    }
  }
}
