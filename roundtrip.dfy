/** How the encoders and the decoding side fit together: a property written
    after a header is read back as written, each encoder's tag selects that
    node's decoder, children and variable arrays come back as encoded, and a
    `default` node whose header reads back as node type Default and a type
    `t` decodes to a default node of type `t`. */
module RoundTrip {
  import opened Runtime
  import opened Json
  import opened Ast
  import opened Accessors
  import opened Reflection
  import opened Deserialization
  import opened DefaultDecoding
  import opened Serialization

  /** A first-match search over a concatenation finds the match in the first
      part if there is one, otherwise the match in the second part. */
  lemma {:induction false} FirstIndexAppend<T>(a: seq<T>, b: seq<T>, p: T -> bool)
    ensures FirstIndex(a + b, p)
         == if FirstIndex(a, p).Some? then FirstIndex(a, p)
            else if FirstIndex(b, p).Some? then Some(FirstIndex(b, p).value + |a|)
            else None
    decreases |a|
  {
    if |a| == 0 {
      assert a + b == b;
    } else if !p(a[0]) {
      FirstIndexAppend(a[1..], b, p);
      assert (a + b)[1..] == a[1..] + b;
    }
  }

  /** Properties appended to an object are read back unless an earlier
      property has the same name. */
  lemma GetPropertyAppend(a: seq<(string, Doc)>, b: seq<(string, Doc)>, name: string)
    ensures GetProperty(a + b, name)
         == if GetProperty(a, name).Some? then GetProperty(a, name) else GetProperty(b, name)
  {
    FirstIndexAppend(a, b, (f: (string, Doc)) => f.0 == name);
  }

  /** Reading past a leading property with another name. */
  lemma GetPropertyCons(x: (string, Doc), rest: seq<(string, Doc)>, name: string)
    ensures GetProperty([x] + rest, name) == if x.0 == name then Some(x.1) else GetProperty(rest, name)
  {
    GetPropertyAppend([x], rest, name);
  }

  /** `obj` has no property called `name`. */
  predicate Lacks(obj: seq<(string, Doc)>, name: string) {
    forall i :: 0 <= i < |obj| ==> obj[i].0 != name
  }

  /** The kind the discriminator of `obj` selects, as Expression reads it. */
  function DispatchOf(obj: seq<(string, Doc)>): Result<Kind> {
    var typeName :- Prop(obj, "typeName", ReadString);
    Dispatch(typeName)
  }

  /** An object whose `typeName` property holds a decoder's tag selects that
      decoder. */
  lemma TagSelects(obj: seq<(string, Doc)>, k: Kind)
    requires GetProperty(obj, "typeName") == Some(Str(TagOf(k)))
    ensures DispatchOf(obj) == Ok(k)
  {
    TagRoundTrip(k);
  }

  /** A property missing from the header is read from what follows it. */
  lemma ReadAfterHeader(header: seq<(string, Doc)>, fields: seq<(string, Doc)>, name: string)
    requires Lacks(header, name)
    ensures GetProperty(header + fields, name) == GetProperty(fields, name)
  {
    GetPropertyAppend(header, fields, name);
  }

  /** The value of the first property with a given name is what is read. */
  lemma ReadFirstNamed(fields: seq<(string, Doc)>, name: string, k: int)
    requires FirstNamed(fields, name, k)
    ensures GetProperty(fields, name) == Some(fields[k].1)
  {
  }

  /** The conditional encoder's properties, each read by its name. */
  lemma ConditionalFieldsRead(encode: Expr -> Doc, e: Expr)
    requires e.ConditionalNode?
    ensures var fields := ConditionalFields(encode, e);
      && GetProperty(fields, "typeName") == Some(Str(TagOf(Kind.Conditional)))
      && GetProperty(fields, "test") == Some(encode(e.test))
      && GetProperty(fields, "ifTrue") == Some(encode(e.ifTrue))
      && GetProperty(fields, "ifFalse") == Some(encode(e.ifFalse))
  {
    var fields := ConditionalFields(encode, e);
    ReadFirstNamed(fields, "typeName", 0);
    ReadFirstNamed(fields, "test", 1);
    ReadFirstNamed(fields, "ifTrue", 2);
    ReadFirstNamed(fields, "ifFalse", 3);
  }

  /** After a header without a tag, the conditional encoder's tag selects the
      conditional decoder, and each child property holds that child's
      encoding. */
  lemma ConditionalReadBack(encode: Expr -> Doc, header: seq<(string, Doc)>, e: Expr)
    requires e.ConditionalNode?
    requires Lacks(header, "typeName") && Lacks(header, "test") && Lacks(header, "ifTrue") && Lacks(header, "ifFalse")
    ensures var obj := header + ConditionalFields(encode, e);
      && DispatchOf(obj) == Ok(Kind.Conditional)
      && GetProperty(obj, "test") == Some(encode(e.test))
      && GetProperty(obj, "ifTrue") == Some(encode(e.ifTrue))
      && GetProperty(obj, "ifFalse") == Some(encode(e.ifFalse))
  {
    var fields := ConditionalFields(encode, e);
    ConditionalFieldsRead(encode, e);
    ReadAfterHeader(header, fields, "typeName");
    ReadAfterHeader(header, fields, "test");
    ReadAfterHeader(header, fields, "ifTrue");
    ReadAfterHeader(header, fields, "ifFalse");
    TagSelects(header + fields, Kind.Conditional);
  }

  /** The runtime-variables encoder's properties, each read by its name. */
  lemma RuntimeVariablesFieldsRead(encode: Expr -> Doc, e: Expr)
    requires e.RuntimeVariablesNode?
    ensures var fields := RuntimeVariablesFields(encode, e);
      && GetProperty(fields, "typeName") == Some(Str(TagOf(Kind.RuntimeVariables)))
      && GetProperty(fields, "variables") == Some(EncodeAll(encode, e.variables))
  {
    var fields := RuntimeVariablesFields(encode, e);
    assert fields == [fields[0]] + [fields[1]];
    GetPropertyCons(fields[0], [fields[1]], "typeName");
    GetPropertyCons(fields[0], [fields[1]], "variables");
    GetPropertyCons(fields[1], [], "variables");
  }

  /** Enumerable over an encoded array, with a decoder that inverts the
      encoding item by item, gives back the items in order. */
  lemma EnumerableInvertsEncodeAll(encode: Expr -> Doc, decode: Doc -> Result<Expr>, items: seq<Expr>)
    requires forall v :: v in items ==> decode(encode(v)) == Ok(v)
    ensures Enumerable(decode, Some(EncodeAll(encode, items))) == Ok(Some(items))
  {
    var arr := EncodeAll(encode, items);
    forall i | 0 <= i < |arr.items| ensures decode(arr.items[i]) == Ok(items[i]) {
      assert items[i] in items;
    }
    var r := Enumerable(decode, Some(arr));
    assert r.Ok? && r.value.Some?;
    assert r.value.value == items;
  }

  /** After a header without a tag, the runtime-variables encoder's tag
      selects its decoder, and reading the variables array with a decoder
      that inverts `encode` on each variable gives back the variables, in
      order. */
  lemma RuntimeVariablesReadBack(encode: Expr -> Doc, decode: Doc -> Result<Expr>, header: seq<(string, Doc)>, e: Expr)
    requires e.RuntimeVariablesNode?
    requires Lacks(header, "typeName") && Lacks(header, "variables")
    requires forall v :: v in e.variables ==> decode(encode(v)) == Ok(v)
    ensures var obj := header + RuntimeVariablesFields(encode, e);
      && DispatchOf(obj) == Ok(Kind.RuntimeVariables)
      && Prop(obj, "variables", (t: Option<Doc>) => Enumerable(decode, t)) == Ok(Some(e.variables))
  {
    var fields := RuntimeVariablesFields(encode, e);
    RuntimeVariablesFieldsRead(encode, e);
    ReadAfterHeader(header, fields, "typeName");
    ReadAfterHeader(header, fields, "variables");
    TagSelects(header + fields, Kind.RuntimeVariables);
    EnumerableInvertsEncodeAll(encode, decode, e.variables);
  }

  /** After a header without a tag, the default encoder's tag selects the
      default decoder. */
  lemma DefaultReadBack(header: seq<(string, Doc)>)
    requires Lacks(header, "typeName")
    ensures DispatchOf(header + DefaultFields()) == Ok(Kind.Default)
  {
    GetPropertyAppend(header, DefaultFields(), "typeName");
    assert GetProperty(DefaultFields(), "typeName") == Some(Str(TagOf(Kind.Default)));
    TagSelects(header + DefaultFields(), Kind.Default);
  }

  /** A default node whose header reads back as node type Default and result
      type `t` decodes to a default node of type `t`: the header and tag go
      through Expression to the default decoder, which rebuilds the node. */
  lemma DefaultRoundTrip(md: Metadata, header: seq<(string, Doc)>, t: RtType)
    requires Lacks(header, "typeName")
    requires Prop(header, "nodeType", Enum) == Ok(DefaultNodeType)
    requires Prop(header, "type", (x: Option<Doc>) => ResolveType(md, x)) == Ok(Some(t))
    ensures var obj := header + DefaultFields();
      && Expression(md, Some(Obj(obj))) == Ok(Some(DecoderCall(Kind.Default, DefaultNodeType, Some(t), obj)))
      && DefaultExpression(DefaultNodeType, Some(t), obj) == Ok(DefaultNode(t))
  {
    var obj := header + DefaultFields();
    GetPropertyAppend(header, DefaultFields(), "nodeType");
    GetPropertyAppend(header, DefaultFields(), "type");
    DefaultReadBack(header);
    assert Enum(GetProperty(obj, "nodeType")) == Ok(DefaultNodeType);
    assert ResolveType(md, GetProperty(obj, "type")) == Ok(Some(t));
    assert ReadString(GetProperty(obj, "typeName")) == Ok(Some(TagOf(Kind.Default)));
  }
}
