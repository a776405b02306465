/** The property and array accessors every decoder uses to read a JSON object
    (the Prop, Enum and Enumerable helpers of the Deserializer). */
module Accessors {
  import opened Runtime
  import opened Json

  /** Prop<T>(obj, name, result): hands the value of the named property to
      `result`, or null (None) when the object has no such property. */
  function Prop<R>(obj: seq<(string, Doc)>, name: string, result: Option<Doc> -> R): (r: R)
    ensures (forall i :: 0 <= i < |obj| ==> obj[i].0 != name) ==> r == result(None)
    ensures forall i :: FirstNamed(obj, name, i) ==> r == result(Some(obj[i].1))
  {
    result(GetProperty(obj, name))
  }

  /** The result function Prop<T> falls back on when its caller gives none:
      the converted token, or default(T) for an absent property. */
  function DefaultResult<T>(value: Doc -> Result<T>, zero: T): (r: Option<Doc> -> Result<T>)
    ensures r(None) == Ok(zero)
    ensures forall d :: r(Some(d)) == value(d)
  {
    (tok: Option<Doc>) => if tok.None? then Ok(zero) else value(tok.value)
  }

  /** Prop<T> called without a result function. */
  function PropOrDefault<T>(obj: seq<(string, Doc)>, name: string, value: Doc -> Result<T>, zero: T): (r: Result<T>)
    ensures (forall i :: 0 <= i < |obj| ==> obj[i].0 != name) ==> r == Ok(zero)
    ensures forall i :: FirstNamed(obj, name, i) ==> r == value(obj[i].1)
  {
    Prop(obj, name, DefaultResult(value, zero))
  }

  /** The non-generic Prop(obj, name): `obj.Property(name).Value`, which
      dereferences null when the property is absent. */
  function PropValue(obj: seq<(string, Doc)>, name: string): (r: Result<Doc>)
    ensures r.Err? <==> forall i :: 0 <= i < |obj| ==> obj[i].0 != name
    ensures r.Err? ==> r.error == NullReference
    ensures forall i :: FirstNamed(obj, name, i) ==> r == Ok(obj[i].1)
  {
    match GetProperty(obj, name)
    case None => Err(NullReference)
    case Some(d) => Ok(d)
  }

  /** The result function `t => t.Value<string>()`: the extension method
      rejects a null token. */
  function ReadString(tok: Option<Doc>): (r: Result<Option<string>>)
    ensures tok.None? ==> r == Err(ArgumentNull)
    ensures tok.Some? ==> r == StringValue(tok.value)
  {
    if tok.None? then Err(ArgumentNull) else StringValue(tok.value)
  }

  /** Enum<ExpressionType>(token): Enum.Parse of the token's string value. */
  function Enum(tok: Option<Doc>): (r: Result<ExpressionType>)
    ensures r.Ok? <==> exists s :: ReadString(tok) == Ok(Some(s)) && s in ExpressionTypeNames
    ensures r.Ok? ==> ReadString(tok) == Ok(Some(r.value.name))
  {
    var s :- ReadString(tok);
    ParseExpressionType(s)
  }

  /** `Select(f).ToList()` over an array's items: the first item whose
      conversion throws ends the whole conversion with that exception. */
  function MapAll<T>(f: Doc -> Result<T>, items: seq<Doc>): (r: Result<seq<T>>)
    ensures r.Ok? <==> forall i :: 0 <= i < |items| ==> f(items[i]).Ok?
    ensures r.Ok? ==> |r.value| == |items| && forall i :: 0 <= i < |items| ==> f(items[i]) == Ok(r.value[i])
    ensures r.Err? ==> exists k :: 0 <= k < |items| && f(items[k]) == Err(r.error)
                                   && forall j :: 0 <= j < k ==> f(items[j]).Ok?
  {
    if |items| == 0 then Ok([])
    else
      var head :- f(items[0]);
      var tail :- MapAll(f, items[1..]);
      Ok([head] + tail)
  }

  /** Enumerable(f)(token): null for a null or non-array token, otherwise the
      items converted by `f`, in order. */
  function Enumerable<T>(f: Doc -> Result<T>, tok: Option<Doc>): (r: Result<Option<seq<T>>>)
    ensures tok.None? || !tok.value.Arr? ==> r == Ok(None)
    ensures r.Ok? && r.value.Some? ==>
      && tok.Some? && tok.value.Arr?
      && |r.value.value| == |tok.value.items|
      && forall i :: 0 <= i < |tok.value.items| ==> f(tok.value.items[i]) == Ok(r.value.value[i])
    ensures tok.Some? && tok.value.Arr? && (forall i :: 0 <= i < |tok.value.items| ==> f(tok.value.items[i]).Ok?)
            ==> r.Ok? && r.value.Some?
    ensures tok.Some? && tok.value.Arr? ==> r.Err? || r.value.Some?
    ensures r.Err? ==> tok.Some? && tok.value.Arr? && MapAll(f, tok.value.items) == Err(r.error)
  {
    if tok.None? || !tok.value.Arr? then Ok(None)
    else
      var xs :- MapAll(f, tok.value.items);
      Ok(Some(xs))
  }
}
