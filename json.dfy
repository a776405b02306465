/** The JSON token tree the codec reads and writes (a stand-in for
    Newtonsoft.Json.Linq), reduced to what the codec looks at: named
    properties of an object, the ordered items of an array, and scalar values
    read as strings or integers. An absent property (C# `null`) is `None`;
    a JSON `null` literal is the token `Null`. */
module Json {
  import opened Runtime

  datatype Doc =
    | Null
    | Str(s: string)
    | Int(i: int)
    | Arr(items: seq<Doc>)
    | Obj(fields: seq<(string, Doc)>)

  predicate IsObject(tok: Option<Doc>) {
    tok.Some? && tok.value.Obj?
  }

  /** Index `i` holds the first property of `fields` named `name`. */
  predicate FirstNamed(fields: seq<(string, Doc)>, name: string, i: int) {
    0 <= i < |fields| && fields[i].0 == name && forall j :: 0 <= j < i ==> fields[j].0 != name
  }

  /** JObject.Property(name).Value: the value of the first property with that
      name, or None when the object has none. */
  function GetProperty(fields: seq<(string, Doc)>, name: string): (r: Option<Doc>)
    ensures r.None? <==> forall i :: 0 <= i < |fields| ==> fields[i].0 != name
    ensures r.Some? ==> exists i :: FirstNamed(fields, name, i) && fields[i].1 == r.value
    ensures forall i :: FirstNamed(fields, name, i) ==> r == Some(fields[i].1)
  {
    match FirstIndex(fields, (f: (string, Doc)) => f.0 == name)
    case None => None
    case Some(i) => Some(fields[i].1)
  }

  /** A non-empty run of decimal digits with no leading zero, unless it is "0". */
  predicate IsCanonicalDigits(s: string) {
    && |s| > 0
    && (forall k :: 0 <= k < |s| ==> '0' <= s[k] <= '9')
    && (s[0] == '0' ==> |s| == 1)
  }

  /** The decimal text .NET gives an integer: a minus sign for a negative
      value, then its digits without leading zeros. */
  function DecimalText(i: int): (r: string)
    ensures |r| > 0
    ensures (r[0] == '-') <==> i < 0
    ensures IsCanonicalDigits(if i < 0 then r[1..] else r)
    ensures SignedValue(r) == i
  {
    if i < 0 then "-" + Digits(-i) else Digits(i)
  }

  /** The decimal digits of a natural number, most significant first. */
  function Digits(n: nat): (r: string)
    ensures |r| > 0 && forall k :: 0 <= k < |r| ==> '0' <= r[k] <= '9'
    ensures r[0] == '0' <==> n == 0
    ensures IsCanonicalDigits(r)
    ensures DigitsValue(r) == n
  {
    if n < 10 then [(48 + n) as char]
    else
      var init := Digits(n / 10);
      var r := init + [(48 + n % 10) as char];
      assert r[..|r| - 1] == init;
      r
  }

  /** The number a string of decimal digits denotes, read left to right. */
  function DigitsValue(s: string): int {
    if |s| == 0 then 0 else DigitsValue(s[..|s| - 1]) * 10 + (s[|s| - 1] as int - 48)
  }

  /** int.Parse of a decimal text: an optional minus sign, then digits. */
  function SignedValue(s: string): int {
    if |s| > 0 && s[0] == '-' then -DigitsValue(s[1..]) else DigitsValue(s)
  }

  /** token.Value<string>(): a string as it is, a JSON null as a null string,
      an integer as its decimal text; an array or object cannot be cast. */
  function StringValue(d: Doc): (r: Result<Option<string>>)
    ensures r.Ok? <==> !d.Arr? && !d.Obj?
    ensures d.Str? ==> r == Ok(Some(d.s))
    ensures d.Null? ==> r == Ok(None)
    ensures d.Int? ==> r == Ok(Some(DecimalText(d.i)))
    ensures d.Arr? || d.Obj? ==> r == Err(InvalidCast)
  {
    match d
    case Null => Ok(None)
    case Str(s) => Ok(Some(s))
    case Int(i) => Ok(Some(DecimalText(i)))
    case Arr(_) => Err(InvalidCast)
    case Obj(_) => Err(InvalidCast)
  }

  const Int32Min: int := -0x8000_0000
  const Int32Max: int := 0x7FFF_FFFF

  /** token.Value<int>(): an integer token that fits in 32 bits. */
  function IntValue(d: Doc): (r: Result<int>)
    ensures r.Ok? <==> d.Int? && Int32Min <= d.i <= Int32Max
    ensures r.Ok? ==> r.value == d.i
    ensures d.Int? && !(Int32Min <= d.i <= Int32Max) ==> r == Err(Overflow)
    ensures d.Str? ==> r == Err(Format)
    ensures !d.Int? && !d.Str? ==> r == Err(InvalidCast)
  {
    match d
    case Int(i) => if Int32Min <= i <= Int32Max then Ok(i) else Err(Overflow)
    case Str(_) => Err(Format)
    case _ => Err(InvalidCast)
  }
}
