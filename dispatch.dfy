/** The decoding entry points of Deserializer.cs: the header read and the
    switch on the `typeName` discriminator, the per-call label registry, and
    the static Deserialize that opens a fresh decoding session. */
module Deserialization {
  import opened Runtime
  import opened Json
  import opened Accessors
  import opened Reflection

  /** The 25 node decoders the discriminator can select. */
  datatype Kind =
    | Binary | Block | Conditional | Constant | DebugInfo | Default | Dynamic
    | Goto | Index | Invocation | Label | Lambda | ListInit | Loop | Member
    | MemberInit | MethodCall | NewArray | New | Parameter | RuntimeVariables
    | Switch | Try | TypeBinary | Unary

  /** The discriminator string each decoder is selected by. */
  function TagOf(k: Kind): string {
    match k
    case Binary => "binary"
    case Block => "block"
    case Conditional => "conditional"
    case Constant => "constant"
    case DebugInfo => "debugInfo"
    case Default => "default"
    case Dynamic => "dynamic"
    case Goto => "goto"
    case Index => "index"
    case Invocation => "invocation"
    case Label => "label"
    case Lambda => "lambda"
    case ListInit => "listInit"
    case Loop => "loop"
    case Member => "member"
    case MemberInit => "memberInit"
    case MethodCall => "methodCall"
    case NewArray => "newArray"
    case New => "new"
    case Parameter => "parameter"
    case RuntimeVariables => "runtimeVariables"
    case Switch => "switch"
    case Try => "try"
    case TypeBinary => "typeBinary"
    case Unary => "unary"
  }

  /** The decoders in the order of the switch's cases. */
  const AllKinds: seq<Kind> := [
    Binary, Block, Conditional, Constant, DebugInfo, Default, Dynamic,
    Goto, Index, Invocation, Label, Lambda, ListInit, Loop, Member,
    MemberInit, MethodCall, NewArray, New, Parameter, RuntimeVariables,
    Switch, Try, TypeBinary, Unary]

  /** A string is one of the switch's case labels. */
  ghost predicate IsKnownTag(s: string) {
    exists k :: TagOf(k) == s
  }

  lemma EveryKindListed(k: Kind)
    ensures k in AllKinds
  {
  }

  /** `switch (typeName)`: the decoder whose case label equals the
      discriminator; a null or unknown discriminator falls through to
      NotSupportedException. */
  function Dispatch(typeName: Option<string>): (r: Result<Kind>)
    ensures r.Ok? <==> typeName.Some? && IsKnownTag(typeName.value)
    ensures r.Ok? ==> TagOf(r.value) == typeName.value
    ensures r.Err? ==> r.error == NotSupported
  {
    if typeName.None? then Err(NotSupported)
    else match FirstIndex(AllKinds, (k: Kind) => TagOf(k) == typeName.value)
      case Some(i) => Ok(AllKinds[i])
      case None =>
        assert forall k :: TagOf(k) != typeName.value by {
          forall k ensures TagOf(k) != typeName.value {
            EveryKindListed(k);
          }
        }
        Err(NotSupported)
  }

  /** Every decoder is reachable, through its own tag. */
  lemma TagRoundTrip(k: Kind)
    ensures Dispatch(Some(TagOf(k))) == Ok(k)
  {
    TagsDistinct(k, Dispatch(Some(TagOf(k))).value);
  }

  /** The 25 case labels are pairwise distinct, so no two decoders share a tag. */
  lemma TagsDistinct(a: Kind, b: Kind)
    ensures TagOf(a) == TagOf(b) ==> a == b
  {
  }

  /** The switch has exactly 25 cases. */
  lemma KindCount()
    ensures |AllKinds| == 25
    ensures forall i, j :: 0 <= i < j < |AllKinds| ==> AllKinds[i] != AllKinds[j]
  {
  }

  /** The common header every node document carries: `nodeType` read with
      Enum, `type` with Type, and the `typeName` discriminator, in that order. */
  datatype Header = Header(nodeType: ExpressionType, resultType: Option<RtType>, typeName: Option<string>)

  function ReadHeader(md: Metadata, obj: seq<(string, Doc)>): (r: Result<Header>)
    ensures var nodeType := Enum(GetProperty(obj, "nodeType"));
            var t := ResolveType(md, GetProperty(obj, "type"));
            var typeName := ReadString(GetProperty(obj, "typeName"));
      && (nodeType.Err? ==> r == Err(nodeType.error))
      && (nodeType.Ok? && t.Err? ==> r == Err(t.error))
      && (nodeType.Ok? && t.Ok? && typeName.Err? ==> r == Err(typeName.error))
      && (r.Ok? <==> nodeType.Ok? && t.Ok? && typeName.Ok?)
      && (r.Ok? ==> r.value == Header(nodeType.value, t.value, typeName.value))
  {
    var nodeType :- Prop(obj, "nodeType", Enum);
    var t :- Prop(obj, "type", (x: Option<Doc>) => ResolveType(md, x));
    var typeName :- Prop(obj, "typeName", ReadString);
    Ok(Header(nodeType, t, typeName))
  }

  /** The call Expression(token) makes: the selected decoder with the header
      values and the object itself. */
  datatype DecoderCall = DecoderCall(kind: Kind, nodeType: ExpressionType, resultType: Option<RtType>, obj: seq<(string, Doc)>)

  /** Expression(token): null for a null or non-object token; otherwise the
      header is read and the discriminator selects the decoder to call. */
  function Expression(md: Metadata, tok: Option<Doc>): (r: Result<Option<DecoderCall>>)
    ensures !IsObject(tok) ==> r == Ok(None)
    ensures IsObject(tok) ==> r != Ok(None)
    ensures IsObject(tok) && ReadHeader(md, tok.value.fields).Err? ==>
      r == Err(ReadHeader(md, tok.value.fields).error)
    ensures IsObject(tok) && ReadHeader(md, tok.value.fields).Ok? ==>
      var h := ReadHeader(md, tok.value.fields).value;
      && (r.Ok? <==> h.typeName.Some? && IsKnownTag(h.typeName.value))
      && (r.Err? ==> r.error == NotSupported)
      && (r.Ok? ==> r.value.Some? && TagOf(r.value.value.kind) == h.typeName.value
                    && r.value.value.nodeType == h.nodeType
                    && r.value.value.resultType == h.resultType
                    && r.value.value.obj == tok.value.fields)
  {
    if !IsObject(tok) then Ok(None)
    else
      var obj := tok.value.fields;
      var h :- ReadHeader(md, obj);
      var kind :- Dispatch(h.typeName);
      Ok(Some(DecoderCall(kind, h.nodeType, h.resultType, obj)))
  }

  /** System.Linq.Expressions.LabelTarget: an identity object with a name
      and a type fixed when it is created. */
  class LabelTarget {
    const name: string
    const labelType: RtType

    constructor (labelType: RtType, name: string)
      ensures this.name == name && this.labelType == labelType
    {
      this.name := name;
      this.labelType := labelType;
    }
  }

  /** One decoding session: the metadata it resolves against and the
      `_labelTargets` registry, which lives as long as the session. */
  class Deserializer {
    const md: Metadata
    var labelTargets: map<string, LabelTarget>

    /** Every registered target is filed under its own name. */
    ghost predicate Valid()
      reads this
    {
      forall n | n in labelTargets :: labelTargets[n].name == n
    }

    constructor (md: Metadata)
      ensures Valid() && this.md == md && labelTargets == map[]
    {
      this.md := md;
      labelTargets := map[];
    }

    /** CreateLabelTarget(name, type): the target already registered under
        `name`, whatever type is passed now; otherwise a new target created
        with Expression.Label(type, name) and registered. A null name fails
        the dictionary lookup and a null type fails Expression.Label. */
    method CreateLabelTarget(name: Option<string>, t: Option<RtType>) returns (r: Result<LabelTarget>)
      requires Valid()
      modifies this
      ensures Valid()
      ensures name.None? ==> r == Err(ArgumentNull) && labelTargets == old(labelTargets)
      ensures name.Some? && name.value in old(labelTargets) ==>
        r == Ok(old(labelTargets)[name.value]) && labelTargets == old(labelTargets)
      ensures name.Some? && name.value !in old(labelTargets) && t.None? ==>
        r == Err(ArgumentNull) && labelTargets == old(labelTargets)
      ensures name.Some? && name.value !in old(labelTargets) && t.Some? ==>
        && r.Ok? && fresh(r.value)
        && r.value.name == name.value && r.value.labelType == t.value
        && labelTargets == old(labelTargets)[name.value := r.value]
      ensures r.Ok? ==> name.Some? && name.value in labelTargets && labelTargets[name.value] == r.value
    {
      if name.None? {
        return Err(ArgumentNull);
      }
      if name.value in labelTargets {
        return Ok(labelTargets[name.value]);
      }
      if t.None? {
        return Err(ArgumentNull);
      }
      var target := new LabelTarget(t.value, name.value);
      labelTargets := labelTargets[name.value := target];
      r := Ok(target);
    }

    /** Deserialize(token): a fresh session with an empty registry decodes
        the token. */
    static method Deserialize(md: Metadata, tok: Option<Doc>) returns (r: Result<Option<DecoderCall>>, session: Deserializer)
      ensures fresh(session) && session.Valid()
      ensures session.md == md && session.labelTargets == map[]
      ensures r == Expression(md, tok)
    {
      session := new Deserializer(md);
      r := Expression(md, tok);
    }
  }

  /** Two references to one label within a session yield the same target,
      carrying the type of the first reference. */
  method SameSessionShares(d: Deserializer, name: string, t1: RtType, t2: Option<RtType>)
    returns (a: Result<LabelTarget>, b: Result<LabelTarget>)
    requires d.Valid()
    modifies d
    ensures a.Ok? && b.Ok? && a.value == b.value
    ensures name !in old(d.labelTargets) ==> a.value.labelType == t1
    ensures name in old(d.labelTargets) ==> a.value == old(d.labelTargets)[name]
  {
    a := d.CreateLabelTarget(Some(name), Some(t1));
    b := d.CreateLabelTarget(Some(name), t2);
  }

  /** Separate Deserialize calls never share a label target. */
  method SeparateSessionsDoNotShare(md: Metadata, tok: Option<Doc>, name: string, t: RtType)
    returns (a: Result<LabelTarget>, b: Result<LabelTarget>)
    ensures a.Ok? && b.Ok? && a.value != b.value
  {
    var r1, s1 := Deserializer.Deserialize(md, tok);
    var r2, s2 := Deserializer.Deserialize(md, tok);
    a := s1.CreateLabelTarget(Some(name), Some(t));
    b := s2.CreateLabelTarget(Some(name), Some(t));
  }
}
