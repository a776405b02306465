/** Resolution of type and member descriptors against runtime metadata
    (Deserializer.Reflection.cs): type descriptors with generic
    instantiation, the constructor lookup with its process-wide three-level
    cache, and the first-match lookups of methods, properties and members. */
module Reflection {
  import opened Runtime
  import opened Json
  import opened Accessors

  // ---------------------------------------------------------------- types

  /** Type(token): null for a null or non-object token; otherwise the type
      named by `typeName`, instantiated with `genericArguments` when those
      are present and the type is an open generic definition. */
  function ResolveType(md: Metadata, tok: Option<Doc>): (r: Result<Option<RtType>>)
    ensures !IsObject(tok) ==> r == Ok(None)
    ensures tok.Some? ==> r == TypeOfDoc(md, tok.value)
  {
    if tok.None? then Ok(None) else TypeOfDoc(md, tok.value)
  }

  function TypeOfDoc(md: Metadata, d: Doc): (r: Result<Option<RtType>>)
    ensures !d.Obj? ==> r == Ok(None)
    ensures d.Obj? ==>
      var an := ReadString(GetProperty(d.fields, "assemblyName"));
      var tn := ReadString(GetProperty(d.fields, "typeName"));
      var g := GenericArguments(md, d);
      && (an.Err? ==> r == Err(an.error))
      && (an.Ok? && tn.Err? ==> r == Err(tn.error))
      && (an.Ok? && tn.Ok? && g.Err? ==> r == Err(g.error))
      && (an.Ok? && tn.Ok? && g.Ok? && tn.value.None? ==> r == Err(ArgumentNull))
      && (an.Ok? && tn.Ok? && g == Ok(None) && tn.value.Some? ==>
            r == Ok(if tn.value.value in md.types then Some(md.types[tn.value.value]) else None))
      && (an.Ok? && tn.Ok? && g.Ok? && g.value.Some? && tn.value.Some? && tn.value.value !in md.types ==>
            r == Err(NullReference))
      && (an.Ok? && tn.Ok? && g.Ok? && g.value.Some? && tn.value.Some? && tn.value.value in md.types ==>
            r == Instantiate(Some(md.types[tn.value.value]), g.value))
    decreases d, 1
  {
    if !d.Obj? then Ok(None)
    else
      var assemblyName :- ReadString(GetProperty(d.fields, "assemblyName"));
      var typeName :- ReadString(GetProperty(d.fields, "typeName"));
      var generic :- GenericArguments(md, d);
      var found :- GetType(md, typeName);
      Instantiate(found, generic)
  }

  /** Prop(obj, "genericArguments", Enumerable(Type)), written with direct
      recursion so that termination follows the document's structure;
      GenericArgumentsIsEnumerable shows it is that composition. */
  function GenericArguments(md: Metadata, d: Doc): Result<Option<seq<Option<RtType>>>>
    requires d.Obj?
    decreases d, 0
  {
    var g := GetProperty(d.fields, "genericArguments");
    if g.None? || !g.value.Arr? then Ok(None)
    else
      var xs :- TypeList(md, g.value, 0);
      Ok(Some(xs))
  }

  function TypeList(md: Metadata, arr: Doc, i: nat): Result<seq<Option<RtType>>>
    requires arr.Arr? && i <= |arr.items|
    decreases arr, |arr.items| - i
  {
    if i == |arr.items| then Ok([])
    else
      var head :- TypeOfDoc(md, arr.items[i]);
      var tail :- TypeList(md, arr, i + 1);
      Ok([head] + tail)
  }

  lemma {:induction false} TypeListIsMapAll(md: Metadata, arr: Doc, i: nat)
    requires arr.Arr? && i <= |arr.items|
    ensures TypeList(md, arr, i) == MapAll((x: Doc) => TypeOfDoc(md, x), arr.items[i..])
    decreases |arr.items| - i
  {
    if i < |arr.items| {
      TypeListIsMapAll(md, arr, i + 1);
      assert arr.items[i..][1..] == arr.items[i + 1..];
    }
  }

  /** The generic arguments are read exactly as Enumerable(this.Type) reads them. */
  lemma GenericArgumentsIsEnumerable(md: Metadata, d: Doc)
    requires d.Obj?
    ensures GenericArguments(md, d)
         == Enumerable((x: Doc) => TypeOfDoc(md, x), GetProperty(d.fields, "genericArguments"))
  {
    var g := GetProperty(d.fields, "genericArguments");
    if g.Some? && g.value.Arr? {
      TypeListIsMapAll(md, g.value, 0);
      assert g.value.items[0..] == g.value.items;
    }
  }

  /** The instantiation step of Type(token). */
  function Instantiate(found: Option<RtType>, generic: Option<seq<Option<RtType>>>): (r: Result<Option<RtType>>)
    ensures generic.None? ==> r == Ok(found)
    ensures generic.Some? && found.None? ==> r == Err(NullReference)
    ensures generic.Some? && found.Some? && !found.value.IsGenericTypeDefinition() ==> r == Ok(found)
    ensures generic.Some? && found.Some? && found.value.IsGenericTypeDefinition() ==>
      && (r.Ok? <==> AllPresent(generic.value) && |generic.value| == found.value.arity)
      && (r.Ok? ==> r.value.Some? && r.value.value.fullName == found.value.fullName
                    && |r.value.value.arguments| == |generic.value|
                    && forall i :: 0 <= i < |generic.value| ==> generic.value[i] == Some(r.value.value.arguments[i]))
  {
    if generic.None? then Ok(found)
    else if found.None? then Err(NullReference)
    else if !found.value.IsGenericTypeDefinition() then Ok(found)
    else
      var t :- MakeGenericType(found.value, generic.value);
      Ok(Some(t))
  }

  // ---------------------------------------------------------- descriptors

  /** The owner type, name and signature every member descriptor carries. */
  datatype Descriptor = Descriptor(owner: Option<RtType>, name: Option<string>, signature: Option<string>) {
    predicate IsKey() { owner.Some? && name.Some? && signature.Some? }
    function Key(): (RtType, string, string) requires IsKey() {
      (owner.value, name.value, signature.value)
    }
  }

  /** Reads `type` with Type, then `name` and `signature` with the
      non-generic Prop followed by Value<string>(). */
  function ReadDescriptor(md: Metadata, obj: seq<(string, Doc)>): (r: Result<Descriptor>)
    ensures var owner := ResolveType(md, GetProperty(obj, "type"));
            var nameTok := PropValue(obj, "name");
            var signatureTok := PropValue(obj, "signature");
      && (owner.Err? ==> r == Err(owner.error))
      && (owner.Ok? && nameTok.Err? ==> r == Err(nameTok.error))
      && (owner.Ok? && nameTok.Ok? && StringValue(nameTok.value).Err? ==>
            r == Err(StringValue(nameTok.value).error))
      && (owner.Ok? && nameTok.Ok? && StringValue(nameTok.value).Ok? && signatureTok.Err? ==>
            r == Err(signatureTok.error))
      && (owner.Ok? && nameTok.Ok? && StringValue(nameTok.value).Ok? && signatureTok.Ok? && StringValue(signatureTok.value).Err? ==>
            r == Err(StringValue(signatureTok.value).error))
      && (r.Ok? <==> owner.Ok? && nameTok.Ok? && StringValue(nameTok.value).Ok?
                     && signatureTok.Ok? && StringValue(signatureTok.value).Ok?)
      && (r.Ok? ==> r.value == Descriptor(owner.value, StringValue(nameTok.value).value, StringValue(signatureTok.value).value))
  {
    var owner :- Prop(obj, "type", (t: Option<Doc>) => ResolveType(md, t));
    var nameTok :- PropValue(obj, "name");
    var name :- StringValue(nameTok);
    var signatureTok :- PropValue(obj, "signature");
    var signature :- StringValue(signatureTok);
    Ok(Descriptor(owner, name, signature))
  }

  /** A member matches a request when both name and signature text are
      equal; a null name or signature matches nothing. */
  predicate Matches(m: MemberInfo, name: Option<string>, signature: Option<string>) {
    name == Some(m.name) && signature == Some(m.signature)
  }

  // --------------------------------------------------------- constructors

  predicate IsInstanceConstructor(m: MemberInfo) {
    m.memberType == Constructor && !m.isStatic
  }

  predicate PublicMatch(name: Option<string>, signature: Option<string>, c: MemberInfo) {
    IsInstanceConstructor(c) && c.isPublic && Matches(c, name, signature)
  }

  predicate NonPublicMatch(name: Option<string>, signature: Option<string>, c: MemberInfo) {
    IsInstanceConstructor(c) && !c.isPublic && Matches(c, name, signature)
  }

  /** `x` occurs in `text` starting at index `k`. */
  predicate OccursAt(text: string, x: string, k: int) {
    0 <= k && k + |x| <= |text| && text[k..k + |x|] == x
  }

  /** `x` occurs in `text` as a contiguous piece. */
  ghost predicate Contains(text: string, x: string) {
    exists k :: OccursAt(text, x, k)
  }

  /** A null signature reads as the empty string in a concatenation. */
  function SignatureText(signature: Option<string>): string {
    if signature.None? then "" else signature.value
  }

  /** The message ConstructorInternal throws when nothing matches. */
  function NotFoundMessage(fullName: string, signature: string): (m: string)
    ensures Contains(m, fullName) && Contains(m, signature)
  {
    var prefix := "Constructor for type \"" + fullName + "\" with signature \"";
    var m := prefix + signature + "\" could not be found";
    assert OccursAt(m, fullName, 22);
    assert OccursAt(m, signature, |prefix|);
    m
  }

  /** ConstructorInternal(type, name, signature): the first public instance
      constructor with that name and signature, else the first non-public
      one, else an exception naming the type and the signature. */
  function ConstructorInternal(md: Metadata, t: RtType, name: Option<string>, signature: Option<string>): (r: Result<MemberInfo>)
    ensures r.Ok? ==> r.value in md.members(t) && IsInstanceConstructor(r.value)
                      && name == Some(r.value.name) && signature == Some(r.value.signature)
    ensures r.Ok? && r.value.isPublic ==>
      exists i :: FirstWhere(md.members(t), (c: MemberInfo) => PublicMatch(name, signature, c), i) && md.members(t)[i] == r.value
    ensures r.Ok? && !r.value.isPublic ==>
      && (forall c :: c in md.members(t) ==> !PublicMatch(name, signature, c))
      && exists i :: FirstWhere(md.members(t), (c: MemberInfo) => NonPublicMatch(name, signature, c), i) && md.members(t)[i] == r.value
    ensures r.Err? <==> forall c :: c in md.members(t) ==> !(IsInstanceConstructor(c) && Matches(c, name, signature))
    ensures r.Err? ==> r.error == Message(NotFoundMessage(t.fullName, SignatureText(signature)))
  {
    var ctors := md.members(t);
    match FirstIndex(ctors, (c: MemberInfo) => PublicMatch(name, signature, c))
    case Some(i) => Ok(ctors[i])
    case None =>
      match FirstIndex(ctors, (c: MemberInfo) => NonPublicMatch(name, signature, c))
      case Some(i) => Ok(ctors[i])
      case None => Err(Message(NotFoundMessage(t.fullName, SignatureText(signature))))
  }

  /** Constructor(token)'s request: null for a non-object token, otherwise
      the descriptor it reads. */
  function ConstructorRequest(md: Metadata, tok: Option<Doc>): Result<Option<Descriptor>> {
    if !IsObject(tok) then Ok(None)
    else
      var d :- ReadDescriptor(md, tok.value.fields);
      Ok(Some(d))
  }

  predicate KeyedRequest(md: Metadata, tok: Option<Doc>) {
    var q := ConstructorRequest(md, tok);
    q.Ok? && q.value.Some? && q.value.value.IsKey()
  }

  function RequestKey(md: Metadata, tok: Option<Doc>): (RtType, string, string)
    requires KeyedRequest(md, tok)
  {
    ConstructorRequest(md, tok).value.value.Key()
  }

  /** The exception Constructor(token) meets for a request with a null name
      or signature: a TryGetValue with the null key throws ArgumentNull when
      the cache holds the level it searches; when that level is missing the
      scan runs instead, and finds nothing, since a null name or signature
      matches no constructor. */
  function NullKeyError(entries: Cache, t: RtType, name: Option<string>, signature: Option<string>): Exception {
    if t in entries && (name.None? || (name.value in entries[t] && signature.None?)) then ArgumentNull
    else Message(NotFoundMessage(t.fullName, SignatureText(signature)))
  }

  function Lift(r: Result<MemberInfo>): Result<Option<MemberInfo>> {
    if r.Ok? then Ok(Some(r.value)) else Err(r.error)
  }

  type Cache = map<RtType, map<string, map<string, MemberInfo>>>

  /** ConstructorCache[type][name][signature], when every level is present. */
  function Lookup(entries: Cache, t: RtType, n: string, s: string): Option<MemberInfo> {
    if t in entries && n in entries[t] && s in entries[t][n] then Some(entries[t][n][s]) else None
  }

  function FlatLookup(cached: map<(RtType, string, string), MemberInfo>, t: RtType, n: string, s: string): Option<MemberInfo> {
    if (t, n, s) in cached then Some(cached[(t, n, s)]) else None
  }

  /** The nested table and the triple-keyed one hold the same entries. */
  ghost predicate Agrees(entries: Cache, cached: map<(RtType, string, string), MemberInfo>) {
    forall t, n, s {:trigger Lookup(entries, t, n, s)} {:trigger FlatLookup(cached, t, n, s)} ::
      Lookup(entries, t, n, s) == FlatLookup(cached, t, n, s)
  }

  /** Every cached constructor is what a fresh scan returns. */
  ghost predicate AllScanned(md: Metadata, cached: map<(RtType, string, string), MemberInfo>) {
    forall k | k in cached :: ConstructorInternal(md, k.0, Some(k.1), Some(k.2)) == Ok(cached[k])
  }

  /** The three ways Constructor adds a missing entry: a new type level, a new
      name level under a known type, or a new signature under a known name. */
  ghost predicate AddsEntry(e: Cache, e2: Cache, t: RtType, n: string, s: string, c: MemberInfo) {
    || (t !in e && e2 == e[t := map[n := map[s := c]]])
    || (t in e && n !in e[t] && e2 == e[t := e[t][n := map[s := c]]])
    || (t in e && n in e[t] && s !in e[t][n] && e2 == e[t := e[t][n := e[t][n][s := c]]])
  }

  lemma AddsEntryLookup(e: Cache, e2: Cache, t: RtType, n: string, s: string, c: MemberInfo)
    requires AddsEntry(e, e2, t, n, s, c)
    ensures Lookup(e, t, n, s).None?
    ensures forall t', n', s' :: Lookup(e2, t', n', s') == if (t', n', s') == (t, n, s) then Some(c) else Lookup(e, t', n', s')
  {
    forall t', n', s' ensures Lookup(e2, t', n', s') == if (t', n', s') == (t, n, s) then Some(c) else Lookup(e, t', n', s') {
      AddsEntryLookupAt(e, e2, t, n, s, c, t', n', s');
    }
  }

  lemma AddsEntryLookupAt(e: Cache, e2: Cache, t: RtType, n: string, s: string, c: MemberInfo, t': RtType, n': string, s': string)
    requires AddsEntry(e, e2, t, n, s, c)
    ensures Lookup(e2, t', n', s') == if (t', n', s') == (t, n, s) then Some(c) else Lookup(e, t', n', s')
  {
    if t' != t {
      assert t' in e2 <==> t' in e;
      if t' in e { assert e2[t'] == e[t']; }
    } else if n' != n {
      if t !in e {
        assert n' !in e2[t];
      } else {
        assert n' in e2[t] <==> n' in e[t];
        if n' in e[t] { assert e2[t][n'] == e[t][n']; }
      }
    }
  }

  lemma AddKeepsAgreement(e: Cache, e2: Cache, cached: map<(RtType, string, string), MemberInfo>, t: RtType, n: string, s: string, c: MemberInfo)
    requires Agrees(e, cached) && AddsEntry(e, e2, t, n, s, c)
    ensures (t, n, s) !in cached
    ensures Agrees(e2, cached[(t, n, s) := c])
  {
    AddsEntryLookup(e, e2, t, n, s, c);
    assert Lookup(e, t, n, s) == FlatLookup(cached, t, n, s);
    forall t', n', s' ensures Lookup(e2, t', n', s') == FlatLookup(cached[(t, n, s) := c], t', n', s') {
      assert Lookup(e, t', n', s') == FlatLookup(cached, t', n', s');
    }
  }

  lemma AddKeepsScanned(md: Metadata, cached: map<(RtType, string, string), MemberInfo>, k: (RtType, string, string), c: MemberInfo)
    requires AllScanned(md, cached) && ConstructorInternal(md, k.0, Some(k.1), Some(k.2)) == Ok(c)
    ensures AllScanned(md, cached[k := c])
  {
  }

  /** The static ConstructorCache, owned by one resolver: nested dictionaries
      type -> name -> signature -> constructor, filled lazily. `cached` is the
      same table keyed by the triple, and `scans` counts the calls to
      ConstructorInternal. */
  class ConstructorCache {
    const md: Metadata
    var entries: Cache
    ghost var cached: map<(RtType, string, string), MemberInfo>
    ghost var scans: nat

    ghost predicate Valid()
      reads this`entries, this`cached
    {
      Agrees(entries, cached) && AllScanned(md, cached)
    }

    constructor (md: Metadata)
      ensures Valid() && this.md == md && entries == map[] && cached == map[] && scans == 0
    {
      this.md := md;
      entries := map[];
      cached := map[];
      scans := 0;
    }

    /** Constructor(token): null for a non-object token; otherwise the
        descriptor is read and resolved through the cache. */
    method Constructor(tok: Option<Doc>) returns (r: Result<Option<MemberInfo>>)
      requires Valid()
      modifies this
      ensures Valid()
      ensures r.Err? ==> entries == old(entries) && cached == old(cached)
      ensures ConstructorRequest(md, tok).Err? ==>
        r == Err(ConstructorRequest(md, tok).error) && scans == old(scans)
      ensures ConstructorRequest(md, tok) == Ok(None) ==>
        r == Ok(None) && entries == old(entries) && cached == old(cached) && scans == old(scans)
      ensures var q := ConstructorRequest(md, tok);
        q.Ok? && q.value.Some? && !q.value.value.IsKey() ==> r.Err?
      ensures var q := ConstructorRequest(md, tok);
        q.Ok? && q.value.Some? && q.value.value.owner.None? ==> r == Err(ArgumentNull)
      ensures var q := ConstructorRequest(md, tok);
        q.Ok? && q.value.Some? && q.value.value.owner.Some? && !q.value.value.IsKey() ==>
          var d := q.value.value;
          r == Err(NullKeyError(old(entries), d.owner.value, d.name, d.signature))
      ensures KeyedRequest(md, tok) ==>
        var k := RequestKey(md, tok);
        && r == Lift(ConstructorInternal(md, k.0, Some(k.1), Some(k.2)))
        && (k in old(cached) ==> entries == old(entries) && cached == old(cached) && scans == old(scans))
        && (k !in old(cached) ==> scans == old(scans) + 1)
        && (k !in old(cached) && r.Ok? ==> cached == old(cached)[k := r.value.value])
        && (k !in old(cached) && r.Ok? ==> AddsEntry(old(entries), entries, k.0, k.1, k.2, r.value.value))
        && (r.Ok? ==> forall t', n', s' :: Lookup(entries, t', n', s')
                        == if (t', n', s') == k then Some(r.value.value) else Lookup(old(entries), t', n', s'))
    {
      if !IsObject(tok) {
        return Ok(None);
      }
      var q := ReadDescriptor(md, tok.value.fields);
      if q.Err? {
        return Err(q.error);
      }
      var c := Resolve(q.value);
      r := Lift(c);
    }

    /** The cache walk of Constructor(token) for a descriptor already read:
        each missing level is filled with the constructor a scan finds;
        a TryGetValue with a null key throws. */
    method Resolve(d: Descriptor) returns (r: Result<MemberInfo>)
      requires Valid()
      modifies this
      ensures Valid()
      ensures r.Err? ==> entries == old(entries) && cached == old(cached)
      ensures d.owner.None? ==> r == Err(ArgumentNull) && scans == old(scans)
      ensures !d.IsKey() ==> r.Err?
      ensures d.owner.Some? && !d.IsKey() ==>
        var e := NullKeyError(old(entries), d.owner.value, d.name, d.signature);
        && r == Err(e)
        && scans == if e == ArgumentNull then old(scans) else old(scans) + 1
      ensures d.IsKey() ==>
        var k := d.Key();
        && r == ConstructorInternal(md, k.0, Some(k.1), Some(k.2))
        && (k in old(cached) ==> entries == old(entries) && cached == old(cached) && scans == old(scans))
        && (k !in old(cached) ==> scans == old(scans) + 1)
        && (k !in old(cached) && r.Ok? ==> cached == old(cached)[k := r.value])
        && (k !in old(cached) && r.Ok? ==> AddsEntry(old(entries), entries, k.0, k.1, k.2, r.value))
        && (r.Ok? ==> forall t', n', s' :: Lookup(entries, t', n', s')
                        == if (t', n', s') == k then Some(r.value) else Lookup(old(entries), t', n', s'))
    {
      if d.owner.None? {
        return Err(ArgumentNull);   // TryGetValue(null)
      }
      var t := d.owner.value;
      if t in entries && d.name.None? {
        return Err(ArgumentNull);   // cache1.TryGetValue(null)
      } else if t in entries && d.name.value in entries[t] && d.signature.None? {
        return Err(ArgumentNull);   // cache2.TryGetValue(null)
      } else if t in entries && d.name.value in entries[t] && d.signature.value in entries[t][d.name.value] {
        var n, s := d.name.value, d.signature.value;
        assert Lookup(entries, t, n, s) == FlatLookup(cached, t, n, s);
        r := Ok(entries[t][n][s]);
      } else {
        r := Miss(t, d.name, d.signature);
      }
    }

    /** A cache miss: scan once, and store the constructor found at the
        first level that was missing. A failed scan stores nothing. */
    method Miss(t: RtType, name: Option<string>, signature: Option<string>) returns (r: Result<MemberInfo>)
      requires Valid()
      requires || t !in entries
               || (name.Some? && name.value !in entries[t])
               || (name.Some? && signature.Some? && signature.value !in entries[t][name.value])
      modifies this`entries, this`cached, this`scans
      ensures Valid()
      ensures r == ConstructorInternal(md, t, name, signature) && scans == old(scans) + 1
      ensures r.Err? ==> entries == old(entries) && cached == old(cached)
      ensures r.Ok? ==>
        && (t, name.value, signature.value) !in old(cached)
        && cached == old(cached)[(t, name.value, signature.value) := r.value]
        && AddsEntry(old(entries), entries, t, name.value, signature.value, r.value)
        && forall t', n', s' :: Lookup(entries, t', n', s')
             == if (t', n', s') == (t, name.value, signature.value) then Some(r.value) else Lookup(old(entries), t', n', s')
    {
      r := ConstructorInternal(md, t, name, signature);
      scans := scans + 1;
      if r.Err? {
        return;
      }
      var n, s := name.value, signature.value;
      if t !in entries {
        AddType(t, n, s, r.value);
      } else if n !in entries[t] {
        AddName(t, n, s, r.value);
      } else {
        AddSignature(t, n, s, r.value);
      }
    }

    /** `ConstructorCache[type] = {name: {signature: c}}` for a type not yet cached. */
    method AddType(t: RtType, n: string, s: string, c: MemberInfo)
      requires Valid() && t !in entries
      requires ConstructorInternal(md, t, Some(n), Some(s)) == Ok(c)
      modifies this`entries, this`cached
      ensures Valid() && (t, n, s) !in old(cached) && cached == old(cached)[(t, n, s) := c]
      ensures AddsEntry(old(entries), entries, t, n, s, c)
      ensures forall t', n', s' :: Lookup(entries, t', n', s')
                == if (t', n', s') == (t, n, s) then Some(c) else Lookup(old(entries), t', n', s')
    {
      ghost var e0 := entries;
      entries := entries[t := map[n := map[s := c]]];
      AddsEntryLookup(e0, entries, t, n, s, c);
      AddKeepsAgreement(e0, entries, cached, t, n, s, c);
      AddKeepsScanned(md, cached, (t, n, s), c);
      cached := cached[(t, n, s) := c];
    }

    /** `cache1[name] = {signature: c}` for a name not yet cached under its type. */
    method AddName(t: RtType, n: string, s: string, c: MemberInfo)
      requires Valid() && t in entries && n !in entries[t]
      requires ConstructorInternal(md, t, Some(n), Some(s)) == Ok(c)
      modifies this`entries, this`cached
      ensures Valid() && (t, n, s) !in old(cached) && cached == old(cached)[(t, n, s) := c]
      ensures AddsEntry(old(entries), entries, t, n, s, c)
      ensures forall t', n', s' :: Lookup(entries, t', n', s')
                == if (t', n', s') == (t, n, s) then Some(c) else Lookup(old(entries), t', n', s')
    {
      ghost var e0 := entries;
      entries := entries[t := entries[t][n := map[s := c]]];
      AddsEntryLookup(e0, entries, t, n, s, c);
      AddKeepsAgreement(e0, entries, cached, t, n, s, c);
      AddKeepsScanned(md, cached, (t, n, s), c);
      cached := cached[(t, n, s) := c];
    }

    /** `cache2[signature] = c` for a signature not yet cached under its name. */
    method AddSignature(t: RtType, n: string, s: string, c: MemberInfo)
      requires Valid() && t in entries && n in entries[t] && s !in entries[t][n]
      requires ConstructorInternal(md, t, Some(n), Some(s)) == Ok(c)
      modifies this`entries, this`cached
      ensures Valid() && (t, n, s) !in old(cached) && cached == old(cached)[(t, n, s) := c]
      ensures AddsEntry(old(entries), entries, t, n, s, c)
      ensures forall t', n', s' :: Lookup(entries, t', n', s')
                == if (t', n', s') == (t, n, s) then Some(c) else Lookup(old(entries), t', n', s')
    {
      ghost var e0 := entries;
      entries := entries[t := entries[t][n := entries[t][n][s := c]]];
      AddsEntryLookup(e0, entries, t, n, s, c);
      AddKeepsAgreement(e0, entries, cached, t, n, s, c);
      AddKeepsScanned(md, cached, (t, n, s), c);
      cached := cached[(t, n, s) := c];
    }
  }

  /** Two lookups of the same constructor: the second returns what the first
      did; a found constructor is scanned for at most once, a missing one on
      every call, because a failure is never cached. */
  method ConstructorTwice(cache: ConstructorCache, tok: Option<Doc>) returns (first: Result<Option<MemberInfo>>, second: Result<Option<MemberInfo>>)
    requires cache.Valid()
    modifies cache
    ensures cache.Valid()
    ensures KeyedRequest(cache.md, tok) ==> first == second
    ensures KeyedRequest(cache.md, tok) && first.Ok? ==> cache.scans <= old(cache.scans) + 1
    ensures KeyedRequest(cache.md, tok) && first.Err? ==> cache.scans == old(cache.scans) + 2
  {
    first := cache.Constructor(tok);
    second := cache.Constructor(tok);
  }

  // ------------------------------------------------ methods and properties

  /** `First(accept)` over a member list: the first accepted member, or
      InvalidOperationException when none is. */
  function FindFirst(members: seq<MemberInfo>, accept: MemberInfo -> bool): (r: Result<MemberInfo>)
    ensures r.Ok? <==> exists i :: 0 <= i < |members| && accept(members[i])
    ensures r.Ok? ==> exists i :: FirstWhere(members, accept, i) && members[i] == r.value
    ensures forall i :: FirstWhere(members, accept, i) ==> r == Ok(members[i])
    ensures r.Err? ==> r.error == InvalidOperation
  {
    match FirstIndex(members, accept)
    case None => Err(InvalidOperation)
    case Some(i) => Ok(members[i])
  }

  /** The generic step of Method(token): MakeGenericMethod only when
      generic arguments are present and the method is a generic definition. */
  function InstantiateMethod(m: MemberInfo, generic: Option<seq<Option<RtType>>>): (r: Result<MemberInfo>)
    ensures generic.None? || !m.IsGenericMethodDefinition() ==> r == Ok(m)
    ensures generic.Some? && m.IsGenericMethodDefinition() ==>
      && (r.Ok? <==> AllPresent(generic.value) && |generic.value| == m.genericArity)
      && (r.Ok? ==> r.value.name == m.name && r.value.signature == m.signature
                    && |r.value.typeArguments| == |generic.value|
                    && forall i :: 0 <= i < |generic.value| ==> generic.value[i] == Some(r.value.typeArguments[i]))
  {
    if generic.Some? && m.IsGenericMethodDefinition() then MakeGenericMethod(m, generic.value) else Ok(m)
  }

  predicate IsMethodMatch(d: Descriptor, m: MemberInfo) {
    m.memberType == Method && Matches(m, d.name, d.signature)
  }

  /** The lookup of Method(token) once its descriptor is read: the first
      method of the owner with that name and signature, instantiated when
      generic arguments are given for a generic definition. */
  function SelectMethod(md: Metadata, d: Descriptor, generic: Option<seq<Option<RtType>>>): (r: Result<MemberInfo>)
    ensures d.owner.None? ==> r == Err(NullReference)
    ensures d.owner.Some? && (forall m :: m in md.members(d.owner.value) ==> !IsMethodMatch(d, m)) ==> r == Err(InvalidOperation)
    ensures r.Ok? ==>
      && d.owner.Some?
      && exists i :: FirstWhere(md.members(d.owner.value), (m: MemberInfo) => IsMethodMatch(d, m), i)
                  && InstantiateMethod(md.members(d.owner.value)[i], generic) == Ok(r.value)
    ensures d.owner.Some? ==>
      forall i :: FirstWhere(md.members(d.owner.value), (m: MemberInfo) => IsMethodMatch(d, m), i) ==>
        r == InstantiateMethod(md.members(d.owner.value)[i], generic)
  {
    if d.owner.None? then Err(NullReference)
    else
      var m :- FindFirst(md.members(d.owner.value), (m: MemberInfo) => IsMethodMatch(d, m));
      InstantiateMethod(m, generic)
  }

  /** Prop(obj, "generic", Enumerable(Type)): the method's type arguments. */
  function MethodGenerics(md: Metadata, obj: seq<(string, Doc)>): (r: Result<Option<seq<Option<RtType>>>>)
    ensures var tok := GetProperty(obj, "generic");
      && (tok.None? || !tok.value.Arr? ==> r == Ok(None))
      && (r.Ok? && r.value.Some? ==>
            && tok.Some? && tok.value.Arr? && |r.value.value| == |tok.value.items|
            && forall j :: 0 <= j < |tok.value.items| ==> TypeOfDoc(md, tok.value.items[j]) == Ok(r.value.value[j]))
      && (tok.Some? && tok.value.Arr? ==> r.Err? || r.value.Some?)
      && (r.Err? ==> tok.Some? && tok.value.Arr?
                     && MapAll((x: Doc) => TypeOfDoc(md, x), tok.value.items) == Err(r.error))
  {
    Prop(obj, "generic", (t: Option<Doc>) => Enumerable((x: Doc) => TypeOfDoc(md, x), t))
  }

  /** Method(token). */
  function ResolveMethod(md: Metadata, tok: Option<Doc>): (r: Result<Option<MemberInfo>>)
    ensures !IsObject(tok) ==> r == Ok(None)
    ensures r.Ok? && r.value.Some? ==>
      && IsObject(tok)
      && ReadDescriptor(md, tok.value.fields).Ok?
      && MethodGenerics(md, tok.value.fields).Ok?
      && r.value.value.memberType == Method
      && SelectMethod(md, ReadDescriptor(md, tok.value.fields).value, MethodGenerics(md, tok.value.fields).value) == Ok(r.value.value)
    ensures IsObject(tok) ==>
      var d := ReadDescriptor(md, tok.value.fields);
      var generic := MethodGenerics(md, tok.value.fields);
      && (d.Err? ==> r == Err(d.error))
      && (d.Ok? && generic.Err? ==> r == Err(generic.error))
      && (d.Ok? && generic.Ok? ==> r == Lift(SelectMethod(md, d.value, generic.value)))
  {
    if !IsObject(tok) then Ok(None)
    else
      var obj := tok.value.fields;
      var d :- ReadDescriptor(md, obj);
      var generic :- MethodGenerics(md, obj);
      var m :- SelectMethod(md, d, generic);
      Ok(Some(m))
  }

  predicate IsPropertyMatch(d: Descriptor, m: MemberInfo) {
    m.memberType == Property && Matches(m, d.name, d.signature)
  }

  /** Property(token): the first property of the owner with that name and
      signature. */
  function ResolveProperty(md: Metadata, tok: Option<Doc>): (r: Result<Option<MemberInfo>>)
    ensures !IsObject(tok) ==> r == Ok(None)
    ensures r.Ok? && r.value.Some? ==>
      && IsObject(tok)
      && ReadDescriptor(md, tok.value.fields).Ok?
      && var d := ReadDescriptor(md, tok.value.fields).value;
      && d.owner.Some?
      && exists i :: FirstWhere(md.members(d.owner.value), (m: MemberInfo) => IsPropertyMatch(d, m), i)
                     && md.members(d.owner.value)[i] == r.value.value
    ensures IsObject(tok) && ReadDescriptor(md, tok.value.fields).Err? ==>
      r == Err(ReadDescriptor(md, tok.value.fields).error)
    ensures IsObject(tok) && ReadDescriptor(md, tok.value.fields).Ok? ==>
      var d := ReadDescriptor(md, tok.value.fields).value;
      && (d.owner.None? ==> r == Err(NullReference))
      && (d.owner.Some? && (forall m :: m in md.members(d.owner.value) ==> !IsPropertyMatch(d, m)) ==> r == Err(InvalidOperation))
      && (d.owner.Some? ==>
            forall i :: FirstWhere(md.members(d.owner.value), (m: MemberInfo) => IsPropertyMatch(d, m), i) ==>
              r == Ok(Some(md.members(d.owner.value)[i])))
  {
    if !IsObject(tok) then Ok(None)
    else
      var d :- ReadDescriptor(md, tok.value.fields);
      if d.owner.None? then Err(NullReference)
      else
        var p :- FindFirst(md.members(d.owner.value), (m: MemberInfo) => IsPropertyMatch(d, m));
        Ok(Some(p))
  }

  predicate IsMemberMatch(d: Descriptor, memberType: int, m: MemberInfo) {
    Code(m.memberType) == memberType && Matches(m, d.name, d.signature)
  }

  /** Member(token): the first member of the owner whose MemberTypes code,
      name and signature all match. */
  function ResolveMember(md: Metadata, tok: Option<Doc>): (r: Result<Option<MemberInfo>>)
    ensures !IsObject(tok) ==> r == Ok(None)
    ensures r.Ok? && r.value.Some? ==>
      && IsObject(tok)
      && ReadDescriptor(md, tok.value.fields).Ok?
      && PropValue(tok.value.fields, "memberType").Ok?
      && IntValue(PropValue(tok.value.fields, "memberType").value).Ok?
      && var d := ReadDescriptor(md, tok.value.fields).value;
      && var code := IntValue(PropValue(tok.value.fields, "memberType").value).value;
      && d.owner.Some?
      && exists i :: FirstWhere(md.members(d.owner.value), (m: MemberInfo) => IsMemberMatch(d, code, m), i)
                     && md.members(d.owner.value)[i] == r.value.value
    ensures IsObject(tok) && ReadDescriptor(md, tok.value.fields).Ok?
            && PropValue(tok.value.fields, "memberType").Ok?
            && IntValue(PropValue(tok.value.fields, "memberType").value).Ok? ==>
      var d := ReadDescriptor(md, tok.value.fields).value;
      var code := IntValue(PropValue(tok.value.fields, "memberType").value).value;
      && (d.owner.None? ==> r == Err(NullReference))
      && (d.owner.Some? && (forall m :: m in md.members(d.owner.value) ==> !IsMemberMatch(d, code, m)) ==> r == Err(InvalidOperation))
      && (d.owner.Some? ==>
            forall i :: FirstWhere(md.members(d.owner.value), (m: MemberInfo) => IsMemberMatch(d, code, m), i) ==>
              r == Ok(Some(md.members(d.owner.value)[i])))
    ensures IsObject(tok) ==>
      var d := ReadDescriptor(md, tok.value.fields);
      var codeTok := PropValue(tok.value.fields, "memberType");
      && (d.Err? ==> r == Err(d.error))
      && (d.Ok? && codeTok.Err? ==> r == Err(codeTok.error))
      && (d.Ok? && codeTok.Ok? && IntValue(codeTok.value).Err? ==> r == Err(IntValue(codeTok.value).error))
  {
    if !IsObject(tok) then Ok(None)
    else
      var obj := tok.value.fields;
      var d :- ReadDescriptor(md, obj);
      var codeTok :- PropValue(obj, "memberType");
      var code :- IntValue(codeTok);
      if d.owner.None? then Err(NullReference)
      else
        var m :- FindFirst(md.members(d.owner.value), (m: MemberInfo) => IsMemberMatch(d, code, m));
        Ok(Some(m))
  }
}
