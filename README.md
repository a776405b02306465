# Expression-tree JSON codec: dispatch, registries and resolution

This project models the bookkeeping at the centre of Itminus.ExprSerDe, a
codec that writes a .NET expression tree as a JSON object and reads it back.
Reflection and Newtonsoft.Json are replaced by small stand-ins. The model
covers:

- **Decoding entry** (`Deserialization`): the `Expression(token)` header
  read (`nodeType`, `type`, `typeName`) and the switch on the `typeName`
  discriminator. The switch selects one of 25 decoders or throws
  NotSupportedException.
- **Label registry** (`Deserialization.Deserializer`): a class whose
  `labelTargets` map is updated in place by `CreateLabelTarget`, where the
  first registration of a name wins. The static `Deserialize` starts every
  call with a fresh session.
- **Accessors** (`Accessors`): `Prop<T>`, the non-generic `Prop`, `Enum`
  and `Enumerable`, with their null and ordering behaviour.
- **Reflection resolution** (`Reflection`):
  - `Type(token)`, including generic instantiation;
  - the three-level constructor cache (`Reflection.ConstructorCache`, a
    class whose nested map is filled lazily) and `ConstructorInternal`,
    which searches public constructors before non-public ones;
  - the first-match lookups `Method`, `Property` and `Member`.
- **Encoders and decoder for three node kinds**
  (`Serialization.Serializer`, `DefaultDecoding`):
  - the `conditional`, `runtimeVariables` and `default` encoders, which
    append properties to the object being written;
  - the `default` decoder.
- **Round trips** (`RoundTrip`): every encoder's tag reaches its own decoder
  and children are read back as they were written. A `default` node whose
  header reads back as node type Default and a type `t` decodes to a default
  node of type `t`.

Modelling choices:

- **Missing property versus JSON null.** An absent property or a null
  `JToken` is `None`. A JSON `null` literal is the token `Json.Doc.Null`, as
  it is in Newtonsoft.Json.
- **Exceptions are values.** Every exception the source lets escape is a
  `Runtime.Result` error naming its .NET class. The one thrown with a text is
  `Message(text)`.
- **Reflection is a value.** `Runtime.Metadata` holds the type namespace and,
  for each type, its members in reflection order. A member's `ToString()`
  signature is an opaque string.
- **Decoders are left unexpanded.** `Expression(token)` returns the
  decoder call it makes (the selected kind with `nodeType`, `type` and the
  object) rather than running the 24 decoders outside the model.
- **The constructor cache is an object.** The process-wide static
  `ConstructorCache` is a `ConstructorCache` object owned by its user. Its
  ghost state records two things: the same table keyed by the
  (type, name, signature) triple, which the class invariant proves agrees
  with the nested maps, and the number of scans.
- **Child encodings are a parameter.** Serializer.Expression, the recursive
  encoding of a child node, is the `expression` parameter of
  `Serialization.Serializer`.

## Model

| member | source | states |
|---|---|---|
| `Json.GetProperty` | Itminus.ExprSerDe/Deserializer.cs:37 | `obj.Property(name)` gives null exactly when there is no property with that name, and otherwise the value of the first one |
| `Runtime.FirstIndex` | Itminus.ExprSerDe/Deserializer/Deserializer.Reflection.cs:105-107 | `FirstOrDefault` finds no index exactly when no element satisfies the predicate, and otherwise the first index that does |
| `Runtime.GetType` | Itminus.ExprSerDe/Deserializer/Deserializer.Reflection.cs:39 | `Type.GetType` throws ArgumentNull for a null name, and otherwise gives the registered type, or null exactly when the name is unknown |
| `Runtime.ParseExpressionType` | Itminus.ExprSerDe/Deserializer.cs:64 | `Enum.Parse` succeeds exactly on an ExpressionType member name and returns that member; a null string throws ArgumentNull and any other string Argument |
| `Json.DecimalText` | Itminus.ExprSerDe/Deserializer/Deserializer.Reflection.cs:61 | the text `Value<string>()` gives an integer is a minus sign exactly for a negative value, then decimal digits with no leading zero (only 0 is written "0"), and it parses back to that integer |
| `Json.Digits` | Itminus.ExprSerDe/Deserializer/Deserializer.Reflection.cs:61 | a natural number's digits are decimal digits with no leading zero (only 0 is written "0"), and read back as that number |
| `Json.StringValue` | Itminus.ExprSerDe/Deserializer.cs:94 | `Value<string>()` gives a string as it is, JSON null as null and an integer as its decimal text; it throws InvalidCast exactly for an array or object |
| `Json.IntValue` | Itminus.ExprSerDe/Deserializer/Deserializer.Reflection.cs:197 | `Value<int>()` succeeds exactly on an integer token within 32 bits, and returns that integer; a larger integer throws Overflow, a string Format, anything else InvalidCast |
| `Accessors.Prop` | Itminus.ExprSerDe/Deserializer.cs:35-43 | the result function receives null for an absent property, or else the value of the first property with that name |
| `Accessors.DefaultResult` | Itminus.ExprSerDe/Deserializer.cs:40 | the default result function gives default(T) for a null token and the converted value for any other |
| `Accessors.PropOrDefault` | Itminus.ExprSerDe/Deserializer.cs:39-42 | without a result function, an absent property yields default(T) and a present one its converted value |
| `Accessors.PropValue` | Itminus.ExprSerDe/Deserializer.cs:51-54 | the non-generic Prop returns the value of the first property with that name, and throws NullReference exactly when the property is absent |
| `Accessors.ReadString` | Itminus.ExprSerDe/Deserializer.cs:94 | `t => t.Value<string>()` throws ArgumentNull on a missing token, and otherwise reads the token's string value |
| `Accessors.Enum` | Itminus.ExprSerDe/Deserializer.cs:62-65 | succeeds exactly when the token's string value is an ExpressionType member name, and returns that member |
| `Accessors.MapAll` | Itminus.ExprSerDe/Deserializer.cs:80 | `Select(f).ToList()` succeeds iff f succeeds on every item, keeps length and order, and otherwise throws the first failure's exception |
| `Accessors.Enumerable` | Itminus.ExprSerDe/Deserializer.cs:73-83 | null exactly for a missing or non-array token; for an array, either a list of the same length whose i-th element is f(array[i]), or the exception `Select(f).ToList()` throws |
| `Runtime.MakeGenericType` | Itminus.ExprSerDe/Deserializer/Deserializer.Reflection.cs:41 | instantiation succeeds iff the type is an open definition and the arguments are non-null and match its arity; it keeps the arguments in order |
| `Runtime.MakeGenericMethod` | Itminus.ExprSerDe/Deserializer/Deserializer.Reflection.cs:153 | instantiation succeeds iff the method is an open definition and the arguments are non-null and match its arity; it keeps the arguments in order and changes nothing else about the method |
| `Reflection.ResolveType` | Itminus.ExprSerDe/Deserializer/Deserializer.Reflection.cs:28-45 | `Type(token)` is null for a null or non-object token, and otherwise the type the object describes, as `Reflection.TypeOfDoc` reads it |
| `Reflection.TypeOfDoc` | Itminus.ExprSerDe/Deserializer/Deserializer.Reflection.cs:34-44 | a non-object token resolves to null; failed assemblyName, typeName and genericArguments reads propagate in that order; a null typeName throws ArgumentNull; without genericArguments the result is the named type, or null when the name is unknown; with genericArguments an unknown name throws NullReference and a known one is instantiated by `Reflection.Instantiate` |
| `Reflection.TypeListIsMapAll` | Itminus.ExprSerDe/Deserializer/Deserializer.Reflection.cs:37 | the recursive walk over the genericArguments array is `Select(Type).ToList()` over its items |
| `Reflection.GenericArgumentsIsEnumerable` | Itminus.ExprSerDe/Deserializer/Deserializer.Reflection.cs:37 | genericArguments are read exactly as `Prop(obj, "genericArguments", Enumerable(Type))` |
| `Reflection.Instantiate` | Itminus.ExprSerDe/Deserializer/Deserializer.Reflection.cs:39-44 | the type is instantiated with the arguments in order only when arguments are present and it is a generic definition; otherwise it is returned unchanged; an unknown type with arguments throws NullReference |
| `Reflection.ReadDescriptor` | Itminus.ExprSerDe/Deserializer/Deserializer.Reflection.cs:60-62 | `type`, `name` and `signature` are read in that order and the first failure propagates; an absent name or signature throws NullReference; on success the descriptor holds the three values read |
| `Reflection.NotFoundMessage` | Itminus.ExprSerDe/Deserializer/Deserializer.Reflection.cs:115-121 | the not-found message contains the type's full name and the requested signature |
| `Reflection.ConstructorInternal` | Itminus.ExprSerDe/Deserializer/Deserializer.Reflection.cs:102-126 | the result is an instance constructor of the type whose name and signature equal the request; it is the first public match, else the first non-public match when no public one exists; it throws the not-found message iff nothing matches |
| `Reflection.ConstructorCache.constructor` | Itminus.ExprSerDe/Deserializer/Deserializer.Reflection.cs:20 | the cache starts empty |
| `Reflection.ConstructorCache.Constructor` | Itminus.ExprSerDe/Deserializer/Deserializer.Reflection.cs:53-100 | null for a non-object token; a read failure propagates; a null type throws ArgumentNull; a null name or signature throws ArgumentNull when the cache holds the level looked up with it, and the not-found message otherwise; for a full key the result is what a fresh ConstructorInternal gives; a cached key is served without a scan; a miss scans once and fills exactly the first missing level; a failure changes nothing |
| `Reflection.ConstructorCache.Resolve` | Itminus.ExprSerDe/Deserializer/Deserializer.Reflection.cs:64-99 | a null type throws ArgumentNull; a null name or signature throws ArgumentNull from `TryGetValue` when the level it is looked up in is cached, and otherwise the scan's not-found message; for a full key the result equals ConstructorInternal's, a miss fills exactly the first missing level, and `ConstructorCache[type][name][signature]` then holds the result |
| `Reflection.ConstructorCache.Miss` | Itminus.ExprSerDe/Deserializer/Deserializer.Reflection.cs:68-97 | exactly one scan; when it throws the cache is unchanged; when it succeeds the entry is stored at the first missing level, by one of the three insertions, and no other key changes |
| `Reflection.ConstructorCache.AddType` | Itminus.ExprSerDe/Deserializer/Deserializer.Reflection.cs:71-82 | a new type level holding only the new entry, which keeps the nested and triple-keyed views in agreement |
| `Reflection.ConstructorCache.AddName` | Itminus.ExprSerDe/Deserializer/Deserializer.Reflection.cs:87-92 | a new name level under a known type, holding only the new entry |
| `Reflection.ConstructorCache.AddSignature` | Itminus.ExprSerDe/Deserializer/Deserializer.Reflection.cs:96 | a new signature under a known name; nothing else in the nested maps changes |
| `Reflection.AddsEntryLookup` | Itminus.ExprSerDe/Deserializer/Deserializer.Reflection.cs:68-97 | each of the three insertions changes the lookup at the new key only, and that key was absent before |
| `Reflection.AddKeepsAgreement` | Itminus.ExprSerDe/Deserializer/Deserializer.Reflection.cs:20 | the nested dictionaries and the triple-keyed map still agree after an insertion |
| `Reflection.ConstructorTwice` | Itminus.ExprSerDe/Deserializer/Deserializer.Reflection.cs:94-99 | a repeated lookup returns the same result; a found constructor is scanned for at most once, and a missing one is scanned for on every call |
| `Reflection.FindFirst` | Itminus.ExprSerDe/Deserializer/Deserializer.Reflection.cs:150 | `First` returns the first accepted member whenever there is one, and throws InvalidOperation iff none is accepted |
| `Reflection.InstantiateMethod` | Itminus.ExprSerDe/Deserializer/Deserializer.Reflection.cs:152-154 | generic arguments are applied, in order, only to a generic method definition |
| `Reflection.MethodGenerics` | Itminus.ExprSerDe/Deserializer/Deserializer.Reflection.cs:144 | null exactly for a missing or non-array `generic` property; for an array, each item resolved with Type, in order, or the first item's exception |
| `Reflection.SelectMethod` | Itminus.ExprSerDe/Deserializer/Deserializer.Reflection.cs:146-154 | when a method with that name and signature exists, the result is the first such method, instantiated; a null type throws NullReference and no match throws InvalidOperation |
| `Reflection.ResolveMethod` | Itminus.ExprSerDe/Deserializer/Deserializer.Reflection.cs:134-157 | null for a non-object token; a failed descriptor read propagates, then a failed `generic` read; once both succeed the result is exactly the selected method (`Reflection.SelectMethod`) or its exception |
| `Reflection.ResolveProperty` | Itminus.ExprSerDe/Deserializer/Deserializer.Reflection.cs:164-180 | null for a non-object token; a failed descriptor read propagates; when a property with that name and signature exists the result is the first one; a null type throws NullReference and no match throws InvalidOperation |
| `Reflection.ResolveMember` | Itminus.ExprSerDe/Deserializer/Deserializer.Reflection.cs:187-205 | null for a non-object token; failed descriptor, `memberType` and `Value<int>()` reads propagate in that order; when a member with that MemberTypes code, name and signature exists the result is the first one; a null type throws NullReference and no match throws InvalidOperation |
| `Deserialization.Dispatch` | Itminus.ExprSerDe/Deserializer.cs:96-123 | the switch selects a decoder iff the discriminator is one of the case labels, that decoder's label equals it, and anything else throws NotSupported |
| `Deserialization.TagRoundTrip` | Itminus.ExprSerDe/Deserializer.cs:97-121 | every decoder is selected by its own case label |
| `Deserialization.TagsDistinct` | Itminus.ExprSerDe/Deserializer.cs:97-121 | no two decoders share a case label |
| `Deserialization.KindCount` | Itminus.ExprSerDe/Deserializer.cs:97-121 | the switch has 25 distinct decoders |
| `Deserialization.EveryKindListed` | Itminus.ExprSerDe/Deserializer.cs:97-121 | every decoder kind appears among the switch's cases |
| `Deserialization.ReadHeader` | Itminus.ExprSerDe/Deserializer.cs:92-94 | `nodeType`, `type` and `typeName` are read in that order and the first failure propagates; on success the header holds the three values read |
| `Deserialization.Expression` | Itminus.ExprSerDe/Deserializer.cs:85-124 | null exactly for a null or non-object token; a header read failure propagates; otherwise the header's discriminator selects the decoder, which is called with the header's nodeType and type and the object itself |
| `Deserialization.Deserializer.constructor` | Itminus.ExprSerDe/Deserializer.cs:18-20 | a new deserializer has an empty label registry |
| `Deserialization.Deserializer.CreateLabelTarget` | Itminus.ExprSerDe/Deserializer.cs:126-133 | a registered name returns the same target and leaves the map unchanged, whatever the type; a new name adds exactly one entry, a fresh target with that name and type; a null name or type throws ArgumentNull |
| `Deserialization.Deserializer.Deserialize` | Itminus.ExprSerDe/Deserializer.cs:12-16 | every call decodes with a fresh deserializer whose label registry is empty |
| `Deserialization.SameSessionShares` | Itminus.ExprSerDe/Deserializer.cs:127-128 | two references to one label in a session give the identical target, with the first reference's type |
| `Deserialization.SeparateSessionsDoNotShare` | Itminus.ExprSerDe/Deserializer.cs:12-16 | the same label in two Deserialize calls gives two distinct targets |
| `DefaultDecoding.DefaultExpression` | Itminus.ExprSerDe/Deserializer/Deserializer.DefaultExpression.cs:10-18 | succeeds iff nodeType is Default and a type is given, and then returns a default node of exactly that type; another nodeType throws NotSupported |
| `DefaultDecoding.DefaultIgnoresObject` | Itminus.ExprSerDe/Deserializer/Deserializer.DefaultExpression.cs:10-18 | the object's fields never change the outcome |
| `Serialization.EncodeAll` | Itminus.ExprSerDe/Serializer/Serialization.RuntimeVariables.cs:14 | the variables array has one element per variable, and element i is variable i's encoding |
| `Serialization.Serializer.Prop` | Itminus.ExprSerDe/Serializer/Serialization.Default.cs:13 | writing a property appends exactly that name and value after the properties already written |
| `Serialization.Serializer.ConditionalExpression` | Itminus.ExprSerDe/Serializer/Serialization.Conditional.cs:7-18 | returns true iff the node is a conditional; then it appends typeName "conditional" followed by test, ifTrue and ifFalse, in that order; otherwise it writes nothing |
| `Serialization.Serializer.RuntimeVariablesExpression` | Itminus.ExprSerDe/Serializer/Serialization.RuntimeVariables.cs:8-17 | returns true iff the node is a runtime-variables node; then it appends typeName "runtimeVariables" followed by the variables array; otherwise it writes nothing |
| `Serialization.Serializer.DefaultExpression` | Itminus.ExprSerDe/Serializer/Serialization.Default.cs:8-16 | returns true iff the node is a default node; then it appends typeName "default" only; otherwise it writes nothing |
| `RoundTrip.GetPropertyAppend` | Itminus.ExprSerDe/Deserializer.cs:37 | a property appended after others is read back unless an earlier one has the same name (in a JObject names are distinct, so this is the case the round trips use) |
| `RoundTrip.TagSelects` | Itminus.ExprSerDe/Deserializer.cs:94-96 | an object whose typeName holds a decoder's tag selects that decoder |
| `RoundTrip.ConditionalReadBack` | Itminus.ExprSerDe/Serializer/Serialization.Conditional.cs:12-15 | after a header, the conditional tag selects the conditional decoder, and test, ifTrue and ifFalse read back as the children's encodings |
| `RoundTrip.EnumerableInvertsEncodeAll` | Itminus.ExprSerDe/Deserializer.cs:75-82 | Enumerable with a decoder that inverts the encoding gives back the encoded items in order |
| `RoundTrip.RuntimeVariablesReadBack` | Itminus.ExprSerDe/Serializer/Serialization.RuntimeVariables.cs:13-14 | after a header, the runtimeVariables tag selects its decoder and the variables array reads back as the variables, in order |
| `RoundTrip.DefaultReadBack` | Itminus.ExprSerDe/Serializer/Serialization.Default.cs:13 | after a header, the default tag selects the default decoder |
| `RoundTrip.DefaultRoundTrip` | Itminus.ExprSerDe/Deserializer/Deserializer.DefaultExpression.cs:12-14 | a default node whose header reads as node type Default and type t is dispatched to the default decoder, which rebuilds a default node of type t |

## Left out

- **Real reflection and JSON.** `Type.GetType`, `GetConstructors`,
  `GetMethods`, `GetProperties` and `GetMembers`, and JToken parsing are
  replaced by `Runtime.Metadata` and `Json.Doc`. Assembly loading is not
  modelled: `assemblyName` is read but, as in the source, unused.
- **Signature text.** The exact text of `MemberInfo.ToString()` is not
  modelled; a signature is an opaque string.
- **Visibility filter.** The binding-flag filter of `GetMethods`,
  `GetProperties` and `GetMembers` is not modelled: every member of the type
  is searched, which matches flags that ask for public and non-public,
  instance and static members.
- **Generic constraints.** The constraint checks of `MakeGenericType` and
  `MakeGenericMethod` are not modelled. The full name of a constructed type
  keeps the definition's name.
- **Expression factory validation.** The type validation done by
  `Expression.Default` and `Expression.Label` is left out beyond their null
  checks.
- **Enum.Parse input forms.** Only member names are modelled. Numeric
  strings, surrounding whitespace and comma-separated flag lists are not.
- Json.IntValue: `Value<int>()` on a numeric string is modelled as a
  FormatException for every string, whereas .NET's conversion parses a
  numeric string.
- Json.StringValue: integers beyond 64 bits, which Newtonsoft.Json holds as
  a BigInteger, are treated like any other integer: the model gives them
  their decimal text, and `Json.IntValue` gives them Overflow. Newtonsoft's
  own conversion of a BigInteger token (an InvalidCastException for these
  reads) is not modelled.
- Json.GetProperty: a `Doc` object may repeat a property name, which a
  JObject cannot. The model reads the first occurrence, whereas
  `JToken.ReadFrom` in ExpressionJsonConverter.cs:28 keeps the last value of
  a repeated name. The two agree on objects whose names are distinct, which
  is every document the encoders write after a header that carries none of
  their names.
- Accessors.Enum: the parse is an exact name match, so this contract is
  weaker than `Enum.Parse` for numeric and flag forms.
- Json.StringValue: a float, boolean or date token is not modelled (the
  `Doc` type has none).
- **Threading.** Thread safety of the static `ConstructorCache` is out of
  scope. It is modelled as single-threaded state owned by one object rather
  than a process-wide static.
- **Other node kinds.** The 22 decoders and encoders other than
  `conditional`, `runtimeVariables` and `default` are out of scope; only
  their dispatch tags are modelled.
- **The conditional decoder.** Deserializer.ConditionalExpression is not
  part of this model. The conditional round trip therefore stops at the
  dispatch and at reading back the child encodings.
- **The runtime-variables decoder.** Deserializer.RuntimeVariablesExpression
  is not part of this model either, so the same limit applies to that round
  trip.
- **The serializer's header and recursion.** Serializer.Expression writes
  the header (`nodeType`, `type`) and encodes children; it is not part of
  this model. Child encodings are a parameter, and round trips assume a
  header that carries none of an encoder's property names.
- **ExpressionJsonConverter.** ExpressionJsonConverter.cs is a framework
  adapter and is not modelled.
- **Tests.** The repository's tests compile and execute expressions and are
  not modelled.
- **Dispatch order.** The switch is modelled as a search over its case
  labels in source order. Since the labels are distinct
  (`Deserialization.TagsDistinct`), this selects the same decoder a switch
  does.
