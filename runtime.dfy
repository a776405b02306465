/** Stand-ins for the parts of the .NET runtime the codec leans on: the
    exceptions it lets escape, runtime types and the member records reflection
    reports for them, generic instantiation, and the ExpressionType enumeration.
    Reflection itself is abstracted: a `Metadata` value says which type a full
    name denotes and which members a type reports, in reflection's order. */
module Runtime {

  datatype Option<+T> = None | Some(value: T)

  /** The exceptions that escape the codec, by .NET exception class. */
  datatype Exception =
    | NotSupported            // NotSupportedException
    | NullReference           // NullReferenceException
    | ArgumentNull            // ArgumentNullException
    | Argument                // ArgumentException
    | InvalidCast             // InvalidCastException
    | InvalidOperation        // InvalidOperationException
    | Format                  // FormatException
    | Overflow                // OverflowException
    | Message(text: string)   // System.Exception thrown with a message

  /** The outcome of a call that may throw. */
  datatype Result<+T> = Ok(value: T) | Err(error: Exception) {
    predicate IsFailure() { Err? }
    function PropagateFailure<U>(): Result<U> requires Err? { Err(error) }
    function Extract(): T requires Ok? { value }
  }

  /** A runtime type. A non-generic type and an open generic definition carry
      no arguments; a constructed generic type carries its arguments in order. */
  datatype RtType = RtType(fullName: string, arity: nat, arguments: seq<RtType>) {
    predicate IsGenericTypeDefinition() { arity > 0 && arguments == [] }
  }

  /** System.Reflection.MemberTypes. */
  datatype MemberTypes = Constructor | Event | Field | Method | Property | TypeInfo | Custom | NestedType

  /** The numeric value of each MemberTypes flag. */
  function Code(k: MemberTypes): int {
    match k
    case Constructor => 1
    case Event => 2
    case Field => 4
    case Method => 8
    case Property => 16
    case TypeInfo => 32
    case Custom => 64
    case NestedType => 128
  }

  /** What reflection reports of one member: its kind, its name, its
      signature text (MemberInfo.ToString()), its visibility, and for a
      method its generic arity and the type arguments it was built with. */
  datatype MemberInfo = MemberInfo(
    memberType: MemberTypes,
    name: string,
    signature: string,
    isPublic: bool,
    isStatic: bool,
    genericArity: nat,
    typeArguments: seq<RtType>)
  {
    predicate IsGenericMethodDefinition() {
      memberType == Method && genericArity > 0 && typeArguments == []
    }
  }

  /** The process-wide type namespace and, for each type, every member it
      reports (public and non-public, instance and static) in reflection order. */
  datatype Metadata = Metadata(types: map<string, RtType>, members: RtType -> seq<MemberInfo>)

  /** System.Type.GetType(name): null for an unknown name, a throw for a null name. */
  function GetType(md: Metadata, name: Option<string>): (r: Result<Option<RtType>>)
    ensures name.None? ==> r == Err(ArgumentNull)
    ensures name.Some? ==> r.Ok? && (r.value.Some? <==> name.value in md.types)
    ensures name.Some? && r.value.Some? ==> r.value.value == md.types[name.value]
  {
    if name.None? then Err(ArgumentNull)
    else if name.value in md.types then Ok(Some(md.types[name.value]))
    else Ok(None)
  }

  predicate AllPresent<T>(xs: seq<Option<T>>) {
    forall i :: 0 <= i < |xs| ==> xs[i].Some?
  }

  function Values<T>(xs: seq<Option<T>>): (r: seq<T>)
    requires AllPresent(xs)
    ensures |r| == |xs| && forall i :: 0 <= i < |xs| ==> xs[i] == Some(r[i])
  {
    seq(|xs|, i requires 0 <= i < |xs| => xs[i].value)
  }

  /** Type.MakeGenericType: only on an open definition, with no null argument
      and exactly as many arguments as the definition has parameters. */
  function MakeGenericType(def: RtType, args: seq<Option<RtType>>): (r: Result<RtType>)
    ensures r.Ok? <==> def.IsGenericTypeDefinition() && AllPresent(args) && |args| == def.arity
    ensures r.Ok? ==>
      && r.value.fullName == def.fullName && r.value.arity == def.arity
      && |r.value.arguments| == |args|
      && forall i :: 0 <= i < |args| ==> args[i] == Some(r.value.arguments[i])
  {
    if !def.IsGenericTypeDefinition() then Err(InvalidOperation)
    else if !AllPresent(args) then Err(ArgumentNull)
    else if |args| != def.arity then Err(Argument)
    else Ok(RtType(def.fullName, def.arity, Values(args)))
  }

  /** MethodInfo.MakeGenericMethod, with the same three checks. */
  function MakeGenericMethod(m: MemberInfo, args: seq<Option<RtType>>): (r: Result<MemberInfo>)
    ensures r.Ok? <==> m.IsGenericMethodDefinition() && AllPresent(args) && |args| == m.genericArity
    ensures r.Ok? ==>
      && r.value == m.(typeArguments := r.value.typeArguments)
      && |r.value.typeArguments| == |args|
      && forall i :: 0 <= i < |args| ==> args[i] == Some(r.value.typeArguments[i])
  {
    if !m.IsGenericMethodDefinition() then Err(InvalidOperation)
    else if !AllPresent(args) then Err(ArgumentNull)
    else if |args| != m.genericArity then Err(Argument)
    else Ok(m.(typeArguments := Values(args)))
  }

  /** Index `i` holds the first element of `s` satisfying `p`. */
  predicate FirstWhere<T>(s: seq<T>, p: T -> bool, i: int) {
    0 <= i < |s| && p(s[i]) && forall j :: 0 <= j < i ==> !p(s[j])
  }

  /** The index of the first element satisfying `p` (LINQ First/FirstOrDefault). */
  function FirstIndex<T>(s: seq<T>, p: T -> bool): (r: Option<nat>)
    ensures r.None? <==> forall j :: 0 <= j < |s| ==> !p(s[j])
    ensures r.Some? ==> FirstWhere(s, p, r.value)
    ensures forall i :: FirstWhere(s, p, i) ==> r == Some(i)
  {
    if |s| == 0 then None
    else if p(s[0]) then Some(0)
    else match FirstIndex(s[1..], p)
      case None => None
      case Some(i) => Some(i + 1)
  }

  /** System.Linq.Expressions.ExpressionType, by member name. */
  datatype ExpressionType = ExpressionType(name: string)

  const ExpressionTypeNames: seq<string> := [
    "Add", "AddChecked", "And", "AndAlso", "ArrayLength", "ArrayIndex", "Call",
    "Coalesce", "Conditional", "Constant", "Convert", "ConvertChecked", "Divide",
    "Equal", "ExclusiveOr", "GreaterThan", "GreaterThanOrEqual", "Invoke", "Lambda",
    "LeftShift", "LessThan", "LessThanOrEqual", "ListInit", "MemberAccess",
    "MemberInit", "Modulo", "Multiply", "MultiplyChecked", "Negate", "UnaryPlus",
    "NegateChecked", "New", "NewArrayInit", "NewArrayBounds", "Not", "NotEqual",
    "Or", "OrElse", "Parameter", "Power", "Quote", "RightShift", "Subtract",
    "SubtractChecked", "TypeAs", "TypeIs", "Assign", "Block", "DebugInfo",
    "Decrement", "Dynamic", "Default", "Extension", "Goto", "Increment", "Index",
    "Label", "RuntimeVariables", "Loop", "Switch", "Throw", "Try", "Unbox",
    "AddAssign", "AndAssign", "DivideAssign", "ExclusiveOrAssign", "LeftShiftAssign",
    "ModuloAssign", "MultiplyAssign", "OrAssign", "PowerAssign", "RightShiftAssign",
    "SubtractAssign", "AddAssignChecked", "MultiplyAssignChecked",
    "SubtractAssignChecked", "PreIncrementAssign", "PreDecrementAssign",
    "PostIncrementAssign", "PostDecrementAssign", "TypeEqual", "OnesComplement",
    "IsTrue", "IsFalse"]

  const DefaultNodeType: ExpressionType := ExpressionType("Default")

  /** Enum.Parse(typeof(ExpressionType), s) for a member name. */
  function ParseExpressionType(s: Option<string>): (r: Result<ExpressionType>)
    ensures r.Ok? <==> s.Some? && s.value in ExpressionTypeNames
    ensures r.Ok? ==> r.value.name == s.value
    ensures s.None? ==> r == Err(ArgumentNull)
    ensures s.Some? && s.value !in ExpressionTypeNames ==> r == Err(Argument)
  {
    if s.None? then Err(ArgumentNull)
    else if s.value in ExpressionTypeNames then Ok(ExpressionType(s.value))
    else Err(Argument)
  }
}
