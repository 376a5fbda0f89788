/**
 * `Rewrite::RewriteType` and `Rewrite::RewriteName`: two mutually recursive
 * visitors that rebuild a type tree and a name tree, consulting the
 * substitution environment at every named type.
 *
 * The visitors of the original system push and pop results on private
 * stacks and fill argument arrays with loops; the effect is plain structural
 * recursion, which is what these functions are. A rewrite only reads the
 * environment, so it is given the environment's value.
 */
module Rewriter {
  import opened CppTypes
  import opened Environment

  /**
   * `accept`: visit the node, then OR the original flags into the node the
   * visit produced.
   */
  function RewriteType(env: EnvView, t: FullType): (r: FullType)
    ensures FlagsWithin(t.flags, r.flags)
    ensures !t.ty.NamedType? ==> r.flags == t.flags && HeadOf(r.ty) == HeadOf(t.ty)
    decreases t, 1
  {
    var produced := VisitType(env, t.ty);
    FullType(produced.ty, MergeFlags(t.flags, produced.flags))
  }

  /** The per-shape visit; every rebuilt node starts without flags. */
  function VisitType(env: EnvView, ty: Type): (r: FullType)
    ensures !ty.NamedType? ==> r.flags == 0 && HeadOf(r.ty) == HeadOf(ty)
    decreases ty, 0
  {
    match ty
    case UndefinedType => Undefined
    case VoidType => FullType(VoidType, 0)
    case IntegerType(k) => FullType(IntegerType(k), 0)
    case FloatType(k) => FullType(FloatType(k), 0)
    case PointerToMemberType(memberName, elementType) =>
      FullType(PointerToMemberType(RewriteName(env, memberName), RewriteType(env, elementType)), 0)
    case PointerType(elementType) => FullType(PointerType(RewriteType(env, elementType)), 0)
    case ReferenceType(elementType) => FullType(ReferenceType(RewriteType(env, elementType)), 0)
    case ArrayType(elementType, size) => FullType(ArrayType(RewriteType(env, elementType), size), 0)
    case NamedType(name) =>
      // a substituted type is used as it is, never rewritten again
      var substituted := EnvLookup(env, name);
      if !IsUndefined(substituted) then substituted
      else FullType(NamedType(RewriteName(env, name)), 0)
    case FunctionType(name, returnType, arguments, attributes) =>
      FullType(FunctionType(RewriteName(env, name), RewriteType(env, returnType),
                            RewriteArguments(env, arguments), attributes), 0)
    case Declaration(_, _) => FullType(ty, 0)
  }

  /** `Argument::copy`, then the argument's name and type rewritten. */
  function RewriteArgument(env: EnvView, a: Argument): (r: Argument)
    ensures r.argAttributes == a.argAttributes
    ensures r.argName.None? <==> a.argName.None?
    decreases a
  {
    Argument(RewriteName(env, a.argName), RewriteType(env, a.argType), a.argAttributes)
  }

  /** The function's arguments, rewritten one by one in order. */
  function RewriteArguments(env: EnvView, args: seq<Argument>): (r: seq<Argument>)
    ensures |r| == |args|
    ensures forall i :: 0 <= i < |args| ==> r[i] == RewriteArgument(env, args[i])
    decreases args
  {
    if args == [] then [] else [RewriteArgument(env, args[0])] + RewriteArguments(env, args[1..])
  }

  /** The template arguments, rewritten one by one in order. */
  function RewriteTypes(env: EnvView, ts: seq<FullType>): (r: seq<FullType>)
    ensures |r| == |ts|
    ensures forall i :: 0 <= i < |ts| ==> r[i] == RewriteType(env, ts[i])
    decreases ts
  {
    if ts == [] then [] else [RewriteType(env, ts[0])] + RewriteTypes(env, ts[1..])
  }

  /** The selector components, rewritten one by one in order. */
  function RewriteNames(env: EnvView, ns: seq<Option<Name>>): (r: seq<Option<Name>>)
    ensures |r| == |ns|
    ensures forall i :: 0 <= i < |ns| ==> r[i] == RewriteName(env, ns[i])
    decreases ns
  {
    if ns == [] then [] else [RewriteName(env, ns[0])] + RewriteNames(env, ns[1..])
  }

  /** `identifier`: a null identifier stays null, any other is re-interned. */
  function Reintern(id: Option<Identifier>): (r: Option<Identifier>)
    ensures r == id
  {
    match id
    case None => None
    case Some(i) => Some(Identifier(i.chars))
  }

  /**
   * `RewriteName::operator()`: a null name is rewritten to null; any other
   * name keeps its shape, identifier, operator kind, component counts and
   * `hasArguments` flag.
   */
  function RewriteName(env: EnvView, n: Option<Name>): (r: Option<Name>)
    ensures r.None? <==> n.None?
    ensures n.Some? ==> NameHeadOf(r.value) == NameHeadOf(n.value)
    decreases n
  {
    match n
    case None => None
    case Some(NameId(id)) => Some(NameId(Reintern(id)))
    case Some(QualifiedNameId(base, member)) =>
      Some(QualifiedNameId(RewriteName(env, base), RewriteName(env, member)))
    case Some(TemplateNameId(id, args)) => Some(TemplateNameId(Reintern(id), RewriteTypes(env, args)))
    case Some(DestructorNameId(id)) => Some(DestructorNameId(Reintern(id)))
    case Some(OperatorNameId(k)) => Some(OperatorNameId(k))
    case Some(ConversionNameId(target)) => Some(ConversionNameId(RewriteType(env, target)))
    case Some(SelectorNameId(names, hasArguments)) => Some(SelectorNameId(RewriteNames(env, names), hasArguments))
  }
}
