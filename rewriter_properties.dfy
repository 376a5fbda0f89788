/**
 * What the rewriter promises about whole trees: a tree the environment has
 * nothing to substitute in comes back structurally equal (in particular any
 * tree under an empty environment), a substituted named type is used as it
 * is with the flags of both sides, functions keep their arity and argument
 * order, and declarations pass through.
 */
module RewriterProperties {
  import opened CppTypes
  import opened Environment
  import opened Rewriter

  /** Every named type in `t` gets no answer from the environment. */
  predicate UnsubstitutedType(env: EnvView, t: FullType)
    decreases t, 1
  {
    UnsubstitutedNode(env, t.ty)
  }

  predicate UnsubstitutedNode(env: EnvView, ty: Type)
    decreases ty, 0
  {
    match ty
    case PointerToMemberType(memberName, elementType) =>
      UnsubstitutedName(env, memberName) && UnsubstitutedType(env, elementType)
    case PointerType(elementType) => UnsubstitutedType(env, elementType)
    case ReferenceType(elementType) => UnsubstitutedType(env, elementType)
    case ArrayType(elementType, _) => UnsubstitutedType(env, elementType)
    case NamedType(name) => IsUndefined(EnvLookup(env, name)) && UnsubstitutedName(env, name)
    case FunctionType(name, returnType, args, _) =>
      && UnsubstitutedName(env, name)
      && UnsubstitutedType(env, returnType)
      && forall i :: 0 <= i < |args| ==> UnsubstitutedArgument(env, args[i])
    case _ => true
  }

  predicate UnsubstitutedArgument(env: EnvView, a: Argument)
    decreases a
  {
    UnsubstitutedName(env, a.argName) && UnsubstitutedType(env, a.argType)
  }

  /** Every named type nested in `n` gets no answer from the environment. */
  predicate UnsubstitutedName(env: EnvView, n: Option<Name>)
    decreases n
  {
    match n
    case Some(QualifiedNameId(base, member)) => UnsubstitutedName(env, base) && UnsubstitutedName(env, member)
    case Some(TemplateNameId(_, args)) => forall i :: 0 <= i < |args| ==> UnsubstitutedType(env, args[i])
    case Some(ConversionNameId(target)) => UnsubstitutedType(env, target)
    case Some(SelectorNameId(names, _)) => forall i :: 0 <= i < |names| ==> UnsubstitutedName(env, names[i])
    case _ => true
  }

  /** A type with nothing to substitute is rebuilt structurally equal, flags included. */
  lemma {:induction false} UnsubstitutedTypeUnchanged(env: EnvView, t: FullType)
    requires UnsubstitutedType(env, t)
    ensures RewriteType(env, t) == t
    decreases t, 1
  {
    match t.ty
    case PointerToMemberType(memberName, elementType) =>
      UnsubstitutedNameUnchanged(env, memberName);
      UnsubstitutedTypeUnchanged(env, elementType);
    case PointerType(elementType) => UnsubstitutedTypeUnchanged(env, elementType);
    case ReferenceType(elementType) => UnsubstitutedTypeUnchanged(env, elementType);
    case ArrayType(elementType, _) => UnsubstitutedTypeUnchanged(env, elementType);
    case NamedType(name) => UnsubstitutedNameUnchanged(env, name);
    case FunctionType(name, returnType, args, _) =>
      UnsubstitutedNameUnchanged(env, name);
      UnsubstitutedTypeUnchanged(env, returnType);
      forall i | 0 <= i < |args|
        ensures RewriteArgument(env, args[i]) == args[i]
      {
        UnsubstitutedArgumentUnchanged(env, args[i]);
      }
      assert RewriteArguments(env, args) == args;
    case _ =>
  }

  lemma {:induction false} UnsubstitutedArgumentUnchanged(env: EnvView, a: Argument)
    requires UnsubstitutedArgument(env, a)
    ensures RewriteArgument(env, a) == a
    decreases a
  {
    UnsubstitutedNameUnchanged(env, a.argName);
    UnsubstitutedTypeUnchanged(env, a.argType);
  }

  /** A name with nothing to substitute is rebuilt structurally equal. */
  lemma {:induction false} UnsubstitutedNameUnchanged(env: EnvView, n: Option<Name>)
    requires UnsubstitutedName(env, n)
    ensures RewriteName(env, n) == n
    decreases n
  {
    match n
    case Some(QualifiedNameId(base, member)) =>
      UnsubstitutedNameUnchanged(env, base);
      UnsubstitutedNameUnchanged(env, member);
    case Some(TemplateNameId(_, args)) =>
      forall i | 0 <= i < |args|
        ensures RewriteType(env, args[i]) == args[i]
      {
        UnsubstitutedTypeUnchanged(env, args[i]);
      }
      assert RewriteTypes(env, args) == args;
    case Some(ConversionNameId(target)) => UnsubstitutedTypeUnchanged(env, target);
    case Some(SelectorNameId(names, _)) =>
      forall i | 0 <= i < |names|
        ensures RewriteName(env, names[i]) == names[i]
      {
        UnsubstitutedNameUnchanged(env, names[i]);
      }
      assert RewriteNames(env, names) == names;
    case _ =>
  }

  /** An empty environment has nothing to substitute anywhere in a type ... */
  lemma {:induction false} EmptyEnvironmentLeavesType(env: EnvView, t: FullType)
    requires env.substs == []
    ensures UnsubstitutedType(env, t)
    decreases t, 1
  {
    match t.ty
    case PointerToMemberType(memberName, elementType) =>
      EmptyEnvironmentLeavesName(env, memberName);
      EmptyEnvironmentLeavesType(env, elementType);
    case PointerType(elementType) => EmptyEnvironmentLeavesType(env, elementType);
    case ReferenceType(elementType) => EmptyEnvironmentLeavesType(env, elementType);
    case ArrayType(elementType, _) => EmptyEnvironmentLeavesType(env, elementType);
    case NamedType(name) => EmptyEnvironmentLeavesName(env, name);
    case FunctionType(name, returnType, args, _) =>
      EmptyEnvironmentLeavesName(env, name);
      EmptyEnvironmentLeavesType(env, returnType);
      forall i | 0 <= i < |args|
        ensures UnsubstitutedArgument(env, args[i])
      {
        EmptyEnvironmentLeavesArgument(env, args[i]);
      }
    case _ =>
  }

  lemma {:induction false} EmptyEnvironmentLeavesArgument(env: EnvView, a: Argument)
    requires env.substs == []
    ensures UnsubstitutedArgument(env, a)
    decreases a
  {
    EmptyEnvironmentLeavesName(env, a.argName);
    EmptyEnvironmentLeavesType(env, a.argType);
  }

  /** ... nor anywhere in a name. */
  lemma {:induction false} EmptyEnvironmentLeavesName(env: EnvView, n: Option<Name>)
    requires env.substs == []
    ensures UnsubstitutedName(env, n)
    decreases n
  {
    match n
    case Some(QualifiedNameId(base, member)) =>
      EmptyEnvironmentLeavesName(env, base);
      EmptyEnvironmentLeavesName(env, member);
    case Some(TemplateNameId(_, args)) =>
      forall i | 0 <= i < |args|
        ensures UnsubstitutedType(env, args[i])
      {
        EmptyEnvironmentLeavesType(env, args[i]);
      }
    case Some(ConversionNameId(target)) => EmptyEnvironmentLeavesType(env, target);
    case Some(SelectorNameId(names, _)) =>
      forall i | 0 <= i < |names|
        ensures UnsubstitutedName(env, names[i])
      {
        EmptyEnvironmentLeavesName(env, names[i]);
      }
    case _ =>
  }

  /** Under an empty environment rewriting a type is the identity. */
  lemma EmptyEnvironmentKeepsType(env: EnvView, t: FullType)
    requires env.substs == []
    ensures RewriteType(env, t) == t
  {
    EmptyEnvironmentLeavesType(env, t);
    UnsubstitutedTypeUnchanged(env, t);
  }

  /** Under an empty environment rewriting a name is the identity. */
  lemma EmptyEnvironmentKeepsName(env: EnvView, n: Option<Name>)
    requires env.substs == []
    ensures RewriteName(env, n) == n
  {
    EmptyEnvironmentLeavesName(env, n);
    UnsubstitutedNameUnchanged(env, n);
  }

  /**
   * A named type the environment answers is replaced by that answer as it
   * is (it is not rewritten again), carrying exactly the union of the flags
   * of the original and of the answer.
   */
  lemma SubstitutedNamedType(env: EnvView, t: FullType)
    requires t.ty.NamedType? && !IsUndefined(EnvLookup(env, t.ty.name))
    ensures var s := EnvLookup(env, t.ty.name);
            var r := RewriteType(env, t);
            r.ty == s.ty && FlagsWithin(t.flags, r.flags) && FlagsWithin(s.flags, r.flags)
    ensures var s := EnvLookup(env, t.ty.name);
            RewriteType(env, t) == FullType(s.ty, t.flags | s.flags)
  {
  }

  /**
   * A named type the environment does not answer becomes a named type over
   * the rewritten name, with the original flags.
   */
  lemma UnsubstitutedNamedType(env: EnvView, t: FullType)
    requires t.ty.NamedType? && IsUndefined(EnvLookup(env, t.ty.name))
    ensures RewriteType(env, t) == FullType(NamedType(RewriteName(env, t.ty.name)), t.flags)
  {
  }

  /**
   * A rewritten function has the original's attributes, rewritten name and
   * return type, and the same number of arguments, argument i being the
   * original argument i with its name and type rewritten.
   */
  lemma RewrittenFunction(env: EnvView, t: FullType)
    requires t.ty.FunctionType?
    ensures var r := RewriteType(env, t);
            var args := t.ty.arguments;
            && r.flags == t.flags
            && r.ty.FunctionType?
            && r.ty.attributes == t.ty.attributes
            && r.ty.name == RewriteName(env, t.ty.name)
            && r.ty.returnType == RewriteType(env, t.ty.returnType)
            && |r.ty.arguments| == |args|
            && forall i :: 0 <= i < |args| ==>
                 && r.ty.arguments[i].argName == RewriteName(env, args[i].argName)
                 && r.ty.arguments[i].argType == RewriteType(env, args[i].argType)
                 && r.ty.arguments[i].argAttributes == args[i].argAttributes
  {
  }

  /**
   * An undefined type keeps the flags it carried: the visit produces a
   * flagless undefined type and the original flags are OR-ed into it.
   */
  lemma UndefinedKeepsFlags(env: EnvView, f: Flags)
    ensures RewriteType(env, FullType(UndefinedType, f)) == FullType(UndefinedType, f)
  {
  }

  /** Declarations (classes, namespaces, enums, Objective-C shapes) pass through unchanged. */
  lemma DeclarationPassesThrough(env: EnvView, t: FullType)
    requires t.ty.Declaration?
    ensures RewriteType(env, t) == t
  {
  }

  /**
   * A rewritten template name keeps its identifier and its arguments' count
   * and order, argument i being the rewrite of argument i; a selector keeps
   * its component count and order and its `hasArguments` flag.
   */
  lemma RewrittenNameLists(env: EnvView, n: Name)
    requires n.TemplateNameId? || n.SelectorNameId?
    ensures var r := RewriteName(env, Some(n)).value;
            && (n.TemplateNameId? ==>
                  && r.TemplateNameId? && r.identifier == n.identifier
                  && |r.templateArguments| == |n.templateArguments|
                  && forall i :: 0 <= i < |n.templateArguments| ==>
                       r.templateArguments[i] == RewriteType(env, n.templateArguments[i]))
            && (n.SelectorNameId? ==>
                  && r.SelectorNameId? && r.hasArguments == n.hasArguments
                  && |r.names| == |n.names|
                  && forall i :: 0 <= i < |n.names| ==> r.names[i] == RewriteName(env, n.names[i]))
  {
  }
}
