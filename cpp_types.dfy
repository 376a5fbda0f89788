/**
 * The C++ type and name trees the rewriter walks.
 *
 * In the original system every node is built through the `Control` interner,
 * which hands out one canonical object per structurally equal value. Here the
 * interner's factory operations are the datatype constructors, so
 * canonicalisation is structural equality. A nullable `const Name *` is an
 * `Option<Name>`; a `FullySpecifiedType` is a `FullType`: a type node plus
 * its qualifier flag word.
 */
module CppTypes {

  datatype Option<+T> = None | Some(value: T)

  /** An interned identifier: only its characters matter. */
  datatype Identifier = Identifier(chars: string)

  datatype IntegerKind = Char | WideChar | Bool | Short | Int | Long | LongLong

  datatype FloatKind = Float | Double | LongDouble

  /** The operator of an operator name (`operator+`, `operator[]`, ...). */
  type OperatorKind = nat

  /** The declaration shapes the rewriter passes through unchanged. */
  datatype DeclarationKind =
    | Namespace
    | Class
    | Enum
    | ForwardClassDeclaration
    | ObjCClass
    | ObjCProtocol
    | ObjCMethod
    | ObjCForwardClassDeclaration
    | ObjCForwardProtocolDeclaration

  /**
   * A declaring symbol of the symbol table. Its fully qualified name (the
   * names of its enclosing declarations, outermost first, then its own name)
   * is what the symbol table's `fullyQualifiedName` query returns for it.
   */
  datatype Symbol = Symbol(id: nat, fullyQualifiedName: seq<Option<Name>>)

  /** A scope of the symbol table, owned outside the rewriter. */
  datatype Scope = Scope(id: nat)

  /**
   * The attributes a symbol's `copy` duplicates verbatim (storage class,
   * default values, source position, ...). The rewriter never looks inside.
   */
  datatype Attributes = Attributes(id: nat)

  /** The qualifier flag word of a fully specified type (an `unsigned`). */
  type Flags = bv32

  datatype FullType = FullType(ty: Type, flags: Flags)

  datatype Type =
    | UndefinedType
    | VoidType
    | IntegerType(integerKind: IntegerKind)
    | FloatType(floatKind: FloatKind)
    | PointerToMemberType(memberName: Option<Name>, elementType: FullType)
    | PointerType(elementType: FullType)
    | ReferenceType(elementType: FullType)
    | ArrayType(elementType: FullType, size: nat)
    | NamedType(name: Option<Name>)
    | FunctionType(name: Option<Name>, returnType: FullType, arguments: seq<Argument>, attributes: Attributes)
    | Declaration(kind: DeclarationKind, symbol: Symbol)

  /** A function argument symbol: only its name and type are rewritten. */
  datatype Argument = Argument(argName: Option<Name>, argType: FullType, argAttributes: Attributes)

  datatype Name =
    | NameId(identifier: Option<Identifier>)
    | QualifiedNameId(base: Option<Name>, member: Option<Name>)
    | TemplateNameId(identifier: Option<Identifier>, templateArguments: seq<FullType>)
    | DestructorNameId(identifier: Option<Identifier>)
    | OperatorNameId(operator: OperatorKind)
    | ConversionNameId(conversionType: FullType)
    | SelectorNameId(names: seq<Option<Name>>, hasArguments: bool)

  /** `FullySpecifiedType()`: the undefined type with no flags. */
  const Undefined := FullType(UndefinedType, 0)

  predicate IsUndefined(t: FullType) {
    t.ty.UndefinedType?
  }

  /** Every flag set in `f` is also set in `g`. */
  predicate FlagsWithin(f: Flags, g: Flags) {
    f & g == f
  }

  lemma OrKeepsLeftFlags(f: Flags, g: Flags)
    ensures FlagsWithin(f, f | g)
  {
  }

  lemma OrKeepsRightFlags(f: Flags, g: Flags)
    ensures FlagsWithin(g, f | g)
  {
  }

  lemma OrWithinCommonBound(f: Flags, g: Flags, h: Flags)
    requires FlagsWithin(f, h) && FlagsWithin(g, h)
    ensures FlagsWithin(f | g, h)
  {
  }

  /** `f | g` holds both words' flags, and any word holding both holds it. */
  lemma OrIsLeastCommonBound(f: Flags, g: Flags)
    ensures FlagsWithin(f, f | g) && FlagsWithin(g, f | g)
    ensures forall h: Flags :: FlagsWithin(f, h) && FlagsWithin(g, h) ==> FlagsWithin(f | g, h)
  {
    OrKeepsLeftFlags(f, g);
    OrKeepsRightFlags(f, g);
    forall h: Flags | FlagsWithin(f, h) && FlagsWithin(g, h)
      ensures FlagsWithin(f | g, h)
    {
      OrWithinCommonBound(f, g, h);
    }
  }

  /**
   * The bitwise OR of two flag words: it holds each flag of both and no
   * other flag (any word holding both holds it).
   */
  function MergeFlags(f: Flags, g: Flags): (m: Flags)
    ensures FlagsWithin(f, m) && FlagsWithin(g, m)
    ensures forall h: Flags :: FlagsWithin(f, h) && FlagsWithin(g, h) ==> FlagsWithin(m, h)
    ensures g == 0 ==> m == f
  {
    OrIsLeastCommonBound(f, g);
    f | g
  }

  /**
   * What a rewrite keeps of a type node whatever the environment: its shape,
   * the kinds of builtin types, an array's size, a function's arity and
   * copied attributes, and a declaration as a whole.
   */
  datatype TypeHead =
    | UndefinedHead
    | VoidHead
    | IntegerHead(IntegerKind)
    | FloatHead(FloatKind)
    | PointerToMemberHead
    | PointerHead
    | ReferenceHead
    | ArrayHead(nat)
    | NamedHead
    | FunctionHead(arity: nat, Attributes)
    | DeclarationHead(DeclarationKind, Symbol)

  function HeadOf(ty: Type): TypeHead {
    match ty
    case UndefinedType => UndefinedHead
    case VoidType => VoidHead
    case IntegerType(k) => IntegerHead(k)
    case FloatType(k) => FloatHead(k)
    case PointerToMemberType(_, _) => PointerToMemberHead
    case PointerType(_) => PointerHead
    case ReferenceType(_) => ReferenceHead
    case ArrayType(_, size) => ArrayHead(size)
    case NamedType(_) => NamedHead
    case FunctionType(_, _, args, attrs) => FunctionHead(|args|, attrs)
    case Declaration(k, d) => DeclarationHead(k, d)
  }

  /**
   * What a rewrite keeps of a name node: its shape, its identifier, its
   * operator kind, the number of template arguments or selector components,
   * and the selector's `hasArguments` flag.
   */
  datatype NameHead =
    | NameIdHead(Option<Identifier>)
    | QualifiedHead
    | TemplateHead(Option<Identifier>, nat)
    | DestructorHead(Option<Identifier>)
    | OperatorHead(OperatorKind)
    | ConversionHead
    | SelectorHead(nat, bool)

  function NameHeadOf(n: Name): NameHead {
    match n
    case NameId(id) => NameIdHead(id)
    case QualifiedNameId(_, _) => QualifiedHead
    case TemplateNameId(id, args) => TemplateHead(id, |args|)
    case DestructorNameId(id) => DestructorHead(id)
    case OperatorNameId(k) => OperatorHead(k)
    case ConversionNameId(_) => ConversionHead
    case SelectorNameId(ns, hasArgs) => SelectorHead(|ns|, hasArgs)
  }
}
