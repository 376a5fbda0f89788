/**
 * The scope-qualifying substitution (`UseQualifiedNames`): it looks a name up
 * in the environment's current scope and answers with the fully qualified
 * name of the declaration it finds.
 *
 * Name lookup belongs to the symbol table, outside the rewriter: a
 * `LookupContext` carries it as a function from a name and a scope to the
 * ordered lookup results.
 */
module QualifiedNames {
  import opened CppTypes

  /** One lookup result: the declaring symbol, if any, and its type. */
  datatype LookupItem = LookupItem(declaration: Option<Symbol>, itemType: FullType)

  datatype LookupContext = LookupContext(lookup: (Name, Scope) -> seq<LookupItem>)

  /** A default-constructed context, which finds nothing. */
  function EmptyContext(): (c: LookupContext)
    ensures forall n, s :: c.lookup(n, s) == []
  {
    LookupContext((n: Name, s: Scope) => [])
  }

  /**
   * One step of building a qualified name from its components: the first
   * non-null component starts the name, each later one is qualified by the
   * name built so far.
   */
  function QualifyStep(n: Option<Name>, c: Option<Name>): Option<Name> {
    if n.None? then c else Some(QualifiedNameId(n, c))
  }

  /** The left-nested qualified name the components `cs` build, in order. */
  function QualifiedChain(cs: seq<Option<Name>>): Option<Name>
    decreases |cs|
  {
    if cs == [] then None else QualifyStep(QualifiedChain(cs[..|cs| - 1]), cs[|cs| - 1])
  }

  /** The components of a left-nested qualified name, outermost first. */
  function Components(n: Option<Name>): seq<Option<Name>> {
    match n
    case None => []
    case Some(QualifiedNameId(base, member)) => Components(base) + [member]
    case Some(_) => [n]
  }

  /**
   * A chain built from components whose first one is present and is not
   * itself qualified splits back into exactly those components.
   */
  lemma {:induction false} ComponentsOfChain(cs: seq<Option<Name>>)
    requires |cs| > 0 && cs[0].Some? && !cs[0].value.QualifiedNameId?
    ensures QualifiedChain(cs).Some?
    ensures Components(QualifiedChain(cs)) == cs
  {
    if |cs| == 1 {
      assert cs[..0] == [];
    } else {
      var init := cs[..|cs| - 1];
      assert init[0] == cs[0];
      ComponentsOfChain(init);
      assert init + [cs[|cs| - 1]] == cs;
    }
  }

  /** The chain is null exactly when every component is null. */
  lemma {:induction false} ChainIsNullIffAllNull(cs: seq<Option<Name>>)
    ensures QualifiedChain(cs).None? <==> forall i :: 0 <= i < |cs| ==> cs[i].None?
  {
    if cs != [] {
      var init := cs[..|cs| - 1];
      ChainIsNullIffAllNull(init);
      assert forall i :: 0 <= i < |init| ==> init[i] == cs[i];
    }
  }

  /** The answer a lookup result gives: its declaration's qualified name, else its type. */
  function ItemAnswer(item: LookupItem): FullType {
    match item.declaration
    case Some(d) => FullType(NamedType(QualifiedChain(d.fullyQualifiedName)), 0)
    case None => item.itemType
  }

  /**
   * `UseQualifiedNames::apply`: no scope or no lookup result gives the
   * undefined type; otherwise only the FIRST lookup result decides.
   */
  function UseQualifiedNames(scope: Option<Scope>, context: LookupContext, name: Name): (r: FullType)
    ensures scope.None? ==> r == Undefined
    ensures scope.Some? && context.lookup(name, scope.value) == [] ==> r == Undefined
  {
    if scope.None? then Undefined
    else
      var results := context.lookup(name, scope.value);
      if results == [] then Undefined else ItemAnswer(results[0])
  }

  /**
   * The same query, computed as the source does: the qualified name is built
   * by a loop over the declaration's fully qualified name.
   */
  method UseQualifiedNamesApply(scope: Option<Scope>, context: LookupContext, name: Name) returns (r: FullType)
    ensures r == UseQualifiedNames(scope, context, name)
  {
    if scope.None? {
      return Undefined;
    }
    var results := context.lookup(name, scope.value);
    if results == [] {
      return Undefined;
    }
    var item := results[0];
    if item.declaration.Some? {
      var cs := item.declaration.value.fullyQualifiedName;
      var n: Option<Name> := None;
      var i := 0;
      while i < |cs|
        invariant 0 <= i <= |cs|
        invariant n == QualifiedChain(cs[..i])
      {
        assert cs[..i + 1][..i] == cs[..i];
        if n.None? {
          n := cs[i];
        } else {
          n := Some(QualifiedNameId(n, cs[i]));
        }
        i := i + 1;
      }
      assert cs[..|cs|] == cs;
      return FullType(NamedType(n), 0);
    }
    return item.itemType;
  }

  /**
   * Only the first lookup result is ever inspected: two contexts whose
   * lookups agree on the first result give the same answer, however the
   * remaining (possibly ambiguous) results differ.
   */
  lemma OnlyFirstResultCounts(scope: Scope, c1: LookupContext, c2: LookupContext, name: Name)
    requires c1.lookup(name, scope) != [] && c2.lookup(name, scope) != []
    requires c1.lookup(name, scope)[0] == c2.lookup(name, scope)[0]
    ensures UseQualifiedNames(Some(scope), c1, name) == UseQualifiedNames(Some(scope), c2, name)
    ensures UseQualifiedNames(Some(scope), c1, name) == ItemAnswer(c1.lookup(name, scope)[0])
  {
  }

  /**
   * When the first lookup result has a declaration whose qualified name
   * starts with an unqualified component, the answer is an unqualified named
   * type whose name splits back into that declaration's components.
   */
  lemma QualifiedAnswerNamesDeclaration(scope: Scope, context: LookupContext, name: Name)
    requires context.lookup(name, scope) != []
    requires context.lookup(name, scope)[0].declaration.Some?
    requires var cs := context.lookup(name, scope)[0].declaration.value.fullyQualifiedName;
             |cs| > 0 && cs[0].Some? && !cs[0].value.QualifiedNameId?
    ensures var r := UseQualifiedNames(Some(scope), context, name);
            r.flags == 0 && r.ty.NamedType? && r.ty.name.Some? &&
            Components(r.ty.name) == context.lookup(name, scope)[0].declaration.value.fullyQualifiedName
  {
    ComponentsOfChain(context.lookup(name, scope)[0].declaration.value.fullyQualifiedName);
  }
}
