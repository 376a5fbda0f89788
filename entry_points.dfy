/**
 * The free functions `rewriteType` and `rewriteName`: each runs one rewrite
 * session over an environment object as it stands, and a client of the
 * environment that relies only on the contracts of its operations.
 */
module EntryPoints {
  import opened CppTypes
  import opened Bindings
  import opened Environment
  import opened Rewriter
  import RewriterProperties

  /** `rewriteType`: flags are only ever added, and an empty environment changes nothing. */
  function RewriteTypeIn(t: FullType, env: SubstitutionEnvironment): (r: FullType)
    reads env, env.Maps()
    ensures r == RewriteType(env.View(), t)
    ensures FlagsWithin(t.flags, r.flags)
    ensures env.substs == [] ==> r == t
  {
    var v := env.View();
    assert v.substs == [] ==> RewriteType(v, t) == t by {
      if v.substs == [] {
        RewriterProperties.EmptyEnvironmentKeepsType(v, t);
      }
    }
    RewriteType(v, t)
  }

  /** `rewriteName`: null stays null, and an empty environment changes nothing. */
  function RewriteNameIn(n: Option<Name>, env: SubstitutionEnvironment): (r: Option<Name>)
    reads env, env.Maps()
    ensures r == RewriteName(env.View(), n)
    ensures r.None? <==> n.None?
    ensures env.substs == [] ==> r == n
  {
    var v := env.View();
    assert v.substs == [] ==> RewriteName(v, n) == n by {
      if v.substs == [] {
        RewriterProperties.EmptyEnvironmentKeepsName(v, n);
      }
    }
    RewriteName(v, n)
  }

  /**
   * A binding map entered first binds `name` to `a`; a second map entered on
   * top of it binds `name` to `b` only after it was entered. The environment
   * answers `b` (the newer provider, seen through the reference it holds)
   * and, once the second map is left, `a` again.
   */
  method ShadowingAcrossLeave(name: Name, a: FullType, b: FullType) returns (whileEntered: FullType, afterLeave: FullType)
    requires !IsUndefined(a) && !IsUndefined(b)
    ensures whileEntered == b && afterLeave == a
  {
    var env := new SubstitutionEnvironment();
    var outer := new SubstitutionMap();
    outer.Bind(Some(name), a);
    env.Enter(MapSubstitution(outer));
    var inner := new SubstitutionMap();
    env.Enter(MapSubstitution(inner));
    inner.Bind(Some(name), b);
    assert env.substs == [MapSubstitution(outer), MapSubstitution(inner)];
    assert outer.bindings == [Binding(Some(name), a)] && inner.bindings == [Binding(Some(name), b)];
    assert env.View().substs == [BindingsView([Binding(Some(name), a)]), BindingsView([Binding(Some(name), b)])];
    whileEntered := env.Apply(Some(name));
    env.Leave();
    assert env.View().substs == [BindingsView([Binding(Some(name), a)])];
    afterLeave := env.Apply(Some(name));
  }

  /** `enter` followed by `leave` puts the environment back as it was. */
  method EnterThenLeave(env: SubstitutionEnvironment, s: Substitution)
    modifies env
    ensures env.substs == old(env.substs)
    ensures env.currentScope == old(env.currentScope) && env.context == old(env.context)
    ensures env.View() == old(env.View())
  {
    env.Enter(s);
    env.Leave();
    assert env.substs == old(env.substs);
  }
}
