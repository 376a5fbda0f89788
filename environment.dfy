/**
 * `SubstitutionEnvironment`: a stack of substitution providers, the current
 * lookup scope and the lookup context. A name is resolved by asking the
 * providers newest first; the first answer that is not the undefined type
 * wins.
 */
module Environment {
  import opened CppTypes
  import opened QualifiedNames
  import opened Bindings

  /**
   * A provider on the stack. The environment holds a reference to a binding
   * map, so bindings added to the map after it was entered are seen.
   */
  datatype Substitution = MapSubstitution(bindingMap: SubstitutionMap) | UseQualifiedNamesSubstitution

  /** The value of a provider at one moment. */
  datatype SubstitutionView = BindingsView(bindings: seq<Binding>) | UseQualifiedNamesView

  /** The value of an environment at one moment: what a rewrite consults. */
  datatype EnvView = EnvView(substs: seq<SubstitutionView>, scope: Option<Scope>, context: LookupContext)

  /** One provider's answer for a (non-null) name. */
  function ProviderAnswer(s: SubstitutionView, scope: Option<Scope>, context: LookupContext, name: Name): FullType {
    match s
    case BindingsView(bs) => MapLookup(bs, name)
    case UseQualifiedNamesView => UseQualifiedNames(scope, context, name)
  }

  /** The providers `ss` asked newest first; the first defined answer wins. */
  function ProvidersLookup(ss: seq<SubstitutionView>, scope: Option<Scope>, context: LookupContext, name: Name): FullType
    decreases |ss|
  {
    if ss == [] then Undefined
    else
      var ty := ProviderAnswer(ss[|ss| - 1], scope, context, name);
      if !IsUndefined(ty) then ty else ProvidersLookup(ss[..|ss| - 1], scope, context, name)
  }

  /** `SubstitutionEnvironment::apply` on an environment value. */
  function EnvLookup(e: EnvView, name: Option<Name>): (r: FullType)
    ensures name.None? ==> r == Undefined
    ensures e.substs == [] ==> r == Undefined
  {
    if name.None? then Undefined else ProvidersLookup(e.substs, e.scope, e.context, name.value)
  }

  /**
   * The answer is the undefined type (with no flags) exactly when every
   * provider answers an undefined type.
   */
  lemma {:induction false} UndefinedIffNoProviderAnswers(ss: seq<SubstitutionView>, scope: Option<Scope>, context: LookupContext, name: Name)
    ensures IsUndefined(ProvidersLookup(ss, scope, context, name)) <==>
            forall i :: 0 <= i < |ss| ==> IsUndefined(ProviderAnswer(ss[i], scope, context, name))
    ensures IsUndefined(ProvidersLookup(ss, scope, context, name)) ==> ProvidersLookup(ss, scope, context, name) == Undefined
  {
    if ss != [] {
      var init := ss[..|ss| - 1];
      UndefinedIffNoProviderAnswers(init, scope, context, name);
      assert forall i :: 0 <= i < |init| ==> init[i] == ss[i];
    }
  }

  /**
   * LIFO shadowing: the answer is that of the most recently entered provider
   * whose answer is defined.
   */
  lemma {:induction false} NewestDefinedProviderWins(ss: seq<SubstitutionView>, scope: Option<Scope>, context: LookupContext, name: Name, k: nat)
    requires k < |ss| && !IsUndefined(ProviderAnswer(ss[k], scope, context, name))
    requires forall j :: k < j < |ss| ==> IsUndefined(ProviderAnswer(ss[j], scope, context, name))
    ensures ProvidersLookup(ss, scope, context, name) == ProviderAnswer(ss[k], scope, context, name)
  {
    if k < |ss| - 1 {
      var init := ss[..|ss| - 1];
      assert forall j :: k < j < |init| ==> init[j] == ss[j];
      NewestDefinedProviderWins(init, scope, context, name, k);
    }
  }

  /**
   * Entering a provider shadows the stack beneath it where it answers, and
   * leaves every other answer as it was.
   */
  lemma EnteredProviderShadows(ss: seq<SubstitutionView>, s: SubstitutionView, scope: Option<Scope>, context: LookupContext, name: Name)
    ensures var answer := ProviderAnswer(s, scope, context, name);
            ProvidersLookup(ss + [s], scope, context, name) ==
            if !IsUndefined(answer) then answer else ProvidersLookup(ss, scope, context, name)
  {
    assert (ss + [s])[..|ss|] == ss;
  }

  function ViewOf(s: Substitution): SubstitutionView
    reads if s.MapSubstitution? then {s.bindingMap} else {}
  {
    match s
    case MapSubstitution(m) => BindingsView(m.bindings)
    case UseQualifiedNamesSubstitution => UseQualifiedNamesView
  }

  class SubstitutionEnvironment {
    var substs: seq<Substitution>
    var currentScope: Option<Scope>
    var context: LookupContext

    constructor ()
      ensures substs == [] && currentScope == None
      ensures forall n, s :: context.lookup(n, s) == []
    {
      substs := [];
      currentScope := None;
      context := EmptyContext();
    }

    /** The binding maps the environment refers to. */
    function Maps(): set<SubstitutionMap>
      reads this
    {
      set i | 0 <= i < |substs| && substs[i].MapSubstitution? :: substs[i].bindingMap
    }

    /** The environment's value now. */
    function View(): (v: EnvView)
      reads this, Maps()
      ensures |v.substs| == |substs| && v.scope == currentScope && v.context == context
      ensures forall i :: 0 <= i < |substs| ==> v.substs[i] == ViewOf(substs[i])
    {
      EnvView(seq(|substs|, i requires 0 <= i < |substs| reads this, Maps() => ViewOf(substs[i])), currentScope, context)
    }

    /** `apply`: the backward scan over the providers. */
    method Apply(name: Option<Name>) returns (r: FullType)
      ensures r == EnvLookup(View(), name)
    {
      if name.None? {
        return Undefined;
      }
      ghost var v := View();
      var index := |substs| - 1;
      assert v.substs[..index + 1] == v.substs;
      while index != -1
        invariant -1 <= index < |substs|
        invariant EnvLookup(v, name) == ProvidersLookup(v.substs[..index + 1], currentScope, context, name.value)
      {
        assert v.substs[..index + 1][..index] == v.substs[..index];
        var ty;
        match substs[index] {
          case MapSubstitution(m) =>
            ty := m.Apply(name.value);
          case UseQualifiedNamesSubstitution =>
            ty := UseQualifiedNamesApply(currentScope, context, name.value);
        }
        assert ty == ProviderAnswer(v.substs[index], currentScope, context, name.value);
        if !IsUndefined(ty) {
          assert v == View();
          return ty;
        }
        index := index - 1;
      }
      assert v == View();
      return Undefined;
    }

    /** `enter`: push a provider. */
    method Enter(s: Substitution)
      modifies this
      ensures substs == old(substs) + [s]
      ensures currentScope == old(currentScope) && context == old(context)
      ensures View().substs == old(View().substs) + [ViewOf(s)]
    {
      substs := substs + [s];
    }

    /** `leave`: pop the most recently entered provider; the stack must not be empty. */
    method Leave()
      requires substs != []
      modifies this
      ensures substs == old(substs)[..|old(substs)| - 1]
      ensures currentScope == old(currentScope) && context == old(context)
    {
      substs := substs[..|substs| - 1];
    }

    /** `switchScope`: install a new scope and hand back the previous one. */
    method SwitchScope(scope: Option<Scope>) returns (previous: Option<Scope>)
      modifies this
      ensures previous == old(currentScope) && currentScope == scope
      ensures substs == old(substs) && context == old(context)
    {
      previous := currentScope;
      currentScope := scope;
    }

    /** `setContext`: replace the lookup context. */
    method SetContext(c: LookupContext)
      modifies this
      ensures context == c
      ensures substs == old(substs) && currentScope == old(currentScope)
    {
      context := c;
    }
  }
}
