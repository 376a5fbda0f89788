/**
 * `SubstitutionMap`: an append-only list of (name, type) bindings. Lookup
 * scans from the newest binding backwards, so a later binding of an equal
 * name shadows an earlier one.
 */
module Bindings {
  import opened CppTypes

  datatype Binding = Binding(name: Option<Name>, ty: FullType)

  /**
   * The type bound to `name` by the newest binding whose name equals it
   * (names compare structurally), or the undefined type.
   */
  function MapLookup(bs: seq<Binding>, name: Name): FullType
    decreases |bs|
  {
    if bs == [] then Undefined
    else if bs[|bs| - 1].name == Some(name) then bs[|bs| - 1].ty
    else MapLookup(bs[..|bs| - 1], name)
  }

  /** With no binding of an equal name the lookup answers the undefined type. */
  lemma {:induction false} MapLookupUnbound(bs: seq<Binding>, name: Name)
    requires forall j :: 0 <= j < |bs| ==> bs[j].name != Some(name)
    ensures MapLookup(bs, name) == Undefined
  {
    if bs != [] {
      MapLookupUnbound(bs[..|bs| - 1], name);
    }
  }

  /** The newest binding of an equal name wins, whatever was bound before it. */
  lemma {:induction false} MapLookupNewest(bs: seq<Binding>, name: Name, k: nat)
    requires k < |bs| && bs[k].name == Some(name)
    requires forall j :: k < j < |bs| ==> bs[j].name != Some(name)
    ensures MapLookup(bs, name) == bs[k].ty
  {
    if k < |bs| - 1 {
      MapLookupNewest(bs[..|bs| - 1], name, k);
    }
  }

  /**
   * Binding only adds an answer on top: the new binding answers its own name
   * and every other name is answered as before.
   */
  lemma MapLookupAfterBind(bs: seq<Binding>, b: Binding, name: Name)
    ensures MapLookup(bs + [b], name) == if b.name == Some(name) then b.ty else MapLookup(bs, name)
  {
    assert (bs + [b])[..|bs|] == bs;
  }

  class SubstitutionMap {
    var bindings: seq<Binding>

    constructor ()
      ensures bindings == []
    {
      bindings := [];
    }

    /** `bind`: append a binding; earlier bindings stay as they were. */
    method Bind(name: Option<Name>, ty: FullType)
      modifies this
      ensures bindings == old(bindings) + [Binding(name, ty)]
    {
      bindings := bindings + [Binding(name, ty)];
    }

    /** `apply`: the backward scan over the bindings. */
    method Apply(name: Name) returns (r: FullType)
      ensures r == MapLookup(bindings, name)
    {
      var n := |bindings| - 1;
      assert bindings[..n + 1] == bindings;
      while n != -1
        invariant -1 <= n < |bindings|
        invariant MapLookup(bindings, name) == MapLookup(bindings[..n + 1], name)
      {
        assert bindings[..n + 1][..n] == bindings[..n];
        if bindings[n].name == Some(name) {
          return bindings[n].ty;
        }
        n := n - 1;
      }
      return Undefined;
    }
  }
}
