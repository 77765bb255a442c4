/** The list of registered modules of a `conf_manager` and its look-up by type. */
module Registry {
  import opened Model

  type ClassId = nat

  /** `d` is `c` or derives from it: what `dynamic_pointer_cast` tests. */
  type Derives = (ClassId, ClassId) -> bool

  ghost predicate Hierarchy(derives: Derives) {
    && (forall c :: derives(c, c))
    && (forall c, d, e :: derives(e, d) && derives(d, c) ==> derives(e, c))
  }

  // ---- specification --------------------------------------------------------------------------

  /** The first registered type that can be cast to `c`. */
  function First(derives: Derives, types: seq<ClassId>, c: ClassId): (r: Option<nat>)
    ensures r.Some? ==> r.value < |types| && derives(types[r.value], c)
                        && forall i | 0 <= i < r.value :: !derives(types[i], c)
    ensures r.None? ==> forall i | 0 <= i < |types| :: !derives(types[i], c)
  {
    if types == [] then None
    else
      var r := First(derives, types[..|types| - 1], c);
      if r.Some? then r
      else if derives(types[|types| - 1], c) then Some(|types| - 1)
      else None
  }

  /** Registering the types one after the other passes the guard every time. */
  predicate Accepted(derives: Derives, types: seq<ClassId>) {
    types == []
    || (Accepted(derives, types[..|types| - 1]) && First(derives, types[..|types| - 1], types[|types| - 1]).None?)
  }

  /** No type comes after one that derives from it (or is the same). */
  ghost predicate BasesFirst(derives: Derives, types: seq<ClassId>) {
    forall i, j | 0 <= i < j < |types| :: !derives(types[i], types[j])
  }

  /** The registration guard accepts a sequence exactly when base types come first. */
  lemma {:induction false} AcceptedIff(derives: Derives, types: seq<ClassId>)
    ensures Accepted(derives, types) <==> BasesFirst(derives, types)
  {
    if types != [] {
      var n := |types| - 1;
      AcceptedIff(derives, types[..n]);
      if BasesFirst(derives, types) {
        forall i, j | 0 <= i < j < n ensures !derives(types[..n][i], types[..n][j]) {
          assert !derives(types[i], types[j]);
        }
        assert forall i | 0 <= i < n :: !derives(types[i], types[n]);
      }
      if Accepted(derives, types) {
        forall i, j | 0 <= i < j < |types| ensures !derives(types[i], types[j]) {
          assert types[i] == types[..n][i];
          if j < n { assert types[j] == types[..n][j]; }
        }
      }
    }
  }

  /** Looking up a registered type finds the instance created for exactly that type; looking up
      any other type finds one of a derived type or nothing. */
  lemma LookupExact(derives: Derives, types: seq<ClassId>, c: ClassId)
    requires Hierarchy(derives) && Accepted(derives, types)
    ensures forall k | 0 <= k < |types| && types[k] == c :: First(derives, types, c) == Some(k)
    ensures c !in types && First(derives, types, c).Some? ==>
      var d := types[First(derives, types, c).value]; d != c && derives(d, c)
  {
    AcceptedIff(derives, types);
    forall k | 0 <= k < |types| && types[k] == c ensures First(derives, types, c) == Some(k) {
      assert derives(types[k], c);
      assert forall i | 0 <= i < k :: !derives(types[i], types[k]);
    }
  }

  // ---- the manager's list -------------------------------------------------------------------------

  class Instance {
    const cls: ClassId

    constructor (cls: ClassId)
      ensures this.cls == cls
    {
      this.cls := cls;
    }
  }

  class ModuleList {
    const derives: Derives
    var modules: seq<Instance>
    var preload: Instance?

    constructor (derives: Derives)
      ensures this.derives == derives && modules == [] && preload == null
    {
      this.derives := derives;
      modules := [];
      preload := null;
    }

    function Types(): (ts: seq<ClassId>)
      reads this
      ensures |ts| == |modules| && forall i | 0 <= i < |ts| :: ts[i] == modules[i].cls
    {
      seq(|modules|, i requires 0 <= i < |modules| reads this => modules[i].cls)
    }

    /** The state after registrations that all passed the guard. */
    ghost predicate Valid()
      reads this
    {
      Accepted(derives, Types())
    }

    /** `find_module`. */
    method FindModule(c: ClassId) returns (found: Instance?)
      ensures match First(derives, Types(), c)
              case Some(k) => found == modules[k]
              case None => found == null
    {
      for k := 0 to |modules|
        invariant forall i | 0 <= i < k :: !derives(modules[i].cls, c)
      {
        if derives(modules[k].cls, c) {
          assert First(derives, Types(), c) == Some(k) by {
            var r := First(derives, Types(), c);
            assert !(r.None?) by { assert derives(Types()[k], c); }
            assert derives(Types()[r.value], c);
          }
          return modules[k];
        }
      }
      return null;
    }

    /** `do_register_module`. */
    method Register(c: ClassId, running: bool) returns (ok: bool)
      requires Valid()
      modifies this`modules
      ensures Valid()
      ensures ok <==> !running && forall i | 0 <= i < |old(modules)| :: !derives(old(modules)[i].cls, c)
      ensures ok ==> Types() == old(Types()) + [c] && |modules| == |old(modules)| + 1
                     && modules[..|old(modules)|] == old(modules) && fresh(modules[|old(modules)|])
      ensures !ok ==> modules == old(modules)
    {
      if running {
        return false;
      }
      var found := FindModule(c);
      if found != null {
        return false;
      }
      var t := new Instance(c);
      ghost var before := Types();
      modules := modules + [t];
      assert Types() == before + [c];
      assert Types()[..|before|] == before;
      return true;
    }

    /** `preload_module`. */
    method PreloadModule(c: ClassId) returns (ok: bool)
      modifies this`preload
      ensures ok <==> First(derives, Types(), c).Some?
      ensures ok ==> preload == modules[First(derives, Types(), c).value]
      ensures !ok ==> preload == old(preload)
    {
      var found := FindModule(c);
      if found == null {
        return false;
      }
      preload := found;
      return true;
    }
  }
}
