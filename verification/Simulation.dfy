/** The operations of the library as code that updates fields step by step, with the loops and
    the recursion of the original, proved equal to the functions of `Teardown` and `Protocol`. */
module Simulation {
  import opened Model
  import opened Teardown
  import opened Protocol
  import opened Invariants
  import opened UnloadSafety
  import opened Safety
  import opened Steps
  import opened LostModule
  import opened Regions

  /** How an operation ended; the state it left is in the fields. */
  datatype Status = Error | Killed | Finished

  class Simulation {
    const t: Topology
    const rrs: map<RegionId, RegionBase>
    ghost var regions: map<RegionId, Region>   // what the region objects show
    var mgrs: map<ManagerId, Manager>
    var mods: map<ModuleId, Module>
    var bound: map<(RegionId, MemberId), ModuleId>
    var decoupled: set<(RegionId, MemberId)>
    var threads: seq<Thread>
    var started: bool

    /** Elaboration: nothing is loaded, every region has connected its own manager, and the
        static design has some processes. */
    constructor (t: Topology, processes: nat)
      requires Model.Valid(t)
      ensures this.t == t && Valid() && Init(t, View()) && |threads| == processes
      ensures forall r <- rrs :: fresh(rrs[r])
    {
      hide Model.Valid, Layered, Init, Typed, Linked;
      this.t := t;
      var objects := MakeRegions(t);
      rrs := objects;
      regions := map r <- t.root :: Region(false, false, 0);
      mgrs := map c <- t.mgrs :: Manager(None, None);
      mods := map m <- t.mods :: Module(None, []);
      bound, decoupled, started := map[], {}, false;
      threads := seq(processes, i => Thread(None, true, []));
      new;
      IsLinked();
      ConnectRoots();
      LayeredOf(t);
      Begins(t, View());
    }

    static method MakeRegions(t: Topology) returns (objects: map<RegionId, RegionBase>)
      ensures objects.Keys == t.root.Keys
      ensures forall r <- objects :: fresh(objects[r]) && objects[r].View() == Region(false, false, 0)
      ensures forall r <- objects, q <- objects | objects[r] == objects[q] :: r == q
    {
      var rest := t.root.Keys;
      objects := map[];
      while rest != {}
        invariant rest !! objects.Keys && rest + objects.Keys == t.root.Keys
        invariant forall r <- objects :: fresh(objects[r]) && objects[r].View() == Region(false, false, 0)
        invariant forall r <- objects, q <- objects | objects[r] == objects[q] :: r == q
        decreases rest
      {
        var r :| r in rest;
        var rr := new RegionBase();
        rest, objects := rest - {r}, objects[r := rr];
      }
    }

    /** The constructors of the regions connect their managers. */
    method ConnectRoots()
      requires Model.Valid(t) && mgrs == map c <- t.mgrs :: Manager(None, None)
      modifies this`mgrs
      ensures mgrs.Keys == t.mgrs
      ensures forall c <- mgrs :: mgrs[c].current.None? && (mgrs[c].rr.Some? ==> mgrs[c].rr.value in t.root && t.root[mgrs[c].rr.value] == c)
      ensures forall r <- t.root :: t.root[r] in mgrs && mgrs[t.root[r]] == Manager(None, Some(r))
    {
      hide Model.Valid;
      var rest, done: set<RegionId> := t.root.Keys, {};
      while rest != {}
        invariant rest !! done && rest + done == t.root.Keys
        invariant mgrs.Keys == t.mgrs
        invariant forall c <- mgrs :: mgrs[c].current.None?
        invariant forall c <- mgrs :: mgrs[c].rr.Some? ==> mgrs[c].rr.value in done && t.root[mgrs[c].rr.value] == c
        invariant forall r <- done :: t.root[r] in mgrs && mgrs[t.root[r]].rr == Some(r)
        decreases rest
      {
        var r :| r in rest;
        RootManager(t, r);
        mgrs := mgrs[t.root[r] := mgrs[t.root[r]].(rr := Some(r))];
        rest, done := rest - {r}, done + {r};
      }
    }

    ghost function View(): State
      reads this
    {
      State(regions, mgrs, mods, bound, decoupled, threads, started)
    }

    lemma IsLinked()
      requires rrs.Keys == regions.Keys && forall r <- rrs, q <- rrs | rrs[r] == rrs[q] :: r == q
      requires forall r <- rrs :: rrs[r].View() == regions[r]
      ensures Linked()
    {
    }

    lemma LinkedKeys()
      requires Linked()
      ensures rrs.Keys == regions.Keys
    {
    }

    lemma LinkedAt(r: RegionId)
      requires Linked() && r in rrs
      ensures r in regions && rrs[r].View() == regions[r]
    {
    }

    /** The region objects are distinct and show `regions`. */
    ghost predicate Linked()
      reads this`regions, rrs.Values
    {
      && rrs.Keys == regions.Keys
      && (forall r <- rrs, q <- rrs | rrs[r] == rrs[q] :: r == q)
      && (forall r <- rrs :: rrs[r].View() == regions[r])
    }

    ghost predicate Valid()
      reads this, rrs.Values
    {
      Linked() && Layered(t) && Typed(t, View())
    }

    /** The fields and the status are what the function says. */
    ghost predicate Reached(status: Status, o: Outcome)
      reads this
    {
      match status
      case Error => o.Failed?
      case Killed => o == Aborted(View())
      case Finished => o == Done(View())
    }

    // ---- the region objects ---------------------------------------------------------------------

    method MarkBegin(r: RegionId) returns (ok: bool)
      requires Linked() && r in rrs
      modifies this`regions, rrs[r]
      ensures Linked() && ok == !old(regions)[r].reconf
      ensures regions == if ok then old(regions)[r := old(regions)[r].(reconf := true)] else old(regions)
    {
      ok := rrs[r].MarkReconfBegin();
      regions := regions[r := rrs[r].View()];
    }

    method MarkEnd(r: RegionId) returns (ok: bool)
      requires Linked() && r in rrs
      modifies this`regions, rrs[r]
      ensures Linked() && ok == old(regions)[r].reconf
      ensures regions == if ok then old(regions)[r := old(regions)[r].(reconf := false)] else old(regions)
    {
      ok := rrs[r].MarkReconfEnd();
      regions := regions[r := rrs[r].View()];
    }

    method Block(r: RegionId) returns (ok: bool)
      requires Linked() && r in rrs
      modifies this`regions, rrs[r]
      ensures Linked() && ok == !old(regions)[r].blocked
      ensures regions == if ok then old(regions)[r := old(regions)[r].(blocked := true)] else old(regions)
    {
      ok := rrs[r].BlockTransactions();
      regions := regions[r := rrs[r].View()];
    }

    /** A reconfiguration begins: the region is marked and its transactions are blocked. */
    method Begin(r: RegionId) returns (ok: bool)
      requires Linked() && r in rrs && r in regions
      modifies this`regions, rrs[r]
      ensures Linked()
      ensures ok <==> !old(regions)[r].reconf && !old(regions)[r].blocked
      ensures ok ==> View() == SetBlocked(SetReconf(old(View()), r, true), r, true)
    {
      hide Linked;
      ok := MarkBegin(r);
      if ok {
        ok := Block(r);
      }
    }

    method Unblock(r: RegionId) returns (ok: bool)
      requires Linked() && r in rrs
      modifies this`regions, rrs[r]
      ensures Linked() && ok == old(regions)[r].blocked
      ensures regions == if ok then old(regions)[r := old(regions)[r].(blocked := false)] else old(regions)
    {
      ok := rrs[r].UnblockTransactions();
      regions := regions[r := rrs[r].View()];
    }

    /** The constructor of a `reconf_lock`. */
    method Lock(r: RegionId) returns (ok: bool)
      requires Linked() && r in rrs
      modifies this`regions, rrs[r]
      ensures Linked() && ok == !old(regions)[r].blocked
      ensures regions == if ok then old(regions)[r := old(regions)[r].(count := old(regions)[r].count + 1)] else old(regions)
    {
      var lock := ReconfLock.Acquire(rrs[r]);
      ok := lock != null;
      regions := regions[r := rrs[r].View()];
    }

    /** The destructor of a `reconf_lock`. */
    method Unlock(r: RegionId) returns (ok: bool)
      requires Linked() && r in rrs
      modifies this`regions, rrs[r]
      ensures Linked() && ok == (old(regions)[r].count > 0)
      ensures regions == if ok then old(regions)[r := old(regions)[r].(count := old(regions)[r].count - 1)] else old(regions)
    {
      ok := rrs[r].EndTransaction();
      regions := regions[r := rrs[r].View()];
    }

    // ---- killing ------------------------------------------------------------------------------

    /** Unwind the stack of thread `i`, releasing its locks innermost first. */
    method KillProcess(i: ThreadId) returns (ok: bool)
      requires Linked() && i < |threads|
      modifies this`regions, this`threads, rrs.Values
      ensures ok <==> KillOne(old(View()), i).Some?
      ensures ok ==> Linked() && KillOne(old(View()), i) == Some(View())
    {
      hide Linked, Unwind;
      LinkedKeys();
      var n := |threads[i].stack|;
      ghost var was := View();
      ghost var stack := threads[i].stack;
      assert stack[..n] == stack;
      while n > 0
        invariant 0 <= n <= |stack| && threads == was.threads && Linked()
        invariant View() == was.(regions := regions)
        invariant Unwind(regions, stack[..n]) == Unwind(was.regions, stack)
      {
        n := n - 1;
        LinkedKeys();
        var f := threads[i].stack[n];
        UnwindEntry(regions, stack, n);
        if f.Call? {
          if f.rr !in rrs {
            return false;
          }
          ok := Unlock(f.rr);
          if !ok {
            return;
          }
        }
      }
      UnwindEnd(regions, stack);
      threads := threads[i := Thread(threads[i].owner, false, [])];
      return true;
    }

    /** The loop over the process handles of a module. */
    method KillAll(hs: seq<ThreadId>, me: ThreadId) returns (status: Status)
      requires Linked()
      modifies this`regions, this`threads, rrs.Values
      ensures Reached(status, KillFrom(old(View()), hs, me))
      ensures !status.Error? ==> Linked()
    {
      hide Linked;
      ghost var was := View();
      for k := 0 to |hs|
        invariant Linked() && KillFrom(View(), hs[k..], me) == KillFrom(was, hs, me)
      {
        assert hs[k..][0] == hs[k] && hs[k..][1..] == hs[k + 1..];
        if hs[k] < |threads| {
          var ok := KillProcess(hs[k]);
          if !ok {
            return Error;
          }
        }
        if hs[k] == me {
          return Killed;
        }
      }
      return Finished;
    }

    // ---- coupling and decoupling ----------------------------------------------------------------

    /** `nc_decouple`: the members' `dynamic_unbind`, one after the other. */
    method NcDecouple(m: ModuleId, r: RegionId) returns (ok: bool)
      requires Valid() && m in t.mods
      modifies this`mods, this`bound, this`decoupled, this`started
      ensures ok <==> CanDecouple(t, old(View()), m, r)
      ensures ok ==> View() == Decouple(t, old(View()), m, r)
    {
      hide Layered, Typed;
      KeysOf(t, View());
      if mods[m].configured != Some(r) {
        return false;
      }
      ghost var was := View();
      mods := mods[m := mods[m].(configured := None)];
      started := true;
      ok := DecoupleMembers(m, r);
      assert ok ==> was.bound - Keys(r, t.mods[m].members) == bound;
    }

    /** The statements generated for the members of an interface, in some order. */
    method DecoupleMembers(m: ModuleId, r: RegionId) returns (ok: bool)
      requires m in t.mods
      modifies this`bound, this`decoupled
      ensures ok <==> forall x <- t.mods[m].members :: (r, x) in old(bound) && old(bound)[(r, x)] == m
      ensures ok ==> bound == old(bound) - Keys(r, t.mods[m].members)
      ensures ok ==> decoupled == old(decoupled) + Keys(r, t.mods[m].members * t.outs)
    {
      var rest, done: set<MemberId> := t.mods[m].members, {};
      while rest != {}
        invariant rest !! done && rest + done == t.mods[m].members
        invariant bound == old(bound) - Keys(r, done)
        invariant decoupled == old(decoupled) + Keys(r, done * t.outs)
        invariant forall x <- done :: (r, x) in old(bound) && old(bound)[(r, x)] == m
        decreases rest
      {
        var x :| x in rest;
        assert (r, x) !in Keys(r, done);
        if (r, x) !in bound || bound[(r, x)] != m {
          return false;
        }
        KeysMore(r, done, x, t.outs);
        bound := bound - {(r, x)};
        if x in t.outs {
          decoupled := decoupled + {(r, x)};
        }
        rest, done := rest - {x}, done + {x};
      }
      assert done == t.mods[m].members;
      return true;
    }

    /** `nc_couple`: the members' `dynamic_bind`, then the connection of the sub-managers. */
    method NcCouple(m: ModuleId, r: RegionId, sync: bool) returns (ok: bool)
      requires Valid() && m in t.mods
      modifies this`mods, this`bound, this`decoupled, this`mgrs
      ensures ok <==> CanCouple(t, old(View()), m, r)
      ensures ok ==> View() == Couple(t, old(View()), m, r, sync)
    {
      hide Layered, Typed, Couple;
      KeysOf(t, View());
      if mods[m].configured != None {
        return false;
      }
      ghost var was := View();
      mods := mods[m := mods[m].(configured := Some(r))];
      ok := CoupleMembers(m, r, sync);
      if !ok {
        return false;
      }
      ConnectSubs(m, r);
      IsCoupled(t, was, View(), m, r, sync);
    }

    method CoupleMembers(m: ModuleId, r: RegionId, sync: bool) returns (ok: bool)
      requires m in t.mods
      modifies this`bound, this`decoupled
      ensures ok <==> forall x <- t.mods[m].members :: (r, x) !in old(bound)
      ensures ok ==> bound == old(bound) + BoundTo(r, t.mods[m].members, m)
      ensures ok ==> decoupled == if sync then old(decoupled) - Keys(r, t.mods[m].members) else old(decoupled)
    {
      var rest, done: set<MemberId> := t.mods[m].members, {};
      while rest != {}
        invariant rest !! done && rest + done == t.mods[m].members
        invariant forall x <- done :: (r, x) !in old(bound)
        invariant bound == old(bound) + BoundTo(r, done, m)
        invariant decoupled == if sync then old(decoupled) - Keys(r, done) else old(decoupled)
        decreases rest
      {
        var x :| x in rest;
        assert (r, x) !in BoundTo(r, done, m);
        if (r, x) in bound {
          return false;
        }
        BoundMore(old(bound), r, done, x, m);
        KeysLess(old(decoupled), r, done, x);
        bound := bound[(r, x) := m];
        if sync {
          decoupled := decoupled - {(r, x)};
        }
        rest, done := rest - {x}, done + {x};
      }
      assert done == t.mods[m].members;
      return true;
    }

    /** `connect_to_reconf_zone` on each sub-manager. */
    method ConnectSubs(m: ModuleId, r: RegionId)
      requires Layered(t) && m in t.mods && mgrs.Keys == t.mgrs
      modifies this`mgrs
      ensures mgrs == map c <- old(mgrs) :: if c in t.mods[m].subs then old(mgrs)[c].(rr := Some(r)) else old(mgrs)[c]
    {
      var subs := t.mods[m].subs;
      for k := 0 to |subs|
        invariant mgrs == map c <- old(mgrs) :: if c in subs[..k] then old(mgrs)[c].(rr := Some(r)) else old(mgrs)[c]
      {
        SubIn(t, m, k);
        assert subs[..k + 1] == subs[..k] + [subs[k]];
        mgrs := mgrs[subs[k] := mgrs[subs[k]].(rr := Some(r))];
      }
      assert subs[..|subs|] == subs;
    }

    // ---- unloading ----------------------------------------------------------------------------------

    /** `unload_module_unprotected`. */
    method UnloadUnprotected(c: ManagerId, me: ThreadId) returns (status: Status)
      requires Valid() && c in t.mgrs
      modifies this, rrs.Values
      ensures Reached(status, Unload(t, old(View()), c, me))
      ensures !status.Error? ==> Valid()
      decreases t.depth[c], 1, 0
    {
      hide Linked, Layered, Typed, CanDecouple, Decouple, Deactivate, Unload;
      LinkedKeys();
      KeysOf(t, View());
      ghost var was := View();
      UnloadIs(t, was, c, me);
      if mgrs[c].current.None? {
        return Finished;
      }
      if mgrs[c].rr.None? {
        return Error;
      }
      var m, r := mgrs[c].current.value, mgrs[c].rr.value;
      HomeOf(t, was, c);
      LinkedAt(r);
      var ok := rrs[r].IsUnloadOk();
      if !ok {
        return Error;
      }
      ok := NcDecouple(m, r);
      if !ok {
        return Error;
      }
      DecoupleTyped(t, was, m, r);
      status := TakeOut(c, m, me);
    }

    /** The rest of the unload: the module is deactivated and the manager's pointer becomes null. */
    method TakeOut(c: ManagerId, m: ModuleId, me: ThreadId) returns (status: Status)
      requires Valid() && m in t.mods && t.mods[m].home == c && c in t.mgrs
      modifies this, rrs.Values
      ensures Reached(status, EmptiedAfter(Deactivate(t, old(View()), m, 0, me), c))
      ensures !status.Error? ==> Valid()
      decreases t.depth[c], 0, 4
    {
      hide Linked, Layered, Typed, Deactivate;
      status := NcDeactivate(m, me);
      if !status.Finished? {
        return;
      }
      KeysOf(t, View());
      SetCurrentTyped(t, View(), c);
      mgrs := mgrs[c := mgrs[c].(current := None)];
    }

    /** `nc_deactivate`: the split manager's hook, the process kills, the nested regions. */
    method NcDeactivate(m: ModuleId, me: ThreadId) returns (status: Status)
      requires Valid() && m in t.mods
      modifies this, rrs.Values
      ensures Reached(status, Deactivate(t, old(View()), m, 0, me))
      ensures !status.Error? ==> Valid()
      decreases t.depth[t.mods[m].home], 0, 3
    {
      hide Linked, Layered, Typed, Unload, UnloadModule;
      status := DropSubs(m, me);
      if !status.Finished? {
        return;
      }
      KeysOf(t, View());
      var n := |t.mods[m].subs|;
      assert TaskAt(t.mods[m], n) == Kill;
      KillTyped(t, View(), mods[m].handles, me);
      status := KillAll(mods[m].handles, me);
      if !status.Finished? {
        return;
      }
      SetHandlesTyped(t, View(), m);
      mods := mods[m := mods[m].(handles := [])];
      status := DropNestedAll(m, me);
    }

    /** `on_deactivate` of a split manager, which has no sub-managers otherwise. */
    method DropSubs(m: ModuleId, me: ThreadId) returns (status: Status)
      requires Valid() && m in t.mods
      modifies this, rrs.Values
      ensures !status.Finished? ==> Reached(status, Deactivate(t, old(View()), m, 0, me))
      ensures status.Finished? ==> Valid() && Deactivate(t, View(), m, |t.mods[m].subs|, me) == Deactivate(t, old(View()), m, 0, me)
      ensures !status.Error? ==> Valid()
      decreases t.depth[t.mods[m].home], 0, 2
    {
      hide Linked, Layered, Typed, Unload, UnloadModule, KillFrom, Deactivate;
      ghost var was := View();
      for k := 0 to |t.mods[m].subs|
        invariant Valid() && Deactivate(t, View(), m, k, me) == Deactivate(t, was, m, 0, me)
      {
        var c := t.mods[m].subs[k];
        TaskIsOf(t, m, k);
        assert TaskAt(t.mods[m], k) == DropSub(c);
        KeysOf(t, View());
        DeactivateIs(t, View(), m, k, me);
        status := DropManager(m, c, me);
        if !status.Finished? {
          return;
        }
      }
      return Finished;
    }

    /** One sub-manager is unloaded and then given the split manager's region pointer. */
    method DropManager(m: ModuleId, c: ManagerId, me: ThreadId) returns (status: Status)
      requires Valid() && m in t.mods && TaskOf(t, m, DropSub(c))
      modifies this, rrs.Values
      ensures Reached(status, Teardown.Step(t, old(View()), m, DropSub(c), me))
      ensures !status.Error? ==> Valid()
      decreases t.depth[t.mods[m].home], 0, 1
    {
      hide Linked, Layered, Typed, Unload;
      KeysOf(t, View());
      status := UnloadUnprotected(c, me);
      if !status.Finished? {
        return;
      }
      KeysOf(t, View());
      SetRrTyped(t, View(), c, m);
      mgrs := mgrs[c := mgrs[c].(rr := mods[m].configured)];
    }

    /** The loop over the nested regions. */
    method DropNestedAll(m: ModuleId, me: ThreadId) returns (status: Status)
      requires Valid() && m in t.mods
      modifies this, rrs.Values
      ensures Reached(status, Deactivate(t, old(View()), m, |t.mods[m].subs| + 1, me))
      ensures !status.Error? ==> Valid()
      decreases t.depth[t.mods[m].home], 0, 1
    {
      hide Linked, Layered, Typed, Unload, UnloadModule, KillFrom;
      ghost var was := View();
      var n := |t.mods[m].subs| + 1;
      for j := 0 to |t.mods[m].nested|
        invariant Valid() && Deactivate(t, View(), m, n + j, me) == Deactivate(t, was, m, n, me)
      {
        var r := t.mods[m].nested[j];
        TaskIsOf(t, m, n + j);
        assert TaskAt(t.mods[m], n + j) == DropNested(r);
        status := UnloadModuleOn(t.root[r], r, me);
        if !status.Finished? {
          return;
        }
      }
      return Finished;
    }

    /** `unload_module`. */
    method UnloadModuleOn(c: ManagerId, r: RegionId, me: ThreadId) returns (status: Status)
      requires Valid() && c in t.mgrs && r in t.root
      modifies this, rrs.Values
      ensures Reached(status, UnloadModule(t, old(View()), c, r, me))
      ensures !status.Error? ==> Valid()
      decreases t.depth[c], 2, 0
    {
      hide Linked, Layered, Typed, Unload, UnloadModule;
      LinkedKeys();
      KeysOf(t, View());
      ghost var was := View();
      UnloadModuleIs(t, was, c, r, me);
      var ok := MarkBegin(r);
      if !ok {
        return Error;
      }
      SetReconfTyped(t, was, r, true);
      assert View() == SetReconf(was, r, true);
      status := UnloadUnprotected(c, me);
      if !status.Finished? {
        return;
      }
      KeysOf(t, View());
      SetReconfTyped(t, View(), r, false);
      ok := MarkEnd(r);
      if !ok {
        return Error;
      }
    }

    // ---- transactions ----------------------------------------------------------------------------------

    /** A socket call begins: `reconf_lock`, then the adapter's pointer. */
    method BeginCall(i: ThreadId, r: RegionId, x: MemberId, m: ModuleId) returns (status: Status)
      requires Linked() && i < |threads| && r in rrs
      modifies this`regions, this`threads, rrs.Values
      ensures Reached(status, DoCall(old(View()), i, r, x, m))
      ensures Linked()
    {
      hide Linked;
      LinkedKeys();
      var ok := Lock(r);
      if !ok {
        return Error;
      }
      threads := threads[i := threads[i].(stack := threads[i].stack + [Call(r, x, m)])];
      return Finished;
    }

    method EnterModule(i: ThreadId, r: RegionId, x: MemberId) returns (status: Status)
      requires Linked() && i < |threads| && r in rrs
      modifies this`regions, this`threads, rrs.Values
      ensures Reached(status, DoEnter(old(View()), i, r, x))
      ensures Linked()
    {
      hide Linked;
      LinkedKeys();
      if (r, x) !in bound {
        return Error;
      }
      status := BeginCall(i, r, x, bound[(r, x)]);
    }

    method EnterStatic(i: ThreadId, m: ModuleId, x: MemberId) returns (status: Status)
      requires Valid() && i < |threads| && m in mods
      modifies this`regions, this`threads, rrs.Values
      ensures Reached(status, DoEnterOut(t, old(View()), i, m, x))
      ensures Linked()
    {
      hide Linked;
      LinkedKeys();
      if mods[m].configured.None? {
        return Error;
      }
      status := BeginCall(i, mods[m].configured.value, x, m);
    }

    method EndCall(i: ThreadId) returns (status: Status)
      requires Linked() && i < |threads| && threads[i].stack != [] && threads[i].stack[|threads[i].stack| - 1].Call?
      modifies this`regions, this`threads, rrs.Values
      ensures Reached(status, DoReturn(old(View()), i))
      ensures Linked()
    {
      hide Linked;
      LinkedKeys();
      var stack := threads[i].stack;
      var r := stack[|stack| - 1].rr;
      if r !in rrs {
        return Error;
      }
      var ok := Unlock(r);
      if !ok {
        return Error;
      }
      threads := threads[i := threads[i].(stack := stack[..|stack| - 1])];
      return Finished;
    }

    // ---- reconfiguration ---------------------------------------------------------------------------------

    /** `configure_module` up to the wait for the load time; `found` is the registered module. */
    method Configure(i: ThreadId, c: ManagerId, found: Option<ModuleId>) returns (status: Status)
      requires Valid() && c in t.mgrs && i < |threads|
      requires found.Some? ==> found.value in t.mods && t.mods[found.value].home == c
      modifies this, rrs.Values
      ensures Reached(status, DoConfigure(t, old(View()), i, c, found))
    {
      hide Linked, Layered, Typed, Unload;
      LinkedKeys();
      KeysOf(t, View());
      if found.None? {
        return Error;
      }
      if found == mgrs[c].current {
        return Finished;
      }
      if mgrs[c].rr.None? {
        return Error;
      }
      var r := mgrs[c].rr.value;
      BeginTyped(t, View(), r);
      var ok := Begin(r);
      if !ok {
        return Error;
      }
      status := UnloadUnprotected(c, i);
      if !status.Finished? {
        return;
      }
      if i >= |threads| {
        return Error;
      }
      KeysOf(t, View());
      mgrs := mgrs[c := mgrs[c].(current := found)];
      threads := threads[i := threads[i].(stack := threads[i].stack + [Load(c, r, found.value, LoadWait)])];
    }

    /** `unload_module` called by thread `i`. */
    method UnloadRequest(i: ThreadId, c: ManagerId) returns (status: Status)
      requires Valid() && c in t.mgrs
      modifies this, rrs.Values
      ensures Reached(status, DoUnload(t, old(View()), i, c))
    {
      hide Linked;
      KeysOf(t, View());
      if mgrs[c].rr.None? {
        return Error;
      }
      status := UnloadModuleOn(c, mgrs[c].rr.value, i);
    }

    /** The first loop of `nc_activate`: spawn a process per registered argument and keep its
        handle. */
    method Spawn(m: ModuleId)
      requires m in t.mods && m in mods
      modifies this`threads, this`mods
      ensures View() == Activate(t, old(View()), m)
    {
      ghost var was := View();
      var hs := mods[m].handles;
      for k := 0 to t.mods[m].procs
        invariant View() == was.(threads := threads)
        invariant threads == was.threads + Spawned(m, k)
        invariant hs == was.mods[m].handles + seq(k, j requires 0 <= j => |was.threads| + j)
      {
        hs := hs + [|threads|];
        threads := threads + [Thread(Some(m), true, [])];
      }
      mods := mods[m := mods[m].(handles := hs)];
    }

    /** `load_current_module` in the thread whose load waits: the stretch of code up to the next wait. */
    method ResumeLoad(i: ThreadId) returns (status: Status)
      requires Valid() && Top(View(), i).Some? && Top(View(), i).value.Load?
      requires Top(View(), i).value.mgr in t.mgrs && Top(View(), i).value.mod in t.mods
      modifies this, rrs.Values
      ensures Reached(status, DoResume(t, old(View()), i))
    {
      hide Linked, Layered, Typed, DoResume;
      var stack := threads[i].stack;
      match stack[|stack| - 1].phase
      case LoadWait => status := AfterLoadTime(i);
      case SyncWait => status := AfterSync(i);
      case Activating(k) => status := GoOn(i, k);
    }

    /** The load time has passed: couple the module and wait for its adapters. */
    method AfterLoadTime(i: ThreadId) returns (status: Status)
      requires Valid() && Top(View(), i).Some? && Top(View(), i).value.Load? && Top(View(), i).value.phase == LoadWait
      requires Top(View(), i).value.mgr in t.mgrs && Top(View(), i).value.mod in t.mods
      modifies this, rrs.Values
      ensures Reached(status, DoResume(t, old(View()), i))
    {
      hide Linked, Layered, Typed, CanCouple, Couple;
      LinkedKeys();
      KeysOf(t, View());
      var stack := threads[i].stack;
      var f := stack[|stack| - 1];
      if mgrs[f.mgr].rr.None? {
        return Error;
      }
      var r := mgrs[f.mgr].rr.value;
      LinkedAt(r);
      if mgrs[f.mgr].current != Some(f.mod) || !rrs[r].reconfiguring || !rrs[r].blocked {
        return Error;
      }
      SetTop(i, f.(phase := SyncWait));
      CoupleFrame(t, old(View()), View(), f.mod, r);
      var ok := NcCouple(f.mod, r, true);
      if !ok {
        return Error;
      }
      status := Finished;
    }

    /** The adapters are synchronised: unblock the region and spawn the processes. */
    method AfterSync(i: ThreadId) returns (status: Status)
      requires Valid() && Top(View(), i).Some? && Top(View(), i).value.Load? && Top(View(), i).value.phase == SyncWait
      requires Top(View(), i).value.mgr in t.mgrs && Top(View(), i).value.mod in t.mods
      modifies this, rrs.Values
      ensures Reached(status, DoResume(t, old(View()), i))
    {
      hide Linked, Layered, Typed, Activate;
      LinkedKeys();
      KeysOf(t, View());
      var stack := threads[i].stack;
      var f := stack[|stack| - 1];
      if mgrs[f.mgr].rr.None? {
        return Error;
      }
      var r := mgrs[f.mgr].rr.value;
      SetTop(i, f.(phase := Activating(0)));
      var ok := Unblock(r);
      if !ok {
        return Error;
      }
      Spawn(f.mod);
      status := Finished;
    }

    /** One nested preload after the other, and finally the end of the reconfiguration. */
    method GoOn(i: ThreadId, k: nat) returns (status: Status)
      requires Valid() && Top(View(), i).Some? && Top(View(), i).value.Load? && Top(View(), i).value.phase == Activating(k)
      requires Top(View(), i).value.mgr in t.mgrs && Top(View(), i).value.mod in t.mods
      modifies this, rrs.Values
      ensures Reached(status, DoResume(t, old(View()), i))
    {
      hide Linked, Layered, Typed, DoNestedPreload;
      LinkedKeys();
      KeysOf(t, View());
      var stack := threads[i].stack;
      var f := stack[|stack| - 1];
      if mgrs[f.mgr].rr.None? {
        return Error;
      }
      var r := mgrs[f.mgr].rr.value;
      if k < |t.mods[f.mod].nested| {
        NestedOf(t, f.mod, k);
        SetTop(i, f.(phase := Activating(k + 1)));
        CoupleFrame(t, old(View()), View(), f.mod, r);
        status := PreloadNested(i, t.mods[f.mod].nested[k]);
        return;
      }
      threads := threads[i := threads[i].(stack := stack[..|stack| - 1])];
      var ok := MarkEnd(r);
      if !ok {
        return Error;
      }
      status := Finished;
    }

    /** The thread remembers how far it has come. */
    method SetTop(i: ThreadId, f: Frame)
      requires i < |threads| && threads[i].stack != []
      modifies this`threads
      ensures View() == Replace(old(View()), i, f)
    {
      var stack := threads[i].stack;
      threads := threads[i := threads[i].(stack := stack[..|stack| - 1] + [f])];
    }

    /** `do_preload` of a nested region, up to the coupling. */
    method PreloadNested(i: ThreadId, r: RegionId) returns (status: Status)
      requires Valid() && i < |threads| && r in t.root
      modifies this, rrs.Values
      ensures Reached(status, DoNestedPreload(t, old(View()), i, r))
    {
      hide Linked, Layered, Typed;
      LinkedKeys();
      KeysOf(t, View());
      RootKnown(t, r);
      var c := t.root[r];
      if c !in t.preload {
        return Finished;
      }
      var ok := Begin(r);
      if !ok {
        return Error;
      }
      mgrs := mgrs[c := mgrs[c].(current := Some(t.preload[c]))];
      threads := threads[i := threads[i].(stack := threads[i].stack + [Load(c, r, t.preload[c], LoadWait)])];
      return Finished;
    }

    /** `start_of_simulation` of a static region: the same without waiting. */
    method PreloadStatic(c: ManagerId) returns (status: Status)
      requires Valid() && c in t.mgrs
      modifies this, rrs.Values
      ensures Reached(status, DoStartPreload(t, old(View()), c))
    {
      hide Linked, Layered, Typed, CanCouple, Couple, Activate;
      LinkedKeys();
      KeysOf(t, View());
      if c !in t.preload {
        return Finished;
      }
      if mgrs[c].rr.None? {
        return Error;
      }
      PreloadHome(t, c);
      var m, r := t.preload[c], mgrs[c].rr.value;
      ghost var was := View();
      var ok := Begin(r);
      if !ok {
        return Error;
      }
      mgrs := mgrs[c := mgrs[c].(current := Some(m))];
      ghost var begun := SetCurrent(SetBlocked(SetReconf(was, r, true), r, true), c, Some(m));
      assert View() == begun;
      PreloadFrame(t, was, begun, c, r);
      PreloadEnds(t, was, c, m, r);
      status := LoadAtOnce(m, r);
    }

    /** Nothing waits: the module is coupled, its processes are spawned, and the preload is over. */
    method LoadAtOnce(m: ModuleId, r: RegionId) returns (status: Status)
      requires Valid() && m in t.mods && m in mods && r in t.root && r in regions && regions[r].blocked && regions[r].reconf
      modifies this, rrs.Values
      ensures Reached(status, LoadedAtOnce(t, old(View()), m, r))
    {
      hide Linked, Layered, Typed, CanCouple, Couple, Activate;
      LinkedKeys();
      var ok := NcCouple(m, r, false);
      if !ok {
        return Error;
      }
      CoupleRegions(t, old(View()), old(View()).regions, m, r);
      Spawn(m);
      LinkedKeys();
      EndPreload(r);
      return Finished;
    }

    method EndPreload(r: RegionId)
      requires Linked() && r in rrs && r in regions && regions[r].blocked && regions[r].reconf
      modifies this`regions, rrs[r]
      ensures Linked() && View() == SetReconf(SetBlocked(old(View()), r, false), r, false)
    {
      hide Linked;
      var ok := Unblock(r);
      ok := MarkEnd(r);
    }

    /** The process function of thread `i` returns. */
    method Exit(i: ThreadId)
      requires i < |threads|
      modifies this`threads
      ensures View() == DoExit(old(View()), i)
    {
      threads := threads[i := Thread(threads[i].owner, false, [])];
    }

    /** One step of a run: the code above is one way to compute `Next`. */
    method Perform(a: Action) returns (status: Status)
      requires Valid() && Enabled(t, View(), a)
      modifies this, rrs.Values
      ensures Reached(status, Next(t, old(View()), a))
    {
      hide Linked, Layered, Typed, Next, Enabled, DoStartPreload;
      match a
      case StartPreload(c) =>
        NextStart(t, View(), c);
        status := PreloadStatic(c);
      case _ =>
        StartedNext(t, View(), a);
        ghost var was := View();
        started := true;
        assert View() == was.(started := true);
        status := Dispatch(a);
    }

    /** A step that does not fail keeps the invariant of the protocol, unless it preloads over a module that
        is there; so the theorems about runs hold of these objects. */
    method Step(a: Action) returns (status: Status)
      requires Model.Valid(t) && Valid() && Inv(t, View()) && Enabled(t, View(), a)
      modifies this, rrs.Values
      ensures Reached(status, Next(t, old(View()), a))
      ensures !status.Error? ==> (Inv(t, View()) <==> !old(Overwrites(t, View(), a)))
    {
      hide Layered, Typed, During, Model.Valid, Next, Overwrites;
      KeepsUnlessOverwrites(t, View(), a);
      status := Perform(a);
    }

    method Dispatch(a: Action) returns (status: Status)
      requires Valid() && Enabled(t, View(), a) && !a.StartPreload? && started
      modifies this, rrs.Values
      ensures Reached(status, Next(t, old(View()), a))
    {
      hide Linked, Layered, Typed, DoConfigure, DoUnload, DoResume, DoStartPreload, DoEnter, DoEnterOut, DoReturn;
      LinkedKeys();
      KeysOf(t, View());
      assert View().(started := true) == View();
      match a
      case Enter(i, r, x) => status := EnterModule(i, r, x);
      case EnterOut(i, m, x) => status := EnterStatic(i, m, x);
      case Return(i) => status := EndCall(i);
      case Exit(i) =>
        Exit(i);
        status := Finished;
      case Configure(i, c, found) => status := Configure(i, c, found);
      case UnloadRequest(i, c) => status := UnloadRequest(i, c);
      case Resume(i) => status := ResumeLoad(i);
    }
  }

  ghost function BoundTo(r: RegionId, xs: set<MemberId>, m: ModuleId): map<(RegionId, MemberId), ModuleId> {
    map x <- xs :: (r, x) := m
  }

  lemma IsCoupled(t: Topology, s: State, n: State, m: ModuleId, r: RegionId, sync: bool)
    requires m in t.mods && m in s.mods
    requires n.mods == s.mods[m := s.mods[m].(configured := Some(r))] && n.bound == s.bound + BoundTo(r, t.mods[m].members, m)
    requires n.decoupled == if sync then s.decoupled - Keys(r, t.mods[m].members) else s.decoupled
    requires n.mgrs == map c <- s.mgrs :: if c in t.mods[m].subs then s.mgrs[c].(rr := Some(r)) else s.mgrs[c]
    requires n.regions == s.regions && n.threads == s.threads && n.started == s.started
    ensures n == Couple(t, s, m, r, sync)
  {
  }

  /** The module coupled and active at once, on a region neither marked nor blocked any longer. */
  function LoadedAtOnce(t: Topology, s: State, m: ModuleId, r: RegionId): Outcome
    requires m in t.mods && m in s.mods && r in s.regions
  {
    if !CanCouple(t, s, m, r) then Failed
    else Done(SetReconf(SetBlocked(Activate(t, Couple(t, s, m, r, false), m), r, false), r, false))
  }

  lemma RootKnown(t: Topology, r: RegionId)
    requires Layered(t) && r in t.root
    ensures t.root[r] in t.mgrs
  {
  }

  /** A completed deactivation is followed by clearing the manager's pointer. */
  function EmptiedAfter(o: Outcome, c: ManagerId): Outcome {
    match o
    case Failed => Failed
    case Aborted(s) => Aborted(s)
    case Done(s) => if c in s.mgrs then Done(SetCurrent(s, c, None)) else Failed
  }

  /** The branches of `unload_module_unprotected`. */
  lemma UnloadIs(t: Topology, s: State, c: ManagerId, me: ThreadId)
    requires Layered(t) && Typed(t, s) && c in t.mgrs
    ensures var g := s.mgrs[c];
      && (g.current.None? ==> Unload(t, s, c, me) == Done(s))
      && (g.current.Some? && (g.rr.None? || s.regions[g.rr.value].count != 0 || !CanDecouple(t, s, g.current.value, g.rr.value)) ==>
            Unload(t, s, c, me).Failed?)
      && (g.current.Some? && g.rr.Some? && s.regions[g.rr.value].count == 0 && CanDecouple(t, s, g.current.value, g.rr.value) ==>
            var n := Decouple(t, s, g.current.value, g.rr.value);
            Typed(t, n) && Unload(t, s, c, me) == EmptiedAfter(Deactivate(t, n, g.current.value, 0, me), c))
  {
    hide Layered, Typed, CanDecouple, Decouple, Deactivate;
    KeysOf(t, s);
    if s.mgrs[c].current.Some? && s.mgrs[c].rr.Some? {
      var m := s.mgrs[c].current.value;
      HomeOf(t, s, c);
      DecoupleTyped(t, s, m, s.mgrs[c].rr.value);
      var o := Deactivate(t, Decouple(t, s, m, s.mgrs[c].rr.value), m, 0, me);
      if o.Done? { KeysOf(t, o.state); }
    }
  }

  /** A completed unload is followed by taking the mark away. */
  function UnmarkedAfter(o: Outcome, r: RegionId): Outcome {
    match o
    case Failed => Failed
    case Aborted(s) => Aborted(s)
    case Done(s) => if r in s.regions && s.regions[r].reconf then Done(SetReconf(s, r, false)) else Failed
  }

  lemma UnloadModuleIs(t: Topology, s: State, c: ManagerId, r: RegionId, me: ThreadId)
    requires Layered(t) && Typed(t, s) && c in t.mgrs && r in t.root
    ensures s.regions[r].reconf ==> UnloadModule(t, s, c, r, me).Failed?
    ensures Typed(t, SetReconf(s, r, true))
    ensures !s.regions[r].reconf ==>
      UnloadModule(t, s, c, r, me) == UnmarkedAfter(Unload(t, SetReconf(s, r, true), c, me), r)
  {
    hide Layered, Typed;
    KeysOf(t, s);
    SetReconfTyped(t, s, r, true);
    var o := Unload(t, SetReconf(s, r, true), c, me);
    if o.Done? { KeysOf(t, o.state); }
  }

  /** The step `k` of a deactivation comes first. */
  lemma DeactivateIs(t: Topology, s: State, m: ModuleId, k: nat, me: ThreadId)
    requires Layered(t) && Typed(t, s) && m in t.mods && k < Tasks(t.mods[m]) && TaskOf(t, m, TaskAt(t.mods[m], k))
    ensures var o := Step(t, s, m, TaskAt(t.mods[m], k), me);
      Deactivate(t, s, m, k, me) == match o case Failed => Failed case Aborted(_) => o case Done(n) => Deactivate(t, n, m, k + 1, me)
  {
    hide Layered, Typed, Step;
  }

  /** One entry of a stack being unwound. */
  lemma UnwindEntry(regions: map<RegionId, Region>, stack: seq<Frame>, n: nat)
    requires n < |stack|
    ensures Unwind(regions, stack[..n + 1])
         == if stack[n].Load? then Unwind(regions, stack[..n])
            else if stack[n].rr !in regions || regions[stack[n].rr].count == 0 then None
            else Unwind(regions[stack[n].rr := regions[stack[n].rr].(count := regions[stack[n].rr].count - 1)], stack[..n])
  {
    assert stack[..n + 1][..n] == stack[..n];
  }

  lemma UnwindEnd(regions: map<RegionId, Region>, stack: seq<Frame>)
    ensures Unwind(regions, stack[..0]) == Some(regions)
  {
  }

  lemma BoundMore(b: map<(RegionId, MemberId), ModuleId>, r: RegionId, done: set<MemberId>, x: MemberId, m: ModuleId)
    ensures (b + BoundTo(r, done, m))[(r, x) := m] == b + BoundTo(r, done + {x}, m)
  {
    assert BoundTo(r, done + {x}, m) == BoundTo(r, done, m)[(r, x) := m];
  }

  lemma KeysLess(d: set<(RegionId, MemberId)>, r: RegionId, done: set<MemberId>, x: MemberId)
    ensures (d - Keys(r, done)) - {(r, x)} == d - Keys(r, done + {x})
  {
    assert Keys(r, done + {x}) == Keys(r, done) + {(r, x)};
  }

  lemma KeysMore(r: RegionId, done: set<MemberId>, x: MemberId, outs: set<MemberId>)
    ensures Keys(r, done + {x}) == Keys(r, done) + {(r, x)}
    ensures Keys(r, (done + {x}) * outs) == Keys(r, done * outs) + if x in outs then {(r, x)} else {}
  {
    assert (done + {x}) * outs == done * outs + if x in outs then {x} else {};
  }

  /** Whether a module can be coupled does not depend on threads and flags. */
  lemma CoupleFrame(t: Topology, s: State, n: State, m: ModuleId, r: RegionId)
    requires Typed(t, s) && m in t.mods && m in s.mods
    requires n == s.(threads := n.threads, regions := n.regions) && n.regions.Keys == s.regions.Keys
    ensures Typed(t, n) && (CanCouple(t, n, m, r) <==> CanCouple(t, s, m, r))
  {
  }

  lemma Restored(regions: map<RegionId, Region>, r: RegionId)
    requires r in regions && !regions[r].reconf && !regions[r].blocked
    ensures var b := regions[r := regions[r].(reconf := true, blocked := true)];
      b[r := b[r].(blocked := false, reconf := false)] == regions
  {
  }

  lemma Begins(t: Topology, s: State)
    requires s.regions.Keys == t.root.Keys && s.mgrs.Keys == t.mgrs && s.mods.Keys == t.mods.Keys
    requires forall r <- s.regions :: s.regions[r] == Region(false, false, 0)
    requires forall m <- s.mods :: s.mods[m] == Module(None, [])
    requires forall c <- s.mgrs :: s.mgrs[c].current.None?
                                   && (s.mgrs[c].rr.Some? ==> s.mgrs[c].rr.value in t.root && t.root[s.mgrs[c].rr.value] == c)
    requires forall r <- t.root :: t.root[r] in s.mgrs && s.mgrs[t.root[r]] == Manager(None, Some(r))
    requires s.bound == map[] && s.decoupled == {} && !s.started
    requires forall i | 0 <= i < |s.threads| :: s.threads[i] == Thread(None, true, [])
    ensures Init(t, s) && Typed(t, s)
  {
  }

  /** Every action but a preload before simulation finds the simulation started. */
  lemma StartedNext(t: Topology, s: State, a: Action)
    requires Layered(t) && Typed(t, s) && Enabled(t, s, a) && !a.StartPreload?
    ensures var n := s.(started := true); Typed(t, n) && Enabled(t, n, a) && Next(t, n, a) == Next(t, s, a)
  {
    hide Layered, Typed;
    StartedTyped(t, s);
  }

  lemma NextStart(t: Topology, s: State, c: ManagerId)
    requires Layered(t) && Typed(t, s) && Enabled(t, s, StartPreload(c))
    ensures c in t.mgrs && Next(t, s, StartPreload(c)) == DoStartPreload(t, s, c)
  {
  }

  /** Marking and blocking the region around a preload that does not wait leaves no trace. */
  lemma PreloadEnds(t: Topology, s: State, c: ManagerId, m: ModuleId, r: RegionId)
    requires c in s.mgrs && m in t.mods && m in s.mods && r in s.regions && !s.regions[r].reconf && !s.regions[r].blocked
    ensures var b := SetCurrent(SetBlocked(SetReconf(s, r, true), r, true), c, Some(m));
      m in b.mods && m in Couple(t, b, m, r, false).mods && r in Activate(t, Couple(t, b, m, r, false), m).regions
      && SetReconf(SetBlocked(Activate(t, Couple(t, b, m, r, false), m), r, false), r, false)
         == Activate(t, Couple(t, SetCurrent(s, c, Some(m)), m, r, false), m)
  {
    hide Couple, Activate;
    var b := SetCurrent(SetBlocked(SetReconf(s, r, true), r, true), c, Some(m));
    var e := SetCurrent(s, c, Some(m));
    CoupleRegions(t, e, b.regions, m, r);
    ActivateRegions(t, Couple(t, e, m, r, false), b.regions, m);
    Restored(s.regions, r);
  }

  lemma RootManager(t: Topology, r: RegionId)
    requires Model.Valid(t) && r in t.root
    ensures t.root[r] in t.mgrs && forall q <- t.root | t.root[q] == t.root[r] :: q == r
  {
  }

  lemma PreloadFrame(t: Topology, s: State, n: State, c: ManagerId, r: RegionId)
    requires Typed(t, s) && c in s.mgrs && c in t.preload && t.preload[c] in t.mods && t.mods[t.preload[c]].home == c && r in t.root
    requires n == SetCurrent(s, c, Some(t.preload[c])).(regions := n.regions) && n.regions.Keys == s.regions.Keys
    ensures Typed(t, n) && t.preload[c] in s.mods
    ensures CanCouple(t, n, t.preload[c], r) <==> CanCouple(t, s, t.preload[c], r)
  {
  }

  lemma CoupleRegions(t: Topology, s: State, regions: map<RegionId, Region>, m: ModuleId, r: RegionId)
    requires m in t.mods && m in s.mods
    ensures Couple(t, s.(regions := regions), m, r, false) == Couple(t, s, m, r, false).(regions := regions)
    ensures m in Couple(t, s, m, r, false).mods && Couple(t, s, m, r, false).regions == s.regions
  {
  }

  lemma ActivateRegions(t: Topology, s: State, regions: map<RegionId, Region>, m: ModuleId)
    requires m in t.mods && m in s.mods
    ensures Activate(t, s.(regions := regions), m) == Activate(t, s, m).(regions := regions)
    ensures Activate(t, s, m).regions == s.regions
  {
  }

  lemma SubIn(t: Topology, m: ModuleId, k: nat)
    requires Layered(t) && m in t.mods && k < |t.mods[m].subs|
    ensures t.mods[m].subs[k] in t.mgrs
  {
  }
}
