/** Unloading: `unload_module_unprotected`, `nc_decouple`, `nc_deactivate`, process kills
    and the split manager's `on_deactivate`, as one atomic, mutually recursive operation. */
module Teardown {
  import opened Model

  // ---- single effects ----------------------------------------------------------------

  function SetReconf(s: State, r: RegionId, b: bool): State
    requires r in s.regions
  {
    s.(regions := s.regions[r := s.regions[r].(reconf := b)])
  }

  function SetCurrent(s: State, c: ManagerId, m: Option<ModuleId>): State
    requires c in s.mgrs
  {
    s.(mgrs := s.mgrs[c := s.mgrs[c].(current := m)])
  }

  function SetRr(s: State, c: ManagerId, r: Option<RegionId>): State
    requires c in s.mgrs
  {
    s.(mgrs := s.mgrs[c := s.mgrs[c].(rr := r)])
  }

  function SetHandles(s: State, m: ModuleId, hs: seq<ThreadId>): State
    requires m in s.mods
  {
    s.(mods := s.mods[m := s.mods[m].(handles := hs)])
  }

  /** All assertions of `nc_decouple` and of the members' `dynamic_unbind` hold. */
  predicate CanDecouple(t: Topology, s: State, m: ModuleId, r: RegionId)
    requires m in t.mods && m in s.mods
  {
    && s.mods[m].configured == Some(r)
    && forall x <- t.mods[m].members :: (r, x) in s.bound && s.bound[(r, x)] == m
  }

  function Keys(r: RegionId, xs: set<MemberId>): set<(RegionId, MemberId)> {
    set x <- xs :: (r, x)
  }

  function Decouple(t: Topology, s: State, m: ModuleId, r: RegionId): State
    requires m in t.mods && m in s.mods
  {
    s.(mods := s.mods[m := s.mods[m].(configured := None)],
       bound := s.bound - Keys(r, t.mods[m].members),
       decoupled := s.decoupled + Keys(r, t.mods[m].members * t.outs),
       started := true)
  }

  // ---- killing processes -------------------------------------------------------------

  /** Unwinding a killed process runs the destructors of its `reconf_lock`s, innermost
      first; every one decrements its region's counter and asserts that it is positive. */
  function Unwind(regions: map<RegionId, Region>, stack: seq<Frame>): Option<map<RegionId, Region>> {
    if stack == [] then Some(regions)
    else
      var f := stack[|stack| - 1];
      if f.Load? then Unwind(regions, stack[..|stack| - 1])
      else if f.rr !in regions || regions[f.rr].count == 0 then None
      else Unwind(regions[f.rr := regions[f.rr].(count := regions[f.rr].count - 1)], stack[..|stack| - 1])
  }

  function Dead(th: Thread): Thread {
    th.(alive := false, stack := [])
  }

  function KillOne(s: State, i: ThreadId): Option<State> {
    if i >= |s.threads| then Some(s) else
    match Unwind(s.regions, s.threads[i].stack)
    case None => None
    case Some(regions) => Some(s.(regions := regions, threads := s.threads[i := Dead(s.threads[i])]))
  }

  /** The loop over `m_nc_proc_handles`.  A process that kills itself never returns from
      the call, so nothing after it happens. */
  function KillFrom(s: State, hs: seq<ThreadId>, me: ThreadId): (o: Outcome)
    decreases |hs|
  {
    if hs == [] then Done(s)
    else
      match KillOne(s, hs[0])
      case None => Failed
      case Some(s1) => if hs[0] == me then Aborted(s1) else KillFrom(s1, hs[1..], me)
  }

  // ---- recursion ---------------------------------------------------------------------

  /** The steps of `nc_deactivate`, in order: the split manager's `on_deactivate` drops
      each of its managers, then the processes are killed, then each nested region is
      unloaded. */
  datatype Task = DropSub(c: ManagerId) | Kill | DropNested(r: RegionId)

  function Tasks(sh: Shape): nat {
    |sh.subs| + 1 + |sh.nested|
  }

  function TaskAt(sh: Shape, k: nat): Task
    requires k < Tasks(sh)
  {
    if k < |sh.subs| then DropSub(sh.subs[k])
    else if k == |sh.subs| then Kill
    else DropNested(sh.nested[k - |sh.subs| - 1])
  }

  predicate TaskOf(t: Topology, m: ModuleId, task: Task)
    requires m in t.mods
  {
    match task
    case DropSub(c) => Inside(t, c, m)
    case Kill => true
    case DropNested(r) => r in t.root && Inside(t, t.root[r], m)
  }

  /** `unload_module_unprotected` on manager `c`, executed by thread `me`. */
  function Unload(t: Topology, s: State, c: ManagerId, me: ThreadId): (o: Outcome)
    requires Layered(t) && Typed(t, s) && c in t.mgrs
    ensures !o.Failed? ==> Typed(t, o.state)
    decreases t.depth[c], 1, 0
  {
    if s.mgrs[c].current.None? then Done(s)
    else if s.mgrs[c].rr.None? then Failed
    else
      var m, r := s.mgrs[c].current.value, s.mgrs[c].rr.value;
      if s.regions[r].count != 0 || !CanDecouple(t, s, m, r) then Failed
      else
        DecoupleTyped(t, s, m, r);
        match Deactivate(t, Decouple(t, s, m, r), m, 0, me)
        case Failed => Failed
        case Aborted(s1) => Aborted(s1)
        case Done(s1) => SetCurrentTyped(t, s1, c); Done(SetCurrent(s1, c, None))
  }

  /** The steps of `nc_deactivate` on module `m` from number `k` on. */
  function Deactivate(t: Topology, s: State, m: ModuleId, k: nat, me: ThreadId): (o: Outcome)
    requires Layered(t) && Typed(t, s) && m in t.mods && k <= Tasks(t.mods[m])
    ensures !o.Failed? ==> Typed(t, o.state)
    decreases t.depth[t.mods[m].home], 0, Tasks(t.mods[m]) - k
  {
    if k == Tasks(t.mods[m]) then Done(s)
    else
      match Step(t, s, m, TaskAt(t.mods[m], k), me)
      case Failed => Failed
      case Aborted(s1) => Aborted(s1)
      case Done(s1) => Deactivate(t, s1, m, k + 1, me)
  }

  function Step(t: Topology, s: State, m: ModuleId, task: Task, me: ThreadId): (o: Outcome)
    requires Layered(t) && Typed(t, s) && m in t.mods
    requires TaskOf(t, m, task)
    ensures !o.Failed? ==> Typed(t, o.state)
    decreases t.depth[t.mods[m].home], 0, 0
  {
    match task
    case DropSub(c) =>
      (match Unload(t, s, c, me)
       case Failed => Failed
       case Aborted(s1) => Aborted(s1)
       case Done(s1) => SetRrTyped(t, s1, c, m); Done(SetRr(s1, c, s1.mods[m].configured)))
    case Kill =>
      KillTyped(t, s, s.mods[m].handles, me);
      (match KillFrom(s, s.mods[m].handles, me)
       case Failed => Failed
       case Aborted(s1) => Aborted(s1)
       case Done(s1) => SetHandlesTyped(t, s1, m); Done(SetHandles(s1, m, [])))
    case DropNested(r) => UnloadModule(t, s, t.root[r], r, me)
  }

  /** `unload_module` on manager `c`, which is connected to region `r`. */
  function UnloadModule(t: Topology, s: State, c: ManagerId, r: RegionId, me: ThreadId): (o: Outcome)
    requires Layered(t) && Typed(t, s) && c in t.mgrs && r in t.root
    ensures !o.Failed? ==> Typed(t, o.state)
    decreases t.depth[c], 2, 0
  {
    if s.regions[r].reconf then Failed
    else
      SetReconfTyped(t, s, r, true);
      match Unload(t, SetReconf(s, r, true), c, me)
      case Failed => Failed
      case Aborted(s1) => Aborted(s1)
      case Done(s1) => 
        if s1.regions[r].reconf then SetReconfTyped(t, s1, r, false); Done(SetReconf(s1, r, false)) else Failed
  }

  // ---- typing ------------------------------------------------------------------------

  lemma SetReconfTyped(t: Topology, s: State, r: RegionId, b: bool)
    requires Typed(t, s) && r in t.root
    ensures Typed(t, SetReconf(s, r, b))
  {
  }

  lemma SetCurrentTyped(t: Topology, s: State, c: ManagerId)
    requires Typed(t, s) && c in t.mgrs
    ensures Typed(t, SetCurrent(s, c, None))
  {
  }

  lemma SetRrTyped(t: Topology, s: State, c: ManagerId, m: ModuleId)
    requires Typed(t, s) && c in t.mgrs && m in t.mods
    ensures Typed(t, SetRr(s, c, s.mods[m].configured))
  {
  }

  lemma SetHandlesTyped(t: Topology, s: State, m: ModuleId)
    requires Typed(t, s) && m in t.mods
    ensures Typed(t, SetHandles(s, m, []))
  {
  }

  lemma DecoupleTyped(t: Topology, s: State, m: ModuleId, r: RegionId)
    requires Typed(t, s) && m in t.mods
    ensures Typed(t, Decouple(t, s, m, r))
  {
  }

  lemma {:induction false} UnwindKeys(regions: map<RegionId, Region>, stack: seq<Frame>)
    ensures var u := Unwind(regions, stack); u.Some? ==>
      && u.value.Keys == regions.Keys
      && forall r <- regions :: u.value[r].reconf == regions[r].reconf && u.value[r].blocked == regions[r].blocked
                                && u.value[r].count <= regions[r].count
  {
    if stack != [] {
      var f := stack[|stack| - 1];
      if f.Load? {
        UnwindKeys(regions, stack[..|stack| - 1]);
      } else if f.rr in regions && regions[f.rr].count > 0 {
        UnwindKeys(regions[f.rr := regions[f.rr].(count := regions[f.rr].count - 1)], stack[..|stack| - 1]);
      }
    }
  }

  lemma {:induction false} KillTyped(t: Topology, s: State, hs: seq<ThreadId>, me: ThreadId)
    requires Typed(t, s)
    ensures var o := KillFrom(s, hs, me); !o.Failed? ==> Typed(t, o.state) && o.state.mods == s.mods
    decreases |hs|
  {
    if hs != [] {
      var u := KillOne(s, hs[0]);
      if u.Some? {
        if hs[0] < |s.threads| { UnwindKeys(s.regions, s.threads[hs[0]].stack); }
        if hs[0] != me {
          KillTyped(t, u.value, hs[1..], me);
        }
      }
    }
  }
}
