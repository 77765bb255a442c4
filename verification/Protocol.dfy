/** The step relation of the reconfiguration protocol.  A step is one uninterrupted stretch
    of one thread's code, or a part of one: every place where the library waits ends a step,
    and some stretches are cut further, so the runs below include all runs of the library. */
module Protocol {
  import opened Model
  import opened Teardown

  datatype Action =
    | Enter(i: ThreadId, r: RegionId, x: MemberId)       // a call from the static side into the module
    | EnterOut(i: ThreadId, m: ModuleId, x: MemberId)    // a call from the module to the static side
    | Return(i: ThreadId)
    | Exit(i: ThreadId)                                  // the process function returns
    | Configure(i: ThreadId, c: ManagerId, found: Option<ModuleId>)
    | UnloadRequest(i: ThreadId, c: ManagerId)
    | Resume(i: ThreadId)                                // a load in progress goes on
    | StartPreload(c: ManagerId)                         // top-level preload, before simulation

  function Top(s: State, i: ThreadId): Option<Frame> {
    if i < |s.threads| && s.threads[i].stack != [] then Some(s.threads[i].stack[|s.threads[i].stack| - 1]) else None
  }

  function WithStack(s: State, i: ThreadId, stack: seq<Frame>): State
    requires i < |s.threads|
  {
    s.(threads := s.threads[i := s.threads[i].(stack := stack)])
  }

  function Push(s: State, i: ThreadId, f: Frame): State
    requires i < |s.threads|
  {
    WithStack(s, i, s.threads[i].stack + [f])
  }

  function Pop(s: State, i: ThreadId): State
    requires i < |s.threads| && s.threads[i].stack != []
  {
    WithStack(s, i, s.threads[i].stack[..|s.threads[i].stack| - 1])
  }

  function Replace(s: State, i: ThreadId, f: Frame): State
    requires i < |s.threads| && s.threads[i].stack != []
  {
    Push(Pop(s, i), i, f)
  }

  /** The thread runs code of its own: it is alive and not inside a load. */
  predicate Free(s: State, i: ThreadId) {
    i < |s.threads| && s.threads[i].alive && (s.threads[i].stack == [] || Top(s, i).value.Call?)
  }

  function SetCount(s: State, r: RegionId, k: nat): State
    requires r in s.regions
  {
    s.(regions := s.regions[r := s.regions[r].(count := k)])
  }

  function SetBlocked(s: State, r: RegionId, b: bool): State
    requires r in s.regions
  {
    s.(regions := s.regions[r := s.regions[r].(blocked := b)])
  }

  // ---- transactions --------------------------------------------------------------------

  /** Take the lock on `r`, then forward through the adapter pair of member `x`. */
  function DoCall(s: State, i: ThreadId, r: RegionId, x: MemberId, m: ModuleId): Outcome
    requires i < |s.threads| && r in s.regions
  {
    if s.regions[r].blocked then Failed
    else Done(Push(SetCount(s, r, s.regions[r].count + 1), i, Call(r, x, m)))
  }

  function DoEnter(s: State, i: ThreadId, r: RegionId, x: MemberId): Outcome
    requires i < |s.threads| && r in s.regions
  {
    if (r, x) !in s.bound then Failed
    else DoCall(s, i, r, x, s.bound[(r, x)])
  }

  /** The module side knows its region through the adapter's pointer, which is null unless
      the module is configured somewhere. */
  function DoEnterOut(t: Topology, s: State, i: ThreadId, m: ModuleId, x: MemberId): Outcome
    requires Typed(t, s) && i < |s.threads| && m in s.mods
  {
    if s.mods[m].configured.None? then Failed
    else DoCall(s, i, s.mods[m].configured.value, x, m)
  }

  function DoReturn(s: State, i: ThreadId): Outcome
    requires Top(s, i).Some?
  {
    var r := Top(s, i).value.rr;
    if r !in s.regions || s.regions[r].count == 0 then Failed
    else Done(Pop(SetCount(s, r, s.regions[r].count - 1), i))
  }

  function DoExit(s: State, i: ThreadId): State
    requires i < |s.threads|
  {
    s.(threads := s.threads[i := Dead(s.threads[i])])
  }

  // ---- reconfiguration -------------------------------------------------------------------

  /** `configure_module` up to its wait for the load time. */
  function DoConfigure(t: Topology, s: State, i: ThreadId, c: ManagerId, found: Option<ModuleId>): Outcome
    requires Layered(t) && Typed(t, s) && c in t.mgrs && i < |s.threads|
    requires found.Some? ==> found.value in t.mods && t.mods[found.value].home == c
  {
    if found.None? then Failed
    else if found == s.mgrs[c].current then Done(s)
    else if s.mgrs[c].rr.None? then Failed
    else
      var r := s.mgrs[c].rr.value;
      if s.regions[r].reconf || s.regions[r].blocked then Failed
      else
        BeginTyped(t, s, r);
        match Unload(t, SetBlocked(SetReconf(s, r, true), r, true), c, i)
        case Failed => Failed
        case Aborted(n) => Aborted(n)
        case Done(n) => if i < |n.threads| then Done(Claim(n, i, c, r, found.value)) else Failed
  }

  /** The manager's pointer moves to the new module and the thread starts waiting. */
  function Claim(s: State, i: ThreadId, c: ManagerId, r: RegionId, m: ModuleId): State
    requires c in s.mgrs && i < |s.threads|
  {
    Push(SetCurrent(s, c, Some(m)), i, Load(c, r, m, LoadWait))
  }

  function DoUnload(t: Topology, s: State, i: ThreadId, c: ManagerId): Outcome
    requires Layered(t) && Typed(t, s) && c in t.mgrs
  {
    if s.mgrs[c].rr.None? then Failed else UnloadModule(t, s, c, s.mgrs[c].rr.value, i)
  }

  /** All assertions of `nc_couple` and of the members' `dynamic_bind` hold. */
  predicate CanCouple(t: Topology, s: State, m: ModuleId, r: RegionId)
    requires m in t.mods && m in s.mods
  {
    s.mods[m].configured.None? && forall x <- t.mods[m].members :: (r, x) !in s.bound
  }

  /** Bind every member, and connect the managers of a split manager. */
  function Couple(t: Topology, s: State, m: ModuleId, r: RegionId, sync: bool): State
    requires m in t.mods && m in s.mods
  {
    s.(mods := s.mods[m := s.mods[m].(configured := Some(r))],
       bound := s.bound + map x <- t.mods[m].members :: (r, x) := m,
       decoupled := if sync then s.decoupled - Keys(r, t.mods[m].members) else s.decoupled,
       mgrs := map c <- s.mgrs :: if c in t.mods[m].subs then s.mgrs[c].(rr := Some(r)) else s.mgrs[c])
  }

  function Spawned(m: ModuleId, n: nat): seq<Thread> {
    seq(n, k => Thread(Some(m), true, []))
  }

  /** Spawn one process per registered argument and remember the handles. */
  function Activate(t: Topology, s: State, m: ModuleId): State
    requires m in t.mods && m in s.mods
  {
    s.(threads := s.threads + Spawned(m, t.mods[m].procs),
       mods := s.mods[m := s.mods[m].(handles := s.mods[m].handles + seq(t.mods[m].procs, k requires 0 <= k => |s.threads| + k))])
  }

  /** The load whose frame is on top of thread `i`'s stack goes on. */
  function DoResume(t: Topology, s: State, i: ThreadId): Outcome
    requires Layered(t) && Typed(t, s) && Top(s, i).Some? && Top(s, i).value.Load?
    requires Top(s, i).value.mgr in t.mgrs && Top(s, i).value.mod in t.mods
  {
    var f := Top(s, i).value;
    if s.mgrs[f.mgr].rr.None? then Failed
    else
      var r := s.mgrs[f.mgr].rr.value;
      match f.phase
      case LoadWait =>
        if s.mgrs[f.mgr].current != Some(f.mod) || !s.regions[r].reconf || !s.regions[r].blocked
           || !CanCouple(t, s, f.mod, r) then Failed
        else Done(Couple(t, Replace(s, i, f.(phase := SyncWait)), f.mod, r, true))
      case SyncWait =>
        if !s.regions[r].blocked then Failed
        else Done(Activate(t, SetBlocked(Replace(s, i, f.(phase := Activating(0))), r, false), f.mod))
      case Activating(k) =>
        if k < |t.mods[f.mod].nested| then
          DoNestedPreload(t, Replace(s, i, f.(phase := Activating(k + 1))), i, t.mods[f.mod].nested[k])
        else if !s.regions[r].reconf then Failed
        else Done(SetReconf(Pop(s, i), r, false))
  }

  /** `do_preload` of a nested region, up to the coupling of the preloaded module. */
  function DoNestedPreload(t: Topology, s: State, i: ThreadId, r: RegionId): Outcome
    requires Layered(t) && Typed(t, s) && i < |s.threads| && r in t.root
  {
    var c := t.root[r];
    if c !in t.preload then Done(s)
    else if s.regions[r].reconf || s.regions[r].blocked then Failed
    else Done(Claim(SetBlocked(SetReconf(s, r, true), r, true), i, c, r, t.preload[c]))
  }

  /** `start_of_simulation` of a top-level region.  Nothing is synchronised, so nothing waits;
      a module whose own nested regions preload would wait, and is excluded. */
  function DoStartPreload(t: Topology, s: State, c: ManagerId): Outcome
    requires Layered(t) && Typed(t, s) && c in t.mgrs
  {
    if c !in t.preload then Done(s)
    else if s.mgrs[c].rr.None? then Failed
    else
      var m, r := t.preload[c], s.mgrs[c].rr.value;
      if s.regions[r].reconf || s.regions[r].blocked || !CanCouple(t, s, m, r) then Failed
      else Done(Activate(t, Couple(t, SetCurrent(s, c, Some(m)), m, r, false), m))
  }

  lemma BeginTyped(t: Topology, s: State, r: RegionId)
    requires Typed(t, s) && r in t.root
    ensures Typed(t, SetBlocked(SetReconf(s, r, true), r, true))
  {
  }

  // ---- runs --------------------------------------------------------------------------------

  /** When an action can happen at all. */
  predicate Enabled(t: Topology, s: State, a: Action) {
    match a
    case Enter(i, r, x) => Free(s, i) && r in t.root
    case EnterOut(i, m, x) => Free(s, i) && m in t.mods && x in t.mods[m].members
    case Return(i) => i < |s.threads| && s.threads[i].alive && Top(s, i).Some? && Top(s, i).value.Call?
    case Exit(i) => Free(s, i) && s.threads[i].stack == []
    case Configure(i, c, found) => Free(s, i) && c in t.mgrs
                                   && (found.Some? ==> found.value in t.mods && t.mods[found.value].home == c)
    case UnloadRequest(i, c) => Free(s, i) && c in t.mgrs
    case Resume(i) => i < |s.threads| && s.threads[i].alive && Top(s, i).Some? && Top(s, i).value.Load?
                      && Top(s, i).value.mgr in t.mgrs && Top(s, i).value.mod in t.mods
    case StartPreload(c) => !s.started && c in t.mgrs && c in t.preload && t.preload[c] in t.mods
                            && forall k | 0 <= k < |t.mods[t.preload[c]].nested| ::
                                 t.mods[t.preload[c]].nested[k] in t.root
                                 && t.root[t.mods[t.preload[c]].nested[k]] !in t.preload
  }

  function Next(t: Topology, s: State, a: Action): Outcome
    requires Layered(t) && Typed(t, s) && Enabled(t, s, a)
  {
    if a.StartPreload? then DoStartPreload(t, s, a.c)
    else
      var s := s.(started := true);
      StartedTyped(t, s);
      match a
      case Enter(i, r, x) => DoEnter(s, i, r, x)
      case EnterOut(i, m, x) => DoEnterOut(t, s, i, m, x)
      case Return(i) => DoReturn(s, i)
      case Exit(i) => Done(DoExit(s, i))
      case Configure(i, c, found) => DoConfigure(t, s, i, c, found)
      case UnloadRequest(i, c) => DoUnload(t, s, i, c)
      case Resume(i) => DoResume(t, s, i)
  }

  lemma StartedTyped(t: Topology, s: State)
    requires Typed(t, s)
    ensures Typed(t, s.(started := true))
  {
  }

  /** A preload whose slot already holds a module: `perform_preload` overwrites the pointer
      without unloading.  Somebody has then configured the nested region out of turn: while the
      module that contains it was not loaded, say, or during its load, before the preload came. */
  predicate Overwrites(t: Topology, s: State, a: Action) {
    match a
    case StartPreload(c) => c in s.mgrs && s.mgrs[c].current.Some?
    case Resume(i) => Overwriting(t, s, i)
    case _ => false
  }

  predicate Overwriting(t: Topology, s: State, i: ThreadId) {
    && Top(s, i).Some? && Top(s, i).value.Load? && Top(s, i).value.phase.Activating?
    && var f := Top(s, i).value;
      && f.mod in t.mods && f.phase.next < |t.mods[f.mod].nested|
      && var r := t.mods[f.mod].nested[f.phase.next];
        && r in t.root && t.root[r] in t.preload && t.root[r] in s.mgrs && s.mgrs[t.root[r]].current.Some?
  }

  /** Before simulation: nothing is loaded and only processes of the static design exist. */
  ghost predicate Init(t: Topology, s: State) {
    && s.regions.Keys == t.root.Keys && s.mgrs.Keys == t.mgrs && s.mods.Keys == t.mods.Keys
    && (forall r <- s.regions :: s.regions[r] == Region(false, false, 0))
    && (forall r <- t.root :: t.root[r] in s.mgrs && s.mgrs[t.root[r]] == Manager(None, Some(r)))
    && (forall c <- s.mgrs :: s.mgrs[c].current.None? && (s.mgrs[c].rr.Some? ==> exists r :: r in t.root && t.root[r] == c))
    && (forall m <- s.mods :: s.mods[m] == Module(None, []))
    && s.bound == map[] && s.decoupled == {} && !s.started
    && (forall i | 0 <= i < |s.threads| :: s.threads[i] == Thread(None, true, []))
  }
}
