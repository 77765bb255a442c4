/** Two runs of a design with a split region: in one its transactions are blocked while a call is in
    flight, in the other a process unloads the module it belongs to. */
module SplitRuns {
  import opened Model
  import opened Teardown
  import opened Invariants
  import opened Protocol
  import opened Safety
  import opened Guarantees
  import opened Slots
  import opened Blocking
  import LostModule

  /** Region 0 is split: module 0 owns the managers 1 and 2, which load module 1, with one member and
      one process, and module 2. */
  function Design(): Topology {
    Topology(
      map[0 := Shape(0, {}, [1, 2], [], 0), 1 := Shape(1, {7}, [], [], 1), 2 := Shape(2, {8}, [], [], 0)],
      {0, 1, 2}, map[0 := 0], map[], map[0 := 1, 1 := 0, 2 := 0], {})
  }

  /** What the design consists of. */
  ghost predicate Consists(t: Topology) {
    && (forall m: ModuleId :: m in t.mods <==> m <= 2) && (forall c: ManagerId :: c in t.mgrs <==> c <= 2)
    && (forall r: RegionId :: r in t.root <==> r == 0) && t.preload == map[] && t.outs == {}
    && t.depth.Keys == t.mgrs
    && t.root[0] == 0 && t.depth[0] == 1 && t.depth[1] == 0 && t.depth[2] == 0
    && t.mods[0] == Shape(0, {}, [1, 2], [], 0) && t.mods[1] == Shape(1, {7}, [], [], 1) && t.mods[2] == Shape(2, {8}, [], [], 0)
  }

  /** A state of the design: `sub` is the region pointer of both sub-managers, `c0` and `c1` where the
      modules 0 and 1 are configured, `hs` the handles of module 1. */
  function World(r: Region, g0: Option<ModuleId>, g1: Option<ModuleId>, g2: Option<ModuleId>, sub: Option<RegionId>,
                 c0: Option<RegionId>, c1: Option<RegionId>, hs: seq<ThreadId>, threads: seq<Thread>, started: bool): State
  {
    State(map[0 := r],
          map[0 := Manager(g0, Some(0)), 1 := Manager(g1, sub), 2 := Manager(g2, sub)],
          map[0 := Module(c0, []), 1 := Module(c1, hs), 2 := Module(None, [])],
          if c1.Some? then map[(0, 7) := 1] else map[], {}, threads, started)
  }

  lemma DesignConsists()
    ensures Consists(Design())
  {
  }

  lemma ConsistsLayered(t: Topology)
    requires Consists(t)
    ensures Layered(t)
  {
    assert forall c <- t.mgrs :: c in t.depth;
    forall m <- t.mods ensures |t.mods[m].nested| == 0 && (|t.mods[m].subs| > 0 ==> m == 0) {}
  }

  lemma ConsistsOwned(t: Topology)
    requires Consists(t)
    ensures forall c <- t.mgrs :: Owned(t, c)
  {
    assert t.mods[0].subs[0] == 1 && t.mods[0].subs[1] == 2;
    assert IsSub(t, 1) && IsSub(t, 2);
    assert 0 in t.root && t.root[0] == 0;
  }

  lemma ConsistsUnique(t: Topology)
    requires Consists(t)
    ensures forall r <- t.root, q <- t.root | t.root[r] == t.root[q] :: r == q
    ensures forall m <- t.mods, r <- t.root :: t.root[r] !in t.mods[m].subs
    ensures forall m <- t.mods, n <- t.mods, i, j
          | 0 <= i < |t.mods[m].subs| && 0 <= j < |t.mods[n].subs|
            && t.mods[m].subs[i] == t.mods[n].subs[j] :: m == n && i == j
    ensures forall m <- t.mods, n <- t.mods, i, j
          | 0 <= i < |t.mods[m].nested| && 0 <= j < |t.mods[n].nested|
            && t.mods[m].nested[i] == t.mods[n].nested[j] :: m == n && i == j
  {
    forall m <- t.mods ensures |t.mods[m].nested| == 0 && (|t.mods[m].subs| > 0 ==> m == 0) {}
  }

  lemma DesignValid()
    ensures Valid(Design())
  {
    DesignConsists();
    var t := Design();
    hide Design, Layered, Owned;
    ConsistsLayered(t);
    ConsistsOwned(t);
    ConsistsUnique(t);
  }

  // ---- the states of the runs -------------------------------------------------------------------

  const IDLE := Region(false, false, 0)

  function Static(stack: seq<Frame>): seq<Thread> {
    [Thread(None, true, stack)]
  }

  /** The static process and the one process of module 1. */
  function Both(stack: seq<Frame>, inner: seq<Frame>): seq<Thread> {
    [Thread(None, true, stack), Thread(Some(1), true, inner)]
  }

  function Empty(): State {
    World(IDLE, None, None, None, None, None, None, [], Static([]), false)
  }

  function Outer(r: Region, sub: Option<RegionId>, phase: Phase): State {
    World(r, Some(0), None, None, sub, sub, None, [], Static([Load(0, 0, 0, phase)]), true)
  }

  function Divided0(): State {
    World(IDLE, Some(0), None, None, Some(0), Some(0), None, [], Static([]), true)
  }

  function Inner(c1: Option<RegionId>, phase: Phase): State {
    World(Region(true, true, 0), Some(0), Some(1), None, Some(0), Some(0), c1, [], Static([Load(1, 0, 1, phase)]), true)
  }

  function Spawning(): State {
    World(Region(true, false, 0), Some(0), Some(1), None, Some(0), Some(0), Some(0), [1],
          Both([Load(1, 0, 1, Activating(0))], []), true)
  }

  /** Module 1 is loaded in the first area, the second area is empty. */
  function Running(): State {
    World(IDLE, Some(0), Some(1), None, Some(0), Some(0), Some(0), [1], Both([], []), true)
  }

  /** The process of module 1 is in a call to the static side. */
  function Calling(): State {
    World(Region(false, false, 1), Some(0), Some(1), None, Some(0), Some(0), Some(0), [1], Both([], [Call(0, 7, 1)]), true)
  }

  /** The second area is being configured meanwhile. */
  function BlockedBusy(): State {
    World(Region(true, true, 1), Some(0), Some(1), Some(2), Some(0), Some(0), Some(0), [1],
          Both([Load(2, 0, 2, LoadWait)], [Call(0, 7, 1)]), true)
  }

  /** What is left when the process of module 1 has unloaded the split manager. */
  function Ruins(): State {
    World(Region(true, false, 0), Some(0), Some(1), None, Some(0), None, None, [1],
          [Thread(None, true, []), Thread(Some(1), false, [])], true)
  }

  lemma WorldKeys(t: Topology, r: Region, g0: Option<ModuleId>, g1: Option<ModuleId>, g2: Option<ModuleId>, sub: Option<RegionId>,
                  c0: Option<RegionId>, c1: Option<RegionId>, hs: seq<ThreadId>, threads: seq<Thread>, started: bool)
    requires Consists(t)
    ensures var s := World(r, g0, g1, g2, sub, c0, c1, hs, threads, started);
      s.regions.Keys == t.root.Keys && s.mgrs.Keys == t.mgrs && s.mods.Keys == t.mods.Keys
  {
  }

  lemma WorldManagers(t: Topology, r: Region, g0: Option<ModuleId>, g1: Option<ModuleId>, g2: Option<ModuleId>, sub: Option<RegionId>,
                      c0: Option<RegionId>, c1: Option<RegionId>, hs: seq<ThreadId>, threads: seq<Thread>, started: bool)
    requires Consists(t) && g0 in {None, Some(0)} && g1 in {None, Some(1)} && g2 in {None, Some(2)} && sub in {None, Some(0)}
    ensures var s := World(r, g0, g1, g2, sub, c0, c1, hs, threads, started);
      && (forall c <- s.mgrs | s.mgrs[c].current.Some? ::
            s.mgrs[c].current.value in t.mods && t.mods[s.mgrs[c].current.value].home == c)
      && (forall c <- s.mgrs | s.mgrs[c].rr.Some? :: s.mgrs[c].rr.value in t.root)
  {
    var s := World(r, g0, g1, g2, sub, c0, c1, hs, threads, started);
    forall c <- s.mgrs
      ensures (s.mgrs[c].current.Some? ==> s.mgrs[c].current == Some(c)) && (s.mgrs[c].rr.Some? ==> s.mgrs[c].rr == Some(0))
      ensures t.mods[c].home == c
    {
    }
  }

  lemma WorldTyped(t: Topology, r: Region, g0: Option<ModuleId>, g1: Option<ModuleId>, g2: Option<ModuleId>, sub: Option<RegionId>,
                   c0: Option<RegionId>, c1: Option<RegionId>, hs: seq<ThreadId>, threads: seq<Thread>, started: bool)
    requires Consists(t) && g0 in {None, Some(0)} && g1 in {None, Some(1)} && g2 in {None, Some(2)}
    requires sub in {None, Some(0)} && c0 in {None, Some(0)} && c1 in {None, Some(0)}
    ensures Typed(t, World(r, g0, g1, g2, sub, c0, c1, hs, threads, started))
  {
    WorldKeys(t, r, g0, g1, g2, sub, c0, c1, hs, threads, started);
    WorldManagers(t, r, g0, g1, g2, sub, c0, c1, hs, threads, started);
    WorldModules(t, r, g0, g1, g2, sub, c0, c1, hs, threads, started);
    hide World, Consists;
  }

  lemma WorldModules(t: Topology, r: Region, g0: Option<ModuleId>, g1: Option<ModuleId>, g2: Option<ModuleId>, sub: Option<RegionId>,
                     c0: Option<RegionId>, c1: Option<RegionId>, hs: seq<ThreadId>, threads: seq<Thread>, started: bool)
    requires Consists(t) && c0 in {None, Some(0)} && c1 in {None, Some(0)}
    ensures var s := World(r, g0, g1, g2, sub, c0, c1, hs, threads, started);
      forall m <- s.mods | s.mods[m].configured.Some? :: s.mods[m].configured.value in t.root
  {
  }

  // ---- loading both modules -------------------------------------------------------------------------

  lemma Begins(t: Topology)
    requires Consists(t)
    ensures Init(t, Empty())
  {
    var s := Empty();
    assert s.regions.Keys == t.root.Keys && s.mgrs.Keys == t.mgrs && s.mods.Keys == t.mods.Keys;
    assert 0 in t.root && t.root[0] == 0;
  }

  lemma Step0(t: Topology)
    requires Consists(t) && Layered(t)
    ensures TidyMoves(t, Empty(), Configure(0, 0, Some(0)), Outer(Region(true, true, 0), None, LoadWait))
  {
    hide Layered, Typed;
    WorldTyped(t, IDLE, None, None, None, None, None, None, [], Static([]), false);
    WorldTyped(t, IDLE, None, None, None, None, None, None, [], Static([]), true);
    LostModule.Claims(t, World(IDLE, None, None, None, None, None, None, [], Static([]), true), 0, 0, 0);
    assert [] + [Load(0, 0, 0, LoadWait)] == [Load(0, 0, 0, LoadWait)];
  }

  lemma Step1(t: Topology)
    requires Consists(t) && Layered(t)
    ensures TidyMoves(t, Outer(Region(true, true, 0), None, LoadWait), Resume(0), Outer(Region(true, true, 0), Some(0), SyncWait))
  {
    hide Layered, Typed;
    var s, e := Outer(Region(true, true, 0), None, LoadWait), Outer(Region(true, true, 0), Some(0), SyncWait);
    WorldTyped(t, Region(true, true, 0), Some(0), None, None, None, None, None, [], Static([Load(0, 0, 0, LoadWait)]), true);
    assert Top(s, 0) == Some(Load(0, 0, 0, LoadWait));
    assert s.(started := true) == s;
    OuterCouples(t);
    hide Couple, Replace;
    assert Next(t, s, Resume(0)) == Done(Couple(t, Replace(s, 0, Load(0, 0, 0, SyncWait)), 0, 0, true));
  }

  lemma OuterCouples(t: Topology)
    requires Consists(t)
    ensures var s := Outer(Region(true, true, 0), None, LoadWait);
      0 in t.mods && 0 in s.mods
      && Couple(t, Replace(s, 0, Load(0, 0, 0, SyncWait)), 0, 0, true) == Outer(Region(true, true, 0), Some(0), SyncWait)
  {
    var s, e := Outer(Region(true, true, 0), None, LoadWait), Outer(Region(true, true, 0), Some(0), SyncWait);
    LostModule.CouplesNothing(t, Replace(s, 0, Load(0, 0, 0, SyncWait)), 0, 0);
    assert t.mods[0].subs[0] == 1 && t.mods[0].subs[1] == 2;
    LostModule.ReplaceOnly(s, Load(0, 0, 0, LoadWait), Load(0, 0, 0, SyncWait));
    var o := Couple(t, Replace(s, 0, Load(0, 0, 0, SyncWait)), 0, 0, true);
    assert o.mods == e.mods && o.mgrs == e.mgrs && o.regions == e.regions && o.threads == e.threads;
  }

  lemma Step2(t: Topology)
    requires Consists(t) && Layered(t)
    ensures TidyMoves(t, Outer(Region(true, true, 0), Some(0), SyncWait), Resume(0), Outer(Region(true, false, 0), Some(0), Activating(0)))
  {
    hide Layered, Typed;
    var s, e := Outer(Region(true, true, 0), Some(0), SyncWait), Outer(Region(true, false, 0), Some(0), Activating(0));
    WorldTyped(t, Region(true, true, 0), Some(0), None, None, Some(0), Some(0), None, [], Static([Load(0, 0, 0, SyncWait)]), true);
    assert Top(s, 0) == Some(Load(0, 0, 0, SyncWait));
    var o := Next(t, s, Resume(0));
    assert s.(started := true) == s;
    LostModule.ReplaceOnly(s, Load(0, 0, 0, SyncWait), Load(0, 0, 0, Activating(0)));
    LostModule.ActivateNone(t, SetBlocked(Replace(s, 0, Load(0, 0, 0, Activating(0))), 0, false), 0);
    assert o == Done(Activate(t, SetBlocked(Replace(s, 0, Load(0, 0, 0, Activating(0))), 0, false), 0));
    assert o.state.mods == e.mods && o.state.mgrs == e.mgrs && o.state.regions == e.regions && o.state.threads == e.threads;
    assert o.state == e;
  }

  lemma Step3(t: Topology)
    requires Consists(t) && Layered(t)
    ensures TidyMoves(t, Outer(Region(true, false, 0), Some(0), Activating(0)), Resume(0), Divided0())
  {
    hide Layered, Typed;
    var s := Outer(Region(true, false, 0), Some(0), Activating(0));
    WorldTyped(t, Region(true, false, 0), Some(0), None, None, Some(0), Some(0), None, [], Static([Load(0, 0, 0, Activating(0))]), true);
    assert Top(s, 0) == Some(Load(0, 0, 0, Activating(0)));
  }

  lemma Step4(t: Topology)
    requires Consists(t) && Layered(t)
    ensures TidyMoves(t, Divided0(), Configure(0, 1, Some(1)), Inner(None, LoadWait))
  {
    hide Layered, Typed;
    WorldTyped(t, IDLE, Some(0), None, None, Some(0), Some(0), None, [], Static([]), true);
    LostModule.Claims(t, Divided0(), 1, 0, 1);
    assert [] + [Load(1, 0, 1, LoadWait)] == [Load(1, 0, 1, LoadWait)];
  }

  lemma Step5(t: Topology)
    requires Consists(t) && Layered(t)
    ensures TidyMoves(t, Inner(None, LoadWait), Resume(0), Inner(Some(0), SyncWait))
  {
    hide Layered, Typed;
    var s, e := Inner(None, LoadWait), Inner(Some(0), SyncWait);
    WorldTyped(t, Region(true, true, 0), Some(0), Some(1), None, Some(0), Some(0), None, [], Static([Load(1, 0, 1, LoadWait)]), true);
    assert Top(s, 0) == Some(Load(1, 0, 1, LoadWait));
    var o := Next(t, s, Resume(0));
    assert s.(started := true) == s;
    LostModule.ReplaceOnly(s, Load(1, 0, 1, LoadWait), Load(1, 0, 1, SyncWait));
    assert o == Done(Couple(t, Replace(s, 0, Load(1, 0, 1, SyncWait)), 1, 0, true));
    BindsOne();
    assert o.state.bound == e.bound && o.state.decoupled == e.decoupled;
    assert o.state.mods == e.mods && o.state.mgrs == e.mgrs && o.state.regions == e.regions && o.state.threads == e.threads;
    assert o.state == e;
  }

  lemma BindsOne()
    ensures (map x <- {7} :: (0, x) := 1) == map[(0, 7) := 1]
  {
  }

  lemma Step6(t: Topology)
    requires Consists(t) && Layered(t)
    ensures TidyMoves(t, Inner(Some(0), SyncWait), Resume(0), Spawning())
  {
    hide Layered, Typed;
    var s, e := Inner(Some(0), SyncWait), Spawning();
    WorldTyped(t, Region(true, true, 0), Some(0), Some(1), None, Some(0), Some(0), Some(0), [], Static([Load(1, 0, 1, SyncWait)]), true);
    assert Top(s, 0) == Some(Load(1, 0, 1, SyncWait));
    var o := Next(t, s, Resume(0));
    assert s.(started := true) == s;
    LostModule.ReplaceOnly(s, Load(1, 0, 1, SyncWait), Load(1, 0, 1, Activating(0)));
    assert o == Done(Activate(t, SetBlocked(Replace(s, 0, Load(1, 0, 1, Activating(0))), 0, false), 1));
    assert Spawned(1, 1) == [Thread(Some(1), true, [])];
    assert o.state.mods[1].handles == [1];
    assert o.state.mods == e.mods && o.state.mgrs == e.mgrs && o.state.regions == e.regions && o.state.threads == e.threads;
    assert o.state == e;
  }

  lemma Step7(t: Topology)
    requires Consists(t) && Layered(t)
    ensures TidyMoves(t, Spawning(), Resume(0), Running())
  {
    hide Layered, Typed;
    var s := Spawning();
    WorldTyped(t, Region(true, false, 0), Some(0), Some(1), None, Some(0), Some(0), Some(0), [1],
               Both([Load(1, 0, 1, Activating(0))], []), true);
    assert Top(s, 0) == Some(Load(1, 0, 1, Activating(0)));
    assert Next(t, s, Resume(0)) == Done(SetReconf(Pop(s, 0), 0, false));
    assert Pop(s, 0).threads == Both([], []);
  }

  // ---- the two endings ------------------------------------------------------------------------------

  lemma Step8(t: Topology)
    requires Consists(t) && Layered(t)
    ensures TidyMoves(t, Running(), EnterOut(1, 1, 7), Calling())
  {
    hide Layered, Typed;
    WorldTyped(t, IDLE, Some(0), Some(1), None, Some(0), Some(0), Some(0), [1], Both([], []), true);
    assert [] + [Call(0, 7, 1)] == [Call(0, 7, 1)];
    assert Next(t, Running(), EnterOut(1, 1, 7)).state.threads == Calling().threads;
  }

  lemma Step9(t: Topology)
    requires Consists(t) && Layered(t)
    ensures TidyMoves(t, Calling(), Configure(0, 2, Some(2)), BlockedBusy())
  {
    hide Layered, Typed;
    var s := Calling();
    WorldTyped(t, Region(false, false, 1), Some(0), Some(1), None, Some(0), Some(0), Some(0), [1], Both([], [Call(0, 7, 1)]), true);
    assert s.(started := true) == s;
    BeginTyped(t, s, 0);
    var b := SetBlocked(SetReconf(s, 0, true), 0, true);
    assert Unload(t, b, 2, 0) == Done(b);
    BusyClaims();
    hide Claim, BlockedBusy;
  }

  lemma BusyClaims()
    ensures var b := SetBlocked(SetReconf(Calling(), 0, true), 0, true);
      2 in b.mgrs && 0 < |b.threads| && Claim(b, 0, 2, 0, 2) == BlockedBusy()
  {
    var b := SetBlocked(SetReconf(Calling(), 0, true), 0, true);
    assert [] + [Load(2, 0, 2, LoadWait)] == [Load(2, 0, 2, LoadWait)];
    assert Claim(b, 0, 2, 0, 2).threads == BlockedBusy().threads;
    assert Claim(b, 0, 2, 0, 2).mgrs == BlockedBusy().mgrs;
  }

  /** The process kills itself in the middle of the innermost deactivation. */
  lemma Suicide(t: Topology, s: State)
    requires s.threads == Both([], []) && 1 in s.mods && s.mods[1].handles == [1]
    ensures KillFrom(s, s.mods[1].handles, 1)
         == Aborted(s.(threads := [Thread(None, true, []), Thread(Some(1), false, [])]))
  {
    assert KillOne(s, 1) == Some(s.(threads := s.threads[1 := Dead(s.threads[1])]));
  }

  function Opening(): State {
    World(Region(true, false, 0), Some(0), Some(1), None, Some(0), None, Some(0), [1], Both([], []), true)
  }

  lemma InnerDies(t: Topology)
    requires Consists(t) && Layered(t)
    ensures Typed(t, Opening()) && Unload(t, Opening(), 1, 1) == Aborted(Ruins())
  {
    hide Layered, Typed;
    var s := Opening();
    WorldTyped(t, Region(true, false, 0), Some(0), Some(1), None, Some(0), None, Some(0), [1], Both([], []), true);
    DecoupleTyped(t, s, 1, 0);
    var n := Decouple(t, s, 1, 0);
    assert n.bound == map[];
    assert n.mods == Ruins().mods;
    Suicide(t, n);
    assert TaskAt(t.mods[1], 0) == Kill;
    assert Step(t, n, 1, Kill, 1) == Aborted(Ruins());
    assert Deactivate(t, n, 1, 0, 1) == Aborted(Ruins());
  }

  lemma OuterDies(t: Topology)
    requires Consists(t) && Layered(t)
    ensures var s := SetReconf(Running(), 0, true); Typed(t, s) && Unload(t, s, 0, 1) == Aborted(Ruins())
  {
    hide Layered, Typed, Deactivate, Decouple, CanDecouple;
    var s := SetReconf(Running(), 0, true);
    OuterDecouples(t);
    hide Running, Opening, Ruins;
    DecoupleTyped(t, s, 0, 0);
    OuterOpened(t);
  }

  lemma OuterDecouples(t: Topology)
    requires Consists(t) && Layered(t)
    ensures var s := SetReconf(Running(), 0, true);
      && Typed(t, s) && 0 in t.mgrs && 0 in s.mgrs && s.mgrs[0] == Manager(Some(0), Some(0)) && s.regions[0].count == 0
      && CanDecouple(t, s, 0, 0) && Decouple(t, s, 0, 0) == Opening()
  {
    hide Layered, Typed;
    var s := SetReconf(Running(), 0, true);
    WorldTyped(t, Region(true, false, 0), Some(0), Some(1), None, Some(0), Some(0), Some(0), [1], Both([], []), true);
    assert s == World(Region(true, false, 0), Some(0), Some(1), None, Some(0), Some(0), Some(0), [1], Both([], []), true);
    var n := Decouple(t, s, 0, 0);
    assert n.bound == s.bound by { assert Keys(0, {}) == {}; }
  }

  lemma OuterOpened(t: Topology)
    requires Consists(t) && Layered(t)
    ensures Typed(t, Opening()) && 0 in t.mods && Deactivate(t, Opening(), 0, 0, 1) == Aborted(Ruins())
  {
    hide Layered, Typed, Opening, Ruins, Unload;
    InnerDies(t);
    assert TaskAt(t.mods[0], 0) == DropSub(1);
    assert Inside(t, 1, 0);
    assert Step(t, Opening(), 0, DropSub(1), 1) == Aborted(Ruins());
  }

  lemma StepX(t: Topology)
    requires Consists(t) && Layered(t)
    ensures TidyMoves(t, Running(), UnloadRequest(1, 0), Ruins())
  {
    hide Layered, Typed, Unload;
    WorldTyped(t, IDLE, Some(0), Some(1), None, Some(0), Some(0), Some(0), [1], Both([], []), true);
    assert Running().(started := true) == Running();
    OuterDies(t);
  }

  // ---- the runs ---------------------------------------------------------------------------------------

  function Prologue(): seq<State> {
    [Empty(), Outer(Region(true, true, 0), None, LoadWait), Outer(Region(true, true, 0), Some(0), SyncWait),
     Outer(Region(true, false, 0), Some(0), Activating(0)), Divided0(), Inner(None, LoadWait), Inner(Some(0), SyncWait),
     Spawning(), Running()]
  }

  function Deeds(): seq<Action> {
    [Configure(0, 0, Some(0)), Resume(0), Resume(0), Resume(0), Configure(0, 1, Some(1)), Resume(0), Resume(0), Resume(0)]
  }

  lemma PrologueRuns(t: Topology)
    requires Consists(t) && Layered(t)
    ensures TidyRun(t, Prologue(), Deeds()) && |Prologue()| == 9 && Prologue()[8] == Running()
  {
    hide Consists, World, TidyMoves, Layered, Init, Empty, Outer, Divided0, Inner, Spawning, Running;
    Begins(t);
    Step0(t);
    Step1(t);
    Step2(t);
    Step3(t);
    Step4(t);
    Step5(t);
    Step6(t);
    Step7(t);
  }

  lemma RunOn(t: Topology, states: seq<State>, actions: seq<Action>, a: Action, n: State)
    requires TidyRun(t, states, actions) && TidyMoves(t, states[|actions|], a, n)
    ensures TidyRun(t, states + [n], actions + [a]) && |states + [n]| == |states| + 1 && (states + [n])[|states|] == n
  {
    hide TidyMoves, Init;
    var st, ac := states + [n], actions + [a];
    forall k | 0 <= k < |ac| ensures TidyMoves(t, st[k], ac[k], st[k + 1]) {
      if k < |actions| {
        assert st[k] == states[k] && st[k + 1] == states[k + 1] && ac[k] == actions[k];
      }
    }
  }

  lemma CallingRuns(t: Topology) returns (states: seq<State>, actions: seq<Action>)
    requires Consists(t) && Layered(t)
    ensures TidyRun(t, states, actions) && |states| == 10 && |actions| == 9 && states[9] == Calling()
  {
    hide Consists, TidyMoves, Layered, TidyRun, Prologue, Deeds, Running, Calling;
    PrologueRuns(t);
    Step8(t);
    RunLength(t, Prologue(), Deeds());
    RunOn(t, Prologue(), Deeds(), EnterOut(1, 1, 7), Calling());
    states, actions := Prologue() + [Calling()], Deeds() + [EnterOut(1, 1, 7)];
  }

  lemma BusyRuns(t: Topology) returns (states: seq<State>, actions: seq<Action>)
    requires Consists(t) && Layered(t)
    ensures TidyRun(t, states, actions) && |states| == 11 && |actions| == 10
    ensures states[9] == Calling() && actions[9] == Configure(0, 2, Some(2)) && states[10] == BlockedBusy()
  {
    hide Consists, TidyMoves, Layered, TidyRun, Calling, BlockedBusy;
    var st, ac := CallingRuns(t);
    Step9(t);
    RunOn(t, st, ac, Configure(0, 2, Some(2)), BlockedBusy());
    states, actions := st + [BlockedBusy()], ac + [Configure(0, 2, Some(2))];
  }

  /** A split region is blocked while a call through another of its areas is in flight. */
  lemma BlocksWhileBusy() returns (states: seq<State>, actions: seq<Action>)
    ensures Valid(Design()) && TidyRun(Design(), states, actions) && |states| == 11
    ensures RequestsBusy(states[9], actions[9], 0) && Busy(states[10], 0)
  {
    hide Valid, Consists, Layered, TidyRun, RequestsBusy, Busy, Calling, BlockedBusy, Design;
    DesignValid();
    DesignConsists();
    ConsistsLayered(Design());
    states, actions := BusyRuns(Design());
    BusyHere();
  }

  lemma BusyHere()
    ensures RequestsBusy(Calling(), Configure(0, 2, Some(2)), 0) && Busy(BlockedBusy(), 0)
  {
  }

  lemma RunLength(t: Topology, states: seq<State>, actions: seq<Action>)
    requires TidyRun(t, states, actions)
    ensures |states| == |actions| + 1
  {
  }

  /** A process unloads the split manager its own module is loaded through: it dies half-way, and two
      managers of the region are left with modules that are neither loaded nor being loaded. */
  lemma UnloadsItself() returns (states: seq<State>, actions: seq<Action>)
    ensures Valid(Design()) && TidyRun(Design(), states, actions) && |states| == 10
    ensures Orphan(states[9], 0) && Pending(Design(), states[9], 0, 0) && Pending(Design(), states[9], 1, 0)
    ensures SlotOf(Design(), states[9], 0) == Broken(0) && SlotOf(Design(), states[9], 1) == Broken(1)
  {
    var t := Design();
    DesignValid();
    DesignConsists();
    ConsistsLayered(t);
    hide Design, Valid, Consists, TidyMoves, Layered, TidyRun, Prologue, Deeds, Ruins, Running, Orphan, Pending, SlotOf;
    PrologueRuns(t);
    StepX(t);
    RunLength(t, Prologue(), Deeds());
    RunOn(t, Prologue(), Deeds(), UnloadRequest(1, 0), Ruins());
    states, actions := Prologue() + [Ruins()], Deeds() + [UnloadRequest(1, 0)];
    RuinsOrphaned();
    RuinsBroken(t);
  }

  lemma RuinsBroken(t: Topology)
    ensures Pending(t, Ruins(), 0, 0) && Pending(t, Ruins(), 1, 0)
    ensures SlotOf(t, Ruins(), 0) == Broken(0) && SlotOf(t, Ruins(), 1) == Broken(1)
  {
    var s := Ruins();
    assert s.threads[0].stack == [] && s.threads[1].stack == [];
    InitTally(s.threads, LoadBy(0));
    InitTally(s.threads, LoadBy(1));
  }

  lemma RuinsOrphaned()
    ensures Orphan(Ruins(), 0)
  {
    var s := Ruins();
    assert s.threads[0].stack == [] && s.threads[1].stack == [];
    InitTally(s.threads, LoadOn(0));
  }
}
