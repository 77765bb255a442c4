/** A preload that overwrites a module: the one step of the protocol that breaks its invariant. */
module LostModule {
  import opened Model
  import opened Teardown
  import opened Invariants
  import opened Effects
  import opened UnloadSafety
  import opened Protocol
  import opened LoadEffects
  import opened Steps
  import opened Safety
  import opened Completion
  import opened Slots
  import opened Refinement

  /** On an idle region a manager's module is still configured and all its processes run. */
  lemma StillConfigured(t: Topology, s: State, c: ManagerId, r: RegionId)
    requires Inv(t, s) && c in s.mgrs && s.mgrs[c].rr == Some(r) && r in s.regions && !s.regions[r].reconf
    requires s.mgrs[c].current.Some?
    ensures var m := s.mgrs[c].current.value; Settled(t, s, m, r) && m in t.mods && t.mods[m].home == c
  {
    hide Typed, ThreadsOk, HandlesOk, Counted, Exclusive, FlagsOk, CallsBound, Matching, LoadsOk, Homes, Roots,
         Connected, DecoupledOk, Stationed, Leftovers, WaitsOk, BlockedOk, SettledPart, SplitPart, PathOk;
    IdleLoaded(t, s, c, r);
    HomeOf(t, s, c);
  }

  /** Starting to load over a configured module leaves that module configured with no manager
      holding it, or a load that waits for a module that is already coupled. */
  lemma OverwriteLoses(t: Topology, s: State, n: State, i: ThreadId, c: ManagerId, r: RegionId, m: ModuleId)
    requires i < |s.threads| && c in s.mgrs && s.mgrs[c].current.Some? && s.mgrs[c].rr == Some(r)
    requires Settled(t, s, s.mgrs[c].current.value, r) && t.mods[s.mgrs[c].current.value].home == c
    requires n == Claim(s, i, c, r, m)
    ensures !Homes(t, n) || !WaitsOk(n)
  {
    var kept := s.mgrs[c].current.value;
    assert n.mods[kept].configured.Some?;
    if kept == m {
      var stack := n.threads[i].stack;
      assert stack[|stack| - 1] == Load(c, r, m, LoadWait);
      assert WaitsOk(n) ==> WaitOk(n, n.threads[i].stack[|stack| - 1]);
    }
  }

  lemma StartLoses(t: Topology, s: State, c: ManagerId)
    requires Layered(t) && Typed(t, s) && Enabled(t, s, StartPreload(c)) && Overwrites(t, s, StartPreload(c))
    requires Inv(t, s) && DoStartPreload(t, s, c).Done?
    ensures !Homes(t, DoStartPreload(t, s, c).state)
  {
    hide During, Layered;
    KeysOf(t, s);
    StillConfigured(t, s, c, s.mgrs[c].rr.value);
    var n := DoStartPreload(t, s, c).state;
    assert n.mods[s.mgrs[c].current.value].configured.Some?;
  }

  lemma PreloadLoses(t: Topology, s: State, i: ThreadId)
    requires Layered(t) && Typed(t, s) && Enabled(t, s, Resume(i)) && Overwrites(t, s, Resume(i))
    requires Inv(t, s) && DoResume(t, s, i).Done?
    ensures var n := DoResume(t, s, i).state; !Homes(t, n) || !WaitsOk(n)
  {
    hide During, Layered, Typed, Homes, WaitsOk, Settled;
    KeysOf(t, s);
    var f := Top(s, i).value;
    NestedOf(t, f.mod, f.phase.next);
    RootIn(t, s, t.mods[f.mod].nested[f.phase.next]);
    var w := t.mods[f.mod].nested[f.phase.next];
    StillConfigured(t, s, t.root[w], w);
    var b := SetBlocked(SetReconf(Replace(s, i, f.(phase := Activating(f.phase.next + 1))), w, true), w, true);
    StillThere(t, s, b, t.root[w], w);
    OverwriteLoses(t, b, DoResume(t, s, i).state, i, t.root[w], w, t.preload[t.root[w]]);
  }

  lemma StillThere(t: Topology, s: State, b: State, c: ManagerId, r: RegionId)
    requires c in s.mgrs && s.mgrs[c].current.Some? && Settled(t, s, s.mgrs[c].current.value, r)
    requires b.mgrs == s.mgrs && b.mods == s.mods
    ensures Settled(t, b, b.mgrs[c].current.value, r)
  {
  }

  lemma RootIn(t: Topology, s: State, w: RegionId)
    requires Inv(t, s) && w in t.root
    ensures t.root[w] in s.mgrs && s.mgrs[t.root[w]].rr == Some(w)
  {
  }

  lemma OverwriteBreaks(t: Topology, s: State, a: Action)
    requires Layered(t) && Typed(t, s) && Enabled(t, s, a) && Overwrites(t, s, a)
    requires Inv(t, s)
    ensures var o := Next(t, s, a); !o.Failed? ==> !Inv(t, o.state)
  {
    hide During, Layered, Typed, DoResume, DoStartPreload, Homes, WaitsOk, DoEnter, DoEnterOut, DoReturn, DoExit, DoConfigure, DoUnload;
    var o := Next(t, s, a);
    NotAborted(t, s, a);
    if o.Done? {
      NeedsBoth(t, o.state);
      if a.StartPreload? {
        StartLoses(t, s, a.c);
      } else {
        StartedTyped(t, s);
        StartedKeeps(t, s);
        PreloadLoses(t, s.(started := true), a.i);
      }
    }
  }

  /** The condition is exact: a step that does not fail keeps the invariant if and only if it
      does not preload over a module that is already there. */
  lemma KeepsUnlessOverwrites(t: Topology, s: State, a: Action)
    requires Valid(t) && Inv(t, s) && Enabled(t, s, a)
    ensures Layered(t) && Typed(t, s)
    ensures var o := Next(t, s, a); !o.Failed? ==> (Inv(t, o.state) <==> !Overwrites(t, s, a))
  {
    hide During, Valid, Layered, Typed, Next, Overwrites, Enabled;
    LayeredOf(t);
    TypedOf(t, s);
    if Overwrites(t, s, a) {
      OverwriteBreaks(t, s, a);
    } else {
      StepInv(t, s, a);
    }
  }

  lemma NotAborted(t: Topology, s: State, a: Action)
    requires Layered(t) && Typed(t, s) && Enabled(t, s, a) && (a.StartPreload? || a.Resume?)
    ensures !Next(t, s, a).Aborted?
  {
    hide Layered, Typed, CanCouple, Couple, Activate, Claim;
    StartedTyped(t, s);
  }

  lemma NeedsBoth(t: Topology, s: State)
    ensures Inv(t, s) ==> Homes(t, s) && WaitsOk(s)
  {
  }

  /** Over whole runs: the invariant holds up to a state exactly when no step before it has preloaded
      over a module, and the first such step breaks it. */
  lemma {:induction false} RunInvIff(t: Topology, states: seq<State>, actions: seq<Action>, k: nat)
    requires Valid(t) && Run(t, states, actions) && k < |states|
    ensures (forall j | 0 <= j <= k :: Inv(t, states[j])) <==> (forall j | 0 <= j < k :: !Overwrites(t, states[j], actions[j]))
    ensures k > 0 && (forall j | 0 <= j < k :: Inv(t, states[j])) && Overwrites(t, states[k - 1], actions[k - 1]) ==> !Inv(t, states[k])
  {
    hide During, Valid, Next, Typed, Layered, Enabled, Overwrites, Init;
    if k == 0 {
      InitInv(t, states[0]);
    } else {
      RunInvIff(t, states, actions, k - 1);
      assert Moves(t, states[k - 1], actions[k - 1], states[k]);
      if Inv(t, states[k - 1]) {
        KeepsUnlessOverwrites(t, states[k - 1], actions[k - 1]);
      }
    }
  }

  // ---- an example -----------------------------------------------------------------------------

  /** Module 0 of the static region 0 contains region 1, whose manager has a split manager
      (module 1, with sub-manager 2) and an ordinary module 2 registered for preload. */
  function Design(): Topology {
    Topology(
      map[0 := Shape(0, {}, [], [1], 0), 1 := Shape(1, {}, [2], [], 0), 2 := Shape(1, {7}, [], [], 0)],
      {0, 1, 2}, map[0 := 0, 1 := 1], map[1 := 2], map[0 := 2, 1 := 1, 2 := 0], {})
  }

  /** A state of the design with one process of the static part, `stack` being its stack. */
  function World(r0: Region, r1: Region, g0: Option<ModuleId>, g1: Option<ModuleId>, g2: Option<RegionId>,
                 c0: Option<RegionId>, c1: Option<RegionId>, stack: seq<Frame>, started: bool): State
  {
    State(map[0 := r0, 1 := r1],
          map[0 := Manager(g0, Some(0)), 1 := Manager(g1, Some(1)), 2 := Manager(None, g2)],
          map[0 := Module(c0, []), 1 := Module(c1, []), 2 := Module(None, [])],
          map[], {}, [Thread(None, true, stack)], started)
  }

  const IDLE := Region(false, false, 0)

  /** Somebody configured the split manager on region 1 before module 0 was loaded; module 0 is
      now active and about to preload its nested region. */
  function Before(): State {
    World(Region(true, false, 0), IDLE, Some(0), Some(1), Some(1), Some(0), Some(1), [Load(0, 0, 0, Activating(0))], true)
  }

  /** What the design consists of. */
  ghost predicate Consists(t: Topology) {
    && (forall m: ModuleId :: m in t.mods <==> m <= 2) && (forall c: ManagerId :: c in t.mgrs <==> c <= 2)
    && (forall r: RegionId :: r in t.root <==> r <= 1) && (forall c: ManagerId :: c in t.preload <==> c == 1)
    && t.depth.Keys == t.mgrs
    && t.root[0] == 0 && t.root[1] == 1 && t.preload[1] == 2
    && t.depth[0] == 2 && t.depth[1] == 1 && t.depth[2] == 0
    && t.mods[0] == Shape(0, {}, [], [1], 0) && t.mods[1] == Shape(1, {}, [2], [], 0) && t.mods[2] == Shape(1, {7}, [], [], 0)
  }

  lemma DesignConsists()
    ensures Consists(Design())
  {
  }

  lemma ConsistsLayered(t: Topology)
    requires Consists(t)
    ensures Layered(t)
  {
    assert forall c <- t.mgrs :: c in t.depth;
  }

  lemma ConsistsOwned(t: Topology)
    requires Consists(t)
    ensures forall c <- t.mgrs :: Owned(t, c)
  {
    assert t.mods[1].subs[0] == 2;
    assert IsSub(t, 2);
    forall c <- t.mgrs ensures Owned(t, c) {
      if c < 2 { assert c in t.root && t.root[c] == c; }
    }
  }

  /** The design satisfies what the theorems about runs and about loads ask of one. */
  lemma DesignValid()
    ensures Valid(Design()) && Complementary(Design())
  {
    DesignConsists();
    var t := Design();
    hide Design, Layered, Owned;
    ConsistsLayered(t);
    ConsistsOwned(t);
    ConsistsUnique(t);
    ConsistsComplementary(t);
    hide Valid, Complementary;
  }

  lemma ConsistsComplementary(t: Topology)
    requires Consists(t)
    ensures Complementary(t)
  {
    forall m <- t.mods ensures |t.mods[m].subs| > 0 ==> m == 1 {}
    assert 1 in t.root && t.root[1] == t.mods[1].home;
  }

  lemma ConsistsUnique(t: Topology)
    requires Consists(t)
    ensures forall r <- t.root, q <- t.root | t.root[r] == t.root[q] :: r == q
    ensures forall m <- t.mods, r <- t.root :: t.root[r] !in t.mods[m].subs
    ensures forall m <- t.mods, n <- t.mods, i, j
          | 0 <= i < |t.mods[m].subs| && 0 <= j < |t.mods[n].subs|
            && t.mods[m].subs[i] == t.mods[n].subs[j] :: m == n && i == j
    ensures forall m <- t.mods, n <- t.mods, i, j
          | 0 <= i < |t.mods[m].nested| && 0 <= j < |t.mods[n].nested|
            && t.mods[m].nested[i] == t.mods[n].nested[j] :: m == n && i == j
  {
    forall m <- t.mods ensures |t.mods[m].subs| > 0 ==> m == 1 {}
    forall m <- t.mods ensures |t.mods[m].nested| > 0 ==> m == 0 {}
    forall r <- t.root ensures t.root[r] == r {}
  }

  ghost predicate Holding(s: State) {
    && (forall r: RegionId :: r in s.regions <==> r <= 1) && (forall c: ManagerId :: c in s.mgrs <==> c <= 2)
    && (forall m: ModuleId :: m in s.mods <==> m <= 2)
    && s.regions[0] == Region(true, false, 0) && s.regions[1] == Region(false, false, 0)
    && s.mgrs[0] == Manager(Some(0), Some(0)) && s.mgrs[1] == Manager(Some(1), Some(1)) && s.mgrs[2] == Manager(None, Some(1))
    && s.mods[0] == Module(Some(0), []) && s.mods[1] == Module(Some(1), []) && s.mods[2] == Module(None, [])
    && s.bound == map[] && s.decoupled == {}
    && s.threads == [Thread(None, true, [Load(0, 0, 0, Activating(0))])] && s.started
  }

  lemma BeforeHolds()
    ensures Holding(Before())
  {
  }

  lemma HoldingTally(s: State, q: Query)
    requires Holding(s)
    ensures Tally(s.threads, q) == Hit(Load(0, 0, 0, Activating(0)), q)
  {
    var st := s.threads[0].stack;
    assert st[..0] == [] && s.threads[..0] == [];
    assert InStack(st, q) == InStack(st[..0], q) + Hit(st[0], q);
    assert Tally(s.threads, q) == Tally(s.threads[..0], q) + InStack(st, q);
  }

  lemma HoldingKeys(t: Topology, s: State)
    requires Consists(t) && Holding(s)
    ensures s.regions.Keys == t.root.Keys && s.mgrs.Keys == t.mgrs && s.mods.Keys == t.mods.Keys
  {
  }

  lemma HoldingPlain(t: Topology, s: State)
    requires Consists(t) && Holding(s)
    ensures Typed(t, s) && ThreadsOk(s) && HandlesOk(s)
  {
    HoldingKeys(t, s);
    forall c <- s.mgrs | s.mgrs[c].current.Some? ensures s.mgrs[c] == Manager(Some(c), Some(c)) {}
    forall m <- s.mods ensures s.mods[m].handles == [] && (s.mods[m].configured.Some? ==> s.mods[m].configured.value <= 1) {}
  }

  lemma HoldingCounts(t: Topology, s: State)
    requires Consists(t) && Holding(s)
    ensures Counted(s) && Exclusive(s) && FlagsOk(s) && BlockedOk(t, s) && DecoupledOk(s) && PathOk(s, {}, {}) && WaitsOk(s)
  {
    forall q ensures Tally(s.threads, q) == Hit(Load(0, 0, 0, Activating(0)), q) { HoldingTally(s, q); }
  }

  lemma HoldingPointers(t: Topology, s: State)
    requires Consists(t) && Holding(s)
    ensures Homes(t, s) && Roots(t, s) && Stationed(t, s) && Leftovers(t, s, {}, {})
  {
    hide Homes, Roots, Stationed;
    HoldingHomes(t, s);
    HoldingRoots(t, s);
    HoldingStationed(t, s);
  }

  lemma HoldingStationed(t: Topology, s: State)
    requires Consists(t) && Holding(s)
    ensures Stationed(t, s)
  {
    assert t.mods[1].subs[0] == 2;
    assert IsSubIn(t, 2, 1) && Belongs(t, 1, 1);
    assert Belongs(t, 0, 0) && Belongs(t, 2, 1);
    forall c <- s.mgrs | s.mgrs[c].rr.Some? ensures Belongs(t, c, s.mgrs[c].rr.value) {
      assert c == 0 || c == 1 || c == 2;
    }
    forall m <- s.mods | s.mods[m].configured.Some? ensures m in t.mods && Belongs(t, t.mods[m].home, s.mods[m].configured.value) {
      assert m == 0 || m == 1;
    }
  }

  lemma HoldingHomes(t: Topology, s: State)
    requires Consists(t) && Holding(s)
    ensures Homes(t, s)
  {
    forall m <- s.mods ensures s.mods[m].handles == [] {}
    forall m <- s.mods | s.mods[m].configured.Some? ensures t.mods[m].home == m && s.mgrs[m] == Manager(Some(m), s.mods[m].configured) {}
  }

  lemma HoldingRoots(t: Topology, s: State)
    requires Consists(t) && Holding(s)
    ensures Roots(t, s)
  {
    forall r <- t.root ensures t.root[r] == r && s.mgrs[r].rr == Some(r) {}
  }

  lemma HoldingFrames(t: Topology, s: State)
    requires Consists(t) && Holding(s)
    ensures Matching(t, s) && CallsBound(s) && LoadsOk(t, s)
  {
    forall m <- s.mods | s.mods[m].configured.Some? ensures t.mods[m].members == {} {}
    assert LoadOk(t, s, Load(0, 0, 0, Activating(0)));
  }

  lemma HoldingConnected(t: Topology, s: State)
    requires Consists(t) && Holding(s)
    ensures Connected(t, s) && SplitPart(t, s, {}, {})
  {
    forall m <- t.mods ensures |t.mods[m].subs| > 0 ==> m == 1 {}
  }

  lemma HoldingSettled(t: Topology, s: State)
    requires Consists(t) && Holding(s)
    ensures SettledPart(t, s, {}, {})
  {
    forall c <- s.mgrs | s.mgrs[c].current.Some? ensures s.mgrs[c] == Manager(Some(c), Some(c)) && Settled(t, s, c, c) {}
  }

  /** A state from which the thread's next step loses module 1: afterwards the
      manager of region 1 holds module 2 while module 1 is still configured on the region. */
  lemma Loses()
    ensures Valid(Design()) && Layered(Design()) && Inv(Design(), Before()) && Typed(Design(), Before())
    ensures Enabled(Design(), Before(), Resume(0)) && Overwrites(Design(), Before(), Resume(0))
    ensures var o := Next(Design(), Before(), Resume(0));
      && o.Done? && 1 in o.state.mgrs && 1 in o.state.mods
      && o.state.mgrs[1].current == Some(2) && o.state.mods[1].configured == Some(1)
  {
    DesignValid();
    DesignConsists();
    BeforeHolds();
    var t, s := Design(), Before();
    hide Design, Before, Valid, Consists, Holding, Layered, Typed, ThreadsOk, HandlesOk, Counted, Exclusive, FlagsOk, CallsBound,
         Matching, LoadsOk, Homes, Roots, Connected, DecoupledOk, Stationed, Leftovers, WaitsOk, BlockedOk, SettledPart, SplitPart, PathOk;
    LayeredOf(t);
    HoldingPlain(t, s);
    HoldingCounts(t, s);
    HoldingPointers(t, s);
    HoldingFrames(t, s);
    HoldingConnected(t, s);
    HoldingSettled(t, s);
    NextLoses(t, s);
  }

  lemma NextLoses(t: Topology, s: State)
    requires Consists(t) && Holding(s) && Layered(t) && Typed(t, s)
    ensures Enabled(t, s, Resume(0)) && Overwrites(t, s, Resume(0))
    ensures var o := Next(t, s, Resume(0));
      && o.Done? && 1 in o.state.mgrs && 1 in o.state.mods
      && o.state.mgrs[1].current == Some(2) && o.state.mods[1].configured == Some(1)
  {
    hide Layered, Typed;
    KeysOf(t, s);
    assert Top(s, 0) == Some(Load(0, 0, 0, Activating(0)));
    assert t.mods[0].nested[0] == 1;
  }

  // ---- how a run gets there -----------------------------------------------------------------------

  lemma WorldKeys(t: Topology, r0: Region, r1: Region, g0: Option<ModuleId>, g1: Option<ModuleId>, g2: Option<RegionId>,
                  c0: Option<RegionId>, c1: Option<RegionId>, stack: seq<Frame>, started: bool)
    requires Consists(t)
    ensures var s := World(r0, r1, g0, g1, g2, c0, c1, stack, started);
      s.regions.Keys == t.root.Keys && s.mgrs.Keys == t.mgrs && s.mods.Keys == t.mods.Keys
  {
  }

  lemma WorldManagers(t: Topology, r0: Region, r1: Region, g0: Option<ModuleId>, g1: Option<ModuleId>, g2: Option<RegionId>,
                      c0: Option<RegionId>, c1: Option<RegionId>, stack: seq<Frame>, started: bool)
    requires Consists(t) && g0 in {None, Some(0)} && g1 in {None, Some(1)} && g2 in {None, Some(1)}
    ensures var s := World(r0, r1, g0, g1, g2, c0, c1, stack, started);
      && (forall c <- s.mgrs | s.mgrs[c].current.Some? ::
            s.mgrs[c].current.value in t.mods && t.mods[s.mgrs[c].current.value].home == c)
      && (forall c <- s.mgrs | s.mgrs[c].rr.Some? :: s.mgrs[c].rr.value in t.root)
  {
    var s := World(r0, r1, g0, g1, g2, c0, c1, stack, started);
    forall c <- s.mgrs | s.mgrs[c].current.Some? ensures s.mgrs[c].current == Some(c) && c < 2 && t.mods[c].home == c {}
  }

  lemma WorldModules(t: Topology, r0: Region, r1: Region, g0: Option<ModuleId>, g1: Option<ModuleId>, g2: Option<RegionId>,
                     c0: Option<RegionId>, c1: Option<RegionId>, stack: seq<Frame>, started: bool)
    requires Consists(t) && c0 in {None, Some(0)} && c1 in {None, Some(1)}
    ensures var s := World(r0, r1, g0, g1, g2, c0, c1, stack, started);
      forall m <- s.mods | s.mods[m].configured.Some? :: s.mods[m].configured.value in t.root
  {
  }

  lemma WorldTyped(t: Topology, r0: Region, r1: Region, g0: Option<ModuleId>, g1: Option<ModuleId>, g2: Option<RegionId>,
                   c0: Option<RegionId>, c1: Option<RegionId>, stack: seq<Frame>, started: bool)
    requires Consists(t) && g0 in {None, Some(0)} && g1 in {None, Some(1)} && g2 in {None, Some(1)}
    requires c0 in {None, Some(0)} && c1 in {None, Some(1)}
    ensures Typed(t, World(r0, r1, g0, g1, g2, c0, c1, stack, started))
  {
    WorldKeys(t, r0, r1, g0, g1, g2, c0, c1, stack, started);
    WorldManagers(t, r0, r1, g0, g1, g2, c0, c1, stack, started);
    WorldModules(t, r0, r1, g0, g1, g2, c0, c1, stack, started);
    hide World, Consists;
  }

  function Marked(): Region {
    Region(true, true, 0)
  }

  function Open(): Region {
    Region(true, false, 0)
  }

  lemma Begin1(t: Topology)
    requires Consists(t) && Layered(t)
    ensures TidyMoves(t, World(IDLE, IDLE, None, None, None, None, None, [], false), Configure(0, 1, Some(1)),
                  World(IDLE, Marked(), None, Some(1), None, None, None, [Load(1, 1, 1, LoadWait)], true))
  {
    hide Layered, Typed, Unload;
    WorldTyped(t, IDLE, IDLE, None, None, None, None, None, [], false);
    WorldTyped(t, IDLE, IDLE, None, None, None, None, None, [], true);
    Claims(t, World(IDLE, IDLE, None, None, None, None, None, [], true), 1, 1, 1);
    assert [] + [Load(1, 1, 1, LoadWait)] == [Load(1, 1, 1, LoadWait)];
  }

  /** A configure on an empty manager of an idle region. */
  lemma Claims(t: Topology, s: State, c: ManagerId, r: RegionId, m: ModuleId)
    requires Layered(t) && Typed(t, s) && c in t.mgrs && 0 < |s.threads| && m in t.mods && t.mods[m].home == c
    requires c in s.mgrs && s.mgrs[c] == Manager(None, Some(r)) && r in s.regions && s.regions[r] == IDLE
    ensures DoConfigure(t, s, 0, c, Some(m)) == Done(Claim(SetBlocked(SetReconf(s, r, true), r, true), 0, c, r, m))
  {
    BeginTyped(t, s, r);
  }

  lemma Begin0(t: Topology)
    requires Consists(t) && Layered(t)
    ensures TidyMoves(t, World(IDLE, IDLE, None, Some(1), Some(1), None, Some(1), [], true), Configure(0, 0, Some(0)),
                  World(Marked(), IDLE, Some(0), Some(1), Some(1), None, Some(1), [Load(0, 0, 0, LoadWait)], true))
  {
    hide Layered, Typed;
    WorldTyped(t, IDLE, IDLE, None, Some(1), Some(1), None, Some(1), [], true);
    Claims(t, World(IDLE, IDLE, None, Some(1), Some(1), None, Some(1), [], true), 0, 0, 0);
    assert [] + [Load(0, 0, 0, LoadWait)] == [Load(0, 0, 0, LoadWait)];
  }

  lemma Couple1(t: Topology)
    requires Consists(t) && Layered(t)
    ensures TidyMoves(t, World(IDLE, Marked(), None, Some(1), None, None, None, [Load(1, 1, 1, LoadWait)], true), Resume(0),
                  World(IDLE, Marked(), None, Some(1), Some(1), None, Some(1), [Load(1, 1, 1, SyncWait)], true))
  {
    hide Layered, Typed;
    var s := World(IDLE, Marked(), None, Some(1), None, None, None, [Load(1, 1, 1, LoadWait)], true);
    WorldTyped(t, IDLE, Marked(), None, Some(1), None, None, None, [Load(1, 1, 1, LoadWait)], true);
    assert Top(s, 0) == Some(Load(1, 1, 1, LoadWait));
    CouplesNothing(t, Replace(s, 0, Load(1, 1, 1, SyncWait)), 1, 1);
    assert t.mods[1].subs[0] == 2;
    var o, e := Next(t, s, Resume(0)), World(IDLE, Marked(), None, Some(1), Some(1), None, Some(1), [Load(1, 1, 1, SyncWait)], true);
    assert s.(started := true) == s;
    ReplaceOnly(s, Load(1, 1, 1, LoadWait), Load(1, 1, 1, SyncWait));
    assert o == Done(Couple(t, Replace(s, 0, Load(1, 1, 1, SyncWait)), 1, 1, true));
    assert o.state.mods == e.mods && o.state.mgrs == e.mgrs && o.state.regions == e.regions && o.state.threads == e.threads;
    assert o.state == e;
  }

  /** Coupling a module without members only sets its region and connects its sub-managers. */
  lemma CouplesNothing(t: Topology, s: State, m: ModuleId, r: RegionId)
    requires m in t.mods && m in s.mods && t.mods[m].members == {}
    ensures var n := Couple(t, s, m, r, true);
      && n.bound == s.bound && n.decoupled == s.decoupled && n.mods == s.mods[m := s.mods[m].(configured := Some(r))]
      && n.mgrs == map c <- s.mgrs :: if c in t.mods[m].subs then s.mgrs[c].(rr := Some(r)) else s.mgrs[c]
  {
    assert Keys(r, {}) == {};
  }

  lemma ReplaceOnly(s: State, f: Frame, g: Frame)
    requires s.threads == [Thread(None, true, [f])]
    ensures Replace(s, 0, g).threads == [Thread(None, true, [g])]
  {
    assert [f][..0] + [g] == [g];
  }

  /** Activating a module without processes changes nothing. */
  lemma ActivateNone(t: Topology, s: State, m: ModuleId)
    requires m in t.mods && m in s.mods && t.mods[m].procs == 0
    ensures Activate(t, s, m) == s
  {
    assert s.threads + Spawned(m, 0) == s.threads;
    var none := seq(0, k requires 0 <= k => |s.threads| + k);
    assert s.mods[m].handles + none == s.mods[m].handles;
    assert s.mods[m := s.mods[m].(handles := s.mods[m].handles)] == s.mods;
  }

  lemma Couple0(t: Topology)
    requires Consists(t) && Layered(t)
    ensures TidyMoves(t, World(Marked(), IDLE, Some(0), Some(1), Some(1), None, Some(1), [Load(0, 0, 0, LoadWait)], true), Resume(0),
                  World(Marked(), IDLE, Some(0), Some(1), Some(1), Some(0), Some(1), [Load(0, 0, 0, SyncWait)], true))
  {
    hide Layered, Typed;
    var s := World(Marked(), IDLE, Some(0), Some(1), Some(1), None, Some(1), [Load(0, 0, 0, LoadWait)], true);
    WorldTyped(t, Marked(), IDLE, Some(0), Some(1), Some(1), None, Some(1), [Load(0, 0, 0, LoadWait)], true);
    assert Top(s, 0) == Some(Load(0, 0, 0, LoadWait));
    CouplesNothing(t, Replace(s, 0, Load(0, 0, 0, SyncWait)), 0, 0);
    var o, e := Next(t, s, Resume(0)), World(Marked(), IDLE, Some(0), Some(1), Some(1), Some(0), Some(1), [Load(0, 0, 0, SyncWait)], true);
    assert s.(started := true) == s;
    ReplaceOnly(s, Load(0, 0, 0, LoadWait), Load(0, 0, 0, SyncWait));
    assert o == Done(Couple(t, Replace(s, 0, Load(0, 0, 0, SyncWait)), 0, 0, true));
    assert o.state.mods == e.mods && o.state.mgrs == e.mgrs && o.state.regions == e.regions && o.state.threads == e.threads;
    assert o.state == e;
  }

  lemma Activate1(t: Topology)
    requires Consists(t) && Layered(t)
    ensures TidyMoves(t, World(IDLE, Marked(), None, Some(1), Some(1), None, Some(1), [Load(1, 1, 1, SyncWait)], true), Resume(0),
                  World(IDLE, Open(), None, Some(1), Some(1), None, Some(1), [Load(1, 1, 1, Activating(0))], true))
  {
    hide Layered, Typed;
    var s := World(IDLE, Marked(), None, Some(1), Some(1), None, Some(1), [Load(1, 1, 1, SyncWait)], true);
    WorldTyped(t, IDLE, Marked(), None, Some(1), Some(1), None, Some(1), [Load(1, 1, 1, SyncWait)], true);
    assert Top(s, 0) == Some(Load(1, 1, 1, SyncWait));
    var o, e := Next(t, s, Resume(0)), World(IDLE, Open(), None, Some(1), Some(1), None, Some(1), [Load(1, 1, 1, Activating(0))], true);
    assert s.(started := true) == s;
    ReplaceOnly(s, Load(1, 1, 1, SyncWait), Load(1, 1, 1, Activating(0)));
    ActivateNone(t, SetBlocked(Replace(s, 0, Load(1, 1, 1, Activating(0))), 1, false), 1);
    assert o == Done(Activate(t, SetBlocked(Replace(s, 0, Load(1, 1, 1, Activating(0))), 1, false), 1));
    assert o.state.mods == e.mods && o.state.mgrs == e.mgrs && o.state.regions == e.regions && o.state.threads == e.threads;
    assert o.state == e;
  }

  lemma Activate0(t: Topology)
    requires Consists(t) && Layered(t)
    ensures TidyMoves(t, World(Marked(), IDLE, Some(0), Some(1), Some(1), Some(0), Some(1), [Load(0, 0, 0, SyncWait)], true), Resume(0), Before())
  {
    hide Layered, Typed;
    var s := World(Marked(), IDLE, Some(0), Some(1), Some(1), Some(0), Some(1), [Load(0, 0, 0, SyncWait)], true);
    WorldTyped(t, Marked(), IDLE, Some(0), Some(1), Some(1), Some(0), Some(1), [Load(0, 0, 0, SyncWait)], true);
    assert Top(s, 0) == Some(Load(0, 0, 0, SyncWait));
    var o, e := Next(t, s, Resume(0)), Before();
    assert s.(started := true) == s;
    ReplaceOnly(s, Load(0, 0, 0, SyncWait), Load(0, 0, 0, Activating(0)));
    ActivateNone(t, SetBlocked(Replace(s, 0, Load(0, 0, 0, Activating(0))), 0, false), 0);
    assert o == Done(Activate(t, SetBlocked(Replace(s, 0, Load(0, 0, 0, Activating(0))), 0, false), 0));
    assert o.state.mods == e.mods && o.state.mgrs == e.mgrs && o.state.regions == e.regions && o.state.threads == e.threads;
    assert o.state == e;
  }

  lemma Finish1(t: Topology)
    requires Consists(t) && Layered(t)
    ensures TidyMoves(t, World(IDLE, Open(), None, Some(1), Some(1), None, Some(1), [Load(1, 1, 1, Activating(0))], true), Resume(0),
                  World(IDLE, IDLE, None, Some(1), Some(1), None, Some(1), [], true))
  {
    hide Layered, Typed;
    var s := World(IDLE, Open(), None, Some(1), Some(1), None, Some(1), [Load(1, 1, 1, Activating(0))], true);
    WorldTyped(t, IDLE, Open(), None, Some(1), Some(1), None, Some(1), [Load(1, 1, 1, Activating(0))], true);
    assert Top(s, 0) == Some(Load(1, 1, 1, Activating(0)));
  }

  function Story(): seq<State> {
    [World(IDLE, IDLE, None, None, None, None, None, [], false),
     World(IDLE, Marked(), None, Some(1), None, None, None, [Load(1, 1, 1, LoadWait)], true),
     World(IDLE, Marked(), None, Some(1), Some(1), None, Some(1), [Load(1, 1, 1, SyncWait)], true),
     World(IDLE, Open(), None, Some(1), Some(1), None, Some(1), [Load(1, 1, 1, Activating(0))], true),
     World(IDLE, IDLE, None, Some(1), Some(1), None, Some(1), [], true),
     World(Marked(), IDLE, Some(0), Some(1), Some(1), None, Some(1), [Load(0, 0, 0, LoadWait)], true),
     World(Marked(), IDLE, Some(0), Some(1), Some(1), Some(0), Some(1), [Load(0, 0, 0, SyncWait)], true),
     Before()]
  }

  function Deeds(): seq<Action> {
    [Configure(0, 1, Some(1)), Resume(0), Resume(0), Resume(0), Configure(0, 0, Some(0)), Resume(0), Resume(0)]
  }

  lemma StoryBegins(t: Topology)
    requires Consists(t) && Layered(t)
    ensures |Story()| == 8 && |Deeds()| == 7 && Init(t, Story()[0])
    ensures TidyMoves(t, Story()[0], Deeds()[0], Story()[1]) && TidyMoves(t, Story()[1], Deeds()[1], Story()[2])
    ensures TidyMoves(t, Story()[2], Deeds()[2], Story()[3]) && TidyMoves(t, Story()[3], Deeds()[3], Story()[4])
  {
    hide Consists, World, Before, TidyMoves, Layered, Init, Marked, Open;
    InitialWorld(t);
    Begin1(t);
    Couple1(t);
    Activate1(t);
    Finish1(t);
  }

  lemma StoryEnds(t: Topology)
    requires Consists(t) && Layered(t)
    ensures |Story()| == 8 && |Deeds()| == 7 && Story()[7] == Before()
    ensures TidyMoves(t, Story()[4], Deeds()[4], Story()[5]) && TidyMoves(t, Story()[5], Deeds()[5], Story()[6])
    ensures TidyMoves(t, Story()[6], Deeds()[6], Story()[7])
  {
    hide Consists, World, Before, TidyMoves, Layered, Marked, Open;
    Begin0(t);
    Couple0(t);
    Activate0(t);
  }

  /** That state is reached: configure the split manager, then the enclosing module. */
  lemma Reached()
    ensures TidyRun(Design(), Story(), Deeds()) && |Story()| == 8 && Story()[7] == Before()
  {
    DesignConsists();
    ConsistsLayered(Design());
    hide Design, Consists, Before, TidyMoves, Layered, Init, TidyRun, Story, Deeds;
    StoryBegins(Design());
    StoryEnds(Design());
    SevenMoves(Design(), Story(), Deeds());
  }

  lemma SevenMoves(t: Topology, st: seq<State>, ds: seq<Action>)
    requires |st| == 8 && |ds| == 7 && Init(t, st[0])
    requires TidyMoves(t, st[0], ds[0], st[1]) && TidyMoves(t, st[1], ds[1], st[2]) && TidyMoves(t, st[2], ds[2], st[3])
    requires TidyMoves(t, st[3], ds[3], st[4]) && TidyMoves(t, st[4], ds[4], st[5]) && TidyMoves(t, st[5], ds[5], st[6])
    requires TidyMoves(t, st[6], ds[6], st[7])
    ensures TidyRun(t, st, ds)
  {
    hide TidyMoves, Init;
  }

  lemma InitialWorld(t: Topology)
    requires Consists(t)
    ensures Init(t, World(IDLE, IDLE, None, None, None, None, None, [], false))
  {
    var s := World(IDLE, IDLE, None, None, None, None, None, [], false);
    assert s.regions.Keys == t.root.Keys && s.mgrs.Keys == t.mgrs && s.mods.Keys == t.mods.Keys;
    assert t.root[0] == 0 && t.root[1] == 1;
  }
}
