/** Theorems about every run of the protocol. */
module Safety {
  import opened Model
  import opened Teardown
  import opened Invariants
  import opened Effects
  import opened UnloadSafety
  import opened Protocol
  import opened LoadEffects
  import opened Steps

  // ---- the invariant holds in every reachable state ------------------------------------

  lemma InitTally(threads: seq<Thread>, q: Query)
    requires forall i | 0 <= i < |threads| :: threads[i].stack == []
    ensures Tally(threads, q) == 0
  {
  }

  lemma InitInv(t: Topology, s: State)
    requires Valid(t) && Init(t, s)
    ensures Inv(t, s) && Sound(t, s)
  {
    hide Typed, Roots, Tidy, Matching, Valid, Init, Exclusive, Counted, FlagsOk, CallsBound, LoadsOk,
         ThreadsOk, HandlesOk, DecoupledOk, Stationed, Leftovers, SettledPart, SplitPart, Layered;
    LayeredOf(t);
    InitPointers(t, s);
    InitStationed(t, s);
    InitTidy(t, s);
    InitCounts(t, s);
    InitThreads(t, s);
    InitSettled(t, s);
  }

  lemma InitPointers(t: Topology, s: State)
    requires Layered(t) && Init(t, s)
    ensures Typed(t, s) && Roots(t, s) && Matching(t, s) && Leftovers(t, s, {}, {})
  {
  }

  lemma InitStationed(t: Topology, s: State)
    requires Init(t, s)
    ensures Stationed(t, s)
  {
    forall c <- s.mgrs | s.mgrs[c].rr.Some? ensures Belongs(t, c, s.mgrs[c].rr.value) {
      var r :| r in t.root && t.root[r] == c;
      assert s.mgrs[t.root[r]] == Manager(None, Some(r));
    }
  }

  lemma InitTidy(t: Topology, s: State)
    requires Valid(t) && Init(t, s)
    ensures Tidy(t, s)
  {
    hide Valid, Connected;
    InitConnected(t, s);
  }

  lemma InitCounts(t: Topology, s: State)
    requires Init(t, s)
    ensures Counted(s) && Exclusive(s) && FlagsOk(s)
  {
    forall q ensures Tally(s.threads, q) == 0 { InitTally(s.threads, q); }
  }

  lemma InitThreads(t: Topology, s: State)
    requires Init(t, s)
    ensures ThreadsOk(s) && HandlesOk(s) && CallsBound(s) && LoadsOk(t, s) && DecoupledOk(s)
  {
  }

  /** Initially no sub-manager is connected. */
  lemma SubsApart(t: Topology, s: State, m: ModuleId, k: nat)
    requires Valid(t) && Init(t, s) && m in t.mods && k < |t.mods[m].subs|
    ensures t.mods[m].subs[k] in s.mgrs && s.mgrs[t.mods[m].subs[k]].rr.None? && t.mods[m].home in s.mgrs
  {
    hide Valid;
    LayeredSubs(t, m);
    LayeredHome(t, m, k);
    assert t.mods[m].subs[k] in t.mods[m].subs;
  }

  lemma LayeredHome(t: Topology, m: ModuleId, k: nat)
    requires Valid(t) && m in t.mods && k < |t.mods[m].subs|
    ensures t.mods[m].subs[k] in t.mgrs && t.mods[m].home in t.mgrs
  {
    assert Inside(t, t.mods[m].subs[k], m);
  }

  lemma InitConnected(t: Topology, s: State)
    requires Valid(t) && Init(t, s)
    ensures Connected(t, s)
  {
    hide Valid;
    forall m, k | m in t.mods && 0 <= k < |t.mods[m].subs|
      ensures t.mods[m].subs[k] in s.mgrs && s.mgrs[t.mods[m].subs[k]].rr.None? && t.mods[m].home in s.mgrs
    {
      SubsApart(t, s, m, k);
    }
  }

  lemma InitSettled(t: Topology, s: State)
    requires Valid(t) && Init(t, s)
    ensures SettledPart(t, s, {}, {}) && SplitPart(t, s, {}, {}) && PathOk(s, {}, {})
  {
    hide Valid;
    forall m, k | m in t.mods && 0 <= k < |t.mods[m].subs|
      ensures t.mods[m].subs[k] in s.mgrs && s.mgrs[t.mods[m].subs[k]].rr.None?
    {
      SubsApart(t, s, m, k);
    }
  }

  /** Any step that does not fail keeps what holds in any run, and unless it overwrites a slot the
      whole invariant. */
  lemma StepInv(t: Topology, s: State, a: Action, tidy: bool := true)
    requires Valid(t) && During(t, s, {}, {}, tidy) && Enabled(t, s, a) && (tidy ==> !Overwrites(t, s, a))
    ensures Layered(t) && Typed(t, s)
    ensures var o := Next(t, s, a); !o.Failed? ==> During(t, o.state, {}, {}, tidy)
  {
    hide Typed, ThreadsOk, HandlesOk, Counted, Exclusive, FlagsOk, CallsBound, Matching, LoadsOk, Tidy, Roots,
         DecoupledOk, Stationed, Leftovers, SettledPart, SplitPart, PathOk, Valid, Layered,
         DoEnter, DoEnterOut, DoReturn, DoConfigure, DoUnload, DoResume, DoStartPreload;
    LayeredOf(t);
    KeysOf(t, s);
    if a.StartPreload? {
      StartPreloadKeeps(t, s, a.c, tidy);
    } else {
      StartedTyped(t, s);
      StartedKeeps(t, s, tidy);
      var s1 := s.(started := true);
      match a
      case Enter(i, r, x) => EnterKeeps(t, s1, i, r, x, tidy);
      case EnterOut(i, m, x) => EnterOutKeeps(t, s1, i, m, x, tidy);
      case Return(i) => ReturnKeeps(t, s1, i, tidy);
      case Exit(i) => ExitKeeps(t, s1, i, tidy);
      case Configure(i, c, found) => ConfigureKeeps(t, s1, i, c, found, tidy);
      case UnloadRequest(i, c) => UnloadRequestKeeps(t, s1, i, c, tidy);
      case Resume(i) => ResumeKeeps(t, s1, i, tidy);
    }
  }

  /** A run: actions chosen by an arbitrary scheduler, none of which fails. */
  ghost predicate Run(t: Topology, states: seq<State>, actions: seq<Action>) {
    && |states| == |actions| + 1
    && Init(t, states[0])
    && forall k | 0 <= k < |actions| :: Moves(t, states[k], actions[k], states[k + 1])
  }

  ghost predicate Moves(t: Topology, s: State, a: Action, n: State) {
    && Layered(t) && Typed(t, s) && Enabled(t, s, a)
    && (Next(t, s, a) == Done(n) || Next(t, s, a) == Aborted(n))
  }

  /** A run none of whose steps preloads over a module. */
  ghost predicate TidyRun(t: Topology, states: seq<State>, actions: seq<Action>) {
    && |states| == |actions| + 1
    && Init(t, states[0])
    && forall k | 0 <= k < |actions| :: TidyMoves(t, states[k], actions[k], states[k + 1])
  }

  ghost predicate TidyMoves(t: Topology, s: State, a: Action, n: State) {
    Moves(t, s, a, n) && !Overwrites(t, s, a)
  }

  /** What holds in every state of every run. */
  lemma {:induction false} RunSound(t: Topology, states: seq<State>, actions: seq<Action>, k: nat)
    requires Valid(t) && Run(t, states, actions) && k < |states|
    ensures Sound(t, states[k])
  {
    hide During, Valid, Next, Typed;
    if k == 0 {
      InitInv(t, states[0]);
    } else {
      RunSound(t, states, actions, k - 1);
      assert Moves(t, states[k - 1], actions[k - 1], states[k]);
      StepInv(t, states[k - 1], actions[k - 1], false);
    }
  }

  /** The whole invariant, while no module has been preloaded over. */
  lemma {:induction false} RunInv(t: Topology, states: seq<State>, actions: seq<Action>, k: nat)
    requires Valid(t) && TidyRun(t, states, actions) && k < |states|
    ensures Inv(t, states[k])
  {
    hide During, Valid, Next, Typed;
    if k == 0 {
      InitInv(t, states[0]);
    } else {
      RunInv(t, states, actions, k - 1);
      assert TidyMoves(t, states[k - 1], actions[k - 1], states[k]);
      StepInv(t, states[k - 1], actions[k - 1]);
    }
  }

  // ---- in-flight safety ----------------------------------------------------------------

  /** In every reachable state the counter of a region is the number of live locks on it, and every
      call in flight runs through an adapter pair that is still bound, in both directions, to the
      module the call entered, which is configured on the region.  While no preload has overwritten a
      module that module is moreover still the one its manager holds. */
  lemma InFlight(t: Topology, states: seq<State>, actions: seq<Action>, n: nat)
    requires Valid(t) && Run(t, states, actions) && n < |states|
    ensures var s := states[n];
      && (forall r <- s.regions :: s.regions[r].count == Tally(s.threads, LockOn(r)))
      && (forall i, a | 0 <= i < |s.threads| && 0 <= a < |s.threads[i].stack| && s.threads[i].stack[a].Call? ::
            var f := s.threads[i].stack[a];
            && f.rr in s.regions && (f.rr, f.mem) in s.bound && s.bound[(f.rr, f.mem)] == f.mod
            && f.mod in s.mods && s.mods[f.mod].configured == Some(f.rr)
            && f.mod in t.mods && f.mem in t.mods[f.mod].members)
    ensures TidyRun(t, states, actions) ==>
      var s := states[n];
      forall i, a | 0 <= i < |s.threads| && 0 <= a < |s.threads[i].stack| && s.threads[i].stack[a].Call? ::
        var f := s.threads[i].stack[a];
        f.mod in t.mods && t.mods[f.mod].home in s.mgrs && s.mgrs[t.mods[f.mod].home] == Manager(Some(f.mod), Some(f.rr))
  {
    RunSound(t, states, actions, n);
    hide Run, Valid, TidyRun;
    CallsSafe(t, states[n]);
    if TidyRun(t, states, actions) {
      RunInv(t, states, actions, n);
      CallsLoaded(t, states[n]);
    }
  }

  lemma CallsSafe(t: Topology, s: State)
    requires Sound(t, s)
    ensures forall i, a | 0 <= i < |s.threads| && 0 <= a < |s.threads[i].stack| && s.threads[i].stack[a].Call? ::
            var f := s.threads[i].stack[a];
            && f.rr in s.regions && (f.rr, f.mem) in s.bound && s.bound[(f.rr, f.mem)] == f.mod
            && f.mod in s.mods && s.mods[f.mod].configured == Some(f.rr)
            && f.mod in t.mods && f.mem in t.mods[f.mod].members
    ensures forall r <- s.regions :: s.regions[r].count == Tally(s.threads, LockOn(r))
  {
    hide Typed, ThreadsOk, HandlesOk, Exclusive, FlagsOk, LoadsOk, Roots, DecoupledOk, Stationed, Leftovers, Tidy,
         SettledPart, SplitPart, PathOk;
    forall i, a | 0 <= i < |s.threads| && 0 <= a < |s.threads[i].stack| && s.threads[i].stack[a].Call?
      ensures CallOk(s, s.threads[i].stack[a])
    {
    }
  }

  lemma CallsLoaded(t: Topology, s: State)
    requires Inv(t, s)
    ensures forall i, a | 0 <= i < |s.threads| && 0 <= a < |s.threads[i].stack| && s.threads[i].stack[a].Call? ::
            var f := s.threads[i].stack[a];
            f.mod in t.mods && t.mods[f.mod].home in s.mgrs && s.mgrs[t.mods[f.mod].home] == Manager(Some(f.mod), Some(f.rr))
  {
    hide Typed, ThreadsOk, HandlesOk, Exclusive, FlagsOk, LoadsOk, Roots, Connected, DecoupledOk, Stationed, Leftovers, WaitsOk, BlockedOk,
         SettledPart, SplitPart, PathOk;
    forall i, a | 0 <= i < |s.threads| && 0 <= a < |s.threads[i].stack| && s.threads[i].stack[a].Call?
      ensures CallOk(s, s.threads[i].stack[a])
    {
    }
  }

  /** A region can only be blocked while it is being reconfigured, and while no sub-manager is
      connected to it and no module has been preloaded over a blocked region has no call in flight. */
  lemma BlockedMeansQuiet(t: Topology, states: seq<State>, actions: seq<Action>, n: nat, r: RegionId)
    requires Valid(t) && Run(t, states, actions) && n < |states| && r in t.root
    ensures var s := states[n]; r in s.regions && (s.regions[r].blocked ==> s.regions[r].reconf)
    ensures var s := states[n];
      TidyRun(t, states, actions) && s.regions[r].blocked && !Divided(t, s, r) ==> s.regions[r].count == 0
  {
    RunSound(t, states, actions, n);
    hide Valid, ThreadsOk, HandlesOk, Counted, Exclusive, CallsBound, Matching, LoadsOk, Homes, Roots, Connected,
         DecoupledOk, Stationed, Leftovers, WaitsOk, SettledPart, SplitPart, PathOk, Run, TidyRun;
    if TidyRun(t, states, actions) { RunInv(t, states, actions, n); }
  }

  // ---- one load per region; rest -------------------------------------------------------

  /** Loading, as an observer of the pointers sees it: the manager points to a module that is
      not yet, or no longer, coupled with all its processes running. */
  ghost predicate Pending(t: Topology, s: State, c: ManagerId, r: RegionId) {
    c in s.mgrs && s.mgrs[c].current.Some? && s.mgrs[c].rr == Some(r) && !Settled(t, s, s.mgrs[c].current.value, r)
  }

  lemma {:induction false} TwoLoads(stack: seq<Frame>, c: ManagerId, d: ManagerId, r: RegionId)
    requires c != d
    requires forall a | 0 <= a < |stack| && stack[a].Load? && stack[a].mgr in {c, d} :: stack[a].rr == r
    ensures InStack(stack, LoadBy(c)) + InStack(stack, LoadBy(d)) <= InStack(stack, LoadOn(r))
  {
    if stack != [] {
      TwoLoads(stack[..|stack| - 1], c, d, r);
    }
  }

  lemma {:induction false} TwoLoadsAll(threads: seq<Thread>, c: ManagerId, d: ManagerId, r: RegionId)
    requires c != d
    requires forall i, a | 0 <= i < |threads| && 0 <= a < |threads[i].stack| && threads[i].stack[a].Load?
                           && threads[i].stack[a].mgr in {c, d} :: threads[i].stack[a].rr == r
    ensures Tally(threads, LoadBy(c)) + Tally(threads, LoadBy(d)) <= Tally(threads, LoadOn(r))
  {
    if threads != [] {
      TwoLoadsAll(threads[..|threads| - 1], c, d, r);
      TwoLoads(threads[|threads| - 1].stack, c, d, r);
    }
  }

  /** A manager is pending only while its region is marked reconfiguring; and at most one manager of
      the region is, counting all sub-managers, unless the reconfiguring process was killed. */
  lemma OnePending(t: Topology, states: seq<State>, actions: seq<Action>, n: nat, r: RegionId, c: ManagerId, d: ManagerId)
    requires Valid(t) && Run(t, states, actions) && n < |states| && r in t.root && Pending(t, states[n], c, r)
    ensures r in states[n].regions && states[n].regions[r].reconf
    ensures Pending(t, states[n], d, r) ==> c == d || Tally(states[n].threads, LoadOn(r)) == 0
  {
    RunSound(t, states, actions, n);
    OnePendingIn(t, states[n], r, c, d);
  }

  lemma LoadsOfManager(t: Topology, s: State, c: ManagerId, r: RegionId)
    requires LoadsOk(t, s) && c in s.mgrs && s.mgrs[c].rr == Some(r)
    ensures forall i, a | 0 <= i < |s.threads| && 0 <= a < |s.threads[i].stack| && s.threads[i].stack[a].Load?
                          && s.threads[i].stack[a].mgr == c :: s.threads[i].stack[a].rr == r
  {
    forall i, a | 0 <= i < |s.threads| && 0 <= a < |s.threads[i].stack| && s.threads[i].stack[a].Load?
                  && s.threads[i].stack[a].mgr == c ensures s.threads[i].stack[a].rr == r
    {
      assert LoadOk(t, s, s.threads[i].stack[a]);
    }
  }

  /** A load by a manager is a load on the region it is connected to. */
  lemma ByMeansOn(t: Topology, s: State, c: ManagerId, r: RegionId)
    requires LoadsOk(t, s) && c in s.mgrs && s.mgrs[c].rr == Some(r)
    ensures Tally(s.threads, LoadBy(c)) > 0 ==> Tally(s.threads, LoadOn(r)) > 0
  {
    if Tally(s.threads, LoadBy(c)) > 0 {
      LoadsOfManager(t, s, c, r);
      var i, a := TallyWitness(s.threads, LoadBy(c));
      TallyMember(s.threads, i, a, LoadOn(r));
      assert Hit(s.threads[i].stack[a], LoadOn(r)) == 1;
    }
  }

  lemma OnePendingIn(t: Topology, s: State, r: RegionId, c: ManagerId, d: ManagerId)
    requires Sound(t, s) && r in t.root && Pending(t, s, c, r)
    ensures r in s.regions && s.regions[r].reconf
    ensures Pending(t, s, d, r) ==> c == d || Tally(s.threads, LoadOn(r)) == 0
  {
    hide Typed, ThreadsOk, HandlesOk, Counted, FlagsOk, CallsBound, Matching, LoadsOk, Homes, Roots,
         Connected, DecoupledOk, Stationed, Leftovers, WaitsOk, BlockedOk, SplitPart, Settled;
    KeysOf(t, s);
    ByMeansOn(t, s, c, r);
    assert !Attended(s, r, {}) || Tally(s.threads, LoadBy(c)) > 0;
    if Pending(t, s, d, r) && c != d && Attended(s, r, {}) {
      LoadsOfManager(t, s, c, r);
      LoadsOfManager(t, s, d, r);
      TwoLoadsAll(s.threads, c, d, r);
    }
  }

  /** The members of the modules loaded on a region, seen from its managers. */
  ghost predicate LoadedMember(t: Topology, s: State, r: RegionId, x: MemberId, m: ModuleId) {
    exists c :: c in s.mgrs && s.mgrs[c] == Manager(Some(m), Some(r)) && m in t.mods && x in t.mods[m].members
  }

  /** At rest: on a region where no reconfiguration is ongoing every current module is coupled and
      active, transactions are not blocked, and the members of the loaded modules are bound.  While no
      module has been preloaded over, nothing else is bound on the region. */
  lemma AtRest(t: Topology, states: seq<State>, actions: seq<Action>, n: nat, r: RegionId)
    requires Valid(t) && Run(t, states, actions) && n < |states| && r in t.root
    requires r in states[n].regions && !states[n].regions[r].reconf
    ensures var s := states[n];
      && !s.regions[r].blocked
      && (forall c <- s.mgrs | s.mgrs[c].current.Some? && s.mgrs[c].rr == Some(r) ::
            Settled(t, s, s.mgrs[c].current.value, r))
      && (forall x: MemberId, m: ModuleId :: LoadedMember(t, s, r, x, m) ==> (r, x) in s.bound && s.bound[(r, x)] == m)
    ensures TidyRun(t, states, actions) ==>
      var s := states[n];
      forall x: MemberId, m: ModuleId :: (r, x) in s.bound && s.bound[(r, x)] == m ==> LoadedMember(t, s, r, x, m)
  {
    RunSound(t, states, actions, n);
    hide Run, Valid, TidyRun, LoadedMember;
    RestIn(t, states[n], r);
    if TidyRun(t, states, actions) {
      RunInv(t, states, actions, n);
      BoundIsLoaded(t, states[n], r);
    }
  }

  lemma RestIn(t: Topology, s: State, r: RegionId)
    requires Sound(t, s) && r in t.root && r in s.regions && !s.regions[r].reconf
    ensures !s.regions[r].blocked
    ensures forall c <- s.mgrs | s.mgrs[c].current.Some? && s.mgrs[c].rr == Some(r) ::
            Settled(t, s, s.mgrs[c].current.value, r)
    ensures forall x: MemberId, m: ModuleId :: LoadedMember(t, s, r, x, m) ==> (r, x) in s.bound && s.bound[(r, x)] == m
  {
    hide Typed, ThreadsOk, HandlesOk, Counted, CallsBound, LoadsOk, Roots, Tidy, DecoupledOk, Stationed, Leftovers, SplitPart;
    KeysOf(t, s);
    forall c | c in s.mgrs && s.mgrs[c].current.Some? && s.mgrs[c].rr == Some(r)
      ensures Settled(t, s, s.mgrs[c].current.value, r)
    {
      assert Attended(s, r, {});
      ByMeansOn(t, s, c, r);
    }
  }

  lemma BoundIsLoaded(t: Topology, s: State, r: RegionId)
    requires Inv(t, s)
    ensures forall x: MemberId, m: ModuleId :: (r, x) in s.bound && s.bound[(r, x)] == m ==> LoadedMember(t, s, r, x, m)
  {
    hide Typed, ThreadsOk, HandlesOk, Counted, CallsBound, LoadsOk, Roots, Exclusive, FlagsOk,
         Connected, DecoupledOk, Stationed, Leftovers, WaitsOk, BlockedOk, SettledPart, SplitPart, PathOk;
    forall x: MemberId, m: ModuleId | (r, x) in s.bound && s.bound[(r, x)] == m ensures LoadedMember(t, s, r, x, m) {
      assert s.mgrs[t.mods[m].home] == Manager(Some(m), Some(r));
    }
  }

  // ---- split managers ------------------------------------------------------------------

  /** A sub-manager's region pointer is set only while its split manager is coupled on that very
      region (unless the region is orphaned), and a disconnected sub-manager is empty.  While no module
      has been preloaded over, the split manager is then also the current module of its own manager,
      and a coupled split manager has all its sub-managers connected. */
  lemma SplitLifecycle(t: Topology, states: seq<State>, actions: seq<Action>, n: nat, m: ModuleId, k: nat)
    requires Valid(t) && Run(t, states, actions) && n < |states| && m in t.mods && k < |t.mods[m].subs|
    ensures var s, c := states[n], t.mods[m].subs[k];
      && c in s.mgrs && t.mods[m].home in s.mgrs && m in s.mods
      && (s.mgrs[c].rr.Some? && Attended(s, s.mgrs[c].rr.value, {}) ==> s.mods[m].configured == s.mgrs[c].rr)
      && (s.mgrs[c].rr.None? ==> s.mgrs[c].current.None?)
    ensures TidyRun(t, states, actions) ==>
      var s, c := states[n], t.mods[m].subs[k];
      && (s.mgrs[c].rr.Some? ==> s.mgrs[t.mods[m].home] == Manager(Some(m), s.mgrs[c].rr))
      && (s.mods[m].configured.Some? ==> s.mgrs[c].rr == s.mods[m].configured)
  {
    RunSound(t, states, actions, n);
    hide Run, Valid, TidyRun;
    SplitIn(t, states[n], m, k);
    if TidyRun(t, states, actions) {
      RunInv(t, states, actions, n);
      SplitTidy(t, states[n], m, k);
    }
  }

  lemma SplitIn(t: Topology, s: State, m: ModuleId, k: nat)
    requires Valid(t) && Sound(t, s) && m in t.mods && k < |t.mods[m].subs|
    ensures var c := t.mods[m].subs[k];
      && c in s.mgrs && t.mods[m].home in s.mgrs && m in s.mods
      && (s.mgrs[c].rr.Some? && Attended(s, s.mgrs[c].rr.value, {}) ==> s.mods[m].configured == s.mgrs[c].rr)
      && (s.mgrs[c].rr.None? ==> s.mgrs[c].current.None?)
  {
    hide ThreadsOk, HandlesOk, Counted, Exclusive, FlagsOk, CallsBound, Matching, LoadsOk, Tidy,
         DecoupledOk, Stationed, Leftovers, SettledPart, Valid;
    KeysOf(t, s);
    LayeredHome(t, m, k);
  }

  lemma SplitTidy(t: Topology, s: State, m: ModuleId, k: nat)
    requires Inv(t, s) && m in t.mods && k < |t.mods[m].subs| && m in s.mods
    ensures var c := t.mods[m].subs[k];
      && c in s.mgrs && t.mods[m].home in s.mgrs
      && (s.mgrs[c].rr.Some? ==> s.mgrs[t.mods[m].home] == Manager(Some(m), s.mgrs[c].rr))
      && (s.mods[m].configured.Some? ==> s.mgrs[c].rr == s.mods[m].configured)
  {
    hide Always, Homes, BlockedOk, WaitsOk, SettledPart, SplitPart, Leftovers, PathOk;
  }

  // ---- the decoupled flag --------------------------------------------------------------

  /** The decoupled flag of an output adapter is set only while the adapter is unbound. */
  lemma FlagMeansUnbound(t: Topology, states: seq<State>, actions: seq<Action>, n: nat)
    requires Valid(t) && Run(t, states, actions) && n < |states|
    ensures forall k <- states[n].decoupled :: k !in states[n].bound
    ensures !states[n].started ==> states[n].decoupled == {}
  {
    RunSound(t, states, actions, n);
  }

  // ---- processes -----------------------------------------------------------------------

  lemma ProcessesIn(t: Topology, s: State, m: ModuleId)
    requires Valid(t) && Inv(t, s) && m in t.mods
    ensures m in s.mods && t.mods[m].home in s.mgrs
    ensures forall i | 0 <= i < |s.threads| && s.threads[i].alive && s.threads[i].owner == Some(m) :: i in s.mods[m].handles
    ensures s.mgrs[t.mods[m].home].current != Some(m) ==>
            s.mods[m].handles == []
            && forall i | 0 <= i < |s.threads| && s.threads[i].owner == Some(m) :: !s.threads[i].alive
  {
    hide Typed, Counted, Exclusive, FlagsOk, CallsBound, Matching, LoadsOk, Roots, Valid, Layered,
         Connected, DecoupledOk, Stationed, Leftovers, WaitsOk, BlockedOk, SettledPart, SplitPart, PathOk, ThreadsOk, HandlesOk, Homes;
    LayeredOf(t);
    KeysOf(t, s);
    HomeIn(t, m);
    LiveHandles(s, m);
    HomeHolds(t, s, m);
  }

  lemma HomeIn(t: Topology, m: ModuleId)
    requires Layered(t) && m in t.mods
    ensures t.mods[m].home in t.mgrs
  {
  }

  lemma LiveHandles(s: State, m: ModuleId)
    requires ThreadsOk(s) && m in s.mods
    ensures forall i | 0 <= i < |s.threads| && s.threads[i].alive && s.threads[i].owner == Some(m) :: i in s.mods[m].handles
  {
  }

  lemma HomeHolds(t: Topology, s: State, m: ModuleId)
    requires Homes(t, s) && m in t.mods && m in s.mods && t.mods[m].home in s.mgrs
    ensures s.mgrs[t.mods[m].home].current != Some(m) ==> s.mods[m].handles == []
  {
  }

  /** The module whose processes an action spawns: when a load has been synchronised, or in a preload
      before simulation. */
  function SpawnsFor(t: Topology, s: State, a: Action): Option<ModuleId> {
    match a
    case StartPreload(c) => if c in t.preload then Some(t.preload[c]) else None
    case Resume(i) => if Top(s, i).Some? && Top(s, i).value.Load? && Top(s, i).value.phase == SyncWait
                      then Some(Top(s, i).value.mod) else None
    case _ => None
  }

  /** When a module's processes are spawned, every process it ever had before is dead. */
  lemma SpawnAfterKill(t: Topology, states: seq<State>, actions: seq<Action>, n: nat, m: ModuleId)
    requires Valid(t) && Run(t, states, actions) && n < |actions| && SpawnsFor(t, states[n], actions[n]) == Some(m)
    ensures var s, e := states[n], states[n + 1];
      && m in s.mods && m in t.mods && s.mods[m].handles == []
      && (forall j | 0 <= j < |s.threads| && s.threads[j].owner == Some(m) :: !s.threads[j].alive)
      && |e.threads| == |s.threads| + t.mods[m].procs
      && (forall j | |s.threads| <= j < |e.threads| :: e.threads[j] == Thread(Some(m), true, []))
      && m in e.mods && |e.mods[m].handles| == t.mods[m].procs
  {
    hide Typed, ThreadsOk, HandlesOk, Counted, Exclusive, FlagsOk, CallsBound, Matching, LoadsOk, Tidy, Roots,
         DecoupledOk, Stationed, Leftovers, SettledPart, SplitPart, PathOk, Valid, Layered;
    RunSound(t, states, actions, n);
    var s := states[n];
    assert Moves(t, s, actions[n], states[n + 1]);
    if actions[n].StartPreload? {
      SpawnAtStart(t, s, actions[n].c);
    } else {
      TopIn(t, s, actions[n].i, false);
    }
    NoneAlive(s, m);
  }

  lemma SpawnAtStart(t: Topology, s: State, c: ManagerId)
    requires Layered(t) && Typed(t, s) && Enabled(t, s, StartPreload(c)) && !DoStartPreload(t, s, c).Failed?
    requires Sound(t, s) && Valid(t)
    ensures var m := t.preload[c]; m in t.mods && m in s.mods && s.mods[m].handles == []
    ensures var m, o := t.preload[c], DoStartPreload(t, s, c);
      && m in o.state.mods && o.Done?
      && o.state.threads == s.threads + Spawned(m, t.mods[m].procs)
      && |o.state.mods[m].handles| == t.mods[m].procs
  {
    hide Typed, ThreadsOk, HandlesOk, Counted, Exclusive, FlagsOk, CallsBound, Matching, LoadsOk, Tidy, Roots,
         DecoupledOk, Stationed, Leftovers, SettledPart, SplitPart, PathOk, Valid, Layered;
    PreloadHome(t, c);
    KeysOf(t, s);
    StationAt(t, s, c);
    UntouchedHandles(t, s, t.preload[c], s.mgrs[c].rr.value, {}, {});
  }

  lemma TopIn(t: Topology, s: State, i: ThreadId, tidy: bool := true)
    requires During(t, s, {}, {}, tidy) && Top(s, i).Some? && Top(s, i).value.Load?
    ensures var f := Top(s, i).value; LoadOk(t, s, f) && s.regions[f.rr].reconf
  {
    hide Typed, ThreadsOk, HandlesOk, Counted, FlagsOk, CallsBound, Matching, LoadsOk, Homes, Roots,
         Connected, DecoupledOk, Stationed, Leftovers, WaitsOk, BlockedOk, SettledPart, SplitPart, Exclusive;
    TopLoad(t, s, i);
  }

  lemma TopBy(s: State, i: ThreadId)
    requires Top(s, i).Some? && Top(s, i).value.Load?
    ensures Tally(s.threads, LoadBy(Top(s, i).value.mgr)) > 0
  {
    var a := |s.threads[i].stack| - 1;
    TallyMember(s.threads, i, a, LoadBy(s.threads[i].stack[a].mgr));
    assert Hit(s.threads[i].stack[a], LoadBy(s.threads[i].stack[a].mgr)) == 1;
  }

  lemma TopWaits(s: State, i: ThreadId)
    requires WaitsOk(s) && Top(s, i).Some? && Top(s, i).value.Load? && Top(s, i).value.phase == LoadWait
    ensures WaitOk(s, Top(s, i).value)
  {
    assert s.threads[i].stack[|s.threads[i].stack| - 1] == Top(s, i).value;
  }

  lemma NoneAlive(s: State, m: ModuleId)
    requires ThreadsOk(s) && m in s.mods && s.mods[m].handles == []
    ensures forall j | 0 <= j < |s.threads| && s.threads[j].owner == Some(m) :: !s.threads[j].alive
  {
  }
}
