/** Preloading: activating a module over an empty, idle subtree loads exactly the modules that
    are registered for preload below it, and unloading it afterwards restores the empty tree. */
module Preload {
  import opened Model
  import opened Teardown
  import opened Invariants
  import opened Effects
  import opened UnloadSafety
  import opened Protocol
  import opened LoadEffects
  import opened Steps
  import opened Safety
  import opened Closure
  import opened Exactness
  import opened Guarantees
  import opened Completion
  import opened Slots
  import opened Refinement

  // ---- what a load will load ------------------------------------------------------------------

  /** Module `m` and everything its nested regions preload, at any depth. */
  ghost function Pre(t: Topology, m: ModuleId): set<ModuleId>
    requires Layered(t) && m in t.mods
    decreases t.depth[t.mods[m].home], 1, 0
  {
    {m} + PreFrom(t, m, 0)
  }

  ghost function PreFrom(t: Topology, m: ModuleId, k: nat): set<ModuleId>
    requires Layered(t) && m in t.mods && k <= |t.mods[m].nested|
    decreases t.depth[t.mods[m].home], 0, |t.mods[m].nested| - k
  {
    if k == |t.mods[m].nested| then {}
    else
      var c := t.root[t.mods[m].nested[k]];
      (if c in t.preload then Pre(t, t.preload[c]) else {}) + PreFrom(t, m, k + 1)
  }

  /** The number of steps of the loading thread. */
  ghost function Cost(t: Topology, m: ModuleId): nat
    requires Layered(t) && m in t.mods
    decreases t.depth[t.mods[m].home], 1, 0
  {
    2 + CostFrom(t, m, 0)
  }

  ghost function CostFrom(t: Topology, m: ModuleId, k: nat): nat
    requires Layered(t) && m in t.mods && k <= |t.mods[m].nested|
    decreases t.depth[t.mods[m].home], 0, |t.mods[m].nested| - k
  {
    if k == |t.mods[m].nested| then 1
    else
      var c := t.root[t.mods[m].nested[k]];
      1 + (if c in t.preload then Cost(t, t.preload[c]) else 0) + CostFrom(t, m, k + 1)
  }

  /** Everything at or below manager `e` is empty and idle. */
  ghost predicate Vacant(t: Topology, s: State, e: ManagerId) {
    && (forall d <- s.mgrs | Under(t, d, e) :: s.mgrs[d].current.None?)
    && (forall r <- t.root | r in s.regions && Under(t, t.root[r], e) :: s.regions[r] == Region(false, false, 0))
  }

  ghost predicate VacantFrom(t: Topology, s: State, m: ModuleId, k: nat)
    requires m in t.mods
  {
    forall j | k <= j < |t.mods[m].nested| && t.mods[m].nested[j] in t.root :: Vacant(t, s, t.root[t.mods[m].nested[j]])
  }

  /** Thread `i` alone runs `k` steps of its load. */
  ghost function Advance(t: Topology, s: State, i: ThreadId, k: nat): Outcome
    decreases k
  {
    if k == 0 then Done(s)
    else if !(Layered(t) && Typed(t, s) && Enabled(t, s, Resume(i))) then Failed
    else
      match Next(t, s, Resume(i))
      case Done(n) => Advance(t, n, i, k - 1)
      case Aborted(n) => Aborted(n)
      case Failed => Failed
  }

  lemma {:induction false} AdvanceAdd(t: Topology, s: State, i: ThreadId, a: nat, b: nat)
    requires Advance(t, s, i, a).Done?
    ensures Advance(t, s, i, a + b) == Advance(t, Advance(t, s, i, a).state, i, b)
    decreases a
  {
    hide Next, Enabled, Layered, Typed;
    if a > 0 { AdvanceAdd(t, Next(t, s, Resume(i)).state, i, a - 1, b); }
  }

  // ---- the effect -------------------------------------------------------------------------------

  /** Some module of `ms` belongs to manager `d`. */
  ghost predicate HomeIn(t: Topology, ms: set<ModuleId>, d: ManagerId) {
    exists m :: m in ms && m in t.mods && t.mods[m].home == d
  }

  /** `n` is `s` with exactly the modules `ms` loaded into empty managers; everything else,
      including all flags and counters and every existing thread, is as before. */
  ghost predicate Grown(t: Topology, s: State, n: State, ms: set<ModuleId>) {
    && n.regions == s.regions && n.started == s.started
    && GrownManagers(t, s, n, ms) && GrownModules(s, n, ms) && GrownThreads(s.threads, n.threads, ms)
  }

  ghost predicate GrownManagers(t: Topology, s: State, n: State, ms: set<ModuleId>) {
    && n.mgrs.Keys == s.mgrs.Keys
    && (forall m <- ms :: FilledBy(t, s, n, m))
    && (forall d <- s.mgrs | !HomeIn(t, ms, d) :: n.mgrs[d].current == s.mgrs[d].current)
    && (forall d <- s.mgrs | !SubOf(t, ms, d) :: n.mgrs[d].rr == s.mgrs[d].rr)
  }

  ghost predicate FilledBy(t: Topology, s: State, n: State, m: ModuleId) {
    && m in t.mods && t.mods[m].home in s.mgrs && t.mods[m].home in n.mgrs
    && s.mgrs[t.mods[m].home].current.None? && n.mgrs[t.mods[m].home].current == Some(m)
  }

  ghost predicate GrownModules(s: State, n: State, ms: set<ModuleId>) {
    n.mods.Keys == s.mods.Keys && forall x <- s.mods | x !in ms :: n.mods[x] == s.mods[x]
  }

  ghost predicate GrownThreads(was: seq<Thread>, threads: seq<Thread>, ms: set<ModuleId>) {
    && |threads| >= |was|
    && (forall j | 0 <= j < |was| :: threads[j] == was[j])
    && (forall j | |was| <= j < |threads| :: Newborn(threads[j], ms))
  }

  ghost predicate Newborn(th: Thread, ms: set<ModuleId>) {
    th.stack == [] && th.alive && th.owner.Some? && th.owner.value in ms
  }

  /** A stretch of the loading thread ends without failure, having loaded exactly `ms`. */
  ghost predicate Ends(t: Topology, s: State, o: Outcome, ms: set<ModuleId>) {
    o.Done? && Inv(t, o.state) && o.state.started && Grown(t, s, o.state, ms)
  }

  lemma GrownTwice(t: Topology, s: State, n: State, e: State, a: set<ModuleId>, b: set<ModuleId>)
    requires Grown(t, s, n, a) && Grown(t, n, e, b)
    ensures Grown(t, s, e, a + b)
  {
    hide GrownManagers;
    ManagersTwice(t, s, n, e, a, b);
  }

  lemma ManagersTwice(t: Topology, s: State, n: State, e: State, a: set<ModuleId>, b: set<ModuleId>)
    requires GrownManagers(t, s, n, a) && GrownManagers(t, n, e, b)
    ensures GrownManagers(t, s, e, a + b)
  {
    forall d ensures HomeIn(t, a + b, d) <==> HomeIn(t, a, d) || HomeIn(t, b, d) {}
    forall d ensures SubOf(t, a + b, d) <==> SubOf(t, a, d) || SubOf(t, b, d) {}
    forall m <- a + b ensures FilledBy(t, s, e, m) {
      if m in a {
        assert FilledBy(t, s, n, m);
        assert !HomeIn(t, b, t.mods[m].home) by { NotTwice(t, n, e, b, t.mods[m].home); }
      } else {
        assert FilledBy(t, n, e, m);
        assert n.mgrs[t.mods[m].home].current.None?;
        NotFilled(t, s, n, a, t.mods[m].home);
      }
    }
  }

  lemma NotFilled(t: Topology, s: State, n: State, a: set<ModuleId>, d: ManagerId)
    requires GrownManagers(t, s, n, a) && d in n.mgrs && n.mgrs[d].current.None?
    ensures !HomeIn(t, a, d)
  {
  }

  lemma NotTwice(t: Topology, n: State, e: State, b: set<ModuleId>, d: ManagerId)
    requires GrownManagers(t, n, e, b) && d in n.mgrs && n.mgrs[d].current.Some?
    ensures !HomeIn(t, b, d)
  {
  }

  /** The state with the load of the top frame undone: not begun, its manager empty. */
  ghost function Base(s: State, i: ThreadId): State
    requires Top(s, i).Some? && Top(s, i).value.Load? && Top(s, i).value.mgr in s.mgrs && Top(s, i).value.rr in s.regions
  {
    var f := Top(s, i).value;
    SetCurrent(SetBlocked(SetReconf(Pop(s, i), f.rr, false), f.rr, false), f.mgr, None)
  }

  /** The state with the load of the top frame finished. */
  ghost function Closed(s: State, i: ThreadId): State
    requires Top(s, i).Some? && Top(s, i).value.Load? && Top(s, i).value.rr in s.regions
  {
    SetReconf(Pop(s, i), Top(s, i).value.rr, false)
  }

  // ---- one module ---------------------------------------------------------------------------------

  /** The waiting load goes on without failure, and the invariant holds afterwards. */
  ghost predicate GoesOn(t: Topology, s: State, i: ThreadId) {
    && Layered(t) && Typed(t, s) && Enabled(t, s, Resume(i))
    && Next(t, s, Resume(i)) == DoResume(t, s, i) && DoResume(t, s, i).Done? && Inv(t, DoResume(t, s, i).state)
  }

  lemma OneStep(t: Topology, s: State, i: ThreadId)
    requires Valid(t) && Complementary(t) && Inv(t, s) && s.started && Enabled(t, s, Resume(i))
    requires !Overwriting(t, s, i) && !PreloadsBusy(t, s, i)
    ensures GoesOn(t, s, i)
  {
    hide During, Valid, Layered, Typed, Complementary, PreloadsBusy, Overwriting, DoResume;
    LayeredOf(t);
    TypedOf(t, s);
    ResumeExactIn(t, s, i, DoResume(t, s, i));
    StepInv(t, s, Resume(i));
    assert s.(started := true) == s;
    assert !DoResume(t, s, i).Aborted? by { NeverAborts(t, s, i); }
  }

  lemma NeverAborts(t: Topology, s: State, i: ThreadId)
    requires Layered(t) && Typed(t, s) && Enabled(t, s, Resume(i))
    ensures !DoResume(t, s, i).Aborted?
  {
  }

  lemma WaitEnabled(t: Topology, s: State, i: ThreadId)
    requires Suspended(t, s, i)
    ensures Enabled(t, s, Resume(i))
    ensures !Top(s, i).value.phase.Activating? ==> !Overwriting(t, s, i) && !PreloadsBusy(t, s, i)
  {
    hide ThreadsOk, HandlesOk, Counted, Exclusive, FlagsOk, CallsBound, Matching, LoadsOk, Homes, Roots, Connected,
         DecoupledOk, Stationed, Leftovers, WaitsOk, BlockedOk, SettledPart, SplitPart, PathOk, Typed;
    TopIn(t, s, i);
    KeysOf(t, s);
  }

  /** The top frame is a load whose manager, module and region exist and belong together. */
  ghost predicate Loadable(t: Topology, s: State, i: ThreadId) {
    && i < |s.threads| && Top(s, i).Some? && Top(s, i).value.Load?
    && var f := Top(s, i).value;
      && f.mod in t.mods && f.mod in s.mods && f.mgr == t.mods[f.mod].home && f.mgr in s.mgrs && f.mgr !in t.mods[f.mod].subs
      && s.mgrs[f.mgr].current == Some(f.mod) && f.rr in s.regions
  }

  ghost function AfterCouple(t: Topology, s: State, i: ThreadId): State
    requires Loadable(t, s, i)
  {
    var f := Top(s, i).value;
    Couple(t, Replace(s, i, f.(phase := SyncWait)), f.mod, f.rr, true)
  }

  ghost function AfterActivate(t: Topology, s: State, i: ThreadId): State
    requires Loadable(t, s, i)
  {
    var f := Top(s, i).value;
    Activate(t, SetBlocked(Replace(s, i, f.(phase := Activating(0))), f.rr, false), f.mod)
  }

  lemma IsLoadable(t: Topology, s: State, i: ThreadId)
    requires Valid(t) && Suspended(t, s, i)
    ensures Loadable(t, s, i)
  {
    hide ThreadsOk, HandlesOk, Counted, Exclusive, FlagsOk, CallsBound, Matching, LoadsOk, Homes, Roots, Connected,
         DecoupledOk, Stationed, Leftovers, WaitsOk, BlockedOk, SettledPart, SplitPart, PathOk, Typed, Valid;
    TopIn(t, s, i);
    HomeOf(t, s, Top(s, i).value.mgr);
    NotOwnSub(t, Top(s, i).value.mod);
  }

  lemma CoupleIs(t: Topology, s: State, i: ThreadId)
    requires Layered(t) && Typed(t, s) && Suspended(t, s, i) && Top(s, i).value.phase == LoadWait && Loadable(t, s, i)
    requires Enabled(t, s, Resume(i)) && DoResume(t, s, i).Done?
    ensures DoResume(t, s, i).state == AfterCouple(t, s, i)
  {
    hide ThreadsOk, HandlesOk, Counted, Exclusive, FlagsOk, CallsBound, Matching, LoadsOk, Homes, Roots, Connected,
         DecoupledOk, Stationed, Leftovers, WaitsOk, BlockedOk, SettledPart, SplitPart, PathOk, Layered, Typed, Couple, CanCouple;
    TopIn(t, s, i);
  }

  lemma ActivateIs(t: Topology, s: State, i: ThreadId)
    requires Layered(t) && Typed(t, s) && Suspended(t, s, i) && Top(s, i).value.phase == SyncWait && Loadable(t, s, i)
    requires Enabled(t, s, Resume(i)) && DoResume(t, s, i).Done?
    ensures DoResume(t, s, i).state == AfterActivate(t, s, i)
  {
    hide ThreadsOk, HandlesOk, Counted, Exclusive, FlagsOk, CallsBound, Matching, LoadsOk, Homes, Roots, Connected,
         DecoupledOk, Stationed, Leftovers, WaitsOk, BlockedOk, SettledPart, SplitPart, PathOk, Layered, Typed, Activate;
    TopIn(t, s, i);
  }

  lemma CoupleTop(t: Topology, s: State, i: ThreadId)
    requires Loadable(t, s, i)
    ensures var f, n := Top(s, i).value, AfterCouple(t, s, i);
      && Loadable(t, n, i) && Top(n, i) == Some(f.(phase := SyncWait))
      && n.threads[i].alive == s.threads[i].alive && n.started == s.started
  {
    hide Couple;
    var f := Top(s, i).value;
    CoupleKeepsRest(t, Replace(s, i, f.(phase := SyncWait)), f.mod, f.rr);
    CoupleEffect(t, Replace(s, i, f.(phase := SyncWait)), f.mod, f.rr, true);
  }

  /** What both steps do to the fields. */
  lemma BothSteps(t: Topology, s: State, i: ThreadId)
    requires Loadable(t, s, i) && Loadable(t, AfterCouple(t, s, i), i)
    ensures var f, n := Top(s, i).value, AfterActivate(t, AfterCouple(t, s, i), i);
      && n.threads == Replace(Replace(s, i, f.(phase := SyncWait)), i, f.(phase := Activating(0))).threads
                      + Spawned(f.mod, t.mods[f.mod].procs)
      && n.regions == SetBlocked(s, f.rr, false).regions && n.started == s.started
      && n.mgrs == AfterCouple(t, s, i).mgrs && n.mods.Keys == s.mods.Keys
      && (forall x <- s.mods | x != f.mod :: n.mods[x] == s.mods[x])
      && (forall d <- s.mgrs | d !in t.mods[f.mod].subs :: d in n.mgrs && n.mgrs[d] == s.mgrs[d])
      && (forall d <- s.mgrs :: d in n.mgrs && n.mgrs[d].current == s.mgrs[d].current) && n.mgrs.Keys == s.mgrs.Keys
  {
    hide Couple;
    var f := Top(s, i).value;
    var b := Replace(s, i, f.(phase := SyncWait));
    CoupleKeepsRest(t, b, f.mod, f.rr);
    CoupleEffect(t, b, f.mod, f.rr, true);
  }

  /** The thread stays where it is. */
  lemma BothTop(s: State, n: State, i: ThreadId, f: Frame, g: Frame, m: ModuleId, k: nat)
    requires Top(s, i).Some? && n.threads == Replace(Replace(s, i, f), i, g).threads + Spawned(m, k)
    ensures i < |n.threads| && n.threads[i].alive == s.threads[i].alive && Top(n, i) == Some(g)
  {
  }

  lemma Grows(t: Topology, s: State, i: ThreadId)
    requires Loadable(t, s, i) && Loadable(t, AfterCouple(t, s, i), i)
    ensures var f, n := Top(s, i).value, AfterActivate(t, AfterCouple(t, s, i), i);
      && i < |n.threads| && n.threads[i].alive == s.threads[i].alive && Top(n, i) == Some(f.(phase := Activating(0)))
      && f.rr in n.regions && n.started == s.started
      && Grown(t, Base(s, i), Closed(n, i), {f.mod})
  {
    hide GrownManagers, GrownThreads, AfterCouple, AfterActivate, Replace, Spawned;
    BothSteps(t, s, i);
    var f, n := Top(s, i).value, AfterActivate(t, AfterCouple(t, s, i), i);
    BothTop(s, n, i, f.(phase := SyncWait), f.(phase := Activating(0)), f.mod, t.mods[f.mod].procs);
    GrowThreads(t, s, i, f.(phase := SyncWait), f.(phase := Activating(0)), f.mod, n.threads);
    assert Closed(n, i).regions == Base(s, i).regions;
    GrowManagers(t, Base(s, i), Closed(n, i), f.mod);
  }

  /** Coupling and activating: afterwards the nested regions are next. */
  lemma CoupleAndActivate(t: Topology, s: State, i: ThreadId)
    requires Valid(t) && Complementary(t) && Suspended(t, s, i) && s.started && Top(s, i).value.phase == LoadWait
    ensures Loadable(t, s, i) && Advance(t, s, i, 2).Done?
    ensures var f, n := Top(s, i).value, Advance(t, s, i, 2).state;
      && Suspended(t, n, i) && n.started && Top(n, i) == Some(f.(phase := Activating(0)))
      && f.rr in n.regions && Grown(t, Base(s, i), Closed(n, i), {f.mod})
  {
    hide During, Typed, Valid, Complementary, Layered, Overwriting, PreloadsBusy, AfterCouple, AfterActivate,
         Loadable, DoResume, Grown, Base, Closed, Next, Enabled;
    IsLoadable(t, s, i);
    WaitEnabled(t, s, i);
    OneStep(t, s, i);
    CoupleIs(t, s, i);
    CoupleTop(t, s, i);
    var s1 := AfterCouple(t, s, i);
    WaitEnabled(t, s1, i);
    OneStep(t, s1, i);
    ActivateIs(t, s1, i);
    var s2 := AfterActivate(t, s1, i);
    Grows(t, s, i);
    assert Advance(t, s1, i, 1) == Advance(t, s2, i, 0);
    assert Advance(t, s, i, 2) == Advance(t, s1, i, 1);
  }

  lemma CoupleKeepsRest(t: Topology, s: State, m: ModuleId, r: RegionId)
    requires m in t.mods && m in s.mods
    ensures var n := Couple(t, s, m, r, true); n.threads == s.threads && n.regions == s.regions && n.started == s.started
  {
  }

  lemma GrowManagers(t: Topology, s: State, n: State, m: ModuleId)
    requires m in t.mods && t.mods[m].home in s.mgrs && s.mgrs[t.mods[m].home].current.None?
    requires n.mgrs.Keys == s.mgrs.Keys && n.mgrs[t.mods[m].home].current == Some(m)
    requires forall d <- s.mgrs | d != t.mods[m].home :: n.mgrs[d].current == s.mgrs[d].current
    requires forall d <- s.mgrs | d !in t.mods[m].subs :: n.mgrs[d].rr == s.mgrs[d].rr
    ensures GrownManagers(t, s, n, {m})
  {
    assert HomeIn(t, {m}, t.mods[m].home) by { assert m in {m}; }
    forall d | d in t.mods[m].subs ensures SubOf(t, {m}, d) { assert m in {m}; }
  }

  /** Replacing the top entry twice, spawning and popping leaves what popping leaves, and more. */
  lemma GrowThreads(t: Topology, s: State, i: ThreadId, f: Frame, g: Frame, m: ModuleId, after: seq<Thread>)
    requires Top(s, i).Some? && m in t.mods && i < |after|
    requires after == Replace(Replace(s, i, f), i, g).threads + Spawned(m, t.mods[m].procs)
    ensures after[i].stack != []
    ensures GrownThreads(Pop(s, i).threads, after[i := after[i].(stack := after[i].stack[..|after[i].stack| - 1])], {m})
  {
    var rest := s.threads[i].stack[..|s.threads[i].stack| - 1];
    assert (rest + [f])[..|rest|] == rest;
    assert (rest + [g])[..|rest|] == rest;
  }

  // ---- a whole tree of modules -----------------------------------------------------------------------

  /** The modules a load will load belong to managers at or below that of the module. */
  lemma {:induction false} PreUnder(t: Topology, m: ModuleId, x: ModuleId)
    requires Layered(t) && m in t.mods && x in Pre(t, m)
    ensures x in t.mods && Under(t, t.mods[x].home, t.mods[m].home)
    decreases t.depth[t.mods[m].home], 1, 0
  {
    hide Layered, Under;
    UnderSelf(t, t.mods[m].home);
    if x != m { PreFromUnder(t, m, 0, x); }
  }

  lemma {:induction false} PreFromUnder(t: Topology, m: ModuleId, k: nat, x: ModuleId)
    requires Layered(t) && m in t.mods && k <= |t.mods[m].nested| && x in PreFrom(t, m, k)
    ensures x in t.mods && Under(t, t.mods[x].home, t.mods[m].home)
    decreases t.depth[t.mods[m].home], 0, |t.mods[m].nested| - k
  {
    hide Layered, Under;
    NestedChild(t, m, k);
    var c := t.root[t.mods[m].nested[k]];
    if c in t.preload { PreloadHome(t, c); }
    if c in t.preload && x in Pre(t, t.preload[c]) {
      PreUnder(t, t.preload[c], x);
      UnderTrans(t, t.mods[x].home, c, m);
    } else {
      PreFromUnder(t, m, k + 1, x);
    }
  }

  lemma NestedChild(t: Topology, m: ModuleId, k: nat)
    requires Layered(t) && m in t.mods && k < |t.mods[m].nested|
    ensures t.mods[m].nested[k] in t.root && t.root[t.mods[m].nested[k]] in t.mgrs
    ensures OwnedBy(t, t.root[t.mods[m].nested[k]], m)
  {
  }

  /** What happens beside a vacant subtree leaves it vacant. */
  lemma StillVacant(t: Topology, s: State, n: State, e: ManagerId, ms: set<ModuleId>)
    requires Vacant(t, s, e) && GrownManagers(t, s, n, ms) && n.regions.Keys == s.regions.Keys
    requires forall x <- ms :: x in t.mods && !Under(t, t.mods[x].home, e)
    requires forall r <- t.root | r in s.regions && Under(t, t.root[r], e) :: n.regions[r] == s.regions[r]
    ensures Vacant(t, n, e)
  {
    hide Under;
    forall d | d in s.mgrs && Under(t, d, e) ensures !HomeIn(t, ms, d) {}
  }

  /** A manager is not below its own children. */
  lemma NotUnderChild(t: Topology, c: ManagerId, d: ManagerId, m: ModuleId)
    requires OwnedBy(t, d, m) && t.mods[m].home == c
    ensures !Under(t, c, d)
  {
    if Under(t, c, d) { UnderLower(t, c, d); }
  }

  /** The region a manager works on is not below the children of its modules. */
  lemma OwnRegionApart(t: Topology, s: State, c: ManagerId, r: RegionId, d: ManagerId, m: ModuleId)
    requires Valid(t) && Stationed(t, s) && c in s.mgrs && c in t.mgrs && s.mgrs[c].rr == Some(r)
    requires OwnedBy(t, d, m) && t.mods[m].home == c
    ensures r in t.root && !Under(t, t.root[r], d)
  {
    hide Valid;
    NotBelow(t, c, r);
    NotUnderChild(t, c, d, m);
    if Under(t, t.root[r], d) { UnderTrans(t, t.root[r], d, m); }
  }

  lemma CloseGrown(t: Topology, p: State, n: State, i: ThreadId, ms: set<ModuleId>)
    requires Grown(t, p, n, ms) && Top(p, i).Some? && Top(p, i).value.Load? && Top(p, i).value.rr in p.regions
    ensures Top(n, i) == Top(p, i) && i < |n.threads| && n.threads[i] == p.threads[i] && Top(p, i).value.rr in n.regions
    ensures Grown(t, Closed(p, i), Closed(n, i), ms)
  {
    hide GrownManagers, FilledBy;
    SameGrown(t, p, n, Closed(p, i), Closed(n, i), ms);
  }

  lemma SameGrown(t: Topology, s: State, n: State, s1: State, n1: State, ms: set<ModuleId>)
    requires GrownManagers(t, s, n, ms) && s1.mgrs == s.mgrs && n1.mgrs == n.mgrs
    ensures GrownManagers(t, s1, n1, ms)
  {
    forall m | m in ms ensures FilledBy(t, s1, n1, m) { assert FilledBy(t, s, n, m); }
  }

  lemma GrownNone(t: Topology, s: State, i: ThreadId)
    ensures Grown(t, s, s, {})
  {
  }

  /** Claiming a vacant nested region for its preload module. */
  ghost function Claimed(t: Topology, p: State, i: ThreadId, w: RegionId): State
    requires i < |p.threads| && w in t.root && w in p.regions && t.root[w] in p.mgrs && t.root[w] in t.preload
  {
    Claim(SetBlocked(SetReconf(p, w, true), w, true), i, t.root[w], w, t.preload[t.root[w]])
  }

  lemma ClaimedBase(t: Topology, p: State, i: ThreadId, w: RegionId)
    requires i < |p.threads| && VacantRegion(t, p, w) && t.root[w] in t.preload
    ensures var q, c := Claimed(t, p, i, w), t.root[w];
      && Top(q, i) == Some(Load(c, w, t.preload[c], LoadWait)) && q.threads[i].alive == p.threads[i].alive
      && c in q.mgrs && w in q.regions && q.started == p.started
      && Base(q, i) == p
  {
    ClaimBase(p, i, t.root[w], w, t.preload[t.root[w]]);
  }

  lemma ClaimBase(p: State, i: ThreadId, c: ManagerId, w: RegionId, m: ModuleId)
    requires i < |p.threads| && w in p.regions && c in p.mgrs && p.mgrs[c].current.None?
    requires !p.regions[w].reconf && !p.regions[w].blocked
    ensures var q := Claim(SetBlocked(SetReconf(p, w, true), w, true), i, c, w, m);
      && Top(q, i) == Some(Load(c, w, m, LoadWait)) && q.threads[i].alive == p.threads[i].alive
      && c in q.mgrs && w in q.regions && q.started == p.started
      && Base(q, i) == p
  {
    var q, f := Claim(SetBlocked(SetReconf(p, w, true), w, true), i, c, w, m), Load(c, w, m, LoadWait);
    assert (p.threads[i].stack + [f])[..|p.threads[i].stack|] == p.threads[i].stack;
    assert Pop(q, i).threads == p.threads;
    assert Base(q, i).regions == p.regions;
    assert Base(q, i).mgrs == p.mgrs;
  }

  lemma PreloadIs(t: Topology, s: State, i: ThreadId, k: nat)
    requires Layered(t) && Typed(t, s) && Loadable(t, s, i) && Top(s, i).value.phase == Activating(k)
    requires Enabled(t, s, Resume(i)) && DoResume(t, s, i).Done? && k < |t.mods[Top(s, i).value.mod].nested|
    ensures var f := Top(s, i).value; var w := t.mods[f.mod].nested[k];
      && w in t.root && w in s.regions && t.root[w] in s.mgrs
      && DoResume(t, s, i).state ==
           if t.root[w] in t.preload then Claimed(t, Replace(s, i, f.(phase := Activating(k + 1))), i, w)
           else Replace(s, i, f.(phase := Activating(k + 1)))
  {
    hide Layered, Typed;
    KeysOf(t, s);
    NestedOf(t, Top(s, i).value.mod, k);
  }

  lemma FinishIs(t: Topology, s: State, i: ThreadId, k: nat)
    requires Layered(t) && Typed(t, s) && Suspended(t, s, i) && Loadable(t, s, i) && Top(s, i).value.phase == Activating(k)
    requires Enabled(t, s, Resume(i)) && DoResume(t, s, i).Done? && k >= |t.mods[Top(s, i).value.mod].nested|
    ensures DoResume(t, s, i).state == Closed(s, i)
  {
    hide ThreadsOk, HandlesOk, Counted, Exclusive, FlagsOk, CallsBound, Matching, LoadsOk, Homes, Roots, Connected,
         DecoupledOk, Stationed, Leftovers, WaitsOk, BlockedOk, SettledPart, SplitPart, PathOk, Layered, Typed;
    TopIn(t, s, i);
  }

  ghost predicate VacantRegion(t: Topology, s: State, w: RegionId) {
    && w in t.root && w in s.regions && t.root[w] in s.mgrs
    && s.regions[w] == Region(false, false, 0) && s.mgrs[t.root[w]].current.None?
  }

  /** Nothing stands in the way of the next nested preload. */
  lemma NextVacant(t: Topology, s: State, i: ThreadId, k: nat)
    requires Layered(t) && Typed(t, s) && Loadable(t, s, i) && Top(s, i).value.phase == Activating(k)
    requires VacantFrom(t, s, Top(s, i).value.mod, k)
    ensures !Overwriting(t, s, i) && !PreloadsBusy(t, s, i)
    ensures k < |t.mods[Top(s, i).value.mod].nested| ==> VacantRegion(t, s, t.mods[Top(s, i).value.mod].nested[k])
  {
    hide Layered, Typed, Under;
    KeysOf(t, s);
    var m := Top(s, i).value.mod;
    if k < |t.mods[m].nested| {
      NestedOf(t, m, k);
      assert Vacant(t, s, t.root[t.mods[m].nested[k]]);
      UnderSelf(t, t.root[t.mods[m].nested[k]]);
    }
  }

  /** From the load wait on, with nobody else running: the load ends, without failure, with
      exactly the preload closure loaded and everything else as before the load began. */
  lemma {:induction false} LoadRuns(t: Topology, s: State, i: ThreadId, m: ModuleId)
    requires Valid(t) && Complementary(t) && Suspended(t, s, i) && s.started
    requires Top(s, i).value.phase == LoadWait && Top(s, i).value.mod == m && m in t.mods && VacantFrom(t, s, m, 0)
    ensures Layered(t) && Loadable(t, s, i)
    ensures Ends(t, Base(s, i), Advance(t, s, i, Cost(t, m)), Pre(t, m))
    decreases if t.mods[m].home in t.depth then t.depth[t.mods[m].home] else 0, 1, 0, 0
  {
    hide During, Typed, Valid, Complementary, Layered, Grown, Base, Closed, Next, Enabled, Vacant, VacantFrom, Advance;
    LayeredOf(t);
    HomeDepth(t, m);
    CoupleAndActivate(t, s, i);
    var n := Advance(t, s, i, 2).state;
    VacantAfter(t, s, n, i);
    LoopRuns(t, n, i, m, 0);
    var e := Advance(t, n, i, CostFrom(t, m, 0)).state;
    AdvanceAdd(t, s, i, 2, CostFrom(t, m, 0));
    GrownTwice(t, Base(s, i), Closed(n, i), e, {m}, PreFrom(t, m, 0));
  }

  lemma HomeDepth(t: Topology, m: ModuleId)
    requires Layered(t) && m in t.mods
    ensures t.mods[m].home in t.depth
  {
  }

  /** Coupling and activating a module leaves its vacant nested regions vacant. */
  lemma VacantAfter(t: Topology, s: State, n: State, i: ThreadId)
    requires Valid(t) && Suspended(t, s, i) && Suspended(t, n, i) && Loadable(t, s, i)
    requires Top(s, i).value.rr in n.regions
    requires var f := Top(s, i).value;
      && Top(n, i) == Some(f.(phase := Activating(0)))
      && Grown(t, Base(s, i), Closed(n, i), {f.mod}) && VacantFrom(t, s, f.mod, 0)
    ensures VacantFrom(t, n, Top(s, i).value.mod, 0)
  {
    hide ThreadsOk, HandlesOk, Counted, Exclusive, FlagsOk, CallsBound, Matching, LoadsOk, Homes, Roots, Connected,
         DecoupledOk, Stationed, Leftovers, WaitsOk, BlockedOk, SettledPart, SplitPart, PathOk, Typed, Valid, Layered, Under, GrownManagers, GrownThreads,
         GrownModules, Vacant;
    LayeredOf(t);
    TopIn(t, s, i);
    KeysOf(t, s);
    var f := Top(s, i).value;
    var m := f.mod;
    forall j | 0 <= j < |t.mods[m].nested| && t.mods[m].nested[j] in t.root ensures Vacant(t, n, t.root[t.mods[m].nested[j]]) {
      NestedChild(t, m, j);
      var e := t.root[t.mods[m].nested[j]];
      VacantChild(t, s, n, i, e);
    }
  }

  lemma VacantChild(t: Topology, s: State, n: State, i: ThreadId, e: ManagerId)
    requires Valid(t) && Loadable(t, s, i) && Stationed(t, s) && Typed(t, s)
    requires var f := Top(s, i).value;
      && OwnedBy(t, e, f.mod) && f.rr in t.root && s.mgrs[f.mgr].rr == Some(f.rr)
      && Top(n, i) == Some(f.(phase := Activating(0))) && f.rr in n.regions
      && Grown(t, Base(s, i), Closed(n, i), {f.mod}) && Vacant(t, s, e)
    ensures Vacant(t, n, e)
  {
    hide Stationed, Valid, Under, GrownManagers, GrownThreads, GrownModules;
    var f := Top(s, i).value;
    KeysOf(t, s);
    NotUnderChild(t, f.mgr, e, f.mod);
    OwnRegionApart(t, s, f.mgr, f.rr, e, f.mod);
    BaseElsewhere(s, i);
    ClosedElsewhere(n, i);
    SameVacant(t, s, Base(s, i), f.mgr, e);
    hide Base;
    StillVacant(t, Base(s, i), Closed(n, i), e, {f.mod});
    BackToNow(t, Closed(n, i), n, e, f.rr);
  }

  lemma BaseElsewhere(s: State, i: ThreadId)
    requires Top(s, i).Some? && Top(s, i).value.Load? && Top(s, i).value.mgr in s.mgrs && Top(s, i).value.rr in s.regions
    ensures var f, b := Top(s, i).value, Base(s, i);
      && b.regions.Keys == s.regions.Keys && b.mgrs.Keys == s.mgrs.Keys
      && (forall w <- s.regions | w != f.rr :: b.regions[w] == s.regions[w])
      && (forall d <- s.mgrs | d != f.mgr :: b.mgrs[d] == s.mgrs[d])
  {
  }

  lemma ClosedElsewhere(n: State, i: ThreadId)
    requires Top(n, i).Some? && Top(n, i).value.Load? && Top(n, i).value.rr in n.regions
    ensures var f, b := Top(n, i).value, Closed(n, i);
      && b.regions.Keys == n.regions.Keys && b.mgrs == n.mgrs
      && forall w <- n.regions | w != f.rr :: b.regions[w] == n.regions[w]
  {
  }

  lemma BackToNow(t: Topology, b: State, n: State, e: ManagerId, r: RegionId)
    requires Vacant(t, b, e) && b.mgrs == n.mgrs && b.regions.Keys == n.regions.Keys && r in t.root && !Under(t, t.root[r], e)
    requires forall w <- n.regions | w != r :: b.regions[w] == n.regions[w]
    ensures Vacant(t, n, e)
  {
  }

  lemma SameVacant(t: Topology, s: State, n: State, c: ManagerId, e: ManagerId)
    requires Vacant(t, s, e) && !Under(t, c, e) && n.mgrs.Keys == s.mgrs.Keys && n.regions.Keys == s.regions.Keys
    requires forall d <- s.mgrs | d != c :: n.mgrs[d].current == s.mgrs[d].current
    requires forall r <- t.root | r in s.regions && Under(t, t.root[r], e) :: n.regions[r] == s.regions[r]
    ensures Vacant(t, n, e)
  {
  }

  lemma {:induction false} LoopRuns(t: Topology, s: State, i: ThreadId, m: ModuleId, k: nat)
    requires Valid(t) && Complementary(t) && Suspended(t, s, i) && s.started
    requires m in t.mods && Top(s, i).value.phase == Activating(k) && Top(s, i).value.mod == m && k <= |t.mods[m].nested|
    requires VacantFrom(t, s, m, k)
    ensures Layered(t) && Loadable(t, s, i)
    ensures Ends(t, Closed(s, i), Advance(t, s, i, CostFrom(t, m, k)), PreFrom(t, m, k))
    decreases if t.mods[m].home in t.depth then t.depth[t.mods[m].home] else 0, 0, |t.mods[m].nested| - k, 2
  {
    hide During, Typed, Valid, Complementary, Layered, Grown, Base, Closed, Next, Enabled, Vacant, VacantFrom, Overwriting,
         PreloadsBusy, Claimed;
    LayeredOf(t);
    HomeDepth(t, m);
    IsLoadable(t, s, i);
    WaitEnabled(t, s, i);
    assert Typed(t, s) by { TypedOf(t, s); }
    NextVacant(t, s, i, k);
    OneStep(t, s, i);
    if k == |t.mods[m].nested| {
      FinishIs(t, s, i, k);
      GrownNone(t, Closed(s, i), i);
      assert Advance(t, Closed(s, i), i, 0) == Done(Closed(s, i));
    } else {
      PreloadIs(t, s, i, k);
      ReplacedClosed(s, i, k + 1);
      LoopStep(t, s, i, m, k, Replace(s, i, Top(s, i).value.(phase := Activating(k + 1))), DoResume(t, s, i).state);
    }
  }

  lemma {:induction false} LoopStep(t: Topology, s: State, i: ThreadId, m: ModuleId, k: nat, p: State, q: State)
    requires Valid(t) && Complementary(t) && Suspended(t, s, i) && s.started && Loadable(t, s, i) && Layered(t) && Typed(t, s)
    requires m in t.mods && Top(s, i).value.phase == Activating(k) && Top(s, i).value.mod == m && k < |t.mods[m].nested|
    requires VacantFrom(t, s, m, k)
    requires VacantRegion(t, s, t.mods[m].nested[k])
    requires Enabled(t, s, Resume(i)) && Next(t, s, Resume(i)) == Done(q) && Inv(t, q)
    requires i < |p.threads| && p == Replace(s, i, Top(s, i).value.(phase := Activating(k + 1)))
    requires VacantRegion(t, p, t.mods[m].nested[k])
    requires q == if t.root[t.mods[m].nested[k]] in t.preload then Claimed(t, p, i, t.mods[m].nested[k]) else p
    ensures Ends(t, Closed(s, i), Advance(t, s, i, CostFrom(t, m, k)), PreFrom(t, m, k))
    decreases if t.mods[m].home in t.depth then t.depth[t.mods[m].home] else 0, 0, |t.mods[m].nested| - k, 1
  {
    hide During, Typed, Valid, Complementary, Layered, Ends, Closed, Base, Next, Enabled, Vacant, VacantFrom,
         Overwriting, PreloadsBusy, Claimed, Pre, PreFrom, Cost, CostFrom, Advance, WithStack, Push, Pop, Replace;
    HomeDepth(t, m);
    var c := t.root[t.mods[m].nested[k]];
    ReplacedClosed(s, i, k + 1);
    VacantMore(t, s, p, m, k);
    CostStep(t, m, k);
    if c in t.preload {
      PreloadHome(t, c);
      LoopPreload(t, p, i, m, k);
      AdvanceOnce(t, s, q, i, Cost(t, t.preload[c]) + CostFrom(t, m, k + 1));
    } else {
      LoopRuns(t, p, i, m, k + 1);
      AdvanceOnce(t, s, q, i, CostFrom(t, m, k + 1));
    }
  }

  lemma CostStep(t: Topology, m: ModuleId, k: nat)
    requires Layered(t) && m in t.mods && k < |t.mods[m].nested|
    ensures var c := t.root[t.mods[m].nested[k]];
      if c in t.preload then
        && CostFrom(t, m, k) == 1 + (Cost(t, t.preload[c]) + CostFrom(t, m, k + 1))
        && PreFrom(t, m, k) == Pre(t, t.preload[c]) + PreFrom(t, m, k + 1)
      else CostFrom(t, m, k) == 1 + CostFrom(t, m, k + 1) && PreFrom(t, m, k) == PreFrom(t, m, k + 1)
  {
    var none: set<ModuleId> := {};
    assert none + PreFrom(t, m, k + 1) == PreFrom(t, m, k + 1);
  }

  lemma AdvanceOnce(t: Topology, s: State, q: State, i: ThreadId, j: nat)
    requires Layered(t) && Typed(t, s) && Enabled(t, s, Resume(i)) && Next(t, s, Resume(i)) == Done(q)
    ensures Advance(t, s, i, 1 + j) == Advance(t, q, i, j)
  {
    hide Layered, Typed, Enabled, Next;
  }

  lemma ReplacedClosed(s: State, i: ThreadId, k: nat)
    requires Top(s, i).Some? && Top(s, i).value.Load? && Top(s, i).value.rr in s.regions
    ensures var f := Top(s, i).value;
      var p := Replace(s, i, f.(phase := Activating(k)));
      && Top(p, i) == Some(f.(phase := Activating(k))) && p.threads[i].alive == s.threads[i].alive && p.started == s.started
      && p.mgrs == s.mgrs && p.regions == s.regions
      && Closed(p, i) == Closed(s, i)
  {
    var p := Replace(s, i, Top(s, i).value.(phase := Activating(k)));
    assert Pop(p, i).threads == Pop(s, i).threads;
  }

  /** The next nested region preloads: first its module, then the rest of the loop. */
  lemma {:induction false} LoopPreload(t: Topology, p: State, i: ThreadId, m: ModuleId, k: nat)
    requires Valid(t) && Complementary(t) && Layered(t) && p.started
    requires m in t.mods && k < |t.mods[m].nested| && i < |p.threads| && p.threads[i].alive
    requires Top(p, i).Some? && Top(p, i).value.Load? && Top(p, i).value.mod == m && Top(p, i).value.rr in p.regions
    requires Top(p, i).value.phase == Activating(k + 1)
    requires VacantFrom(t, p, m, k) && VacantFrom(t, p, m, k + 1)
    requires VacantRegion(t, p, t.mods[m].nested[k])
    requires var w := t.mods[m].nested[k];
      && t.root[w] in t.preload && t.preload[t.root[w]] in t.mods && t.mods[t.preload[t.root[w]]].home == t.root[w]
      && Inv(t, Claimed(t, p, i, w))
    ensures var w := t.mods[m].nested[k]; var pm := t.preload[t.root[w]];
      Ends(t, Closed(p, i), Advance(t, Claimed(t, p, i, w), i, Cost(t, pm) + CostFrom(t, m, k + 1)),
           Pre(t, pm) + PreFrom(t, m, k + 1))
    decreases if t.mods[m].home in t.depth then t.depth[t.mods[m].home] else 0, 0, |t.mods[m].nested| - k, 0
  {
    hide During, Typed, Valid, Complementary, Layered, Grown, Closed, Base, Next, Enabled, Vacant, VacantFrom, Overwriting,
         PreloadsBusy, Claimed, Advance, Loadable, Pre, PreFrom, Cost, CostFrom, WithStack, Push, Pop, Replace;
    HomeDepth(t, m);
    ChildDepth(t, m, k);
    var w := t.mods[m].nested[k];
    var q, pm := Claimed(t, p, i, w), t.preload[t.root[w]];
    ClaimedBase(t, p, i, w);
    VacantClaimed(t, p, i, m, k);
    LoadRuns(t, q, i, pm);
    var n := Advance(t, q, i, Cost(t, pm)).state;
    CloseGrown(t, p, n, i, Pre(t, pm));
    VacantRest(t, p, n, m, k, pm);
    LoopRuns(t, n, i, m, k + 1);
    AdvanceAdd(t, q, i, Cost(t, pm), CostFrom(t, m, k + 1));
    var e := Advance(t, n, i, CostFrom(t, m, k + 1)).state;
    GrownTwice(t, Closed(p, i), Closed(n, i), e, Pre(t, pm), PreFrom(t, m, k + 1));
  }

  lemma VacantMore(t: Topology, s: State, p: State, m: ModuleId, k: nat)
    requires m in t.mods && VacantFrom(t, s, m, k) && p.mgrs == s.mgrs && p.regions == s.regions
    ensures VacantFrom(t, p, m, k) && VacantFrom(t, p, m, k + 1)
  {
    hide Under;
    forall j | k <= j < |t.mods[m].nested| && t.mods[m].nested[j] in t.root ensures Vacant(t, p, t.root[t.mods[m].nested[j]]) {
      assert Vacant(t, s, t.root[t.mods[m].nested[j]]);
    }
  }

  lemma ChildDepth(t: Topology, m: ModuleId, k: nat)
    requires Layered(t) && m in t.mods && k < |t.mods[m].nested| && t.mods[m].nested[k] in t.root
    ensures var c := t.root[t.mods[m].nested[k]];
      c in t.depth && t.mods[m].home in t.depth && t.depth[c] < t.depth[t.mods[m].home]
  {
  }

  /** Below the module that is claimed everything is still vacant. */
  lemma VacantClaimed(t: Topology, p: State, i: ThreadId, m: ModuleId, k: nat)
    requires Layered(t) && m in t.mods && k < |t.mods[m].nested| && VacantFrom(t, p, m, k) && i < |p.threads|
    requires var w := t.mods[m].nested[k]; w in t.root && w in p.regions && t.root[w] in p.mgrs && t.root[w] in t.preload
    ensures t.preload[t.root[t.mods[m].nested[k]]] in t.mods
    ensures var w := t.mods[m].nested[k];
      VacantFrom(t, Claimed(t, p, i, w), t.preload[t.root[w]], 0)
  {
    hide Layered, Under;
    var w := t.mods[m].nested[k];
    var c := t.root[w];
    PreloadHome(t, c);
    var pm := t.preload[c];
    assert Vacant(t, p, c);
    forall j | 0 <= j < |t.mods[pm].nested| && t.mods[pm].nested[j] in t.root
      ensures Vacant(t, Claimed(t, p, i, w), t.root[t.mods[pm].nested[j]])
    {
      NestedChild(t, pm, j);
      var e := t.root[t.mods[pm].nested[j]];
      NotUnderChild(t, c, e, pm);
      forall d | Under(t, d, e) ensures Under(t, d, c) { UnderTrans(t, d, e, pm); }
      assert Vacant(t, p, e);
      SameVacant(t, p, Claimed(t, p, i, w), c, e);
    }
  }

  /** Loading below one nested region leaves the next ones vacant. */
  lemma VacantRest(t: Topology, p: State, n: State, m: ModuleId, k: nat, pm: ModuleId)
    requires Valid(t) && Layered(t) && m in t.mods && k < |t.mods[m].nested| && VacantFrom(t, p, m, k + 1)
    requires t.mods[m].nested[k] in t.root && pm in t.mods && t.mods[pm].home == t.root[t.mods[m].nested[k]]
    requires Grown(t, p, n, Pre(t, pm))
    ensures VacantFrom(t, n, m, k + 1)
  {
    hide Valid, Layered, Under, GrownManagers, GrownModules, GrownThreads, Vacant;
    forall j | k + 1 <= j < |t.mods[m].nested| && t.mods[m].nested[j] in t.root
      ensures Vacant(t, n, t.root[t.mods[m].nested[j]])
    {
      var e, c := t.root[t.mods[m].nested[j]], t.mods[pm].home;
      NestedChild(t, m, j);
      NestedChild(t, m, k);
      NestedDiffer(t, m, k, j);
      assert Vacant(t, p, e);
      forall x | x in Pre(t, pm) ensures x in t.mods && !Under(t, t.mods[x].home, e) {
        PreUnder(t, pm, x);
        Siblings(t, t.mods[x].home, c, e, m);
      }
      StillVacant(t, p, n, e, Pre(t, pm));
    }
  }

  lemma NestedDiffer(t: Topology, m: ModuleId, k: nat, j: nat)
    requires Valid(t) && m in t.mods && k < j < |t.mods[m].nested| && t.mods[m].nested[k] in t.root && t.mods[m].nested[j] in t.root
    ensures t.root[t.mods[m].nested[k]] != t.root[t.mods[m].nested[j]]
  {
  }

  // ---- a configure over an empty subtree ---------------------------------------------------------------

  /** Manager `c` is connected to region `r`, and it and everything below it is empty and idle. */
  ghost predicate Unused(t: Topology, s: State, c: ManagerId, r: RegionId) {
    && c in t.mgrs && c in s.mgrs && s.mgrs[c].rr == Some(r) && r in t.root && r in s.regions
    && s.regions[r] == Region(false, false, 0) && Vacant(t, s, c)
  }

  lemma ConfigureClaims(t: Topology, s: State, i: ThreadId, c: ManagerId, r: RegionId, m: ModuleId)
    requires Valid(t) && Inv(t, s) && Free(s, i) && Unused(t, s, c, r) && m in t.mods && t.mods[m].home == c
    ensures Layered(t) && Typed(t, s)
    ensures DoConfigure(t, s, i, c, Some(m)) == Done(Claim(SetBlocked(SetReconf(s, r, true), r, true), i, c, r, m))
    ensures Inv(t, Claim(SetBlocked(SetReconf(s, r, true), r, true), i, c, r, m))
  {
    hide During, Valid, Layered, Typed;
    LayeredOf(t);
    TypedOf(t, s);
    UnderSelf(t, c);
    BeginTyped(t, s, r);
    ConfigureKeeps(t, s, i, c, Some(m));
    var b := SetBlocked(SetReconf(s, r, true), r, true);
    assert Unload(t, b, c, i) == Done(b);
  }

  lemma ClaimVacant(t: Topology, s: State, q: State, c: ManagerId, r: RegionId, m: ModuleId)
    requires Valid(t) && Inv(t, s) && Unused(t, s, c, r) && m in t.mods && t.mods[m].home == c
    requires q.mgrs == s.mgrs[c := Manager(Some(m), Some(r))] && q.regions.Keys == s.regions.Keys
    requires forall w <- s.regions | w != r :: q.regions[w] == s.regions[w]
    ensures VacantFrom(t, q, m, 0)
  {
    hide Typed, ThreadsOk, HandlesOk, Counted, Exclusive, FlagsOk, CallsBound, Matching, LoadsOk, Homes, Roots,
         Connected, DecoupledOk, Stationed, Leftovers, WaitsOk, BlockedOk, SettledPart, SplitPart, PathOk, Valid, Under, Layered;
    LayeredOf(t);
    forall j | 0 <= j < |t.mods[m].nested| && t.mods[m].nested[j] in t.root ensures Vacant(t, q, t.root[t.mods[m].nested[j]]) {
      NestedChild(t, m, j);
      var e := t.root[t.mods[m].nested[j]];
      NotUnderChild(t, c, e, m);
      OwnRegionApart(t, s, c, r, e, m);
      forall d | Under(t, d, e) ensures Under(t, d, c) { UnderTrans(t, d, e, m); }
      assert Vacant(t, s, e);
      SameVacant(t, s, q, c, e);
    }
  }

  /** Configuring module `m` into an empty, idle subtree, with nobody interfering, cannot fail
      and ends with exactly the preload closure of `m` added; no flag, counter or other thread is
      different from before. */
  lemma LoadsClosure(t: Topology, s: State, i: ThreadId, c: ManagerId, r: RegionId, m: ModuleId)
    requires Valid(t) && Complementary(t) && Inv(t, s) && s.started && Free(s, i)
    requires Unused(t, s, c, r) && m in t.mods && t.mods[m].home == c
    ensures Layered(t) && Typed(t, s) && DoConfigure(t, s, i, c, Some(m)).Done?
    ensures Ends(t, s, Advance(t, DoConfigure(t, s, i, c, Some(m)).state, i, Cost(t, m)), Pre(t, m))
  {
    hide During, Valid, Layered, Typed, Complementary, Ends, Advance, Cost, Pre, Base, DoConfigure;
    ConfigureClaims(t, s, i, c, r, m);
    var q := Claim(SetBlocked(SetReconf(s, r, true), r, true), i, c, r, m);
    UnderSelf(t, c);
    ClaimBase(s, i, c, r, m);
    ClaimVacant(t, s, q, c, r, m);
    LoadRuns(t, q, i, m);
  }

  // ---- what is loaded then ---------------------------------------------------------------------------------

  lemma {:induction false} UnderChain(t: Topology, a: ManagerId, b: ManagerId, c: ManagerId)
    requires Under(t, a, b) && Under(t, b, c)
    ensures Under(t, a, c)
    decreases if b in t.depth && c in t.depth && t.depth[b] < t.depth[c] then t.depth[c] - t.depth[b] else 0
  {
    if b != c {
      var n :| OwnedBy(t, b, n) && Under(t, t.mods[n].home, c);
      UnderTrans(t, a, b, n);
      UnderChain(t, a, t.mods[n].home, c);
    }
  }

  lemma {:induction false} PreInMods(t: Topology, n: State, c: ManagerId, y: ModuleId, x: ModuleId)
    requires Layered(t) && Typed(t, n) && c in t.mgrs && y in t.mods && y in Mods(t, n, c) && x in Pre(t, y)
    requires forall z | z in Pre(t, y) :: z in t.mods && t.mods[z].home in n.mgrs && n.mgrs[t.mods[z].home].current == Some(z)
    ensures x in Mods(t, n, c)
    decreases t.depth[t.mods[y].home], 1, 0
  {
    hide Layered, Typed, Mods;
    if x != y { PreFromInMods(t, n, c, y, 0, x); }
  }

  lemma {:induction false} PreFromInMods(t: Topology, n: State, c: ManagerId, y: ModuleId, k: nat, x: ModuleId)
    requires Layered(t) && Typed(t, n) && c in t.mgrs && y in t.mods && y in Mods(t, n, c)
    requires k <= |t.mods[y].nested| && x in PreFrom(t, y, k)
    requires forall z | z in PreFrom(t, y, k) :: z in t.mods && t.mods[z].home in n.mgrs && n.mgrs[t.mods[z].home].current == Some(z)
    ensures x in Mods(t, n, c)
    decreases t.depth[t.mods[y].home], 0, |t.mods[y].nested| - k
  {
    hide Layered, Typed, Mods;
    NestedChild(t, y, k);
    var d := t.root[t.mods[y].nested[k]];
    if d in t.preload { PreloadHome(t, d); }
    if d in t.preload && x in Pre(t, t.preload[d]) {
      assert t.preload[d] in Pre(t, t.preload[d]);
      ModsClosed(t, n, c, y, d, t.preload[d]);
      PreInMods(t, n, c, t.preload[d], x);
    } else {
      PreFromInMods(t, n, c, y, k + 1, x);
    }
  }

  /** The active subtree is exactly the preload closure. */
  lemma ModsArePre(t: Topology, s: State, n: State, c: ManagerId, m: ModuleId)
    requires Layered(t) && Typed(t, n) && c in t.mgrs && m in t.mods && t.mods[m].home == c
    requires Vacant(t, s, c) && Grown(t, s, n, Pre(t, m))
    ensures Mods(t, n, c) == Pre(t, m)
  {
    hide Layered, Typed, Mods, Under, GrownThreads, GrownModules;
    forall z | z in Pre(t, m) ensures z in t.mods && t.mods[z].home in n.mgrs && n.mgrs[t.mods[z].home].current == Some(z) {
      assert FilledBy(t, s, n, z);
    }
    CurrentIn(t, n, c, m);
    forall x ensures x in Mods(t, n, c) <==> x in Pre(t, m) {
      if x in Pre(t, m) { PreInMods(t, n, c, m, x); }
      if x in Mods(t, n, c) {
        ModsUnder(t, n, c, x);
        HomesOfPre(t, s, n, m, x);
      }
    }
  }

  lemma CurrentIn(t: Topology, n: State, c: ManagerId, m: ModuleId)
    requires Layered(t) && Typed(t, n) && c in t.mgrs && m in t.mods && t.mods[m].home == c && c in n.mgrs
    requires m in Pre(t, m) ==> n.mgrs[c].current == Some(m)
    ensures m in Mods(t, n, c)
  {
  }

  lemma HomesOfPre(t: Topology, s: State, n: State, m: ModuleId, x: ModuleId)
    requires Layered(t) && m in t.mods && x in t.mods && t.mods[x].home in n.mgrs && n.mgrs[t.mods[x].home].current == Some(x)
    requires GrownManagers(t, s, n, Pre(t, m)) && t.mods[x].home in s.mgrs && s.mgrs[t.mods[x].home].current.None?
    ensures x in Pre(t, m)
  {
    hide Layered, Pre;
    var d := t.mods[x].home;
    assert HomeIn(t, Pre(t, m), d);
    var y :| y in Pre(t, m) && y in t.mods && t.mods[y].home == d;
    assert FilledBy(t, s, n, y);
  }

  // ---- and unloading it again ----------------------------------------------------------------------------

  lemma {:induction false} MaskLess(threads: seq<Thread>, dead: set<ModuleId>, q: Query)
    ensures Tally(Masked(threads, dead), q) <= Tally(threads, q)
  {
    if threads != [] {
      var n := |threads| - 1;
      MaskLess(threads[..n], dead, q);
      assert Masked(threads, dead)[..n] == Masked(threads[..n], dead);
    }
  }

  /** Nothing about module `x` stands in the way of an unload by thread `me`. */
  ghost predicate Lockless(t: Topology, s: State, x: ModuleId, me: ThreadId) {
    && x in t.mods && t.mods[x].home in s.mgrs && me < |s.threads| && s.threads[me].owner != Some(x)
    && s.mgrs[t.mods[x].home].rr.Some? && Tally(s.threads, LockOn(s.mgrs[t.mods[x].home].rr.value)) == 0
    && forall j | 0 <= j < |t.mods[x].nested| :: t.mods[x].nested[j] in s.regions && !s.regions[t.mods[x].nested[j]].reconf
  }

  lemma {:induction false} ClearIf(t: Topology, s: State, c: ManagerId, dead: set<ModuleId>, me: ThreadId)
    requires Layered(t) && Typed(t, s) && c in t.mgrs && me < |s.threads|
    requires forall x | x in Mods(t, s, c) :: Lockless(t, s, x, me)
    ensures Clear(t, s, c, dead, me)
    decreases t.depth[c], 1, 0
  {
    hide Layered, Typed;
    KeysOf(t, s);
    if s.mgrs[c].current.Some? {
      HomeOf(t, s, c);
      assert Lockless(t, s, s.mgrs[c].current.value, me);
      MaskLess(s.threads, dead, LockOn(s.mgrs[c].rr.value));
      ClearFromIf(t, s, s.mgrs[c].current.value, 0, dead, me);
    }
  }

  lemma {:induction false} ClearFromIf(t: Topology, s: State, m: ModuleId, k: nat, dead: set<ModuleId>, me: ThreadId)
    requires Layered(t) && Typed(t, s) && m in t.mods && k <= Tasks(t.mods[m]) && me < |s.threads|
    requires Lockless(t, s, m, me) && forall x | x in ModsFrom(t, s, m, k) :: Lockless(t, s, x, me)
    ensures ClearFrom(t, s, m, k, dead, me)
    decreases t.depth[t.mods[m].home], 0, Tasks(t.mods[m]) - k
  {
    hide Layered, Typed;
    KeysOf(t, s);
    if k < Tasks(t.mods[m]) {
      ChildOwned(t, m, k);
      TaskIsOf(t, m, k);
      match TaskAt(t.mods[m], k)
      case DropSub(c) =>
        ClearIf(t, s, c, dead, me);
        ClearFromIf(t, s, m, k + 1, dead + Mods(t, s, c), me);
      case Kill => ClearFromIf(t, s, m, k + 1, dead + {m}, me);
      case DropNested(r) =>
        ClearIf(t, s, t.root[r], dead, me);
        ClearFromIf(t, s, m, k + 1, dead + Mods(t, s, t.root[r]), me);
    }
  }

  /** The processes of the modules that were loaded are new, and hold no locks. */
  lemma OnlyNewborn(t: Topology, s: State, m: ModuleId, c: ManagerId)
    requires Layered(t) && m in t.mods && t.mods[m].home == c && Typed(t, s) && ThreadsOk(s) && Homes(t, s) && Vacant(t, s, c)
    ensures forall j | 0 <= j < |s.threads| && s.threads[j].owner.Some? && s.threads[j].owner.value in Pre(t, m) ::
      !s.threads[j].alive && s.threads[j].stack == []
    ensures forall x | x in Pre(t, m) :: x in s.mods ==> s.mods[x] == Module(None, [])
  {
    hide Layered, Pre, Under;
    KeysOf(t, s);
    forall x | x in Pre(t, m) && x in s.mods ensures s.mods[x] == Module(None, []) {
      PreUnder(t, m, x);
    }
    forall j | 0 <= j < |s.threads| && s.threads[j].owner.Some? && s.threads[j].owner.value in Pre(t, m)
      ensures !s.threads[j].alive && s.threads[j].stack == []
    {
    }
  }

  lemma {:induction false} MaskSame(was: seq<Thread>, threads: seq<Thread>, ms: set<ModuleId>, q: Query)
    requires GrownThreads(was, threads, ms)
    requires forall j | 0 <= j < |was| && was[j].owner.Some? && was[j].owner.value in ms :: !was[j].alive && was[j].stack == []
    ensures |Masked(threads, ms)| == |threads| >= |was|
    ensures Masked(threads, ms)[..|was|] == was
    ensures Tally(Masked(threads, ms), q) == Tally(was, q)
    decreases |threads|
  {
    var n := |threads| - 1;
    if |threads| > |was| {
      MaskSame(was, threads[..n], ms, q);
      assert Masked(threads, ms)[..n] == Masked(threads[..n], ms);
      assert Newborn(threads[n], ms);
      assert Masked(threads, ms)[..|was|] == Masked(threads[..n], ms)[..|was|];
    } else {
      forall j | 0 <= j < |was| ensures Masked(threads, ms)[j] == was[j] {}
      assert Masked(threads, ms) == was;
    }
  }

  /** Every module of the closure other than `m` itself sits in the own manager of a region. */
  lemma {:induction false} PreRoot(t: Topology, m: ModuleId, x: ModuleId)
    requires Layered(t) && m in t.mods && x in Pre(t, m) && x != m
    ensures x in t.mods && exists w :: w in t.root && t.root[w] == t.mods[x].home
    decreases t.depth[t.mods[m].home], 1, 0
  {
    hide Layered;
    PreFromRoot(t, m, 0, x);
  }

  lemma {:induction false} PreFromRoot(t: Topology, m: ModuleId, k: nat, x: ModuleId)
    requires Layered(t) && m in t.mods && k <= |t.mods[m].nested| && x in PreFrom(t, m, k)
    ensures x in t.mods && exists w :: w in t.root && t.root[w] == t.mods[x].home
    decreases t.depth[t.mods[m].home], 0, |t.mods[m].nested| - k
  {
    hide Layered;
    NestedChild(t, m, k);
    var w := t.mods[m].nested[k];
    var d := t.root[w];
    if d in t.preload { PreloadHome(t, d); }
    if d in t.preload && x in Pre(t, t.preload[d]) {
      if x != t.preload[d] { PreRoot(t, t.preload[d], x); }
    } else {
      PreFromRoot(t, m, k + 1, x);
    }
  }

  lemma PreNotSplit(t: Topology, m: ModuleId)
    requires Layered(t) && m in t.mods
    ensures !SubOf(t, Pre(t, m), t.mods[m].home)
  {
    hide Pre, Under;
    if SubOf(t, Pre(t, m), t.mods[m].home) {
      var y :| y in Pre(t, m) && y in t.mods && t.mods[m].home in t.mods[y].subs;
      PreUnder(t, m, y);
      UnderLower(t, t.mods[y].home, t.mods[m].home);
      SubOwned(t, y, t.mods[m].home);
    }
  }

  /** Each module of the closure is on an idle region without locks. */
  lemma PreRegion(t: Topology, s: State, n: State, c: ManagerId, r: RegionId, m: ModuleId, x: ModuleId)
    requires Layered(t) && Roots(t, n) && Unused(t, s, c, r) && m in t.mods && t.mods[m].home == c && Typed(t, s)
    requires Grown(t, s, n, Pre(t, m)) && x in Pre(t, m)
    ensures x in t.mods && t.mods[x].home in n.mgrs && n.mgrs[t.mods[x].home].rr.Some?
    ensures var w := n.mgrs[t.mods[x].home].rr.value; w in t.root && w in n.regions && n.regions[w] == Region(false, false, 0)
  {
    hide Pre, Layered, Under, GrownModules, GrownThreads;
    KeysOf(t, s);
    PreUnder(t, m, x);
    assert FilledBy(t, s, n, x);
    PreNotSplit(t, m);
    if x != m { PreRoot(t, m, x); }
  }

  lemma PreNested(t: Topology, s: State, n: State, c: ManagerId, m: ModuleId, x: ModuleId, j: nat)
    requires Layered(t) && Vacant(t, s, c) && m in t.mods && t.mods[m].home == c && Typed(t, s)
    requires n.regions == s.regions && x in Pre(t, m) && x in t.mods && j < |t.mods[x].nested|
    ensures t.mods[x].nested[j] in n.regions && !n.regions[t.mods[x].nested[j]].reconf
  {
    hide Pre, Layered, Under;
    KeysOf(t, s);
    PreUnder(t, m, x);
    NestedChild(t, x, j);
    var e := t.root[t.mods[x].nested[j]];
    UnderSelf(t, e);
    UnderTrans(t, e, e, x);
    UnderChain(t, e, t.mods[x].home, c);
  }

  lemma PreLockless(t: Topology, s: State, n: State, i: ThreadId, c: ManagerId, r: RegionId, m: ModuleId, x: ModuleId)
    requires Valid(t) && Inv(t, s) && Free(s, i) && Unused(t, s, c, r) && m in t.mods && t.mods[m].home == c
    requires Inv(t, n) && Grown(t, s, n, Pre(t, m)) && x in Pre(t, m)
    ensures Lockless(t, n, x, i)
    ensures var w := n.mgrs[t.mods[x].home].rr.value; w in t.root && w in n.regions && n.regions[w] == Region(false, false, 0)
  {
    hide During, Pre, Layered, Valid, Under, GrownModules, GrownManagers, Typed, ThreadsOk, Homes, Connected, Matching, Vacant, Roots;
    LayeredOf(t);
    TypedOf(t, s);
    HomesOf(t, s);
    HomesOf(t, n);
    OnlyNewborn(t, s, m, c);
    PreRegion(t, s, n, c, r, m, x);
    forall j | 0 <= j < |t.mods[x].nested|
      ensures t.mods[x].nested[j] in n.regions && !n.regions[t.mods[x].nested[j]].reconf
    {
      PreNested(t, s, n, c, m, x, j);
    }
  }

  lemma Restored(t: Topology, s: State, n: State, e: State, c: ManagerId, m: ModuleId)
    requires Valid(t) && m in t.mods && t.mods[m].home == c && Vacant(t, s, c) && Inv(t, s) && Inv(t, n) && Inv(t, e)
    requires Grown(t, s, n, Pre(t, m)) && Taken(t, n, e, Pre(t, m), Pre(t, m), Subs(t, Pre(t, m)))
    ensures e.mgrs == s.mgrs && e.mods == s.mods && e.bound == s.bound
  {
    hide During, Valid, Pre, Under, GrownThreads, GrownManagers, Vacant, Taken, Typed, Homes, Connected, Matching, ThreadsOk, Layered;
    LayeredOf(t);
    TypedOf(t, s);
    TypedOf(t, n);
    HomesOf(t, s);
    OnlyNewborn(t, s, m, c);
    RestoredModules(t, s, n, e, Pre(t, m));
    RestoredManagers(t, s, n, e, Pre(t, m));
    BoundDetermined(t, s, e);
  }

  lemma RestoredModules(t: Topology, s: State, n: State, e: State, ms: set<ModuleId>)
    requires GrownModules(s, n, ms) && Taken(t, n, e, ms, ms, Subs(t, ms))
    requires forall x | x in ms :: x in s.mods ==> s.mods[x] == Module(None, [])
    ensures e.mods == s.mods
  {
    forall x <- s.mods ensures e.mods[x] == s.mods[x] {}
  }

  lemma RestoredManagers(t: Topology, s: State, n: State, e: State, ms: set<ModuleId>)
    requires GrownManagers(t, s, n, ms) && Taken(t, n, e, ms, ms, Subs(t, ms)) && Typed(t, n) && Connected(t, s)
    ensures e.mgrs == s.mgrs
  {
    hide GrownManagers, Taken, Typed, Connected;
    assert e.mgrs.Keys == s.mgrs.Keys by { SameKeys(t, s, n, e, ms); }
    forall d <- s.mgrs ensures e.mgrs[d] == s.mgrs[d] { RestoredManager(t, s, n, e, ms, d); }
  }

  lemma SameKeys(t: Topology, s: State, n: State, e: State, ms: set<ModuleId>)
    requires GrownManagers(t, s, n, ms) && Taken(t, n, e, ms, ms, Subs(t, ms))
    ensures e.mgrs.Keys == s.mgrs.Keys
  {
  }

  lemma HomeFilled(t: Topology, s: State, n: State, ms: set<ModuleId>, d: ManagerId)
    requires GrownManagers(t, s, n, ms) && HomeIn(t, ms, d)
    ensures d in n.mgrs && n.mgrs[d].current.Some? && n.mgrs[d].current.value in ms
  {
    var y :| y in ms && y in t.mods && t.mods[y].home == d;
    assert FilledBy(t, s, n, y);
  }

  lemma HomesOf(t: Topology, s: State)
    requires Inv(t, s)
    ensures ThreadsOk(s) && Homes(t, s) && Connected(t, s) && Matching(t, s) && Counted(s) && Roots(t, s)
  {
  }

  lemma RestoredManager(t: Topology, s: State, n: State, e: State, ms: set<ModuleId>, d: ManagerId)
    requires GrownManagers(t, s, n, ms) && Taken(t, n, e, ms, ms, Subs(t, ms)) && d in s.mgrs
    requires Typed(t, n) && Connected(t, s)
    ensures d in e.mgrs && e.mgrs[d] == s.mgrs[d]
  {
    hide Typed, Connected, FilledBy;
    if HomeIn(t, ms, d) {
      HomeFilled(t, s, n, ms, d);
      EmptyBefore(t, s, n, ms, d);
    } else if n.mgrs[d].current.Some? {
      HomeOf(t, n, d);
    }
    if SubOf(t, ms, d) { Disconnected(t, s, n, ms, d); }
  }

  lemma EmptyBefore(t: Topology, s: State, n: State, ms: set<ModuleId>, d: ManagerId)
    requires GrownManagers(t, s, n, ms) && HomeIn(t, ms, d)
    ensures d in s.mgrs && s.mgrs[d].current.None?
  {
    var y :| y in ms && y in t.mods && t.mods[y].home == d;
    assert FilledBy(t, s, n, y);
  }

  lemma Disconnected(t: Topology, s: State, n: State, ms: set<ModuleId>, d: ManagerId)
    requires GrownManagers(t, s, n, ms) && SubOf(t, ms, d) && Connected(t, s) && d in s.mgrs
    ensures s.mgrs[d].rr.None?
  {
    var y :| y in ms && y in t.mods && d in t.mods[y].subs;
    assert FilledBy(t, s, n, y);
  }

  /** The adapters' pointers are determined by where the modules are configured. */
  lemma BoundDetermined(t: Topology, s: State, e: State)
    requires Inv(t, s) && Inv(t, e) && e.mods == s.mods
    ensures e.bound == s.bound
  {
    hide During, ThreadsOk, Homes, Connected, Matching, Counted, Roots, Typed;
    HomesOf(t, s);
    HomesOf(t, e);
    MatchingDetermined(t, s, e);
  }

  lemma MatchingDetermined(t: Topology, s: State, e: State)
    requires Matching(t, s) && Matching(t, e) && e.mods == s.mods
    ensures e.bound == s.bound
  {
    forall k ensures k in e.bound <==> k in s.bound {}
    forall k <- s.bound ensures e.bound[k] == s.bound[k] {}
  }

  /** The counters after the unload are those before the load. */
  lemma RestoredRegions(t: Topology, s: State, n: State, e: State, ms: set<ModuleId>)
    requires Counted(s) && Counted(e) && n.regions == s.regions && Shrinks(n, e) && SameReconf(n, e)
    requires forall w :: Tally(e.threads, LockOn(w)) == Tally(s.threads, LockOn(w))
    ensures e.regions == s.regions
  {
    forall w <- s.regions ensures e.regions[w] == s.regions[w] {}
  }

  /** Round trip.  Configure `m` into an empty, idle subtree and unload it again, with nobody
      interfering: the load ends with exactly the preload closure of `m` loaded, coupled, active,
      unblocked and idle, the unload succeeds, and afterwards every pointer, flag, counter, handle
      and every existing thread is as it was; only dead processes have been added. */
  lemma RoundTrip(t: Topology, s: State, i: ThreadId, c: ManagerId, r: RegionId, m: ModuleId)
    requires Valid(t) && Complementary(t) && Inv(t, s) && s.started && Free(s, i)
    requires Unused(t, s, c, r) && m in t.mods && t.mods[m].home == c
    ensures Layered(t) && Typed(t, s) && DoConfigure(t, s, i, c, Some(m)).Done?
    ensures var o := Advance(t, DoConfigure(t, s, i, c, Some(m)).state, i, Cost(t, m));
      && o.Done? && Typed(t, o.state)
      && Mods(t, o.state, c) == Pre(t, m) && o.state.regions == s.regions
      && (forall x | x in Pre(t, m) :: Up(t, o.state, x))
      && DoUnload(t, o.state, i, c).Done?
      && Back(s, DoUnload(t, o.state, i, c).state)
  {
    hide During, Valid, Layered, Typed, Complementary, Grown, Advance, Cost, Pre, DoConfigure, DoUnload, Vacant, Mods, Back, Up;
    LoadsClosure(t, s, i, c, r, m);
    var n := Advance(t, DoConfigure(t, s, i, c, Some(m)).state, i, Cost(t, m)).state;
    TypedOf(t, n);
    UnusedIs(t, s, c, r);
    assert n.regions == s.regions by { GrownIs(t, s, n, Pre(t, m)); }
    ModsArePre(t, s, n, c, m);
    forall x | x in Pre(t, m) ensures Up(t, n, x) { IsUp(t, s, n, i, c, r, m, x); }
    UnloadsAgain(t, s, n, i, c, r, m);
  }

  lemma GrownIs(t: Topology, s: State, n: State, ms: set<ModuleId>)
    requires Grown(t, s, n, ms)
    ensures n.regions == s.regions && GrownManagers(t, s, n, ms) && GrownThreads(s.threads, n.threads, ms)
  {
  }

  lemma UnusedIs(t: Topology, s: State, c: ManagerId, r: RegionId)
    requires Unused(t, s, c, r)
    ensures c in t.mgrs && c in s.mgrs && s.mgrs[c].rr == Some(r) && r in t.root && r in s.regions
    ensures s.regions[r] == Region(false, false, 0) && Vacant(t, s, c)
  {
  }

  /** The module is current, coupled and active on a region that is idle and unblocked. */
  ghost predicate Up(t: Topology, s: State, x: ModuleId) {
    && x in t.mods && t.mods[x].home in s.mgrs && s.mgrs[t.mods[x].home].current == Some(x)
    && s.mgrs[t.mods[x].home].rr.Some?
    && var w := s.mgrs[t.mods[x].home].rr.value;
      Settled(t, s, x, w) && w in s.regions && !s.regions[w].reconf && !s.regions[w].blocked
  }

  lemma IsUp(t: Topology, s: State, n: State, i: ThreadId, c: ManagerId, r: RegionId, m: ModuleId, x: ModuleId)
    requires Valid(t) && Inv(t, s) && Free(s, i) && Unused(t, s, c, r) && m in t.mods && t.mods[m].home == c
    requires Inv(t, n) && Grown(t, s, n, Pre(t, m)) && x in Pre(t, m)
    ensures Up(t, n, x)
  {
    hide During, Valid, Pre, Unused, Free, GrownModules, GrownThreads;
    PreLockless(t, s, n, i, c, r, m, x);
    assert FilledBy(t, s, n, x);
    InvSound(t, n);
    RestIn(t, n, n.mgrs[t.mods[x].home].rr.value);
  }

  /** Every pointer, flag, counter and handle of `e` is that of `s`; the threads of `s` are
      unchanged and all further ones dead. */
  ghost predicate Back(s: State, e: State) {
    && e.mgrs == s.mgrs && e.mods == s.mods && e.bound == s.bound && e.regions == s.regions
    && |e.threads| >= |s.threads| && e.threads[..|s.threads|] == s.threads
    && forall j | |s.threads| <= j < |e.threads| :: !e.threads[j].alive && e.threads[j].stack == []
  }

  lemma UnloadsAgain(t: Topology, s: State, n: State, i: ThreadId, c: ManagerId, r: RegionId, m: ModuleId)
    requires Valid(t) && Inv(t, s) && Free(s, i) && Unused(t, s, c, r) && m in t.mods && t.mods[m].home == c
    requires Inv(t, n) && Grown(t, s, n, Pre(t, m)) && Layered(t) && Typed(t, n) && Mods(t, n, c) == Pre(t, m) && c in n.mgrs
    ensures DoUnload(t, n, i, c).Done? && Back(s, DoUnload(t, n, i, c).state)
  {
    hide During, Valid, Pre, Layered, Typed, Mods, GrownManagers, GrownModules, Vacant, Clear, Taken, Shrinks, SameReconf, UnloadModule;
    assert m in Pre(t, m) by { SelfIn(t, m); }
    PreLockless(t, s, n, i, c, r, m, m);
    forall x | x in Mods(t, n, c) ensures Lockless(t, n, x, i) { PreLockless(t, s, n, i, c, r, m, x); }
    ClearIf(t, n, c, {}, i);
    var w := n.mgrs[c].rr.value;
    InvSound(t, n);
    UnloadModuleExact(t, n, c, w, i, {}, {});
    UnloadModuleKeeps(t, n, c, w, i, {}, {});
    var e := UnloadModule(t, n, c, w, i).state;
    Restored(t, s, n, e, c, m);
    ThreadsBack(t, s, n, e, c, m);
  }

  lemma SelfIn(t: Topology, m: ModuleId)
    requires Layered(t) && m in t.mods
    ensures m in Pre(t, m)
  {
  }

  lemma ThreadsBack(t: Topology, s: State, n: State, e: State, c: ManagerId, m: ModuleId)
    requires Layered(t) && m in t.mods && t.mods[m].home == c && Vacant(t, s, c) && Inv(t, s) && Inv(t, e)
    requires Grown(t, s, n, Pre(t, m)) && Taken(t, n, e, Pre(t, m), Pre(t, m), Subs(t, Pre(t, m)))
    requires Shrinks(n, e) && SameReconf(n, e)
    ensures e.regions == s.regions && |e.threads| >= |s.threads| && e.threads[..|s.threads|] == s.threads
    ensures forall j | |s.threads| <= j < |e.threads| :: !e.threads[j].alive && e.threads[j].stack == []
  {
    hide During, Pre, Layered, Typed, GrownManagers, GrownModules, Vacant, Shrinks, SameReconf, ThreadsOk, Homes, Connected, Matching, Roots, Counted;
    TypedOf(t, s);
    HomesOf(t, s);
    HomesOf(t, e);
    OnlyNewborn(t, s, m, c);
    TakenThreads(t, n, e, Pre(t, m), Pre(t, m), Subs(t, Pre(t, m)));
    forall w ensures Tally(e.threads, LockOn(w)) == Tally(s.threads, LockOn(w)) {
      MaskSame(s.threads, n.threads, Pre(t, m), LockOn(w));
    }
    MaskSame(s.threads, n.threads, Pre(t, m), LockOn(0));
    RestoredRegions(t, s, n, e, Pre(t, m));
    forall j | |s.threads| <= j < |e.threads| ensures !e.threads[j].alive && e.threads[j].stack == [] {
      assert Newborn(n.threads[j], Pre(t, m));
    }
  }
}
