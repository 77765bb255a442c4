/** How a reconfiguration is orphaned: which requests are cut short, and what becomes of the
    regions whose reconfiguring process dies. */
module Orphans {
  import opened Model
  import opened Teardown
  import opened Invariants
  import opened Effects
  import opened UnloadSafety
  import opened Protocol
  import opened LoadEffects
  import opened Steps
  import opened Safety
  import opened Closure
  import opened Exactness
  import opened Guarantees
  import opened Interruption

  // ---- requests that are cut short -----------------------------------------------------------

  /** An unload request is cut short, rather than refused, exactly when its region is idle and the
      walk reaches the module of the requesting process with everything before it clear. */
  lemma UnloadRequestCut(t: Topology, s: State, i: ThreadId, c: ManagerId) returns (x: ModuleId)
    requires Valid(t) && Sound(t, s) && Free(s, i) && c in t.mgrs
    ensures Layered(t) && Typed(t, s)
    ensures var o := DoUnload(t, s, i, c);
      && (o.Aborted? <==> s.mgrs[c].rr.Some? && !s.regions[s.mgrs[c].rr.value].reconf && Cuts(t, s, c, {}, i))
      && (o.Aborted? ==> Mine(s, i, x) && x in Mods(t, s, c)
                         && Stopped(t, s, o, Marking(Walk(t, s, c, x), s.mgrs[c].rr.value), x, i) && Counted(o.state))
  {
    hide Valid, Layered, Typed, Cuts, Stopped, UnloadModule, ThreadsOk, HandlesOk, Counted, Exclusive, FlagsOk, CallsBound,
         Matching, LoadsOk, Tidy, Roots, DecoupledOk, Stationed, Leftovers, SettledPart, SplitPart;
    LayeredOf(t);
    KeysOf(t, s);
    x := 0;
    if s.mgrs[c].rr.Some? {
      x := ModuleCut(t, s, c, s.mgrs[c].rr.value, i, {}, {});
      UnloadModuleKeeps(t, s, c, s.mgrs[c].rr.value, i, {}, {}, false);
    }
  }

  /** The same for a request to configure another module. */
  lemma ConfigureCut(t: Topology, s: State, i: ThreadId, c: ManagerId, m: ModuleId) returns (x: ModuleId)
    requires Valid(t) && Sound(t, s) && Free(s, i) && c in t.mgrs && m in t.mods && t.mods[m].home == c
    ensures Layered(t) && Typed(t, s)
    ensures var o := DoConfigure(t, s, i, c, Some(m)); s.mgrs[c].current != Some(m) ==>
      && (o.Aborted? <==> s.mgrs[c].rr.Some? && !s.regions[s.mgrs[c].rr.value].reconf && Cuts(t, s, c, {}, i))
      && (o.Aborted? ==> Mine(s, i, x) && x in Mods(t, s, c)
                         && Stopped(t, s, o, Closing(Walk(t, s, c, x), s.mgrs[c].rr.value), x, i) && Counted(o.state))
  {
    hide During, Valid, Layered, Typed, Cuts, Stopped, Unload, Counted;
    LayeredOf(t);
    TypedOf(t, s);
    KeysOf(t, s);
    x := 0;
    if s.mgrs[c].current != Some(m) && s.mgrs[c].rr.Some? && !s.regions[s.mgrs[c].rr.value].reconf {
      NotBlocked(t, s, s.mgrs[c].rr.value);
      x := BegunCut(t, s, i, c, s.mgrs[c].rr.value);
    }
  }

  lemma NotBlocked(t: Topology, s: State, r: RegionId)
    requires Sound(t, s) && r in s.regions && !s.regions[r].reconf
    ensures !s.regions[r].blocked
  {
  }

  lemma BegunCut(t: Topology, s: State, i: ThreadId, c: ManagerId, r: RegionId) returns (x: ModuleId)
    requires Layered(t) && Typed(t, s) && c in t.mgrs && r in t.root && i < |s.threads| && s.threads[i].alive
    requires c in s.mgrs && s.mgrs[c].rr == Some(r) && r in s.regions && !s.regions[r].reconf
    requires Valid(t) && Sound(t, s)
    ensures var b := SetBlocked(SetReconf(s, r, true), r, true);
      && Typed(t, b)
      && (Unload(t, b, c, i).Aborted? <==> Cuts(t, s, c, {}, i))
      && (Unload(t, b, c, i).Aborted? ==>
            Mine(s, i, x) && x in Mods(t, s, c) && Stopped(t, s, Unload(t, b, c, i), Closing(Walk(t, s, c, x), r), x, i)
            && Counted(Unload(t, b, c, i).state))
  {
    hide Typed, ThreadsOk, HandlesOk, Counted, Exclusive, FlagsOk, CallsBound, Matching, LoadsOk, Tidy, Roots,
         DecoupledOk, Stationed, Leftovers, SettledPart, SplitPart, PathOk, Valid, Layered, CutOff;
    x := 0;
    var b := SetBlocked(SetReconf(s, r, true), r, true);
    BeginTyped(t, s, r);
    MaskNone(s.threads);
    CountIs(s, r);
    if s.mgrs[c].current.Some? && s.regions[r].count != 0 {
      assert !Cuts(t, s, c, {}, i);
      UnloadBusy(t, b, c, i);
    } else {
      BeginKeeps(t, s, c, r, false);
      MarkAgree(t, s, SetReconf(s, r, true), c, r);
      assert Agree(t, s, b, c);
      CutsAgree(t, s, b, c, {}, {}, i);
      var none: set<ModuleId> := {};
      assert none + none == none;
      x := UnloadCut(t, b, c, i, {r}, {});
      ModsAgree(t, s, b, c);
      WalkAgree(t, s, b, c, x);
      var o := Unload(t, b, c, i);
      UnloadKeeps(t, b, c, i, {r}, {}, false);
      if o.Aborted? { BegunMarks(t, s, o.state, r, Walk(t, s, c, x), UpTo(s.mods[x].handles, i)); }
    }
  }

  lemma BegunMarks(t: Topology, s: State, e: State, r: RegionId, w: Trace, doomed: set<ThreadId>)
    requires r in s.regions && CutOff(t, SetBlocked(SetReconf(s, r, true), r, true), e, w, doomed)
    ensures CutOff(t, s, e, Closing(w, r), doomed)
  {
  }

  // ---- loads of processes that die -----------------------------------------------------------------

  /** Each thread is as before or dead. */
  ghost predicate Pruned(was: seq<Thread>, threads: seq<Thread>) {
    |threads| == |was| && forall j | 0 <= j < |was| :: threads[j] == was[j] || threads[j] == Dead(was[j])
  }

  lemma {:induction false} PrunedTally(was: seq<Thread>, threads: seq<Thread>, q: Query)
    requires Pruned(was, threads)
    ensures Tally(threads, q) <= Tally(was, q)
  {
    if was != [] { PrunedTally(was[..|was| - 1], threads[..|was| - 1], q); }
  }

  lemma {:induction false} PrunedLoad(was: seq<Thread>, threads: seq<Thread>, j: nat, q: Query)
    requires Pruned(was, threads) && j < |was| && !threads[j].alive && threads[j] == Dead(was[j])
    ensures Tally(threads, q) + InStack(was[j].stack, q) <= Tally(was, q)
  {
    var n := |was| - 1;
    if j == n {
      PrunedTally(was[..n], threads[..n], q);
    } else {
      PrunedLoad(was[..n], threads[..n], j, q);
      PrunedTally(was[n..], threads[n..], q);
    }
  }

  /** A process that held the load on `r` is dead in `n`. */
  ghost predicate LoaderDied(s: State, n: State, r: RegionId) {
    exists j, a :: 0 <= j < |s.threads| && 0 <= a < |s.threads[j].stack| && s.threads[j].stack[a].Load?
                   && s.threads[j].stack[a].rr == r && j < |n.threads| && !n.threads[j].alive
  }

  /** If a region was marked, it is orphaned after its threads have been pruned exactly when it was
      before or the process loading on it has died. */
  lemma PrunedOrphan(s: State, n: State, r: RegionId)
    requires Exclusive(s) && Pruned(s.threads, n.threads) && r in s.regions && r in n.regions && n.regions[r].reconf
    requires s.regions[r].reconf
    requires forall j | 0 <= j < |s.threads| && !s.threads[j].alive :: s.threads[j].stack == []
    ensures Orphan(n, r) <==> Orphan(s, r) || LoaderDied(s, n, r)
  {
    PrunedTally(s.threads, n.threads, LoadOn(r));
    if LoaderDied(s, n, r) {
      var j, a :| 0 <= j < |s.threads| && 0 <= a < |s.threads[j].stack| && s.threads[j].stack[a].Load?
                  && s.threads[j].stack[a].rr == r && j < |n.threads| && !n.threads[j].alive;
      TallyMember(s.threads, j, a, LoadOn(r));
      PrunedLoad(s.threads, n.threads, j, LoadOn(r));
      assert Hit(s.threads[j].stack[a], LoadOn(r)) == 1;
    } else if Tally(s.threads, LoadOn(r)) > 0 {
      var j, a := TallyWitness(s.threads, LoadOn(r));
      assert n.threads[j] == s.threads[j];
      TallyMember(n.threads, j, a, LoadOn(r));
    }
  }

  // ---- requests --------------------------------------------------------------------------------------

  /** A request cut short has marked region `r` and left nobody to finish. */
  ghost predicate CutMark(s: State, o: Outcome, r: RegionId) {
    o.Aborted? && r in s.regions && !s.regions[r].reconf && r in o.state.regions && o.state.regions[r].reconf
  }

  /** How a region that is not orphaned becomes so. */
  ghost predicate Orphaned(s: State, o: Outcome, r: RegionId)
    requires !o.Failed?
  {
    Orphan(s, r) || LoaderDied(s, o.state, r) || CutMark(s, o, r)
  }

  lemma DeadEmpty(s: State)
    requires ThreadsOk(s)
    ensures forall j | 0 <= j < |s.threads| && !s.threads[j].alive :: s.threads[j].stack == []
  {
  }

  lemma AbortedPruned(t: Topology, s: State, o: Outcome, w: Trace, x: ModuleId, me: ThreadId)
    requires Stopped(t, s, o, w, x, me)
    ensures Pruned(s.threads, o.state.threads) && Marks(s, o.state, w)
  {
  }

  /** A request that is cut short. */
  lemma AbortedOrphan(t: Topology, s: State, o: Outcome, w: Trace, x: ModuleId, me: ThreadId, r: RegionId)
    requires Exclusive(s) && ThreadsOk(s) && r in s.regions && Stopped(t, s, o, w, x, me)
    ensures Orphan(o.state, r) <==> Orphaned(s, o, r)
  {
    hide ThreadsOk, Exclusive, CutOff;
    DeadEmpty(s);
    AbortedPruned(t, s, o, w, x, me);
    if s.regions[r].reconf {
      ExclusivePruned(s, o.state, r);
    } else {
      PrunedTally(s.threads, o.state.threads, LoadOn(r));
      IdleNoLoad(s, r);
      if LoaderDied(s, o.state, r) { NoLoader(s, o.state, r); }
    }
  }

  lemma ExclusivePruned(s: State, n: State, r: RegionId)
    requires Exclusive(s) && Pruned(s.threads, n.threads) && r in s.regions && r in n.regions && n.regions[r].reconf
    requires s.regions[r].reconf
    requires forall j | 0 <= j < |s.threads| && !s.threads[j].alive :: s.threads[j].stack == []
    ensures Orphan(n, r) <==> Orphan(s, r) || LoaderDied(s, n, r)
  {
    PrunedOrphan(s, n, r);
  }

  lemma IdleNoLoad(s: State, r: RegionId)
    requires Exclusive(s) && r in s.regions && !s.regions[r].reconf
    ensures Tally(s.threads, LoadOn(r)) == 0
  {
  }

  lemma NoLoader(s: State, n: State, r: RegionId)
    requires Tally(s.threads, LoadOn(r)) == 0
    ensures !LoaderDied(s, n, r)
  {
    if LoaderDied(s, n, r) {
      var j, a :| 0 <= j < |s.threads| && 0 <= a < |s.threads[j].stack| && s.threads[j].stack[a].Load?
                  && s.threads[j].stack[a].rr == r && j < |n.threads| && !n.threads[j].alive;
      TallyMember(s.threads, j, a, LoadOn(r));
    }
  }

  lemma ShrinksPruned(s: State, n: State)
    requires Shrinks(s, n)
    ensures Pruned(s.threads, n.threads)
  {
  }

  /** A completed unload leaves every mark as it was. */
  lemma DoneOrphan(s: State, n: State, r: RegionId)
    requires Exclusive(s) && ThreadsOk(s) && r in s.regions && Shrinks(s, n) && SameReconf(s, n)
    ensures Orphan(n, r) <==> Orphan(s, r) || LoaderDied(s, n, r)
  {
    hide ThreadsOk, Exclusive, Shrinks;
    DeadEmpty(s);
    ShrinksPruned(s, n);
    if s.regions[r].reconf {
      ExclusivePruned(s, n, r);
    } else {
      IdleNoLoad(s, r);
      NoLoader(s, n, r);
    }
  }

  lemma UnloadOrphan(t: Topology, s: State, i: ThreadId, c: ManagerId, r: RegionId)
    requires Valid(t) && Sound(t, s) && Free(s, i) && c in t.mgrs && r in s.regions
    ensures Layered(t) && Typed(t, s)
    ensures var o := DoUnload(t, s, i, c); !o.Failed? ==> (Orphan(o.state, r) <==> Orphaned(s, o, r))
  {
    hide Typed, ThreadsOk, HandlesOk, Counted, Exclusive, FlagsOk, CallsBound, Matching, LoadsOk, Tidy, Roots,
         DecoupledOk, Stationed, Leftovers, SettledPart, SplitPart, PathOk, Valid, Layered, Cuts, Stopped, Orphan, LoaderDied,
         Shrinks, SameReconf, UnloadModule;
    var x := UnloadRequestCut(t, s, i, c);
    KeysOf(t, s);
    var o := DoUnload(t, s, i, c);
    if o.Aborted? {
      AbortedOrphan(t, s, o, Marking(Walk(t, s, c, x), s.mgrs[c].rr.value), x, i, r);
    } else if o.Done? {
      UnloadModuleKeeps(t, s, c, s.mgrs[c].rr.value, i, {}, {}, false);
      DoneOrphan(s, o.state, r);
    }
  }

  lemma ConfigureOrphan(t: Topology, s: State, i: ThreadId, c: ManagerId, found: Option<ModuleId>, r: RegionId)
    requires Valid(t) && Sound(t, s) && Free(s, i) && c in t.mgrs && r in s.regions
    requires found.Some? ==> found.value in t.mods && t.mods[found.value].home == c
    ensures Layered(t) && Typed(t, s)
    ensures var o := DoConfigure(t, s, i, c, found); !o.Failed? ==> (Orphan(o.state, r) <==> Orphaned(s, o, r))
  {
    hide Typed, ThreadsOk, HandlesOk, Counted, Exclusive, FlagsOk, CallsBound, Matching, LoadsOk, Tidy, Roots,
         DecoupledOk, Stationed, Leftovers, SettledPart, SplitPart, PathOk, Valid, Layered, Cuts, Stopped, Orphan, LoaderDied,
         Shrinks, SameReconf, Unload;
    LayeredOf(t);
    TypedOf(t, s);
    KeysOf(t, s);
    var o := DoConfigure(t, s, i, c, found);
    if found.Some? && found != s.mgrs[c].current {
      var x := ConfigureCut(t, s, i, c, found.value);
      if o.Aborted? {
        AbortedOrphan(t, s, o, Closing(Walk(t, s, c, x), s.mgrs[c].rr.value), x, i, r);
      } else if o.Done? {
        var w := s.mgrs[c].rr.value;
        BegunOrphan(t, s, i, c, w, found.value, r);
        KeysOf(t, Unload(t, SetBlocked(SetReconf(s, w, true), w, true), c, i).state);
      }
    } else if o.Done? {
      SameOrphan(s, o.state, r);
    }
  }

  lemma SameOrphan(s: State, n: State, r: RegionId)
    requires ThreadsOk(s) && n.threads == s.threads
    ensures !LoaderDied(s, n, r)
  {
  }

  /** A configure that gets as far as the load wait. */
  lemma BegunOrphan(t: Topology, s: State, i: ThreadId, c: ManagerId, w: RegionId, m: ModuleId, r: RegionId)
    requires Layered(t) && Typed(t, s) && c in t.mgrs && w in t.root && i < |s.threads| && s.threads[i].alive
    requires c in s.mgrs && s.mgrs[c].rr == Some(w) && w in s.regions && !s.regions[w].reconf && r in s.regions
    requires Valid(t) && Sound(t, s)
    ensures var b := SetBlocked(SetReconf(s, w, true), w, true);
      && Typed(t, b)
      && (Unload(t, b, c, i).Done? && c in Unload(t, b, c, i).state.mgrs && i < |Unload(t, b, c, i).state.threads| ==>
            var n := Claim(Unload(t, b, c, i).state, i, c, w, m); Orphan(n, r) <==> Orphan(s, r) || LoaderDied(s, n, r))
  {
    hide Typed, HandlesOk, Counted, FlagsOk, CallsBound, Matching, LoadsOk, Tidy, Roots,
         DecoupledOk, Stationed, Leftovers, SettledPart, SplitPart, PathOk, Valid, Layered, Unload, Shrinks, ThreadsOk, Exclusive;
    var b := SetBlocked(SetReconf(s, w, true), w, true);
    BeginTyped(t, s, w);
    if s.mgrs[c].current.Some? && s.regions[w].count != 0 {
      UnloadBusy(t, b, c, i);
    } else {
      BeginKeeps(t, s, c, w, false);
      UnloadKeeps(t, b, c, i, {w}, {}, false);
      var o := Unload(t, b, c, i);
      if o.Done? && c in o.state.mgrs && i < |o.state.threads| {
        ClaimedOrphan(s, b, o.state, i, c, w, m, r);
      }
    }
  }

  lemma ClaimedOrphan(s: State, b: State, u: State, i: ThreadId, c: ManagerId, w: RegionId, m: ModuleId, r: RegionId)
    requires w in s.regions && b == SetBlocked(SetReconf(s, w, true), w, true) && !s.regions[w].reconf && r in s.regions
    requires Exclusive(s) && ThreadsOk(s) && Shrinks(b, u) && SameReconf(b, u)
    requires c in u.mgrs && i < |u.threads| && u.threads[i] == b.threads[i] && s.threads[i].alive
    ensures var n := Claim(u, i, c, w, m); Orphan(n, r) <==> Orphan(s, r) || LoaderDied(s, n, r)
  {
    hide ThreadsOk, Exclusive, Shrinks;
    var n := Claim(u, i, c, w, m);
    PushTally(SetCurrent(u, c, Some(m)), i, Load(c, w, m, LoadWait));
    DeadEmpty(s);
    ShrinksPruned(b, u);
    SameDead(s, u, n, i, r);
    if r == w {
      IdleNoLoad(s, r);
      NoLoader(s, n, r);
    } else if s.regions[r].reconf {
      ExclusivePruned(s, u, r);
    } else {
      IdleNoLoad(s, r);
      NoLoader(s, n, r);
    }
  }

  lemma SameDead(s: State, u: State, n: State, i: ThreadId, r: RegionId)
    requires |n.threads| == |u.threads| && i < |u.threads| && n.threads[i].alive == u.threads[i].alive
    requires forall j | 0 <= j < |u.threads| && j != i :: n.threads[j] == u.threads[j]
    ensures LoaderDied(s, n, r) <==> LoaderDied(s, u, r)
  {
  }

  // ---- all other steps ---------------------------------------------------------------------------------

  /** The mark of `r` and the loads on it are as before. */
  ghost predicate SameLoads(s: State, n: State, r: RegionId) {
    && r in s.regions && r in n.regions && n.regions[r].reconf == s.regions[r].reconf
    && Tally(n.threads, LoadOn(r)) == Tally(s.threads, LoadOn(r))
  }

  lemma CalmStart(t: Topology, s: State, c: ManagerId, r: RegionId)
    requires Layered(t) && Typed(t, s) && ThreadsOk(s) && c in t.mgrs && r in s.regions
    ensures var o := DoStartPreload(t, s, c); !o.Failed? ==> o.Done? && SameLoads(s, o.state, r)
  {
    hide Typed, Layered, CanCouple, SameLoads, ThreadsOk, Spawned;
    KeysOf(t, s);
    SpawnedCalm(s, s, 0, 0, r);
    var o := DoStartPreload(t, s, c);
    if c in t.preload && o.Done? {
      PreloadHome(t, c);
      SpawnedCalm(s, o.state, t.preload[c], t.mods[t.preload[c]].procs, r);
    }
  }

  lemma SpawnedCalm(s: State, n: State, m: ModuleId, k: nat, r: RegionId)
    requires ThreadsOk(s) && r in s.regions && n.regions == s.regions
    requires n == s || n.threads == s.threads + Spawned(m, k)
    ensures SameLoads(s, n, r)
  {
    SpawnTally(s.threads, m, k, LoadOn(r));
  }

  lemma CalmCall(s: State, i: ThreadId, w: RegionId, x: MemberId, m: ModuleId, r: RegionId)
    requires ThreadsOk(s) && i < |s.threads| && s.threads[i].alive && w in s.regions && r in s.regions
    ensures var o := DoCall(s, i, w, x, m); !o.Failed? ==> o.Done? && SameLoads(s, o.state, r)
  {
    PushTally(SetCount(s, w, s.regions[w].count + 1), i, Call(w, x, m));
  }

  lemma CalmReturn(s: State, i: ThreadId, r: RegionId)
    requires ThreadsOk(s) && Top(s, i).Some? && Top(s, i).value.Call? && s.threads[i].alive && r in s.regions
    ensures var o := DoReturn(s, i); !o.Failed? ==> o.Done? && SameLoads(s, o.state, r)
  {
    var w := Top(s, i).value.rr;
    if w in s.regions && s.regions[w].count != 0 {
      PopTally(SetCount(s, w, s.regions[w].count - 1), i);
    }
  }

  lemma CalmExit(s: State, i: ThreadId, r: RegionId)
    requires ThreadsOk(s) && i < |s.threads| && s.threads[i].stack == [] && r in s.regions
    ensures SameLoads(s, DoExit(s, i), r)
  {
    TallyUpdate(s.threads, i, Dead(s.threads[i]), LoadOn(r));
  }

  lemma CalmReplace(s: State, i: ThreadId, r: RegionId, phase: Phase)
    requires ThreadsOk(s) && Top(s, i).Some? && Top(s, i).value.Load? && s.threads[i].alive && r in s.regions
    ensures var n := Replace(s, i, Top(s, i).value.(phase := phase)); SameLoads(s, n, r)
    ensures Top(s, i).value.rr != r ==> SameLoads(s, Pop(s, i), r)
  {
    PopTally(s, i);
    PushTally(Pop(s, i), i, Top(s, i).value.(phase := phase));
  }

  lemma CalmCouple(t: Topology, s: State, b: State, m: ModuleId, w: RegionId, r: RegionId)
    requires m in t.mods && m in b.mods && SameLoads(s, b, r)
    ensures var n := Couple(t, b, m, w, true); SameLoads(s, n, r)
  {
  }

  lemma CalmActivate(t: Topology, s: State, b: State, m: ModuleId, w: RegionId, r: RegionId)
    requires m in t.mods && m in b.mods && w in b.regions && SameLoads(s, b, r)
    ensures var n := Activate(t, SetBlocked(b, w, false), m); SameLoads(s, n, r)
  {
    SpawnTally(b.threads, m, t.mods[m].procs, LoadOn(r));
  }

  /** A preload marks an idle region and leaves a load on it. */
  lemma CalmNested(t: Topology, s: State, b: State, i: ThreadId, w: RegionId, r: RegionId)
    requires Layered(t) && Typed(t, b) && i < |b.threads| && b.threads[i].alive && w in t.root && SameLoads(s, b, r)
    ensures var o := DoNestedPreload(t, b, i, w);
      !o.Failed? ==> o.Done? && (Orphan(o.state, r) <==> Orphan(s, r))
  {
    hide Typed, SameLoads, Orphan, SetBlocked, Claim;
    KeysOf(t, b);
    SameOrphans(s, b, r);
    if t.root[w] in t.preload && !b.regions[w].reconf {
      PreloadHome(t, t.root[w]);
      MarkedLoads(s, b, i, t.root[w], w, t.preload[t.root[w]], r);
    }
  }

  lemma MarkedLoads(s: State, b: State, i: ThreadId, c: ManagerId, w: RegionId, m: ModuleId, r: RegionId)
    requires i < |b.threads| && b.threads[i].alive && w in b.regions && !b.regions[w].reconf && c in b.mgrs
    requires SameLoads(s, b, r)
    ensures var n := Claim(SetBlocked(SetReconf(b, w, true), w, true), i, c, w, m);
      Orphan(n, r) <==> Orphan(s, r)
  {
    var e := SetCurrent(SetBlocked(SetReconf(b, w, true), w, true), c, Some(m));
    PushTallyOf(e, i, Load(c, w, m, LoadWait), LoadOn(r));
  }

  lemma SameOrphans(s: State, n: State, r: RegionId)
    requires SameLoads(s, n, r)
    ensures Orphan(n, r) <==> Orphan(s, r)
  {
  }

  lemma CalmResume(t: Topology, s: State, i: ThreadId, r: RegionId)
    requires Layered(t) && Typed(t, s) && Suspended(t, s, i, false) && r in s.regions
    requires Top(s, i).value.mgr in t.mgrs && Top(s, i).value.mod in t.mods
    ensures var o := DoResume(t, s, i);
      !o.Failed? ==> o.Done? && (Orphan(o.state, r) <==> Orphan(s, r))
  {
    hide Typed, ThreadsOk, HandlesOk, Counted, Exclusive, FlagsOk, CallsBound, Matching, LoadsOk, Tidy, Roots,
         DecoupledOk, Stationed, Leftovers, SettledPart, SplitPart, PathOk, Layered, CanCouple, Couple, Activate,
         DoNestedPreload, Orphan, SameLoads;
    KeysOf(t, s);
    TopIn(t, s, i, false);
    var f := Top(s, i).value;
    var o := DoResume(t, s, i);
    match f.phase
    case LoadWait =>
      CalmReplace(s, i, r, SyncWait);
      CalmCouple(t, s, Replace(s, i, f.(phase := SyncWait)), f.mod, f.rr, r);
      if o.Done? { SameOrphans(s, o.state, r); }
    case SyncWait =>
      CalmReplace(s, i, r, Activating(0));
      CalmActivate(t, s, Replace(s, i, f.(phase := Activating(0))), f.mod, f.rr, r);
      if o.Done? { SameOrphans(s, o.state, r); }
    case Activating(k) =>
      CalmReplace(s, i, r, Activating(k + 1));
      if k < |t.mods[f.mod].nested| {
        NestedOf(t, f.mod, k);
        ReplaceTyped(t, s, i, f.(phase := Activating(k + 1)));
        CalmNested(t, s, Replace(s, i, f.(phase := Activating(k + 1))), i, t.mods[f.mod].nested[k], r);
      } else {
        CalmFinish(s, i, r);
      }
  }

  lemma CalmFinish(s: State, i: ThreadId, r: RegionId)
    requires Top(s, i).Some? && Top(s, i).value.Load? && Top(s, i).value.rr in s.regions && r in s.regions
    requires Top(s, i).value.rr != r ==> SameLoads(s, Pop(s, i), r)
    ensures var n := SetReconf(Pop(s, i), Top(s, i).value.rr, false);
      Orphan(n, r) <==> Orphan(s, r)
  {
    TopOn(s, i);
  }

  /** The step orphans nothing. */
  ghost predicate Calm(s: State, o: Outcome, r: RegionId) {
    !o.Failed? ==> o.Done? && (Orphan(o.state, r) <==> Orphan(s, r))
  }

  lemma CalmStep(t: Topology, s: State, a: Action, r: RegionId)
    requires Valid(t) && Sound(t, s) && Enabled(t, s, a) && !a.Configure? && !a.UnloadRequest? && r in s.regions
    ensures Layered(t) && Typed(t, s) && Calm(s, Next(t, s, a), r)
  {
    hide During, Valid, Layered, Typed, Next, Enabled, Calm;
    LayeredOf(t);
    TypedOf(t, s);
    ThreadsOf(t, s);
    match a
    case StartPreload(c) => CalmStarts(t, s, c, r);
    case Resume(i) => CalmResumes(t, s, i, r);
    case _ => CalmCalls(t, s, a, r);
  }

  lemma ThreadsOf(t: Topology, s: State)
    requires Sound(t, s)
    ensures ThreadsOk(s)
  {
  }

  lemma CalmStarts(t: Topology, s: State, c: ManagerId, r: RegionId)
    requires Layered(t) && Typed(t, s) && ThreadsOk(s) && Enabled(t, s, StartPreload(c)) && r in s.regions
    ensures Calm(s, Next(t, s, StartPreload(c)), r)
  {
    hide Layered, Typed, ThreadsOk, Orphan, SameLoads, DoStartPreload;
    CalmStart(t, s, c, r);
    var o := DoStartPreload(t, s, c);
    if o.Done? { SameOrphans(s, o.state, r); }
  }

  lemma CalmResumes(t: Topology, s: State, i: ThreadId, r: RegionId)
    requires Layered(t) && Typed(t, s) && Enabled(t, s, Resume(i)) && r in s.regions
    requires Sound(t, s)
    ensures Calm(s, Next(t, s, Resume(i)), r)
  {
    hide Layered, Typed, During, Orphan, DoResume;
    StartedTyped(t, s);
    StartedKeeps(t, s, false);
    CalmResume(t, s.(started := true), i, r);
    var o := Next(t, s, Resume(i));
    if o.Done? { StartedOrphan(s, o.state, r); }
  }

  lemma CalmCalls(t: Topology, s: State, a: Action, r: RegionId)
    requires Layered(t) && Typed(t, s) && ThreadsOk(s) && Enabled(t, s, a) && r in s.regions
    requires a.Enter? || a.EnterOut? || a.Return? || a.Exit?
    ensures Calm(s, Next(t, s, a), r)
  {
    hide Layered, Typed, Orphan, SameLoads, DoCall, DoReturn, DoExit;
    KeysOf(t, s);
    StartedTyped(t, s);
    var b, o := s.(started := true), Next(t, s, a);
    match a {
      case Enter(i, w, x) => if (w, x) in b.bound { CalmCall(b, i, w, x, b.bound[(w, x)], r); }
      case EnterOut(i, m, x) =>
        if b.mods[m].configured.Some? { RegionOf(t, b, m); CalmCall(b, i, b.mods[m].configured.value, x, m, r); }
      case Return(i) => CalmReturn(b, i, r);
      case Exit(i) => CalmExit(b, i, r);
    }
    if o.Done? { SameStarted(s, o.state, r); }
  }

  lemma RegionOf(t: Topology, s: State, m: ModuleId)
    requires Typed(t, s) && m in s.mods && s.mods[m].configured.Some?
    ensures s.mods[m].configured.value in s.regions
  {
  }

  lemma SameStarted(s: State, n: State, r: RegionId)
    requires SameLoads(s.(started := true), n, r)
    ensures Orphan(n, r) <==> Orphan(s, r)
  {
  }

  lemma StartedOrphan(s: State, n: State, r: RegionId)
    requires Orphan(n, r) <==> Orphan(s.(started := true), r)
    ensures Orphan(n, r) <==> Orphan(s, r)
  {
  }

  // ---- who dies, read off the state before ---------------------------------------------------------------

  /** The thread and the manager of a request that may unload something. */
  function RequestOf(s: State, a: Action): Option<(ThreadId, ManagerId)> {
    match a
    case Configure(i, c, found) => if found.Some? && c in s.mgrs && found != s.mgrs[c].current then Some((i, c)) else None
    case UnloadRequest(i, c) => Some((i, c))
    case _ => None
  }

  /** The module of the requesting process, and what the walk has done when it gets there. */
  ghost function CutTrace(t: Topology, s: State, c: ManagerId, i: ThreadId): Trace
    requires Layered(t) && Typed(t, s) && c in t.mgrs && i < |s.threads|
  {
    if s.threads[i].owner.Some? then Walk(t, s, c, s.threads[i].owner.value) else NOTHING
  }

  /** Process `j` dies in an unload from manager `c` executed by `i`: it is one of a module the unload
      takes out, or, when the unload is cut short, of a module the walk has killed before, or one of
      those of the executing process's own module the loop over the handles comes to first. */
  ghost predicate Victim(t: Topology, s: State, c: ManagerId, i: ThreadId, j: ThreadId)
    requires Layered(t) && Typed(t, s) && c in t.mgrs && i < |s.threads|
  {
    && j < |s.threads|
    && if Clear(t, s, c, {}, i) then Slays(s.threads[j], Mods(t, s, c))
       else Cuts(t, s, c, {}, i)
            && (Slays(s.threads[j], CutTrace(t, s, c, i).slain)
                || (s.threads[i].owner.Some? && s.threads[i].owner.value in s.mods
                    && j in UpTo(s.mods[s.threads[i].owner.value].handles, i)))
  }

  /** A process that dies is loading on `r`. */
  ghost predicate LosesLoad(t: Topology, s: State, c: ManagerId, i: ThreadId, r: RegionId)
    requires Layered(t) && Typed(t, s) && c in t.mgrs && i < |s.threads|
  {
    exists j, a :: 0 <= j < |s.threads| && 0 <= a < |s.threads[j].stack| && s.threads[j].stack[a].Load?
                   && s.threads[j].stack[a].rr == r && Victim(t, s, c, i, j)
  }

  /** The request is cut short, and `r` is its own region or one the walk marks on the way. */
  ghost predicate LeavesMark(t: Topology, s: State, c: ManagerId, i: ThreadId, r: RegionId)
    requires Layered(t) && Typed(t, s) && c in t.mgrs && i < |s.threads|
  {
    && Cuts(t, s, c, {}, i) && r in s.regions && !s.regions[r].reconf
    && (s.mgrs[c].rr == Some(r) || r in CutTrace(t, s, c, i).marked)
  }

  /** What makes a step orphan region `r`, read off the state before it. */
  ghost predicate Orphans(t: Topology, s: State, a: Action, r: RegionId)
    requires Layered(t) && Typed(t, s) && Enabled(t, s, a)
  {
    match RequestOf(s, a)
    case None => false
    case Some(q) => LosesLoad(t, s, q.1, q.0, r) || LeavesMark(t, s, q.1, q.0, r)
  }

  /** Of the live processes exactly the victims are dead in `n`. */
  ghost predicate Falls(t: Topology, s: State, c: ManagerId, i: ThreadId, n: State)
    requires Layered(t) && Typed(t, s) && c in t.mgrs && i < |s.threads|
  {
    && |s.threads| <= |n.threads|
    && forall j | 0 <= j < |s.threads| && s.threads[j].alive :: !n.threads[j].alive <==> Victim(t, s, c, i, j)
  }

  lemma MaskedFalls(t: Topology, s: State, c: ManagerId, i: ThreadId, threads: seq<Thread>, n: State)
    requires Layered(t) && Typed(t, s) && c in t.mgrs && i < |s.threads| && Clear(t, s, c, {}, i)
    requires threads == Masked(s.threads, Mods(t, s, c)) && |n.threads| == |threads|
    requires forall j | 0 <= j < |threads| :: n.threads[j].alive == threads[j].alive
    ensures Falls(t, s, c, i, n)
  {
    hide Layered, Typed, Clear, Mods;
  }

  lemma CutFalls(t: Topology, s: State, c: ManagerId, i: ThreadId, o: Outcome, w: Trace, x: ModuleId)
    requires Layered(t) && Typed(t, s) && c in t.mgrs && Mine(s, i, x) && Stopped(t, s, o, w, x, i)
    requires w.slain == Walk(t, s, c, x).slain && Cuts(t, s, c, {}, i) && !Clear(t, s, c, {}, i)
    ensures Falls(t, s, c, i, o.state)
  {
    hide Layered, Typed, Clear, Cuts, Mods, Walk;
  }

  /** Then a load has died exactly when a victim held it. */
  lemma FallsLoads(t: Topology, s: State, c: ManagerId, i: ThreadId, n: State, r: RegionId)
    requires Layered(t) && Typed(t, s) && c in t.mgrs && i < |s.threads| && ThreadsOk(s) && Falls(t, s, c, i, n)
    ensures LoaderDied(s, n, r) <==> LosesLoad(t, s, c, i, r)
  {
    hide Layered, Typed, ThreadsOk, Victim;
    DeadEmpty(s);
  }

  lemma CutMarks(t: Topology, s: State, c: ManagerId, i: ThreadId, o: Outcome, x: ModuleId, w: Trace, r: RegionId)
    requires Layered(t) && Typed(t, s) && c in t.mgrs && Mine(s, i, x) && Stopped(t, s, o, w, x, i) && r in s.regions
    requires Cuts(t, s, c, {}, i) && s.mgrs[c].rr.Some? && w.marked == {s.mgrs[c].rr.value} + Walk(t, s, c, x).marked
    ensures CutMark(s, o, r) <==> LeavesMark(t, s, c, i, r)
  {
    hide Layered, Typed, Cuts, Walk, CutPointers, CutBindings, CutThreads;
  }

  /** What a request that does not fail does to loads and marks. */
  ghost predicate Foreseen(t: Topology, s: State, c: ManagerId, i: ThreadId, o: Outcome, r: RegionId)
    requires Layered(t) && Typed(t, s) && c in t.mgrs && i < |s.threads|
  {
    !o.Failed? ==>
      && (LoaderDied(s, o.state, r) <==> LosesLoad(t, s, c, i, r))
      && (CutMark(s, o, r) <==> LeavesMark(t, s, c, i, r))
  }

  lemma UnloadForeseen(t: Topology, s: State, i: ThreadId, c: ManagerId, r: RegionId)
    requires Valid(t) && Sound(t, s) && Free(s, i) && c in t.mgrs && r in s.regions
    ensures Layered(t) && Typed(t, s) && Foreseen(t, s, c, i, DoUnload(t, s, i, c), r)
  {
    hide Typed, ThreadsOk, HandlesOk, Counted, Exclusive, FlagsOk, CallsBound, Matching, LoadsOk, Tidy, Roots,
         DecoupledOk, Stationed, Leftovers, SettledPart, SplitPart, Valid, Layered, Cuts, Clear, Mods, Walk, Stopped, LoaderDied,
         LosesLoad, LeavesMark, CutMark, Falls, UnloadModule;
    var x := UnloadRequestCut(t, s, i, c);
    KeysOf(t, s);
    var o := DoUnload(t, s, i, c);
    if s.mgrs[c].rr.Some? { UnloadModuleExact(t, s, c, s.mgrs[c].rr.value, i, {}, {}); }
    if o.Aborted? {
      var w := Marking(Walk(t, s, c, x), s.mgrs[c].rr.value);
      CutFalls(t, s, c, i, o, w, x);
      CutMarks(t, s, c, i, o, x, w, r);
      FallsLoads(t, s, c, i, o.state, r);
    } else if o.Done? {
      var ms := Mods(t, s, c);
      TakenThreads(t, s, o.state, ms, ms, Subs(t, ms));
      MaskedFalls(t, s, c, i, o.state.threads, o.state);
      FallsLoads(t, s, c, i, o.state, r);
      ClearNotCut(t, s, c, i, r, o);
    }
  }

  lemma ClearNotCut(t: Topology, s: State, c: ManagerId, i: ThreadId, r: RegionId, o: Outcome)
    requires Layered(t) && Typed(t, s) && c in t.mgrs && i < |s.threads| && !Cuts(t, s, c, {}, i) && o.Done?
    ensures CutMark(s, o, r) <==> LeavesMark(t, s, c, i, r)
  {
  }

  lemma ConfigureForeseen(t: Topology, s: State, i: ThreadId, c: ManagerId, m: ModuleId, r: RegionId)
    requires Valid(t) && Sound(t, s) && Free(s, i) && c in t.mgrs && r in s.regions && m in t.mods && t.mods[m].home == c
    requires c in s.mgrs && s.mgrs[c].current != Some(m)
    ensures Layered(t) && Typed(t, s) && Foreseen(t, s, c, i, DoConfigure(t, s, i, c, Some(m)), r)
  {
    hide Typed, ThreadsOk, HandlesOk, Counted, Exclusive, FlagsOk, CallsBound, Matching, LoadsOk, Tidy, Roots,
         DecoupledOk, Stationed, Leftovers, SettledPart, SplitPart, Valid, Layered, Cuts, Clear, Mods, Walk, Stopped, LoaderDied,
         LosesLoad, LeavesMark, CutMark, Falls, Unload;
    var x := ConfigureCut(t, s, i, c, m);
    KeysOf(t, s);
    var o := DoConfigure(t, s, i, c, Some(m));
    if s.mgrs[c].rr.Some? && !s.regions[s.mgrs[c].rr.value].reconf { ConfigureUnload(t, s, i, c, s.mgrs[c].rr.value); }
    if o.Aborted? {
      var w := Closing(Walk(t, s, c, x), s.mgrs[c].rr.value);
      CutFalls(t, s, c, i, o, w, x);
      CutMarks(t, s, c, i, o, x, w, r);
      FallsLoads(t, s, c, i, o.state, r);
    } else if o.Done? {
      MaskedFalls(t, s, c, i, Masked(s.threads, Mods(t, s, c)), o.state);
      FallsLoads(t, s, c, i, o.state, r);
      ClearNotCut(t, s, c, i, r, o);
    }
  }

  /** Whether the simulation has started makes no difference to it. */
  lemma ForeseenStarted(t: Topology, s: State, c: ManagerId, i: ThreadId, o: Outcome, r: RegionId)
    requires Layered(t) && Typed(t, s) && c in t.mgrs && i < |s.threads|
    requires Typed(t, s.(started := true)) && Foreseen(t, s.(started := true), c, i, o, r)
    ensures Foreseen(t, s, c, i, o, r)
  {
    hide Layered, Typed, Clear, Cuts, Mods, Walk;
    var b := s.(started := true);
    SameView(t, s, b, c);
    MaskNone(s.threads);
    var none: set<ModuleId> := {};
    assert none + none == none;
    ClearAgree(t, s, b, c, {}, {}, i);
    CutsAgree(t, s, b, c, {}, {}, i);
    ModsAgree(t, s, b, c);
    if s.threads[i].owner.Some? { WalkAgree(t, s, b, c, s.threads[i].owner.value); }
    forall j ensures Victim(t, b, c, i, j) <==> Victim(t, s, c, i, j) {}
    assert LosesLoad(t, b, c, i, r) <==> LosesLoad(t, s, c, i, r);
    if !o.Failed? { assert LoaderDied(b, o.state, r) <==> LoaderDied(s, o.state, r); }
  }

  // ---- over whole runs ---------------------------------------------------------------------------------

  /** A region is orphaned after a step exactly when it was before, or the step is a request that kills
      the process loading on it, or one that is cut short after it has marked it.  Which processes a
      request kills and which regions it marks is read off the state before the step. */
  lemma OrphanBirth(t: Topology, states: seq<State>, actions: seq<Action>, n: nat, r: RegionId)
    requires Valid(t) && Run(t, states, actions) && n < |actions| && r in t.root
    ensures Layered(t) && Typed(t, states[n]) && Enabled(t, states[n], actions[n])
    ensures Orphan(states[n + 1], r) <==> Orphan(states[n], r) || Orphans(t, states[n], actions[n], r)
  {
    hide During, Valid, Next, Typed, Layered, Orphan, Orphans, Enabled;
    assert Moves(t, states[n], actions[n], states[n + 1]);
    RunSound(t, states, actions, n);
    OrphanStep(t, states[n], actions[n], r);
  }

  /** No step ever takes an orphaned region back: it stays marked and nobody loads on it. */
  lemma OrphanStays(t: Topology, s: State, a: Action, r: RegionId)
    requires Valid(t) && Sound(t, s) && Enabled(t, s, a) && Orphan(s, r)
    ensures Layered(t) && Typed(t, s)
    ensures var o := Next(t, s, a); !o.Failed? ==> Orphan(o.state, r)
  {
    hide During, Valid, Typed, Layered, Next, Enabled, Orphans;
    TypedOf(t, s);
    KeysOf(t, s);
    OrphanStep(t, s, a, r);
  }

  /** Over whole runs: once orphaned, always orphaned. */
  lemma {:induction false} OrphanForever(t: Topology, states: seq<State>, actions: seq<Action>, n: nat, k: nat, r: RegionId)
    requires Valid(t) && Run(t, states, actions) && n <= k < |states| && Orphan(states[n], r)
    ensures Orphan(states[k], r)
    decreases k
  {
    hide During, Valid, Next, Typed, Orphan;
    if n < k {
      OrphanForever(t, states, actions, n, k - 1, r);
      RunSound(t, states, actions, k - 1);
      assert Moves(t, states[k - 1], actions[k - 1], states[k]);
      OrphanStays(t, states[k - 1], actions[k - 1], r);
    }
  }

  lemma OrphanStep(t: Topology, s: State, a: Action, r: RegionId)
    requires Valid(t) && Sound(t, s) && Enabled(t, s, a) && r in t.root
    ensures Layered(t) && Typed(t, s)
    ensures var o := Next(t, s, a); !o.Failed? ==> (Orphan(o.state, r) <==> Orphan(s, r) || Orphans(t, s, a, r))
  {
    hide During, Valid, Typed, Layered, Orphan, LoaderDied, Next, Enabled, Orphans;
    LayeredOf(t);
    TypedOf(t, s);
    KeysOf(t, s);
    if a.Configure? || a.UnloadRequest? {
      RequestOrphan(t, s, a, r);
    } else {
      CalmStep(t, s, a, r);
      NoRequest(t, s, a, r);
    }
  }

  lemma NoRequest(t: Topology, s: State, a: Action, r: RegionId)
    requires Layered(t) && Typed(t, s) && Enabled(t, s, a) && !a.Configure? && !a.UnloadRequest?
    ensures !Orphans(t, s, a, r)
  {
  }

  lemma RequestOrphan(t: Topology, s: State, a: Action, r: RegionId)
    requires Layered(t) && Typed(t, s) && Enabled(t, s, a) && (a.Configure? || a.UnloadRequest?) && r in s.regions
    requires Valid(t) && Sound(t, s)
    ensures var o := Next(t, s, a); !o.Failed? ==> (Orphan(o.state, r) <==> Orphan(s, r) || Orphans(t, s, a, r))
  {
    hide During, Valid, Typed, Layered, Orphan, Orphaned, DoConfigure, DoUnload, Foreseen, Orphans;
    StartedTyped(t, s);
    StartedKeeps(t, s, false);
    KeysOf(t, s);
    var b, o := s.(started := true), Next(t, s, a);
    match a {
      case Configure(i, c, found) =>
        ConfigureOrphan(t, b, i, c, found, r);
        if found.Some? && found != s.mgrs[c].current { ConfigureForeseen(t, b, i, c, found.value, r); }
      case UnloadRequest(i, c) =>
        UnloadOrphan(t, b, i, c, r);
        UnloadForeseen(t, b, i, c, r);
    }
    if !o.Failed? {
      OrphanedStarted(s, o, r);
      if RequestOf(s, a).Some? {
        ForeseenStarted(t, s, a.c, a.i, o, r);
        OrphansAre(t, s, a, o, r);
      } else {
        ThreadsOf(t, s);
        Unmoved(t, s, a, r);
      }
    }
  }

  lemma OrphansAre(t: Topology, s: State, a: Action, o: Outcome, r: RegionId)
    requires Layered(t) && Typed(t, s) && Enabled(t, s, a) && (a.Configure? || a.UnloadRequest?) && RequestOf(s, a).Some?
    requires !o.Failed? && Foreseen(t, s, a.c, a.i, o, r)
    ensures Orphaned(s, o, r) <==> Orphan(s, r) || Orphans(t, s, a, r)
  {
    hide Layered, Typed, Orphan, LoaderDied, CutMark, LosesLoad, LeavesMark;
  }

  /** A request for the module that is current does nothing. */
  lemma Unmoved(t: Topology, s: State, a: Action, r: RegionId)
    requires Layered(t) && Typed(t, s) && Enabled(t, s, a) && a.Configure? && RequestOf(s, a).None? && ThreadsOk(s) && r in s.regions
    requires !Next(t, s, a).Failed?
    ensures Orphaned(s, Next(t, s, a), r) <==> Orphan(s, r) || Orphans(t, s, a, r)
  {
    hide Layered, Typed, Orphan, LoaderDied, ThreadsOk;
    KeysOf(t, s);
    SameOrphan(s, s.(started := true), r);
  }

  lemma OrphanedStarted(s: State, o: Outcome, r: RegionId)
    requires !o.Failed?
    ensures Orphaned(s.(started := true), o, r) <==> Orphaned(s, o, r)
  {
    assert LoaderDied(s.(started := true), o.state, r) <==> LoaderDied(s, o.state, r);
  }
}
