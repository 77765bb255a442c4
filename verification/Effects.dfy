/** Every single effect of an unload keeps the invariant. */
module Effects {
  import opened Model
  import opened Teardown
  import opened Invariants

  // ---- killing a process -------------------------------------------------------------

  /** Unwinding a stack decrements every region's counter by the locks the stack holds. */
  lemma {:induction false} UnwindExact(regions: map<RegionId, Region>, stack: seq<Frame>)
    requires forall r <- regions :: regions[r].count >= InStack(stack, LockOn(r))
    requires forall a | 0 <= a < |stack| && stack[a].Call? :: stack[a].rr in regions
    ensures Unwind(regions, stack).Some?
    ensures var u := Unwind(regions, stack).value;
      u.Keys == regions.Keys && forall r <- regions ::
        u[r] == regions[r].(count := regions[r].count - InStack(stack, LockOn(r)))
  {
    if stack != [] {
      var f, rest := stack[|stack| - 1], stack[..|stack| - 1];
      if f.Load? {
        UnwindExact(regions, rest);
      } else {
        assert Hit(f, LockOn(f.rr)) == 1;
        var next := regions[f.rr := regions[f.rr].(count := regions[f.rr].count - 1)];
        UnwindExact(next, rest);
      }
    }
  }

  /** The effect of one kill under the invariant: the thread is dead, its locks are released. */
  ghost predicate Killed(s: State, n: State, i: ThreadId) {
    && i < |s.threads|
    && n == s.(regions := n.regions, threads := s.threads[i := Dead(s.threads[i])])
    && n.regions.Keys == s.regions.Keys
    && (forall r <- s.regions ::
          n.regions[r] == s.regions[r].(count := n.regions[r].count)
          && n.regions[r].count + InStack(s.threads[i].stack, LockOn(r)) == s.regions[r].count)
    && (forall q :: Tally(n.threads, q) + InStack(s.threads[i].stack, q) == Tally(s.threads, q))
  }

  lemma KillOneExact(s: State, i: ThreadId)
    requires Counted(s) && CallsBound(s) && i < |s.threads|
    ensures KillOne(s, i).Some? && Killed(s, KillOne(s, i).value, i)
  {
    forall r <- s.regions ensures s.regions[r].count >= InStack(s.threads[i].stack, LockOn(r)) {
      TallyThread(s.threads, i, LockOn(r));
    }
    forall a | 0 <= a < |s.threads[i].stack| && s.threads[i].stack[a].Call?
      ensures s.threads[i].stack[a].rr in s.regions
    {
      assert CallOk(s, s.threads[i].stack[a]);
    }
    UnwindExact(s.regions, s.threads[i].stack);
    forall q ensures Tally(s.threads[i := Dead(s.threads[i])], q) + InStack(s.threads[i].stack, q) == Tally(s.threads, q) {
      TallyUpdate(s.threads, i, Dead(s.threads[i]), q);
    }
  }

  /** If every load of manager `c` in the stack is a load on `r`, loads by `c` are loads on `r`. */
  lemma {:induction false} ByIsOn(stack: seq<Frame>, c: ManagerId, r: RegionId)
    requires forall a | 0 <= a < |stack| && stack[a].Load? && stack[a].mgr == c :: stack[a].rr == r
    ensures InStack(stack, LoadBy(c)) <= InStack(stack, LoadOn(r))
  {
    if stack != [] {
      ByIsOn(stack[..|stack| - 1], c, r);
    }
  }

  lemma KillTypes(t: Topology, s: State, n: State, i: ThreadId)
    requires Typed(t, s) && Killed(s, n, i)
    ensures Typed(t, n)
  {
  }

  lemma KillThreads(s: State, n: State, i: ThreadId)
    requires ThreadsOk(s) && HandlesOk(s) && Killed(s, n, i)
    ensures ThreadsOk(n) && HandlesOk(n)
  {
  }

  lemma KillPointers(t: Topology, s: State, n: State, i: ThreadId)
    requires Roots(t, s) && Matching(t, s) && DecoupledOk(s) && Killed(s, n, i)
    ensures Roots(t, n) && Matching(t, n) && DecoupledOk(n)
  {
  }

  lemma KillCounts(t: Topology, s: State, n: State, i: ThreadId)
    requires Counted(s) && Exclusive(s) && FlagsOk(s) && Killed(s, n, i)
    ensures Counted(n) && Exclusive(n) && FlagsOk(n)
  {
  }

  lemma KillTidy(t: Topology, s: State, n: State, i: ThreadId)
    requires Tidy(t, s) && Killed(s, n, i)
    ensures Tidy(t, n)
  {
    hide WaitsOk, Homes, Connected;
    KillWaits(s, n, i);
    SameHomes(t, s, n);
    SameConnected(t, s, n);
    forall r | r in n.regions && n.regions[r].blocked && n.regions[r].count > 0 ensures Divided(t, n, r) {
      assert Divided(t, s, r);
    }
  }

  lemma KillFrames(t: Topology, s: State, n: State, i: ThreadId)
    requires CallsBound(s) && LoadsOk(t, s) && Killed(s, n, i)
    ensures CallsBound(n) && LoadsOk(t, n)
  {
    forall j, a | 0 <= j < |n.threads| && 0 <= a < |n.threads[j].stack|
      ensures n.threads[j].stack[a].Call? ==> CallOk(n, n.threads[j].stack[a])
      ensures n.threads[j].stack[a].Load? ==> LoadOk(t, n, n.threads[j].stack[a])
    {
      assert n.threads[j] == s.threads[j];
      var f := s.threads[j].stack[a];
      if f.Load? { assert LoadOk(t, s, f); } else { assert CallOk(s, f); }
    }
  }

  /** A load by `c` that dies with the thread was the only load on its region, which is
      orphaned by the kill. */
  lemma KillSettled(t: Topology, s: State, n: State, i: ThreadId, q: set<RegionId>, p: set<ManagerId>)
    requires SettledPart(t, s, q, p) && LoadsOk(t, s) && Exclusive(s) && Killed(s, n, i)
    requires PathOk(s, q, p)
    ensures SettledPart(t, n, q, p)
  {
    var stack := s.threads[i].stack;
    forall c | c in n.mgrs && c !in p && n.mgrs[c].current.Some? && n.mgrs[c].rr.Some?
               && Attended(n, n.mgrs[c].rr.value, q)
      ensures Settled(t, n, n.mgrs[c].current.value, n.mgrs[c].rr.value) || Tally(n.threads, LoadBy(c)) > 0
    {
      var r := n.mgrs[c].rr.value;
      assert Attended(s, r, q);
      forall a | 0 <= a < |stack| && stack[a].Load? && stack[a].mgr == c ensures stack[a].rr == r {
        assert LoadOk(t, s, stack[a]);
      }
      ByIsOn(stack, c, r);
      TallyThread(s.threads, i, LoadOn(r));
    }
  }

  lemma KillSplit(t: Topology, s: State, n: State, i: ThreadId, q: set<RegionId>, p: set<ManagerId>)
    requires SplitPart(t, s, q, p) && PathOk(s, q, p) && Killed(s, n, i)
    ensures SplitPart(t, n, q, p) && PathOk(n, q, p)
  {
    forall m, k | m in t.mods && 0 <= k < |t.mods[m].subs| && t.mods[m].subs[k] in n.mgrs && !Unloading(t, n, m, p)
                  && n.mgrs[t.mods[m].subs[k]].rr.Some? && Attended(n, n.mgrs[t.mods[m].subs[k]].rr.value, q)
      ensures m in n.mods && n.mods[m].configured == n.mgrs[t.mods[m].subs[k]].rr
    {
      assert Attended(s, s.mgrs[t.mods[m].subs[k]].rr.value, q);
    }
  }

  lemma KillLeftovers(t: Topology, s: State, n: State, i: ThreadId, q: set<RegionId>, p: set<ManagerId>)
    requires Leftovers(t, s, q, p) && Stationed(t, s) && Killed(s, n, i)
    ensures Leftovers(t, n, q, p) && Stationed(t, n)
  {
    forall m, r | m in n.mods && m in t.mods && n.mods[m].configured.None? && !Unloading(t, n, m, p)
                  && Belongs(t, t.mods[m].home, r) && Attended(n, r, q)
      ensures n.mods[m].handles == []
    {
      assert Attended(s, r, q) && !Unloading(t, s, m, p);
    }
  }

  lemma KillWaits(s: State, n: State, i: ThreadId)
    requires WaitsOk(s) && Killed(s, n, i)
    ensures WaitsOk(n)
  {
    forall j, a | 0 <= j < |n.threads| && 0 <= a < |n.threads[j].stack| && n.threads[j].stack[a].Load?
                  && n.threads[j].stack[a].phase == LoadWait ensures WaitOk(n, n.threads[j].stack[a])
    {
      assert n.threads[j] == s.threads[j];
      assert WaitOk(s, s.threads[j].stack[a]);
    }
  }

  lemma KillShrinks(s: State, n: State, i: ThreadId)
    requires Killed(s, n, i)
    ensures Shrinks(s, n) && SameReconf(s, n)
  {
  }

  /** Killing any process at any time keeps the invariant. */
  lemma KillKeeps(t: Topology, s: State, i: ThreadId, q: set<RegionId>, p: set<ManagerId>, tidy: bool := true)
    requires During(t, s, q, p, tidy) && i < |s.threads|
    ensures KillOne(s, i).Some?
    ensures var n := KillOne(s, i).value; During(t, n, q, p, tidy) && Killed(s, n, i) && Shrinks(s, n) && SameReconf(s, n)
  {
    hide Typed, ThreadsOk, HandlesOk, Counted, Exclusive, FlagsOk, CallsBound, Matching, LoadsOk, Tidy, Roots,
         DecoupledOk, Stationed, Leftovers, SettledPart, SplitPart, PathOk, Killed, Shrinks, SameReconf;
    KillOneExact(s, i);
    var n := KillOne(s, i).value;
    KillTypes(t, s, n, i);
    KillThreads(s, n, i);
    KillPointers(t, s, n, i);
    KillCounts(t, s, n, i);
    KillFrames(t, s, n, i);
    KillSettled(t, s, n, i, q, p);
    KillSplit(t, s, n, i, q, p);
    KillLeftovers(t, s, n, i, q, p);
    KillShrinks(s, n, i);
    if tidy { KillTidy(t, s, n, i); }
  }

  // ---- decoupling --------------------------------------------------------------------

  /** Module `m` is current on its manager, whose region `q` contains has no live call. */
  ghost predicate Opened(t: Topology, s: State, m: ModuleId, r: RegionId, q: set<RegionId>) {
    && m in t.mods && t.mods[m].home in s.mgrs && m in s.mods && r in s.regions && r in q
    && s.mgrs[t.mods[m].home] == Manager(Some(m), Some(r))
    && s.regions[r].count == 0
  }

  lemma DecoupleThreads(t: Topology, s: State, m: ModuleId, r: RegionId)
    requires ThreadsOk(s) && HandlesOk(s) && m in t.mods && m in s.mods
    ensures ThreadsOk(Decouple(t, s, m, r)) && HandlesOk(Decouple(t, s, m, r))
  {
  }

  /** No lock is held on `r`, so no call runs through an adapter pair that is unbound. */
  lemma DecoupleCalls(t: Topology, s: State, m: ModuleId, r: RegionId)
    requires CallsBound(s) && Counted(s) && m in t.mods && m in s.mods
    requires r in s.regions && s.regions[r].count == 0
    ensures CallsBound(Decouple(t, s, m, r))
  {
    var n := Decouple(t, s, m, r);
    forall i, a | 0 <= i < |n.threads| && 0 <= a < |n.threads[i].stack| && n.threads[i].stack[a].Call?
      ensures CallOk(n, n.threads[i].stack[a])
    {
      var f := s.threads[i].stack[a];
      assert CallOk(s, f);
      TallyMember(s.threads, i, a, LockOn(f.rr));
      assert Hit(f, LockOn(f.rr)) == 1;
    }
  }

  lemma DecoupleMatching(t: Topology, s: State, m: ModuleId, r: RegionId)
    requires Matching(t, s) && DecoupledOk(s) && m in t.mods && m in s.mods && s.mods[m].configured == Some(r)
    ensures Matching(t, Decouple(t, s, m, r)) && DecoupledOk(Decouple(t, s, m, r))
  {
  }

  lemma DecoupleTidy(t: Topology, s: State, m: ModuleId, r: RegionId)
    requires Tidy(t, s) && m in t.mods && m in s.mods
    ensures Tidy(t, Decouple(t, s, m, r))
  {
    hide WaitsOk, Connected;
    var n := Decouple(t, s, m, r);
    WaitsSame(s, n);
    DecoupleConnected(t, s, m, r);
    forall r | r in n.regions && n.regions[r].blocked && n.regions[r].count > 0 ensures Divided(t, n, r) {
      assert Divided(t, s, r);
    }
  }

  lemma DecoupleConnected(t: Topology, s: State, m: ModuleId, r: RegionId)
    requires Connected(t, s) && m in t.mods && m in s.mods
    ensures Connected(t, Decouple(t, s, m, r))
  {
    var n := Decouple(t, s, m, r);
    forall x, j | x in t.mods && x in n.mods && n.mods[x].configured.Some? && 0 <= j < |t.mods[x].subs|
      ensures t.mods[x].subs[j] in n.mgrs && n.mgrs[t.mods[x].subs[j]].rr == n.mods[x].configured
    {
      assert s.mgrs[t.mods[x].subs[j]].rr == s.mods[x].configured;
    }
    forall x, j | x in t.mods && 0 <= j < |t.mods[x].subs|
      ensures t.mods[x].subs[j] in n.mgrs && t.mods[x].home in n.mgrs
      ensures n.mgrs[t.mods[x].subs[j]].rr.Some? ==> n.mgrs[t.mods[x].home] == Manager(Some(x), n.mgrs[t.mods[x].subs[j]].rr)
    {
      assert s.mgrs[t.mods[x].subs[j]].rr.Some? ==> s.mgrs[t.mods[x].home].current == Some(x);
    }
  }

  /** No module waited for gets configured. */
  lemma WaitsSame(s: State, n: State)
    requires WaitsOk(s) && n.threads == s.threads && n.mods.Keys == s.mods.Keys
    requires forall m <- s.mods :: n.mods[m].configured in {s.mods[m].configured, None}
    ensures WaitsOk(n)
  {
    forall i, a | 0 <= i < |n.threads| && 0 <= a < |n.threads[i].stack| && n.threads[i].stack[a].Load?
                  && n.threads[i].stack[a].phase == LoadWait ensures WaitOk(n, n.threads[i].stack[a])
    {
      assert WaitOk(s, s.threads[i].stack[a]);
    }
  }

  /** Pointers that stay or become null stay where they belong. */
  lemma StationedLess(t: Topology, s: State, n: State)
    requires Stationed(t, s) && n.mgrs.Keys == s.mgrs.Keys && n.mods.Keys == s.mods.Keys
    requires forall c <- s.mgrs :: n.mgrs[c].rr in {s.mgrs[c].rr, None}
    requires forall m <- s.mods :: n.mods[m].configured in {s.mods[m].configured, None}
    ensures Stationed(t, n)
  {
  }

  lemma DecoupleLeftovers(t: Topology, s: State, m: ModuleId, r: RegionId, q: set<RegionId>, p: set<ManagerId>)
    requires Leftovers(t, s, q, p) && Stationed(t, s) && Opened(t, s, m, r, q)
    ensures var n := Decouple(t, s, m, r); Leftovers(t, n, q, p + {t.mods[m].home}) && Stationed(t, n)
  {
    var n, p1 := Decouple(t, s, m, r), p + {t.mods[m].home};
    StationedLess(t, s, n);
    forall x, w | x in n.mods && x in t.mods && n.mods[x].configured.None? && !Unloading(t, n, x, p1)
                  && Belongs(t, t.mods[x].home, w) && Attended(n, w, q)
      ensures n.mods[x].handles == []
    {
      assert Attended(s, w, q) && !Unloading(t, s, x, p);
    }
  }

  /** A load in progress has its manager to itself. */
  lemma LoadElsewhere(t: Topology, s: State, i: nat, a: nat, q: set<RegionId>, p: set<ManagerId>)
    requires LoadsOk(t, s) && PathOk(s, q, p)
    requires i < |s.threads| && a < |s.threads[i].stack| && s.threads[i].stack[a].Load?
    ensures var f := s.threads[i].stack[a]; LoadOk(t, s, f) && f.rr !in q
  {
    var f := s.threads[i].stack[a];
    TallyMember(s.threads, i, a, LoadOn(f.rr));
    assert Hit(f, LoadOn(f.rr)) == 1;
  }

  lemma DecoupleLoads(t: Topology, s: State, m: ModuleId, r: RegionId, q: set<RegionId>, p: set<ManagerId>)
    requires LoadsOk(t, s) && Typed(t, s) && PathOk(s, q, p) && Opened(t, s, m, r, q)
    ensures LoadsOk(t, Decouple(t, s, m, r))
  {
    var n := Decouple(t, s, m, r);
    forall i, a | 0 <= i < |n.threads| && 0 <= a < |n.threads[i].stack| && n.threads[i].stack[a].Load?
      ensures LoadOk(t, n, n.threads[i].stack[a])
    {
      LoadElsewhere(t, s, i, a, q, p);
      assert t.mods[s.threads[i].stack[a].mod].home == s.threads[i].stack[a].mgr;
    }
  }

  lemma DecoupleSettled(t: Topology, s: State, m: ModuleId, r: RegionId, q: set<RegionId>, p: set<ManagerId>)
    requires SettledPart(t, s, q, p) && SplitPart(t, s, q, p) && PathOk(s, q, p) && Typed(t, s)
    requires Opened(t, s, m, r, q)
    ensures var n := Decouple(t, s, m, r); var p1 := p + {t.mods[m].home};
      SettledPart(t, n, q, p1) && SplitPart(t, n, q, p1) && PathOk(n, q, p1)
  {
    var n, p1 := Decouple(t, s, m, r), p + {t.mods[m].home};
    forall c | c in n.mgrs && c !in p1 && n.mgrs[c].current.Some? && n.mgrs[c].rr.Some?
               && Attended(n, n.mgrs[c].rr.value, q)
      ensures Settled(t, n, n.mgrs[c].current.value, n.mgrs[c].rr.value) || Tally(n.threads, LoadBy(c)) > 0
    {
      assert Attended(s, s.mgrs[c].rr.value, q);
      assert s.mgrs[c].current.value != m;
    }
    forall k, j | k in t.mods && 0 <= j < |t.mods[k].subs| && t.mods[k].subs[j] in n.mgrs && !Unloading(t, n, k, p1)
                  && n.mgrs[t.mods[k].subs[j]].rr.Some? && Attended(n, n.mgrs[t.mods[k].subs[j]].rr.value, q)
      ensures k in n.mods && n.mods[k].configured == n.mgrs[t.mods[k].subs[j]].rr
    {
      assert Attended(s, s.mgrs[t.mods[k].subs[j]].rr.value, q);
    }
  }

  lemma DecoupleKeeps(t: Topology, s: State, m: ModuleId, r: RegionId, q: set<RegionId>, p: set<ManagerId>,
                      tidy: bool := true)
    requires During(t, s, q, p, tidy) && Opened(t, s, m, r, q) && CanDecouple(t, s, m, r)
    ensures var n := Decouple(t, s, m, r);
      && During(t, n, q, p + {t.mods[m].home}, tidy) && Opened(t, n, m, r, q) && n.mods[m].configured.None?
      && Shrinks(s, n) && SameReconf(s, n)
  {
    hide Typed, ThreadsOk, HandlesOk, Counted, Exclusive, FlagsOk, CallsBound, Matching, LoadsOk, Tidy, Roots,
         DecoupledOk, Stationed, Leftovers, SettledPart, SplitPart, PathOk;
    var n := Decouple(t, s, m, r);
    DecoupleTyped(t, s, m, r);
    DecoupleThreads(t, s, m, r);
    DecoupleCalls(t, s, m, r);
    DecoupleMatching(t, s, m, r);
    SameRoots(t, s, n);
    DecoupleLoads(t, s, m, r, q, p);
    DecoupleSettled(t, s, m, r, q, p);
    DecoupleLeftovers(t, s, m, r, q, p);
    SameCounts(s, n);
    if tidy { DecoupleTidy(t, s, m, r); }
  }

  lemma SameRoots(t: Topology, s: State, n: State)
    requires Roots(t, s) && n.mgrs == s.mgrs
    ensures Roots(t, n)
  {
  }

  /** Counters and reconfiguration flags only depend on regions and threads. */
  lemma SameCounts(s: State, n: State)
    requires Counted(s) && Exclusive(s) && FlagsOk(s) && n.regions == s.regions && n.threads == s.threads
    ensures Counted(n) && Exclusive(n) && FlagsOk(n)
  {
  }

  // ---- clearing the handles ----------------------------------------------------------

  /** After the kill loop no process of the module is left. */
  ghost predicate NoProcess(s: State, m: ModuleId) {
    forall i | 0 <= i < |s.threads| && s.threads[i].owner == Some(m) :: !s.threads[i].alive
  }

  lemma ClearThreads(t: Topology, s: State, m: ModuleId)
    requires ThreadsOk(s) && HandlesOk(s) && m in s.mods && NoProcess(s, m)
    ensures var n := SetHandles(s, m, []); ThreadsOk(n) && HandlesOk(n)
  {
  }

  lemma ClearPointers(t: Topology, s: State, m: ModuleId)
    requires Matching(t, s) && Roots(t, s) && DecoupledOk(s) && m in s.mods
    ensures var n := SetHandles(s, m, []); Matching(t, n) && Roots(t, n) && DecoupledOk(n)
  {
  }

  lemma ClearTidy(t: Topology, s: State, m: ModuleId)
    requires Tidy(t, s) && m in s.mods
    ensures Tidy(t, SetHandles(s, m, []))
  {
    var n := SetHandles(s, m, []);
    WaitsSame(s, n);
    forall r | r in n.regions && n.regions[r].blocked && n.regions[r].count > 0 ensures Divided(t, n, r) {
      assert Divided(t, s, r);
    }
  }

  lemma ClearLeftovers(t: Topology, s: State, m: ModuleId, q: set<RegionId>, p: set<ManagerId>)
    requires Leftovers(t, s, q, p) && Stationed(t, s) && m in s.mods
    ensures var n := SetHandles(s, m, []); Leftovers(t, n, q, p) && Stationed(t, n)
  {
    var n := SetHandles(s, m, []);
    StationedLess(t, s, n);
    forall x, w | x in n.mods && x in t.mods && n.mods[x].configured.None? && !Unloading(t, n, x, p)
                  && Belongs(t, t.mods[x].home, w) && Attended(n, w, q)
      ensures n.mods[x].handles == []
    {
      assert Attended(s, w, q) && !Unloading(t, s, x, p);
    }
  }

  lemma ClearFrames(t: Topology, s: State, m: ModuleId, r: RegionId, q: set<RegionId>, p: set<ManagerId>)
    requires LoadsOk(t, s) && CallsBound(s) && PathOk(s, q, p) && Typed(t, s)
    requires Opened(t, s, m, r, q)
    ensures var n := SetHandles(s, m, []); LoadsOk(t, n) && CallsBound(n)
  {
    var n := SetHandles(s, m, []);
    forall i, a | 0 <= i < |n.threads| && 0 <= a < |n.threads[i].stack|
      ensures n.threads[i].stack[a].Load? ==> LoadOk(t, n, n.threads[i].stack[a])
      ensures n.threads[i].stack[a].Call? ==> CallOk(n, n.threads[i].stack[a])
    {
      var f := s.threads[i].stack[a];
      if f.Load? {
        LoadElsewhere(t, s, i, a, q, p);
        assert t.mods[f.mod].home == f.mgr;
      } else {
        assert CallOk(s, f);
      }
    }
  }

  lemma ClearSettled(t: Topology, s: State, m: ModuleId, q: set<RegionId>, p: set<ManagerId>)
    requires SettledPart(t, s, q, p) && SplitPart(t, s, q, p) && PathOk(s, q, p) && Typed(t, s)
    requires m in t.mods && m in s.mods && t.mods[m].home in p && t.mods[m].home in s.mgrs && s.mgrs[t.mods[m].home].current == Some(m)
    ensures var n := SetHandles(s, m, []); SettledPart(t, n, q, p) && SplitPart(t, n, q, p) && PathOk(n, q, p)
  {
    var n := SetHandles(s, m, []);
    forall c | c in n.mgrs && c !in p && n.mgrs[c].current.Some? && n.mgrs[c].rr.Some?
               && Attended(n, n.mgrs[c].rr.value, q)
      ensures Settled(t, n, n.mgrs[c].current.value, n.mgrs[c].rr.value) || Tally(n.threads, LoadBy(c)) > 0
    {
      assert Attended(s, s.mgrs[c].rr.value, q);
      assert s.mgrs[c].current.value != m;
    }
    forall k, j | k in t.mods && 0 <= j < |t.mods[k].subs| && t.mods[k].subs[j] in n.mgrs && !Unloading(t, n, k, p)
                  && n.mgrs[t.mods[k].subs[j]].rr.Some? && Attended(n, n.mgrs[t.mods[k].subs[j]].rr.value, q)
      ensures k in n.mods && n.mods[k].configured == n.mgrs[t.mods[k].subs[j]].rr
    {
      assert Attended(s, s.mgrs[t.mods[k].subs[j]].rr.value, q);
    }
  }

  lemma ClearKeeps(t: Topology, s: State, m: ModuleId, r: RegionId, q: set<RegionId>, p: set<ManagerId>, tidy: bool := true)
    requires During(t, s, q, p, tidy) && Opened(t, s, m, r, q) && t.mods[m].home in p && NoProcess(s, m)
    ensures var n := SetHandles(s, m, []);
      During(t, n, q, p, tidy) && Opened(t, n, m, r, q) && Shrinks(s, n) && SameReconf(s, n)
  {
    hide Typed, ThreadsOk, HandlesOk, Counted, Exclusive, FlagsOk, CallsBound, Matching, LoadsOk, Tidy, Roots,
         DecoupledOk, Stationed, Leftovers, SettledPart, SplitPart, PathOk;
    var n := SetHandles(s, m, []);
    SetHandlesTyped(t, s, m);
    ClearThreads(t, s, m);
    ClearPointers(t, s, m);
    ClearFrames(t, s, m, r, q, p);
    ClearSettled(t, s, m, q, p);
    ClearLeftovers(t, s, m, q, p);
    SameCounts(s, n);
    if tidy { ClearTidy(t, s, m); }
  }

  // ---- the kill loop -----------------------------------------------------------------

  lemma ShrinksTrans(a: State, b: State, c: State)
    requires Shrinks(a, b) && Shrinks(b, c)
    ensures Shrinks(a, c)
  {
  }

  lemma {:induction false} KillFromKeeps(t: Topology, s: State, hs: seq<ThreadId>, me: ThreadId,
                                         q: set<RegionId>, p: set<ManagerId>, tidy: bool := true)
    requires During(t, s, q, p, tidy) && forall j | 0 <= j < |hs| :: hs[j] < |s.threads|
    ensures var o := KillFrom(s, hs, me);
      && !o.Failed?
      && During(t, o.state, q, p, tidy) && Shrinks(s, o.state) && SameReconf(s, o.state)
      && o.state.mgrs == s.mgrs && o.state.mods == s.mods
      && (o.Done? ==>
            && me !in hs
            && (forall j | 0 <= j < |hs| :: !o.state.threads[hs[j]].alive)
            && (forall i | 0 <= i < |s.threads| && i !in hs :: o.state.threads[i] == s.threads[i]))
    decreases |hs|
  {
    hide Typed, ThreadsOk, HandlesOk, Counted, Exclusive, FlagsOk, CallsBound, Matching, LoadsOk, Tidy, Roots,
         DecoupledOk, Stationed, Leftovers, SettledPart, SplitPart, PathOk;
    if hs != [] {
      KillKeeps(t, s, hs[0], q, p, tidy);
      var n := KillOne(s, hs[0]).value;
      if hs[0] != me {
        KillFromKeeps(t, n, hs[1..], me, q, p, tidy);
        var o := KillFrom(n, hs[1..], me);
        assert forall i :: i in hs <==> i == hs[0] || i in hs[1..];
        ShrinksTrans(s, n, o.state);
      }
    }
  }

  // ---- disconnecting a sub-manager, emptying a manager ---------------------------------

  /** Two states that differ only in their managers. */
  ghost predicate OnlyMgrs(s: State, n: State) {
    n == s.(mgrs := n.mgrs) && n.mgrs.Keys == s.mgrs.Keys
  }

  lemma MgrsThreads(s: State, n: State)
    requires ThreadsOk(s) && HandlesOk(s) && DecoupledOk(s) && CallsBound(s) && OnlyMgrs(s, n)
    ensures ThreadsOk(n) && HandlesOk(n) && DecoupledOk(n) && CallsBound(n)
  {
    forall i, a | 0 <= i < |n.threads| && 0 <= a < |n.threads[i].stack| && n.threads[i].stack[a].Call?
      ensures CallOk(n, n.threads[i].stack[a])
    {
      assert CallOk(s, s.threads[i].stack[a]);
    }
  }

  lemma MgrsMatching(t: Topology, s: State, n: State)
    requires Matching(t, s) && OnlyMgrs(s, n)
    ensures Matching(t, n)
  {
  }

  /** A sub-manager that holds nothing, of a split manager that is no longer coupled. */
  ghost predicate Droppable(t: Topology, s: State, m: ModuleId, k: nat) {
    && m in t.mods && m in s.mods && k < |t.mods[m].subs| && t.mods[m].subs[k] in s.mgrs
    && s.mods[m].configured.None?
    && s.mgrs[t.mods[m].subs[k]].current.None?
  }

  /** A sub-manager belongs to one split manager and is no region's own manager. */
  lemma SubsOnce(t: Topology, m: ModuleId, k: nat)
    requires Valid(t) && m in t.mods && k < |t.mods[m].subs|
    ensures forall x, j | x in t.mods && 0 <= j < |t.mods[x].subs| && t.mods[x].subs[j] == t.mods[m].subs[k] :: x == m
    ensures forall r <- t.root :: t.root[r] != t.mods[m].subs[k]
  {
    assert t.mods[m].subs[k] in t.mods[m].subs;
  }

  lemma DropConnected(t: Topology, s: State, m: ModuleId, k: nat)
    requires Connected(t, s) && Droppable(t, s, m, k)
    requires forall x, j | x in t.mods && 0 <= j < |t.mods[x].subs| && t.mods[x].subs[j] == t.mods[m].subs[k] :: x == m
    ensures Connected(t, SetRr(s, t.mods[m].subs[k], None))
  {
    var n := SetRr(s, t.mods[m].subs[k], None);
    forall x, j | x in t.mods && x in n.mods && n.mods[x].configured.Some? && 0 <= j < |t.mods[x].subs|
      ensures t.mods[x].subs[j] in n.mgrs && n.mgrs[t.mods[x].subs[j]].rr == n.mods[x].configured
    {
      assert s.mgrs[t.mods[x].subs[j]].rr == s.mods[x].configured;
    }
    forall x, j | x in t.mods && 0 <= j < |t.mods[x].subs|
      ensures t.mods[x].subs[j] in n.mgrs && t.mods[x].home in n.mgrs
      ensures n.mgrs[t.mods[x].subs[j]].rr.Some? ==> n.mgrs[t.mods[x].home] == Manager(Some(x), n.mgrs[t.mods[x].subs[j]].rr)
    {
      if n.mgrs[t.mods[x].subs[j]].rr.Some? { assert s.mgrs[t.mods[x].subs[j]].rr.Some?; }
    }
  }

  lemma DropRoots(t: Topology, s: State, m: ModuleId, k: nat)
    requires Roots(t, s) && Droppable(t, s, m, k) && forall r <- t.root :: t.root[r] != t.mods[m].subs[k]
    ensures Roots(t, SetRr(s, t.mods[m].subs[k], None))
  {
  }

  lemma DropHomes(t: Topology, s: State, m: ModuleId, k: nat)
    requires Homes(t, s) && Droppable(t, s, m, k)
    ensures Homes(t, SetRr(s, t.mods[m].subs[k], None))
  {
  }

  /** Connections depend only on the managers' and the modules' pointers. */
  lemma SameConnected(t: Topology, s: State, n: State)
    requires Connected(t, s) && n.mgrs == s.mgrs && n.mods == s.mods
    ensures Connected(t, n)
  {
    forall x, j | x in t.mods && x in n.mods && n.mods[x].configured.Some? && 0 <= j < |t.mods[x].subs|
      ensures t.mods[x].subs[j] in n.mgrs && n.mgrs[t.mods[x].subs[j]].rr == n.mods[x].configured
    {
      assert s.mgrs[t.mods[x].subs[j]].rr == s.mods[x].configured;
    }
  }

  lemma DropFrames(t: Topology, s: State, c: ManagerId)
    requires LoadsOk(t, s) && c in s.mgrs && s.mgrs[c].current.None?
    ensures LoadsOk(t, SetRr(s, c, None))
  {
    var n := SetRr(s, c, None);
    forall i, a | 0 <= i < |n.threads| && 0 <= a < |n.threads[i].stack| && n.threads[i].stack[a].Load?
      ensures LoadOk(t, n, n.threads[i].stack[a])
    {
      assert LoadOk(t, s, s.threads[i].stack[a]);
    }
  }

  /** The region the manager leaves has no call in flight, so it needs no division. */
  lemma DropBlocked(t: Topology, s: State, c: ManagerId)
    requires BlockedOk(t, s) && c in s.mgrs
    requires s.mgrs[c].rr.Some? ==> s.mgrs[c].rr.value in s.regions && s.regions[s.mgrs[c].rr.value].count == 0
    ensures BlockedOk(t, SetRr(s, c, None))
  {
    var n := SetRr(s, c, None);
    forall r | r in n.regions && n.regions[r].blocked && n.regions[r].count > 0 ensures Divided(t, n, r) {
      assert Divided(t, s, r);
      var m, k :| m in t.mods && 0 <= k < |t.mods[m].subs| && t.mods[m].subs[k] in s.mgrs
                  && s.mgrs[t.mods[m].subs[k]].rr == Some(r);
      assert n.mgrs[t.mods[m].subs[k]].rr == Some(r);
    }
  }

  lemma DropSettled(t: Topology, s: State, c: ManagerId, q: set<RegionId>, p: set<ManagerId>)
    requires SettledPart(t, s, q, p) && SplitPart(t, s, q, p) && PathOk(s, q, p)
    requires c in s.mgrs && s.mgrs[c].current.None?
    ensures var n := SetRr(s, c, None); SettledPart(t, n, q, p) && SplitPart(t, n, q, p) && PathOk(n, q, p)
  {
    var n := SetRr(s, c, None);
    forall d | d in n.mgrs && d !in p && n.mgrs[d].current.Some? && n.mgrs[d].rr.Some?
               && Attended(n, n.mgrs[d].rr.value, q)
      ensures Settled(t, n, n.mgrs[d].current.value, n.mgrs[d].rr.value) || Tally(n.threads, LoadBy(d)) > 0
    {
      assert Attended(s, s.mgrs[d].rr.value, q);
    }
    forall k, j | k in t.mods && 0 <= j < |t.mods[k].subs| && t.mods[k].subs[j] in n.mgrs && !Unloading(t, n, k, p)
                  && n.mgrs[t.mods[k].subs[j]].rr.Some? && Attended(n, n.mgrs[t.mods[k].subs[j]].rr.value, q)
      ensures k in n.mods && n.mods[k].configured == n.mgrs[t.mods[k].subs[j]].rr
    {
      assert Attended(s, s.mgrs[t.mods[k].subs[j]].rr.value, q);
    }
  }

  lemma DropTyped(t: Topology, s: State, c: ManagerId)
    requires Typed(t, s) && c in s.mgrs
    ensures Typed(t, SetRr(s, c, None))
  {
  }

  lemma EmptyTyped(t: Topology, s: State, c: ManagerId)
    requires Typed(t, s) && c in s.mgrs
    ensures Typed(t, SetCurrent(s, c, None))
  {
  }

  lemma PointersShrink(s: State, c: ManagerId)
    requires c in s.mgrs
    ensures Shrinks(s, SetRr(s, c, None)) && SameReconf(s, SetRr(s, c, None))
    ensures Shrinks(s, SetCurrent(s, c, None)) && SameReconf(s, SetCurrent(s, c, None))
  {
  }

  lemma DropTidy(t: Topology, s: State, m: ModuleId, k: nat)
    requires Valid(t) && Tidy(t, s) && Droppable(t, s, m, k)
    requires var c := t.mods[m].subs[k];
      s.mgrs[c].rr.Some? ==> s.mgrs[c].rr.value in s.regions && s.regions[s.mgrs[c].rr.value].count == 0
    ensures Tidy(t, SetRr(s, t.mods[m].subs[k], None))
  {
    hide Valid, Homes, Connected, BlockedOk, WaitsOk;
    SubsOnce(t, m, k);
    DropConnected(t, s, m, k);
    DropHomes(t, s, m, k);
    DropBlocked(t, s, t.mods[m].subs[k]);
    WaitsSame(s, SetRr(s, t.mods[m].subs[k], None));
  }

  lemma MgrsLeftovers(t: Topology, s: State, n: State, q: set<RegionId>, p: set<ManagerId>, p1: set<ManagerId>)
    requires Leftovers(t, s, q, p) && OnlyMgrs(s, n)
    requires forall m <- s.mods | Unloading(t, s, m, p) :: Unloading(t, n, m, p1) || s.mods[m].handles == []
    ensures Leftovers(t, n, q, p1)
  {
    forall x, w | x in n.mods && x in t.mods && n.mods[x].configured.None? && !Unloading(t, n, x, p1)
                  && Belongs(t, t.mods[x].home, w) && Attended(n, w, q)
      ensures n.mods[x].handles == []
    {
      assert Attended(s, w, q);
    }
  }

  lemma DropKeeps(t: Topology, s: State, m: ModuleId, k: nat, q: set<RegionId>, p: set<ManagerId>, tidy: bool := true)
    requires Valid(t) && During(t, s, q, p, tidy) && Droppable(t, s, m, k)
    requires var c := t.mods[m].subs[k];
      s.mgrs[c].rr.Some? ==> s.mgrs[c].rr.value in s.regions && s.regions[s.mgrs[c].rr.value].count == 0
    ensures var n := SetRr(s, t.mods[m].subs[k], None); During(t, n, q, p, tidy) && Shrinks(s, n) && SameReconf(s, n)
  {
    hide Typed, ThreadsOk, HandlesOk, Counted, Exclusive, FlagsOk, CallsBound, Matching, LoadsOk, Tidy, Roots,
         DecoupledOk, Stationed, Leftovers, SettledPart, SplitPart, PathOk, Valid, Shrinks, SameReconf;
    var c := t.mods[m].subs[k];
    var n := SetRr(s, c, None);
    PointersShrink(s, c);
    DropTyped(t, s, c);
    MgrsThreads(s, n);
    MgrsMatching(t, s, n);
    SubsOnce(t, m, k);
    DropRoots(t, s, m, k);
    DropFrames(t, s, c);
    DropSettled(t, s, c, q, p);
    MgrsLeftovers(t, s, n, q, p, p);
    StationedLess(t, s, n);
    SameCounts(s, n);
    if tidy { DropTidy(t, s, m, k); }
  }

  /** A module that has been taken apart: not configured, no processes, no connected sub-manager. */
  ghost predicate TakenApart(t: Topology, s: State, m: ModuleId) {
    && m in t.mods && m in s.mods
    && s.mods[m] == Module(None, [])
    && (forall k | 0 <= k < |t.mods[m].subs| :: t.mods[m].subs[k] in s.mgrs && s.mgrs[t.mods[m].subs[k]].rr.None?)
  }

  lemma EmptyHomes(t: Topology, s: State, m: ModuleId)
    requires Homes(t, s) && TakenApart(t, s, m) && t.mods[m].home in s.mgrs
    requires s.mgrs[t.mods[m].home].current == Some(m)
    ensures Homes(t, SetCurrent(s, t.mods[m].home, None))
  {
  }

  lemma EmptyRoots(t: Topology, s: State, c: ManagerId)
    requires Roots(t, s) && c in s.mgrs
    ensures Roots(t, SetCurrent(s, c, None))
  {
  }

  lemma EmptyConnected(t: Topology, s: State, m: ModuleId)
    requires Connected(t, s) && TakenApart(t, s, m) && t.mods[m].home in s.mgrs && s.mgrs[t.mods[m].home].current == Some(m)
    ensures Connected(t, SetCurrent(s, t.mods[m].home, None))
  {
    var n := SetCurrent(s, t.mods[m].home, None);
    forall x, j | x in t.mods && x in n.mods && n.mods[x].configured.Some? && 0 <= j < |t.mods[x].subs|
      ensures t.mods[x].subs[j] in n.mgrs && n.mgrs[t.mods[x].subs[j]].rr == n.mods[x].configured
    {
      assert s.mgrs[t.mods[x].subs[j]].rr == s.mods[x].configured;
    }
    forall x, j | x in t.mods && 0 <= j < |t.mods[x].subs|
      ensures t.mods[x].subs[j] in n.mgrs && t.mods[x].home in n.mgrs
      ensures n.mgrs[t.mods[x].subs[j]].rr.Some? ==> n.mgrs[t.mods[x].home] == Manager(Some(x), n.mgrs[t.mods[x].subs[j]].rr)
    {
      if n.mgrs[t.mods[x].subs[j]].rr.Some? { assert s.mgrs[t.mods[x].subs[j]].rr.Some?; }
    }
  }

  lemma EmptyFrames(t: Topology, s: State, m: ModuleId, r: RegionId, q: set<RegionId>, p: set<ManagerId>)
    requires LoadsOk(t, s) && PathOk(s, q, p) && Typed(t, s) && Opened(t, s, m, r, q)
    ensures LoadsOk(t, SetCurrent(s, t.mods[m].home, None))
  {
    var n := SetCurrent(s, t.mods[m].home, None);
    forall i, a | 0 <= i < |n.threads| && 0 <= a < |n.threads[i].stack| && n.threads[i].stack[a].Load?
      ensures LoadOk(t, n, n.threads[i].stack[a])
    {
      LoadElsewhere(t, s, i, a, q, p);
    }
  }

  lemma EmptyBlocked(t: Topology, s: State, c: ManagerId)
    requires BlockedOk(t, s) && c in s.mgrs
    ensures BlockedOk(t, SetCurrent(s, c, None))
  {
    var n := SetCurrent(s, c, None);
    forall r | r in n.regions && n.regions[r].blocked && n.regions[r].count > 0 ensures Divided(t, n, r) {
      assert Divided(t, s, r);
      var m, k :| m in t.mods && 0 <= k < |t.mods[m].subs| && t.mods[m].subs[k] in s.mgrs
                  && s.mgrs[t.mods[m].subs[k]].rr == Some(r);
      assert n.mgrs[t.mods[m].subs[k]].rr == Some(r);
    }
  }

  lemma EmptyTidy(t: Topology, s: State, m: ModuleId)
    requires Tidy(t, s) && TakenApart(t, s, m) && t.mods[m].home in s.mgrs && s.mgrs[t.mods[m].home].current == Some(m)
    ensures Tidy(t, SetCurrent(s, t.mods[m].home, None))
  {
    hide Homes, Connected, BlockedOk, WaitsOk, TakenApart;
    ApartIn(t, s, m);
    EmptyHomes(t, s, m);
    EmptyConnected(t, s, m);
    EmptyBlocked(t, s, t.mods[m].home);
    WaitsSame(s, SetCurrent(s, t.mods[m].home, None));
  }

  lemma ApartIn(t: Topology, s: State, m: ModuleId)
    requires TakenApart(t, s, m)
    ensures m in t.mods && m in s.mods
  {
  }

  lemma EmptySettled(t: Topology, s: State, m: ModuleId, q: set<RegionId>, p: set<ManagerId>)
    requires SettledPart(t, s, q, p) && SplitPart(t, s, q, p) && PathOk(s, q, p)
    requires TakenApart(t, s, m) && t.mods[m].home in s.mgrs && s.mgrs[t.mods[m].home].current == Some(m)
    ensures var n, p1 := SetCurrent(s, t.mods[m].home, None), p - {t.mods[m].home};
      SettledPart(t, n, q, p1) && SplitPart(t, n, q, p1) && PathOk(n, q, p1)
  {
    var c := t.mods[m].home;
    var n, p1 := SetCurrent(s, c, None), p - {c};
    forall d | d in n.mgrs && d !in p1 && n.mgrs[d].current.Some? && n.mgrs[d].rr.Some?
               && Attended(n, n.mgrs[d].rr.value, q)
      ensures Settled(t, n, n.mgrs[d].current.value, n.mgrs[d].rr.value) || Tally(n.threads, LoadBy(d)) > 0
    {
      assert Attended(s, s.mgrs[d].rr.value, q);
    }
    forall k, j | k in t.mods && 0 <= j < |t.mods[k].subs| && t.mods[k].subs[j] in n.mgrs && !Unloading(t, n, k, p1)
                  && n.mgrs[t.mods[k].subs[j]].rr.Some? && Attended(n, n.mgrs[t.mods[k].subs[j]].rr.value, q)
      ensures k in n.mods && n.mods[k].configured == n.mgrs[t.mods[k].subs[j]].rr
    {
      assert Attended(s, s.mgrs[t.mods[k].subs[j]].rr.value, q);
    }
  }

  lemma EmptyKeeps(t: Topology, s: State, m: ModuleId, r: RegionId, q: set<RegionId>, p: set<ManagerId>, tidy: bool := true)
    requires During(t, s, q, p, tidy) && Opened(t, s, m, r, q) && TakenApart(t, s, m)
    ensures var n, p1 := SetCurrent(s, t.mods[m].home, None), p - {t.mods[m].home};
      During(t, n, q, p1, tidy) && Shrinks(s, n) && SameReconf(s, n)
  {
    hide Typed, ThreadsOk, HandlesOk, Counted, Exclusive, FlagsOk, CallsBound, Matching, LoadsOk, Tidy, Roots,
         DecoupledOk, Stationed, Leftovers, SettledPart, SplitPart, PathOk, Shrinks, SameReconf;
    var c := t.mods[m].home;
    var n := SetCurrent(s, c, None);
    PointersShrink(s, c);
    EmptyTyped(t, s, c);
    MgrsThreads(s, n);
    MgrsMatching(t, s, n);
    EmptyRoots(t, s, c);
    EmptyFrames(t, s, m, r, q, p);
    EmptySettled(t, s, m, q, p);
    MgrsLeftovers(t, s, n, q, p, p - {c});
    StationedLess(t, s, n);
    SameCounts(s, n);
    if tidy { EmptyTidy(t, s, m); }
  }

  // ---- marking a nested region -----------------------------------------------------------

  ghost predicate OnlyRegion(s: State, n: State, r: RegionId) {
    && r in s.regions && r in n.regions && n == s.(regions := s.regions[r := n.regions[r]])
    && n.regions[r].count == s.regions[r].count
  }

  lemma RegionThreads(t: Topology, s: State, n: State, r: RegionId)
    requires ThreadsOk(s) && HandlesOk(s) && DecoupledOk(s) && CallsBound(s) && OnlyRegion(s, n, r)
    ensures ThreadsOk(n) && HandlesOk(n) && DecoupledOk(n) && CallsBound(n)
  {
    forall i, a | 0 <= i < |n.threads| && 0 <= a < |n.threads[i].stack| && n.threads[i].stack[a].Call?
      ensures CallOk(n, n.threads[i].stack[a])
    {
      assert CallOk(s, s.threads[i].stack[a]);
    }
  }

  lemma RegionPointers(t: Topology, s: State, n: State, r: RegionId)
    requires Typed(t, s) && Matching(t, s) && Roots(t, s) && Counted(s) && Stationed(t, s)
    requires OnlyRegion(s, n, r)
    ensures Typed(t, n) && Matching(t, n) && Roots(t, n) && Counted(n) && Stationed(t, n)
  {
  }

  lemma RegionTidy(t: Topology, s: State, n: State, r: RegionId)
    requires Tidy(t, s) && OnlyRegion(s, n, r)
    requires n.regions[r].blocked && n.regions[r].count > 0 ==> Divided(t, s, r)
    ensures Tidy(t, n)
  {
    hide Homes, Connected, WaitsOk;
    SameHomes(t, s, n);
    SameConnected(t, s, n);
    WaitsSame(s, n);
    forall w | w in n.regions && n.regions[w].blocked && n.regions[w].count > 0 ensures Divided(t, n, w) {
      assert Divided(t, s, w);
    }
  }

  lemma SameHomes(t: Topology, s: State, n: State)
    requires Homes(t, s) && n.mgrs == s.mgrs && n.mods == s.mods
    ensures Homes(t, n)
  {
  }

  lemma MarkFrames(t: Topology, s: State, r: RegionId, b: bool)
    requires LoadsOk(t, s) && r in s.regions
    ensures LoadsOk(t, SetReconf(s, r, b))
  {
    var n := SetReconf(s, r, b);
    forall i, a | 0 <= i < |n.threads| && 0 <= a < |n.threads[i].stack| && n.threads[i].stack[a].Load?
      ensures LoadOk(t, n, n.threads[i].stack[a])
    {
      assert LoadOk(t, s, s.threads[i].stack[a]);
    }
  }

  lemma MarkLeftovers(t: Topology, s: State, r: RegionId, b: bool, q: set<RegionId>, q1: set<RegionId>, p: set<ManagerId>)
    requires Leftovers(t, s, q, p) && PathOk(s, q, p) && r in s.regions && s.regions[r].reconf != b
    requires if b then q1 == q + {r} else r in q && q1 == q - {r}
    ensures Leftovers(t, SetReconf(s, r, b), q1, p)
  {
    var n := SetReconf(s, r, b);
    forall x, w | x in n.mods && x in t.mods && n.mods[x].configured.None? && !Unloading(t, n, x, p)
                  && Belongs(t, t.mods[x].home, w) && Attended(n, w, q1)
      ensures n.mods[x].handles == []
    {
      assert Attended(s, w, q) && !Unloading(t, s, x, p);
    }
  }

  /** Marking a region moves it between "idle" and "opened by this operation". */
  lemma MarkSettled(t: Topology, s: State, r: RegionId, b: bool, q: set<RegionId>, q1: set<RegionId>, p: set<ManagerId>)
    requires SettledPart(t, s, q, p) && SplitPart(t, s, q, p) && PathOk(s, q, p) && Exclusive(s)
    requires r in s.regions && s.regions[r].reconf != b
    requires if b then q1 == q + {r} else r in q && q1 == q - {r}
    requires !b ==> forall c <- p | c in s.mgrs :: s.mgrs[c].rr != Some(r)
    ensures var n := SetReconf(s, r, b);
      SettledPart(t, n, q1, p) && SplitPart(t, n, q1, p) && PathOk(n, q1, p) && Exclusive(n)
  {
    var n := SetReconf(s, r, b);
    forall d | d in n.mgrs && d !in p && n.mgrs[d].current.Some? && n.mgrs[d].rr.Some?
               && Attended(n, n.mgrs[d].rr.value, q1)
      ensures Settled(t, n, n.mgrs[d].current.value, n.mgrs[d].rr.value) || Tally(n.threads, LoadBy(d)) > 0
    {
      assert Attended(s, s.mgrs[d].rr.value, q);
    }
    forall k, j | k in t.mods && 0 <= j < |t.mods[k].subs| && t.mods[k].subs[j] in n.mgrs && !Unloading(t, n, k, p)
                  && n.mgrs[t.mods[k].subs[j]].rr.Some? && Attended(n, n.mgrs[t.mods[k].subs[j]].rr.value, q1)
      ensures k in n.mods && n.mods[k].configured == n.mgrs[t.mods[k].subs[j]].rr
    {
      assert Attended(s, s.mgrs[t.mods[k].subs[j]].rr.value, q);
    }
  }

  lemma MarkKeeps(t: Topology, s: State, r: RegionId, b: bool, q: set<RegionId>, q1: set<RegionId>, p: set<ManagerId>,
                  tidy: bool := true)
    requires During(t, s, q, p, tidy)
    requires r in s.regions && s.regions[r].reconf != b
    requires if b then q1 == q + {r} else r in q && q1 == q - {r} && !s.regions[r].blocked
    requires !b ==> forall c <- p | c in s.mgrs :: s.mgrs[c].rr != Some(r)
    ensures During(t, SetReconf(s, r, b), q1, p, tidy)
  {
    hide Typed, ThreadsOk, HandlesOk, Counted, Exclusive, FlagsOk, CallsBound, Matching, LoadsOk, Tidy, Roots,
         DecoupledOk, Stationed, Leftovers, SettledPart, SplitPart, PathOk;
    var n := SetReconf(s, r, b);
    RegionThreads(t, s, n, r);
    RegionPointers(t, s, n, r);
    MarkFrames(t, s, r, b);
    MarkSettled(t, s, r, b, q, q1, p);
    MarkLeftovers(t, s, r, b, q, q1, p);
    MarkFlags(s, r, b);
    if tidy {
      if s.regions[r].blocked && s.regions[r].count > 0 { TidyBlocked(t, s, r); }
      RegionTidy(t, s, n, r);
    }
  }

  lemma TidyBlocked(t: Topology, s: State, r: RegionId)
    requires Tidy(t, s) && r in s.regions && s.regions[r].blocked && s.regions[r].count > 0
    ensures Divided(t, s, r)
  {
  }

  lemma MarkFlags(s: State, r: RegionId, b: bool)
    requires FlagsOk(s) && r in s.regions && (b || !s.regions[r].blocked)
    ensures FlagsOk(SetReconf(s, r, b))
  {
  }
}
