/** Every single effect of a load or a transaction keeps the invariant. */
module LoadEffects {
  import opened Model
  import opened Teardown
  import opened Invariants
  import opened Effects
  import opened UnloadSafety
  import opened Protocol

  // ---- changing one thread's stack -----------------------------------------------------

  /** `n` differs from `s` in the stack of live thread `i`. */
  ghost predicate Restacked(s: State, n: State, i: ThreadId) {
    && i < |s.threads| && s.threads[i].alive && |n.threads| == |s.threads|
    && n == s.(threads := s.threads[i := s.threads[i].(stack := n.threads[i].stack)])
  }

  lemma RestackPlain(t: Topology, s: State, n: State, i: ThreadId)
    requires Typed(t, s) && ThreadsOk(s) && HandlesOk(s) && Matching(t, s) && Restacked(s, n, i)
    ensures Typed(t, n) && ThreadsOk(n) && HandlesOk(n) && Matching(t, n)
  {
  }

  lemma RestackPointers(t: Topology, s: State, n: State, i: ThreadId)
    requires Roots(t, s) && Stationed(t, s) && DecoupledOk(s) && FlagsOk(s) && Restacked(s, n, i)
    ensures Roots(t, n) && Stationed(t, n) && DecoupledOk(n) && FlagsOk(n)
  {
  }

  /** Every wait in the new stack was there before, or is fine by itself. */
  lemma RestackTidy(t: Topology, s: State, n: State, i: ThreadId, old_: nat)
    requires Tidy(t, s) && Restacked(s, n, i)
    requires old_ <= |s.threads[i].stack| && old_ <= |n.threads[i].stack|
    requires n.threads[i].stack[..old_] == s.threads[i].stack[..old_]
    requires forall a | old_ <= a < |n.threads[i].stack| && n.threads[i].stack[a].Load? && n.threads[i].stack[a].phase == LoadWait ::
      WaitOk(s, n.threads[i].stack[a])
    ensures Tidy(t, n)
  {
    hide Homes, Connected;
    SameHomes(t, s, n);
    SameConnected(t, s, n);
    forall j, a | 0 <= j < |n.threads| && 0 <= a < |n.threads[j].stack| && n.threads[j].stack[a].Load?
                  && n.threads[j].stack[a].phase == LoadWait ensures WaitOk(n, n.threads[j].stack[a])
    {
      var f := n.threads[j].stack[a];
      if j != i {
        assert f == s.threads[j].stack[a] && WaitOk(s, s.threads[j].stack[a]);
      } else if a < old_ {
        assert f == n.threads[i].stack[..old_][a] == s.threads[i].stack[a];
        assert WaitOk(s, s.threads[i].stack[a]);
      }
    }
    forall r | r in n.regions && n.regions[r].blocked && n.regions[r].count > 0 ensures Divided(t, n, r) {
      assert Divided(t, s, r);
    }
  }

  /** Every entry of the new stacks was an entry before, or is fine by itself. */
  lemma RestackFrames(t: Topology, s: State, n: State, i: ThreadId, old_: nat)
    requires CallsBound(s) && LoadsOk(t, s) && Restacked(s, n, i)
    requires old_ <= |s.threads[i].stack| && old_ <= |n.threads[i].stack|
    requires n.threads[i].stack[..old_] == s.threads[i].stack[..old_]
    requires forall a | old_ <= a < |n.threads[i].stack| ::
      var f := n.threads[i].stack[a]; if f.Call? then CallOk(s, f) else LoadOk(t, s, f)
    ensures CallsBound(n) && LoadsOk(t, n)
  {
    forall j, a | 0 <= j < |n.threads| && 0 <= a < |n.threads[j].stack|
      ensures n.threads[j].stack[a].Call? ==> CallOk(n, n.threads[j].stack[a])
      ensures n.threads[j].stack[a].Load? ==> LoadOk(t, n, n.threads[j].stack[a])
    {
      var f := n.threads[j].stack[a];
      if j != i {
        assert f == s.threads[j].stack[a];
        if f.Call? { assert CallOk(s, f); } else { assert LoadOk(t, s, f); }
      } else if a < old_ {
        assert f == n.threads[i].stack[..old_][a] == s.threads[i].stack[a];
        if f.Call? { assert CallOk(s, f); } else { assert LoadOk(t, s, f); }
      }
    }
  }

  /** The counts after replacing thread `i`'s stack. */
  lemma PushTally(s: State, i: ThreadId, f: Frame)
    requires i < |s.threads|
    ensures forall q :: Tally(Push(s, i, f).threads, q) == Tally(s.threads, q) + Hit(f, q)
  {
    var n := Push(s, i, f);
    forall q ensures Tally(n.threads, q) == Tally(s.threads, q) + Hit(f, q) {
      TallyUpdate(s.threads, i, n.threads[i], q);
      InStackPush(s.threads[i].stack, f, q);
    }
  }

  lemma PushTallyOf(s: State, i: ThreadId, f: Frame, q: Query)
    requires i < |s.threads|
    ensures Tally(Push(s, i, f).threads, q) == Tally(s.threads, q) + Hit(f, q)
  {
    PushTally(s, i, f);
  }

  lemma PopTally(s: State, i: ThreadId)
    requires i < |s.threads| && s.threads[i].stack != []
    ensures forall q :: Tally(Pop(s, i).threads, q) + Hit(Top(s, i).value, q) == Tally(s.threads, q)
  {
    var n := Pop(s, i);
    forall q ensures Tally(n.threads, q) + Hit(Top(s, i).value, q) == Tally(s.threads, q) {
      TallyUpdate(s.threads, i, n.threads[i], q);
    }
  }

  // ---- suspending and resuming a load --------------------------------------------------

  /** While its thread executes a load, the region counts as opened by the operation. */
  lemma PopSettled(t: Topology, s: State, i: ThreadId)
    requires SettledPart(t, s, {}, {}) && SplitPart(t, s, {}, {}) && LoadsOk(t, s) && Exclusive(s)
    requires Top(s, i).Some? && Top(s, i).value.Load?
    ensures var f, n := Top(s, i).value, Pop(s, i);
      SettledPart(t, n, {f.rr}, {f.mgr}) && SplitPart(t, n, {f.rr}, {f.mgr}) && PathOk(n, {f.rr}, {f.mgr})
  {
    var f, n := Top(s, i).value, Pop(s, i);
    PopTally(s, i);
    var a := |s.threads[i].stack| - 1;
    assert s.threads[i].stack[a] == f && LoadOk(t, s, f);
    TallyMember(s.threads, i, a, LoadOn(f.rr));
    forall c | c in n.mgrs && c != f.mgr && n.mgrs[c].current.Some? && n.mgrs[c].rr.Some?
               && Attended(n, n.mgrs[c].rr.value, {f.rr})
      ensures Settled(t, n, n.mgrs[c].current.value, n.mgrs[c].rr.value) || Tally(n.threads, LoadBy(c)) > 0
    {
      assert Attended(s, s.mgrs[c].rr.value, {});
    }
    forall m, k | m in t.mods && 0 <= k < |t.mods[m].subs| && t.mods[m].subs[k] in n.mgrs && !Unloading(t, n, m, {f.mgr})
                  && n.mgrs[t.mods[m].subs[k]].rr.Some? && Attended(n, n.mgrs[t.mods[m].subs[k]].rr.value, {f.rr})
      ensures m in n.mods && n.mods[m].configured == n.mgrs[t.mods[m].subs[k]].rr
    {
      assert Attended(s, s.mgrs[t.mods[m].subs[k]].rr.value, {});
    }
  }

  lemma PopLoadCounts(t: Topology, s: State, i: ThreadId)
    requires Counted(s) && Exclusive(s) && Top(s, i).Some? && Top(s, i).value.Load?
    ensures Counted(Pop(s, i)) && Exclusive(Pop(s, i))
  {
    PopTally(s, i);
    var f := Top(s, i).value;
    forall r ensures Hit(f, LockOn(r)) == 0 {}
  }

  lemma PopLeftovers(t: Topology, s: State, i: ThreadId)
    requires Leftovers(t, s, {}, {}) && LoadsOk(t, s) && Top(s, i).Some? && Top(s, i).value.Load?
    ensures var f, n := Top(s, i).value, Pop(s, i); Leftovers(t, n, {f.rr}, {f.mgr})
  {
    var f, n := Top(s, i).value, Pop(s, i);
    PopTally(s, i);
    var a := |s.threads[i].stack| - 1;
    assert s.threads[i].stack[a] == f && LoadOk(t, s, f);
    TallyMember(s.threads, i, a, LoadOn(f.rr));
    forall m, r | m in n.mods && m in t.mods && n.mods[m].configured.None? && !Unloading(t, n, m, {f.mgr})
                  && Belongs(t, t.mods[m].home, r) && Attended(n, r, {f.rr})
      ensures n.mods[m].handles == []
    {
      assert Attended(s, r, {});
    }
  }

  lemma PopKeeps(t: Topology, s: State, i: ThreadId, tidy: bool := true)
    requires During(t, s, {}, {}, tidy) && i < |s.threads| && s.threads[i].alive && Top(s, i).Some? && Top(s, i).value.Load?
    ensures var f := Top(s, i).value;
      During(t, Pop(s, i), {f.rr}, {f.mgr}, tidy) && LoadOk(t, s, f) && s.regions[f.rr].reconf
  {
    hide Typed, ThreadsOk, HandlesOk, Counted, Exclusive, FlagsOk, CallsBound, Matching, LoadsOk, Tidy, Roots,
         DecoupledOk, Stationed, Leftovers, SettledPart, SplitPart, PathOk, LoadOk;
    var n, f := Pop(s, i), Top(s, i).value;
    RestackPlain(t, s, n, i);
    RestackPointers(t, s, n, i);
    RestackFrames(t, s, n, i, |n.threads[i].stack|);
    PopLoadCounts(t, s, i);
    PopSettled(t, s, i);
    PopLeftovers(t, s, i);
    TopLoad(t, s, i);
    if tidy { RestackTidy(t, s, n, i, |n.threads[i].stack|); }
  }

  lemma TopLoad(t: Topology, s: State, i: ThreadId)
    requires LoadsOk(t, s) && Exclusive(s) && Top(s, i).Some? && Top(s, i).value.Load?
    ensures var f := Top(s, i).value; LoadOk(t, s, f) && s.regions[f.rr].reconf
  {
    var a := |s.threads[i].stack| - 1;
    assert s.threads[i].stack[a] == Top(s, i).value;
    assert LoadOk(t, s, s.threads[i].stack[a]);
    TallyMember(s.threads, i, a, LoadOn(s.threads[i].stack[a].rr));
    assert Hit(s.threads[i].stack[a], LoadOn(s.threads[i].stack[a].rr)) == 1;
  }

  /** The connected sub-managers of a module are where the module is configured. */
  ghost predicate SplitAt(t: Topology, s: State, m: ModuleId) {
    m in t.mods && m in s.mods && forall k | 0 <= k < |t.mods[m].subs| && t.mods[m].subs[k] in s.mgrs
                                            && s.mgrs[t.mods[m].subs[k]].rr.Some? ::
      s.mods[m].configured == s.mgrs[t.mods[m].subs[k]].rr
  }

  lemma PushSettled(t: Topology, s: State, i: ThreadId, f: Frame, p: set<ManagerId>)
    requires SettledPart(t, s, {f.rr}, p) && SplitPart(t, s, {f.rr}, p) && PathOk(s, {f.rr}, p)
    requires f.Load? && i < |s.threads| && p <= {f.mgr} && LoadOk(t, s, f) && Exclusive(s) && SplitAt(t, s, f.mod)
    ensures var n := Push(s, i, f); SettledPart(t, n, {}, {}) && SplitPart(t, n, {}, {}) && Exclusive(n)
  {
    hide SettledPart, SplitPart, SplitAt;
    PushTally(s, i, f);
    PushSettledOnly(t, s, i, f, p);
    PushSplit(t, s, i, f, p);
  }

  lemma PushSettledOnly(t: Topology, s: State, i: ThreadId, f: Frame, p: set<ManagerId>)
    requires SettledPart(t, s, {f.rr}, p)
    requires f.Load? && i < |s.threads| && p <= {f.mgr}
    ensures SettledPart(t, Push(s, i, f), {}, {})
  {
    var n := Push(s, i, f);
    forall c | c in n.mgrs && n.mgrs[c].current.Some? && n.mgrs[c].rr.Some?
               && Attended(n, n.mgrs[c].rr.value, {})
      ensures Settled(t, n, n.mgrs[c].current.value, n.mgrs[c].rr.value) || Tally(n.threads, LoadBy(c)) > 0
    {
      PushTallyOf(s, i, f, LoadBy(c));
      PushTallyOf(s, i, f, LoadOn(n.mgrs[c].rr.value));
      if c == f.mgr {
        assert Hit(f, LoadBy(c)) == 1;
      } else {
        assert Attended(s, s.mgrs[c].rr.value, {f.rr});
      }
    }
  }

  lemma PushSplit(t: Topology, s: State, i: ThreadId, f: Frame, p: set<ManagerId>)
    requires SplitPart(t, s, {f.rr}, p)
    requires f.Load? && i < |s.threads| && p <= {f.mgr} && LoadOk(t, s, f) && SplitAt(t, s, f.mod)
    ensures SplitPart(t, Push(s, i, f), {}, {})
  {
    var n := Push(s, i, f);
    forall m, k | m in t.mods && 0 <= k < |t.mods[m].subs| && t.mods[m].subs[k] in n.mgrs
                  && n.mgrs[t.mods[m].subs[k]].rr.Some? && Attended(n, n.mgrs[t.mods[m].subs[k]].rr.value, {})
      ensures m in n.mods && n.mods[m].configured == n.mgrs[t.mods[m].subs[k]].rr
    {
      PushTallyOf(s, i, f, LoadOn(n.mgrs[t.mods[m].subs[k]].rr.value));
      if m != f.mod {
        assert !Unloading(t, s, m, p);
        assert Attended(s, s.mgrs[t.mods[m].subs[k]].rr.value, {f.rr});
      }
    }
  }

  lemma PushLeftovers(t: Topology, s: State, i: ThreadId, f: Frame, p: set<ManagerId>)
    requires Leftovers(t, s, {f.rr}, p)
    requires f.Load? && i < |s.threads| && p <= {f.mgr} && LoadOk(t, s, f)
    ensures Leftovers(t, Push(s, i, f), {}, {})
  {
    var n := Push(s, i, f);
    forall m, r | m in n.mods && m in t.mods && n.mods[m].configured.None? && !Unloading(t, n, m, {})
                  && Belongs(t, t.mods[m].home, r) && Attended(n, r, {})
      ensures n.mods[m].handles == []
    {
      PushTallyOf(s, i, f, LoadOn(r));
      if m != f.mod {
        assert !Unloading(t, s, m, p);
        assert Attended(s, r, {f.rr});
      }
    }
  }

  lemma PushLoadCounts(s: State, i: ThreadId, f: Frame)
    requires Counted(s) && i < |s.threads| && f.Load?
    ensures Counted(Push(s, i, f))
  {
    PushTally(s, i, f);
    forall r ensures Hit(f, LockOn(r)) == 0 {}
  }

  /** Handing the opened region over to a waiting load. */
  lemma PushKeeps(t: Topology, s: State, i: ThreadId, f: Frame, p: set<ManagerId>, tidy: bool := true)
    requires f.Load? && During(t, s, {f.rr}, p, tidy) && p <= {f.mgr}
    requires i < |s.threads| && s.threads[i].alive && LoadOk(t, s, f) && SplitAt(t, s, f.mod)
    requires tidy && f.phase == LoadWait ==> WaitOk(s, f)
    ensures During(t, Push(s, i, f), {}, {}, tidy)
  {
    hide Typed, ThreadsOk, HandlesOk, Counted, Exclusive, FlagsOk, CallsBound, Matching, LoadsOk, Tidy, Roots,
         DecoupledOk, Stationed, Leftovers, SettledPart, SplitPart, LoadOk, SplitAt;
    var n := Push(s, i, f);
    RestackPlain(t, s, n, i);
    RestackPointers(t, s, n, i);
    RestackFrames(t, s, n, i, |s.threads[i].stack|);
    PushLoadCounts(s, i, f);
    PushSettled(t, s, i, f, p);
    PushLeftovers(t, s, i, f, p);
    if tidy { RestackTidy(t, s, n, i, |s.threads[i].stack|); }
  }

  // ---- blocking transactions -------------------------------------------------------------

  /** Loads on regions the operation has not opened do not notice a change of region `r`. */
  lemma OpenedFrames(t: Topology, s: State, n: State, r: RegionId, q: set<RegionId>, p: set<ManagerId>)
    requires LoadsOk(t, s) && PathOk(s, q, p) && r in q && OnlyRegion(s, n, r)
    ensures LoadsOk(t, n)
  {
    forall i, a | 0 <= i < |n.threads| && 0 <= a < |n.threads[i].stack| && n.threads[i].stack[a].Load?
      ensures LoadOk(t, n, n.threads[i].stack[a])
    {
      LoadElsewhere(t, s, i, a, q, p);
    }
  }

  lemma BlockSettled(t: Topology, s: State, r: RegionId, b: bool, q: set<RegionId>, p: set<ManagerId>)
    requires SettledPart(t, s, q, p) && SplitPart(t, s, q, p) && PathOk(s, q, p) && r in s.regions
    ensures var n := SetBlocked(s, r, b); SettledPart(t, n, q, p) && SplitPart(t, n, q, p) && PathOk(n, q, p)
  {
    var n := SetBlocked(s, r, b);
    forall d | d in n.mgrs && d !in p && n.mgrs[d].current.Some? && n.mgrs[d].rr.Some?
               && Attended(n, n.mgrs[d].rr.value, q)
      ensures Settled(t, n, n.mgrs[d].current.value, n.mgrs[d].rr.value) || Tally(n.threads, LoadBy(d)) > 0
    {
      assert Attended(s, s.mgrs[d].rr.value, q);
    }
    forall k, j | k in t.mods && 0 <= j < |t.mods[k].subs| && t.mods[k].subs[j] in n.mgrs && !Unloading(t, n, k, p)
                  && n.mgrs[t.mods[k].subs[j]].rr.Some? && Attended(n, n.mgrs[t.mods[k].subs[j]].rr.value, q)
      ensures k in n.mods && n.mods[k].configured == n.mgrs[t.mods[k].subs[j]].rr
    {
      assert Attended(s, s.mgrs[t.mods[k].subs[j]].rr.value, q);
    }
  }

  lemma BlockLeftovers(t: Topology, s: State, r: RegionId, b: bool, q: set<RegionId>, p: set<ManagerId>)
    requires Leftovers(t, s, q, p) && r in s.regions
    ensures Leftovers(t, SetBlocked(s, r, b), q, p)
  {
    var n := SetBlocked(s, r, b);
    forall x, w | x in n.mods && x in t.mods && n.mods[x].configured.None? && !Unloading(t, n, x, p)
                  && Belongs(t, t.mods[x].home, w) && Attended(n, w, q)
      ensures n.mods[x].handles == []
    {
      assert Attended(s, w, q) && !Unloading(t, s, x, p);
    }
  }

  lemma BlockFlags(s: State, r: RegionId, b: bool)
    requires FlagsOk(s) && Exclusive(s) && r in s.regions && s.regions[r].reconf
    ensures var n := SetBlocked(s, r, b); FlagsOk(n) && Exclusive(n)
  {
  }

  lemma BlockKeeps(t: Topology, s: State, r: RegionId, b: bool, q: set<RegionId>, p: set<ManagerId>, tidy: bool := true)
    requires During(t, s, q, p, tidy) && r in q && r in s.regions && s.regions[r].reconf
    requires tidy && b ==> s.regions[r].count == 0 || Divided(t, s, r)
    ensures During(t, SetBlocked(s, r, b), q, p, tidy)
  {
    hide Typed, ThreadsOk, HandlesOk, Counted, Exclusive, FlagsOk, CallsBound, Matching, LoadsOk, Tidy, Roots,
         DecoupledOk, Stationed, Leftovers, SettledPart, SplitPart, PathOk;
    var n := SetBlocked(s, r, b);
    RegionThreads(t, s, n, r);
    RegionPointers(t, s, n, r);
    OpenedFrames(t, s, n, r, q, p);
    BlockSettled(t, s, r, b, q, p);
    BlockLeftovers(t, s, r, b, q, p);
    BlockFlags(s, r, b);
    if tidy { RegionTidy(t, s, n, r); }
  }

  /** A region without a connected sub-manager whose own manager is empty has no live call. */
  lemma EmptyIsQuiet(t: Topology, s: State, r: RegionId)
    requires Valid(t) && Counted(s) && CallsBound(s) && Matching(t, s) && Homes(t, s) && Roots(t, s) && Typed(t, s)
    requires r in t.root && r in s.regions && s.regions[r].count > 0
    requires t.root[r] in s.mgrs && s.mgrs[t.root[r]].current.None?
    ensures Divided(t, s, r)
  {
    hide Valid;
    var i, a := TallyWitness(s.threads, LockOn(r));
    var f := s.threads[i].stack[a];
    assert CallOk(s, f);
    OwnedRegion(t, s, t.mods[f.mod].home, r);
  }

  /** A manager connected to `r` is the region's own or a sub-manager. */
  lemma OwnedRegion(t: Topology, s: State, c: ManagerId, r: RegionId)
    requires Valid(t) && Roots(t, s) && c in s.mgrs && c in t.mgrs && s.mgrs[c].rr == Some(r) && r in t.root
    ensures t.root[r] == c || Divided(t, s, r)
  {
    assert Owned(t, c);
    if IsSub(t, c) {
      var m, k :| m in t.mods && 0 <= k < |t.mods[m].subs| && t.mods[m].subs[k] == c;
      assert s.mgrs[t.mods[m].subs[k]].rr == Some(r);
    }
  }

  // ---- taking a new module -----------------------------------------------------------------

  lemma TakeRoots(t: Topology, s: State, c: ManagerId, m: ModuleId)
    requires Typed(t, s) && Roots(t, s) && m in t.mods && t.mods[m].home == c && c in s.mgrs && s.mgrs[c].rr.Some?
    ensures var n := SetCurrent(s, c, Some(m)); Typed(t, n) && Roots(t, n)
  {
  }

  lemma TakeConnected(t: Topology, s: State, c: ManagerId, m: ModuleId)
    requires Connected(t, s) && m in t.mods && t.mods[m].home == c && c in s.mgrs && s.mgrs[c].current.None?
    ensures Connected(t, SetCurrent(s, c, Some(m)))
    ensures forall k | 0 <= k < |t.mods[m].subs| :: t.mods[m].subs[k] in s.mgrs && s.mgrs[t.mods[m].subs[k]].rr.None?
  {
    var n := SetCurrent(s, c, Some(m));
    forall x, j | x in t.mods && x in n.mods && n.mods[x].configured.Some? && 0 <= j < |t.mods[x].subs|
      ensures t.mods[x].subs[j] in n.mgrs && n.mgrs[t.mods[x].subs[j]].rr == n.mods[x].configured
    {
      assert s.mgrs[t.mods[x].subs[j]].rr == s.mods[x].configured;
    }
    forall x, j | x in t.mods && 0 <= j < |t.mods[x].subs|
      ensures t.mods[x].subs[j] in n.mgrs && t.mods[x].home in n.mgrs
      ensures n.mgrs[t.mods[x].subs[j]].rr.Some? ==> n.mgrs[t.mods[x].home] == Manager(Some(x), n.mgrs[t.mods[x].subs[j]].rr)
    {
      if n.mgrs[t.mods[x].subs[j]].rr.Some? { assert s.mgrs[t.mods[x].subs[j]].rr.Some?; }
    }
  }

  lemma TakeHomes(t: Topology, s: State, c: ManagerId, m: ModuleId)
    requires Homes(t, s) && c in s.mgrs && s.mgrs[c].current.None?
    ensures Homes(t, SetCurrent(s, c, Some(m)))
    ensures m in t.mods && m in s.mods && t.mods[m].home == c ==> s.mods[m] == Module(None, [])
  {
  }

  lemma TakeTidy(t: Topology, s: State, c: ManagerId, m: ModuleId)
    requires Tidy(t, s) && m in t.mods && m in s.mods && t.mods[m].home == c && c in s.mgrs && s.mgrs[c].current.None?
    ensures Tidy(t, SetCurrent(s, c, Some(m))) && s.mods[m] == Module(None, [])
    ensures forall k | 0 <= k < |t.mods[m].subs| :: t.mods[m].subs[k] in s.mgrs && s.mgrs[t.mods[m].subs[k]].rr.None?
  {
    hide Homes, Connected, BlockedOk, WaitsOk;
    TakeHomes(t, s, c, m);
    TakeConnected(t, s, c, m);
    TakeBlocked(t, s, c, Some(m));
    WaitsSame(s, SetCurrent(s, c, Some(m)));
  }

  lemma TakeBlocked(t: Topology, s: State, c: ManagerId, m: Option<ModuleId>)
    requires BlockedOk(t, s) && c in s.mgrs
    ensures BlockedOk(t, SetCurrent(s, c, m))
  {
    var n := SetCurrent(s, c, m);
    forall r | r in n.regions && n.regions[r].blocked && n.regions[r].count > 0 ensures Divided(t, n, r) {
      assert Divided(t, s, r);
      var x, k :| x in t.mods && 0 <= k < |t.mods[x].subs| && t.mods[x].subs[k] in s.mgrs
                  && s.mgrs[t.mods[x].subs[k]].rr == Some(r);
      assert n.mgrs[t.mods[x].subs[k]].rr == Some(r);
    }
  }

  /** No load is in progress for a manager of an opened region. */
  lemma TakeFrames(t: Topology, s: State, c: ManagerId, m: Option<ModuleId>, q: set<RegionId>, p: set<ManagerId>)
    requires LoadsOk(t, s) && PathOk(s, q, p) && c in s.mgrs && s.mgrs[c].rr.Some? && s.mgrs[c].rr.value in q
    ensures LoadsOk(t, SetCurrent(s, c, m))
  {
    var n := SetCurrent(s, c, m);
    forall i, a | 0 <= i < |n.threads| && 0 <= a < |n.threads[i].stack| && n.threads[i].stack[a].Load?
      ensures LoadOk(t, n, n.threads[i].stack[a])
    {
      LoadElsewhere(t, s, i, a, q, p);
    }
  }

  /** On an opened region a module that is not configured has no handles, and its sub-managers are
      connected only if it is configured. */
  lemma Untouched(t: Topology, s: State, c: ManagerId, m: ModuleId, q: set<RegionId>, p: set<ManagerId>)
    requires Valid(t) && Typed(t, s) && Stationed(t, s) && Leftovers(t, s, q, p) && SplitPart(t, s, q, p) && PathOk(s, q, p)
    requires m in t.mods && t.mods[m].home == c && c in s.mgrs && c !in p && s.mgrs[c].rr.Some? && s.mgrs[c].rr.value in q
    ensures m in s.mods && SplitAt(t, s, m) && (s.mods[m].configured.None? ==> s.mods[m].handles == [])
  {
    hide Valid, Leftovers, SplitPart;
    KeysOf(t, s);
    var r := s.mgrs[c].rr.value;
    assert Attended(s, r, q) && !Unloading(t, s, m, p) && Belongs(t, c, r);
    UntouchedHandles(t, s, m, r, q, p);
    forall k | 0 <= k < |t.mods[m].subs| && t.mods[m].subs[k] in s.mgrs && s.mgrs[t.mods[m].subs[k]].rr.Some?
      ensures s.mods[m].configured == s.mgrs[t.mods[m].subs[k]].rr
    {
      SubOfIs(t, m, k);
      SubBelongs(t, t.mods[m].subs[k], m, r);
      BelongsOnce(t, t.mods[m].subs[k], r, s.mgrs[t.mods[m].subs[k]].rr.value);
      UntouchedSub(t, s, m, k, r, q, p);
    }
  }

  lemma UntouchedHandles(t: Topology, s: State, m: ModuleId, r: RegionId, q: set<RegionId>, p: set<ManagerId>)
    requires Leftovers(t, s, q, p) && m in t.mods && m in s.mods && !Unloading(t, s, m, p) && Belongs(t, t.mods[m].home, r)
    requires Attended(s, r, q)
    ensures s.mods[m].configured.None? ==> s.mods[m].handles == []
  {
  }

  lemma UntouchedSub(t: Topology, s: State, m: ModuleId, k: nat, r: RegionId, q: set<RegionId>, p: set<ManagerId>)
    requires SplitPart(t, s, q, p) && m in t.mods && k < |t.mods[m].subs| && t.mods[m].subs[k] in s.mgrs
    requires !Unloading(t, s, m, p) && s.mgrs[t.mods[m].subs[k]].rr == Some(r) && Attended(s, r, q)
    ensures m in s.mods && s.mods[m].configured == Some(r)
  {
  }

  lemma TakeSettled(t: Topology, s: State, c: ManagerId, m: Option<ModuleId>, q: set<RegionId>, p: set<ManagerId>)
    requires SettledPart(t, s, q, p) && SplitPart(t, s, q, p) && PathOk(s, q, p)
    requires c in s.mgrs && c !in p && s.mgrs[c].rr.Some? && s.mgrs[c].rr.value in q
    ensures var n, p1 := SetCurrent(s, c, m), p + {c};
      SettledPart(t, n, q, p1) && SplitPart(t, n, q, p1) && PathOk(n, q, p1)
  {
    var n, p1 := SetCurrent(s, c, m), p + {c};
    forall d | d in n.mgrs && d !in p1 && n.mgrs[d].current.Some? && n.mgrs[d].rr.Some?
               && Attended(n, n.mgrs[d].rr.value, q)
      ensures Settled(t, n, n.mgrs[d].current.value, n.mgrs[d].rr.value) || Tally(n.threads, LoadBy(d)) > 0
    {
      assert Attended(s, s.mgrs[d].rr.value, q);
    }
    forall k, j | k in t.mods && 0 <= j < |t.mods[k].subs| && t.mods[k].subs[j] in n.mgrs && !Unloading(t, n, k, p1)
                  && n.mgrs[t.mods[k].subs[j]].rr.Some? && Attended(n, n.mgrs[t.mods[k].subs[j]].rr.value, q)
      ensures k in n.mods && n.mods[k].configured == n.mgrs[t.mods[k].subs[j]].rr
    {
      assert Attended(s, s.mgrs[t.mods[k].subs[j]].rr.value, q);
    }
  }

  /** A manager of an opened region takes a module; while no module has been lost it is empty before. */
  lemma TakeKeeps(t: Topology, s: State, c: ManagerId, m: ModuleId, q: set<RegionId>, p: set<ManagerId>, tidy: bool := true)
    requires Valid(t) && During(t, s, q, p, tidy) && m in t.mods && t.mods[m].home == c && c !in p
    requires c in s.mgrs && s.mgrs[c].rr.Some? && s.mgrs[c].rr.value in q && (tidy ==> s.mgrs[c].current.None?)
    ensures During(t, SetCurrent(s, c, Some(m)), q, p + {c}, tidy)
    ensures m in s.mods && SplitAt(t, s, m) && (s.mods[m].configured.None? ==> s.mods[m].handles == [])
    ensures tidy ==> (s.mods[m] == Module(None, [])
      && forall k | 0 <= k < |t.mods[m].subs| :: t.mods[m].subs[k] in s.mgrs && s.mgrs[t.mods[m].subs[k]].rr.None?)
  {
    hide Typed, ThreadsOk, HandlesOk, Counted, Exclusive, FlagsOk, CallsBound, Matching, LoadsOk, Tidy, Roots,
         DecoupledOk, Stationed, Leftovers, SettledPart, SplitPart, PathOk, SplitAt, Valid;
    var n := SetCurrent(s, c, Some(m));
    MgrsThreads(s, n);
    MgrsMatching(t, s, n);
    TakeRoots(t, s, c, m);
    TakeFrames(t, s, c, Some(m), q, p);
    TakeSettled(t, s, c, Some(m), q, p);
    MgrsLeftovers(t, s, n, q, p, p + {c});
    StationedLess(t, s, n);
    Untouched(t, s, c, m, q, p);
    SameCounts(s, n);
    if tidy { TakeTidy(t, s, c, m); }
  }

  // ---- coupling ------------------------------------------------------------------------------

  /** Manager `c` of an opened region holds `m`, which is not coupled yet. */
  ghost predicate Fresh(t: Topology, s: State, c: ManagerId, m: ModuleId, r: RegionId, q: set<RegionId>, p: set<ManagerId>) {
    && m in t.mods && m in s.mods && t.mods[m].home == c && c in p && r in q && r in s.regions
    && c in s.mgrs && s.mgrs[c] == Manager(Some(m), Some(r)) && s.mods[m] == Module(None, [])
    && forall k | 0 <= k < |t.mods[m].subs| :: t.mods[m].subs[k] in s.mgrs && s.mgrs[t.mods[m].subs[k]].rr.None?
  }

  lemma CoupleTyped(t: Topology, s: State, m: ModuleId, r: RegionId, sync: bool)
    requires Typed(t, s) && ThreadsOk(s) && HandlesOk(s) && m in t.mods && r in t.root
    ensures var n := Couple(t, s, m, r, sync); Typed(t, n) && ThreadsOk(n) && HandlesOk(n)
  {
  }

  lemma CoupleBound(t: Topology, s: State, m: ModuleId, r: RegionId, sync: bool)
    requires m in t.mods && m in s.mods && CanCouple(t, s, m, r)
    ensures var n := Couple(t, s, m, r, sync);
      && (forall k <- n.bound :: if k.0 == r && k.1 in t.mods[m].members then n.bound[k] == m
                                 else k in s.bound && n.bound[k] == s.bound[k])
      && (forall k <- s.bound :: k in n.bound && n.bound[k] == s.bound[k])
      && (forall x <- t.mods[m].members :: (r, x) in n.bound && n.bound[(r, x)] == m)
  {
    var n := Couple(t, s, m, r, sync);
    var add := map x <- t.mods[m].members :: (r, x) := m;
    forall x <- t.mods[m].members ensures (r, x) in add && add[(r, x)] == m {}
    forall k <- s.bound ensures k !in add {}
  }

  lemma CoupleMatching(t: Topology, s: State, m: ModuleId, r: RegionId, sync: bool)
    requires Matching(t, s) && m in t.mods && m in s.mods && CanCouple(t, s, m, r)
    ensures Matching(t, Couple(t, s, m, r, sync))
  {
    CoupleBound(t, s, m, r, sync);
  }

  /** A synchronised bind clears the flag; without synchronisation no flag may be set. */
  lemma CoupleDecoupled(t: Topology, s: State, m: ModuleId, r: RegionId, sync: bool)
    requires DecoupledOk(s) && m in t.mods && m in s.mods && CanCouple(t, s, m, r)
    requires sync || !s.started
    ensures DecoupledOk(Couple(t, s, m, r, sync))
  {
    CoupleBound(t, s, m, r, sync);
    var n := Couple(t, s, m, r, sync);
    assert forall x <- t.mods[m].members :: (r, x) in Keys(r, t.mods[m].members);
  }

  /** What coupling does to the pointers. */
  lemma CoupleEffect(t: Topology, s: State, m: ModuleId, r: RegionId, sync: bool)
    requires m in t.mods && m in s.mods
    ensures var n := Couple(t, s, m, r, sync);
      && n.mods.Keys == s.mods.Keys && n.mgrs.Keys == s.mgrs.Keys
      && n.mods[m] == Module(Some(r), s.mods[m].handles)
      && (forall x <- s.mods | x != m :: n.mods[x] == s.mods[x])
      && (forall d <- s.mgrs | d !in t.mods[m].subs :: n.mgrs[d] == s.mgrs[d])
      && (forall d <- s.mgrs | d in t.mods[m].subs :: n.mgrs[d] == Manager(s.mgrs[d].current, Some(r)))
  {
  }

  lemma CoupleHomes(t: Topology, s: State, c: ManagerId, m: ModuleId, r: RegionId, sync: bool, q: set<RegionId>, p: set<ManagerId>)
    requires Valid(t) && Homes(t, s) && Fresh(t, s, c, m, r, q, p)
    ensures Homes(t, Couple(t, s, m, r, sync))
  {
    hide Valid, Couple;
    LayeredSubs(t, m);
    CoupleEffect(t, s, m, r, sync);
    assert t.mods[m].home !in t.mods[m].subs;
  }

  lemma CoupleRoots(t: Topology, s: State, m: ModuleId, r: RegionId, sync: bool)
    requires Valid(t) && Roots(t, s) && m in t.mods && m in s.mods
    ensures Roots(t, Couple(t, s, m, r, sync))
  {
    hide Valid, Couple;
    LayeredSubs(t, m);
    CoupleEffect(t, s, m, r, sync);
  }

  lemma CoupleStationed(t: Topology, s: State, m: ModuleId, r: RegionId, sync: bool)
    requires Valid(t) && Stationed(t, s) && m in t.mods && m in s.mods && t.mods[m].home in s.mgrs
    requires s.mgrs[t.mods[m].home].rr == Some(r)
    ensures Stationed(t, Couple(t, s, m, r, sync))
  {
    hide Valid, Couple, Belongs;
    CoupleEffect(t, s, m, r, sync);
    var n := Couple(t, s, m, r, sync);
    forall c <- n.mgrs | n.mgrs[c].rr.Some? ensures Belongs(t, c, n.mgrs[c].rr.value) {
      if c in t.mods[m].subs {
        var k :| 0 <= k < |t.mods[m].subs| && t.mods[m].subs[k] == c;
        SubOfIs(t, m, k);
        SubBelongs(t, c, m, r);
      }
    }
  }

  lemma CoupleLeftovers(t: Topology, s: State, m: ModuleId, r: RegionId, sync: bool, q: set<RegionId>, p: set<ManagerId>)
    requires Leftovers(t, s, q, p) && m in t.mods && m in s.mods
    ensures Leftovers(t, Couple(t, s, m, r, sync), q, p)
  {
    hide Couple;
    CoupleEffect(t, s, m, r, sync);
    CoupleSame(t, s, m, r, sync);
    var n := Couple(t, s, m, r, sync);
    forall x, w | x in n.mods && x in t.mods && n.mods[x].configured.None? && !Unloading(t, n, x, p)
                  && Belongs(t, t.mods[x].home, w) && Attended(n, w, q)
      ensures n.mods[x].handles == []
    {
      assert Attended(s, w, q) && !Unloading(t, s, x, p);
    }
  }

  lemma CoupleSame(t: Topology, s: State, m: ModuleId, r: RegionId, sync: bool)
    requires m in t.mods && m in s.mods
    ensures var n := Couple(t, s, m, r, sync); n.threads == s.threads && n.regions == s.regions && n.started == s.started
  {
  }

  /** Nobody else waits for the module being coupled. */
  lemma CoupleWaits(t: Topology, s: State, c: ManagerId, m: ModuleId, r: RegionId, sync: bool, q: set<RegionId>, p: set<ManagerId>)
    requires WaitsOk(s) && LoadsOk(t, s) && PathOk(s, q, p) && Typed(t, s) && Fresh(t, s, c, m, r, q, p)
    ensures WaitsOk(Couple(t, s, m, r, sync))
  {
    var n := Couple(t, s, m, r, sync);
    forall i, a | 0 <= i < |n.threads| && 0 <= a < |n.threads[i].stack| && n.threads[i].stack[a].Load?
                  && n.threads[i].stack[a].phase == LoadWait ensures WaitOk(n, n.threads[i].stack[a])
    {
      assert WaitOk(s, s.threads[i].stack[a]);
      LoadElsewhere(t, s, i, a, q, p);
      assert t.mods[s.threads[i].stack[a].mod].home == s.threads[i].stack[a].mgr;
    }
  }

  /** No manager contains itself, and none is a region's own and a sub-manager at once. */
  lemma LayeredSubs(t: Topology, m: ModuleId)
    requires Valid(t) && m in t.mods
    ensures t.mods[m].home !in t.mods[m].subs
    ensures forall r <- t.root :: t.root[r] !in t.mods[m].subs
  {
  }

  lemma SubUnique(t: Topology, k: ModuleId, j: nat, m: ModuleId)
    requires Valid(t) && k in t.mods && m in t.mods && j < |t.mods[k].subs|
    ensures t.mods[k].subs[j] in t.mods[m].subs ==> k == m
  {
  }

  lemma CoupleConnected(t: Topology, s: State, c: ManagerId, m: ModuleId, r: RegionId, sync: bool, q: set<RegionId>, p: set<ManagerId>)
    requires Valid(t) && Roots(t, s) && Connected(t, s) && Fresh(t, s, c, m, r, q, p)
    ensures Connected(t, Couple(t, s, m, r, sync))
  {
    hide Valid, Couple;
    LayeredSubs(t, m);
    CoupleEffect(t, s, m, r, sync);
    var n := Couple(t, s, m, r, sync);
    forall x, j | x in t.mods && 0 <= j < |t.mods[x].subs|
      ensures t.mods[x].subs[j] in n.mgrs && t.mods[x].home in n.mgrs
      ensures n.mgrs[t.mods[x].subs[j]].rr.Some? ==>
                n.mgrs[t.mods[x].home] == Manager(Some(x), n.mgrs[t.mods[x].subs[j]].rr)
      ensures x in n.mods && n.mods[x].configured.Some? ==> n.mgrs[t.mods[x].subs[j]].rr == n.mods[x].configured
    {
      SubUnique(t, x, j, m);
      if x != m && s.mgrs[t.mods[x].subs[j]].rr.Some? {
        assert s.mgrs[t.mods[x].home].current == Some(x);
        assert t.mods[x].home !in t.mods[m].subs;
      }
    }
  }

  lemma CoupleFrames(t: Topology, s: State, c: ManagerId, m: ModuleId, r: RegionId, sync: bool, q: set<RegionId>, p: set<ManagerId>)
    requires LoadsOk(t, s) && CallsBound(s) && PathOk(s, q, p) && Typed(t, s) && Roots(t, s) && Fresh(t, s, c, m, r, q, p)
    requires CanCouple(t, s, m, r)
    ensures var n := Couple(t, s, m, r, sync); LoadsOk(t, n) && CallsBound(n)
  {
    CoupleBound(t, s, m, r, sync);
    var n := Couple(t, s, m, r, sync);
    forall i, a | 0 <= i < |n.threads| && 0 <= a < |n.threads[i].stack|
      ensures n.threads[i].stack[a].Load? ==> LoadOk(t, n, n.threads[i].stack[a])
      ensures n.threads[i].stack[a].Call? ==> CallOk(n, n.threads[i].stack[a])
    {
      var f := s.threads[i].stack[a];
      if f.Load? {
        LoadElsewhere(t, s, i, a, q, p);
        assert t.mods[f.mod].home == f.mgr;
        assert f.mgr !in t.mods[m].subs;
      } else {
        assert CallOk(s, f);
      }
    }
  }

  lemma CoupleBlocked(t: Topology, s: State, m: ModuleId, r: RegionId, sync: bool)
    requires BlockedOk(t, s) && m in t.mods && m in s.mods
    requires forall k | 0 <= k < |t.mods[m].subs| :: t.mods[m].subs[k] in s.mgrs && s.mgrs[t.mods[m].subs[k]].rr.None?
    ensures BlockedOk(t, Couple(t, s, m, r, sync))
  {
    var n := Couple(t, s, m, r, sync);
    forall w | w in n.regions && n.regions[w].blocked && n.regions[w].count > 0 ensures Divided(t, n, w) {
      assert Divided(t, s, w);
      var x, k :| x in t.mods && 0 <= k < |t.mods[x].subs| && t.mods[x].subs[k] in s.mgrs
                  && s.mgrs[t.mods[x].subs[k]].rr == Some(w);
      assert n.mgrs[t.mods[x].subs[k]].rr == Some(w);
    }
  }

  lemma CoupleSettled(t: Topology, s: State, c: ManagerId, m: ModuleId, r: RegionId, sync: bool, q: set<RegionId>, p: set<ManagerId>)
    requires SettledPart(t, s, q, p) && SplitPart(t, s, q, p) && PathOk(s, q, p) && Typed(t, s) && Roots(t, s)
    requires Fresh(t, s, c, m, r, q, p) && Valid(t)
    ensures var n := Couple(t, s, m, r, sync);
      SettledPart(t, n, q, p) && SplitPart(t, n, q, p) && PathOk(n, q, p)
  {
    hide Valid;
    var n := Couple(t, s, m, r, sync);
    forall d | d in n.mgrs && d !in p && n.mgrs[d].current.Some? && n.mgrs[d].rr.Some?
               && Attended(n, n.mgrs[d].rr.value, q)
      ensures Settled(t, n, n.mgrs[d].current.value, n.mgrs[d].rr.value) || Tally(n.threads, LoadBy(d)) > 0
    {
      assert d !in t.mods[m].subs;
      assert Attended(s, s.mgrs[d].rr.value, q);
      assert s.mgrs[d].current.value != m;
    }
    forall k, j | k in t.mods && 0 <= j < |t.mods[k].subs| && t.mods[k].subs[j] in n.mgrs && !Unloading(t, n, k, p)
                  && n.mgrs[t.mods[k].subs[j]].rr.Some? && Attended(n, n.mgrs[t.mods[k].subs[j]].rr.value, q)
      ensures k in n.mods && n.mods[k].configured == n.mgrs[t.mods[k].subs[j]].rr
    {
      SubUnique(t, k, j, m);
      assert Attended(s, s.mgrs[t.mods[k].subs[j]].rr.value, q);
    }
  }

  lemma CoupleKeeps(t: Topology, s: State, c: ManagerId, m: ModuleId, r: RegionId, sync: bool, q: set<RegionId>, p: set<ManagerId>,
                    tidy: bool := true)
    requires Valid(t) && During(t, s, q, p, tidy) && Fresh(t, s, c, m, r, q, p) && CanCouple(t, s, m, r)
    requires sync || !s.started
    ensures During(t, Couple(t, s, m, r, sync), q, p, tidy) && SplitAt(t, Couple(t, s, m, r, sync), m)
  {
    KeysOf(t, s);
    hide Typed, ThreadsOk, HandlesOk, Counted, Exclusive, FlagsOk, CallsBound, Matching, LoadsOk, Tidy, Roots,
         DecoupledOk, Stationed, Leftovers, SettledPart, SplitPart, PathOk, Valid, CanCouple, SplitAt;
    var n := Couple(t, s, m, r, sync);
    CoupleTyped(t, s, m, r, sync);
    CoupleMatching(t, s, m, r, sync);
    CoupleDecoupled(t, s, m, r, sync);
    CoupleRoots(t, s, m, r, sync);
    CoupleStationed(t, s, m, r, sync);
    CoupleFrames(t, s, c, m, r, sync, q, p);
    CoupleSettled(t, s, c, m, r, sync, q, p);
    CoupleLeftovers(t, s, m, r, sync, q, p);
    CoupleAt(t, s, m, r, sync);
    SameCounts(s, n);
    if tidy { CoupleTidy(t, s, c, m, r, sync, q, p); }
  }

  lemma CoupleAt(t: Topology, s: State, m: ModuleId, r: RegionId, sync: bool)
    requires m in t.mods && m in s.mods
    ensures SplitAt(t, Couple(t, s, m, r, sync), m)
  {
    hide Couple;
    CoupleEffect(t, s, m, r, sync);
  }

  lemma CoupleTidy(t: Topology, s: State, c: ManagerId, m: ModuleId, r: RegionId, sync: bool, q: set<RegionId>, p: set<ManagerId>)
    requires Valid(t) && Tidy(t, s) && Roots(t, s) && LoadsOk(t, s) && PathOk(s, q, p) && Typed(t, s) && Fresh(t, s, c, m, r, q, p)
    ensures Tidy(t, Couple(t, s, m, r, sync))
  {
    hide Valid, Homes, Connected, BlockedOk, WaitsOk, Roots, LoadsOk, PathOk, Typed, Couple;
    CoupleHomes(t, s, c, m, r, sync, q, p);
    CoupleConnected(t, s, c, m, r, sync, q, p);
    CoupleBlocked(t, s, m, r, sync);
    CoupleWaits(t, s, c, m, r, sync, q, p);
  }

  // ---- activating ------------------------------------------------------------------------------

  lemma {:induction false} SpawnTally(threads: seq<Thread>, m: ModuleId, n: nat, q: Query)
    ensures Tally(threads + Spawned(m, n), q) == Tally(threads, q)
  {
    hide Spawned;
    if n == 0 {
      SpawnedNone(threads, m);
    } else {
      SpawnTally(threads, m, n - 1, q);
      SpawnedLast(threads, m, n - 1);
      TallyAppend(threads + Spawned(m, n - 1), Thread(Some(m), true, []), q);
      assert InStack([], q) == 0;
    }
  }

  lemma SpawnedNone(threads: seq<Thread>, m: ModuleId)
    ensures threads + Spawned(m, 0) == threads
  {
  }

  lemma SpawnedLast(threads: seq<Thread>, m: ModuleId, n: nat)
    ensures threads + Spawned(m, n + 1) == (threads + Spawned(m, n)) + [Thread(Some(m), true, [])]
  {
    assert Spawned(m, n + 1) == Spawned(m, n) + [Thread(Some(m), true, [])];
  }

  /** Module `m` is coupled on the opened region `r` and has no processes yet. */
  ghost predicate Coupled(t: Topology, s: State, c: ManagerId, m: ModuleId, r: RegionId, q: set<RegionId>, p: set<ManagerId>) {
    && m in t.mods && m in s.mods && t.mods[m].home == c && c in p && r in q && r in s.regions
    && c in s.mgrs && s.mgrs[c] == Manager(Some(m), Some(r)) && s.mods[m] == Module(Some(r), [])
  }

  lemma ActivateThreads(t: Topology, s: State, m: ModuleId)
    requires Typed(t, s) && ThreadsOk(s) && HandlesOk(s) && m in t.mods && m in s.mods && s.mods[m].handles == []
    ensures var n := Activate(t, s, m); Typed(t, n) && ThreadsOk(n) && HandlesOk(n)
  {
    hide Typed, ThreadsOk, HandlesOk;
    ActivateTyped(t, s, m);
    ActivateHandles(t, s, m);
  }

  lemma ActivateTyped(t: Topology, s: State, m: ModuleId)
    requires Typed(t, s) && m in t.mods && m in s.mods
    ensures Typed(t, Activate(t, s, m))
  {
  }

  lemma ActivateHandles(t: Topology, s: State, m: ModuleId)
    requires ThreadsOk(s) && HandlesOk(s) && m in t.mods && m in s.mods && s.mods[m].handles == []
    ensures var n := Activate(t, s, m); ThreadsOk(n) && HandlesOk(n)
  {
    var n := Activate(t, s, m);
    var hs := n.mods[m].handles;
    assert forall k | 0 <= k < t.mods[m].procs :: hs[k] == |s.threads| + k;
    forall i | |s.threads| <= i < |n.threads| ensures i in hs {
      assert hs[i - |s.threads|] == i;
    }
  }

  lemma ActivatePointers(t: Topology, s: State, m: ModuleId)
    requires Matching(t, s) && Roots(t, s) && Stationed(t, s) && DecoupledOk(s) && m in t.mods && m in s.mods
    ensures var n := Activate(t, s, m); Matching(t, n) && Roots(t, n) && Stationed(t, n) && DecoupledOk(n)
  {
  }

  lemma ActivateCounts(t: Topology, s: State, m: ModuleId)
    requires Counted(s) && Exclusive(s) && FlagsOk(s) && m in t.mods && m in s.mods
    ensures var n := Activate(t, s, m); Counted(n) && Exclusive(n) && FlagsOk(n)
    ensures forall q :: Tally(Activate(t, s, m).threads, q) == Tally(s.threads, q)
  {
    var n := Activate(t, s, m);
    forall q ensures Tally(n.threads, q) == Tally(s.threads, q) {
      SpawnTally(s.threads, m, t.mods[m].procs, q);
    }
  }

  lemma ActivateTidy(t: Topology, s: State, c: ManagerId, m: ModuleId, r: RegionId, q: set<RegionId>, p: set<ManagerId>)
    requires Tidy(t, s) && Coupled(t, s, c, m, r, q, p)
    ensures Tidy(t, Activate(t, s, m))
  {
    var n := Activate(t, s, m);
    forall i, a | 0 <= i < |n.threads| && 0 <= a < |n.threads[i].stack| && n.threads[i].stack[a].Load?
                  && n.threads[i].stack[a].phase == LoadWait ensures WaitOk(n, n.threads[i].stack[a])
    {
      assert i < |s.threads| && WaitOk(s, s.threads[i].stack[a]);
    }
    forall w | w in n.regions && n.regions[w].blocked && n.regions[w].count > 0 ensures Divided(t, n, w) {
      assert Divided(t, s, w);
    }
  }

  lemma ActivateLeftovers(t: Topology, s: State, c: ManagerId, m: ModuleId, r: RegionId, q: set<RegionId>, p: set<ManagerId>)
    requires Leftovers(t, s, q, p) && Coupled(t, s, c, m, r, q, p)
    requires forall w :: Tally(Activate(t, s, m).threads, w) == Tally(s.threads, w)
    ensures Leftovers(t, Activate(t, s, m), q, p)
  {
    var n := Activate(t, s, m);
    forall x, w | x in n.mods && x in t.mods && n.mods[x].configured.None? && !Unloading(t, n, x, p)
                  && Belongs(t, t.mods[x].home, w) && Attended(n, w, q)
      ensures n.mods[x].handles == []
    {
      assert Attended(s, w, q) && !Unloading(t, s, x, p);
    }
  }

  lemma ActivateFrames(t: Topology, s: State, c: ManagerId, m: ModuleId, r: RegionId, q: set<RegionId>, p: set<ManagerId>)
    requires LoadsOk(t, s) && CallsBound(s) && PathOk(s, q, p) && Typed(t, s) && Coupled(t, s, c, m, r, q, p)
    ensures var n := Activate(t, s, m); LoadsOk(t, n) && CallsBound(n)
  {
    var n := Activate(t, s, m);
    forall i, a | 0 <= i < |n.threads| && 0 <= a < |n.threads[i].stack|
      ensures n.threads[i].stack[a].Load? ==> LoadOk(t, n, n.threads[i].stack[a])
      ensures n.threads[i].stack[a].Call? ==> CallOk(n, n.threads[i].stack[a])
    {
      assert i < |s.threads|;
      var f := s.threads[i].stack[a];
      if f.Load? {
        LoadElsewhere(t, s, i, a, q, p);
        assert t.mods[f.mod].home == f.mgr;
      } else {
        assert CallOk(s, f);
      }
    }
  }

  lemma ActivateSettled(t: Topology, s: State, c: ManagerId, m: ModuleId, r: RegionId, q: set<RegionId>, p: set<ManagerId>)
    requires SettledPart(t, s, q, p) && SplitPart(t, s, q, p) && PathOk(s, q, p) && Typed(t, s)
    requires Coupled(t, s, c, m, r, q, p)
    requires forall w :: Tally(Activate(t, s, m).threads, w) == Tally(s.threads, w)
    ensures var n := Activate(t, s, m);
      SettledPart(t, n, q, p) && SplitPart(t, n, q, p) && PathOk(n, q, p) && Settled(t, n, m, r)
  {
    var n := Activate(t, s, m);
    forall d | d in n.mgrs && d !in p && n.mgrs[d].current.Some? && n.mgrs[d].rr.Some?
               && Attended(n, n.mgrs[d].rr.value, q)
      ensures Settled(t, n, n.mgrs[d].current.value, n.mgrs[d].rr.value) || Tally(n.threads, LoadBy(d)) > 0
    {
      assert Attended(s, s.mgrs[d].rr.value, q);
      assert s.mgrs[d].current.value != m;
    }
    forall k, j | k in t.mods && 0 <= j < |t.mods[k].subs| && t.mods[k].subs[j] in n.mgrs && !Unloading(t, n, k, p)
                  && n.mgrs[t.mods[k].subs[j]].rr.Some? && Attended(n, n.mgrs[t.mods[k].subs[j]].rr.value, q)
      ensures k in n.mods && n.mods[k].configured == n.mgrs[t.mods[k].subs[j]].rr
    {
      assert Attended(s, s.mgrs[t.mods[k].subs[j]].rr.value, q);
    }
  }

  lemma ActivateKeeps(t: Topology, s: State, c: ManagerId, m: ModuleId, r: RegionId, q: set<RegionId>, p: set<ManagerId>,
                      tidy: bool := true)
    requires During(t, s, q, p, tidy) && Coupled(t, s, c, m, r, q, p) && SplitAt(t, s, m)
    ensures var n := Activate(t, s, m); During(t, n, q, p, tidy) && Settled(t, n, m, r) && SplitAt(t, n, m)
  {
    hide Typed, ThreadsOk, HandlesOk, Counted, Exclusive, FlagsOk, CallsBound, Matching, LoadsOk, Tidy, Roots,
         DecoupledOk, Stationed, Leftovers, SettledPart, SplitPart, PathOk;
    var n := Activate(t, s, m);
    ActivateThreads(t, s, m);
    ActivatePointers(t, s, m);
    ActivateCounts(t, s, m);
    ActivateFrames(t, s, c, m, r, q, p);
    ActivateSettled(t, s, c, m, r, q, p);
    ActivateLeftovers(t, s, c, m, r, q, p);
    if tidy { ActivateTidy(t, s, c, m, r, q, p); }
  }

  // ---- finishing -------------------------------------------------------------------------------

  /** Once its module is settled, a manager needs no exemption any more. */
  lemma Unexempt(t: Topology, s: State, c: ManagerId, m: ModuleId, r: RegionId, q: set<RegionId>, p: set<ManagerId>)
    requires SettledPart(t, s, q, p) && SplitPart(t, s, q, p) && Leftovers(t, s, q, p) && PathOk(s, q, p) && SplitAt(t, s, m)
    requires c in s.mgrs && s.mgrs[c] == Manager(Some(m), Some(r)) && Settled(t, s, m, r)
    ensures SettledPart(t, s, q, p - {c}) && SplitPart(t, s, q, p - {c}) && Leftovers(t, s, q, p - {c}) && PathOk(s, q, p - {c})
  {
  }
}
