/** Every step of every thread keeps the invariant. */
module Steps {
  import opened Model
  import opened Teardown
  import opened Invariants
  import opened Effects
  import opened UnloadSafety
  import opened Protocol
  import opened LoadEffects

  // ---- transactions --------------------------------------------------------------------

  /** `n` is `s` with one more or one less lock on `r`, taken or released by thread `i`. */
  ghost predicate Locked(s: State, n: State, i: ThreadId, r: RegionId) {
    && r in s.regions && i < |s.threads| && s.threads[i].alive && |n.threads| == |s.threads| && r in n.regions
    && n == s.(threads := s.threads[i := s.threads[i].(stack := n.threads[i].stack)],
               regions := s.regions[r := s.regions[r].(count := n.regions[r].count)])
    && (forall q :: q != LockOn(r) ==> Tally(n.threads, q) == Tally(s.threads, q))
    && n.regions[r].count - s.regions[r].count == Tally(n.threads, LockOn(r)) - Tally(s.threads, LockOn(r))
  }

  lemma LockPlain(t: Topology, s: State, n: State, i: ThreadId, r: RegionId)
    requires Typed(t, s) && ThreadsOk(s) && HandlesOk(s) && Matching(t, s) && DecoupledOk(s) && Locked(s, n, i, r)
    ensures Typed(t, n) && ThreadsOk(n) && HandlesOk(n) && Matching(t, n) && DecoupledOk(n)
  {
  }

  lemma LockPointers(t: Topology, s: State, n: State, i: ThreadId, r: RegionId)
    requires Roots(t, s) && Stationed(t, s) && Locked(s, n, i, r)
    ensures Roots(t, n) && Stationed(t, n)
  {
  }

  lemma LockCounts(t: Topology, s: State, n: State, i: ThreadId, r: RegionId)
    requires Counted(s) && Exclusive(s) && FlagsOk(s) && Locked(s, n, i, r)
    ensures Counted(n) && Exclusive(n) && FlagsOk(n)
  {
  }

  /** The entries of the new stack above `keep` are calls. */
  lemma LockTidy(t: Topology, s: State, n: State, i: ThreadId, r: RegionId, keep: nat)
    requires Tidy(t, s) && Locked(s, n, i, r)
    requires n.regions[r].count <= s.regions[r].count || !s.regions[r].blocked
    requires keep <= |s.threads[i].stack| && keep <= |n.threads[i].stack|
    requires n.threads[i].stack[..keep] == s.threads[i].stack[..keep]
    requires forall a | keep <= a < |n.threads[i].stack| :: n.threads[i].stack[a].Call?
    ensures Tidy(t, n)
  {
    hide Homes, Connected;
    SameHomes(t, s, n);
    SameConnected(t, s, n);
    forall w | w in n.regions && n.regions[w].blocked && n.regions[w].count > 0 ensures Divided(t, n, w) {
      assert Divided(t, s, w);
    }
    forall j, a | 0 <= j < |n.threads| && 0 <= a < |n.threads[j].stack| && n.threads[j].stack[a].Load?
                  && n.threads[j].stack[a].phase == LoadWait ensures WaitOk(n, n.threads[j].stack[a])
    {
      if j == i { assert n.threads[j].stack[a] == n.threads[i].stack[..keep][a] == s.threads[i].stack[a]; }
      assert WaitOk(s, s.threads[j].stack[a]);
    }
  }

  /** The entries of the new stack below `keep` are old; above are calls that are bound. */
  lemma LockFrames(t: Topology, s: State, n: State, i: ThreadId, r: RegionId, keep: nat)
    requires CallsBound(s) && LoadsOk(t, s) && Locked(s, n, i, r)
    requires keep <= |s.threads[i].stack| && keep <= |n.threads[i].stack|
    requires n.threads[i].stack[..keep] == s.threads[i].stack[..keep]
    requires forall a | keep <= a < |n.threads[i].stack| :: n.threads[i].stack[a].Call? && CallOk(s, n.threads[i].stack[a])
    ensures CallsBound(n) && LoadsOk(t, n)
  {
    forall j, a | 0 <= j < |n.threads| && 0 <= a < |n.threads[j].stack|
      ensures n.threads[j].stack[a].Call? ==> CallOk(n, n.threads[j].stack[a])
      ensures n.threads[j].stack[a].Load? ==> LoadOk(t, n, n.threads[j].stack[a])
    {
      var f := n.threads[j].stack[a];
      if j != i {
        assert f == s.threads[j].stack[a];
        if f.Call? { assert CallOk(s, f); } else { assert LoadOk(t, s, f); }
      } else if a < keep {
        assert f == n.threads[i].stack[..keep][a] == s.threads[i].stack[a];
        if f.Call? { assert CallOk(s, f); } else { assert LoadOk(t, s, f); }
      }
    }
  }

  lemma LockSettled(t: Topology, s: State, n: State, i: ThreadId, r: RegionId)
    requires SettledPart(t, s, {}, {}) && SplitPart(t, s, {}, {}) && Leftovers(t, s, {}, {}) && Locked(s, n, i, r)
    ensures SettledPart(t, n, {}, {}) && SplitPart(t, n, {}, {}) && Leftovers(t, n, {}, {})
  {
    forall w ensures Attended(n, w, {}) <==> Attended(s, w, {}) {}
    forall c | c in n.mgrs && n.mgrs[c].current.Some? && n.mgrs[c].rr.Some? && Attended(n, n.mgrs[c].rr.value, {})
      ensures Settled(t, n, n.mgrs[c].current.value, n.mgrs[c].rr.value) || Tally(n.threads, LoadBy(c)) > 0
    {
      assert Attended(s, s.mgrs[c].rr.value, {});
    }
    forall m, k | m in t.mods && 0 <= k < |t.mods[m].subs| && t.mods[m].subs[k] in n.mgrs
                  && n.mgrs[t.mods[m].subs[k]].rr.Some? && Attended(n, n.mgrs[t.mods[m].subs[k]].rr.value, {})
      ensures m in n.mods && n.mods[m].configured == n.mgrs[t.mods[m].subs[k]].rr
    {
      assert Attended(s, s.mgrs[t.mods[m].subs[k]].rr.value, {});
    }
  }

  lemma LockKeeps(t: Topology, s: State, n: State, i: ThreadId, r: RegionId, keep: nat, tidy: bool := true)
    requires During(t, s, {}, {}, tidy) && Locked(s, n, i, r)
    requires n.regions[r].count <= s.regions[r].count || !s.regions[r].blocked
    requires keep <= |s.threads[i].stack| && keep <= |n.threads[i].stack|
    requires n.threads[i].stack[..keep] == s.threads[i].stack[..keep]
    requires forall a | keep <= a < |n.threads[i].stack| :: n.threads[i].stack[a].Call? && CallOk(s, n.threads[i].stack[a])
    ensures During(t, n, {}, {}, tidy)
  {
    hide Typed, ThreadsOk, HandlesOk, Counted, Exclusive, FlagsOk, CallsBound, Matching, LoadsOk, Tidy, Roots,
         DecoupledOk, Stationed, Leftovers, SettledPart, SplitPart, Locked;
    LockPlain(t, s, n, i, r);
    LockPointers(t, s, n, i, r);
    LockCounts(t, s, n, i, r);
    LockFrames(t, s, n, i, r, keep);
    LockSettled(t, s, n, i, r);
    if tidy { LockTidy(t, s, n, i, r, keep); }
  }

  /** A call that gets its lock runs through an adapter pair that is bound. */
  lemma CallKeeps(t: Topology, s: State, i: ThreadId, r: RegionId, x: MemberId, m: ModuleId, tidy: bool := true)
    requires During(t, s, {}, {}, tidy) && i < |s.threads| && s.threads[i].alive && r in s.regions
    requires (r, x) in s.bound && s.bound[(r, x)] == m
    ensures var o := DoCall(s, i, r, x, m); !o.Failed? ==> During(t, o.state, {}, {}, tidy)
  {
    hide During;
    if !s.regions[r].blocked {
      var s1 := SetCount(s, r, s.regions[r].count + 1);
      var f := Call(r, x, m);
      var n := Push(s1, i, f);
      PushTally(s1, i, f);
      assert forall q :: Hit(f, q) == if q == LockOn(r) then 1 else 0;
      assert CallOk(s, f);
      LockKeeps(t, s, n, i, r, |s.threads[i].stack|, tidy);
    }
  }

  lemma EnterKeeps(t: Topology, s: State, i: ThreadId, r: RegionId, x: MemberId, tidy: bool := true)
    requires During(t, s, {}, {}, tidy) && i < |s.threads| && s.threads[i].alive && r in t.root
    ensures r in s.regions && var o := DoEnter(s, i, r, x); !o.Failed? ==> During(t, o.state, {}, {}, tidy)
  {
    KeysOf(t, s);
    hide During;
    if (r, x) in s.bound {
      CallKeeps(t, s, i, r, x, s.bound[(r, x)], tidy);
    }
  }

  lemma EnterOutKeeps(t: Topology, s: State, i: ThreadId, m: ModuleId, x: MemberId, tidy: bool := true)
    requires During(t, s, {}, {}, tidy) && i < |s.threads| && s.threads[i].alive && m in t.mods && x in t.mods[m].members
    ensures m in s.mods && var o := DoEnterOut(t, s, i, m, x); !o.Failed? ==> During(t, o.state, {}, {}, tidy)
  {
    KeysOf(t, s);
    if s.mods[m].configured.Some? {
      BackPointer(t, s, m, x);
      CallKeeps(t, s, i, s.mods[m].configured.value, x, m, tidy);
    }
  }

  /** The module's adapter points back to the region whose adapter points to it. */
  lemma BackPointer(t: Topology, s: State, m: ModuleId, x: MemberId)
    requires Matching(t, s) && Typed(t, s) && m in t.mods && m in s.mods && x in t.mods[m].members
    requires s.mods[m].configured.Some?
    ensures var r := s.mods[m].configured.value; r in s.regions && (r, x) in s.bound && s.bound[(r, x)] == m
  {
  }

  lemma ReturnKeeps(t: Topology, s: State, i: ThreadId, tidy: bool := true)
    requires During(t, s, {}, {}, tidy) && i < |s.threads| && s.threads[i].alive && Top(s, i).Some? && Top(s, i).value.Call?
    ensures var o := DoReturn(s, i); o.Done? && During(t, o.state, {}, {}, tidy)
  {
    hide During;
    TopCall(t, s, i, tidy);
    var f := Top(s, i).value;
    var s1 := SetCount(s, f.rr, s.regions[f.rr].count - 1);
    var n := Pop(s1, i);
    PopTally(s1, i);
    assert forall q :: Hit(f, q) == if q == LockOn(f.rr) then 1 else 0;
    LockKeeps(t, s, n, i, f.rr, |n.threads[i].stack|, tidy);
  }

  lemma TopCall(t: Topology, s: State, i: ThreadId, tidy: bool := true)
    requires During(t, s, {}, {}, tidy) && Top(s, i).Some? && Top(s, i).value.Call?
    ensures var f := Top(s, i).value; CallOk(s, f) && s.regions[f.rr].count > 0
  {
    hide Typed, ThreadsOk, HandlesOk, Exclusive, FlagsOk, Matching, LoadsOk, Homes, Roots,
         Connected, DecoupledOk, Stationed, Leftovers, WaitsOk, BlockedOk, SettledPart, SplitPart, PathOk;
    var a := |s.threads[i].stack| - 1;
    assert s.threads[i].stack[a] == Top(s, i).value;
    assert CallOk(s, s.threads[i].stack[a]);
    TallyMember(s.threads, i, a, LockOn(s.threads[i].stack[a].rr));
    assert Hit(s.threads[i].stack[a], LockOn(s.threads[i].stack[a].rr)) == 1;
  }

  lemma ExitKeeps(t: Topology, s: State, i: ThreadId, tidy: bool := true)
    requires During(t, s, {}, {}, tidy) && i < |s.threads| && s.threads[i].stack == []
    ensures During(t, DoExit(s, i), {}, {}, tidy)
  {
    KillKeeps(t, s, i, {}, {}, tidy);
    assert KillOne(s, i).value.threads == DoExit(s, i).threads;
    assert KillOne(s, i).value.regions == s.regions;
  }

  // ---- reconfiguration -------------------------------------------------------------------

  lemma TypedIn(t: Topology, s: State)
    requires Always(t, s)
    ensures Typed(t, s)
  {
  }

  /** `configure_module` up to the load wait. */
  lemma ConfigureKeeps(t: Topology, s: State, i: ThreadId, c: ManagerId, found: Option<ModuleId>, tidy: bool := true)
    requires Valid(t) && During(t, s, {}, {}, tidy) && c in t.mgrs && i < |s.threads| && s.threads[i].alive
    requires found.Some? ==> found.value in t.mods && t.mods[found.value].home == c
    ensures Layered(t) && Typed(t, s)
    ensures var o := DoConfigure(t, s, i, c, found); !o.Failed? ==> During(t, o.state, {}, {}, tidy)
  {
    hide Always, Typed, Tidy, SettledPart, SplitPart, Leftovers, PathOk, Valid, Layered, Unload, Claim;
    LayeredOf(t);
    TypedIn(t, s);
    KeysOf(t, s);
    if found.Some? && found != s.mgrs[c].current && s.mgrs[c].rr.Some? {
      var r := s.mgrs[c].rr.value;
      if !s.regions[r].reconf && !s.regions[r].blocked { BegunKeeps(t, s, i, c, r, found.value, tidy); }
    }
  }

  /** The region is marked and blocked, the old module unloaded, and the manager claimed. */
  lemma BegunKeeps(t: Topology, s: State, i: ThreadId, c: ManagerId, r: RegionId, m: ModuleId, tidy: bool := true)
    requires Layered(t) && Typed(t, s) && c in t.mgrs && i < |s.threads| && s.threads[i].alive
    requires c in s.mgrs && s.mgrs[c].rr == Some(r) && r in s.regions && r in t.root && !s.regions[r].reconf
    requires m in t.mods && t.mods[m].home == c
    requires Valid(t) && During(t, s, {}, {}, tidy)
    ensures var b := SetBlocked(SetReconf(s, r, true), r, true); Typed(t, b)
    ensures var o := Unload(t, SetBlocked(SetReconf(s, r, true), r, true), c, i);
      && (o.Aborted? ==> During(t, o.state, {}, {}, tidy))
      && (o.Done? ==> c in o.state.mgrs && i < |o.state.threads| && During(t, Claim(o.state, i, c, r, m), {}, {}, tidy))
  {
    hide Typed, ThreadsOk, HandlesOk, Counted, Exclusive, FlagsOk, CallsBound, Matching, LoadsOk, Tidy, Roots,
         DecoupledOk, Stationed, Leftovers, SettledPart, SplitPart, PathOk, Valid, Layered, Unload, Claim;
    BeginTyped(t, s, r);
    var b := SetBlocked(SetReconf(s, r, true), r, true);
    var o := Unload(t, b, c, i);
    if s.mgrs[c].current.Some? && s.regions[r].count != 0 {
      UnloadBusy(t, b, c, i);
    } else {
      BeginKeeps(t, s, c, r, tidy);
      UnloadKeeps(t, b, c, i, {r}, {}, tidy);
      if o.Done? {
        KeysOf(t, o.state);
        ClaimKeeps(t, o.state, i, c, r, m, tidy);
      }
    }
  }

  lemma UnloadBusy(t: Topology, s: State, c: ManagerId, me: ThreadId)
    requires Layered(t) && Typed(t, s) && c in t.mgrs && s.mgrs[c].current.Some? && s.mgrs[c].rr.Some?
    requires s.regions[s.mgrs[c].rr.value].count != 0
    ensures Unload(t, s, c, me).Failed?
  {
  }

  /** Marking the region and blocking its transactions opens it for this operation. */
  lemma BeginKeeps(t: Topology, s: State, c: ManagerId, r: RegionId, tidy: bool := true)
    requires Valid(t) && During(t, s, {}, {}, tidy) && c in t.mgrs && c in s.mgrs && s.mgrs[c].rr == Some(r) && r in t.root
    requires r in s.regions && !s.regions[r].reconf
    requires tidy && s.mgrs[c].current.Some? ==> s.regions[r].count == 0
    ensures During(t, SetBlocked(SetReconf(s, r, true), r, true), {r}, {}, tidy)
  {
    hide Typed, ThreadsOk, HandlesOk, Counted, Exclusive, FlagsOk, CallsBound, Matching, LoadsOk, Tidy, Roots,
         DecoupledOk, Stationed, Leftovers, SettledPart, SplitPart, Valid;
    assert {} + {r} == {r};
    MarkKeeps(t, s, r, true, {}, {r}, {}, tidy);
    var s1 := SetReconf(s, r, true);
    if tidy && s.regions[r].count > 0 {
      OwnedRegion(t, s1, c, r);
      if t.root[r] == c {
        TidyHomes(t, s1);
        EmptyIsQuiet(t, s1, r);
      }
    }
    BlockKeeps(t, s1, r, true, {r}, {}, tidy);
  }

  lemma TidyHomes(t: Topology, s: State)
    requires Tidy(t, s)
    ensures Homes(t, s) && Connected(t, s) && WaitsOk(s)
  {
  }

  /** The manager takes the new module and its thread waits for the load time. */
  lemma ClaimKeeps(t: Topology, s: State, i: ThreadId, c: ManagerId, r: RegionId, m: ModuleId, tidy: bool := true)
    requires Valid(t) && During(t, s, {r}, {}, tidy) && i < |s.threads| && s.threads[i].alive
    requires c in s.mgrs && s.mgrs[c].rr == Some(r) && m in t.mods && t.mods[m].home == c
    requires tidy ==> s.mgrs[c].current.None?
    requires r in s.regions && s.regions[r].blocked
    ensures During(t, Claim(s, i, c, r, m), {}, {}, tidy)
  {
    hide Typed, ThreadsOk, HandlesOk, Counted, Exclusive, FlagsOk, CallsBound, Matching, LoadsOk, Tidy, Roots,
         DecoupledOk, Stationed, Leftovers, SettledPart, SplitPart, PathOk, Valid;
    TakeKeeps(t, s, c, m, {r}, {}, tidy);
    var n := SetCurrent(s, c, Some(m));
    assert {} + {c} == {c};
    TakeSplit(t, s, c, m);
    PushKeeps(t, n, i, Load(c, r, m, LoadWait), {c}, tidy);
  }

  lemma UnloadRequestKeeps(t: Topology, s: State, i: ThreadId, c: ManagerId, tidy: bool := true)
    requires Valid(t) && During(t, s, {}, {}, tidy) && c in t.mgrs && i < |s.threads|
    ensures Layered(t) && Typed(t, s)
    ensures var o := DoUnload(t, s, i, c); !o.Failed? ==> During(t, o.state, {}, {}, tidy)
  {
    hide Typed, ThreadsOk, HandlesOk, Counted, Exclusive, FlagsOk, CallsBound, Matching, LoadsOk, Tidy, Roots,
         DecoupledOk, Stationed, Leftovers, SettledPart, SplitPart, PathOk, Valid, Layered;
    LayeredOf(t);
    KeysOf(t, s);
    if s.mgrs[c].rr.Some? {
      UnloadModuleKeeps(t, s, c, s.mgrs[c].rr.value, i, {}, {}, tidy);
    }
  }

  /** A load that waits is the one load of its region, and its manager points to its module. */
  ghost predicate Suspended(t: Topology, s: State, i: ThreadId, tidy: bool := true) {
    During(t, s, {}, {}, tidy) && i < |s.threads| && s.threads[i].alive && Top(s, i).Some? && Top(s, i).value.Load?
  }

  /** The connected sub-managers of a module being loaded are where it is configured. */
  lemma LoadSplit(t: Topology, s: State, i: ThreadId, tidy: bool := true)
    requires Valid(t) && Suspended(t, s, i, tidy)
    ensures SplitAt(t, s, Top(s, i).value.mod)
  {
    hide Typed, ThreadsOk, HandlesOk, Counted, FlagsOk, CallsBound, Matching, Tidy, Roots, Valid, Belongs,
         DecoupledOk, Stationed, Leftovers, SettledPart, SplitPart, PathOk, LoadsOk, Exclusive;
    TopLoad(t, s, i);
    var f := Top(s, i).value;
    TopOn(s, i);
    HomeOf(t, s, f.mgr);
    HomeStation(t, s, f.mgr);
    assert Attended(s, f.rr, {});
    forall k | 0 <= k < |t.mods[f.mod].subs| && t.mods[f.mod].subs[k] in s.mgrs && s.mgrs[t.mods[f.mod].subs[k]].rr.Some?
      ensures s.mods[f.mod].configured == s.mgrs[t.mods[f.mod].subs[k]].rr
    {
      StationAt(t, s, t.mods[f.mod].subs[k]);
      SubOfIs(t, f.mod, k);
      SubBelongs(t, t.mods[f.mod].subs[k], f.mod, f.rr);
      BelongsOnce(t, t.mods[f.mod].subs[k], f.rr, s.mgrs[t.mods[f.mod].subs[k]].rr.value);
      UntouchedSub(t, s, f.mod, k, f.rr, {}, {});
    }
  }

  lemma StationAt(t: Topology, s: State, c: ManagerId)
    requires Stationed(t, s) && c in s.mgrs && s.mgrs[c].rr.Some?
    ensures Belongs(t, c, s.mgrs[c].rr.value)
  {
  }

  lemma SameSplit(t: Topology, s: State, n: State, m: ModuleId)
    requires SplitAt(t, s, m) && n.mgrs == s.mgrs && n.mods == s.mods
    ensures SplitAt(t, n, m)
  {
  }

  /** A module that is not configured has no connected sub-manager. */
  lemma NothingConnected(t: Topology, s: State, m: ModuleId)
    requires Valid(t) && Typed(t, s) && SplitAt(t, s, m) && s.mods[m].configured.None?
    ensures forall k | 0 <= k < |t.mods[m].subs| :: t.mods[m].subs[k] in s.mgrs && s.mgrs[t.mods[m].subs[k]].rr.None?
  {
    hide Valid;
    forall k | 0 <= k < |t.mods[m].subs| ensures t.mods[m].subs[k] in s.mgrs { SubOfIs(t, m, k); }
  }

  lemma TakeSplit(t: Topology, s: State, c: ManagerId, m: ModuleId)
    requires SplitAt(t, s, m) && c in s.mgrs
    ensures SplitAt(t, SetCurrent(s, c, Some(m)), m)
  {
  }

  lemma TopOn(s: State, i: ThreadId)
    requires Top(s, i).Some? && Top(s, i).value.Load?
    ensures Tally(s.threads, LoadOn(Top(s, i).value.rr)) > 0
  {
    var a := |s.threads[i].stack| - 1;
    TallyMember(s.threads, i, a, LoadOn(s.threads[i].stack[a].rr));
    assert Hit(s.threads[i].stack[a], LoadOn(s.threads[i].stack[a].rr)) == 1;
  }

  lemma CoupleStep(t: Topology, s: State, i: ThreadId, tidy: bool := true)
    requires Valid(t) && Suspended(t, s, i, tidy) && Top(s, i).value.phase == LoadWait
    ensures var f := Top(s, i).value; f.mod in t.mods && f.mod in s.mods
    ensures var f := Top(s, i).value; CanCouple(t, s, f.mod, f.rr) ==>
      During(t, Couple(t, Replace(s, i, f.(phase := SyncWait)), f.mod, f.rr, true), {}, {}, tidy)
  {
    hide Typed, ThreadsOk, HandlesOk, Counted, Exclusive, FlagsOk, CallsBound, Matching, LoadsOk, Tidy, Roots,
         DecoupledOk, Stationed, Leftovers, SettledPart, SplitPart, PathOk, Valid, SplitAt;
    LoadSplit(t, s, i, tidy);
    PopKeeps(t, s, i, tidy);
    HomeOf(t, s, Top(s, i).value.mgr);
    var f := Top(s, i).value;
    SameSplit(t, s, Pop(s, i), f.mod);
    if CanCouple(t, s, f.mod, f.rr) {
      var b := Pop(s, i);
      NothingConnected(t, b, f.mod);
      CoupleKeeps(t, b, f.mgr, f.mod, f.rr, true, {f.rr}, {f.mgr}, tidy);
      CoupleEffect(t, b, f.mod, f.rr, true);
      var n := Couple(t, b, f.mod, f.rr, true);
      NotOwnSub(t, f.mod);
      PushKeeps(t, n, i, f.(phase := SyncWait), {f.mgr}, tidy);
    }
  }

  lemma NotOwnSub(t: Topology, m: ModuleId)
    requires Valid(t) && m in t.mods
    ensures t.mods[m].home !in t.mods[m].subs
  {
  }

  lemma ActivateStep(t: Topology, s: State, i: ThreadId, tidy: bool := true)
    requires Valid(t) && Suspended(t, s, i, tidy) && Top(s, i).value.phase == SyncWait
    ensures var f := Top(s, i).value; f.mod in t.mods && f.mod in s.mods && f.rr in s.regions
    ensures var f := Top(s, i).value;
      During(t, Activate(t, SetBlocked(Replace(s, i, f.(phase := Activating(0))), f.rr, false), f.mod), {}, {}, tidy)
  {
    hide Typed, ThreadsOk, HandlesOk, Counted, Exclusive, FlagsOk, CallsBound, Matching, LoadsOk, Tidy, Roots,
         DecoupledOk, Stationed, Leftovers, SettledPart, SplitPart, PathOk, Valid, SplitAt;
    LoadSplit(t, s, i, tidy);
    PopKeeps(t, s, i, tidy);
    HomeOf(t, s, Top(s, i).value.mgr);
    var f := Top(s, i).value;
    var b := Pop(s, i);
    BlockKeeps(t, b, f.rr, false, {f.rr}, {f.mgr}, tidy);
    var b1 := SetBlocked(b, f.rr, false);
    SameSplit(t, s, b1, f.mod);
    ActivateKeeps(t, b1, f.mgr, f.mod, f.rr, {f.rr}, {f.mgr}, tidy);
    var n := Activate(t, b1, f.mod);
    PushKeeps(t, n, i, f.(phase := Activating(0)), {f.mgr}, tidy);
    SpawnAfterPush(t, b1, i, f.(phase := Activating(0)), f.mod);
  }

  /** Pushing a frame and spawning processes commute. */
  lemma SpawnAfterPush(t: Topology, s: State, i: ThreadId, f: Frame, m: ModuleId)
    requires i < |s.threads| && m in t.mods && m in s.mods
    ensures Activate(t, Push(s, i, f), m) == Push(Activate(t, s, m), i, f)
  {
    assert Activate(t, Push(s, i, f), m).threads == Push(Activate(t, s, m), i, f).threads;
  }

  lemma AdvanceStep(t: Topology, s: State, i: ThreadId, k: nat, tidy: bool := true)
    requires Valid(t) && Suspended(t, s, i, tidy) && Top(s, i).value.phase.Activating?
    requires Top(s, i).value.mod in t.mods ==> k <= |t.mods[Top(s, i).value.mod].nested|
    ensures During(t, Replace(s, i, Top(s, i).value.(phase := Activating(k))), {}, {}, tidy)
  {
    hide Typed, ThreadsOk, HandlesOk, Counted, Exclusive, FlagsOk, CallsBound, Matching, LoadsOk, Tidy, Roots,
         DecoupledOk, Stationed, Leftovers, SettledPart, SplitPart, PathOk, Valid, SplitAt;
    LoadSplit(t, s, i, tidy);
    PopKeeps(t, s, i, tidy);
    var f := Top(s, i).value;
    assert LoadOk(t, Pop(s, i), f.(phase := Activating(k)));
    SameSplit(t, s, Pop(s, i), f.mod);
    PushKeeps(t, Pop(s, i), i, f.(phase := Activating(k)), {f.mgr}, tidy);
  }

  lemma NestedPreloadKeeps(t: Topology, s: State, i: ThreadId, r: RegionId, tidy: bool := true)
    requires Valid(t) && During(t, s, {}, {}, tidy) && i < |s.threads| && s.threads[i].alive && r in t.root
    ensures Layered(t) && Typed(t, s)
    ensures t.root[r] in s.mgrs
    ensures !(tidy && t.root[r] in t.preload && s.mgrs[t.root[r]].current.Some?) ==>
      var o := DoNestedPreload(t, s, i, r); o.Done? ==> During(t, o.state, {}, {}, tidy)
  {
    hide Typed, ThreadsOk, HandlesOk, Counted, Exclusive, FlagsOk, CallsBound, Matching, LoadsOk, Tidy, Roots,
         DecoupledOk, Stationed, Leftovers, SettledPart, SplitPart, PathOk, Valid, Layered;
    LayeredOf(t);
    KeysOf(t, s);
    RootOf(t, s, r);
    var c := t.root[r];
    if c in t.preload && (tidy ==> s.mgrs[c].current.None?) && !s.regions[r].reconf {
      BeginKeeps(t, s, c, r, tidy);
      PreloadHome(t, c);
      var b := SetBlocked(SetReconf(s, r, true), r, true);
      ClaimKeeps(t, b, i, c, r, t.preload[c], tidy);
    }
  }

  lemma PreloadHome(t: Topology, c: ManagerId)
    requires Layered(t) && c in t.preload
    ensures t.preload[c] in t.mods && t.mods[t.preload[c]].home == c
  {
  }

  lemma FinishStep(t: Topology, s: State, i: ThreadId, tidy: bool := true)
    requires Valid(t) && Suspended(t, s, i, tidy) && Top(s, i).value.phase.Activating?
    ensures var f := Top(s, i).value; f.rr in s.regions && During(t, SetReconf(Pop(s, i), f.rr, false), {}, {}, tidy)
  {
    hide Typed, ThreadsOk, HandlesOk, Counted, Exclusive, FlagsOk, CallsBound, Matching, LoadsOk, Tidy, Roots,
         DecoupledOk, Stationed, Leftovers, SettledPart, SplitPart, PathOk, Valid, SplitAt;
    LoadSplit(t, s, i, tidy);
    PopKeeps(t, s, i, tidy);
    var f := Top(s, i).value;
    var b := Pop(s, i);
    SameSplit(t, s, b, f.mod);
    Unexempt(t, b, f.mgr, f.mod, f.rr, {f.rr}, {f.mgr});
    assert {f.mgr} - {f.mgr} == {};
    MarkKeeps(t, b, f.rr, false, {f.rr}, {}, {}, tidy);
  }

  lemma ResumeKeeps(t: Topology, s: State, i: ThreadId, tidy: bool := true)
    requires Valid(t) && Suspended(t, s, i, tidy) && Layered(t) && Typed(t, s)
    requires Top(s, i).value.mgr in t.mgrs && Top(s, i).value.mod in t.mods
    requires tidy ==> !Overwriting(t, s, i)
    ensures var o := DoResume(t, s, i); !o.Failed? ==> During(t, o.state, {}, {}, tidy)
  {
    hide Typed, ThreadsOk, HandlesOk, Counted, Exclusive, FlagsOk, CallsBound, Matching, LoadsOk, Tidy, Roots,
         DecoupledOk, Stationed, Leftovers, SettledPart, SplitPart, PathOk, Valid, Layered, CanCouple;
    KeysOf(t, s);
    PopKeeps(t, s, i, tidy);
    var f := Top(s, i).value;
    match f.phase
    case LoadWait => CoupleStep(t, s, i, tidy);
    case SyncWait => ActivateStep(t, s, i, tidy);
    case Activating(k) =>
      if k < |t.mods[f.mod].nested| {
        AdvanceStep(t, s, i, k + 1, tidy);
        NestedOf(t, f.mod, k);
        NestedPreloadKeeps(t, Replace(s, i, f.(phase := Activating(k + 1))), i, t.mods[f.mod].nested[k], tidy);
      } else {
        FinishStep(t, s, i, tidy);
      }
  }

  lemma NestedOf(t: Topology, m: ModuleId, k: nat)
    requires Layered(t) && m in t.mods && k < |t.mods[m].nested|
    ensures t.mods[m].nested[k] in t.root && t.root[t.mods[m].nested[k]] in t.mgrs
  {
  }

  /** Before simulation every flag is clear, so an unsynchronised bind leaves none behind. */
  lemma StartPreloadKeeps(t: Topology, s: State, c: ManagerId, tidy: bool := true)
    requires Valid(t) && During(t, s, {}, {}, tidy) && c in t.mgrs && !s.started
    ensures Layered(t) && Typed(t, s) && c in s.mgrs
    ensures (tidy ==> s.mgrs[c].current.None?) ==> var o := DoStartPreload(t, s, c); !o.Failed? ==> During(t, o.state, {}, {}, tidy)
  {
    hide Typed, ThreadsOk, HandlesOk, Counted, Exclusive, FlagsOk, CallsBound, Matching, LoadsOk, Tidy, Roots,
         DecoupledOk, Stationed, Leftovers, SettledPart, SplitPart, PathOk, Valid, Layered, CanCouple;
    LayeredOf(t);
    KeysOf(t, s);
    if c in t.preload && (tidy ==> s.mgrs[c].current.None?) && s.mgrs[c].rr.Some? {
      PreloadHome(t, c);
      var m, r := t.preload[c], s.mgrs[c].rr.value;
      if !s.regions[r].reconf && !s.regions[r].blocked && CanCouple(t, s, m, r) {
        StartedPreload(t, s, c, m, r, tidy);
      }
    }
  }

  lemma StartedPreload(t: Topology, s: State, c: ManagerId, m: ModuleId, r: RegionId, tidy: bool := true)
    requires Valid(t) && During(t, s, {}, {}, tidy) && c in s.mgrs && !s.started && m in t.mods && t.mods[m].home == c
    requires s.mgrs[c].rr == Some(r) && (tidy ==> s.mgrs[c].current.None?) && r in s.regions && !s.regions[r].reconf && m in s.mods
    requires CanCouple(t, s, m, r) && !s.regions[r].blocked
    ensures During(t, Activate(t, Couple(t, SetCurrent(s, c, Some(m)), m, r, false), m), {}, {}, tidy)
  {
    hide Typed, ThreadsOk, HandlesOk, Counted, Exclusive, FlagsOk, CallsBound, Matching, LoadsOk, Tidy, Roots,
         DecoupledOk, Stationed, Leftovers, SettledPart, SplitPart, PathOk, Valid, SplitAt;
    assert {} + {r} == {r};
    MarkKeeps(t, s, r, true, {}, {r}, {}, tidy);
    var s1 := SetReconf(s, r, true);
    TakeKeeps(t, s1, c, m, {r}, {}, tidy);
    assert {} + {c} == {c};
    var s2 := SetCurrent(s1, c, Some(m));
    TakeSplit(t, s1, c, m);
    NothingConnected(t, s2, m);
    CoupleKeeps(t, s2, c, m, r, false, {r}, {c}, tidy);
    CoupleEffect(t, s2, m, r, false);
    NotOwnSub(t, m);
    var s3 := Couple(t, s2, m, r, false);
    ActivateKeeps(t, s3, c, m, r, {r}, {c}, tidy);
    var s4 := Activate(t, s3, m);
    Unexempt(t, s4, c, m, r, {r}, {c});
    assert {c} - {c} == {};
    MarkKeeps(t, s4, r, false, {r}, {}, {}, tidy);
    var e := Activate(t, Couple(t, SetCurrent(s, c, Some(m)), m, r, false), m);
    assert SetReconf(s4, r, false).regions == e.regions;
  }

  // ---- the invariant over runs -----------------------------------------------------------

  lemma StartedKeeps(t: Topology, s: State, tidy: bool := true)
    requires During(t, s, {}, {}, tidy)
    ensures During(t, s.(started := true), {}, {}, tidy)
  {
    hide Typed, ThreadsOk, HandlesOk, Counted, Exclusive, FlagsOk, CallsBound, Matching, LoadsOk, Tidy, Roots,
         DecoupledOk, Stationed, Leftovers, SettledPart, SplitPart, PathOk;
    StartedParts(t, s);
    StartedFrames(t, s);
    StartedSettled(t, s);
    if tidy { StartedTidy(t, s); }
  }

  lemma StartedParts(t: Topology, s: State)
    requires Typed(t, s) && ThreadsOk(s) && HandlesOk(s) && Counted(s) && Exclusive(s) && FlagsOk(s)
    requires Matching(t, s) && Roots(t, s) && Stationed(t, s) && DecoupledOk(s)
    ensures var n := s.(started := true);
      && Typed(t, n) && ThreadsOk(n) && HandlesOk(n) && Counted(n) && Exclusive(n) && FlagsOk(n)
      && Matching(t, n) && Roots(t, n) && Stationed(t, n) && DecoupledOk(n)
  {
  }

  lemma StartedFrames(t: Topology, s: State)
    requires CallsBound(s) && LoadsOk(t, s)
    ensures var n := s.(started := true); CallsBound(n) && LoadsOk(t, n)
  {
    var n := s.(started := true);
    forall i, a | 0 <= i < |n.threads| && 0 <= a < |n.threads[i].stack|
      ensures n.threads[i].stack[a].Call? ==> CallOk(n, n.threads[i].stack[a])
      ensures n.threads[i].stack[a].Load? ==> LoadOk(t, n, n.threads[i].stack[a])
    {
      var f := s.threads[i].stack[a];
      if f.Call? { assert CallOk(s, f); } else { assert LoadOk(t, s, f); }
    }
  }

  lemma StartedTidy(t: Topology, s: State)
    requires Tidy(t, s)
    ensures Tidy(t, s.(started := true))
  {
    hide Homes, Connected, WaitsOk;
    var n := s.(started := true);
    SameHomes(t, s, n);
    SameConnected(t, s, n);
    WaitsSame(s, n);
    forall w | w in n.regions && n.regions[w].blocked && n.regions[w].count > 0 ensures Divided(t, n, w) {
      assert Divided(t, s, w);
    }
  }

  lemma StartedSettled(t: Topology, s: State)
    requires SettledPart(t, s, {}, {}) && SplitPart(t, s, {}, {}) && Leftovers(t, s, {}, {}) && PathOk(s, {}, {})
    ensures var n := s.(started := true);
      SettledPart(t, n, {}, {}) && SplitPart(t, n, {}, {}) && Leftovers(t, n, {}, {}) && PathOk(n, {}, {})
  {
    var n := s.(started := true);
    forall w ensures Attended(n, w, {}) <==> Attended(s, w, {}) {}
    forall c | c in n.mgrs && n.mgrs[c].current.Some? && n.mgrs[c].rr.Some? && Attended(n, n.mgrs[c].rr.value, {})
      ensures Settled(t, n, n.mgrs[c].current.value, n.mgrs[c].rr.value) || Tally(n.threads, LoadBy(c)) > 0
    {
      assert Attended(s, s.mgrs[c].rr.value, {});
    }
    forall m, k | m in t.mods && 0 <= k < |t.mods[m].subs| && t.mods[m].subs[k] in n.mgrs
                  && n.mgrs[t.mods[m].subs[k]].rr.Some? && Attended(n, n.mgrs[t.mods[m].subs[k]].rr.value, {})
      ensures m in n.mods && n.mods[m].configured == n.mgrs[t.mods[m].subs[k]].rr
    {
      assert Attended(s, s.mgrs[t.mods[m].subs[k]].rr.value, {});
    }
  }
}
