/** What the steps of a run guarantee: when requests succeed, and that a reconfiguration in progress is
    never overwritten. */
module Guarantees {
  import opened Model
  import opened Teardown
  import opened Invariants
  import opened Effects
  import opened UnloadSafety
  import opened Protocol
  import opened LoadEffects
  import opened Steps
  import opened Safety
  import opened Closure
  import opened Exactness

  // ---- requests ----------------------------------------------------------------------------

  /** An unload request completes exactly when its region is idle and the active subtree is
      clear; it then takes out exactly the modules of that subtree, and every counter is the
      number of locks the surviving threads hold. */
  lemma UnloadRequestExact(t: Topology, states: seq<State>, actions: seq<Action>, n: nat, i: ThreadId, c: ManagerId)
    requires Valid(t) && Run(t, states, actions) && n < |states| && Free(states[n], i) && c in t.mgrs
    ensures Layered(t) && Typed(t, states[n])
    ensures var s := states[n]; var o, ms := DoUnload(t, s, i, c), Mods(t, s, c);
      && (o.Done? <==> s.mgrs[c].rr.Some? && !s.regions[s.mgrs[c].rr.value].reconf && Clear(t, s, c, {}, i))
      && (o.Done? ==> Taken(t, s, o.state, ms, ms, Subs(t, ms)) && SameReconf(s, o.state) && Counted(o.state)
                      && SameBlocked(s, o.state))
  {
    hide Typed, ThreadsOk, HandlesOk, Counted, Exclusive, FlagsOk, CallsBound, Matching, LoadsOk, Tidy, Roots,
         DecoupledOk, Stationed, Leftovers, SettledPart, SplitPart, PathOk, Valid, Layered, Clear, Taken, Run;
    LayeredOf(t);
    RunSound(t, states, actions, n);
    var s := states[n];
    KeysOf(t, s);
    if s.mgrs[c].rr.Some? {
      UnloadModuleExact(t, s, c, s.mgrs[c].rr.value, i, {}, {});
      UnloadModuleKeeps(t, s, c, s.mgrs[c].rr.value, i, {}, {}, false);
    }
  }

  ghost predicate SameBlocked(s: State, n: State) {
    n.regions.Keys == s.regions.Keys && forall w <- s.regions :: n.regions[w].blocked == s.regions[w].blocked
  }

  /** A request to configure another registered module gets as far as the load wait exactly
      when the region is idle and the active subtree is clear.  The assertion that transactions
      are not blocked yet never fires. */
  lemma ConfigureExact(t: Topology, states: seq<State>, actions: seq<Action>, n: nat,
                       i: ThreadId, c: ManagerId, m: ModuleId)
    requires Valid(t) && Run(t, states, actions) && n < |states| && Free(states[n], i) && c in t.mgrs
    requires m in t.mods && t.mods[m].home == c
    ensures Layered(t) && Typed(t, states[n])
    ensures var s := states[n];
      s.mgrs[c].current != Some(m) ==>
        (DoConfigure(t, s, i, c, Some(m)).Done? <==>
           s.mgrs[c].rr.Some? && !s.regions[s.mgrs[c].rr.value].reconf && Clear(t, s, c, {}, i))
  {
    hide Typed, ThreadsOk, HandlesOk, Counted, Exclusive, CallsBound, Matching, LoadsOk, Tidy, Roots,
         DecoupledOk, Stationed, Leftovers, SettledPart, SplitPart, PathOk, Valid, Layered, Clear, Run, Vacated, Unload;
    LayeredOf(t);
    RunSound(t, states, actions, n);
    var s := states[n];
    KeysOf(t, s);
    if s.mgrs[c].current != Some(m) && s.mgrs[c].rr.Some? && !s.regions[s.mgrs[c].rr.value].reconf {
      var r := s.mgrs[c].rr.value;
      var b := SetBlocked(SetReconf(s, r, true), r, true);
      ConfigureUnload(t, s, i, c, r);
      if Unload(t, b, c, i).Done? { VacatedThread(t, s, b, Unload(t, b, c, i).state, i, c); }
    }
  }

  lemma ConfigureUnload(t: Topology, s: State, i: ThreadId, c: ManagerId, r: RegionId)
    requires Layered(t) && Typed(t, s) && c in t.mgrs && r in t.root && i < |s.threads| && s.threads[i].alive
    requires c in s.mgrs && s.mgrs[c].rr == Some(r) && r in s.regions && !s.regions[r].reconf
    requires Valid(t) && Sound(t, s)
    ensures var b := SetBlocked(SetReconf(s, r, true), r, true);
      && Typed(t, b)
      && (Unload(t, b, c, i).Done? <==> Clear(t, s, c, {}, i))
      && (Unload(t, b, c, i).Done? ==> Vacated(t, s, b, Unload(t, b, c, i).state, i, c))
  {
    hide Typed, ThreadsOk, HandlesOk, Counted, Exclusive, FlagsOk, CallsBound, Matching, LoadsOk, Tidy, Roots,
         DecoupledOk, Stationed, Leftovers, SettledPart, SplitPart, PathOk, Valid, Layered;
    var b := SetBlocked(SetReconf(s, r, true), r, true);
    BeginTyped(t, s, r);
    MaskNone(s.threads);
    CountIs(s, r);
    if s.mgrs[c].current.Some? && s.regions[r].count != 0 {
      UnloadBusy(t, b, c, i);
      assert !Clear(t, s, c, {}, i);
    } else {
      BeginKeeps(t, s, c, r, false);
      MarkAgree(t, s, SetReconf(s, r, true), c, r);
      assert Agree(t, s, b, c);
      ClearAgree(t, s, b, c, {}, {}, i);
      var none: set<ModuleId> := {};
      assert none + none == none;
      UnloadExact(t, b, c, i, {r}, {});
      UnloadKeeps(t, b, c, i, {r}, {}, false);
      ModsAgree(t, s, b, c);
      if Unload(t, b, c, i).Done? { TakenBegun(t, s, b, Unload(t, b, c, i).state, i, c); }
    }
  }

  /** The active subtree of `c` has been taken out of the state `b` in which the region was marked and
      blocked, and the manager is empty. */
  ghost predicate Vacated(t: Topology, s: State, b: State, u: State, i: ThreadId, c: ManagerId)
    requires Layered(t) && Typed(t, s) && c in t.mgrs
  {
    && i < |u.threads| == |s.threads| && u.threads[i] == s.threads[i] && c in u.mgrs && c in s.mgrs
    && u.mgrs[c] == Manager(None, s.mgrs[c].rr)
    && Taken(t, s, u, Mods(t, s, c), Mods(t, s, c), Subs(t, Mods(t, s, c)))
    && SameReconf(b, u) && SameBlocked(b, u) && Counted(u)
  }

  lemma VacatedThread(t: Topology, s: State, b: State, u: State, i: ThreadId, c: ManagerId)
    requires Layered(t) && Typed(t, s) && c in t.mgrs && Vacated(t, s, b, u, i, c)
    ensures i < |u.threads|
  {
  }

  lemma TakenBegun(t: Topology, s: State, b: State, u: State, i: ThreadId, c: ManagerId)
    requires Layered(t) && Typed(t, s) && c in t.mgrs && c in s.mgrs && i < |s.threads| && i < |b.threads|
    requires b == s.(regions := b.regions) && Shrinks(b, u) && SameReconf(b, u) && Counted(u) && c in u.mgrs
    requires u.threads[i] == b.threads[i] && u.mgrs[c] == Manager(None, b.mgrs[c].rr)
    requires Taken(t, b, u, Mods(t, s, c), Mods(t, s, c), Subs(t, Mods(t, s, c)))
    ensures Vacated(t, s, b, u, i, c)
  {
    hide Layered, Typed, Mods, Subs;
  }

  // ---- a reconfiguration inside the active subtree ---------------------------------------------

  /** A clear subtree has no nested region that is being reconfigured. */
  lemma {:induction false} ClearIdle(t: Topology, s: State, c: ManagerId, dead: set<ModuleId>, me: ThreadId, x: ModuleId, j: nat)
    requires Layered(t) && Typed(t, s) && c in t.mgrs && me < |s.threads| && Clear(t, s, c, dead, me)
    requires x in Mods(t, s, c) && x in t.mods && j < |t.mods[x].nested| && t.mods[x].nested[j] in s.regions
    ensures !s.regions[t.mods[x].nested[j]].reconf
    decreases t.depth[c], 1, 0
  {
    hide Layered, Typed;
    KeysOf(t, s);
    HomeOf(t, s, c);
    ClearIdleFrom(t, s, s.mgrs[c].current.value, 0, dead, me, x, j);
  }

  lemma {:induction false} ClearIdleFrom(t: Topology, s: State, m: ModuleId, k: nat, dead: set<ModuleId>, me: ThreadId,
                                         x: ModuleId, j: nat)
    requires Layered(t) && Typed(t, s) && m in t.mods && k <= Tasks(t.mods[m]) && me < |s.threads|
    requires ClearFrom(t, s, m, k, dead, me)
    requires x in t.mods && j < |t.mods[x].nested| && t.mods[x].nested[j] in s.regions
    requires x in ModsFrom(t, s, m, k) || (x == m && k <= |t.mods[m].subs| + 1 + j)
    ensures !s.regions[t.mods[x].nested[j]].reconf
    decreases t.depth[t.mods[m].home], 0, Tasks(t.mods[m]) - k
  {
    hide Layered, Typed;
    KeysOf(t, s);
    if k < Tasks(t.mods[m]) {
      ChildOwned(t, m, k);
      TaskIsOf(t, m, k);
      var c := Child(t, TaskAt(t.mods[m], k));
      if c.Some? && x in Mods(t, s, c.value) {
        ClearIdle(t, s, c.value, dead, me, x, j);
      } else if x == m && k == |t.mods[m].subs| + 1 + j {
      } else {
        match TaskAt(t.mods[m], k)
        case DropSub(d) => ClearIdleFrom(t, s, m, k + 1, dead + Mods(t, s, d), me, x, j);
        case Kill => ClearIdleFrom(t, s, m, k + 1, dead + {m}, me, x, j);
        case DropNested(r) => ClearIdleFrom(t, s, m, k + 1, dead + Mods(t, s, t.root[r]), me, x, j);
      }
    }
  }

  /** Marks are only ever removed by the operation that set them: an unload leaves every region
      that was marked before it marked, however it ends. */
  lemma {:induction false} MarksStay(t: Topology, s: State, c: ManagerId, me: ThreadId, r: RegionId)
    requires Layered(t) && Typed(t, s) && c in t.mgrs && r in s.regions && s.regions[r].reconf
    ensures var o := Unload(t, s, c, me); !o.Failed? ==>
      r in o.state.regions && o.state.regions[r].reconf
      && Tally(o.state.threads, LoadOn(r)) <= Tally(s.threads, LoadOn(r))
    decreases t.depth[c], 1, 0
  {
    hide Layered, Typed, CanDecouple;
    KeysOf(t, s);
    HomeIf(t, s, c);
    if s.mgrs[c].current.Some? && s.mgrs[c].rr.Some? {
      var m, w := s.mgrs[c].current.value, s.mgrs[c].rr.value;
      if s.regions[w].count == 0 && CanDecouple(t, s, m, w) {
        DecoupleTyped(t, s, m, w);
        MarksStayFrom(t, Decouple(t, s, m, w), m, 0, me, r);
        var o := Deactivate(t, Decouple(t, s, m, w), m, 0, me);
        if o.Done? { KeysOf(t, o.state); }
      }
    }
  }

  lemma HomeIf(t: Topology, s: State, c: ManagerId)
    requires Typed(t, s) && c in s.mgrs
    ensures s.mgrs[c].current.Some? ==>
      s.mgrs[c].current.value in t.mods && s.mgrs[c].current.value in s.mods && t.mods[s.mgrs[c].current.value].home == c
  {
  }

  lemma {:induction false} MarksStayFrom(t: Topology, s: State, m: ModuleId, k: nat, me: ThreadId, r: RegionId)
    requires Layered(t) && Typed(t, s) && m in t.mods && k <= Tasks(t.mods[m]) && r in s.regions && s.regions[r].reconf
    ensures var o := Deactivate(t, s, m, k, me); !o.Failed? ==>
      r in o.state.regions && o.state.regions[r].reconf
      && Tally(o.state.threads, LoadOn(r)) <= Tally(s.threads, LoadOn(r))
    decreases t.depth[t.mods[m].home], 0, Tasks(t.mods[m]) - k
  {
    hide Layered, Typed;
    KeysOf(t, s);
    if k < Tasks(t.mods[m]) {
      TaskIsOf(t, m, k);
      MarksStayStep(t, s, m, k, me, r);
      var o := Step(t, s, m, TaskAt(t.mods[m], k), me);
      if o.Done? { MarksStayFrom(t, o.state, m, k + 1, me, r); }
    }
  }

  lemma {:induction false} MarksStayStep(t: Topology, s: State, m: ModuleId, k: nat, me: ThreadId, r: RegionId)
    requires Layered(t) && Typed(t, s) && m in t.mods && k < Tasks(t.mods[m]) && r in s.regions && s.regions[r].reconf
    requires TaskOf(t, m, TaskAt(t.mods[m], k))
    ensures var o := Step(t, s, m, TaskAt(t.mods[m], k), me); !o.Failed? ==>
      r in o.state.regions && o.state.regions[r].reconf
      && Tally(o.state.threads, LoadOn(r)) <= Tally(s.threads, LoadOn(r))
    decreases t.depth[t.mods[m].home], 0, 0
  {
    hide Layered, Typed, Unload;
    KeysOf(t, s);
    ChildOwned(t, m, k);
    match TaskAt(t.mods[m], k)
    case DropSub(c) =>
      MarksStay(t, s, c, me, r);
      var o := Unload(t, s, c, me);
      if o.Done? { KeysOf(t, o.state); }
    case Kill =>
      MarksStayKill(s, s.mods[m].handles, me, r);
      KillTyped(t, s, s.mods[m].handles, me);
    case DropNested(w) =>
      if !s.regions[w].reconf {
        SetReconfTyped(t, s, w, true);
        MarksStay(t, SetReconf(s, w, true), t.root[w], me, r);
      }
  }

  lemma {:induction false} MarksStayKill(s: State, hs: seq<ThreadId>, me: ThreadId, r: RegionId)
    requires r in s.regions && s.regions[r].reconf
    ensures var o := KillFrom(s, hs, me); !o.Failed? ==>
      r in o.state.regions && o.state.regions[r].reconf
      && Tally(o.state.threads, LoadOn(r)) <= Tally(s.threads, LoadOn(r))
    decreases |hs|
  {
    if hs != [] && KillOne(s, hs[0]).Some? {
      var n := KillOne(s, hs[0]).value;
      if hs[0] < |s.threads| {
        UnwindKeys(s.regions, s.threads[hs[0]].stack);
        TallyUpdate(s.threads, hs[0], Dead(s.threads[hs[0]]), LoadOn(r));
      }
      if hs[0] != me { MarksStayKill(n, hs[1..], me, r); }
    }
  }

  /** While a region nested at any depth in the active subtree of a manager is being
      reconfigured -- in particular if the process doing so is killed half-way by this very
      unload -- no unload of that subtree completes, and the region stays marked. */
  lemma NestedReconfigurationHolds(t: Topology, states: seq<State>, actions: seq<Action>, n: nat,
                                   i: ThreadId, c: ManagerId, x: ModuleId, j: nat)
    requires Valid(t) && Run(t, states, actions) && n < |states| && Free(states[n], i) && c in t.mgrs
    requires Layered(t) && Typed(t, states[n]) && x in Mods(t, states[n], c) && x in t.mods && j < |t.mods[x].nested|
    requires t.mods[x].nested[j] in states[n].regions && states[n].regions[t.mods[x].nested[j]].reconf
    ensures var o := DoUnload(t, states[n], i, c);
      && !o.Done?
      && (o.Aborted? ==> t.mods[x].nested[j] in o.state.regions && o.state.regions[t.mods[x].nested[j]].reconf)
  {
    hide Typed, Valid, Layered, Clear, Run, Taken, Mods, During;
    UnloadRequestExact(t, states, actions, n, i, c);
    var s, w := states[n], t.mods[x].nested[j];
    KeysOf(t, s);
    if Clear(t, s, c, {}, i) { ClearIdle(t, s, c, {}, i, x, j); }
    if s.mgrs[c].rr.Some? && !s.regions[s.mgrs[c].rr.value].reconf {
      SetReconfTyped(t, s, s.mgrs[c].rr.value, true);
      MarksStay(t, SetReconf(s, s.mgrs[c].rr.value, true), c, i, w);
    }
  }

  /** The same for a request to configure another module in the enclosing region. */
  lemma NestedConfigureHolds(t: Topology, states: seq<State>, actions: seq<Action>, n: nat,
                             i: ThreadId, c: ManagerId, m: ModuleId, x: ModuleId, j: nat)
    requires Valid(t) && Run(t, states, actions) && n < |states| && Free(states[n], i) && c in t.mgrs
    requires m in t.mods && t.mods[m].home == c && c in states[n].mgrs && states[n].mgrs[c].current != Some(m)
    requires Layered(t) && Typed(t, states[n]) && x in Mods(t, states[n], c) && x in t.mods && j < |t.mods[x].nested|
    requires t.mods[x].nested[j] in states[n].regions && states[n].regions[t.mods[x].nested[j]].reconf
    ensures var o := DoConfigure(t, states[n], i, c, Some(m));
      && !o.Done?
      && (o.Aborted? ==> t.mods[x].nested[j] in o.state.regions && o.state.regions[t.mods[x].nested[j]].reconf)
  {
    hide Typed, Valid, Layered, Clear, Run, Mods, During;
    ConfigureExact(t, states, actions, n, i, c, m);
    var s, w := states[n], t.mods[x].nested[j];
    KeysOf(t, s);
    if Clear(t, s, c, {}, i) { ClearIdle(t, s, c, {}, i, x, j); }
    if s.mgrs[c].rr.Some? && !s.regions[s.mgrs[c].rr.value].reconf {
      var r := s.mgrs[c].rr.value;
      BeginTyped(t, s, r);
      MarksStay(t, SetBlocked(SetReconf(s, r, true), r, true), c, i, w);
    }
  }

  // ---- orphans --------------------------------------------------------------------------------

  /** Marked as reconfiguring, but no live process is reconfiguring it. */
  ghost predicate Orphan(s: State, r: RegionId) {
    r in s.regions && s.regions[r].reconf && Tally(s.threads, LoadOn(r)) == 0
  }

  lemma ReplaceTyped(t: Topology, s: State, i: ThreadId, f: Frame)
    requires Typed(t, s) && i < |s.threads| && s.threads[i].stack != []
    ensures Typed(t, Replace(s, i, f))
  {
  }
}
