/** When transactions of a region can be blocked while calls are still in flight: by a request that found
    its own area of a split region empty, or by a preload after a module has been lost. */
module Blocking {
  import opened Model
  import opened Teardown
  import opened Invariants
  import opened Effects
  import opened UnloadSafety
  import opened Protocol
  import opened LoadEffects
  import opened Steps
  import opened Safety
  import opened Closure
  import opened Exactness
  import opened Guarantees

  // ---- an unload only takes away ------------------------------------------------------------------

  /** No region is blocked or unblocked, no counter grows, and a simulation that runs goes on. */
  ghost predicate Fewer(s: State, n: State) {
    && n.regions.Keys == s.regions.Keys && (s.started ==> n.started)
    && forall r <- s.regions :: n.regions[r].blocked == s.regions[r].blocked && n.regions[r].count <= s.regions[r].count
  }

  lemma {:induction false} UnloadFewer(t: Topology, s: State, c: ManagerId, me: ThreadId)
    requires Layered(t) && Typed(t, s) && c in t.mgrs
    ensures var o := Unload(t, s, c, me); !o.Failed? ==> Fewer(s, o.state)
    decreases t.depth[c], 1, 0
  {
    hide Layered, Typed, CanDecouple;
    KeysOf(t, s);
    HomeIf(t, s, c);
    if s.mgrs[c].current.Some? && s.mgrs[c].rr.Some? {
      var m, w := s.mgrs[c].current.value, s.mgrs[c].rr.value;
      if s.regions[w].count == 0 && CanDecouple(t, s, m, w) {
        DecoupleTyped(t, s, m, w);
        DeactivateFewer(t, Decouple(t, s, m, w), m, 0, me);
        var o := Deactivate(t, Decouple(t, s, m, w), m, 0, me);
        if o.Done? { KeysOf(t, o.state); }
      }
    }
  }

  lemma {:induction false} DeactivateFewer(t: Topology, s: State, m: ModuleId, k: nat, me: ThreadId)
    requires Layered(t) && Typed(t, s) && m in t.mods && k <= Tasks(t.mods[m])
    ensures var o := Deactivate(t, s, m, k, me); !o.Failed? ==> Fewer(s, o.state)
    decreases t.depth[t.mods[m].home], 0, Tasks(t.mods[m]) - k
  {
    hide Layered, Typed;
    KeysOf(t, s);
    if k < Tasks(t.mods[m]) {
      TaskIsOf(t, m, k);
      StepFewer(t, s, m, k, me);
      var o := Step(t, s, m, TaskAt(t.mods[m], k), me);
      if o.Done? { DeactivateFewer(t, o.state, m, k + 1, me); }
    }
  }

  lemma {:induction false} StepFewer(t: Topology, s: State, m: ModuleId, k: nat, me: ThreadId)
    requires Layered(t) && Typed(t, s) && m in t.mods && k < Tasks(t.mods[m])
    requires TaskOf(t, m, TaskAt(t.mods[m], k))
    ensures var o := Step(t, s, m, TaskAt(t.mods[m], k), me); !o.Failed? ==> Fewer(s, o.state)
    decreases t.depth[t.mods[m].home], 0, 0
  {
    hide Layered, Typed, Unload;
    KeysOf(t, s);
    ChildOwned(t, m, k);
    match TaskAt(t.mods[m], k)
    case DropSub(c) =>
      UnloadFewer(t, s, c, me);
      var o := Unload(t, s, c, me);
      if o.Done? { KeysOf(t, o.state); }
    case Kill =>
      KillFewer(s, s.mods[m].handles, me);
      KillTyped(t, s, s.mods[m].handles, me);
    case DropNested(w) =>
      if !s.regions[w].reconf {
        SetReconfTyped(t, s, w, true);
        UnloadFewer(t, SetReconf(s, w, true), t.root[w], me);
      }
  }

  lemma {:induction false} KillFewer(s: State, hs: seq<ThreadId>, me: ThreadId)
    ensures var o := KillFrom(s, hs, me); !o.Failed? ==> Fewer(s, o.state)
    decreases |hs|
  {
    if hs != [] && KillOne(s, hs[0]).Some? {
      var n := KillOne(s, hs[0]).value;
      if hs[0] < |s.threads| { UnwindKeys(s.regions, s.threads[hs[0]].stack); }
      if hs[0] != me { KillFewer(n, hs[1..], me); }
    }
  }

  // ---- the request ----------------------------------------------------------------------------

  /** A request that gets as far as the load wait has blocked its region.  The region then is quiet
      exactly when the manager held a module, which the guard of the unload checks the counter for,
      or nobody was inside the region anyway. */
  lemma BlockedExact(t: Topology, states: seq<State>, actions: seq<Action>, n: nat, i: ThreadId, c: ManagerId, m: ModuleId)
    requires Valid(t) && Run(t, states, actions) && n < |states| && Free(states[n], i) && c in t.mgrs
    requires m in t.mods && t.mods[m].home == c && c in states[n].mgrs && states[n].mgrs[c].current != Some(m)
    ensures Layered(t) && Typed(t, states[n])
    ensures var s, o := states[n], DoConfigure(t, states[n], i, c, Some(m)); o.Done? ==>
      && s.mgrs[c].rr.Some? && s.mgrs[c].rr.value in s.regions && s.mgrs[c].rr.value in o.state.regions
      && o.state.regions[s.mgrs[c].rr.value].blocked
      && (o.state.regions[s.mgrs[c].rr.value].count == 0 <==>
            s.mgrs[c].current.Some? || s.regions[s.mgrs[c].rr.value].count == 0)
  {
    hide During, Valid, Layered, Typed, Run, DoConfigure;
    RunSound(t, states, actions, n);
    LayeredOf(t);
    TypedOf(t, states[n]);
    BlockedExactIn(t, states[n], i, c, m);
  }

  lemma BlockedExactIn(t: Topology, s: State, i: ThreadId, c: ManagerId, m: ModuleId)
    requires Layered(t) && Typed(t, s) && c in t.mgrs && i < |s.threads| && m in t.mods && t.mods[m].home == c
    requires c in s.mgrs && s.mgrs[c].current != Some(m)
    ensures var o := DoConfigure(t, s, i, c, Some(m)); o.Done? ==>
      && s.mgrs[c].rr.Some? && s.mgrs[c].rr.value in s.regions && s.mgrs[c].rr.value in o.state.regions
      && o.state.regions[s.mgrs[c].rr.value].blocked
      && (o.state.regions[s.mgrs[c].rr.value].count == 0 <==>
            s.mgrs[c].current.Some? || s.regions[s.mgrs[c].rr.value].count == 0)
      && (forall w | w in s.regions && w != s.mgrs[c].rr.value :: w in o.state.regions && Quieter(s.regions[w], o.state.regions[w]))
    ensures var o := DoConfigure(t, s, i, c, Some(m)); o.Aborted? ==>
      forall w <- s.regions :: w in o.state.regions && Quieter(s.regions[w], o.state.regions[w])
  {
    hide Typed, Layered, Unload;
    KeysOf(t, s);
    if s.mgrs[c].rr.Some? { EmptyUnload(t, s, i, c); }
    if s.mgrs[c].current.Some? && s.mgrs[c].rr.Some? {
      var r := s.mgrs[c].rr.value;
      if !s.regions[r].reconf && !s.regions[r].blocked {
        var b := SetBlocked(SetReconf(s, r, true), r, true);
        BeginTyped(t, s, r);
        if s.regions[r].count != 0 {
          UnloadBusy(t, b, c, i);
        } else {
          UnloadFewer(t, b, c, i);
        }
      }
    }
  }

  lemma EmptyUnload(t: Topology, s: State, i: ThreadId, c: ManagerId)
    requires Layered(t) && Typed(t, s) && c in t.mgrs && c in s.mgrs && s.mgrs[c].rr.Some? && s.mgrs[c].rr.value in t.root
    ensures var b := SetBlocked(SetReconf(s, s.mgrs[c].rr.value, true), s.mgrs[c].rr.value, true);
      Typed(t, b) && (s.mgrs[c].current.None? ==> Unload(t, b, c, i) == Done(b))
  {
    hide Layered, Typed;
    BeginTyped(t, s, s.mgrs[c].rr.value);
  }

  // ---- every other step ---------------------------------------------------------------------------

  /** If the region is blocked afterwards, its counter has not grown, and it was blocked before unless
      nobody is inside. */
  predicate Quieter(was: Region, now: Region) {
    now.blocked ==> now.count <= was.count && (now.count > 0 ==> was.blocked)
  }

  /** A request for an empty manager connected to a region with calls in flight. */
  predicate RequestsBusy(s: State, a: Action, r: RegionId) {
    && a.Configure? && a.found.Some? && a.c in s.mgrs && s.mgrs[a.c] == Manager(None, Some(r))
    && r in s.regions && s.regions[r].count > 0
  }

  /** A load about to preload a nested region with calls in flight. */
  predicate PreloadsOverCalls(t: Topology, s: State, a: Action, r: RegionId) {
    && a.Resume? && Top(s, a.i).Some? && Top(s, a.i).value.Load? && Top(s, a.i).value.phase.Activating?
    && r in t.root && t.root[r] in t.preload && r in s.regions && s.regions[r].count > 0
    && var f := Top(s, a.i).value;
      f.mod in t.mods && f.phase.next < |t.mods[f.mod].nested| && t.mods[f.mod].nested[f.phase.next] == r
  }

  /** The two kinds of step that block a region somebody is inside of. */
  predicate BlocksBusy(t: Topology, s: State, a: Action, r: RegionId) {
    RequestsBusy(s, a, r) || PreloadsOverCalls(t, s, a, r)
  }

  lemma CallQuiet(s: State, i: ThreadId, w: RegionId, x: MemberId, m: ModuleId, r: RegionId)
    requires i < |s.threads| && w in s.regions && r in s.regions
    ensures var o := DoCall(s, i, w, x, m); !o.Failed? ==> r in o.state.regions && Quieter(s.regions[r], o.state.regions[r])
  {
  }

  lemma UnloadQuiet(t: Topology, s: State, i: ThreadId, c: ManagerId, r: RegionId)
    requires Layered(t) && Typed(t, s) && c in t.mgrs && i < |s.threads| && r in s.regions
    ensures var o := DoUnload(t, s, i, c); !o.Failed? ==> r in o.state.regions && Quieter(s.regions[r], o.state.regions[r])
  {
    hide Typed, Layered;
    KeysOf(t, s);
    if s.mgrs[c].rr.Some? && !s.regions[s.mgrs[c].rr.value].reconf {
      SetReconfTyped(t, s, s.mgrs[c].rr.value, true);
      UnloadFewer(t, SetReconf(s, s.mgrs[c].rr.value, true), c, i);
    }
  }

  /** A nested preload blocks its region, whoever is inside. */
  lemma NestedQuiet(t: Topology, s: State, i: ThreadId, w: RegionId, r: RegionId)
    requires Layered(t) && Typed(t, s) && i < |s.threads| && w in t.root && r in s.regions
    ensures var o := DoNestedPreload(t, s, i, w); !o.Failed? ==>
      && o.Done? && r in o.state.regions
      && (if w == r && t.root[w] in t.preload then o.state.regions[r] == Region(true, true, s.regions[r].count)
          else o.state.regions[r] == s.regions[r])
  {
    hide Typed, Layered;
    KeysOf(t, s);
  }

  lemma RootIs(t: Topology, s: State, w: RegionId)
    requires Roots(t, s) && w in t.root
    ensures t.root[w] in s.mgrs && s.mgrs[t.root[w]].rr == Some(w)
  {
  }

  lemma RootEmpty(t: Topology, s: State, w: RegionId)
    requires Valid(t) && Inv(t, s) && w in t.root && w in s.regions && t.root[w] in s.mgrs && s.mgrs[t.root[w]].current.None?
    ensures s.regions[w].count == 0
  {
    hide ThreadsOk, HandlesOk, Exclusive, FlagsOk, LoadsOk, DecoupledOk, Stationed, Leftovers, WaitsOk, BlockedOk, SettledPart, SplitPart, PathOk, Valid;
    if s.regions[w].count > 0 {
      EmptyIsQuiet(t, s, w);
      var m, k :| m in t.mods && 0 <= k < |t.mods[m].subs| && t.mods[m].subs[k] in s.mgrs
                  && s.mgrs[t.mods[m].subs[k]].rr == Some(w);
      SubHome(t, s, m, k, w);
      KeysOf(t, s);
      RootHolds(t, s, t.mods[m].home, w);
    }
  }

  lemma SubInside(t: Topology, m: ModuleId, k: nat)
    requires Valid(t) && m in t.mods && k < |t.mods[m].subs|
    ensures Inside(t, t.mods[m].subs[k], m) && t.mods[m].home in t.mgrs
  {
  }

  lemma OwnedRoot(t: Topology, s: State, c: ManagerId, r: RegionId)
    requires Valid(t) && Roots(t, s) && r in t.root && c in s.mgrs && c in t.mgrs && s.mgrs[c].rr == Some(r)
    ensures t.root[r] == c || IsSub(t, c)
  {
    assert Owned(t, c);
  }

  /** The managers above `c`. */
  ghost function HigherOnes(t: Topology, c: ManagerId): set<ManagerId>
    requires c in t.depth
  {
    set d | d in t.depth && t.depth[d] > t.depth[c]
  }

  ghost function HeightLeft(t: Topology, c: ManagerId): nat
    requires c in t.depth
  {
    |HigherOnes(t, c)|
  }

  lemma Higher(t: Topology, c: ManagerId, d: ManagerId)
    requires c in t.depth && d in t.depth && t.depth[c] < t.depth[d]
    ensures HeightLeft(t, d) < HeightLeft(t, c)
  {
    assert d in HigherOnes(t, c) && d !in HigherOnes(t, d);
    Smaller(HigherOnes(t, d), HigherOnes(t, c));
  }

  lemma Smaller(a: set<ManagerId>, b: set<ManagerId>)
    requires a < b
    ensures |a| < |b|
  {
    assert b == a + (b - a);
    assert b - a != {};
  }

  /** A sub-manager is only connected while the region's own manager holds a split manager. */
  lemma {:induction false} RootHolds(t: Topology, s: State, c: ManagerId, w: RegionId)
    requires Valid(t) && Roots(t, s) && Connected(t, s) && w in t.root && c in s.mgrs && c in t.mgrs && s.mgrs[c].rr == Some(w)
    ensures t.root[w] in s.mgrs && (c == t.root[w] || s.mgrs[t.root[w]].current.Some?)
    decreases if c in t.depth then HeightLeft(t, c) else 0
  {
    hide Valid, Connected, Roots;
    DepthOf(t, c);
    RootIs(t, s, w);
    OwnedRoot(t, s, c, w);
    if t.root[w] != c {
      var m, k :| m in t.mods && 0 <= k < |t.mods[m].subs| && t.mods[m].subs[k] == c;
      SubInside(t, m, k);
      SubHome(t, s, m, k, w);
      Higher(t, c, t.mods[m].home);
      RootHolds(t, s, t.mods[m].home, w);
    }
  }

  lemma SubHome(t: Topology, s: State, m: ModuleId, k: nat, w: RegionId)
    requires Connected(t, s) && m in t.mods && k < |t.mods[m].subs| && t.mods[m].subs[k] in s.mgrs
    requires s.mgrs[t.mods[m].subs[k]].rr == Some(w)
    ensures t.mods[m].home in s.mgrs && s.mgrs[t.mods[m].home] == Manager(Some(m), Some(w))
  {
  }

  lemma ResumeQuiet(t: Topology, s: State, i: ThreadId, r: RegionId)
    requires Layered(t) && Typed(t, s) && r in s.regions && Enabled(t, s, Resume(i))
    ensures Quiets(t, s, Resume(i), DoResume(t, s, i), r)
  {
    hide Typed, Layered, CanCouple, DoNestedPreload;
    KeysOf(t, s);
    var f := Top(s, i).value;
    if f.phase.Activating? && f.phase.next < |t.mods[f.mod].nested| {
      NestedOf(t, f.mod, f.phase.next);
      var b := Replace(s, i, f.(phase := Activating(f.phase.next + 1)));
      ReplaceTyped(t, s, i, f.(phase := Activating(f.phase.next + 1)));
      NestedQuiet(t, b, i, t.mods[f.mod].nested[f.phase.next], r);
    }
  }

  /** What a step does to the flags of region `r`. */
  ghost predicate Quiets(t: Topology, s: State, a: Action, o: Outcome, r: RegionId)
    requires r in s.regions
  {
    !o.Failed? ==>
      && r in o.state.regions
      && (if BlocksBusy(t, s, a, r) then o.state.regions[r] == Region(true, true, s.regions[r].count)
          else Quieter(s.regions[r], o.state.regions[r]))
  }

  lemma StepQuiet(t: Topology, s: State, a: Action, r: RegionId)
    requires Layered(t) && Typed(t, s) && Enabled(t, s, a) && r in s.regions
    ensures Quiets(t, s, a, Next(t, s, a), r)
  {
    hide Layered, Typed, Quiets, Next, Enabled;
    match a
    case StartPreload(c) => StartQuiets(t, s, c, r);
    case Configure(_, _, _) => RequestQuiets(t, s, a, r);
    case UnloadRequest(_, _) => RequestQuiets(t, s, a, r);
    case Resume(_) => RequestQuiets(t, s, a, r);
    case _ => CallQuiets(t, s, a, r);
  }

  lemma RequestQuiets(t: Topology, s: State, a: Action, r: RegionId)
    requires Layered(t) && Typed(t, s) && Enabled(t, s, a) && (a.Configure? || a.UnloadRequest? || a.Resume?) && r in s.regions
    ensures Quiets(t, s, a, Next(t, s, a), r)
  {
    hide Layered, Typed, DoUnload, DoConfigure, DoResume, Quiets;
    StartedTyped(t, s);
    var b := s.(started := true);
    match a
    case Configure(i, c, found) => ConfigureQuiet(t, b, i, c, found, r); QuietsStarted(t, s, a, Next(t, s, a), r);
    case UnloadRequest(i, c) => UnloadQuiet(t, b, i, c, r); QuietsOther(t, s, a, Next(t, s, a), r);
    case Resume(i) => ResumeQuiet(t, b, i, r); QuietsStarted(t, s, a, Next(t, s, a), r);
  }

  lemma CallQuiets(t: Topology, s: State, a: Action, r: RegionId)
    requires Layered(t) && Typed(t, s) && Enabled(t, s, a) && (a.Enter? || a.EnterOut? || a.Return? || a.Exit?) && r in s.regions
    ensures Quiets(t, s, a, Next(t, s, a), r)
  {
    hide Layered, Typed, DoEnter, DoEnterOut, DoReturn, DoExit, Quiets, Quieter;
    StartedTyped(t, s);
    KeysOf(t, s);
    var b := s.(started := true);
    match a
    case Enter(i, w, x) => EnterQuiet(b, i, w, x, r); QuietsOther(t, s, a, Next(t, s, a), r);
    case EnterOut(i, m, x) => EnterOutQuiet(t, b, i, m, x, r); QuietsOther(t, s, a, Next(t, s, a), r);
    case Return(i) => ReturnQuiet(b, i, r); QuietsOther(t, s, a, Next(t, s, a), r);
    case Exit(i) => ExitQuiet(b, i, r); QuietsOther(t, s, a, Next(t, s, a), r);
  }

  lemma QuietsStarted(t: Topology, s: State, a: Action, o: Outcome, r: RegionId)
    requires r in s.regions && Quiets(t, s.(started := true), a, o, r)
    ensures Quiets(t, s, a, o, r)
  {
  }

  lemma QuietsOther(t: Topology, s: State, a: Action, o: Outcome, r: RegionId)
    requires r in s.regions && !a.Configure? && !a.Resume?
    requires !o.Failed? ==> r in o.state.regions && Quieter(s.regions[r], o.state.regions[r])
    ensures Quiets(t, s, a, o, r)
  {
  }

  lemma StartQuiets(t: Topology, s: State, c: ManagerId, r: RegionId)
    requires Layered(t) && Typed(t, s) && Enabled(t, s, StartPreload(c)) && r in s.regions
    ensures Quiets(t, s, StartPreload(c), Next(t, s, StartPreload(c)), r)
  {
    hide Layered, Typed, DoStartPreload;
    StartQuiet(t, s, c);
  }

  lemma EnterQuiet(s: State, i: ThreadId, w: RegionId, x: MemberId, r: RegionId)
    requires i < |s.threads| && w in s.regions && r in s.regions
    ensures var o := DoEnter(s, i, w, x); !o.Failed? ==> r in o.state.regions && Quieter(s.regions[r], o.state.regions[r])
  {
    hide DoCall;
    if (w, x) in s.bound { CallQuiet(s, i, w, x, s.bound[(w, x)], r); }
  }

  lemma EnterOutQuiet(t: Topology, s: State, i: ThreadId, m: ModuleId, x: MemberId, r: RegionId)
    requires Typed(t, s) && i < |s.threads| && m in s.mods && r in s.regions
    ensures var o := DoEnterOut(t, s, i, m, x); !o.Failed? ==> r in o.state.regions && Quieter(s.regions[r], o.state.regions[r])
  {
    hide DoCall, Typed;
    if s.mods[m].configured.Some? {
      ConfiguredIn(t, s, m);
      CallQuiet(s, i, s.mods[m].configured.value, x, m, r);
    }
  }

  lemma ReturnQuiet(s: State, i: ThreadId, r: RegionId)
    requires Top(s, i).Some? && Top(s, i).value.Call? && r in s.regions
    ensures var o := DoReturn(s, i); !o.Failed? ==> r in o.state.regions && Quieter(s.regions[r], o.state.regions[r])
  {
  }

  lemma ExitQuiet(s: State, i: ThreadId, r: RegionId)
    requires i < |s.threads| && r in s.regions
    ensures r in DoExit(s, i).regions && Quieter(s.regions[r], DoExit(s, i).regions[r])
  {
  }

  lemma StartQuiet(t: Topology, s: State, c: ManagerId)
    requires Layered(t) && Typed(t, s) && c in t.mgrs
    ensures var o := DoStartPreload(t, s, c); !o.Failed? ==> o.state.regions == s.regions
  {
    hide Typed, Layered, CanCouple;
    KeysOf(t, s);
    PreloadIn(t);
  }

  lemma PreloadIn(t: Topology)
    requires Layered(t)
    ensures forall c <- t.preload :: t.preload[c] in t.mods
  {
  }

  lemma ConfiguredIn(t: Topology, s: State, m: ModuleId)
    requires Typed(t, s) && m in s.mods && s.mods[m].configured.Some?
    ensures s.mods[m].configured.value in s.regions
  {
  }

  lemma ConfigureQuiet(t: Topology, s: State, i: ThreadId, c: ManagerId, found: Option<ModuleId>, r: RegionId)
    requires Layered(t) && Typed(t, s) && c in t.mgrs && i < |s.threads| && r in s.regions
    requires found.Some? ==> found.value in t.mods && t.mods[found.value].home == c
    ensures Quiets(t, s, Configure(i, c, found), DoConfigure(t, s, i, c, found), r)
  {
    hide Typed, Layered;
    KeysOf(t, s);
    if found.Some? && found != s.mgrs[c].current {
      BlockedExactIn(t, s, i, c, found.value);
      if s.mgrs[c] == Manager(None, Some(r)) { BusyStays(t, s, i, c, found.value, r); }
    }
  }

  lemma BusyStays(t: Topology, s: State, i: ThreadId, c: ManagerId, m: ModuleId, r: RegionId)
    requires Layered(t) && Typed(t, s) && c in t.mgrs && i < |s.threads| && m in t.mods && t.mods[m].home == c
    requires c in s.mgrs && s.mgrs[c] == Manager(None, Some(r)) && r in s.regions
    ensures var o := DoConfigure(t, s, i, c, Some(m)); !o.Failed? ==>
      r in o.state.regions && o.state.regions[r] == Region(true, true, s.regions[r].count)
  {
    hide Typed, Layered;
    KeysOf(t, s);
    if !s.regions[r].reconf && !s.regions[r].blocked { BeginTyped(t, s, r); }
  }

  // ---- over whole runs ----------------------------------------------------------------------------

  ghost predicate Busy(s: State, r: RegionId) {
    r in s.regions && s.regions[r].blocked && s.regions[r].count > 0
  }

  /** A region becomes blocked with calls in flight in exactly two ways: by a request for an empty
      manager of a region somebody is inside of, or by a preload of a nested region somebody is inside
      of.  While no module has been preloaded over there is only the first, and the region is split. */
  lemma BusyBirth(t: Topology, states: seq<State>, actions: seq<Action>, n: nat, r: RegionId)
    requires Valid(t) && Run(t, states, actions) && n < |actions| && r in t.root && !Busy(states[n], r)
    ensures Busy(states[n + 1], r) <==> RequestsBusy(states[n], actions[n], r) || PreloadsOverCalls(t, states[n], actions[n], r)
    ensures TidyRun(t, states, actions) && Busy(states[n + 1], r) ==>
      RequestsBusy(states[n], actions[n], r) && Divided(t, states[n], r)
  {
    hide During, Valid, Next, Typed, Layered, Enabled, Overwrites, Divided, TidyRun, RequestsBusy, PreloadsOverCalls, Run, Quiets;
    RunStep(t, states, actions, n);
    KeysOf(t, states[n]);
    StepQuiet(t, states[n], actions[n], r);
    QuietsBusy(t, states[n], actions[n], Next(t, states[n], actions[n]), r);
    if TidyRun(t, states, actions) && Busy(states[n + 1], r) {
      RunInv(t, states, actions, n);
      TidyStep(t, states, actions, n);
      if PreloadsOverCalls(t, states[n], actions[n], r) { NoCallsUnderPreload(t, states[n], actions[n], r); }
      BusyDivided(t, states[n], actions[n], r);
    }
  }

  lemma RunStep(t: Topology, states: seq<State>, actions: seq<Action>, n: nat)
    requires Run(t, states, actions) && n < |actions|
    ensures |states| == |actions| + 1 && Moves(t, states[n], actions[n], states[n + 1])
  {
  }

  lemma QuietsBusy(t: Topology, s: State, a: Action, o: Outcome, r: RegionId)
    requires r in s.regions && !o.Failed? && Quiets(t, s, a, o, r) && !Busy(s, r)
    ensures Busy(o.state, r) <==> BlocksBusy(t, s, a, r)
  {
  }

  lemma TidyStep(t: Topology, states: seq<State>, actions: seq<Action>, n: nat)
    requires TidyRun(t, states, actions) && n < |actions|
    ensures !Overwrites(t, states[n], actions[n])
  {
    assert TidyMoves(t, states[n], actions[n], states[n + 1]);
  }

  /** A preload into an empty region finds nobody inside: the region's own manager is empty, so no
      split manager is there whose areas somebody could have entered. */
  lemma NoCallsUnderPreload(t: Topology, s: State, a: Action, r: RegionId)
    requires Valid(t) && Inv(t, s) && !Overwrites(t, s, a)
    ensures !PreloadsOverCalls(t, s, a, r)
  {
    hide Typed, ThreadsOk, HandlesOk, Counted, Exclusive, FlagsOk, CallsBound, Matching, LoadsOk, Homes, Roots,
         Connected, DecoupledOk, Stationed, Leftovers, WaitsOk, BlockedOk, SettledPart, SplitPart, PathOk, Valid;
    if PreloadsOverCalls(t, s, a, r) {
      RootIs(t, s, r);
      RootEmpty(t, s, r);
    }
  }

  lemma BusyDivided(t: Topology, s: State, a: Action, r: RegionId)
    requires Valid(t) && Inv(t, s) && RequestsBusy(s, a, r)
    ensures Divided(t, s, r)
  {
    hide ThreadsOk, HandlesOk, Counted, Exclusive, FlagsOk, LoadsOk, CallsBound, Matching, Homes, Connected, DecoupledOk, Stationed, Leftovers, WaitsOk, BlockedOk,
         SettledPart, SplitPart, PathOk, Valid, Typed, Divided;
    KeysOf(t, s);
    OwnedRegion(t, s, a.c, r);
    if t.root[r] == a.c { RootEmpty(t, s, r); }
  }

  /** While a region is blocked nobody enters it: from one state of a run to a later one its counter
      only falls, and once quiet it stays quiet. */
  lemma {:induction false} BlockedDrains(t: Topology, states: seq<State>, actions: seq<Action>, n: nat, k: nat, r: RegionId)
    requires Run(t, states, actions) && n <= k < |states| && r in t.root
    requires forall j | n <= j <= k :: r in states[j].regions && states[j].regions[r].blocked
    ensures states[k].regions[r].count <= states[n].regions[r].count
    decreases k
  {
    hide Next, Typed, Layered, Enabled;
    if n < k {
      BlockedDrains(t, states, actions, n, k - 1, r);
      assert Moves(t, states[k - 1], actions[k - 1], states[k]);
      StepQuiet(t, states[k - 1], actions[k - 1], r);
    }
  }
}
