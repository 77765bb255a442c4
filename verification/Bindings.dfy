/** While a load waits for its adapters to synchronise nobody binds or unbinds an adapter of its region. */
module Bindings {
  import opened Model
  import opened Teardown
  import opened Invariants
  import opened Effects
  import opened UnloadSafety
  import opened Protocol
  import opened LoadEffects
  import opened Steps
  import opened Safety
  import opened Closure
  import opened Exactness
  import opened Guarantees

  /** Every adapter of region `r` is bound, and marked as decoupled, as before. */
  ghost predicate Spares(s: State, n: State, r: RegionId) {
    forall x: MemberId :: SameAdapter(s, n, (r, x))
  }

  ghost predicate SameAdapter(s: State, n: State, k: (RegionId, MemberId)) {
    && (k in n.bound <==> k in s.bound) && (k in s.bound && k in n.bound ==> n.bound[k] == s.bound[k])
    && (k in n.decoupled <==> k in s.decoupled)
  }

  lemma SparesTwice(s: State, n: State, e: State, r: RegionId)
    requires Spares(s, n, r) && Spares(n, e, r)
    ensures Spares(s, e, r)
  {
    forall x: MemberId ensures SameAdapter(s, e, (r, x)) {
      assert SameAdapter(s, n, (r, x)) && SameAdapter(n, e, (r, x));
    }
  }

  lemma SameBindings(s: State, n: State, r: RegionId)
    requires n.bound == s.bound && n.decoupled == s.decoupled
    ensures Spares(s, n, r)
  {
  }

  // ---- unloading --------------------------------------------------------------------------------

  /** Region `r` was being reconfigured before the operation that has opened the regions `q`. */
  ghost predicate Elsewhere(s: State, r: RegionId, q: set<RegionId>) {
    r in s.regions && s.regions[r].reconf && r !in q
  }

  lemma DecoupleSpares(t: Topology, s: State, m: ModuleId, w: RegionId, r: RegionId)
    requires m in t.mods && m in s.mods && w != r
    ensures Spares(s, Decouple(t, s, m, w), r)
  {
    forall x: MemberId ensures (r, x) !in Keys(w, t.mods[m].members) && (r, x) !in Keys(w, t.mods[m].members * t.outs) {}
  }

  lemma {:induction false} UnloadSpares(t: Topology, s: State, c: ManagerId, me: ThreadId, r: RegionId,
                                        q: set<RegionId>, p: set<ManagerId>)
    requires Layered(t) && Typed(t, s) && c in t.mgrs && me < |s.threads| && Elsewhere(s, r, q)
    requires s.mgrs[c].rr.Some? ==> s.mgrs[c].rr.value in q
    requires Above(t, p, t.depth[c])
    requires Valid(t) && During(t, s, q, p, false)
    ensures var o := Unload(t, s, c, me); !o.Failed? ==> Spares(s, o.state, r)
    decreases t.depth[c], 1, 0
  {
    hide Typed, ThreadsOk, HandlesOk, Counted, Exclusive, FlagsOk, CallsBound, Matching, LoadsOk, Tidy, Roots,
         DecoupledOk, Stationed, Leftovers, SettledPart, SplitPart, PathOk, Valid, Layered, CanDecouple, Spares, Decouple;
    KeysOf(t, s);
    SameBindings(s, s, r);
    if s.mgrs[c].current.Some? && s.mgrs[c].rr.Some? {
      var m, w := s.mgrs[c].current.value, s.mgrs[c].rr.value;
      HomeOf(t, s, c);
      DepthOf(t, c);
      if s.regions[w].count == 0 && CanDecouple(t, s, m, w) {
        DecoupleKeeps(t, s, m, w, q, p, false);
        DecoupleSpares(t, s, m, w, r);
        var n := Decouple(t, s, m, w);
        DecoupleElsewhere(t, s, m, w, r, q);
        DeactivateSpares(t, n, m, w, 0, me, r, q, p + {c});
        var o := Deactivate(t, n, m, 0, me);
        if !o.Failed? {
          SparesTwice(s, n, o.state, r);
          if o.Done? {
            KeysOf(t, o.state);
            SameBindings(o.state, SetCurrent(o.state, c, None), r);
            SparesTwice(s, o.state, SetCurrent(o.state, c, None), r);
          }
        }
      }
    }
  }

  lemma DecoupleElsewhere(t: Topology, s: State, m: ModuleId, w: RegionId, r: RegionId, q: set<RegionId>)
    requires m in t.mods && m in s.mods && Elsewhere(s, r, q)
    ensures Elsewhere(Decouple(t, s, m, w), r, q)
  {
  }

  lemma SameElsewhere(s: State, n: State, r: RegionId, q: set<RegionId>)
    requires Elsewhere(s, r, q) && SameReconf(s, n)
    ensures Elsewhere(n, r, q)
  {
  }

  lemma {:induction false} DeactivateSpares(t: Topology, s: State, m: ModuleId, w: RegionId, k: nat, me: ThreadId, r: RegionId,
                                            q: set<RegionId>, p: set<ManagerId>)
    requires Opened(t, s, m, w, q) && k <= Tasks(t.mods[m]) && Progress(t, s, m, k)
    requires OnPath(t, m, p)
    requires Layered(t) && Typed(t, s) && me < |s.threads| && Elsewhere(s, r, q)
    requires Valid(t) && During(t, s, q, p, false)
    ensures var o := Deactivate(t, s, m, k, me); !o.Failed? ==> Spares(s, o.state, r)
    decreases t.depth[t.mods[m].home], 0, Tasks(t.mods[m]) - k
  {
    hide Typed, ThreadsOk, HandlesOk, Counted, Exclusive, FlagsOk, CallsBound, Matching, LoadsOk, Tidy, Roots,
         DecoupledOk, Stationed, Leftovers, SettledPart, SplitPart, PathOk, Valid, Layered, Spares, Opened, Progress, SameReconf;
    SameBindings(s, s, r);
    if k < Tasks(t.mods[m]) {
      TaskIsOf(t, m, k);
      StepKeeps(t, s, m, w, k, me, q, p, false);
      StepSpares(t, s, m, w, k, me, r, q, p);
      var o := Step(t, s, m, TaskAt(t.mods[m], k), me);
      if o.Done? {
        SameElsewhere(s, o.state, r, q);
        DeactivateSpares(t, o.state, m, w, k + 1, me, r, q, p);
        var e := Deactivate(t, o.state, m, k + 1, me);
        if !e.Failed? { SparesTwice(s, o.state, e.state, r); }
      }
    }
  }

  lemma {:induction false} StepSpares(t: Topology, s: State, m: ModuleId, w: RegionId, k: nat, me: ThreadId, r: RegionId,
                                      q: set<RegionId>, p: set<ManagerId>)
    requires Opened(t, s, m, w, q) && k < Tasks(t.mods[m]) && Progress(t, s, m, k)
    requires OnPath(t, m, p)
    requires Layered(t) && Typed(t, s) && me < |s.threads| && Elsewhere(s, r, q)
    requires TaskOf(t, m, TaskAt(t.mods[m], k))
    requires Valid(t) && During(t, s, q, p, false)
    ensures var o := Step(t, s, m, TaskAt(t.mods[m], k), me); !o.Failed? ==> Spares(s, o.state, r)
    decreases t.depth[t.mods[m].home], 0, 0
  {
    hide Typed, ThreadsOk, HandlesOk, Counted, Exclusive, FlagsOk, CallsBound, Matching, LoadsOk, Tidy, Roots,
         DecoupledOk, Stationed, Leftovers, SettledPart, SplitPart, PathOk, Valid, Layered, Spares, Unload;
    KeysOf(t, s);
    match TaskAt(t.mods[m], k)
    case DropSub(c) =>
      SubRegion(t, s, m, w, k, q);
      UnloadSpares(t, s, c, me, r, q, p);
      var o := Unload(t, s, c, me);
      if o.Done? {
        KeysOf(t, o.state);
        var e := SetRr(o.state, c, o.state.mods[m].configured);
        SameBindings(o.state, e, r);
        SparesTwice(s, o.state, e, r);
      }
    case Kill =>
      KillBound(s, s.mods[m].handles, me);
      KillTyped(t, s, s.mods[m].handles, me);
      var o := KillFrom(s, s.mods[m].handles, me);
      if !o.Failed? {
        SameBindings(s, o.state, r);
        if o.Done? { SameBindings(s, SetHandles(o.state, m, []), r); }
      }
    case DropNested(v) =>
      RootOf(t, s, v);
      ModuleSpares(t, s, t.root[v], v, me, r, q, p);
  }

  lemma {:induction false} ModuleSpares(t: Topology, s: State, c: ManagerId, v: RegionId, me: ThreadId, r: RegionId,
                                        q: set<RegionId>, p: set<ManagerId>)
    requires Layered(t) && Typed(t, s) && c in t.mgrs && v in t.root && me < |s.threads| && Elsewhere(s, r, q)
    requires c in s.mgrs && s.mgrs[c].rr == Some(v) && Above(t, p, t.depth[c])
    requires Valid(t) && During(t, s, q, p, false)
    ensures var o := UnloadModule(t, s, c, v, me); !o.Failed? ==> Spares(s, o.state, r)
    decreases t.depth[c], 2, 0
  {
    hide Typed, ThreadsOk, HandlesOk, Counted, Exclusive, FlagsOk, CallsBound, Matching, LoadsOk, Tidy, Roots,
         DecoupledOk, Stationed, Leftovers, SettledPart, SplitPart, PathOk, Valid, Layered, Spares, Unload;
    KeysOf(t, s);
    if !s.regions[v].reconf {
      var b := SetReconf(s, v, true);
      SetReconfTyped(t, s, v, true);
      MarkKeeps(t, s, v, true, q, q + {v}, p, false);
      UnloadSpares(t, b, c, me, r, q + {v}, p);
      SameBindings(s, b, r);
      var o := Unload(t, b, c, me);
      if !o.Failed? {
        SparesTwice(s, b, o.state, r);
        KeysOf(t, o.state);
        if o.Done? {
          SameBindings(o.state, SetReconf(o.state, v, false), r);
          SparesTwice(s, o.state, SetReconf(o.state, v, false), r);
        }
      }
    }
  }

  // ---- steps -------------------------------------------------------------------------------------

  /** The load that thread `j` waits in is waiting for the adapters of region `r` to synchronise. */
  predicate Syncing(s: State, j: ThreadId, r: RegionId) {
    Top(s, j).Some? && Top(s, j).value.Load? && Top(s, j).value.phase == SyncWait && Top(s, j).value.rr == r
  }

  lemma SyncingMarked(t: Topology, s: State, j: ThreadId, r: RegionId)
    requires Sound(t, s) && Syncing(s, j, r)
    ensures Elsewhere(s, r, {}) && LoadOk(t, s, Top(s, j).value)
  {
    hide During;
    TopIn(t, s, j, false);
  }

  lemma RequestSpares(t: Topology, s: State, i: ThreadId, c: ManagerId, found: Option<ModuleId>, r: RegionId)
    requires Layered(t) && Typed(t, s) && c in t.mgrs && i < |s.threads| && s.threads[i].alive && Elsewhere(s, r, {})
    requires found.Some? ==> found.value in t.mods && t.mods[found.value].home == c
    requires Valid(t) && Sound(t, s)
    ensures var o := DoConfigure(t, s, i, c, found); !o.Failed? ==> Spares(s, o.state, r)
    ensures var o := DoUnload(t, s, i, c); !o.Failed? ==> Spares(s, o.state, r)
  {
    hide Typed, ThreadsOk, HandlesOk, Counted, Exclusive, FlagsOk, CallsBound, Matching, LoadsOk, Tidy, Roots,
         DecoupledOk, Stationed, Leftovers, SettledPart, SplitPart, PathOk, Valid, Layered, Spares, Unload, UnloadModule, Claim;
    KeysOf(t, s);
    SameBindings(s, s, r);
    if s.mgrs[c].rr.Some? {
      var w := s.mgrs[c].rr.value;
      ModuleSpares(t, s, c, w, i, r, {}, {});
      if !s.regions[w].reconf {
        var b := SetBlocked(SetReconf(s, w, true), w, true);
        BeginTyped(t, s, w);
        BeginKeeps(t, s, c, w, false);
        UnloadSpares(t, b, c, i, r, {w}, {});
        SameBindings(s, b, r);
        var o := Unload(t, b, c, i);
        if !o.Failed? {
          SparesTwice(s, b, o.state, r);
          if o.Done? && i < |o.state.threads| && found.Some? {
            KeysOf(t, o.state);
            var n := Claim(o.state, i, c, w, found.value);
            ClaimBindings(o.state, i, c, w, found.value);
            SameBindings(o.state, n, r);
            SparesTwice(s, o.state, n, r);
          }
        }
      }
    }
  }

  lemma ClaimBindings(s: State, i: ThreadId, c: ManagerId, w: RegionId, m: ModuleId)
    requires c in s.mgrs && i < |s.threads|
    ensures var n := Claim(s, i, c, w, m); n.bound == s.bound && n.decoupled == s.decoupled
  {
  }

  lemma CoupleSpares(t: Topology, s: State, m: ModuleId, w: RegionId, sync: bool, r: RegionId)
    requires m in t.mods && m in s.mods && w != r
    ensures Spares(s, Couple(t, s, m, w, sync), r)
  {
    forall x: MemberId ensures (r, x) !in (map y <- t.mods[m].members :: (w, y) := m) && (r, x) !in Keys(w, t.mods[m].members) {}
  }

  /** No other load is on the region: a second manager would need a second load, and the module of the
      waiting one is coupled already. */
  lemma CouplesElsewhere(t: Topology, s: State, i: ThreadId, j: ThreadId, r: RegionId)
    requires Sound(t, s) && Syncing(s, j, r) && Top(s, i).Some? && Top(s, i).value.Load? && Top(s, i).value.phase == LoadWait
    ensures var f := Top(s, i).value; f.mod in t.mods && f.mod in s.mods && (CanCouple(t, s, f.mod, f.rr) ==> f.rr != r)
  {
    hide Typed, ThreadsOk, HandlesOk, Counted, FlagsOk, CallsBound, Matching, Tidy, Roots,
         DecoupledOk, Stationed, Leftovers, SettledPart, SplitPart, PathOk;
    TopIn(t, s, i, false);
    TopIn(t, s, j, false);
    var f, g := Top(s, i).value, Top(s, j).value;
    if f.rr == r && f.mgr != g.mgr {
      LoadsOfManager(t, s, f.mgr, r);
      LoadsOfManager(t, s, g.mgr, r);
      TwoLoadsAll(s.threads, f.mgr, g.mgr, r);
      TopBy(s, i);
      TopBy(s, j);
    }
  }

  lemma ResumeSpares(t: Topology, s: State, i: ThreadId, j: ThreadId, r: RegionId)
    requires Layered(t) && Typed(t, s) && Enabled(t, s, Resume(i)) && Syncing(s, j, r)
    requires Sound(t, s)
    ensures var o := DoResume(t, s, i); !o.Failed? ==> Spares(s, o.state, r)
  {
    hide Typed, Layered, During, CanCouple, Couple, Spares, Claim;
    KeysOf(t, s);
    TopIn(t, s, i, false);
    var f, o := Top(s, i).value, DoResume(t, s, i);
    match f.phase
    case LoadWait =>
      CouplesElsewhere(t, s, i, j, r);
      var b := Replace(s, i, f.(phase := SyncWait));
      assert CanCouple(t, b, f.mod, f.rr) == CanCouple(t, s, f.mod, f.rr) by { SameCouple(t, s, b, f.mod, f.rr); }
      if o.Done? {
        CoupleSpares(t, b, f.mod, f.rr, true, r);
        SameBindings(s, b, r);
        SparesTwice(s, b, o.state, r);
      }
    case SyncWait => if o.Done? { SameBindings(s, o.state, r); }
    case Activating(k) =>
      if k < |t.mods[f.mod].nested| {
        NestedOf(t, f.mod, k);
        var b := Replace(s, i, f.(phase := Activating(k + 1)));
        ReplaceTyped(t, s, i, f.(phase := Activating(k + 1)));
        NestedBindings(t, b, i, t.mods[f.mod].nested[k]);
        if !o.Failed? { SameBindings(s, o.state, r); }
      } else if o.Done? { SameBindings(s, o.state, r); }
  }

  lemma SameCouple(t: Topology, s: State, b: State, m: ModuleId, w: RegionId)
    requires m in t.mods && m in s.mods && b.mods == s.mods && b.bound == s.bound
    ensures CanCouple(t, b, m, w) == CanCouple(t, s, m, w)
  {
  }

  lemma NestedBindings(t: Topology, s: State, i: ThreadId, w: RegionId)
    requires Layered(t) && Typed(t, s) && i < |s.threads| && w in t.root
    ensures var o := DoNestedPreload(t, s, i, w); !o.Failed? ==> o.state.bound == s.bound && o.state.decoupled == s.decoupled
  {
  }

  lemma StartSpares(t: Topology, s: State, c: ManagerId, r: RegionId)
    requires Layered(t) && Typed(t, s) && c in t.mgrs && Elsewhere(s, r, {})
    ensures var o := DoStartPreload(t, s, c); !o.Failed? ==> Spares(s, o.state, r)
  {
    hide Typed, Layered, CanCouple, Couple, Spares;
    KeysOf(t, s);
    SameBindings(s, s, r);
    var o := DoStartPreload(t, s, c);
    if c in t.preload && o.Done? {
      PreloadHome(t, c);
      var b, m, w := SetCurrent(s, c, Some(t.preload[c])), t.preload[c], s.mgrs[c].rr.value;
      SameBindings(s, b, r);
      CoupleSpares(t, b, m, w, false, r);
      SparesTwice(s, b, Couple(t, b, m, w, false), r);
      SameBindings(Couple(t, b, m, w, false), o.state, r);
      SparesTwice(s, Couple(t, b, m, w, false), o.state, r);
    }
  }

  lemma CallBindings(t: Topology, s: State, a: Action)
    requires Layered(t) && Typed(t, s) && Enabled(t, s, a) && (a.Enter? || a.EnterOut? || a.Return? || a.Exit?)
    ensures var o := Next(t, s, a); !o.Failed? ==> o.state.bound == s.bound && o.state.decoupled == s.decoupled
  {
  }

  lemma StepSparesSync(t: Topology, s: State, a: Action, j: ThreadId, r: RegionId)
    requires Layered(t) && Typed(t, s) && Enabled(t, s, a) && Syncing(s, j, r) && Elsewhere(s, r, {})
    requires Valid(t) && Sound(t, s)
    ensures var o := Next(t, s, a); !o.Failed? ==> Spares(s, o.state, r)
  {
    hide Typed, During, Valid, Layered, Spares, Syncing, Next, Enabled, Elsewhere;
    match a
    case StartPreload(_) => StartStepSpares(t, s, a, r);
    case Configure(_, _, _) => RequestStepSpares(t, s, a, r);
    case UnloadRequest(_, _) => RequestStepSpares(t, s, a, r);
    case Resume(_) => ResumeStepSpares(t, s, a, j, r);
    case _ => CallStepSpares(t, s, a, r);
  }

  lemma StartStepSpares(t: Topology, s: State, a: Action, r: RegionId)
    requires Layered(t) && Typed(t, s) && Enabled(t, s, a) && a.StartPreload? && Elsewhere(s, r, {})
    ensures var o := Next(t, s, a); !o.Failed? ==> Spares(s, o.state, r)
  {
    hide Typed, Layered, Spares, DoStartPreload;
    StartSpares(t, s, a.c, r);
  }

  lemma CallStepSpares(t: Topology, s: State, a: Action, r: RegionId)
    requires Layered(t) && Typed(t, s) && Enabled(t, s, a) && (a.Enter? || a.EnterOut? || a.Return? || a.Exit?)
    ensures var o := Next(t, s, a); !o.Failed? ==> Spares(s, o.state, r)
  {
    hide Typed, Layered, Spares, Next, Enabled;
    CallBindings(t, s, a);
    var o := Next(t, s, a);
    if !o.Failed? { SameBindings(s, o.state, r); }
  }

  lemma RequestStepSpares(t: Topology, s: State, a: Action, r: RegionId)
    requires Layered(t) && Typed(t, s) && Enabled(t, s, a) && (a.Configure? || a.UnloadRequest?) && Elsewhere(s, r, {})
    requires Valid(t) && Sound(t, s)
    ensures var o := Next(t, s, a); !o.Failed? ==> Spares(s, o.state, r)
  {
    hide Typed, During, Valid, Layered, Spares, DoConfigure, DoUnload;
    StartedTyped(t, s);
    StartedKeeps(t, s, false);
    var b, o := s.(started := true), Next(t, s, a);
    RequestSpares(t, b, a.i, a.c, if a.Configure? then a.found else None, r);
    SameBindings(s, b, r);
    if !o.Failed? { SparesTwice(s, b, o.state, r); }
  }

  lemma ResumeStepSpares(t: Topology, s: State, a: Action, j: ThreadId, r: RegionId)
    requires Layered(t) && Typed(t, s) && Enabled(t, s, a) && a.Resume? && Syncing(s, j, r)
    requires Valid(t) && Sound(t, s)
    ensures var o := Next(t, s, a); !o.Failed? ==> Spares(s, o.state, r)
  {
    hide Typed, During, Valid, Layered, Spares, DoResume;
    StartedTyped(t, s);
    StartedKeeps(t, s, false);
    var b, o := s.(started := true), Next(t, s, a);
    ResumeSpares(t, b, a.i, j, r);
    SameBindings(s, b, r);
    if !o.Failed? { SparesTwice(s, b, o.state, r); }
  }

  // ---- over whole runs -----------------------------------------------------------------------------

  /** From the coupling of a module to the end of the wait for its adapters no step of any thread binds
      or unbinds an adapter of the region or touches its decoupled flag. */
  lemma {:induction false} SyncedUntouched(t: Topology, states: seq<State>, actions: seq<Action>, n: nat, k: nat, j: ThreadId, r: RegionId)
    requires Valid(t) && Run(t, states, actions) && n <= k < |states|
    requires forall e | n <= e < k :: Syncing(states[e], j, r)
    ensures forall x: MemberId :: SameAdapter(states[n], states[k], (r, x))
    decreases k
  {
    hide During, Valid, Next, Typed, Layered, Enabled, Syncing, Elsewhere;
    if n < k {
      SyncedUntouched(t, states, actions, n, k - 1, j, r);
      RunSound(t, states, actions, k - 1);
      assert Moves(t, states[k - 1], actions[k - 1], states[k]);
      SyncingMarked(t, states[k - 1], j, r);
      StepSparesSync(t, states[k - 1], actions[k - 1], j, r);
      SparesTwice(states[n], states[k - 1], states[k], r);
    }
  }
}
