/** The recursive unload succeeds exactly under `Clear`, and then takes out exactly the
    modules of the active subtree. */
module Exactness {
  import opened Model
  import opened Teardown
  import opened Invariants
  import opened Effects
  import opened UnloadSafety
  import opened Closure

  /** On a region the operation has opened, a current module is settled and can be decoupled. */
  lemma OpenedSettled(t: Topology, s: State, c: ManagerId, q: set<RegionId>, p: set<ManagerId>)
    requires During(t, s, q, p, false) && c in s.mgrs && c !in p && s.mgrs[c].current.Some?
    requires s.mgrs[c].rr.Some? ==> s.mgrs[c].rr.value in q
    ensures s.mgrs[c].rr.Some?
    ensures Settled(t, s, s.mgrs[c].current.value, s.mgrs[c].rr.value)
    ensures CanDecouple(t, s, s.mgrs[c].current.value, s.mgrs[c].rr.value)
  {
    hide Typed, ThreadsOk, HandlesOk, Counted, Exclusive, FlagsOk, CallsBound, Tidy,
         DecoupledOk, Stationed, Leftovers, SplitPart;
    var r := s.mgrs[c].rr.value;
    if Tally(s.threads, LoadBy(c)) > 0 {
      var i, a := TallyWitness(s.threads, LoadBy(c));
      LoadElsewhere(t, s, i, a, q, p);
    }
    assert Attended(s, r, q);
  }

  // ---- single effects as `Taken` -------------------------------------------------------------

  /** Decoupling a settled module unbinds exactly its adapters, and marks the outputs among them. */
  lemma DecoupleTaken(t: Topology, s: State, m: ModuleId, r: RegionId)
    requires Matching(t, s) && m in t.mods && m in s.mods && s.mods[m].configured == Some(r)
    ensures var n := Decouple(t, s, m, r);
      && n.threads == s.threads && n.mgrs == s.mgrs && n.regions == s.regions
      && n.mods == s.mods[m := Module(None, s.mods[m].handles)]
      && TakenBindings(t, s, n, {m})
  {
  }

  /** The kill loop that completes has killed exactly the processes of the module. */
  lemma KillTaken(t: Topology, s: State, m: ModuleId, me: ThreadId, q: set<RegionId>, p: set<ManagerId>)
    requires During(t, s, q, p, false) && m in s.mods && me < |s.threads| && s.threads[me].alive
    ensures var o := KillFrom(s, s.mods[m].handles, me);
      && (o.Done? <==> s.threads[me].owner != Some(m))
      && (o.Done? ==> m in o.state.mods && Taken(t, s, SetHandles(o.state, m, []), {}, {m}, iset{}))
  {
    hide Typed, ThreadsOk, HandlesOk, Counted, Exclusive, FlagsOk, CallsBound, Matching, LoadsOk, Tidy, Roots,
         DecoupledOk, Stationed, Leftovers, SettledPart, SplitPart, PathOk, SameReconf, Shrinks, Taken;
    var hs := s.mods[m].handles;
    HandlesAre(s, m, me);
    KillFromKeeps(t, s, hs, me, q, p, false);
    KillDone(s, hs, me);
    var o := KillFrom(s, hs, me);
    if o.Done? {
      ShrinksThreads(s, o.state);
      KillMask(s, o.state, m);
      KillBound(s, hs, me);
      KilledTaken(t, s, o.state, m);
    }
  }

  lemma KilledTaken(t: Topology, s: State, n: State, m: ModuleId)
    requires n.mods == s.mods && n.mgrs == s.mgrs && n.bound == s.bound && n.decoupled == s.decoupled && m in s.mods
    requires n.threads == Masked(s.threads, {m})
    ensures Taken(t, s, SetHandles(n, m, []), {}, {m}, iset{})
  {
  }

  lemma HandlesAre(s: State, m: ModuleId, me: ThreadId)
    requires ThreadsOk(s) && HandlesOk(s) && m in s.mods && me < |s.threads| && s.threads[me].alive
    ensures me in s.mods[m].handles <==> s.threads[me].owner == Some(m)
    ensures forall j | 0 <= j < |s.mods[m].handles| :: s.mods[m].handles[j] < |s.threads|
  {
  }

  lemma KillMask(s: State, n: State, m: ModuleId)
    requires ThreadsOk(s) && HandlesOk(s) && m in s.mods && Shrinks(s, n)
    requires forall j | 0 <= j < |s.mods[m].handles| ::
      s.mods[m].handles[j] < |n.threads| && !n.threads[s.mods[m].handles[j]].alive
    requires forall i | 0 <= i < |s.threads| && i !in s.mods[m].handles :: n.threads[i] == s.threads[i]
    ensures n.threads == Masked(s.threads, {m})
  {
    var hs := s.mods[m].handles;
    forall i | 0 <= i < |s.threads| ensures n.threads[i] == Masked(s.threads, {m})[i] {
      if i in hs {
        var j :| 0 <= j < |hs| && hs[j] == i;
        assert s.threads[hs[j]].owner == Some(m);
      } else if s.threads[i].owner == Some(m) {
        assert !s.threads[i].alive;
      }
    }
  }

  lemma {:induction false} KillDone(s: State, hs: seq<ThreadId>, me: ThreadId)
    ensures KillFrom(s, hs, me).Done? ==> me !in hs
    ensures KillFrom(s, hs, me).Aborted? ==> me in hs
    decreases |hs|
  {
    if hs != [] && KillOne(s, hs[0]).Some? && hs[0] != me {
      KillDone(KillOne(s, hs[0]).value, hs[1..], me);
    }
  }

  lemma {:induction false} KillBound(s: State, hs: seq<ThreadId>, me: ThreadId)
    ensures var o := KillFrom(s, hs, me); !o.Failed? ==> o.state.bound == s.bound && o.state.decoupled == s.decoupled
    decreases |hs|
  {
    if hs != [] && KillOne(s, hs[0]).Some? && hs[0] != me {
      KillBound(KillOne(s, hs[0]).value, hs[1..], me);
    }
  }

  // ---- one step does not disturb the others ------------------------------------------------------

  /** What a completed step on child `c` may disconnect: its own subtree and `c` itself. */
  lemma TakenAgree(t: Topology, s: State, n: State, c: ManagerId, d: ManagerId, m: ModuleId, ds: iset<ManagerId>)
    requires Valid(t) && Typed(t, s) && c in t.mgrs && OwnedBy(t, c, m) && OwnedBy(t, d, m) && c != d && Layered(t)
    requires var ms := Mods(t, s, c); Taken(t, s, n, ms, ms, ds) && ds <= Subs(t, ms) + iset{c}
    requires SameReconf(s, n)
    ensures Agree(t, s, n, d)
  {
    hide Valid, Typed, Under, Layered, OwnedBy;
    var ms := Mods(t, s, c);
    forall e | e in s.mgrs && Under(t, e, d) ensures n.mgrs[e] == s.mgrs[e] {
      assert !Under(t, e, c) by { if Under(t, e, c) { Siblings(t, e, c, d, m); } }
      if s.mgrs[e].current.Some? && s.mgrs[e].current.value in ms {
        HomeOf(t, s, e);
        ModsUnder(t, s, c, s.mgrs[e].current.value);
      }
      if e in Subs(t, ms) {
        var x :| x in ms && x in t.mods && e in t.mods[x].subs;
        SubUnder(t, s, c, x, e);
      }
      UnderSelf(t, c);
    }
  }

  lemma SubUnder(t: Topology, s: State, c: ManagerId, x: ModuleId, e: ManagerId)
    requires Layered(t) && Typed(t, s) && c in t.mgrs && x in Mods(t, s, c) && x in t.mods && e in t.mods[x].subs
    ensures Under(t, e, c)
  {
    hide Typed;
    ModsUnder(t, s, c, x);
    UnderLower(t, t.mods[x].home, c);
    var j :| 0 <= j < |t.mods[x].subs| && t.mods[x].subs[j] == e;
    assert Inside(t, t.mods[x].subs[j], x);
    assert OwnedBy(t, e, x);
  }

  // ---- the theorem ---------------------------------------------------------------------------------

  /** The sub-managers of `m` from number `k` on. */
  ghost function SubsFrom(t: Topology, m: ModuleId, k: nat): iset<ManagerId>
    requires m in t.mods
  {
    iset d | SubAt(t, m, k, d)
  }

  ghost predicate SubAt(t: Topology, m: ModuleId, k: nat, d: ManagerId)
    requires m in t.mods
  {
    exists j :: k <= j < |t.mods[m].subs| && t.mods[m].subs[j] == d
  }

  /** The path managers reach down to the home of `m` and no lower. */
  ghost predicate OnPath(t: Topology, m: ModuleId, p: set<ManagerId>) {
    && m in t.mods && t.mods[m].home in p && t.mods[m].home in t.depth
    && forall c <- p :: c in t.depth && t.depth[c] >= t.depth[t.mods[m].home]
  }

  lemma {:induction false} UnloadExact(t: Topology, s: State, c: ManagerId, me: ThreadId,
                                       q: set<RegionId>, p: set<ManagerId>)
    requires Layered(t) && Typed(t, s) && c in t.mgrs && me < |s.threads| && s.threads[me].alive
    requires s.mgrs[c].rr.Some? ==> s.mgrs[c].rr.value in q
    requires Above(t, p, t.depth[c])
    requires Valid(t) && During(t, s, q, p, false)
    ensures var o, ms := Unload(t, s, c, me), Mods(t, s, c);
      && (o.Done? <==> Clear(t, s, c, {}, me))
      && (o.Done? ==> Taken(t, s, o.state, ms, ms, Subs(t, ms)))
    decreases t.depth[c], 1, 0
  {
    hide Typed, ThreadsOk, HandlesOk, Counted, Exclusive, FlagsOk, CallsBound, Matching, LoadsOk, Tidy, Roots,
         DecoupledOk, Stationed, Leftovers, SettledPart, SplitPart, PathOk, Valid, Layered, CanDecouple;
    KeysOf(t, s);
    MaskNone(s.threads);
    if s.mgrs[c].current.Some? {
      OpenedSettled(t, s, c, q, p);
      var m, r := s.mgrs[c].current.value, s.mgrs[c].rr.value;
      HomeOf(t, s, c);
      CountIs(s, r);
      if s.regions[r].count == 0 {
        UnloadExactLoaded(t, s, c, me, m, r, q, p);
      }
    }
  }

  lemma CountIs(s: State, r: RegionId)
    requires Counted(s) && r in s.regions
    ensures s.regions[r].count == Tally(s.threads, LockOn(r))
  {
  }

  lemma {:induction false} UnloadExactLoaded(t: Topology, s: State, c: ManagerId, me: ThreadId,
                                             m: ModuleId, r: RegionId, q: set<RegionId>, p: set<ManagerId>)
    requires Layered(t) && Typed(t, s) && c in t.mgrs && me < |s.threads| && s.threads[me].alive
    requires s.mgrs[c] == Manager(Some(m), Some(r)) && r in q && r in s.regions && s.regions[r].count == 0
    requires m in t.mods && t.mods[m].home == c && m in s.mods && CanDecouple(t, s, m, r)
    requires Above(t, p, t.depth[c])
    requires Valid(t) && During(t, s, q, p, false)
    ensures var o, ms := Unload(t, s, c, me), Mods(t, s, c);
      && (o.Done? <==> ClearFrom(t, s, m, 0, {}, me))
      && (o.Done? ==> Taken(t, s, o.state, ms, ms, Subs(t, ms)))
    decreases t.depth[c], 0, |t.mods[m].subs| + |t.mods[m].nested| + 2
  {
    hide Typed, ThreadsOk, HandlesOk, Counted, Exclusive, FlagsOk, CallsBound, Matching, LoadsOk, Tidy, Roots,
         DecoupledOk, Stationed, Leftovers, SettledPart, SplitPart, PathOk, Valid, Layered, Taken;
    KeysOf(t, s);
    DepthOf(t, c);
    DecoupleKeeps(t, s, m, r, q, p, false);
    DecoupleTaken(t, s, m, r);
    var n := Decouple(t, s, m, r);
    DeactivateExact(t, n, m, r, 0, me, q, p + {c});
    MaskNone(s.threads);
    SameView(t, s, n, c);
    AgreeDown(t, s, n, c, m);
    ModsFromAgree(t, s, n, m, 0);
    ClearFromAgree(t, s, n, m, 0, {}, {}, me);
    var none: set<ModuleId> := {};
    assert none + none == none;
    var o := Deactivate(t, n, m, 0, me);
    assert Unload(t, s, c, me).Done? <==> o.Done?;
    if o.Done? {
      OnlyHome(t, s, m);
      EmptiedTaken(t, s, n, o.state, m, ModsFrom(t, s, m, 0));
    }
  }

  lemma SameView(t: Topology, s: State, n: State, c: ManagerId)
    requires n.mgrs == s.mgrs && n.regions == s.regions
    ensures Agree(t, s, n, c)
  {
  }

  lemma OnlyHome(t: Topology, s: State, m: ModuleId)
    requires Typed(t, s) && m in t.mods
    ensures forall d <- s.mgrs | s.mgrs[d].current == Some(m) :: d == t.mods[m].home
  {
  }

  /** Decoupling, deactivating and emptying together take the module out. */
  lemma EmptiedTaken(t: Topology, s: State, n: State, e: State, m: ModuleId, below: set<ModuleId>)
    requires m in t.mods && m in s.mods && t.mods[m].home in s.mgrs && s.mgrs[t.mods[m].home].current == Some(m)
    requires forall d <- s.mgrs | s.mgrs[d].current == Some(m) :: d == t.mods[m].home
    requires n.threads == s.threads && n.mgrs == s.mgrs && n.mods == s.mods[m := Module(None, s.mods[m].handles)]
    requires TakenBindings(t, s, n, {m})
    requires Taken(t, n, e, below, below + {m}, Subs(t, below) + SubsFrom(t, m, 0))
    ensures Taken(t, s, SetCurrent(e, t.mods[m].home, None), {m} + below, {m} + below, Subs(t, {m} + below))
  {
    hide Subs, SubsFrom, TakenBindings, TakenPointers;
    assert below + {m} == {m} + below;
    SubsOfAll(t, m, below);
    EmptiedPointers(t, s, n, e, m, below, Subs(t, below) + SubsFrom(t, m, 0));
    BindingsTwice(t, s, n, e, {m}, below);
    SameTaken(t, s, e, SetCurrent(e, t.mods[m].home, None), {m} + below);
  }

  lemma SameTaken(t: Topology, s: State, e: State, f: State, ms: set<ModuleId>)
    requires TakenBindings(t, s, e, ms) && f.bound == e.bound && f.decoupled == e.decoupled
    ensures TakenBindings(t, s, f, ms)
  {
  }

  lemma EmptiedPointers(t: Topology, s: State, n: State, e: State, m: ModuleId, below: set<ModuleId>, ds: iset<ManagerId>)
    requires m in t.mods && m in s.mods && t.mods[m].home in s.mgrs && s.mgrs[t.mods[m].home].current == Some(m)
    requires forall d <- s.mgrs | s.mgrs[d].current == Some(m) :: d == t.mods[m].home
    requires n.mgrs == s.mgrs && n.mods == s.mods[m := Module(None, s.mods[m].handles)]
    requires TakenPointers(n, e, below, {m} + below, ds)
    ensures t.mods[m].home in e.mgrs && TakenPointers(s, SetCurrent(e, t.mods[m].home, None), {m} + below, {m} + below, ds)
  {
  }

  lemma SubsOfAll(t: Topology, m: ModuleId, below: set<ModuleId>)
    requires m in t.mods
    ensures Subs(t, {m} + below) == Subs(t, below) + SubsFrom(t, m, 0)
  {
    forall d ensures d in Subs(t, {m} + below) <==> d in Subs(t, below) + SubsFrom(t, m, 0) {
      if d in t.mods[m].subs {
        assert exists j :: 0 <= j < |t.mods[m].subs| && t.mods[m].subs[j] == d;
      }
    }
  }

  ghost predicate KillsAt(t: Topology, m: ModuleId, k: nat)
    requires m in t.mods
  {
    k <= |t.mods[m].subs|
  }

  lemma {:induction false} DeactivateExact(t: Topology, s: State, m: ModuleId, r: RegionId, k: nat, me: ThreadId,
                                           q: set<RegionId>, p: set<ManagerId>)
    requires Opened(t, s, m, r, q) && k <= Tasks(t.mods[m]) && Progress(t, s, m, k)
    requires OnPath(t, m, p)
    requires Layered(t) && Typed(t, s) && me < |s.threads| && s.threads[me].alive
    requires Valid(t) && During(t, s, q, p, false)
    ensures var o, ms := Deactivate(t, s, m, k, me), ModsFrom(t, s, m, k);
      && (o.Done? <==> ClearFrom(t, s, m, k, {}, me))
      && (o.Done? ==> Taken(t, s, o.state, ms, if KillsAt(t, m, k) then ms + {m} else ms,
                            Subs(t, ms) + SubsFrom(t, m, k)))
    decreases t.depth[t.mods[m].home], 0, Tasks(t.mods[m]) - k
  {
    hide Typed, ThreadsOk, HandlesOk, Counted, Exclusive, FlagsOk, CallsBound, Matching, LoadsOk, Tidy, Roots,
         DecoupledOk, Stationed, Leftovers, SettledPart, SplitPart, PathOk, Valid, Layered, Taken, Subs, SubsFrom,
         Opened, Progress;
    if k == Tasks(t.mods[m]) {
      NothingTaken(t, s, m, k);
    } else {
      TaskIsOf(t, m, k);
      StepKeeps(t, s, m, r, k, me, q, p, false);
      StepExact(t, s, m, r, k, me, q, p);
      var o := Step(t, s, m, TaskAt(t.mods[m], k), me);
      if o.Done? {
        DeactivateExact(t, o.state, m, r, k + 1, me, q, p);
        ExactOn(t, s, o.state, m, k, me);
      }
      ClearStep(t, s, m, k, me);
    }
  }

  /** What the remaining steps need and do, seen from before step `k`. */
  lemma ExactOn(t: Topology, s: State, n: State, m: ModuleId, k: nat, me: ThreadId)
    requires Layered(t) && Typed(t, s) && Typed(t, n) && m in t.mods && k < Tasks(t.mods[m]) && me < |s.threads| && me < |n.threads|
    requires AgreeFrom(t, s, n, m, k + 1)
    requires Taken(t, s, n, StepMods(t, s, m, k), StepKills(t, s, m, k), StepSubs(t, s, m, k))
    requires var o, ms := Deactivate(t, n, m, k + 1, me), ModsFrom(t, n, m, k + 1);
      && (o.Done? <==> ClearFrom(t, n, m, k + 1, {}, me))
      && (o.Done? ==> Taken(t, n, o.state, ms, if KillsAt(t, m, k + 1) then ms + {m} else ms,
                            Subs(t, ms) + SubsFrom(t, m, k + 1)))
    ensures var o, ms := Deactivate(t, n, m, k + 1, me), ModsFrom(t, s, m, k);
      && (o.Done? <==> ClearFrom(t, s, m, k + 1, StepKills(t, s, m, k), me))
      && (o.Done? ==> Taken(t, s, o.state, ms, if KillsAt(t, m, k) then ms + {m} else ms,
                            Subs(t, ms) + SubsFrom(t, m, k)))
  {
    hide Layered, Typed, Taken, Subs, SubsFrom, AgreeFrom, Deactivate;
    ModsFromAgree(t, s, n, m, k + 1);
    var tm, tk := StepMods(t, s, m, k), StepKills(t, s, m, k);
    TakenThreads(t, s, n, tm, tk, StepSubs(t, s, m, k));
    ClearFromAgree(t, s, n, m, k + 1, tk, {}, me);
    assert tk + {} == tk;
    var o := Deactivate(t, n, m, k + 1, me);
    if o.Done? {
      TakenSum(t, s, n, o.state, m, k, tm, tk, ModsFrom(t, s, m, k + 1));
    }
  }

  lemma TakenThreads(t: Topology, s: State, n: State, ms: set<ModuleId>, ks: set<ModuleId>, ds: iset<ManagerId>)
    requires Taken(t, s, n, ms, ks, ds)
    ensures n.threads == Masked(s.threads, ks)
  {
  }

  /** The modules step `k` takes out, and those whose processes it kills. */
  ghost function StepMods(t: Topology, s: State, m: ModuleId, k: nat): set<ModuleId>
    requires Layered(t) && Typed(t, s) && m in t.mods && k < Tasks(t.mods[m])
  {
    TaskIsOf(t, m, k);
    var c := Child(t, TaskAt(t.mods[m], k));
    if c.Some? then Mods(t, s, c.value) else {}
  }

  ghost function StepKills(t: Topology, s: State, m: ModuleId, k: nat): set<ModuleId>
    requires Layered(t) && Typed(t, s) && m in t.mods && k < Tasks(t.mods[m])
  {
    if k == |t.mods[m].subs| then {m} else StepMods(t, s, m, k)
  }

  ghost function StepSubs(t: Topology, s: State, m: ModuleId, k: nat): iset<ManagerId>
    requires Layered(t) && Typed(t, s) && m in t.mods && k < Tasks(t.mods[m])
  {
    Subs(t, StepMods(t, s, m, k)) + if k < |t.mods[m].subs| then iset{t.mods[m].subs[k]} else iset{}
  }

  /** The part of the condition that step `k` decides. */
  ghost predicate StepClear(t: Topology, s: State, m: ModuleId, k: nat, me: ThreadId)
    requires Layered(t) && Typed(t, s) && m in t.mods && k < Tasks(t.mods[m]) && me < |s.threads|
  {
    TaskIsOf(t, m, k);
    match TaskAt(t.mods[m], k)
    case DropSub(c) => Clear(t, s, c, {}, me)
    case Kill => s.threads[me].owner != Some(m)
    case DropNested(r) => !s.regions[r].reconf && Clear(t, s, t.root[r], {}, me)
  }

  lemma ClearStep(t: Topology, s: State, m: ModuleId, k: nat, me: ThreadId)
    requires Layered(t) && Typed(t, s) && m in t.mods && k < Tasks(t.mods[m]) && me < |s.threads|
    ensures ClearFrom(t, s, m, k, {}, me)
      <==> StepClear(t, s, m, k, me) && ClearFrom(t, s, m, k + 1, StepKills(t, s, m, k), me)
  {
    hide Typed, Layered, Clear;
    TaskIsOf(t, m, k);
    match TaskAt(t.mods[m], k)
    case DropSub(c) => assert {} + Mods(t, s, c) == Mods(t, s, c);
    case Kill => assert {} + {m} == {m};
    case DropNested(r) => assert {} + Mods(t, s, t.root[r]) == Mods(t, s, t.root[r]);
  }

  lemma NothingTaken(t: Topology, s: State, m: ModuleId, k: nat)
    requires m in t.mods && k == Tasks(t.mods[m])
    ensures Taken(t, s, s, {}, {}, Subs(t, {}) + SubsFrom(t, m, k))
  {
    MaskNone(s.threads);
  }

  lemma TakenSum(t: Topology, s: State, n: State, e: State, m: ModuleId, k: nat,
                 tm: set<ModuleId>, tk: set<ModuleId>, rest: set<ModuleId>)
    requires m in t.mods && k < Tasks(t.mods[m])
    requires Taken(t, s, n, tm, tk, Subs(t, tm) + if k < |t.mods[m].subs| then iset{t.mods[m].subs[k]} else iset{})
    requires tk == (if k == |t.mods[m].subs| then {m} else tm) && (k == |t.mods[m].subs| ==> tm == {})
    requires Taken(t, n, e, rest, if KillsAt(t, m, k + 1) then rest + {m} else rest, Subs(t, rest) + SubsFrom(t, m, k + 1))
    ensures Taken(t, s, e, tm + rest, if KillsAt(t, m, k) then tm + rest + {m} else tm + rest,
                  Subs(t, tm + rest) + SubsFrom(t, m, k))
  {
    hide Taken;
    var d1 := Subs(t, tm) + if k < |t.mods[m].subs| then iset{t.mods[m].subs[k]} else iset{};
    var d2 := Subs(t, rest) + SubsFrom(t, m, k + 1);
    var k2 := if KillsAt(t, m, k + 1) then rest + {m} else rest;
    TakenTwice(t, s, n, e, tm, tk, d1, rest, k2, d2);
    SubsSum(t, m, k, tm, rest);
    assert tk + k2 == if KillsAt(t, m, k) then tm + rest + {m} else tm + rest;
  }

  lemma SubsSum(t: Topology, m: ModuleId, k: nat, a: set<ModuleId>, b: set<ModuleId>)
    requires m in t.mods
    ensures (Subs(t, a) + if k < |t.mods[m].subs| then iset{t.mods[m].subs[k]} else iset{})
            + (Subs(t, b) + SubsFrom(t, m, k + 1)) == Subs(t, a + b) + SubsFrom(t, m, k)
  {
    forall d ensures d in Subs(t, a + b) <==> d in Subs(t, a) || d in Subs(t, b) {}
  }

  /** Any one step: its outcome, what it takes, and that the later steps do not notice. */
  lemma {:induction false} StepExact(t: Topology, s: State, m: ModuleId, r: RegionId, k: nat, me: ThreadId,
                                     q: set<RegionId>, p: set<ManagerId>)
    requires Opened(t, s, m, r, q) && k < Tasks(t.mods[m]) && Progress(t, s, m, k)
    requires OnPath(t, m, p)
    requires Layered(t) && Typed(t, s) && me < |s.threads| && s.threads[me].alive
    requires TaskOf(t, m, TaskAt(t.mods[m], k))
    requires Valid(t) && During(t, s, q, p, false)
    ensures var o := Step(t, s, m, TaskAt(t.mods[m], k), me);
      && (o.Done? <==> StepClear(t, s, m, k, me))
      && (o.Done? ==> Taken(t, s, o.state, StepMods(t, s, m, k), StepKills(t, s, m, k), StepSubs(t, s, m, k))
                      && AgreeFrom(t, s, o.state, m, k + 1))
    decreases t.depth[t.mods[m].home], 0, 0
  {
    hide Typed, ThreadsOk, HandlesOk, Counted, Exclusive, FlagsOk, CallsBound, Matching, LoadsOk, Tidy, Roots,
         DecoupledOk, Stationed, Leftovers, SettledPart, SplitPart, PathOk, Valid, Layered, Taken, AgreeFrom, Clear;
    StepKeeps(t, s, m, r, k, me, q, p, false);
    match TaskAt(t.mods[m], k)
    case DropSub(c) => DropSubExact(t, s, m, r, k, me, q, p);
    case Kill => KillExact(t, s, m, k, me, q, p);
    case DropNested(w) => NestedExact(t, s, m, r, k, w, me, q, p);
  }

  lemma KillExact(t: Topology, s: State, m: ModuleId, k: nat, me: ThreadId, q: set<RegionId>, p: set<ManagerId>)
    requires m in t.mods && m in s.mods && k == |t.mods[m].subs|
    requires Layered(t) && Typed(t, s) && me < |s.threads| && s.threads[me].alive
    requires During(t, s, q, p, false)
    ensures TaskAt(t.mods[m], k) == Kill
    ensures var o := Step(t, s, m, Kill, me);
      && (o.Done? <==> StepClear(t, s, m, k, me))
      && (o.Done? ==> SameReconf(s, o.state) ==>
            Taken(t, s, o.state, StepMods(t, s, m, k), StepKills(t, s, m, k), StepSubs(t, s, m, k))
            && AgreeFrom(t, s, o.state, m, k + 1))
  {
    hide Typed, ThreadsOk, HandlesOk, Counted, Exclusive, FlagsOk, CallsBound, Matching, LoadsOk, Tidy, Roots,
         DecoupledOk, Stationed, Leftovers, SettledPart, SplitPart, PathOk, Layered;
    KillTaken(t, s, m, me, q, p);
    assert Subs(t, {}) + iset{} == iset{};
  }

  lemma {:induction false} DropSubExact(t: Topology, s: State, m: ModuleId, r: RegionId, k: nat, me: ThreadId,
                                        q: set<RegionId>, p: set<ManagerId>)
    requires Opened(t, s, m, r, q) && k < |t.mods[m].subs| && Progress(t, s, m, k)
    requires OnPath(t, m, p)
    requires Layered(t) && Typed(t, s) && me < |s.threads| && s.threads[me].alive
    requires TaskOf(t, m, DropSub(t.mods[m].subs[k]))
    requires Valid(t) && During(t, s, q, p, false)
    requires var o := Step(t, s, m, DropSub(t.mods[m].subs[k]), me); o.Done? ==> SameReconf(s, o.state)
    ensures var o := Step(t, s, m, DropSub(t.mods[m].subs[k]), me);
      && (o.Done? <==> StepClear(t, s, m, k, me))
      && (o.Done? ==> Taken(t, s, o.state, StepMods(t, s, m, k), StepKills(t, s, m, k), StepSubs(t, s, m, k))
                      && AgreeFrom(t, s, o.state, m, k + 1))
    decreases t.depth[t.mods[m].subs[k]], 2, 0
  {
    hide Typed, ThreadsOk, HandlesOk, Counted, Exclusive, FlagsOk, CallsBound, Matching, LoadsOk, Tidy, Roots,
         DecoupledOk, Stationed, Leftovers, SettledPart, SplitPart, PathOk, Valid, Layered, Clear, AgreeFrom, Taken;
    var c := t.mods[m].subs[k];
    SubRegion(t, s, m, r, k, q);
    UnloadExact(t, s, c, me, q, p);
    UnloadKeeps(t, s, c, me, q, p, false);
    var o := Unload(t, s, c, me);
    if o.Done? {
      var n, ms := o.state, Mods(t, s, c);
      var e := SetRr(n, c, n.mods[m].configured);
      assert n.mods[m].configured.None?;
      RrTaken(t, n, c);
      TakenTwice(t, s, n, e, ms, ms, Subs(t, ms), {}, {}, iset{c});
      assert ms + {} == ms;
      LaterAgree(t, s, e, m, k, Subs(t, ms) + iset{c});
    }
  }

  lemma RrTaken(t: Topology, s: State, c: ManagerId)
    requires c in s.mgrs
    ensures Taken(t, s, SetRr(s, c, None), {}, {}, iset{c})
  {
    MaskNone(s.threads);
  }

  /** Nothing below the later children has changed. */
  lemma LaterAgree(t: Topology, s: State, n: State, m: ModuleId, k: nat, ds: iset<ManagerId>)
    requires Layered(t) && Typed(t, s) && m in t.mods && k < Tasks(t.mods[m])
    requires Child(t, TaskAt(t.mods[m], k)).Some? && Valid(t) && SameReconf(s, n)
    requires Child(t, TaskAt(t.mods[m], k)).value in t.mgrs
    requires var ms := Mods(t, s, Child(t, TaskAt(t.mods[m], k)).value);
      Taken(t, s, n, ms, ms, ds) && ds <= Subs(t, ms) + iset{Child(t, TaskAt(t.mods[m], k)).value}
    ensures AgreeFrom(t, s, n, m, k + 1)
  {
    hide Valid, Layered, Typed, Taken, Agree;
    KeysOf(t, s);
    var c := Child(t, TaskAt(t.mods[m], k)).value;
    ChildOwned(t, m, k);
    forall j | k + 1 <= j < Tasks(t.mods[m]) ensures AgreeTask(t, s, n, TaskAt(t.mods[m], j)) {
      ChildOwned(t, m, j);
      ChildrenDiffer(t, m, k, j);
      var d := Child(t, TaskAt(t.mods[m], j));
      if d.Some? { TakenAgree(t, s, n, c, d.value, m, ds); }
    }
  }

  lemma {:induction false} NestedExact(t: Topology, s: State, m: ModuleId, r: RegionId, k: nat, w: RegionId, me: ThreadId,
                                       q: set<RegionId>, p: set<ManagerId>)
    requires Opened(t, s, m, r, q) && |t.mods[m].subs| < k < Tasks(t.mods[m]) && Progress(t, s, m, k)
    requires OnPath(t, m, p)
    requires Layered(t) && Typed(t, s) && me < |s.threads| && s.threads[me].alive
    requires TaskAt(t.mods[m], k) == DropNested(w) && TaskOf(t, m, DropNested(w))
    requires Valid(t) && During(t, s, q, p, false)
    requires var o := UnloadModule(t, s, t.root[w], w, me); o.Done? ==> SameReconf(s, o.state)
    ensures var o := UnloadModule(t, s, t.root[w], w, me);
      && (o.Done? <==> StepClear(t, s, m, k, me))
      && (o.Done? ==> Taken(t, s, o.state, StepMods(t, s, m, k), StepKills(t, s, m, k), StepSubs(t, s, m, k))
                      && AgreeFrom(t, s, o.state, m, k + 1))
    decreases t.depth[t.root[w]], 3, 0
  {
    hide Typed, ThreadsOk, HandlesOk, Counted, Exclusive, FlagsOk, CallsBound, Matching, LoadsOk, Tidy, Roots,
         DecoupledOk, Stationed, Leftovers, SettledPart, SplitPart, PathOk, Valid, Layered, Clear, AgreeFrom, Taken;
    var c := t.root[w];
    KeysOf(t, s);
    RootOf(t, s, w);
    UnloadModuleExact(t, s, c, w, me, q, p);
    var o := UnloadModule(t, s, c, w, me);
    if o.Done? {
      var ms := Mods(t, s, c);
      LaterAgree(t, s, o.state, m, k, Subs(t, ms));
      assert Subs(t, ms) + iset{} == Subs(t, ms);
    }
  }

  /** `unload_module` completes exactly when its region is idle and its subtree is clear. */
  lemma {:induction false} UnloadModuleExact(t: Topology, s: State, c: ManagerId, r: RegionId, me: ThreadId,
                                             q: set<RegionId>, p: set<ManagerId>)
    requires Layered(t) && Typed(t, s) && c in t.mgrs && r in t.root && me < |s.threads| && s.threads[me].alive
    requires c in s.mgrs && s.mgrs[c].rr == Some(r) && Above(t, p, t.depth[c]) && r in s.regions
    requires Valid(t) && During(t, s, q, p, false)
    ensures var o, ms := UnloadModule(t, s, c, r, me), Mods(t, s, c);
      && (o.Done? <==> !s.regions[r].reconf && Clear(t, s, c, {}, me))
      && (o.Done? ==> Taken(t, s, o.state, ms, ms, Subs(t, ms)))
    decreases t.depth[c], 2, 0
  {
    hide Typed, ThreadsOk, HandlesOk, Counted, Exclusive, FlagsOk, CallsBound, Matching, LoadsOk, Tidy, Roots,
         DecoupledOk, Stationed, Leftovers, SettledPart, SplitPart, PathOk, Valid, Layered, Clear, Taken;
    if !s.regions[r].reconf {
      var s1 := SetReconf(s, r, true);
      SetReconfTyped(t, s, r, true);
      MarkKeeps(t, s, r, true, q, q + {r}, p, false);
      UnloadExact(t, s1, c, me, q + {r}, p);
      UnloadKeeps(t, s1, c, me, q + {r}, p, false);
      MarkAgree(t, s, s1, c, r);
      MaskNone(s.threads);
      ModsAgree(t, s, s1, c);
      ClearAgree(t, s, s1, c, {}, {}, me);
      var none: set<ModuleId> := {};
    assert none + none == none;
      var o := Unload(t, s1, c, me);
      if o.Done? {
        MarkTaken(t, s, s1, o.state, r, Mods(t, s, c));
      }
    }
  }

  /** The region of a manager is not nested below that manager. */
  lemma MarkAgree(t: Topology, s: State, n: State, c: ManagerId, r: RegionId)
    requires Valid(t) && Stationed(t, s) && r in t.root && r in s.regions
    requires c in s.mgrs && c in t.mgrs && s.mgrs[c].rr == Some(r) && n == SetReconf(s, r, true)
    ensures Agree(t, s, n, c)
  {
    hide Valid;
    assert Under(t, t.root[r], c) ==> t.root[r] == c by { NotBelow(t, c, r); }
  }

  /** A manager belongs to a region whose own manager is no lower. */
  lemma NotBelow(t: Topology, c: ManagerId, r: RegionId)
    requires Valid(t) && c in t.mgrs && Belongs(t, c, r)
    ensures t.root[r] == c || (t.root[r] in t.depth && c in t.depth && t.depth[t.root[r]] > t.depth[c])
    ensures Under(t, t.root[r], c) ==> t.root[r] == c
  {
    hide Valid;
    DepthOf(t, c);
    if Under(t, t.root[r], c) { UnderLower(t, t.root[r], c); }
  }

  lemma DepthOf(t: Topology, c: ManagerId)
    requires Valid(t) && c in t.mgrs
    ensures c in t.depth
  {
  }

  lemma MarkTaken(t: Topology, s: State, s1: State, n: State, r: RegionId, ms: set<ModuleId>)
    requires r in s.regions && s1 == SetReconf(s, r, true) && Taken(t, s1, n, ms, ms, Subs(t, ms)) && r in n.regions
    ensures Taken(t, s, SetReconf(n, r, false), ms, ms, Subs(t, ms))
  {
  }
}
