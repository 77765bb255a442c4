/** When exactly a recursive unload is cut short because the process that executes it belongs to
    a module being unloaded, and exactly what it leaves behind then. */
module Interruption {
  import opened Model
  import opened Teardown
  import opened Invariants
  import opened Effects
  import opened UnloadSafety
  import opened Closure
  import opened Exactness

  // ---- the walk up to the executing process ----------------------------------------------------

  /** Going through the active subtree in order, everything before the module of the executing
      process is clear, and that module is reached. */
  ghost predicate Cuts(t: Topology, s: State, c: ManagerId, dead: set<ModuleId>, me: ThreadId)
    requires Layered(t) && Typed(t, s) && c in t.mgrs && me < |s.threads|
    decreases t.depth[c], 1, 0
  {
    && s.mgrs[c].current.Some? && s.mgrs[c].rr.Some?
    && Tally(Masked(s.threads, dead), LockOn(s.mgrs[c].rr.value)) == 0
    && CutsFrom(t, s, s.mgrs[c].current.value, 0, dead, me)
  }

  ghost predicate CutsFrom(t: Topology, s: State, m: ModuleId, k: nat, dead: set<ModuleId>, me: ThreadId)
    requires Layered(t) && Typed(t, s) && m in t.mods && k <= Tasks(t.mods[m]) && me < |s.threads|
    decreases t.depth[t.mods[m].home], 0, Tasks(t.mods[m]) - k
  {
    k < Tasks(t.mods[m])
    && (TaskIsOf(t, m, k);
        match TaskAt(t.mods[m], k)
        case DropSub(c) => Cuts(t, s, c, dead, me)
                           || (Clear(t, s, c, dead, me) && CutsFrom(t, s, m, k + 1, dead + Mods(t, s, c), me))
        case Kill => s.threads[me].owner == Some(m) || CutsFrom(t, s, m, k + 1, dead + {m}, me)
        case DropNested(r) =>
          && !s.regions[r].reconf
          && (Cuts(t, s, t.root[r], dead, me)
              || (Clear(t, s, t.root[r], dead, me) && CutsFrom(t, s, m, k + 1, dead + Mods(t, s, t.root[r]), me))))
  }

  /** What the walk has done when it kills a process of module `x`: the modules taken out, those
      decoupled but still current, those whose processes are all dead, the regions marked and blocked,
      and the sub-managers disconnected. */
  datatype Trace = Trace(gone: set<ModuleId>, path: set<ModuleId>, slain: set<ModuleId>,
                         marked: set<RegionId>, closed: set<RegionId>, dropped: iset<ManagerId>)

  const NOTHING := Trace({}, {}, {}, {}, {}, iset{})

  function After(w: Trace, gone: set<ModuleId>, slain: set<ModuleId>, dropped: iset<ManagerId>): Trace {
    w.(gone := gone + w.gone, slain := slain + w.slain, dropped := dropped + w.dropped)
  }

  function Through(w: Trace, m: ModuleId): Trace {
    w.(path := {m} + w.path)
  }

  function Marking(w: Trace, r: RegionId): Trace {
    w.(marked := {r} + w.marked)
  }

  /** A request to configure also blocks its region. */
  function Closing(w: Trace, r: RegionId): Trace {
    w.(marked := {r} + w.marked, closed := {r} + w.closed)
  }

  ghost function Walk(t: Topology, s: State, c: ManagerId, x: ModuleId): Trace
    requires Layered(t) && Typed(t, s) && c in t.mgrs
    decreases t.depth[c], 1, 0
  {
    if s.mgrs[c].current.None? then NOTHING
    else
      Through(WalkFrom(t, s, s.mgrs[c].current.value, 0, x), s.mgrs[c].current.value)
  }

  ghost function WalkFrom(t: Topology, s: State, m: ModuleId, k: nat, x: ModuleId): Trace
    requires Layered(t) && Typed(t, s) && m in t.mods && k <= Tasks(t.mods[m])
    decreases t.depth[t.mods[m].home], 0, Tasks(t.mods[m]) - k
  {
    if k == Tasks(t.mods[m]) then NOTHING
    else
      TaskIsOf(t, m, k);
      match TaskAt(t.mods[m], k)
      case DropSub(c) =>
        if x in Mods(t, s, c) then Walk(t, s, c, x)
        else After(WalkFrom(t, s, m, k + 1, x), Mods(t, s, c), Mods(t, s, c), Subs(t, Mods(t, s, c)) + iset{c})
      case Kill => if x == m then NOTHING else After(WalkFrom(t, s, m, k + 1, x), {}, {m}, iset{})
      case DropNested(r) =>
        if x in Mods(t, s, t.root[r]) then
          Marking(Walk(t, s, t.root[r], x), r)
        else After(WalkFrom(t, s, m, k + 1, x), Mods(t, s, t.root[r]), Mods(t, s, t.root[r]), Subs(t, Mods(t, s, t.root[r])))
  }

  /** The processes killed by the loop over the handles `hs` when it reaches the executing one. */
  function UpTo(hs: seq<ThreadId>, me: ThreadId): set<ThreadId> {
    if hs == [] then {} else if hs[0] == me then {me} else {hs[0]} + UpTo(hs[1..], me)
  }

  /** `n` is `s` cut off in the walk `w` when the processes `doomed` of one more module have been
      killed; no other pointer, handle, flag or thread has changed. */
  ghost predicate CutOff(t: Topology, s: State, n: State, w: Trace, doomed: set<ThreadId>) {
    CutPointers(s, n, w) && CutBindings(t, s, n, w) && CutThreads(s.threads, n.threads, w.slain, doomed) && Marks(s, n, w)
  }

  ghost predicate CutPointers(s: State, n: State, w: Trace) {
    && n.mgrs.Keys == s.mgrs.Keys && n.mods.Keys == s.mods.Keys
    && (forall d <- s.mgrs :: n.mgrs[d] == Manager(
          if s.mgrs[d].current.Some? && s.mgrs[d].current.value in w.gone then None else s.mgrs[d].current,
          if d in w.dropped then None else s.mgrs[d].rr))
    && (forall y <- s.mods :: n.mods[y] == if y in w.gone then Module(None, [])
                                           else if y in w.path then Module(None, if y in w.slain then [] else s.mods[y].handles)
                                           else s.mods[y])
  }

  ghost predicate CutBindings(t: Topology, s: State, n: State, w: Trace) {
    && (forall k :: k in n.bound <==> k in s.bound && s.bound[k] !in w.gone && s.bound[k] !in w.path)
    && (forall k <- n.bound :: n.bound[k] == s.bound[k])
    && (forall k :: k in n.decoupled <==> k in s.decoupled || OutOf(t, s, k, w.gone + w.path))
  }

  ghost predicate CutThreads(was: seq<Thread>, threads: seq<Thread>, slain: set<ModuleId>, doomed: set<ThreadId>) {
    && |threads| == |was|
    && forall j | 0 <= j < |was| :: threads[j] == if Slays(was[j], slain) || j in doomed then Dead(was[j]) else was[j]
  }

  predicate Slays(th: Thread, slain: set<ModuleId>) {
    th.owner.Some? && th.owner.value in slain
  }

  ghost predicate Marks(s: State, n: State, w: Trace) {
    && n.regions.Keys == s.regions.Keys
    && (forall r <- s.regions :: n.regions[r].reconf <==> s.regions[r].reconf || r in w.marked)
    && (forall r <- s.regions :: n.regions[r].blocked <==> s.regions[r].blocked || r in w.closed)
  }

  // ---- only the subtree matters ------------------------------------------------------------------

  lemma {:induction false} WalkAgree(t: Topology, s: State, n: State, c: ManagerId, x: ModuleId)
    requires Layered(t) && Typed(t, s) && Typed(t, n) && c in t.mgrs && Agree(t, s, n, c)
    ensures Walk(t, n, c, x) == Walk(t, s, c, x)
    decreases t.depth[c], 1, 0
  {
    hide Layered, Typed;
    KeysOf(t, s);
    assert n.mgrs[c] == s.mgrs[c] by { UnderSelf(t, c); }
    if s.mgrs[c].current.Some? {
      HomeOf(t, s, c);
      AgreeDown(t, s, n, c, s.mgrs[c].current.value);
      WalkFromAgree(t, s, n, s.mgrs[c].current.value, 0, x);
    }
  }

  lemma {:induction false} WalkFromAgree(t: Topology, s: State, n: State, m: ModuleId, k: nat, x: ModuleId)
    requires Layered(t) && Typed(t, s) && Typed(t, n) && m in t.mods && k <= Tasks(t.mods[m]) && AgreeFrom(t, s, n, m, k)
    ensures WalkFrom(t, n, m, k, x) == WalkFrom(t, s, m, k, x)
    decreases t.depth[t.mods[m].home], 0, Tasks(t.mods[m]) - k
  {
    hide Layered, Typed, Agree;
    if k < Tasks(t.mods[m]) {
      ChildOwned(t, m, k);
      TaskIsOf(t, m, k);
      var c := Child(t, TaskAt(t.mods[m], k));
      assert AgreeTask(t, s, n, TaskAt(t.mods[m], k));
      if c.Some? {
        ModsAgree(t, s, n, c.value);
        WalkAgree(t, s, n, c.value, x);
      }
      WalkFromAgree(t, s, n, m, k + 1, x);
    }
  }

  lemma {:induction false} CutsAgree(t: Topology, s: State, n: State, c: ManagerId,
                                     gone: set<ModuleId>, dead: set<ModuleId>, me: ThreadId)
    requires Layered(t) && Typed(t, s) && Typed(t, n) && c in t.mgrs && me < |s.threads|
    requires Agree(t, s, n, c) && n.threads == Masked(s.threads, gone)
    ensures Cuts(t, n, c, dead, me) == Cuts(t, s, c, gone + dead, me)
    decreases t.depth[c], 1, 0
  {
    hide Layered, Typed;
    KeysOf(t, s);
    assert n.mgrs[c] == s.mgrs[c] by { UnderSelf(t, c); }
    MaskTwice(s.threads, gone, dead);
    if s.mgrs[c].current.Some? {
      HomeOf(t, s, c);
      AgreeDown(t, s, n, c, s.mgrs[c].current.value);
      CutsFromAgree(t, s, n, s.mgrs[c].current.value, 0, gone, dead, me);
    }
  }

  lemma {:induction false} CutsFromAgree(t: Topology, s: State, n: State, m: ModuleId, k: nat,
                                         gone: set<ModuleId>, dead: set<ModuleId>, me: ThreadId)
    requires Layered(t) && Typed(t, s) && Typed(t, n) && m in t.mods && k <= Tasks(t.mods[m]) && me < |s.threads|
    requires AgreeFrom(t, s, n, m, k) && n.threads == Masked(s.threads, gone)
    ensures CutsFrom(t, n, m, k, dead, me) == CutsFrom(t, s, m, k, gone + dead, me)
    decreases t.depth[t.mods[m].home], 0, Tasks(t.mods[m]) - k
  {
    hide Layered, Typed, Agree, Clear, Cuts;
    KeysOf(t, s);
    if k < Tasks(t.mods[m]) {
      ChildOwned(t, m, k);
      TaskIsOf(t, m, k);
      assert AgreeTask(t, s, n, TaskAt(t.mods[m], k));
      match TaskAt(t.mods[m], k)
      case DropSub(c) =>
        CutsFromChild(t, s, n, m, k, c, gone, dead, me);
      case Kill =>
        CutsFromAgree(t, s, n, m, k + 1, gone, dead + {m}, me);
        assert gone + (dead + {m}) == (gone + dead) + {m};
      case DropNested(r) =>
        CutsFromChild(t, s, n, m, k, t.root[r], gone, dead, me);
    }
  }

  lemma {:induction false} CutsFromChild(t: Topology, s: State, n: State, m: ModuleId, k: nat, c: ManagerId,
                                         gone: set<ModuleId>, dead: set<ModuleId>, me: ThreadId)
    requires Layered(t) && Typed(t, s) && Typed(t, n) && m in t.mods && k < Tasks(t.mods[m]) && me < |s.threads|
    requires AgreeFrom(t, s, n, m, k) && n.threads == Masked(s.threads, gone)
    requires OwnedBy(t, c, m) && c in t.mgrs && Agree(t, s, n, c)
    ensures Cuts(t, n, c, dead, me) == Cuts(t, s, c, gone + dead, me)
    ensures Clear(t, n, c, dead, me) == Clear(t, s, c, gone + dead, me)
    ensures CutsFrom(t, n, m, k + 1, dead + Mods(t, n, c), me) == CutsFrom(t, s, m, k + 1, (gone + dead) + Mods(t, s, c), me)
    decreases t.depth[t.mods[m].home], 0, Tasks(t.mods[m]) - k, 0
  {
    hide Layered, Typed, Agree, Clear, Cuts;
    ChildLower(t, c, m);
    ModsAgree(t, s, n, c);
    ClearAgree(t, s, n, c, gone, dead, me);
    CutsAgree(t, s, n, c, gone, dead, me);
    CutsFromAgree(t, s, n, m, k + 1, gone, dead + Mods(t, s, c), me);
    assert gone + (dead + Mods(t, s, c)) == (gone + dead) + Mods(t, s, c);
  }

  lemma ChildLower(t: Topology, c: ManagerId, m: ModuleId)
    requires OwnedBy(t, c, m)
    ensures c in t.depth && t.mods[m].home in t.depth && t.depth[c] < t.depth[t.mods[m].home]
  {
  }

  // ---- pieces of the walk ------------------------------------------------------------------------

  /** The kill loop cut short has killed the processes up to the executing one, and done nothing else. */
  lemma KillCut(t: Topology, s: State, m: ModuleId, me: ThreadId, q: set<RegionId>, p: set<ManagerId>)
    requires During(t, s, q, p, false) && m in s.mods && me < |s.threads| && s.threads[me].alive
    ensures var o := KillFrom(s, s.mods[m].handles, me);
      && (o.Aborted? <==> s.threads[me].owner == Some(m))
      && (o.Aborted? ==> me < |o.state.threads| && !o.state.threads[me].alive
                         && CutOff(t, s, o.state, NOTHING, UpTo(s.mods[m].handles, me)))
  {
    hide Typed, Counted, Exclusive, FlagsOk, CallsBound, Matching, LoadsOk, Tidy, Roots,
         DecoupledOk, Stationed, Leftovers, SettledPart, SplitPart, PathOk;
    var hs := s.mods[m].handles;
    HandlesAre(s, m, me);
    KillFromKeeps(t, s, hs, me, q, p, false);
    KillDone(s, hs, me);
    KillOthers(s, hs, me);
    KillBound(s, hs, me);
  }

  lemma {:induction false} KillOthers(s: State, hs: seq<ThreadId>, me: ThreadId)
    requires forall j | 0 <= j < |hs| :: hs[j] < |s.threads|
    ensures var o := KillFrom(s, hs, me); o.Aborted? ==>
      && |o.state.threads| == |s.threads| && o.state.mgrs == s.mgrs && o.state.mods == s.mods
      && (forall i | 0 <= i < |s.threads| :: o.state.threads[i] == if i in UpTo(hs, me) then Dead(s.threads[i]) else s.threads[i])
      && me < |s.threads| && !o.state.threads[me].alive
    decreases |hs|
  {
    if hs != [] && KillOne(s, hs[0]).Some? && hs[0] != me {
      KillOthers(KillOne(s, hs[0]).value, hs[1..], me);
    }
  }

  /** A completed part followed by one that is cut off. */
  lemma TakenCut(t: Topology, s: State, n: State, e: State, ms: set<ModuleId>, ks: set<ModuleId>, ds: iset<ManagerId>,
                 w: Trace, doomed: set<ThreadId>)
    requires Taken(t, s, n, ms, ks, ds) && SameReconf(s, n) && Shrinks(s, n) && CutOff(t, n, e, w, doomed) && ks <= ms + w.path
    ensures CutOff(t, s, e, After(w, ms, ks, ds), doomed)
  {
    hide Taken, CutPointers, CutBindings, CutThreads, Marks;
    TakenCutPointers(t, s, n, e, ms, ks, ds, w, doomed);
    TakenCutBindings(t, s, n, e, ms, ks, ds, w, doomed);
    TakenCutThreads(t, s, n, e, ms, ks, ds, w, doomed);
  }

  lemma TakenCutPointers(t: Topology, s: State, n: State, e: State, ms: set<ModuleId>, ks: set<ModuleId>, ds: iset<ManagerId>,
                         w: Trace, doomed: set<ThreadId>)
    requires Taken(t, s, n, ms, ks, ds) && CutOff(t, n, e, w, doomed) && ks <= ms + w.path
    ensures CutPointers(s, e, After(w, ms, ks, ds))
  {
  }

  lemma TakenCutBindings(t: Topology, s: State, n: State, e: State, ms: set<ModuleId>, ks: set<ModuleId>, ds: iset<ManagerId>,
                         w: Trace, doomed: set<ThreadId>)
    requires Taken(t, s, n, ms, ks, ds) && CutOff(t, n, e, w, doomed)
    ensures CutBindings(t, s, e, After(w, ms, ks, ds))
  {
  }

  lemma TakenCutThreads(t: Topology, s: State, n: State, e: State, ms: set<ModuleId>, ks: set<ModuleId>, ds: iset<ManagerId>,
                        w: Trace, doomed: set<ThreadId>)
    requires Taken(t, s, n, ms, ks, ds) && SameReconf(s, n) && Shrinks(s, n) && CutOff(t, n, e, w, doomed)
    ensures CutThreads(s.threads, e.threads, ks + w.slain, doomed) && Marks(s, e, After(w, ms, ks, ds))
  {
  }

  lemma DecoupledCut(t: Topology, s: State, n: State, e: State, m: ModuleId, r: RegionId, w: Trace, doomed: set<ThreadId>)
    requires Matching(t, s) && m in t.mods && m in s.mods && s.mods[m].configured == Some(r)
    requires n == Decouple(t, s, m, r) && CutOff(t, n, e, w, doomed) && m in w.path
    ensures CutOff(t, s, e, w, doomed)
  {
    DecoupleTaken(t, s, m, r);
    hide Decouple, Matching, CutPointers, CutBindings, TakenBindings;
    DecoupledPointers(s, n, e, m, w);
    DecoupledBindings(t, s, n, e, m, w);
  }

  lemma DecoupledPointers(s: State, n: State, e: State, m: ModuleId, w: Trace)
    requires m in s.mods && n.mgrs == s.mgrs && n.mods == s.mods[m := Module(None, s.mods[m].handles)]
    requires CutPointers(n, e, w) && m in w.path
    ensures CutPointers(s, e, w)
  {
  }

  lemma DecoupledBindings(t: Topology, s: State, n: State, e: State, m: ModuleId, w: Trace)
    requires TakenBindings(t, s, n, {m}) && CutBindings(t, n, e, w) && m in w.path
    ensures CutBindings(t, s, e, w)
  {
  }

  lemma MarkedCut(t: Topology, s: State, e: State, r: RegionId, w: Trace, doomed: set<ThreadId>)
    requires r in s.regions && CutOff(t, SetReconf(s, r, true), e, w, doomed)
    ensures CutOff(t, s, e, Marking(w, r), doomed)
  {
  }

  /** More may be on the path than the walk says, if it is decoupled. */
  lemma WiderPath(t: Topology, s: State, e: State, w: Trace, doomed: set<ThreadId>, m: ModuleId)
    requires Matching(t, s) && CutOff(t, s, e, w, doomed) && m in s.mods && s.mods[m].configured.None?
    requires m !in w.gone && m !in w.slain
    ensures CutOff(t, s, e, Through(w, m), doomed)
  {
  }

  /** The module of the executing process. */
  ghost predicate Mine(s: State, me: ThreadId, x: ModuleId) {
    me < |s.threads| && s.threads[me].alive && s.threads[me].owner == Some(x)
  }

  ghost predicate Stopped(t: Topology, s: State, o: Outcome, w: Trace, x: ModuleId, me: ThreadId) {
    && o.Aborted? && x in s.mods && CutOff(t, s, o.state, w, UpTo(s.mods[x].handles, me))
    && me < |o.state.threads| && !o.state.threads[me].alive
  }

  // ---- the theorem ---------------------------------------------------------------------------------

  /** An unload is cut short exactly under `Cuts`; then the executing process belongs to a module
      of the active subtree, and what is left is what the walk up to that module leaves. */
  lemma {:induction false} UnloadCut(t: Topology, s: State, c: ManagerId, me: ThreadId,
                                     q: set<RegionId>, p: set<ManagerId>) returns (x: ModuleId)
    requires Layered(t) && Typed(t, s) && c in t.mgrs && me < |s.threads| && s.threads[me].alive
    requires s.mgrs[c].rr.Some? ==> s.mgrs[c].rr.value in q
    requires Above(t, p, t.depth[c])
    requires Valid(t) && During(t, s, q, p, false)
    ensures var o := Unload(t, s, c, me);
      && (o.Aborted? <==> Cuts(t, s, c, {}, me))
      && (o.Aborted? ==> Mine(s, me, x) && x in Mods(t, s, c) && Stopped(t, s, o, Walk(t, s, c, x), x, me))
    decreases t.depth[c], 1, 0
  {
    hide Typed, ThreadsOk, HandlesOk, Counted, Exclusive, FlagsOk, CallsBound, Matching, LoadsOk, Tidy, Roots,
         DecoupledOk, Stationed, Leftovers, SettledPart, SplitPart, PathOk, Valid, Layered, CanDecouple, Stopped;
    KeysOf(t, s);
    MaskNone(s.threads);
    x := 0;
    if s.mgrs[c].current.Some? {
      OpenedSettled(t, s, c, q, p);
      var m, r := s.mgrs[c].current.value, s.mgrs[c].rr.value;
      HomeOf(t, s, c);
      CountIs(s, r);
      if s.regions[r].count == 0 {
        x := UnloadCutLoaded(t, s, c, me, m, r, q, p);
      }
    }
  }

  lemma {:induction false} UnloadCutLoaded(t: Topology, s: State, c: ManagerId, me: ThreadId, m: ModuleId, r: RegionId,
                                           q: set<RegionId>, p: set<ManagerId>) returns (x: ModuleId)
    requires Layered(t) && Typed(t, s) && c in t.mgrs && me < |s.threads| && s.threads[me].alive
    requires s.mgrs[c] == Manager(Some(m), Some(r)) && r in q && r in s.regions && s.regions[r].count == 0
    requires m in t.mods && t.mods[m].home == c && m in s.mods && CanDecouple(t, s, m, r)
    requires Above(t, p, t.depth[c])
    requires Valid(t) && During(t, s, q, p, false)
    ensures var o := Unload(t, s, c, me);
      && (o.Aborted? <==> CutsFrom(t, s, m, 0, {}, me))
      && (o.Aborted? ==> Mine(s, me, x) && x in Mods(t, s, c) && Stopped(t, s, o, Walk(t, s, c, x), x, me))
    decreases t.depth[c], 0, |t.mods[m].subs| + |t.mods[m].nested| + 2, 1
  {
    hide Typed, ThreadsOk, HandlesOk, Counted, Exclusive, FlagsOk, CallsBound, Matching, LoadsOk, Tidy, Roots,
         DecoupledOk, Stationed, Leftovers, SettledPart, SplitPart, PathOk, Valid, Layered, CutOff, Decouple;
    KeysOf(t, s);
    DepthOf(t, c);
    DecoupleKeeps(t, s, m, r, q, p, false);
    DecoupleTaken(t, s, m, r);
    var n := Decouple(t, s, m, r);
    x := DeactivateCut(t, n, m, r, 0, me, q, p + {c});
    MaskNone(s.threads);
    SameView(t, s, n, c);
    AgreeDown(t, s, n, c, m);
    ModsFromAgree(t, s, n, m, 0);
    WalkFromAgree(t, s, n, m, 0, x);
    CutsFromAgree(t, s, n, m, 0, {}, {}, me);
    var none: set<ModuleId> := {};
    assert none + none == none;
    var o := Deactivate(t, n, m, 0, me);
    assert Unload(t, s, c, me).Aborted? <==> o.Aborted?;
    if o.Aborted? {
      DecoupledCut(t, s, n, o.state, m, r, Through(WalkFrom(t, s, m, 0, x), m), UpTo(s.mods[x].handles, me));
    }
  }

  lemma {:induction false} DeactivateCut(t: Topology, s: State, m: ModuleId, r: RegionId, k: nat, me: ThreadId,
                                         q: set<RegionId>, p: set<ManagerId>) returns (x: ModuleId)
    requires Opened(t, s, m, r, q) && k <= Tasks(t.mods[m]) && Progress(t, s, m, k)
    requires OnPath(t, m, p)
    requires Layered(t) && Typed(t, s) && me < |s.threads| && s.threads[me].alive
    requires Valid(t) && During(t, s, q, p, false)
    ensures var o := Deactivate(t, s, m, k, me);
      && (o.Aborted? <==> CutsFrom(t, s, m, k, {}, me))
      && (o.Aborted? ==> Mine(s, me, x) && (x in ModsFrom(t, s, m, k) || (x == m && KillsAt(t, m, k)))
                         && Stopped(t, s, o, Through(WalkFrom(t, s, m, k, x), m), x, me))
    decreases t.depth[t.mods[m].home], 0, Tasks(t.mods[m]) - k, 0
  {
    hide Typed, ThreadsOk, HandlesOk, Counted, Exclusive, FlagsOk, CallsBound, Matching, LoadsOk, Tidy, Roots,
         DecoupledOk, Stationed, Leftovers, SettledPart, SplitPart, PathOk, Valid, Layered, Taken, CutOff,
         Opened, Progress, AgreeFrom;
    x := 0;
    if k < Tasks(t.mods[m]) {
      TaskIsOf(t, m, k);
      StepKeeps(t, s, m, r, k, me, q, p, false);
      StepExact(t, s, m, r, k, me, q, p);
      x := StepCut(t, s, m, r, k, me, q, p);
      var o := Step(t, s, m, TaskAt(t.mods[m], k), me);
      if o.Done? {
        x := DeactivateCut(t, o.state, m, r, k + 1, me, q, p);
        CutOn(t, s, o.state, m, k, me, x);
      }
      CutsStep(t, s, m, k, me);
    }
  }

  /** The remaining steps, seen from before step `k`. */
  lemma CutOn(t: Topology, s: State, n: State, m: ModuleId, k: nat, me: ThreadId, x: ModuleId)
    requires Layered(t) && Typed(t, s) && Typed(t, n) && m in t.mods && k < Tasks(t.mods[m]) && me < |s.threads| && me < |n.threads|
    requires AgreeFrom(t, s, n, m, k + 1) && SameReconf(s, n) && Shrinks(s, n)
    requires Taken(t, s, n, StepMods(t, s, m, k), StepKills(t, s, m, k), StepSubs(t, s, m, k))
    requires var o := Deactivate(t, n, m, k + 1, me);
      && (o.Aborted? <==> CutsFrom(t, n, m, k + 1, {}, me))
      && (o.Aborted? ==> Mine(n, me, x) && (x in ModsFrom(t, n, m, k + 1) || (x == m && KillsAt(t, m, k + 1)))
                         && Stopped(t, n, o, Through(WalkFrom(t, n, m, k + 1, x), m), x, me))
    ensures var o := Deactivate(t, n, m, k + 1, me);
      && (o.Aborted? <==> CutsFrom(t, s, m, k + 1, StepKills(t, s, m, k), me))
      && (o.Aborted? ==> Mine(s, me, x) && (x in ModsFrom(t, s, m, k) || (x == m && KillsAt(t, m, k)))
                         && Stopped(t, s, o, Through(WalkFrom(t, s, m, k, x), m), x, me))
  {
    hide Layered, Typed, Taken, CutOff, AgreeFrom, Deactivate, SameReconf, Shrinks, Mine;
    ModsFromAgree(t, s, n, m, k + 1);
    WalkFromAgree(t, s, n, m, k + 1, x);
    var tm, tk := StepMods(t, s, m, k), StepKills(t, s, m, k);
    TakenThreads(t, s, n, tm, tk, StepSubs(t, s, m, k));
    CutsFromAgree(t, s, n, m, k + 1, tk, {}, me);
    assert tk + {} == tk;
    var o := Deactivate(t, n, m, k + 1, me);
    if o.Aborted? {
      NotSlain(s, n, me, x, tk);
      WalkOn(t, s, m, k, x);
      TakenMod(t, s, n, tm, tk, StepSubs(t, s, m, k), x);
      TakenCut(t, s, n, o.state, tm, tk, StepSubs(t, s, m, k), Through(WalkFrom(t, s, m, k + 1, x), m), UpTo(s.mods[x].handles, me));
    }
  }

  lemma NotSlain(s: State, n: State, me: ThreadId, x: ModuleId, ks: set<ModuleId>)
    requires n.threads == Masked(s.threads, ks) && Mine(n, me, x)
    ensures x !in ks && Mine(s, me, x)
  {
  }

  /** A module whose processes the completed part has not killed is as it was. */
  lemma TakenMod(t: Topology, s: State, n: State, ms: set<ModuleId>, ks: set<ModuleId>, ds: iset<ManagerId>, x: ModuleId)
    requires Taken(t, s, n, ms, ks, ds) && ms <= ks && x !in ks && x in n.mods
    ensures x in s.mods && n.mods[x] == s.mods[x]
  {
  }

  /** The walk goes on after a step that does not reach the module. */
  lemma WalkOn(t: Topology, s: State, m: ModuleId, k: nat, x: ModuleId)
    requires Layered(t) && Typed(t, s) && m in t.mods && k < Tasks(t.mods[m]) && x !in StepKills(t, s, m, k)
    ensures WalkFrom(t, s, m, k, x)
         == After(WalkFrom(t, s, m, k + 1, x), StepMods(t, s, m, k), StepKills(t, s, m, k), StepSubs(t, s, m, k))
    ensures Through(WalkFrom(t, s, m, k, x), m)
         == After(Through(WalkFrom(t, s, m, k + 1, x), m), StepMods(t, s, m, k), StepKills(t, s, m, k), StepSubs(t, s, m, k))
    ensures StepMods(t, s, m, k) <= StepKills(t, s, m, k)
  {
    hide Layered, Typed;
    TaskIsOf(t, m, k);
    assert Subs(t, {}) + iset{} == iset{};
    assert forall ms: set<ModuleId> :: Subs(t, ms) + iset{} == Subs(t, ms);
  }

  ghost predicate StepCuts(t: Topology, s: State, m: ModuleId, k: nat, me: ThreadId)
    requires Layered(t) && Typed(t, s) && m in t.mods && k < Tasks(t.mods[m]) && me < |s.threads|
  {
    TaskIsOf(t, m, k);
    match TaskAt(t.mods[m], k)
    case DropSub(c) => Cuts(t, s, c, {}, me)
    case Kill => s.threads[me].owner == Some(m)
    case DropNested(r) => !s.regions[r].reconf && Cuts(t, s, t.root[r], {}, me)
  }

  lemma CutsStep(t: Topology, s: State, m: ModuleId, k: nat, me: ThreadId)
    requires Layered(t) && Typed(t, s) && m in t.mods && k < Tasks(t.mods[m]) && me < |s.threads|
    ensures CutsFrom(t, s, m, k, {}, me)
      <==> StepCuts(t, s, m, k, me)
           || (StepClear(t, s, m, k, me) && CutsFrom(t, s, m, k + 1, StepKills(t, s, m, k), me))
  {
    hide Typed, Layered, Clear, Cuts;
    TaskIsOf(t, m, k);
    match TaskAt(t.mods[m], k)
    case DropSub(c) => assert {} + Mods(t, s, c) == Mods(t, s, c);
    case Kill => assert {} + {m} == {m};
    case DropNested(r) => assert {} + Mods(t, s, t.root[r]) == Mods(t, s, t.root[r]);
  }

  lemma {:induction false} StepCut(t: Topology, s: State, m: ModuleId, r: RegionId, k: nat, me: ThreadId,
                                   q: set<RegionId>, p: set<ManagerId>) returns (x: ModuleId)
    requires Opened(t, s, m, r, q) && k < Tasks(t.mods[m]) && Progress(t, s, m, k)
    requires OnPath(t, m, p)
    requires Layered(t) && Typed(t, s) && me < |s.threads| && s.threads[me].alive
    requires TaskOf(t, m, TaskAt(t.mods[m], k))
    requires Valid(t) && During(t, s, q, p, false)
    ensures var o := Step(t, s, m, TaskAt(t.mods[m], k), me);
      && (o.Aborted? <==> StepCuts(t, s, m, k, me))
      && (o.Aborted? ==> Mine(s, me, x) && (x in StepMods(t, s, m, k) || (x == m && KillsAt(t, m, k)))
                         && Stopped(t, s, o, Through(WalkFrom(t, s, m, k, x), m), x, me))
    decreases t.depth[t.mods[m].home], 0, 0, 0
  {
    hide Typed, ThreadsOk, HandlesOk, Counted, Exclusive, FlagsOk, CallsBound, Matching, LoadsOk, Tidy, Roots,
         DecoupledOk, Stationed, Leftovers, SettledPart, SplitPart, PathOk, Valid, Layered, CutOff, Cuts, Stopped;
    match TaskAt(t.mods[m], k)
    case DropSub(c) => x := SubCut(t, s, m, r, k, me, q, p);
    case Kill => x := KillStepCut(t, s, m, k, me, q, p);
    case DropNested(w) => x := NestedCut(t, s, m, r, k, w, me, q, p);
  }

  lemma KillStepCut(t: Topology, s: State, m: ModuleId, k: nat, me: ThreadId, q: set<RegionId>, p: set<ManagerId>)
    returns (x: ModuleId)
    requires m in t.mods && m in s.mods && k == |t.mods[m].subs| && s.mods[m].configured.None?
    requires Layered(t) && Typed(t, s) && me < |s.threads| && s.threads[me].alive
    requires During(t, s, q, p, false)
    ensures TaskAt(t.mods[m], k) == Kill
    ensures var o := Step(t, s, m, Kill, me);
      && (o.Aborted? <==> StepCuts(t, s, m, k, me))
      && (o.Aborted? ==> Mine(s, me, x) && x == m && Stopped(t, s, o, Through(WalkFrom(t, s, m, k, x), m), x, me))
  {
    hide Typed, ThreadsOk, HandlesOk, Counted, Exclusive, FlagsOk, CallsBound, Matching, LoadsOk, Tidy, Roots,
         DecoupledOk, Stationed, Leftovers, SettledPart, SplitPart, PathOk, Layered;
    x := m;
    KillCut(t, s, m, me, q, p);
    var o := KillFrom(s, s.mods[m].handles, me);
    if o.Aborted? { WiderPath(t, s, o.state, NOTHING, UpTo(s.mods[m].handles, me), m); }
  }

  lemma {:induction false} SubCut(t: Topology, s: State, m: ModuleId, r: RegionId, k: nat, me: ThreadId,
                                  q: set<RegionId>, p: set<ManagerId>) returns (x: ModuleId)
    requires Opened(t, s, m, r, q) && k < |t.mods[m].subs| && Progress(t, s, m, k)
    requires OnPath(t, m, p)
    requires Layered(t) && Typed(t, s) && me < |s.threads| && s.threads[me].alive
    requires TaskOf(t, m, DropSub(t.mods[m].subs[k]))
    requires Valid(t) && During(t, s, q, p, false)
    ensures var o := Step(t, s, m, DropSub(t.mods[m].subs[k]), me);
      && (o.Aborted? <==> StepCuts(t, s, m, k, me))
      && (o.Aborted? ==> Mine(s, me, x) && x in StepMods(t, s, m, k)
                         && Stopped(t, s, o, Through(WalkFrom(t, s, m, k, x), m), x, me))
    decreases t.depth[t.mods[m].subs[k]], 2, 0, 0
  {
    hide Typed, ThreadsOk, HandlesOk, Counted, Exclusive, FlagsOk, CallsBound, Matching, LoadsOk, Tidy, Roots,
         DecoupledOk, Stationed, Leftovers, SettledPart, SplitPart, PathOk, Valid, Layered, CutOff, Cuts;
    var c := t.mods[m].subs[k];
    SubRegion(t, s, m, r, k, q);
    x := UnloadCut(t, s, c, me, q, p);
    var o := Unload(t, s, c, me);
    if o.Aborted? {
      NotGone(t, s, m, c, x);
      WiderPath(t, s, o.state, Walk(t, s, c, x), UpTo(s.mods[x].handles, me), m);
    }
  }

  /** The walk below a child does not take out the module itself. */
  lemma NotGone(t: Topology, s: State, m: ModuleId, c: ManagerId, x: ModuleId)
    requires Layered(t) && Typed(t, s) && c in t.mgrs && m in t.mods && Inside(t, c, m)
    ensures m !in Walk(t, s, c, x).gone && m !in Walk(t, s, c, x).slain
  {
    hide Layered, Typed;
    WalkInside(t, s, c, x);
    if m in Mods(t, s, c) {
      ModsUnder(t, s, c, m);
      UnderLower(t, t.mods[m].home, c);
    }
  }

  lemma {:induction false} WalkInside(t: Topology, s: State, c: ManagerId, x: ModuleId)
    requires Layered(t) && Typed(t, s) && c in t.mgrs
    ensures Walk(t, s, c, x).gone <= Mods(t, s, c) && Walk(t, s, c, x).path <= Mods(t, s, c)
    ensures Walk(t, s, c, x).slain <= Mods(t, s, c)
    decreases t.depth[c], 1, 0
  {
    hide Layered, Typed;
    KeysOf(t, s);
    if s.mgrs[c].current.Some? {
      HomeOf(t, s, c);
      WalkFromInside(t, s, s.mgrs[c].current.value, 0, x);
    }
  }

  lemma {:induction false} WalkFromInside(t: Topology, s: State, m: ModuleId, k: nat, x: ModuleId)
    requires Layered(t) && Typed(t, s) && m in t.mods && k <= Tasks(t.mods[m])
    ensures WalkFrom(t, s, m, k, x).gone <= ModsFrom(t, s, m, k) && WalkFrom(t, s, m, k, x).path <= ModsFrom(t, s, m, k)
    ensures WalkFrom(t, s, m, k, x).slain <= ModsFrom(t, s, m, k) + {m}
    decreases t.depth[t.mods[m].home], 0, Tasks(t.mods[m]) - k
  {
    hide Layered, Typed;
    if k < Tasks(t.mods[m]) {
      ChildOwned(t, m, k);
      TaskIsOf(t, m, k);
      var c := Child(t, TaskAt(t.mods[m], k));
      if c.Some? { WalkInside(t, s, c.value, x); }
      WalkFromInside(t, s, m, k + 1, x);
    }
  }

  lemma {:induction false} NestedCut(t: Topology, s: State, m: ModuleId, r: RegionId, k: nat, w: RegionId, me: ThreadId,
                                     q: set<RegionId>, p: set<ManagerId>) returns (x: ModuleId)
    requires Opened(t, s, m, r, q) && |t.mods[m].subs| < k < Tasks(t.mods[m]) && Progress(t, s, m, k)
    requires OnPath(t, m, p)
    requires Layered(t) && Typed(t, s) && me < |s.threads| && s.threads[me].alive
    requires TaskAt(t.mods[m], k) == DropNested(w) && TaskOf(t, m, DropNested(w))
    requires Valid(t) && During(t, s, q, p, false)
    ensures var o := UnloadModule(t, s, t.root[w], w, me);
      && (o.Aborted? <==> StepCuts(t, s, m, k, me))
      && (o.Aborted? ==> Mine(s, me, x) && x in StepMods(t, s, m, k)
                         && Stopped(t, s, o, Through(WalkFrom(t, s, m, k, x), m), x, me))
    decreases t.depth[t.root[w]], 3, 0, 0
  {
    hide Typed, ThreadsOk, HandlesOk, Counted, Exclusive, FlagsOk, CallsBound, Matching, LoadsOk, Tidy, Roots,
         DecoupledOk, Stationed, Leftovers, SettledPart, SplitPart, PathOk, Valid, Layered, CutOff, Cuts, UnloadModule;
    var c := t.root[w];
    KeysOf(t, s);
    RootOf(t, s, w);
    x := ModuleCut(t, s, c, w, me, q, p);
    var o := UnloadModule(t, s, c, w, me);
    if o.Aborted? {
      NotGone(t, s, m, c, x);
      WiderPath(t, s, o.state, Marking(Walk(t, s, c, x), w), UpTo(s.mods[x].handles, me), m);
    }
  }

  /** The same for `unload_module`, which fails at once if its region is being reconfigured. */
  lemma {:induction false} ModuleCut(t: Topology, s: State, c: ManagerId, r: RegionId, me: ThreadId,
                                     q: set<RegionId>, p: set<ManagerId>) returns (x: ModuleId)
    requires Layered(t) && Typed(t, s) && c in t.mgrs && r in t.root && me < |s.threads| && s.threads[me].alive
    requires c in s.mgrs && s.mgrs[c].rr == Some(r) && Above(t, p, t.depth[c]) && r in s.regions
    requires Valid(t) && During(t, s, q, p, false)
    ensures var o := UnloadModule(t, s, c, r, me);
      && (o.Aborted? <==> !s.regions[r].reconf && Cuts(t, s, c, {}, me))
      && (o.Aborted? ==> Mine(s, me, x) && x in Mods(t, s, c) && Stopped(t, s, o, Marking(Walk(t, s, c, x), r), x, me))
    decreases t.depth[c], 2, 0
  {
    hide Typed, ThreadsOk, HandlesOk, Counted, Exclusive, FlagsOk, CallsBound, Matching, LoadsOk, Tidy, Roots,
         DecoupledOk, Stationed, Leftovers, SettledPart, SplitPart, PathOk, Valid, Layered, Cuts, CutOff;
    x := 0;
    if !s.regions[r].reconf {
      var s1 := SetReconf(s, r, true);
      SetReconfTyped(t, s, r, true);
      MarkKeeps(t, s, r, true, q, q + {r}, p, false);
      x := UnloadCut(t, s1, c, me, q + {r}, p);
      MarkAgree(t, s, s1, c, r);
      MaskNone(s.threads);
      ModsAgree(t, s, s1, c);
      WalkAgree(t, s, s1, c, x);
      CutsAgree(t, s, s1, c, {}, {}, me);
      var none: set<ModuleId> := {};
      assert none + none == none;
      var o := Unload(t, s1, c, me);
      if o.Aborted? {
        MarkedCut(t, s, o.state, r, Walk(t, s, c, x), UpTo(s.mods[x].handles, me));
      }
    }
  }
}
