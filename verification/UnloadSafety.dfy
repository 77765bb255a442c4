/** The recursive unload keeps the invariant, whether it completes or the executing process
    kills itself half-way. */
module UnloadSafety {
  import opened Model
  import opened Teardown
  import opened Invariants
  import opened Effects

  /** A manager belongs to one region. */
  lemma {:induction false} BelongsOnce(t: Topology, c: ManagerId, r: RegionId, w: RegionId)
    requires Valid(t) && Belongs(t, c, r) && Belongs(t, c, w)
    ensures r == w
    decreases if r in t.root && c in t.depth && t.root[r] in t.depth && t.depth[c] < t.depth[t.root[r]]
      then t.depth[t.root[r]] - t.depth[c] else 0
  {
    hide Valid;
    RootsAlone(t, c, r, w);
    if c != t.root[r] && c != t.root[w] {
      var m :| IsSubIn(t, c, m) && Belongs(t, t.mods[m].home, r);
      var k :| IsSubIn(t, c, k) && Belongs(t, t.mods[k].home, w);
      OneSplit(t, c, m, k);
      BelongsOnce(t, t.mods[m].home, r, w);
    }
  }

  lemma RootsAlone(t: Topology, c: ManagerId, r: RegionId, w: RegionId)
    requires Valid(t) && r in t.root && w in t.root
    ensures c == t.root[r] || c == t.root[w] ==> forall m :: !IsSubIn(t, c, m)
    ensures t.root[r] == t.root[w] ==> r == w
  {
  }

  lemma OneSplit(t: Topology, c: ManagerId, m: ModuleId, k: ModuleId)
    requires Valid(t) && IsSubIn(t, c, m) && IsSubIn(t, c, k)
    ensures m == k
  {
    var i :| 0 <= i < |t.mods[m].subs| && t.mods[m].subs[i] == c;
    var j :| 0 <= j < |t.mods[k].subs| && t.mods[k].subs[j] == c;
  }

  /** A sub-manager belongs where its split manager does. */
  lemma {:induction false} SubBelongs(t: Topology, c: ManagerId, m: ModuleId, r: RegionId)
    requires IsSubIn(t, c, m) && Belongs(t, t.mods[m].home, r)
    ensures Belongs(t, c, r)
  {
    assert t.root[r] in t.depth;
  }

  /** An operation that stops half-way leaves every region it had opened orphaned. */
  lemma HalfWay(t: Topology, s: State, q: set<RegionId>, p: set<ManagerId>, tidy: bool := true)
    requires Valid(t) && During(t, s, q, p, tidy)
    ensures During(t, s, {}, {}, tidy)
  {
    hide Typed, ThreadsOk, HandlesOk, Counted, Exclusive, FlagsOk, CallsBound, Matching, LoadsOk, Tidy, Roots, DecoupledOk,
         Stationed, Leftovers, SplitPart, Valid;
    forall c | c in s.mgrs && s.mgrs[c].current.Some? && s.mgrs[c].rr.Some? && Attended(s, s.mgrs[c].rr.value, {})
      ensures Settled(t, s, s.mgrs[c].current.value, s.mgrs[c].rr.value) || Tally(s.threads, LoadBy(c)) > 0
    {
      assert Attended(s, s.mgrs[c].rr.value, q);
    }
    OrphanSplit(t, s, q, p);
    OrphanLeftovers(t, s, q, p);
  }

  lemma OrphanSplit(t: Topology, s: State, q: set<RegionId>, p: set<ManagerId>)
    requires Valid(t) && SplitPart(t, s, q, p) && PathOk(s, q, p) && Stationed(t, s) && Roots(t, s)
    ensures SplitPart(t, s, {}, {})
  {
    hide Valid, Stationed, Roots;
    forall m, k | m in t.mods && 0 <= k < |t.mods[m].subs| && t.mods[m].subs[k] in s.mgrs
                  && s.mgrs[t.mods[m].subs[k]].rr.Some? && Attended(s, s.mgrs[t.mods[m].subs[k]].rr.value, {})
      ensures m in s.mods && s.mods[m].configured == s.mgrs[t.mods[m].subs[k]].rr
    {
      var r := s.mgrs[t.mods[m].subs[k]].rr.value;
      assert Attended(s, r, q);
      if Unloading(t, s, m, p) { UnloadingOpened(t, s, m, k, r, q, p); }
    }
  }

  /** A sub-manager of the module being unloaded can only be connected to an opened region. */
  lemma UnloadingOpened(t: Topology, s: State, m: ModuleId, k: nat, r: RegionId, q: set<RegionId>, p: set<ManagerId>)
    requires Valid(t) && PathOk(s, q, p) && Stationed(t, s) && Roots(t, s) && Unloading(t, s, m, p)
    requires k < |t.mods[m].subs| && t.mods[m].subs[k] in s.mgrs && s.mgrs[t.mods[m].subs[k]].rr == Some(r)
    ensures r in q
  {
    hide Valid;
    HomeStation(t, s, t.mods[m].home);
    var w := s.mgrs[t.mods[m].home].rr.value;
    SubOfIs(t, m, k);
    SubBelongs(t, t.mods[m].subs[k], m, w);
    BelongsOnce(t, t.mods[m].subs[k], r, w);
  }

  lemma SubOfIs(t: Topology, m: ModuleId, k: nat)
    requires Valid(t) && m in t.mods && k < |t.mods[m].subs|
    ensures IsSubIn(t, t.mods[m].subs[k], m)
  {
  }

  lemma HomeStation(t: Topology, s: State, c: ManagerId)
    requires Stationed(t, s) && Roots(t, s) && c in s.mgrs && s.mgrs[c].current.Some?
    ensures s.mgrs[c].rr.Some? && Belongs(t, c, s.mgrs[c].rr.value)
  {
  }

  lemma OrphanLeftovers(t: Topology, s: State, q: set<RegionId>, p: set<ManagerId>)
    requires Valid(t) && Leftovers(t, s, q, p) && PathOk(s, q, p) && Stationed(t, s) && Roots(t, s)
    ensures Leftovers(t, s, {}, {})
  {
    hide Valid, Stationed, Roots;
    forall m, r | m in s.mods && m in t.mods && s.mods[m].configured.None? && Belongs(t, t.mods[m].home, r) && Attended(s, r, {})
      ensures s.mods[m].handles == []
    {
      assert Attended(s, r, q);
      if Unloading(t, s, m, p) {
        HomeStation(t, s, t.mods[m].home);
        BelongsOnce(t, t.mods[m].home, r, s.mgrs[t.mods[m].home].rr.value);
      }
    }
  }

  /** The path managers `p` are above height `h`. */
  ghost predicate Above(t: Topology, p: set<ManagerId>, h: nat) {
    forall c <- p :: c in t.depth && t.depth[c] > h
  }

  /** Managers at or above height `h`, other than `except`, are untouched. */
  ghost predicate SameAbove(t: Topology, s: State, n: State, h: nat, except: set<ManagerId>) {
    && n.mgrs.Keys == s.mgrs.Keys
    && (forall c <- s.mgrs | c in t.depth && t.depth[c] >= h && c !in except :: n.mgrs[c] == s.mgrs[c])
  }

  ghost predicate Kept(t: Topology, s: State, o: Outcome, me: ThreadId, q: set<RegionId>, p: set<ManagerId>, tidy: bool := true) {
    && (o.Aborted? ==> During(t, o.state, {}, {}, tidy))
    && (o.Done? ==> During(t, o.state, q, p, tidy) && Shrinks(s, o.state) && SameReconf(s, o.state)
                    && (me < |s.threads| ==> o.state.threads[me] == s.threads[me]))
  }

  /** How far the deactivation of `m` has come before step `k`. */
  ghost predicate Progress(t: Topology, s: State, m: ModuleId, k: nat) {
    && m in t.mods && m in s.mods
    && s.mods[m].configured.None?
    && (forall j | 0 <= j < k && j < |t.mods[m].subs| ::
          t.mods[m].subs[j] in s.mgrs && s.mgrs[t.mods[m].subs[j]].rr.None?)
    && (k > |t.mods[m].subs| ==> s.mods[m].handles == [])
  }

  lemma TaskIsOf(t: Topology, m: ModuleId, k: nat)
    requires Layered(t) && m in t.mods && k < Tasks(t.mods[m])
    ensures TaskOf(t, m, TaskAt(t.mods[m], k))
  {
  }

  lemma {:induction false} UnloadKeeps(t: Topology, s: State, c: ManagerId, me: ThreadId,
                                       q: set<RegionId>, p: set<ManagerId>, tidy: bool := true)
    requires Valid(t) && During(t, s, q, p, tidy) && c in t.mgrs && me < |s.threads|
    requires s.mgrs[c].rr.Some? ==> s.mgrs[c].rr.value in q
    requires Above(t, p, t.depth[c])
    ensures var o := Unload(t, s, c, me);
      Kept(t, s, o, me, q, p, tidy)
      && (o.Done? ==> o.state.mgrs[c].current.None? && o.state.mgrs[c].rr == s.mgrs[c].rr
                      && SameAbove(t, s, o.state, t.depth[c], {c}))
    decreases t.depth[c], 1, 0
  {
    hide Typed, ThreadsOk, HandlesOk, Counted, Exclusive, FlagsOk, CallsBound, Matching, LoadsOk, Tidy, Roots,
         DecoupledOk, Stationed, Leftovers, SettledPart, SplitPart, PathOk, Valid, CanDecouple, Shrinks, SameReconf;
    LayeredOf(t);
    KeysOf(t, s);
    ShrinksSelf(s);
    if s.mgrs[c].current.Some? && s.mgrs[c].rr.Some? {
      var m, r := s.mgrs[c].current.value, s.mgrs[c].rr.value;
      HomeOf(t, s, c);
      if s.regions[r].count == 0 && CanDecouple(t, s, m, r) {
        UnloadKeepsLoaded(t, s, c, me, m, r, q, p, tidy);
      }
    }
  }

  lemma ReconfTrans(a: State, b: State, c: State)
    requires SameReconf(a, b) && SameReconf(b, c)
    ensures SameReconf(a, c)
  {
  }

  lemma ShrinksThreads(s: State, n: State)
    requires Shrinks(s, n)
    ensures |n.threads| == |s.threads|
  {
  }

  lemma ShrinksSelf(s: State)
    ensures Shrinks(s, s) && SameReconf(s, s)
  {
  }

  lemma {:induction false} UnloadKeepsLoaded(t: Topology, s: State, c: ManagerId, me: ThreadId, m: ModuleId, r: RegionId,
                                             q: set<RegionId>, p: set<ManagerId>, tidy: bool := true)
    requires Valid(t) && During(t, s, q, p, tidy) && c in t.mgrs && me < |s.threads|
    requires s.mgrs[c] == Manager(Some(m), Some(r)) && r in q && Above(t, p, t.depth[c])
    requires s.regions[r].count == 0 && m in t.mods && CanDecouple(t, s, m, r)
    ensures var o := Unload(t, s, c, me);
      Kept(t, s, o, me, q, p, tidy)
      && (o.Done? ==> o.state.mgrs[c].current.None? && o.state.mgrs[c].rr == s.mgrs[c].rr
                      && SameAbove(t, s, o.state, t.depth[c], {c}))
    decreases t.depth[c], 0, |t.mods[m].subs| + |t.mods[m].nested| + 2
  {
    hide Typed, ThreadsOk, HandlesOk, Counted, Exclusive, FlagsOk, CallsBound, Matching, LoadsOk, Tidy, Roots,
         DecoupledOk, Stationed, Leftovers, SettledPart, SplitPart, PathOk, Valid, CanDecouple, Layered;
    LayeredOf(t);
    KeysOf(t, s);
    HomeOf(t, s, c);
    DecoupleKeeps(t, s, m, r, q, p, tidy);
    var n := Decouple(t, s, m, r);
    DeactivateKeeps(t, n, m, r, 0, me, q, p + {c}, tidy);
    var o := Deactivate(t, n, m, 0, me);
    assert Unload(t, s, c, me) == (match o case Failed => Failed case Aborted(x) => Aborted(x)
                                   case Done(x) => Done(SetCurrent(x, c, None)));
    if o.Done? {
      Emptied(t, s, n, o.state, m, r, q, p, tidy);
    }
  }

  lemma Emptied(t: Topology, s: State, n: State, n1: State, m: ModuleId, r: RegionId,
                q: set<RegionId>, p: set<ManagerId>, tidy: bool := true)
    requires Opened(t, n1, m, r, q) && TakenApart(t, n1, m) && t.mods[m].home !in p
    requires During(t, n1, q, p + {t.mods[m].home}, tidy)
    requires Shrinks(s, n) && SameReconf(s, n) && Shrinks(n, n1) && SameReconf(n, n1)
    ensures var e := SetCurrent(n1, t.mods[m].home, None);
      During(t, e, q, p, tidy) && Shrinks(s, e) && SameReconf(s, e)
  {
    hide Typed, ThreadsOk, HandlesOk, Counted, Exclusive, FlagsOk, CallsBound, Matching, LoadsOk, Tidy, Roots,
         DecoupledOk, Stationed, Leftovers, SettledPart, SplitPart, PathOk, TakenApart, Shrinks;
    var c := t.mods[m].home;
    ShrinksTrans(s, n, n1);
    EmptyKeeps(t, n1, m, r, q, p + {c}, tidy);
    assert p + {c} - {c} == p;
    ShrinksTrans(s, n1, SetCurrent(n1, c, None));
  }

  lemma LayeredOf(t: Topology)
    requires Valid(t)
    ensures Layered(t)
  {
  }

  lemma TypedOf(t: Topology, s: State)
    requires Inv(t, s) || Sound(t, s)
    ensures Typed(t, s)
  {
  }

  lemma KeysOf(t: Topology, s: State)
    requires Typed(t, s)
    ensures s.regions.Keys == t.root.Keys && s.mgrs.Keys == t.mgrs && s.mods.Keys == t.mods.Keys
    ensures forall c <- s.mgrs | s.mgrs[c].rr.Some? :: s.mgrs[c].rr.value in t.root
  {
  }

  lemma HomeOf(t: Topology, s: State, c: ManagerId)
    requires Typed(t, s) && c in s.mgrs && s.mgrs[c].current.Some?
    ensures s.mgrs[c].current.value in t.mods && t.mods[s.mgrs[c].current.value].home == c
  {
  }

  lemma {:induction false} DeactivateKeeps(t: Topology, s: State, m: ModuleId, r: RegionId, k: nat, me: ThreadId,
                                           q: set<RegionId>, p: set<ManagerId>, tidy: bool := true)
    requires Layered(t) && Typed(t, s) && me < |s.threads|
    requires Opened(t, s, m, r, q) && k <= Tasks(t.mods[m]) && Progress(t, s, m, k)
    requires t.mods[m].home in p && forall c <- p :: c in t.depth && t.depth[c] >= t.depth[t.mods[m].home]
    requires Valid(t) && During(t, s, q, p, tidy)
    ensures var o := Deactivate(t, s, m, k, me);
      Kept(t, s, o, me, q, p, tidy)
      && (o.Done? ==> Opened(t, o.state, m, r, q) && TakenApart(t, o.state, m)
                      && SameAbove(t, s, o.state, t.depth[t.mods[m].home], {}))
    decreases t.depth[t.mods[m].home], 0, Tasks(t.mods[m]) - k
  {
    hide Typed, ThreadsOk, HandlesOk, Counted, Exclusive, FlagsOk, CallsBound, Matching, LoadsOk, Tidy, Roots,
         DecoupledOk, Stationed, Leftovers, SettledPart, SplitPart, PathOk, Valid, Layered, Shrinks, SameReconf,
         Opened, Progress, TakenApart, SameAbove;
    ShrinksSelf(s);
    OpenedIn(t, s, m, r, q);
    AboveSelf(t, s, t.depth[t.mods[m].home]);
    if k == Tasks(t.mods[m]) {
      AllDone(t, s, m);
    } else {
      TaskIsOf(t, m, k);
      StepKeeps(t, s, m, r, k, me, q, p, tidy);
      var o := Step(t, s, m, TaskAt(t.mods[m], k), me);
      if o.Done? {
        ShrinksThreads(s, o.state);
        DeactivateKeeps(t, o.state, m, r, k + 1, me, q, p, tidy);
        var o1 := Deactivate(t, o.state, m, k + 1, me);
        if o1.Done? {
          ShrinksTrans(s, o.state, o1.state);
          ReconfTrans(s, o.state, o1.state);
          AboveTrans(t, s, o.state, o1.state, t.depth[t.mods[m].home]);
        }
      }
    }
  }

  lemma AllDone(t: Topology, s: State, m: ModuleId)
    requires m in t.mods && Progress(t, s, m, Tasks(t.mods[m]))
    ensures TakenApart(t, s, m)
  {
  }

  lemma AboveSelf(t: Topology, s: State, h: nat)
    ensures SameAbove(t, s, s, h, {})
  {
  }

  lemma AboveTrans(t: Topology, a: State, b: State, c: State, h: nat)
    requires SameAbove(t, a, b, h, {}) && SameAbove(t, b, c, h, {})
    ensures SameAbove(t, a, c, h, {})
  {
  }

  /** Any one step of the deactivation. */
  lemma {:induction false} StepKeeps(t: Topology, s: State, m: ModuleId, r: RegionId, k: nat, me: ThreadId,
                                     q: set<RegionId>, p: set<ManagerId>, tidy: bool := true)
    requires Valid(t) && During(t, s, q, p, tidy) && me < |s.threads|
    requires Opened(t, s, m, r, q) && k < Tasks(t.mods[m]) && Progress(t, s, m, k)
    requires t.mods[m].home in p && forall c <- p :: c in t.depth && t.depth[c] >= t.depth[t.mods[m].home]
    requires TaskOf(t, m, TaskAt(t.mods[m], k))
    ensures var o := Step(t, s, m, TaskAt(t.mods[m], k), me);
      Kept(t, s, o, me, q, p, tidy)
      && (o.Done? ==> Opened(t, o.state, m, r, q) && Progress(t, o.state, m, k + 1)
                      && SameAbove(t, s, o.state, t.depth[t.mods[m].home], {}))
    decreases t.depth[t.mods[m].home], 0, 0
  {
    hide Typed, ThreadsOk, HandlesOk, Counted, Exclusive, FlagsOk, CallsBound, Matching, LoadsOk, Tidy, Roots,
         DecoupledOk, Stationed, Leftovers, SettledPart, SplitPart, PathOk, Valid;
    LayeredOf(t);
    match TaskAt(t.mods[m], k)
    case DropSub(c) => DropSubKeeps(t, s, m, r, k, me, q, p, tidy);
    case Kill => KillStepKeeps(t, s, m, r, me, q, p, tidy);
    case DropNested(w) => NestedKeeps(t, s, m, r, w, me, q, p, tidy);
  }

  lemma {:induction false} DropSubKeeps(t: Topology, s: State, m: ModuleId, r: RegionId, k: nat, me: ThreadId,
                                        q: set<RegionId>, p: set<ManagerId>, tidy: bool := true)
    requires Valid(t) && During(t, s, q, p, tidy) && me < |s.threads|
    requires Opened(t, s, m, r, q) && k < |t.mods[m].subs| && Progress(t, s, m, k)
    requires t.mods[m].home in p && forall c <- p :: c in t.depth && t.depth[c] >= t.depth[t.mods[m].home]
    requires TaskOf(t, m, DropSub(t.mods[m].subs[k]))
    ensures var o := Step(t, s, m, DropSub(t.mods[m].subs[k]), me);
      Kept(t, s, o, me, q, p, tidy)
      && (o.Done? ==> Opened(t, o.state, m, r, q) && Progress(t, o.state, m, k + 1)
                      && SameAbove(t, s, o.state, t.depth[t.mods[m].home], {}))
    decreases t.depth[t.mods[m].subs[k]], 2, 0
  {
    hide Typed, ThreadsOk, HandlesOk, Counted, Exclusive, FlagsOk, CallsBound, Matching, LoadsOk, Tidy, Roots,
         DecoupledOk, Stationed, Leftovers, SettledPart, SplitPart, PathOk, Valid, Layered, Opened, Progress, SameAbove,
         Shrinks, SameReconf, Unload;
    LayeredOf(t);
    OpenedIn(t, s, m, r, q);
    var c := t.mods[m].subs[k];
    SubRegion(t, s, m, r, k, q);
    SubReady(t, s, m, r, k, p, q);
    UnloadKeeps(t, s, c, me, q, p, tidy);
    var o := Unload(t, s, c, me);
    if o.Done? {
      KeysOf(t, o.state);
      AfterSub(t, s, o.state, m, r, k, q);
      DropKeeps(t, o.state, m, k, q, p, tidy);
      AfterDrop(t, s, o.state, m, r, k, q);
    }
  }

  lemma OpenedIn(t: Topology, s: State, m: ModuleId, r: RegionId, q: set<RegionId>)
    requires Opened(t, s, m, r, q)
    ensures m in t.mods && m in s.mods
  {
  }

  lemma SubReady(t: Topology, s: State, m: ModuleId, r: RegionId, k: nat, p: set<ManagerId>, q: set<RegionId>)
    requires Opened(t, s, m, r, q) && k < |t.mods[m].subs| && TaskOf(t, m, DropSub(t.mods[m].subs[k]))
    requires forall c <- p :: c in t.depth && t.depth[c] >= t.depth[t.mods[m].home]
    ensures r in q && t.mods[m].subs[k] in t.mgrs && t.mods[m].subs[k] in t.depth && Above(t, p, t.depth[t.mods[m].subs[k]])
  {
  }

  /** The emptied sub-manager can be disconnected, because the pointer it is given is the cleared one. */
  lemma AfterSub(t: Topology, s: State, n: State, m: ModuleId, r: RegionId, k: nat, q: set<RegionId>)
    requires Opened(t, s, m, r, q) && k < |t.mods[m].subs| && Progress(t, s, m, k) && Shrinks(s, n)
    requires TaskOf(t, m, DropSub(t.mods[m].subs[k])) && t.mods[m].subs[k] in s.mgrs && t.mods[m].subs[k] in n.mgrs
    requires var c := t.mods[m].subs[k]; n.mgrs[c] == Manager(None, s.mgrs[c].rr) && SameAbove(t, s, n, t.depth[c], {c})
    requires s.mgrs[t.mods[m].subs[k]].rr.Some? ==> s.mgrs[t.mods[m].subs[k]].rr == Some(r)
    ensures Droppable(t, n, m, k) && m in n.mods && n.mods[m].configured.None?
    ensures var c := t.mods[m].subs[k]; n.mgrs[c].rr.Some? ==> n.mgrs[c].rr.value in n.regions && n.regions[n.mgrs[c].rr.value].count == 0
  {
  }

  lemma AfterDrop(t: Topology, s: State, n: State, m: ModuleId, r: RegionId, k: nat, q: set<RegionId>)
    requires Opened(t, s, m, r, q) && k < |t.mods[m].subs| && Progress(t, s, m, k) && Shrinks(s, n) && SameReconf(s, n)
    requires TaskOf(t, m, DropSub(t.mods[m].subs[k])) && t.mods[m].subs[k] in n.mgrs
    requires var c := t.mods[m].subs[k]; SameAbove(t, s, n, t.depth[c], {c})
    requires var e := SetRr(n, t.mods[m].subs[k], None); Shrinks(n, e) && SameReconf(n, e)
    ensures var e := SetRr(n, t.mods[m].subs[k], None);
      && Opened(t, e, m, r, q) && Progress(t, e, m, k + 1) && SameAbove(t, s, e, t.depth[t.mods[m].home], {})
      && Shrinks(s, e) && SameReconf(s, e)
  {
    ShrinksTrans(s, n, SetRr(n, t.mods[m].subs[k], None));
  }

  /** A connected sub-manager of `m` is connected to the region `m` is loaded on. */
  lemma SubRegion(t: Topology, s: State, m: ModuleId, r: RegionId, k: nat, q: set<RegionId>)
    requires Valid(t) && Typed(t, s) && Stationed(t, s) && Opened(t, s, m, r, q) && k < |t.mods[m].subs|
    ensures t.mods[m].subs[k] in s.mgrs && (s.mgrs[t.mods[m].subs[k]].rr.Some? ==> s.mgrs[t.mods[m].subs[k]].rr == Some(r))
  {
    hide Valid;
    KeysOf(t, s);
    SubOfIs(t, m, k);
    var c := t.mods[m].subs[k];
    if s.mgrs[c].rr.Some? {
      SubBelongs(t, c, m, r);
      BelongsOnce(t, c, r, s.mgrs[c].rr.value);
    }
  }

  lemma KillStepKeeps(t: Topology, s: State, m: ModuleId, r: RegionId, me: ThreadId,
                      q: set<RegionId>, p: set<ManagerId>, tidy: bool := true)
    requires Layered(t) && Typed(t, s) && me < |s.threads|
    requires Opened(t, s, m, r, q) && Progress(t, s, m, |t.mods[m].subs|) && t.mods[m].home in p && t.mods[m].home in t.depth
    requires TaskOf(t, m, Kill)
    requires Valid(t) && During(t, s, q, p, tidy)
    ensures var o := Step(t, s, m, Kill, me);
      Kept(t, s, o, me, q, p, tidy)
      && (o.Done? ==> Opened(t, o.state, m, r, q) && Progress(t, o.state, m, |t.mods[m].subs| + 1)
                      && SameAbove(t, s, o.state, t.depth[t.mods[m].home], {}))
  {
    hide Typed, Counted, Exclusive, FlagsOk, CallsBound, Matching, LoadsOk, Tidy, Roots,
         DecoupledOk, Stationed, Leftovers, SettledPart, SplitPart, PathOk, Layered;
    var hs := s.mods[m].handles;
    KillFromKeeps(t, s, hs, me, q, p, tidy);
    var o := KillFrom(s, hs, me);
    if o.Done? {
      assert NoProcess(o.state, m) by {
        forall i | 0 <= i < |o.state.threads| && o.state.threads[i].owner == Some(m) ensures !o.state.threads[i].alive {
          if i in hs { assert exists j :: 0 <= j < |hs| && hs[j] == i; }
        }
      }
      ClearKeeps(t, o.state, m, r, q, p, tidy);
      ShrinksTrans(s, o.state, SetHandles(o.state, m, []));
    } else {
      HalfWay(t, o.state, q, p, tidy);
    }
  }

  lemma {:induction false} NestedKeeps(t: Topology, s: State, m: ModuleId, r: RegionId, w: RegionId, me: ThreadId,
                                       q: set<RegionId>, p: set<ManagerId>, tidy: bool := true)
    requires Opened(t, s, m, r, q) && Progress(t, s, m, |t.mods[m].subs| + 1) && me < |s.threads|
    requires TaskOf(t, m, DropNested(w)) && t.mods[m].home in p
    requires forall c <- p :: c in t.depth && t.depth[c] >= t.depth[t.mods[m].home]
    requires Layered(t) && Typed(t, s) && Valid(t) && During(t, s, q, p, tidy)
    ensures var o := UnloadModule(t, s, t.root[w], w, me);
      Kept(t, s, o, me, q, p, tidy)
      && (o.Done? ==> Opened(t, o.state, m, r, q) && Progress(t, o.state, m, Tasks(t.mods[m]))
                      && SameAbove(t, s, o.state, t.depth[t.mods[m].home], {}))
    decreases t.depth[t.root[w]], 3, 0
  {
    hide Typed, ThreadsOk, HandlesOk, Counted, Exclusive, FlagsOk, CallsBound, Matching, LoadsOk, Tidy, Roots,
         DecoupledOk, Stationed, Leftovers, SettledPart, SplitPart, PathOk, Valid, Layered,
         Shrinks, SameAbove, Opened, Progress, SameReconf;
    LayeredOf(t);
    RootOf(t, s, w);
    UnloadModuleKeeps(t, s, t.root[w], w, me, q, p, tidy);
    var o := UnloadModule(t, s, t.root[w], w, me);
    if o.Done? { AfterNested(t, s, o.state, m, r, t.root[w], q); }
  }

  /** Emptying a nested region leaves the module being deactivated as it is. */
  lemma AfterNested(t: Topology, s: State, n: State, m: ModuleId, r: RegionId, c: ManagerId, q: set<RegionId>)
    requires Opened(t, s, m, r, q) && Progress(t, s, m, |t.mods[m].subs| + 1)
    requires Shrinks(s, n) && c in t.depth && t.mods[m].home in t.depth && t.depth[c] < t.depth[t.mods[m].home]
    requires SameAbove(t, s, n, t.depth[c], {c})
    ensures Opened(t, n, m, r, q) && Progress(t, n, m, Tasks(t.mods[m]))
    ensures SameAbove(t, s, n, t.depth[t.mods[m].home], {})
  {
  }

  lemma RootOf(t: Topology, s: State, r: RegionId)
    requires Roots(t, s) && r in t.root
    ensures t.root[r] in s.mgrs && s.mgrs[t.root[r]].rr == Some(r)
  {
  }

  /** `unload_module`: the region is marked, emptied and unmarked. */
  lemma {:induction false} UnloadModuleKeeps(t: Topology, s: State, c: ManagerId, r: RegionId, me: ThreadId,
                                             q: set<RegionId>, p: set<ManagerId>, tidy: bool := true)
    requires Valid(t) && During(t, s, q, p, tidy) && c in t.mgrs && r in t.root && me < |s.threads|
    requires c in s.mgrs && s.mgrs[c].rr == Some(r) && Above(t, p, t.depth[c])
    ensures var o := UnloadModule(t, s, c, r, me);
      Kept(t, s, o, me, q, p, tidy)
      && (o.Done? ==> o.state.mgrs[c].current.None? && SameAbove(t, s, o.state, t.depth[c], {c}))
    decreases t.depth[c], 2, 0
  {
    hide Typed, ThreadsOk, HandlesOk, Counted, Exclusive, FlagsOk, CallsBound, Matching, LoadsOk, Tidy, Roots,
         DecoupledOk, Stationed, Leftovers, SettledPart, SplitPart, PathOk, Valid, Layered;
    LayeredOf(t);
    KeysOf(t, s);
    if !s.regions[r].reconf {
      var s1 := SetReconf(s, r, true);
      MarkKeeps(t, s, r, true, q, q + {r}, p, tidy);
      UnloadKeeps(t, s1, c, me, q + {r}, p, tidy);
      var o := Unload(t, s1, c, me);
      if o.Done? {
        Unmark(t, s, s1, o.state, r, q, p, tidy);
      }
    }
  }

  lemma Unmark(t: Topology, s: State, s1: State, n: State, r: RegionId, q: set<RegionId>, p: set<ManagerId>, tidy: bool := true)
    requires During(t, s, q, p, tidy) && During(t, n, q + {r}, p, tidy)
    requires r in s.regions && !s.regions[r].reconf && s1 == SetReconf(s, r, true)
    requires Shrinks(s1, n) && SameReconf(s1, n)
    ensures During(t, SetReconf(n, r, false), q, p, tidy)
    ensures Shrinks(s, SetReconf(n, r, false)) && SameReconf(s, SetReconf(n, r, false))
  {
    hide Typed, ThreadsOk, HandlesOk, Counted, Exclusive, FlagsOk, CallsBound, Matching, LoadsOk, Tidy, Roots,
         DecoupledOk, Stationed, Leftovers, SettledPart, SplitPart, PathOk, Shrinks, SameReconf;
    UnmarkReady(s, s1, n, r, q, p);
    assert q + {r} - {r} == q;
    MarkKeeps(t, n, r, false, q + {r}, q, p, tidy);
    UnmarkShrinks(s, s1, n, r);
  }

  lemma UnmarkReady(s: State, s1: State, n: State, r: RegionId, q: set<RegionId>, p: set<ManagerId>)
    requires PathOk(s, q, p) && FlagsOk(s) && r in s.regions && !s.regions[r].reconf
    requires s1 == SetReconf(s, r, true) && Shrinks(s1, n) && SameReconf(s1, n)
    ensures r !in q && r in n.regions && n.regions[r].reconf && !n.regions[r].blocked
    ensures forall c <- p | c in n.mgrs :: n.mgrs[c].rr != Some(r)
  {
  }

  lemma UnmarkShrinks(s: State, s1: State, n: State, r: RegionId)
    requires r in s.regions && !s.regions[r].reconf && s1 == SetReconf(s, r, true) && r in n.regions
    requires Shrinks(s1, n) && SameReconf(s1, n)
    ensures Shrinks(s, SetReconf(n, r, false)) && SameReconf(s, SetReconf(n, r, false))
  {
  }
}
