/** When exactly a recursive unload succeeds, and exactly what it leaves behind. */
module Closure {
  import opened Model
  import opened Teardown
  import opened Invariants
  import opened Effects
  import opened UnloadSafety

  // ---- the containment tree --------------------------------------------------------------

  /** Manager `c` belongs to module `m`: as one of its sub-managers or through a nested region. */
  ghost predicate OwnedBy(t: Topology, c: ManagerId, m: ModuleId) {
    && m in t.mods && Inside(t, c, m)
    && (c in t.mods[m].subs || exists r :: r in t.mods[m].nested && r in t.root && t.root[r] == c)
  }

  lemma OneOwner(t: Topology, c: ManagerId, m: ModuleId, n: ModuleId)
    requires Valid(t) && OwnedBy(t, c, m) && OwnedBy(t, c, n)
    ensures m == n
  {
  }

  /** Manager `d` is `c` or inside a module that can be loaded somewhere below `c`. */
  ghost predicate Under(t: Topology, d: ManagerId, c: ManagerId)
    decreases if d in t.depth && c in t.depth && t.depth[d] < t.depth[c] then t.depth[c] - t.depth[d] else 0
  {
    d == c
    || (d in t.depth && c in t.depth && t.depth[d] < t.depth[c]
        && exists m :: OwnedBy(t, d, m) && Under(t, t.mods[m].home, c))
  }

  lemma {:induction false} UnderTrans(t: Topology, d: ManagerId, c: ManagerId, m: ModuleId)
    requires OwnedBy(t, c, m) && Under(t, d, c)
    ensures Under(t, d, t.mods[m].home)
    decreases if d in t.depth && c in t.depth && t.depth[d] < t.depth[c] then t.depth[c] - t.depth[d] else 0
  {
    if d != c {
      var n :| OwnedBy(t, d, n) && Under(t, t.mods[n].home, c);
      UnderTrans(t, t.mods[n].home, c, m);
    }
  }

  /** The subtrees of two managers of one module are disjoint. */
  lemma {:induction false} Siblings(t: Topology, d: ManagerId, a: ManagerId, b: ManagerId, m: ModuleId)
    requires Valid(t) && OwnedBy(t, a, m) && OwnedBy(t, b, m) && a != b && Under(t, d, a)
    ensures !Under(t, d, b)
    decreases if d in t.depth && a in t.depth && t.depth[d] < t.depth[a] then t.depth[a] - t.depth[d] else 0
  {
    hide Valid;
    if Under(t, d, b) {
      if d == b {
        var n :| OwnedBy(t, d, n) && Under(t, t.mods[n].home, a);
        OneOwner(t, b, m, n);
      } else {
        var k :| OwnedBy(t, d, k) && Under(t, t.mods[k].home, b);
        if d == a {
          OneOwner(t, a, m, k);
        } else {
          var n :| OwnedBy(t, d, n) && Under(t, t.mods[n].home, a);
          OneOwner(t, d, k, n);
          Siblings(t, t.mods[n].home, a, b, m);
        }
      }
    }
  }

  /** The manager a step of the deactivation works on. */
  function Child(t: Topology, task: Task): Option<ManagerId> {
    match task
    case DropSub(c) => Some(c)
    case Kill => None
    case DropNested(r) => if r in t.root then Some(t.root[r]) else None
  }

  lemma ChildOwned(t: Topology, m: ModuleId, k: nat)
    requires Layered(t) && m in t.mods && k < Tasks(t.mods[m])
    ensures var c := Child(t, TaskAt(t.mods[m], k)); c.Some? ==> OwnedBy(t, c.value, m) && c.value in t.mgrs
  {
    TaskIsOf(t, m, k);
  }

  lemma ChildrenDiffer(t: Topology, m: ModuleId, k: nat, j: nat)
    requires Valid(t) && m in t.mods && k < j < Tasks(t.mods[m])
    ensures var c, d := Child(t, TaskAt(t.mods[m], k)), Child(t, TaskAt(t.mods[m], j));
      c.Some? && d.Some? ==> c != d
  {
    ChildOwned(t, m, k);
    ChildOwned(t, m, j);
  }

  // ---- the active subtree ------------------------------------------------------------------

  /** The modules loaded at or below manager `c`. */
  ghost function Mods(t: Topology, s: State, c: ManagerId): set<ModuleId>
    requires Layered(t) && Typed(t, s) && c in t.mgrs
    decreases t.depth[c], 1, 0
  {
    if s.mgrs[c].current.None? then {}
    else {s.mgrs[c].current.value} + ModsFrom(t, s, s.mgrs[c].current.value, 0)
  }

  ghost function ModsFrom(t: Topology, s: State, m: ModuleId, k: nat): set<ModuleId>
    requires Layered(t) && Typed(t, s) && m in t.mods && k <= Tasks(t.mods[m])
    decreases t.depth[t.mods[m].home], 0, Tasks(t.mods[m]) - k
  {
    if k == Tasks(t.mods[m]) then {}
    else
      TaskIsOf(t, m, k);
      var c := Child(t, TaskAt(t.mods[m], k));
      (if c.Some? then Mods(t, s, c.value) else {}) + ModsFrom(t, s, m, k + 1)
  }

  /** The threads when the processes of the modules in `dead` have been killed. */
  function Masked(threads: seq<Thread>, dead: set<ModuleId>): seq<Thread> {
    seq(|threads|, i requires 0 <= i < |threads| =>
      if threads[i].owner.Some? && threads[i].owner.value in dead then Dead(threads[i]) else threads[i])
  }

  /** The condition for success, read off the state before the unload: going through the
      active subtree in order, no nested region is being reconfigured, no region with a loaded
      module has a lock left once the processes of the modules visited before are gone (`dead`),
      and the executing process `me` belongs to none of the modules. */
  ghost predicate Clear(t: Topology, s: State, c: ManagerId, dead: set<ModuleId>, me: ThreadId)
    requires Layered(t) && Typed(t, s) && c in t.mgrs && me < |s.threads|
    decreases t.depth[c], 1, 0
  {
    s.mgrs[c].current.Some? ==>
      && s.mgrs[c].rr.Some?
      && Tally(Masked(s.threads, dead), LockOn(s.mgrs[c].rr.value)) == 0
      && ClearFrom(t, s, s.mgrs[c].current.value, 0, dead, me)
  }

  ghost predicate ClearFrom(t: Topology, s: State, m: ModuleId, k: nat, dead: set<ModuleId>, me: ThreadId)
    requires Layered(t) && Typed(t, s) && m in t.mods && k <= Tasks(t.mods[m]) && me < |s.threads|
    decreases t.depth[t.mods[m].home], 0, Tasks(t.mods[m]) - k
  {
    k == Tasks(t.mods[m])
    || (TaskIsOf(t, m, k);
        match TaskAt(t.mods[m], k)
        case DropSub(c) => Clear(t, s, c, dead, me) && ClearFrom(t, s, m, k + 1, dead + Mods(t, s, c), me)
        case Kill => s.threads[me].owner != Some(m) && ClearFrom(t, s, m, k + 1, dead + {m}, me)
        case DropNested(r) =>
          && !s.regions[r].reconf
          && Clear(t, s, t.root[r], dead, me)
          && ClearFrom(t, s, m, k + 1, dead + Mods(t, s, t.root[r]), me))
  }

  // ---- what an unload leaves behind ----------------------------------------------------------

  /** The sub-managers of the modules in `ms`. */
  ghost predicate SubOf(t: Topology, ms: set<ModuleId>, d: ManagerId) {
    exists m :: m in ms && m in t.mods && d in t.mods[m].subs
  }

  /** Adapter `k` belongs to an output of one of the modules `ms` in state `s`. */
  ghost predicate OutOf(t: Topology, s: State, k: (RegionId, MemberId), ms: set<ModuleId>) {
    k in s.bound && s.bound[k] in ms && k.1 in t.outs
  }

  /** `n` is `s` after the modules `ms` have been taken out, the processes of `ks` killed and
      the sub-managers `ds` disconnected; no other pointer, handle, flag of an adapter or thread has
      changed. */
  ghost predicate Taken(t: Topology, s: State, n: State, ms: set<ModuleId>, ks: set<ModuleId>, ds: iset<ManagerId>) {
    n.threads == Masked(s.threads, ks) && TakenPointers(s, n, ms, ks, ds) && TakenBindings(t, s, n, ms)
  }

  ghost predicate TakenPointers(s: State, n: State, ms: set<ModuleId>, ks: set<ModuleId>, ds: iset<ManagerId>) {
    && n.mods.Keys == s.mods.Keys && n.mgrs.Keys == s.mgrs.Keys
    && (forall m <- s.mods :: n.mods[m] == if m in ms then Module(None, [])
                                           else if m in ks then Module(s.mods[m].configured, []) else s.mods[m])
    && (forall d <- s.mgrs :: n.mgrs[d] == Manager(
          if s.mgrs[d].current.Some? && s.mgrs[d].current.value in ms then None else s.mgrs[d].current,
          if d in ds then None else s.mgrs[d].rr))
  }

  ghost predicate TakenBindings(t: Topology, s: State, n: State, ms: set<ModuleId>) {
    && (forall k :: k in n.bound <==> k in s.bound && s.bound[k] !in ms)
    && (forall k <- n.bound :: n.bound[k] == s.bound[k])
    && (forall k :: k in n.decoupled <==> k in s.decoupled || OutOf(t, s, k, ms))
  }

  ghost function Subs(t: Topology, ms: set<ModuleId>): iset<ManagerId> {
    iset d | SubOf(t, ms, d)
  }

  lemma MaskTwice(threads: seq<Thread>, a: set<ModuleId>, b: set<ModuleId>)
    ensures Masked(Masked(threads, a), b) == Masked(threads, a + b)
  {
  }

  lemma MaskNone(threads: seq<Thread>)
    ensures Masked(threads, {}) == threads
  {
  }

  lemma TakenTwice(t: Topology, s: State, n: State, e: State,
                   m1: set<ModuleId>, k1: set<ModuleId>, d1: iset<ManagerId>,
                   m2: set<ModuleId>, k2: set<ModuleId>, d2: iset<ManagerId>)
    requires Taken(t, s, n, m1, k1, d1) && Taken(t, n, e, m2, k2, d2)
    ensures Taken(t, s, e, m1 + m2, k1 + k2, d1 + d2)
  {
    hide TakenPointers, TakenBindings;
    MaskTwice(s.threads, k1, k2);
    PointersTwice(s, n, e, m1, k1, d1, m2, k2, d2);
    BindingsTwice(t, s, n, e, m1, m2);
  }

  lemma PointersTwice(s: State, n: State, e: State, m1: set<ModuleId>, k1: set<ModuleId>, d1: iset<ManagerId>,
                      m2: set<ModuleId>, k2: set<ModuleId>, d2: iset<ManagerId>)
    requires TakenPointers(s, n, m1, k1, d1) && TakenPointers(n, e, m2, k2, d2)
    ensures TakenPointers(s, e, m1 + m2, k1 + k2, d1 + d2)
  {
  }

  lemma BindingsTwice(t: Topology, s: State, n: State, e: State, m1: set<ModuleId>, m2: set<ModuleId>)
    requires TakenBindings(t, s, n, m1) && TakenBindings(t, n, e, m2)
    ensures TakenBindings(t, s, e, m1 + m2)
  {
  }

  // ---- the active subtree lies inside the containment subtree ----------------------------------

  lemma {:induction false} ModsUnder(t: Topology, s: State, c: ManagerId, x: ModuleId)
    requires Layered(t) && Typed(t, s) && c in t.mgrs && x in Mods(t, s, c)
    ensures x in t.mods && t.mods[x].home in s.mgrs && s.mgrs[t.mods[x].home].current == Some(x)
    ensures Under(t, t.mods[x].home, c)
    decreases t.depth[c], 1, 0
  {
    hide Layered, Typed, Under;
    KeysOf(t, s);
    HomeOf(t, s, c);
    UnderSelf(t, c);
    var m := s.mgrs[c].current.value;
    if x != m {
      var d := ModsFromUnder(t, s, m, 0, x);
      UnderTrans(t, t.mods[x].home, d, m);
    }
  }

  lemma UnderSelf(t: Topology, c: ManagerId)
    ensures Under(t, c, c)
  {
  }

  lemma {:induction false} ModsFromUnder(t: Topology, s: State, m: ModuleId, k: nat, x: ModuleId) returns (d: ManagerId)
    requires Layered(t) && Typed(t, s) && m in t.mods && k <= Tasks(t.mods[m]) && x in ModsFrom(t, s, m, k)
    ensures x in t.mods && t.mods[x].home in s.mgrs && s.mgrs[t.mods[x].home].current == Some(x)
    ensures Under(t, t.mods[x].home, d) && OwnedBy(t, d, m)
    ensures exists j :: k <= j < Tasks(t.mods[m]) && Child(t, TaskAt(t.mods[m], j)) == Some(d)
    decreases t.depth[t.mods[m].home], 0, Tasks(t.mods[m]) - k
  {
    hide Layered, Typed, Under;
    ChildOwned(t, m, k);
    TaskIsOf(t, m, k);
    var c := Child(t, TaskAt(t.mods[m], k));
    if c.Some? && x in Mods(t, s, c.value) {
      ModsUnder(t, s, c.value, x);
      d := c.value;
    } else {
      d := ModsFromUnder(t, s, m, k + 1, x);
    }
  }

  /** Two states agree on everything below `c` that decides an unload. */
  ghost predicate Agree(t: Topology, s: State, n: State, c: ManagerId) {
    && n.mgrs.Keys == s.mgrs.Keys && n.regions.Keys == s.regions.Keys
    && (forall d <- s.mgrs | Under(t, d, c) :: n.mgrs[d] == s.mgrs[d])
    && (forall r <- s.regions | r in t.root && t.root[r] != c && Under(t, t.root[r], c) ::
          n.regions[r].reconf == s.regions[r].reconf)
  }

  ghost predicate AgreeFrom(t: Topology, s: State, n: State, m: ModuleId, k: nat)
    requires m in t.mods
  {
    forall j | k <= j < Tasks(t.mods[m]) :: AgreeTask(t, s, n, TaskAt(t.mods[m], j))
  }

  ghost predicate AgreeTask(t: Topology, s: State, n: State, task: Task) {
    match task
    case DropSub(c) => Agree(t, s, n, c)
    case Kill => true
    case DropNested(r) => r in t.root ==> Agree(t, s, n, t.root[r]) && (r in s.regions ==> SameMark(s, n, r))
  }

  ghost predicate SameMark(s: State, n: State, r: RegionId) {
    r in s.regions && r in n.regions && n.regions[r].reconf == s.regions[r].reconf
  }

  lemma AgreeDown(t: Topology, s: State, n: State, c: ManagerId, m: ModuleId)
    requires Layered(t) && m in t.mods && t.mods[m].home == c && Agree(t, s, n, c)
    ensures AgreeFrom(t, s, n, m, 0)
  {
    hide Layered;
    forall j | 0 <= j < Tasks(t.mods[m]) ensures AgreeTask(t, s, n, TaskAt(t.mods[m], j)) {
      ChildOwned(t, m, j);
      var d := Child(t, TaskAt(t.mods[m], j));
      if d.Some? { AgreeChild(t, s, n, c, m, d.value); }
    }
  }

  lemma AgreeChild(t: Topology, s: State, n: State, c: ManagerId, m: ModuleId, d: ManagerId)
    requires OwnedBy(t, d, m) && t.mods[m].home == c && Agree(t, s, n, c)
    ensures Agree(t, s, n, d)
    ensures forall r <- s.regions | r in t.root && t.root[r] == d :: SameMark(s, n, r)
  {
    UnderSelf(t, d);
    forall e | Under(t, e, d) ensures Under(t, e, c) && e != c {
      UnderTrans(t, e, d, m);
      UnderLower(t, e, d);
    }
  }

  lemma {:induction false} UnderLower(t: Topology, e: ManagerId, d: ManagerId)
    requires Under(t, e, d) && d in t.depth
    ensures e in t.depth && t.depth[e] <= t.depth[d]
  {
  }

  lemma {:induction false} ModsAgree(t: Topology, s: State, n: State, c: ManagerId)
    requires Layered(t) && Typed(t, s) && Typed(t, n) && c in t.mgrs && Agree(t, s, n, c)
    ensures Mods(t, n, c) == Mods(t, s, c)
    decreases t.depth[c], 1, 0
  {
    hide Layered, Typed;
    KeysOf(t, s);
    assert n.mgrs[c] == s.mgrs[c] by { UnderSelf(t, c); }
    if s.mgrs[c].current.Some? {
      HomeOf(t, s, c);
      AgreeDown(t, s, n, c, s.mgrs[c].current.value);
      ModsFromAgree(t, s, n, s.mgrs[c].current.value, 0);
    }
  }

  lemma {:induction false} ModsFromAgree(t: Topology, s: State, n: State, m: ModuleId, k: nat)
    requires Layered(t) && Typed(t, s) && Typed(t, n) && m in t.mods && k <= Tasks(t.mods[m]) && AgreeFrom(t, s, n, m, k)
    ensures ModsFrom(t, n, m, k) == ModsFrom(t, s, m, k)
    decreases t.depth[t.mods[m].home], 0, Tasks(t.mods[m]) - k
  {
    hide Layered, Typed, Agree;
    if k < Tasks(t.mods[m]) {
      ChildOwned(t, m, k);
      TaskIsOf(t, m, k);
      var c := Child(t, TaskAt(t.mods[m], k));
      assert AgreeTask(t, s, n, TaskAt(t.mods[m], k));
      if c.Some? { ModsAgree(t, s, n, c.value); }
      ModsFromAgree(t, s, n, m, k + 1);
    }
  }

  /** The condition only looks at the subtree, and killed processes can be counted as dead. */
  lemma {:induction false} ClearAgree(t: Topology, s: State, n: State, c: ManagerId,
                                      gone: set<ModuleId>, dead: set<ModuleId>, me: ThreadId)
    requires Layered(t) && Typed(t, s) && Typed(t, n) && c in t.mgrs && me < |s.threads|
    requires Agree(t, s, n, c) && n.threads == Masked(s.threads, gone)
    ensures Clear(t, n, c, dead, me) == Clear(t, s, c, gone + dead, me)
    decreases t.depth[c], 1, 0
  {
    hide Layered, Typed;
    KeysOf(t, s);
    assert n.mgrs[c] == s.mgrs[c] by { UnderSelf(t, c); }
    MaskTwice(s.threads, gone, dead);
    if s.mgrs[c].current.Some? {
      HomeOf(t, s, c);
      AgreeDown(t, s, n, c, s.mgrs[c].current.value);
      ClearFromAgree(t, s, n, s.mgrs[c].current.value, 0, gone, dead, me);
    }
  }

  lemma {:induction false} ClearFromAgree(t: Topology, s: State, n: State, m: ModuleId, k: nat,
                                          gone: set<ModuleId>, dead: set<ModuleId>, me: ThreadId)
    requires Layered(t) && Typed(t, s) && Typed(t, n) && m in t.mods && k <= Tasks(t.mods[m]) && me < |s.threads|
    requires AgreeFrom(t, s, n, m, k) && n.threads == Masked(s.threads, gone)
    ensures ClearFrom(t, n, m, k, dead, me) == ClearFrom(t, s, m, k, gone + dead, me)
    decreases t.depth[t.mods[m].home], 0, Tasks(t.mods[m]) - k
  {
    hide Layered, Typed, Agree;
    KeysOf(t, s);
    if k < Tasks(t.mods[m]) {
      ChildOwned(t, m, k);
      TaskIsOf(t, m, k);
      match TaskAt(t.mods[m], k)
      case DropSub(c) =>
        assert AgreeTask(t, s, n, TaskAt(t.mods[m], k));
        ModsAgree(t, s, n, c);
        ClearAgree(t, s, n, c, gone, dead, me);
        ClearFromAgree(t, s, n, m, k + 1, gone, dead + Mods(t, s, c), me);
        assert gone + (dead + Mods(t, s, c)) == (gone + dead) + Mods(t, s, c);
      case Kill =>
        ClearFromAgree(t, s, n, m, k + 1, gone, dead + {m}, me);
        assert gone + (dead + {m}) == (gone + dead) + {m};
      case DropNested(r) =>
        var c := t.root[r];
        assert AgreeTask(t, s, n, TaskAt(t.mods[m], k));
        ModsAgree(t, s, n, c);
        ClearAgree(t, s, n, c, gone, dead, me);
        ClearFromAgree(t, s, n, m, k + 1, gone, dead + Mods(t, s, c), me);
        assert gone + (dead + Mods(t, s, c)) == (gone + dead) + Mods(t, s, c);
    }
  }
}
