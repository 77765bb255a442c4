/** An abstract machine with one slot per manager, and the slots of a state of the protocol. */
module Slots {
  import opened Model
  import opened Teardown
  import opened Invariants
  import opened Effects
  import opened UnloadSafety
  import opened Protocol
  import opened Closure
  import opened Exactness

  // ---- the abstract machine ----------------------------------------------------------------

  /** A slot is empty, being loaded by a live process (of module `who`, or of the static part), loaded,
      or broken: it holds a module that is not active and that nobody is loading. */
  datatype Slot = Empty | Loading(mod: ModuleId, who: Option<ModuleId>) | Loaded(mod: ModuleId) | Broken(mod: ModuleId)

  type Slots = map<ManagerId, Slot>

  ghost predicate Holds(a: Slots, c: ManagerId, x: ModuleId) {
    c in a && !a[c].Empty? && a[c].mod == x
  }

  /** Module `x` is in the active subtree of manager `c`: its own slot holds it, and that slot is
      `c` or belongs to a module of the active subtree. */
  ghost predicate Active(t: Topology, a: Slots, x: ModuleId, c: ManagerId)
    decreases if x in t.mods && t.mods[x].home in t.depth && c in t.depth && t.depth[t.mods[x].home] < t.depth[c]
      then t.depth[c] - t.depth[t.mods[x].home] else 0
  {
    && x in t.mods && Holds(a, t.mods[x].home, x)
    && (t.mods[x].home == c
        || (t.mods[x].home in t.depth && c in t.depth && t.depth[t.mods[x].home] < t.depth[c]
            && exists y :: OwnedBy(t, t.mods[x].home, y) && Active(t, a, y, c)))
  }

  datatype Change =
    | Stay
    | Release(c: ManagerId)                                       // an unload empties the active subtree
    | Take(c: ManagerId, m: ModuleId, who: Option<ModuleId>)       // a configure empties it and starts loading
    | Fill(c: ManagerId, m: ModuleId, who: Option<ModuleId>)       // a nested preload starts loading into an empty slot
    | Settle(c: ManagerId, m: ModuleId)                           // the load has coupled and activated the module
    | Place(c: ManagerId, m: ModuleId)                            // a preload before simulation
    | Break(c: ManagerId, x: ModuleId)                            // an unload by a process of `x` that killed itself

  /** The whole active subtree of `c` is loaded. */
  ghost predicate Whole(t: Topology, a: Slots, c: ManagerId) {
    forall x | Active(t, a, x, c) :: t.mods[x].home in a && a[t.mods[x].home] == Loaded(x)
  }

  /** The slot `d` when the modules `gone` have been taken out and the processes of `slain` killed. */
  ghost function Without(slot: Slot, gone: iset<ModuleId>, slain: iset<ModuleId>): Slot {
    if slot.Empty? || slot.mod in gone then Empty
    else if slot.Loading? && slot.who.Some? && slot.who.value in slain then Broken(slot.mod)
    else slot
  }

  ghost function Below(t: Topology, a: Slots, c: ManagerId): iset<ModuleId> {
    iset x | Active(t, a, x, c)
  }

  /** `b` is `a` with exactly the slots of the active subtree of `c` emptied, and the loads by processes
      of that subtree broken. */
  ghost predicate Cleared(t: Topology, a: Slots, b: Slots, c: ManagerId) {
    b.Keys == a.Keys && forall d <- a :: b[d] == Without(a[d], Below(t, a, c), Below(t, a, c))
  }

  // ---- an unload cut short, on slots -----------------------------------------------------------

  /** Module `y` lies on the way from manager `c` down to module `x`. */
  ghost predicate Leads(t: Topology, a: Slots, y: ModuleId, c: ManagerId, x: ModuleId) {
    Active(t, a, y, c) && Active(t, a, x, t.mods[y].home)
  }

  /** The way to `x` leaves `y` in step `k` of its deactivation, or `x` is `y` and step `k` kills. */
  ghost predicate Turns(t: Topology, a: Slots, y: ModuleId, k: nat, x: ModuleId) {
    && y in t.mods && k < Tasks(t.mods[y])
    && var d := Child(t, TaskAt(t.mods[y], k));
      if d.Some? then Active(t, a, x, d.value) else x == y
  }

  ghost predicate Within(t: Topology, a: Slots, y: ModuleId, j: nat, z: ModuleId) {
    && y in t.mods && j < Tasks(t.mods[y])
    && Child(t, TaskAt(t.mods[y], j)).Some? && Active(t, a, z, Child(t, TaskAt(t.mods[y], j)).value)
  }

  /** Module `z` is unloaded before the walk from `c` reaches `x`: it lies below a manager that a module
      on the way drops before the step in which the way goes on. */
  ghost predicate Ahead(t: Topology, a: Slots, z: ModuleId, c: ManagerId, x: ModuleId) {
    exists y, j: nat, k: nat :: j < k && Leads(t, a, y, c, x) && Turns(t, a, y, k, x) && Within(t, a, y, j, z)
  }

  /** All processes of `z` are killed before the walk from `c` reaches those of `x`: it is unloaded, or it
      is on the way and its own kill step comes before the one in which the way goes on. */
  ghost predicate Slain(t: Topology, a: Slots, z: ModuleId, c: ManagerId, x: ModuleId) {
    Ahead(t, a, z, c, x)
    || (Leads(t, a, z, c, x) && exists k: nat :: |t.mods[z].subs| < k && Turns(t, a, z, k, x))
  }

  ghost function AllAhead(t: Topology, a: Slots, c: ManagerId, x: ModuleId): iset<ModuleId> {
    iset z | Ahead(t, a, z, c, x)
  }

  ghost function AllSlain(t: Topology, a: Slots, c: ManagerId, x: ModuleId): iset<ModuleId> {
    iset z | Slain(t, a, z, c, x)
  }

  /** What is left of a slot: on the way it is broken, otherwise the modules `gone` have been taken out and
      the loads of `slain` ended, and those by processes of `x` may have. */
  ghost predicate LeftOver(a: Slot, b: Slot, onWay: bool, gone: iset<ModuleId>, slain: iset<ModuleId>, x: ModuleId) {
    if onWay then !a.Empty? && b == Broken(a.mod)
    else
      var left := Without(a, gone, slain);
      b == left || (left.Loading? && left.who == Some(x) && b == Broken(left.mod))
  }

  /** What an unload of `c` leaves that a process of `x` executes: what lies ahead of `x` is empty, what
      lies on the way is broken, loads by the slain are broken, loads by processes of `x` itself are
      broken or still going on, and everything else is as before. */
  ghost predicate Broke(t: Topology, a: Slots, b: Slots, c: ManagerId, x: ModuleId) {
    && b.Keys == a.Keys
    && forall d <- a ::
         LeftOver(a[d], b[d], !a[d].Empty? && Leads(t, a, a[d].mod, c, x) && !Ahead(t, a, a[d].mod, c, x),
                  AllAhead(t, a, c, x), AllSlain(t, a, c, x), x)
  }

  ghost predicate Changes(t: Topology, a: Slots, b: Slots, g: Change) {
    match g
    case Stay => b == a
    case Release(c) => Whole(t, a, c) && Cleared(t, a, b, c)
    case Take(c, m, who) =>
      c in a && !Holds(a, c, m) && Whole(t, a, c) && exists e :: Cleared(t, a, e, c) && b == e[c := Loading(m, who)]
    case Fill(c, m, who) => c in a && a[c].Empty? && b == a[c := Loading(m, who)]
    case Settle(c, m) => c in a && a[c].Loading? && a[c].mod == m && b == a[c := Loaded(m)]
    case Place(c, m) => c in a && a[c].Empty? && b == a[c := Loaded(m)]
    case Break(c, x) => Active(t, a, x, c) && Broke(t, a, b, c, x)
  }

  // ---- the abstraction -----------------------------------------------------------------------

  /** The module whose process is loading for manager `c`. */
  function Loader(threads: seq<Thread>, c: ManagerId): Option<ModuleId> {
    if threads == [] then None
    else
      var th := threads[|threads| - 1];
      if InStack(th.stack, LoadBy(c)) > 0 then th.owner else Loader(threads[..|threads| - 1], c)
  }

  /** The slot of manager `c` as its pointers show it.  A module without processes, such as a split
      manager, counts as loaded from its coupling on, although its load is in progress and its region
      blocked for a while longer. */
  ghost function SlotOf(t: Topology, s: State, c: ManagerId): Slot
    requires c in s.mgrs
  {
    if s.mgrs[c].current.None? then Empty
    else
      var m := s.mgrs[c].current.value;
      if s.mgrs[c].rr.Some? && Settled(t, s, m, s.mgrs[c].rr.value) then Loaded(m)
      else if Tally(s.threads, LoadBy(c)) > 0 then Loading(m, Loader(s.threads, c))
      else Broken(m)
  }

  ghost function Abs(t: Topology, s: State): Slots {
    map c <- s.mgrs :: SlotOf(t, s, c)
  }

  lemma AbsKeys(t: Topology, s: State)
    ensures Abs(t, s).Keys == s.mgrs.Keys
  {
  }

  // ---- who loads -------------------------------------------------------------------------------

  /** The same processes load for the same managers. */
  ghost predicate SameLoaders(was: seq<Thread>, threads: seq<Thread>) {
    forall c: ManagerId :: Tally(threads, LoadBy(c)) == Tally(was, LoadBy(c)) && Loader(threads, c) == Loader(was, c)
  }

  lemma SameSlots(t: Topology, s: State, n: State)
    requires n.mgrs == s.mgrs && n.mods == s.mods && SameLoaders(s.threads, n.threads)
    ensures Abs(t, n) == Abs(t, s)
  {
    forall c <- s.mgrs ensures SlotOf(t, n, c) == SlotOf(t, s, c) {}
  }

  lemma {:induction false} LoaderUpdate(threads: seq<Thread>, i: nat, th: Thread, c: ManagerId)
    requires i < |threads| && th.owner == threads[i].owner
    requires InStack(th.stack, LoadBy(c)) == InStack(threads[i].stack, LoadBy(c))
    ensures Loader(threads[i := th], c) == Loader(threads, c)
  {
    var n := |threads| - 1;
    if i == n {
      assert threads[i := th][..n] == threads[..n];
    } else {
      LoaderUpdate(threads[..n], i, th, c);
      assert threads[i := th][..n] == threads[..n][i := th];
    }
  }

  lemma UpdateSame(threads: seq<Thread>, i: nat, th: Thread)
    requires i < |threads| && th.owner == threads[i].owner
    requires forall c: ManagerId :: InStack(th.stack, LoadBy(c)) == InStack(threads[i].stack, LoadBy(c))
    ensures SameLoaders(threads, threads[i := th])
  {
    forall c: ManagerId
      ensures Tally(threads[i := th], LoadBy(c)) == Tally(threads, LoadBy(c)) && Loader(threads[i := th], c) == Loader(threads, c)
    {
      TallyUpdate(threads, i, th, LoadBy(c));
      LoaderUpdate(threads, i, th, c);
    }
  }

  lemma {:induction false} SpawnSame(threads: seq<Thread>, m: ModuleId, n: nat)
    ensures SameLoaders(threads, threads + Spawned(m, n))
  {
    if n == 0 {
      assert threads + Spawned(m, 0) == threads;
    } else {
      SpawnSame(threads, m, n - 1);
      var th := Thread(Some(m), true, []);
      assert threads + Spawned(m, n) == (threads + Spawned(m, n - 1)) + [th];
      forall c: ManagerId
        ensures Tally(threads + Spawned(m, n), LoadBy(c)) == Tally(threads, LoadBy(c))
             && Loader(threads + Spawned(m, n), c) == Loader(threads, c)
      {
        TallyAppend(threads + Spawned(m, n - 1), th, LoadBy(c));
        assert (threads + Spawned(m, n))[..|threads + Spawned(m, n - 1)|] == threads + Spawned(m, n - 1);
      }
    }
  }

  /** With one load for `c`, the loader is the owner of the thread that has it. */
  lemma {:induction false} LoaderIs(threads: seq<Thread>, i: nat, c: ManagerId)
    requires i < |threads| && InStack(threads[i].stack, LoadBy(c)) > 0 && Tally(threads, LoadBy(c)) <= 1
    ensures Loader(threads, c) == threads[i].owner
  {
    var n := |threads| - 1;
    if i < n {
      TallyThread(threads[..n], i, LoadBy(c));
      LoaderIs(threads[..n], i, c);
    }
  }

  // ---- the two descriptions of the active subtree agree -----------------------------------------

  lemma HoldsIff(t: Topology, s: State, c: ManagerId, x: ModuleId)
    ensures Holds(Abs(t, s), c, x) <==> c in s.mgrs && s.mgrs[c].current == Some(x)
  {
  }

  lemma {:induction false} ActiveUp(t: Topology, a: Slots, x: ModuleId, d: ManagerId, m: ModuleId)
    requires Layered(t) && Active(t, a, x, d) && OwnedBy(t, d, m) && Holds(a, t.mods[m].home, m)
    ensures Active(t, a, x, t.mods[m].home)
    decreases if x in t.mods && t.mods[x].home in t.depth && d in t.depth && t.depth[t.mods[x].home] < t.depth[d]
      then t.depth[d] - t.depth[t.mods[x].home] else 0
  {
    hide Layered;
    if t.mods[x].home == d {
      assert Active(t, a, m, t.mods[m].home);
    } else {
      var y :| OwnedBy(t, t.mods[x].home, y) && Active(t, a, y, d);
      ActiveUp(t, a, y, d, m);
    }
  }

  lemma {:induction false} ModsActive(t: Topology, s: State, c: ManagerId, x: ModuleId)
    requires Layered(t) && Typed(t, s) && c in t.mgrs && x in Mods(t, s, c)
    ensures Active(t, Abs(t, s), x, c)
    decreases t.depth[c], 1, 0
  {
    hide Layered, Typed, Abs;
    KeysOf(t, s);
    HomeOf(t, s, c);
    var m := s.mgrs[c].current.value;
    HoldsIff(t, s, c, m);
    if x != m {
      var d := ModsFromActive(t, s, m, 0, x);
      ActiveUp(t, Abs(t, s), x, d, m);
    }
  }

  lemma {:induction false} ModsFromActive(t: Topology, s: State, m: ModuleId, k: nat, x: ModuleId) returns (d: ManagerId)
    requires Layered(t) && Typed(t, s) && m in t.mods && k <= Tasks(t.mods[m]) && x in ModsFrom(t, s, m, k)
    ensures Active(t, Abs(t, s), x, d) && OwnedBy(t, d, m)
    decreases t.depth[t.mods[m].home], 0, Tasks(t.mods[m]) - k
  {
    hide Layered, Typed, Abs;
    ChildOwned(t, m, k);
    TaskIsOf(t, m, k);
    var c := Child(t, TaskAt(t.mods[m], k));
    if c.Some? && x in Mods(t, s, c.value) {
      ModsActive(t, s, c.value, x);
      d := c.value;
    } else {
      d := ModsFromActive(t, s, m, k + 1, x);
    }
  }

  /** The active subtree is closed: it contains what the managers of its modules hold. */
  lemma {:induction false} ModsClosed(t: Topology, s: State, c: ManagerId, y: ModuleId, d: ManagerId, x: ModuleId)
    requires Layered(t) && Typed(t, s) && c in t.mgrs && y in Mods(t, s, c)
    requires OwnedBy(t, d, y) && d in s.mgrs && s.mgrs[d].current == Some(x)
    ensures x in Mods(t, s, c)
    decreases t.depth[c], 1, 0
  {
    hide Layered, Typed;
    KeysOf(t, s);
    HomeOf(t, s, c);
    ModsClosedFrom(t, s, s.mgrs[c].current.value, 0, y, d, x);
  }

  lemma {:induction false} ModsClosedFrom(t: Topology, s: State, m: ModuleId, k: nat, y: ModuleId, d: ManagerId, x: ModuleId)
    requires Layered(t) && Typed(t, s) && m in t.mods && k <= Tasks(t.mods[m])
    requires OwnedBy(t, d, y) && d in s.mgrs && s.mgrs[d].current == Some(x)
    requires y in ModsFrom(t, s, m, k) || (y == m && exists j :: k <= j < Tasks(t.mods[m]) && Child(t, TaskAt(t.mods[m], j)) == Some(d))
                                       || (y == m && k == 0)
    ensures x in ModsFrom(t, s, m, k)
    decreases t.depth[t.mods[m].home], 0, Tasks(t.mods[m]) - k
  {
    hide Layered, Typed;
    KeysOf(t, s);
    if k == 0 && y == m { ChildIndex(t, m, d); }
    ChildOwned(t, m, k);
    TaskIsOf(t, m, k);
    var c := Child(t, TaskAt(t.mods[m], k));
    if c.Some? && y in Mods(t, s, c.value) {
      ModsClosed(t, s, c.value, y, d, x);
    } else if c == Some(d) && y == m {
    } else {
      ModsClosedFrom(t, s, m, k + 1, y, d, x);
    }
  }

  lemma ChildIndex(t: Topology, m: ModuleId, d: ManagerId)
    requires OwnedBy(t, d, m)
    ensures exists j :: 0 <= j < Tasks(t.mods[m]) && Child(t, TaskAt(t.mods[m], j)) == Some(d)
  {
    var sh := t.mods[m];
    if d in sh.subs {
      var i :| 0 <= i < |sh.subs| && sh.subs[i] == d;
      assert TaskAt(sh, i) == DropSub(d);
    } else {
      var r :| r in sh.nested && r in t.root && t.root[r] == d;
      var i :| 0 <= i < |sh.nested| && sh.nested[i] == r;
      assert TaskAt(sh, |sh.subs| + 1 + i) == DropNested(r);
    }
  }

  lemma {:induction false} ActiveMods(t: Topology, s: State, x: ModuleId, c: ManagerId)
    requires Layered(t) && Typed(t, s) && c in t.mgrs && Active(t, Abs(t, s), x, c)
    ensures x in Mods(t, s, c)
    decreases if x in t.mods && t.mods[x].home in t.depth && c in t.depth && t.depth[t.mods[x].home] < t.depth[c]
      then t.depth[c] - t.depth[t.mods[x].home] else 0
  {
    hide Layered, Typed, Abs;
    KeysOf(t, s);
    HoldsIff(t, s, t.mods[x].home, x);
    if t.mods[x].home != c {
      var y :| OwnedBy(t, t.mods[x].home, y) && Active(t, Abs(t, s), y, c);
      ActiveMods(t, s, y, c);
      ModsClosed(t, s, c, y, t.mods[x].home, x);
    }
  }

  /** Walking down from `c` as `nc_deactivate` does reaches exactly the active subtree. */
  lemma ModsAreActive(t: Topology, s: State, c: ManagerId, x: ModuleId)
    requires Layered(t) && Typed(t, s) && c in t.mgrs
    ensures x in Mods(t, s, c) <==> Active(t, Abs(t, s), x, c)
  {
    if x in Mods(t, s, c) { ModsActive(t, s, c, x); }
    if Active(t, Abs(t, s), x, c) { ActiveMods(t, s, x, c); }
  }

  /** Sub-managers of modules that were taken out were in the active subtree themselves. */
  lemma SubsTaken(t: Topology, s: State, c: ManagerId, d: ManagerId)
    requires Layered(t) && Typed(t, s) && c in t.mgrs && d in Subs(t, Mods(t, s, c))
    requires d in s.mgrs && s.mgrs[d].current.Some?
    ensures s.mgrs[d].current.value in Mods(t, s, c)
  {
    hide Layered, Typed, Mods;
    var y :| y in Mods(t, s, c) && y in t.mods && d in t.mods[y].subs;
    SubOwned(t, y, d);
    ModsClosed(t, s, c, y, d, s.mgrs[d].current.value);
  }

  lemma SubOwned(t: Topology, y: ModuleId, d: ManagerId)
    requires Layered(t) && y in t.mods && d in t.mods[y].subs
    ensures OwnedBy(t, d, y)
  {
  }
}
