/** What an unload that is cut short leaves in the slots: the walk of the recursive deactivation, read as
    an order on the active subtree. */
module Wreckage {
  import opened Model
  import opened Teardown
  import opened Invariants
  import opened Effects
  import opened UnloadSafety
  import opened Protocol
  import opened LoadEffects
  import opened Steps
  import opened Safety
  import opened Closure
  import opened Exactness
  import opened Guarantees
  import opened Interruption
  import opened Orphans
  import opened Slots

  // ---- loads that end with their process ---------------------------------------------------------

  /** A manager has at most one load in progress. */
  lemma LoadByOne(t: Topology, s: State, c: ManagerId)
    requires LoadsOk(t, s) && Exclusive(s)
    ensures Tally(s.threads, LoadBy(c)) <= 1
  {
    if Tally(s.threads, LoadBy(c)) > 0 {
      var i, a := TallyWitness(s.threads, LoadBy(c));
      var f := s.threads[i].stack[a];
      assert LoadOk(t, s, f);
      LoadsOfManager(t, s, c, f.rr);
      ByIsOnAll(s.threads, c, f.rr);
    }
  }

  lemma {:induction false} ByIsOnAll(threads: seq<Thread>, c: ManagerId, r: RegionId)
    requires forall i, a | 0 <= i < |threads| && 0 <= a < |threads[i].stack| && threads[i].stack[a].Load?
                           && threads[i].stack[a].mgr == c :: threads[i].stack[a].rr == r
    ensures Tally(threads, LoadBy(c)) <= Tally(threads, LoadOn(r))
  {
    if threads != [] {
      ByIsOnAll(threads[..|threads| - 1], c, r);
      ByIsOn(threads[|threads| - 1].stack, c, r);
    }
  }

  /** The one load for `c` goes on exactly if its thread is spared. */
  lemma PrunedLoader(was: seq<Thread>, threads: seq<Thread>, c: ManagerId) returns (i: nat)
    requires Pruned(was, threads) && Tally(was, LoadBy(c)) == 1
    ensures i < |was| && Loader(was, c) == was[i].owner && was[i].stack != []
    ensures if threads[i] == was[i] then Tally(threads, LoadBy(c)) == 1 && Loader(threads, c) == was[i].owner
            else Tally(threads, LoadBy(c)) == 0
  {
    var a;
    i, a := TallyWitness(was, LoadBy(c));
    InStackMember(was[i].stack, a, LoadBy(c));
    LoaderIs(was, i, c);
    PrunedTally(was, threads, LoadBy(c));
    if threads[i] == was[i] {
      TallyThread(threads, i, LoadBy(c));
      LoaderIs(threads, i, c);
    } else {
      PrunedLoad(was, threads, i, LoadBy(c));
    }
  }

  lemma MaskedLoader(threads: seq<Thread>, ks: set<ModuleId>, c: ManagerId)
    requires Tally(threads, LoadBy(c)) <= 1
    ensures var now, o := Tally(Masked(threads, ks), LoadBy(c)), Loader(threads, c);
      && (now > 0 <==> Tally(threads, LoadBy(c)) > 0 && !(o.Some? && o.value in ks))
      && (now > 0 ==> Loader(Masked(threads, ks), c) == o)
  {
    PrunedTally(threads, Masked(threads, ks), LoadBy(c));
    if Tally(threads, LoadBy(c)) > 0 {
      var i := PrunedLoader(threads, Masked(threads, ks), c);
      assert Masked(threads, ks)[i] == if threads[i].owner.Some? && threads[i].owner.value in ks then Dead(threads[i]) else threads[i];
    }
  }

  // ---- the way down ----------------------------------------------------------------------------------

  lemma {:induction false} ActiveTrans(t: Topology, a: Slots, x: ModuleId, y: ModuleId, c: ManagerId)
    requires Active(t, a, y, c) && Active(t, a, x, t.mods[y].home)
    ensures Active(t, a, x, c)
    decreases if x in t.mods && t.mods[x].home in t.depth && t.mods[y].home in t.depth && t.depth[t.mods[x].home] < t.depth[t.mods[y].home]
      then t.depth[t.mods[y].home] - t.depth[t.mods[x].home] else 0
  {
    if t.mods[x].home != t.mods[y].home {
      var z :| OwnedBy(t, t.mods[x].home, z) && Active(t, a, z, t.mods[y].home);
      ActiveTrans(t, a, z, y, c);
    }
  }

  lemma WithinIs(t: Topology, s: State, m: ModuleId, j: nat, z: ModuleId)
    requires Layered(t) && Typed(t, s) && m in t.mods && j < Tasks(t.mods[m])
    ensures var d := Child(t, TaskAt(t.mods[m], j));
      && (d.Some? ==> d.value in t.mgrs)
      && (Within(t, Abs(t, s), m, j, z) <==> d.Some? && z in Mods(t, s, d.value))
      && (Turns(t, Abs(t, s), m, j, z) <==> if d.Some? then z in Mods(t, s, d.value) else z == m)
  {
    hide Layered, Typed, Abs, Active, Mods;
    ChildOwned(t, m, j);
    var d := Child(t, TaskAt(t.mods[m], j));
    if d.Some? { ModsAreActive(t, s, d.value, z); }
  }

  lemma {:induction false} Pieces(t: Topology, s: State, m: ModuleId, k: nat, z: ModuleId)
    requires Layered(t) && Typed(t, s) && m in t.mods && k <= Tasks(t.mods[m])
    ensures z in ModsFrom(t, s, m, k) <==> exists j: nat :: k <= j && Within(t, Abs(t, s), m, j, z)
    decreases Tasks(t.mods[m]) - k
  {
    hide Layered, Typed, Abs, Active;
    if k < Tasks(t.mods[m]) {
      ChildOwned(t, m, k);
      WithinIs(t, s, m, k, z);
      Pieces(t, s, m, k + 1, z);
    }
  }

  /** A kill step is the only one without a manager. */
  lemma KillStep(t: Topology, m: ModuleId, k: nat)
    requires Layered(t) && m in t.mods && k < Tasks(t.mods[m])
    ensures Child(t, TaskAt(t.mods[m], k)).None? <==> k == |t.mods[m].subs|
  {
    TaskIsOf(t, m, k);
  }

  /** The way leaves a module in one step. */
  lemma TurnsOnce(t: Topology, s: State, m: ModuleId, j: nat, k: nat, x: ModuleId)
    requires Valid(t) && Layered(t) && Typed(t, s) && Turns(t, Abs(t, s), m, j, x) && Turns(t, Abs(t, s), m, k, x)
    ensures j == k
  {
    hide Valid, Layered, Typed, Abs, Active, Mods;
    KillStep(t, m, j);
    KillStep(t, m, k);
    WithinIs(t, s, m, j, x);
    WithinIs(t, s, m, k, x);
    if j < k { TurnsOrdered(t, s, m, j, k, x); }
    if k < j { TurnsOrdered(t, s, m, k, j, x); }
  }

  lemma TurnsOrdered(t: Topology, s: State, m: ModuleId, j: nat, k: nat, x: ModuleId)
    requires Valid(t) && Layered(t) && Typed(t, s) && m in t.mods && j < k < Tasks(t.mods[m])
    ensures !(Turns(t, Abs(t, s), m, j, x) && Turns(t, Abs(t, s), m, k, x))
  {
    hide Valid, Layered, Typed, Abs, Active, Mods, Under, OwnedBy;
    KillStep(t, m, j);
    KillStep(t, m, k);
    WithinIs(t, s, m, j, x);
    WithinIs(t, s, m, k, x);
    ChildOwned(t, m, j);
    ChildOwned(t, m, k);
    ChildrenDiffer(t, m, j, k);
    if Turns(t, Abs(t, s), m, j, x) && Turns(t, Abs(t, s), m, k, x) {
      var c, d := Child(t, TaskAt(t.mods[m], j)), Child(t, TaskAt(t.mods[m], k));
      if c.Some? { ModsUnder(t, s, c.value, x); }
      if d.Some? { ModsUnder(t, s, d.value, x); }
      if c.None? {
        NotOwnBelow(t, d.value, m);
      } else if d.None? {
        NotOwnBelow(t, c.value, m);
      } else {
        Siblings(t, t.mods[x].home, c.value, d.value, m);
      }
    }
  }

  lemma NotOwnBelow(t: Topology, d: ManagerId, m: ModuleId)
    requires OwnedBy(t, d, m)
    ensures !Under(t, t.mods[m].home, d)
  {
    if Under(t, t.mods[m].home, d) { UnderLower(t, t.mods[m].home, d); }
  }

  /** The walk through the steps before the one in which the way goes on. */
  lemma {:induction false} WalkTo(t: Topology, s: State, m: ModuleId, k: nat, e: nat, x: ModuleId)
    requires Valid(t) && Layered(t) && Typed(t, s) && m in t.mods && k <= e < Tasks(t.mods[m]) && Turns(t, Abs(t, s), m, e, x)
    ensures var w, v := WalkFrom(t, s, m, k, x), WalkFrom(t, s, m, e, x);
      && w.path == v.path
      && (forall z :: z in w.gone <==> z in v.gone || exists j: nat :: k <= j < e && Within(t, Abs(t, s), m, j, z))
      && (forall z :: z in w.slain <==> z in v.slain || (z == m && k <= |t.mods[m].subs| < e)
                                        || exists j: nat :: k <= j < e && Within(t, Abs(t, s), m, j, z))
    decreases e - k
  {
    hide Valid, Layered, Typed, Abs, Active, Turns, Within;
    if k < e {
      if Turns(t, Abs(t, s), m, k, x) { TurnsOnce(t, s, m, k, e, x); }
      WalkTo(t, s, m, k + 1, e, x);
      WalkOver(t, s, m, k, x);
    }
  }

  /** One step of the walk that the way does not take. */
  lemma WalkOver(t: Topology, s: State, m: ModuleId, k: nat, x: ModuleId)
    requires Layered(t) && Typed(t, s) && m in t.mods && k < Tasks(t.mods[m]) && !Turns(t, Abs(t, s), m, k, x)
    ensures var w, v := WalkFrom(t, s, m, k, x), WalkFrom(t, s, m, k + 1, x);
      && w.path == v.path
      && (forall z :: z in w.gone <==> z in v.gone || Within(t, Abs(t, s), m, k, z))
      && (forall z :: z in w.slain <==> z in v.slain || (z == m && k == |t.mods[m].subs|) || Within(t, Abs(t, s), m, k, z))
  {
    hide Layered, Typed, Abs, Active, Turns, Within, Mods;
    KillStep(t, m, k);
    TaskIsOf(t, m, k);
    WithinIs(t, s, m, k, x);
    forall z ensures var d := Child(t, TaskAt(t.mods[m], k)); Within(t, Abs(t, s), m, k, z) <==> d.Some? && z in Mods(t, s, d.value) {
      WithinIs(t, s, m, k, z);
    }
  }

  /** The step in which the way goes on. */
  lemma WalkAt(t: Topology, s: State, m: ModuleId, e: nat, x: ModuleId)
    requires Layered(t) && Typed(t, s) && m in t.mods && e < Tasks(t.mods[m]) && Turns(t, Abs(t, s), m, e, x)
    ensures var v, d := WalkFrom(t, s, m, e, x), Child(t, TaskAt(t.mods[m], e));
      && (d.None? ==> v == NOTHING)
      && (d.Some? ==> d.value in t.mgrs && v.path == Walk(t, s, d.value, x).path
                      && v.gone == Walk(t, s, d.value, x).gone && v.slain == Walk(t, s, d.value, x).slain)
  {
    hide Layered, Typed, Abs, Active, Turns, Mods, Walk;
    KillStep(t, m, e);
    TaskIsOf(t, m, e);
    WithinIs(t, s, m, e, x);
  }

  // ---- the walk as an order ---------------------------------------------------------------------------

  /** Either the way starts with `y`, or `y` is on the rest of it. */
  lemma LeadsDown(t: Topology, s: State, c: ManagerId, m: ModuleId, e: nat, x: ModuleId, y: ModuleId)
    requires Valid(t) && Layered(t) && Typed(t, s) && c in t.mgrs && s.mgrs[c].current == Some(m) && m in t.mods && t.mods[m].home == c
    requires e < Tasks(t.mods[m]) && Turns(t, Abs(t, s), m, e, x) && Active(t, Abs(t, s), x, c)
    ensures var d := Child(t, TaskAt(t.mods[m], e));
      Leads(t, Abs(t, s), y, c, x) <==> y == m || (d.Some? && Leads(t, Abs(t, s), y, d.value, x))
  {
    hide Valid, Layered, Typed, Abs, Active, Mods, Turns, OwnedBy;
    var d, a := Child(t, TaskAt(t.mods[m], e)), Abs(t, s);
    KeysOf(t, s);
    HoldsIff(t, s, c, m);
    SelfActive(t, a, c, m);
    if y != m && Leads(t, a, y, c, x) {
      ModsAreActive(t, s, c, y);
      CurrentMods(t, s, c, m);
      Pieces(t, s, m, 0, y);
      var j: nat :| 0 <= j && Within(t, a, m, j, y);
      TurnsTo(t, s, m, j, y, x);
      TurnsOnce(t, s, m, j, e, x);
    }
    if d.Some? && Leads(t, a, y, d.value, x) {
      ChildOf(t, s, m, e, x);
      ActiveUp(t, a, y, d.value, m);
    }
  }

  lemma SelfActive(t: Topology, a: Slots, c: ManagerId, m: ModuleId)
    requires m in t.mods && t.mods[m].home == c && Holds(a, c, m)
    ensures Active(t, a, m, c)
  {
  }

  lemma CurrentMods(t: Topology, s: State, c: ManagerId, m: ModuleId)
    requires Layered(t) && Typed(t, s) && c in t.mgrs && c in s.mgrs && s.mgrs[c].current == Some(m)
    ensures m in t.mods && Mods(t, s, c) == {m} + ModsFrom(t, s, m, 0)
  {
    hide Layered;
  }

  lemma ChildOf(t: Topology, s: State, m: ModuleId, e: nat, x: ModuleId)
    requires Layered(t) && Turns(t, Abs(t, s), m, e, x)
    ensures var d := Child(t, TaskAt(t.mods[m], e)); d.Some? ==> OwnedBy(t, d.value, m) && d.value in t.mgrs
  {
    hide Layered;
    ChildOwned(t, m, e);
  }

  /** What is below a module in a step is in the step too. */
  lemma TurnsTo(t: Topology, s: State, m: ModuleId, j: nat, y: ModuleId, x: ModuleId)
    requires Within(t, Abs(t, s), m, j, y) && Active(t, Abs(t, s), x, t.mods[y].home)
    ensures Turns(t, Abs(t, s), m, j, x) && Active(t, Abs(t, s), y, Child(t, TaskAt(t.mods[m], j)).value)
  {
    ActiveTrans(t, Abs(t, s), x, y, Child(t, TaskAt(t.mods[m], j)).value);
  }

  lemma AheadDown(t: Topology, s: State, c: ManagerId, m: ModuleId, e: nat, x: ModuleId, z: ModuleId)
    requires Valid(t) && Layered(t) && Typed(t, s) && c in t.mgrs && s.mgrs[c].current == Some(m) && m in t.mods && t.mods[m].home == c
    requires e < Tasks(t.mods[m]) && Turns(t, Abs(t, s), m, e, x) && Active(t, Abs(t, s), x, c)
    ensures var d := Child(t, TaskAt(t.mods[m], e));
      Ahead(t, Abs(t, s), z, c, x)
      <==> (exists j: nat :: j < e && Within(t, Abs(t, s), m, j, z)) || (d.Some? && Ahead(t, Abs(t, s), z, d.value, x))
  {
    hide Valid, Layered, Typed, Abs, Active, Mods, Within, Turns, Leads;
    var d, a := Child(t, TaskAt(t.mods[m], e)), Abs(t, s);
    LeadsDown(t, s, c, m, e, x, m);
    if Ahead(t, a, z, c, x) {
      var y, j: nat, k: nat :| j < k && Leads(t, a, y, c, x) && Turns(t, a, y, k, x) && Within(t, a, y, j, z);
      LeadsDown(t, s, c, m, e, x, y);
      if y == m { TurnsOnce(t, s, m, k, e, x); }
    }
    if d.Some? && Ahead(t, a, z, d.value, x) {
      var y, j: nat, k: nat :| j < k && Leads(t, a, y, d.value, x) && Turns(t, a, y, k, x) && Within(t, a, y, j, z);
      LeadsDown(t, s, c, m, e, x, y);
    }
  }

  ghost predicate Spent(t: Topology, a: Slots, z: ModuleId, c: ManagerId, x: ModuleId) {
    Leads(t, a, z, c, x) && exists k: nat :: |t.mods[z].subs| < k && Turns(t, a, z, k, x)
  }

  lemma SpentDown(t: Topology, s: State, c: ManagerId, m: ModuleId, e: nat, x: ModuleId, z: ModuleId)
    requires Valid(t) && Layered(t) && Typed(t, s) && c in t.mgrs && s.mgrs[c].current == Some(m) && m in t.mods && t.mods[m].home == c
    requires e < Tasks(t.mods[m]) && Turns(t, Abs(t, s), m, e, x) && Active(t, Abs(t, s), x, c)
    ensures var d := Child(t, TaskAt(t.mods[m], e));
      Spent(t, Abs(t, s), z, c, x) <==> (z == m && |t.mods[m].subs| < e) || (d.Some? && Spent(t, Abs(t, s), z, d.value, x))
  {
    hide Valid, Layered, Typed, Abs, Active, Mods, Turns;
    var d, a := Child(t, TaskAt(t.mods[m], e)), Abs(t, s);
    LeadsDown(t, s, c, m, e, x, z);
    if Spent(t, a, m, c, x) {
      var k: nat :| |t.mods[m].subs| < k && Turns(t, a, m, k, x);
      TurnsOnce(t, s, m, k, e, x);
    }
    if d.Some? && Active(t, a, m, d.value) {
      ChildOf(t, s, m, e, x);
      NotBelowSelf(t, s, d.value, m);
    }
  }

  lemma NotBelowSelf(t: Topology, s: State, d: ManagerId, m: ModuleId)
    requires Layered(t) && Typed(t, s) && OwnedBy(t, d, m) && d in t.mgrs
    ensures !Active(t, Abs(t, s), m, d)
  {
    hide Layered, Typed, Abs, Active, Under, OwnedBy;
    if Active(t, Abs(t, s), m, d) {
      ActiveMods(t, s, m, d);
      ModsUnder(t, s, d, m);
      NotOwnBelow(t, d, m);
    }
  }

  /** What the walk takes out, breaks and kills, read as an order on the active subtree. */
  ghost predicate Ordered(t: Topology, s: State, c: ManagerId, x: ModuleId, w: Trace) {
    forall z ::
      && (z in w.path <==> Leads(t, Abs(t, s), z, c, x))
      && (z in w.gone <==> Ahead(t, Abs(t, s), z, c, x))
      && (z in w.slain <==> Ahead(t, Abs(t, s), z, c, x) || Spent(t, Abs(t, s), z, c, x))
  }

  lemma TurnOf(t: Topology, s: State, c: ManagerId, m: ModuleId, x: ModuleId) returns (e: nat)
    requires Layered(t) && Typed(t, s) && c in t.mgrs && c in s.mgrs && s.mgrs[c].current == Some(m) && x in Mods(t, s, c)
    ensures Turns(t, Abs(t, s), m, e, x)
  {
    hide Layered, Typed, Abs, Active, Mods;
    CurrentMods(t, s, c, m);
    e := |t.mods[m].subs|;
    KillStep(t, m, e);
    if x != m {
      Pieces(t, s, m, 0, x);
      e :| 0 <= e && Within(t, Abs(t, s), m, e, x);
    }
  }

  lemma WalkOrdered(t: Topology, s: State, c: ManagerId, m: ModuleId, e: nat, x: ModuleId)
    requires Valid(t) && Layered(t) && Typed(t, s) && c in t.mgrs && c in s.mgrs && s.mgrs[c].current == Some(m)
    requires m in t.mods && t.mods[m].home == c && Turns(t, Abs(t, s), m, e, x) && Active(t, Abs(t, s), x, c)
    requires var d := Child(t, TaskAt(t.mods[m], e));
      d.Some? && d.value in t.mgrs ==> Ordered(t, s, d.value, x, Walk(t, s, d.value, x))
    ensures Ordered(t, s, c, x, Walk(t, s, c, x))
  {
    hide Valid, Layered, Typed, Abs, Active, Within, Leads, Ahead, Spent, WalkFrom;
    WalkTo(t, s, m, 0, e, x);
    WalkAt(t, s, m, e, x);
    forall z
      ensures z in Walk(t, s, c, x).path <==> Leads(t, Abs(t, s), z, c, x)
      ensures z in Walk(t, s, c, x).gone <==> Ahead(t, Abs(t, s), z, c, x)
      ensures z in Walk(t, s, c, x).slain <==> Ahead(t, Abs(t, s), z, c, x) || Spent(t, Abs(t, s), z, c, x)
    {
      LeadsDown(t, s, c, m, e, x, z);
      AheadDown(t, s, c, m, e, x, z);
      SpentDown(t, s, c, m, e, x, z);
    }
  }

  /** The recursive deactivation visits the active subtree in this order. */
  lemma {:induction false} WalkIsOrder(t: Topology, s: State, c: ManagerId, x: ModuleId)
    requires Valid(t) && Layered(t) && Typed(t, s) && c in t.mgrs && x in Mods(t, s, c)
    ensures Ordered(t, s, c, x, Walk(t, s, c, x))
    decreases t.depth[c]
  {
    hide Valid, Layered, Typed, Abs, Active, Within, Ordered, Walk;
    KeysOf(t, s);
    HomeOf(t, s, c);
    var m := s.mgrs[c].current.value;
    var e := TurnOf(t, s, c, m, x);
    ModsAreActive(t, s, c, x);
    ChildOf(t, s, m, e, x);
    var d := Child(t, TaskAt(t.mods[m], e));
    if d.Some? {
      WithinIs(t, s, m, e, x);
      ChildLower(t, d.value, m);
      WalkIsOrder(t, s, d.value, x);
    }
    WalkOrdered(t, s, c, m, e, x);
  }

  // ---- the way is idle --------------------------------------------------------------------------------

  /** A clear subtree contains no module of the executing process. */
  lemma {:induction false} ClearNotMine(t: Topology, s: State, c: ManagerId, dead: set<ModuleId>, me: ThreadId, x: ModuleId)
    requires Layered(t) && Typed(t, s) && c in t.mgrs && me < |s.threads| && Clear(t, s, c, dead, me)
    requires s.threads[me].owner == Some(x)
    ensures x !in Mods(t, s, c)
    decreases t.depth[c], 1, 0
  {
    hide Layered, Typed;
    KeysOf(t, s);
    if s.mgrs[c].current.Some? {
      HomeOf(t, s, c);
      ClearNotMineFrom(t, s, s.mgrs[c].current.value, 0, dead, me, x);
    }
  }

  lemma {:induction false} ClearNotMineFrom(t: Topology, s: State, m: ModuleId, k: nat, dead: set<ModuleId>, me: ThreadId, x: ModuleId)
    requires Layered(t) && Typed(t, s) && m in t.mods && k <= Tasks(t.mods[m]) && me < |s.threads| && ClearFrom(t, s, m, k, dead, me)
    requires s.threads[me].owner == Some(x)
    ensures x !in ModsFrom(t, s, m, k) && (k <= |t.mods[m].subs| ==> x != m)
    decreases t.depth[t.mods[m].home], 0, Tasks(t.mods[m]) - k
  {
    hide Layered, Typed;
    if k < Tasks(t.mods[m]) {
      TaskIsOf(t, m, k);
      match TaskAt(t.mods[m], k)
      case DropSub(c) =>
        ClearNotMine(t, s, c, dead, me, x);
        ClearNotMineFrom(t, s, m, k + 1, dead + Mods(t, s, c), me, x);
      case Kill => ClearNotMineFrom(t, s, m, k + 1, dead + {m}, me, x);
      case DropNested(r) =>
        ClearNotMine(t, s, t.root[r], dead, me, x);
        ClearNotMineFrom(t, s, m, k + 1, dead + Mods(t, s, t.root[r]), me, x);
    }
  }

  lemma {:induction false} CutsMine(t: Topology, s: State, c: ManagerId, dead: set<ModuleId>, me: ThreadId, x: ModuleId)
    requires Layered(t) && Typed(t, s) && c in t.mgrs && me < |s.threads| && Cuts(t, s, c, dead, me)
    requires s.threads[me].owner == Some(x)
    ensures x in Mods(t, s, c)
    decreases t.depth[c], 1, 0
  {
    hide Layered, Typed;
    KeysOf(t, s);
    HomeOf(t, s, c);
    CutsMineFrom(t, s, s.mgrs[c].current.value, 0, dead, me, x);
  }

  lemma {:induction false} CutsMineFrom(t: Topology, s: State, m: ModuleId, k: nat, dead: set<ModuleId>, me: ThreadId, x: ModuleId)
    requires Layered(t) && Typed(t, s) && m in t.mods && k <= Tasks(t.mods[m]) && me < |s.threads| && CutsFrom(t, s, m, k, dead, me)
    requires s.threads[me].owner == Some(x)
    ensures x in ModsFrom(t, s, m, k) || (x == m && k <= |t.mods[m].subs|)
    decreases t.depth[t.mods[m].home], 0, Tasks(t.mods[m]) - k
  {
    hide Layered, Typed, Clear, Cuts;
    TaskIsOf(t, m, k);
    match TaskAt(t.mods[m], k)
    case DropSub(c) =>
      if Cuts(t, s, c, dead, me) { CutsMine(t, s, c, dead, me, x); }
      else { CutsMineFrom(t, s, m, k + 1, dead + Mods(t, s, c), me, x); }
    case Kill =>
      if x != m { CutsMineFrom(t, s, m, k + 1, dead + {m}, me, x); }
    case DropNested(r) =>
      if Cuts(t, s, t.root[r], dead, me) { CutsMine(t, s, t.root[r], dead, me, x); }
      else { CutsMineFrom(t, s, m, k + 1, dead + Mods(t, s, t.root[r]), me, x); }
  }

  ghost predicate IdleAt(s: State, c: ManagerId) {
    c in s.mgrs && s.mgrs[c].rr.Some? && s.mgrs[c].rr.value in s.regions && !s.regions[s.mgrs[c].rr.value].reconf
  }

  /** The walk goes on below the manager in which the way goes on, whose region is idle. */
  lemma {:induction false} CutsReach(t: Topology, s: State, m: ModuleId, k: nat, e: nat, dead: set<ModuleId>, me: ThreadId, x: ModuleId)
    returns (later: set<ModuleId>)
    requires Layered(t) && Typed(t, s) && m in t.mods && k <= e < Tasks(t.mods[m]) && me < |s.threads|
    requires CutsFrom(t, s, m, k, dead, me) && s.threads[me].owner == Some(x) && IdleAt(s, t.mods[m].home)
    requires Turns(t, Abs(t, s), m, e, x) && Child(t, TaskAt(t.mods[m], e)).Some?
    requires Valid(t) && Connected(t, s) && Roots(t, s)
    ensures var d := Child(t, TaskAt(t.mods[m], e)).value; d in t.mgrs && Cuts(t, s, d, later, me) && IdleAt(s, d)
    decreases e - k
  {
    hide Layered, Typed, Valid, Abs, Active, Turns, Clear, Cuts, Connected, Roots, IdleAt, Mods;
    later := dead;
    TaskIsOf(t, m, k);
    WithinIs(t, s, m, k, x);
    var d := Child(t, TaskAt(t.mods[m], k));
    if d.Some? && d.value in t.mgrs && Cuts(t, s, d.value, dead, me) {
      CutsMine(t, s, d.value, dead, me, x);
      TurnsOnce(t, s, m, k, e, x);
      ChildIdle(t, s, m, k, dead, me);
    } else if k == e {
      ClearNotMine(t, s, d.value, dead, me, x);
    } else {
      if d.None? && x == m { TurnsOnce(t, s, m, k, e, x); }
      later := CutsReach(t, s, m, k + 1, e, dead + StepKills(t, s, m, k), me, x);
    }
  }

  lemma ChildIdle(t: Topology, s: State, m: ModuleId, k: nat, dead: set<ModuleId>, me: ThreadId)
    requires Layered(t) && Typed(t, s) && m in t.mods && k < Tasks(t.mods[m]) && me < |s.threads|
    requires CutsFrom(t, s, m, k, dead, me) && IdleAt(s, t.mods[m].home)
    requires Connected(t, s) && Roots(t, s)
    ensures var d := Child(t, TaskAt(t.mods[m], k)); d.Some? && d.value in t.mgrs && Cuts(t, s, d.value, dead, me) ==> IdleAt(s, d.value)
  {
    hide Layered, Typed, Clear, Mods;
    KeysOf(t, s);
    TaskIsOf(t, m, k);
  }

  /** The managers on the way of an unload that is cut short are on idle regions. */
  lemma {:induction false} WayIdle(t: Topology, s: State, c: ManagerId, dead: set<ModuleId>, me: ThreadId, x: ModuleId, y: ModuleId)
    requires Layered(t) && Typed(t, s) && c in t.mgrs && me < |s.threads| && Cuts(t, s, c, dead, me) && IdleAt(s, c)
    requires s.threads[me].owner == Some(x) && Leads(t, Abs(t, s), y, c, x)
    requires Valid(t) && Connected(t, s) && Roots(t, s)
    ensures y in t.mods && IdleAt(s, t.mods[y].home)
    decreases t.depth[c], 1, 0
  {
    hide Layered, Typed, Valid, Connected, Roots, Abs, Active, IdleAt, Turns, Mods;
    KeysOf(t, s);
    HomeOf(t, s, c);
    LeadsIn(t, Abs(t, s), y, c, x);
    ActiveMods(t, s, x, c);
    var m := s.mgrs[c].current.value;
    var e := TurnOf(t, s, c, m, x);
    TurnsIn(t, Abs(t, s), m, e, x);
    LeadsDown(t, s, c, m, e, x, y);
    if y != m {
      var d := Child(t, TaskAt(t.mods[m], e)).value;
      var later := CutsReach(t, s, m, 0, e, dead, me, x);
      ChildOf(t, s, m, e, x);
      ChildLower(t, d, m);
      WayIdle(t, s, d, later, me, x, y);
    }
  }

  lemma LeadsIn(t: Topology, a: Slots, y: ModuleId, c: ManagerId, x: ModuleId)
    requires Leads(t, a, y, c, x)
    ensures y in t.mods && Active(t, a, x, c)
  {
    ActiveTrans(t, a, x, y, c);
  }

  lemma TurnsIn(t: Topology, a: Slots, m: ModuleId, e: nat, x: ModuleId)
    requires Turns(t, a, m, e, x)
    ensures m in t.mods && e < Tasks(t.mods[m])
  {
  }

  // ---- the theorem ---------------------------------------------------------------------------------

  /** The processes `doomed` are processes of module `x`. */
  ghost predicate Own(s: State, doomed: set<ThreadId>, x: ModuleId) {
    forall j <- doomed | j < |s.threads| :: s.threads[j].owner == Some(x)
  }

  lemma {:induction false} OwnUpTo(hs: seq<ThreadId>, me: ThreadId)
    ensures forall j <- UpTo(hs, me) :: j in hs
  {
    if hs != [] && hs[0] != me { OwnUpTo(hs[1..], me); }
  }

  lemma OwnDoomed(s: State, x: ModuleId, me: ThreadId)
    requires HandlesOk(s) && x in s.mods
    ensures Own(s, UpTo(s.mods[x].handles, me), x)
  {
    OwnUpTo(s.mods[x].handles, me);
  }

  lemma GoneSlot(t: Topology, s: State, n: State, w: Trace, doomed: set<ThreadId>, x: ModuleId, d: ManagerId, gone: iset<ModuleId>, slain: iset<ModuleId>)
    requires CutOff(t, s, n, w, doomed) && d in s.mgrs
    requires forall z :: z in gone <==> z in w.gone
    requires s.mgrs[d].current.Some? ==> s.mgrs[d].current.value in w.gone
    ensures LeftOver(SlotOf(t, s, d), SlotOf(t, n, d), false, gone, slain, x)
  {
  }

  lemma WaySlot(t: Topology, s: State, n: State, w: Trace, doomed: set<ThreadId>, x: ModuleId, d: ManagerId, gone: iset<ModuleId>, slain: iset<ModuleId>)
    requires CutOff(t, s, n, w, doomed) && d in s.mgrs && s.mgrs[d].current.Some? && s.mgrs[d].current.value in s.mods
    requires s.mgrs[d].current.value in w.path && s.mgrs[d].current.value !in w.gone && Tally(s.threads, LoadBy(d)) == 0
    ensures LeftOver(SlotOf(t, s, d), SlotOf(t, n, d), true, gone, slain, x)
  {
    PrunedTally(s.threads, n.threads, LoadBy(d));
  }

  lemma OtherSlot(t: Topology, s: State, n: State, w: Trace, doomed: set<ThreadId>, x: ModuleId, d: ManagerId, gone: iset<ModuleId>, slain: iset<ModuleId>)
    requires CutOff(t, s, n, w, doomed) && Own(s, doomed, x) && d in s.mgrs && s.mgrs[d].current.Some? && s.mgrs[d].current.value in s.mods
    requires s.mgrs[d].current.value !in w.path && s.mgrs[d].current.value !in w.gone && Tally(s.threads, LoadBy(d)) <= 1
    requires n.mgrs[d].rr == s.mgrs[d].rr
    requires forall z :: z in gone <==> z in w.gone
    requires forall z :: z in slain <==> z in w.slain
    ensures LeftOver(SlotOf(t, s, d), SlotOf(t, n, d), false, gone, slain, x)
  {
    PrunedTally(s.threads, n.threads, LoadBy(d));
    if Tally(s.threads, LoadBy(d)) == 1 {
      var i := PrunedLoader(s.threads, n.threads, d);
      assert n.threads[i] in {s.threads[i], Dead(s.threads[i])};
    }
  }

  lemma StillConnected(t: Topology, s: State, n: State, w: Trace, doomed: set<ThreadId>, d: ManagerId)
    requires CutOff(t, s, n, w, doomed) && Roots(t, n) && d in s.mgrs
    ensures d in n.mgrs
    ensures s.mgrs[d].current.Some? && s.mgrs[d].current.value !in w.gone ==> n.mgrs[d].rr == s.mgrs[d].rr
  {
  }

  lemma BreakSlot(t: Topology, s: State, n: State, c: ManagerId, me: ThreadId, x: ModuleId, w: Trace, doomed: set<ThreadId>, d: ManagerId)
    requires Layered(t) && Typed(t, s) && c in t.mgrs && me < |s.threads| && d in s.mgrs
    requires IdleAt(s, c) && Mine(s, me, x) && Cuts(t, s, c, {}, me)
    requires CutOff(t, s, n, w, doomed) && Own(s, doomed, x) && Ordered(t, s, c, x, w)
    requires Valid(t) && LoadsOk(t, s) && Exclusive(s) && Connected(t, s) && Roots(t, s) && Roots(t, n)
    ensures d in n.mgrs
    ensures var a := Abs(t, s);
      LeftOver(SlotOf(t, s, d), SlotOf(t, n, d),
               s.mgrs[d].current.Some? && Leads(t, a, s.mgrs[d].current.value, c, x) && !Ahead(t, a, s.mgrs[d].current.value, c, x),
               AllAhead(t, a, c, x), AllSlain(t, a, c, x), x)
  {
    hide Layered, Typed, Valid, LoadsOk, Exclusive, Connected, Roots, Cuts, CutOff, Abs, Leads, Ahead, SlotOf, IdleAt, LeftOver;
    var a := Abs(t, s);
    var gone, slain := AllAhead(t, a, c, x), AllSlain(t, a, c, x);
    HomeIf(t, s, d);
    StillConnected(t, s, n, w, doomed, d);
    LoadByOne(t, s, d);
    if s.mgrs[d].current.None? || s.mgrs[d].current.value in w.gone {
      GoneSlot(t, s, n, w, doomed, x, d, gone, slain);
    } else if s.mgrs[d].current.value in w.path {
      WayIdle(t, s, c, {}, me, x, s.mgrs[d].current.value);
      IdleNoLoadBy(t, s, d);
      WaySlot(t, s, n, w, doomed, x, d, gone, slain);
    } else {
      OtherSlot(t, s, n, w, doomed, x, d, gone, slain);
    }
  }

  lemma IdleNoLoadBy(t: Topology, s: State, d: ManagerId)
    requires LoadsOk(t, s) && Exclusive(s) && IdleAt(s, d)
    ensures Tally(s.threads, LoadBy(d)) == 0
  {
    ByMeansOn(t, s, d, s.mgrs[d].rr.value);
  }

  /** Marking the region of `c` itself is not part of the order. */
  lemma MarkingOrdered(t: Topology, s: State, c: ManagerId, x: ModuleId, w: Trace, r: RegionId)
    requires Ordered(t, s, c, x, w)
    ensures Ordered(t, s, c, x, Marking(w, r)) && Ordered(t, s, c, x, Closing(w, r))
  {
    hide Leads, Ahead, Abs;
  }

  /** An unload that is cut short breaks the slots on the way to the module of the process. */
  lemma BreakSlots(t: Topology, s: State, o: Outcome, c: ManagerId, r: RegionId, me: ThreadId, x: ModuleId, w: Trace)
    requires Layered(t) && Typed(t, s) && c in t.mgrs && me < |s.threads|
    requires c in s.mgrs && s.mgrs[c].rr == Some(r) && r in s.regions && !s.regions[r].reconf
    requires Mine(s, me, x) && x in Mods(t, s, c) && Cuts(t, s, c, {}, me)
    requires Stopped(t, s, o, w, x, me) && (w == Marking(Walk(t, s, c, x), r) || w == Closing(Walk(t, s, c, x), r))
    requires Valid(t) && Inv(t, s) && Inv(t, o.state)
    ensures Changes(t, Abs(t, s), Abs(t, o.state), Break(c, x))
  {
    hide Layered, Typed, ThreadsOk, HandlesOk, Counted, Exclusive, FlagsOk, CallsBound, Matching, LoadsOk, Homes, Roots,
         Connected, DecoupledOk, Stationed, Leftovers, WaitsOk, BlockedOk, SettledPart, SplitPart, PathOk, Valid, Cuts, CutOff, Abs, Leads, Ahead, Slain, SlotOf,
         Walk, Mods, Active, Ordered, LeftOver;
    var n, doomed := o.state, UpTo(s.mods[x].handles, me);
    OwnDoomed(s, x, me);
    WalkIsOrder(t, s, c, x);
    MarkingOrdered(t, s, c, x, Walk(t, s, c, x), r);
    ModsAreActive(t, s, c, x);
    AbsKeys(t, s);
    AbsKeys(t, n);
    forall d <- s.mgrs
      ensures d in n.mgrs
      ensures var a := Abs(t, s);
        LeftOver(a[d], Abs(t, n)[d], !a[d].Empty? && Leads(t, a, a[d].mod, c, x) && !Ahead(t, a, a[d].mod, c, x),
                 AllAhead(t, a, c, x), AllSlain(t, a, c, x), x)
    {
      BreakSlot(t, s, n, c, me, x, w, doomed, d);
      SlotIs(t, s, d);
      SlotIs(t, n, d);
      SlotMod(t, s, d);
    }
    SameManagers(t, s, n, w, doomed);
  }

  lemma SlotIs(t: Topology, s: State, d: ManagerId)
    requires d in s.mgrs
    ensures d in Abs(t, s) && Abs(t, s)[d] == SlotOf(t, s, d)
  {
  }

  lemma SlotMod(t: Topology, s: State, d: ManagerId)
    requires d in s.mgrs
    ensures SlotOf(t, s, d).Empty? <==> s.mgrs[d].current.None?
    ensures s.mgrs[d].current.Some? ==> SlotOf(t, s, d).mod == s.mgrs[d].current.value
  {
  }

  lemma SameManagers(t: Topology, s: State, n: State, w: Trace, doomed: set<ThreadId>)
    requires CutOff(t, s, n, w, doomed)
    ensures n.mgrs.Keys == s.mgrs.Keys
  {
  }
}
