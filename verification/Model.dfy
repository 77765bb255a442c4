/** The static hierarchy of regions, configuration managers and modules, and the
    run-time state the reconfiguration protocol works on.  Objects of the library are
    named by identifiers; the maps of a `State` hold their mutable fields. */
module Model {
  datatype Option<+T> = None | Some(value: T)

  type RegionId = nat
  type ManagerId = nat
  type ModuleId = nat
  type MemberId = nat
  type ThreadId = nat

  /** What elaboration fixes about one module instance: the manager that created it, the
      interface members it couples, the managers it owns when it is a split manager, the
      regions nested in it, and the number of its registered spawn arguments. */
  datatype Shape = Shape(
    home: ManagerId,
    members: set<MemberId>,
    subs: seq<ManagerId>,
    nested: seq<RegionId>,
    procs: nat)

  datatype Topology = Topology(
    mods: map<ModuleId, Shape>,
    mgrs: set<ManagerId>,
    root: map<RegionId, ManagerId>,        // the manager a reconf_region owns
    preload: map<ManagerId, ModuleId>,     // m_preload_module, where one is set
    depth: map<ManagerId, nat>,            // containment height
    outs: set<MemberId>)                   // members of type sc_out

  /** Containment: modules sit below the manager that created them, and own managers and
      regions of smaller height. */
  ghost predicate Layered(t: Topology) {
    && t.depth.Keys == t.mgrs
    && (forall r <- t.root :: t.root[r] in t.mgrs)
    && (forall m <- t.mods :: t.mods[m].home in t.mgrs)
    && (forall m <- t.mods, i | 0 <= i < |t.mods[m].subs| :: Inside(t, t.mods[m].subs[i], m))
    && (forall m <- t.mods, i | 0 <= i < |t.mods[m].nested| ::
          t.mods[m].nested[i] in t.root && Inside(t, t.root[t.mods[m].nested[i]], m))
    && (forall c <- t.preload :: t.preload[c] in t.mods && t.mods[t.preload[c]].home == c)
  }

  predicate Inside(t: Topology, c: ManagerId, m: ModuleId)
    requires m in t.mods
  {
    && c in t.mgrs && c in t.depth && t.mods[m].home in t.depth
    && t.depth[c] < t.depth[t.mods[m].home]
  }

  /** A manager belongs to a region or to a split manager. */
  ghost predicate Owned(t: Topology, c: ManagerId) {
    (exists r :: r in t.root && t.root[r] == c) || IsSub(t, c)
  }

  ghost predicate IsSub(t: Topology, c: ManagerId) {
    exists m, k :: m in t.mods && 0 <= k < |t.mods[m].subs| && t.mods[m].subs[k] == c
  }

  /** Everything has an owner and nothing is owned twice. */
  ghost predicate Valid(t: Topology) {
    && Layered(t)
    && (forall c <- t.mgrs :: Owned(t, c))
    && (forall r <- t.root, q <- t.root | t.root[r] == t.root[q] :: r == q)
    && (forall m <- t.mods, r <- t.root :: t.root[r] !in t.mods[m].subs)
    && (forall m <- t.mods, n <- t.mods, i, j
          | 0 <= i < |t.mods[m].subs| && 0 <= j < |t.mods[n].subs|
            && t.mods[m].subs[i] == t.mods[n].subs[j] :: m == n && i == j)
    && (forall m <- t.mods, n <- t.mods, i, j
          | 0 <= i < |t.mods[m].nested| && 0 <= j < |t.mods[n].nested|
            && t.mods[m].nested[i] == t.mods[n].nested[j] :: m == n && i == j)
  }

  /** How far a thread has come inside `configure_module` or a nested `perform_preload`:
      waiting for the load time, waiting for the adapters to synchronise, or performing
      the preloads of the nested regions (the next one to visit is `next`). */
  datatype Phase = LoadWait | SyncWait | Activating(next: nat)

  /** One entry of a thread's call stack: a transaction that holds a lock on `rr` while it
      runs through member `mem`'s adapter pair bound to module `mod`, or a load in progress. */
  datatype Frame =
    | Call(rr: RegionId, mem: MemberId, mod: ModuleId)
    | Load(mgr: ManagerId, rr: RegionId, mod: ModuleId, phase: Phase)

  datatype Thread = Thread(owner: Option<ModuleId>, alive: bool, stack: seq<Frame>)

  /** The private fields of `abstract_reconf_region_base`. */
  datatype Region = Region(reconf: bool, blocked: bool, count: nat)

  /** `m_current_module` and `m_rr_base_ptr` of a configuration manager. */
  datatype Manager = Manager(current: Option<ModuleId>, rr: Option<RegionId>)

  /** `m_configured_rr` and `m_nc_proc_handles` of a module. */
  datatype Module = Module(configured: Option<RegionId>, handles: seq<ThreadId>)

  /** `bound` holds the adapter pointers: (r, mem) maps to the module whose adapter the
      region's adapter points to, and is absent while that pointer is null.  `decoupled`
      holds the sc_out adapters whose decoupled flag is set. */
  datatype State = State(
    regions: map<RegionId, Region>,
    mgrs: map<ManagerId, Manager>,
    mods: map<ModuleId, Module>,
    bound: map<(RegionId, MemberId), ModuleId>,
    decoupled: set<(RegionId, MemberId)>,
    threads: seq<Thread>,
    started: bool)

  /** How an operation that does not wait ends. */
  datatype Outcome =
    | Failed                 // SC_REPORT_ERROR or sc_assert
    | Aborted(state: State)  // the executing process killed itself half-way
    | Done(state: State)

  /** The pointers that elaboration sets never move: a manager only ever loads modules it
      created. */
  ghost predicate Typed(t: Topology, s: State) {
    && s.regions.Keys == t.root.Keys
    && s.mgrs.Keys == t.mgrs
    && s.mods.Keys == t.mods.Keys
    && (forall c <- s.mgrs | s.mgrs[c].current.Some? ::
          s.mgrs[c].current.value in t.mods && t.mods[s.mgrs[c].current.value].home == c)
    && (forall c <- s.mgrs | s.mgrs[c].rr.Some? :: s.mgrs[c].rr.value in t.root)
    && (forall m <- s.mods | s.mods[m].configured.Some? :: s.mods[m].configured.value in t.root)
  }

  // ---- counting stack entries --------------------------------------------------------

  /** What to count: locks held on a region, loads in progress on a region, or loads in
      progress by a manager. */
  datatype Query = LockOn(r: RegionId) | LoadOn(r: RegionId) | LoadBy(c: ManagerId)

  function Hit(f: Frame, q: Query): nat {
    match q
    case LockOn(r) => if f.Call? && f.rr == r then 1 else 0
    case LoadOn(r) => if f.Load? && f.rr == r then 1 else 0
    case LoadBy(c) => if f.Load? && f.mgr == c then 1 else 0
  }

  function InStack(stack: seq<Frame>, q: Query): nat {
    if stack == [] then 0
    else InStack(stack[..|stack| - 1], q) + Hit(stack[|stack| - 1], q)
  }

  function Tally(threads: seq<Thread>, q: Query): nat {
    if threads == [] then 0
    else Tally(threads[..|threads| - 1], q) + InStack(threads[|threads| - 1].stack, q)
  }

  lemma InStackPush(stack: seq<Frame>, f: Frame, q: Query)
    ensures InStack(stack + [f], q) == InStack(stack, q) + Hit(f, q)
  {
    assert (stack + [f])[..|stack|] == stack;
  }

  lemma {:induction false} TallyUpdate(threads: seq<Thread>, i: nat, th: Thread, q: Query)
    requires i < |threads|
    ensures Tally(threads[i := th], q) + InStack(threads[i].stack, q) == Tally(threads, q) + InStack(th.stack, q)
  {
    var n := |threads| - 1;
    if i == n {
      assert threads[i := th][..n] == threads[..n];
    } else {
      TallyUpdate(threads[..n], i, th, q);
      assert threads[i := th][..n] == threads[..n][i := th];
    }
  }

  lemma TallyAppend(threads: seq<Thread>, th: Thread, q: Query)
    ensures Tally(threads + [th], q) == Tally(threads, q) + InStack(th.stack, q)
  {
    assert (threads + [th])[..|threads|] == threads;
  }

  lemma {:induction false} InStackMember(stack: seq<Frame>, a: nat, q: Query)
    requires a < |stack|
    ensures Hit(stack[a], q) <= InStack(stack, q)
  {
    if a < |stack| - 1 {
      InStackMember(stack[..|stack| - 1], a, q);
    }
  }

  lemma {:induction false} TallyThread(threads: seq<Thread>, i: nat, q: Query)
    requires i < |threads|
    ensures InStack(threads[i].stack, q) <= Tally(threads, q)
  {
    if i < |threads| - 1 {
      TallyThread(threads[..|threads| - 1], i, q);
    }
  }

  /** A stack entry that answers the query makes the count positive. */
  lemma TallyMember(threads: seq<Thread>, i: nat, a: nat, q: Query)
    requires i < |threads| && a < |threads[i].stack|
    ensures Hit(threads[i].stack[a], q) <= InStack(threads[i].stack, q) <= Tally(threads, q)
  {
    InStackMember(threads[i].stack, a, q);
    TallyThread(threads, i, q);
  }

  lemma {:induction false} InStackWitness(stack: seq<Frame>, q: Query) returns (a: nat)
    requires InStack(stack, q) > 0
    ensures a < |stack| && Hit(stack[a], q) == 1
  {
    var n := |stack| - 1;
    if Hit(stack[n], q) == 1 { a := n; } else { a := InStackWitness(stack[..n], q); }
  }

  lemma {:induction false} TallyWitness(threads: seq<Thread>, q: Query) returns (i: nat, a: nat)
    requires Tally(threads, q) > 0
    ensures i < |threads| && a < |threads[i].stack| && Hit(threads[i].stack[a], q) == 1
  {
    var n := |threads| - 1;
    if InStack(threads[n].stack, q) > 0 {
      i := n;
      a := InStackWitness(threads[n].stack, q);
    } else {
      i, a := TallyWitness(threads[..n], q);
    }
  }
}
