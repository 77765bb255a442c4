/** What every step of the protocol keeps. */
module Invariants {
  import opened Model
  import opened Teardown

  // ---- the parts ---------------------------------------------------------------------

  /** A thread of a module is alive only while the module holds its handle; a dead thread
      holds nothing. */
  ghost predicate ThreadsOk(s: State) {
    && (forall i | 0 <= i < |s.threads| && !s.threads[i].alive :: s.threads[i].stack == [])
    && (forall i | 0 <= i < |s.threads| && s.threads[i].alive && s.threads[i].owner.Some? ::
          s.threads[i].owner.value in s.mods && i in s.mods[s.threads[i].owner.value].handles)
  }

  /** A handle names one process of the module that holds it. */
  ghost predicate HandlesOk(s: State) {
    && (forall m <- s.mods, j | 0 <= j < |s.mods[m].handles| ::
          s.mods[m].handles[j] < |s.threads| && s.threads[s.mods[m].handles[j]].owner == Some(m))
    && (forall m <- s.mods, i, j | 0 <= i < j < |s.mods[m].handles| ::
          s.mods[m].handles[i] != s.mods[m].handles[j])
  }

  /** The transaction counter of a region is the number of live locks on it. */
  ghost predicate Counted(s: State) {
    forall r <- s.regions :: s.regions[r].count == Tally(s.threads, LockOn(r))
  }

  /** At most one load is in progress on a region, counting all managers connected to it,
      and only while the region is marked reconfiguring. */
  ghost predicate Exclusive(s: State) {
    forall r <- s.regions :: Tally(s.threads, LoadOn(r)) <= if s.regions[r].reconf then 1 else 0
  }

  ghost predicate FlagsOk(s: State) {
    forall r <- s.regions :: s.regions[r].blocked ==> s.regions[r].reconf
  }

  ghost predicate CallOk(s: State, f: Frame)
    requires f.Call?
  {
    f.rr in s.regions && (f.rr, f.mem) in s.bound && s.bound[(f.rr, f.mem)] == f.mod
  }

  /** The adapter pair a live call runs through is still bound to the same module. */
  ghost predicate CallsBound(s: State) {
    forall i, a | 0 <= i < |s.threads| && 0 <= a < |s.threads[i].stack| && s.threads[i].stack[a].Call? ::
      CallOk(s, s.threads[i].stack[a])
  }

  /** A region's adapter points to a module's adapter exactly when that module is
      configured on the region and has the member. */
  ghost predicate Matching(t: Topology, s: State) {
    && (forall k <- s.bound :: s.bound[k] in t.mods && s.bound[k] in s.mods
          && s.mods[s.bound[k]].configured == Some(k.0) && k.1 in t.mods[s.bound[k]].members)
    && (forall m <- s.mods, x | m in t.mods && s.mods[m].configured.Some? && x in t.mods[m].members ::
          (s.mods[m].configured.value, x) in s.bound && s.bound[(s.mods[m].configured.value, x)] == m)
  }

  /** What a load in progress can rely on whenever its thread resumes. */
  ghost predicate LoadOk(t: Topology, s: State, f: Frame)
    requires f.Load?
  {
    && f.rr in s.regions && f.mgr in s.mgrs && f.mod in s.mods && f.mod in t.mods
    && s.mgrs[f.mgr] == Manager(Some(f.mod), Some(f.rr))
    && match f.phase
       case LoadWait => s.regions[f.rr].blocked && (s.mods[f.mod].configured.None? ==> s.mods[f.mod].handles == [])
       case SyncWait => s.regions[f.rr].blocked && s.mods[f.mod] == Module(Some(f.rr), [])
       case Activating(k) => !s.regions[f.rr].blocked && Settled(t, s, f.mod, f.rr) && k <= |t.mods[f.mod].nested|
  }

  ghost predicate LoadsOk(t: Topology, s: State) {
    forall i, a | 0 <= i < |s.threads| && 0 <= a < |s.threads[i].stack| && s.threads[i].stack[a].Load? ::
      LoadOk(t, s, s.threads[i].stack[a])
  }

  /** A load that waits for the load time waits for a module that is not configured anywhere. */
  ghost predicate WaitsOk(s: State) {
    forall i, a | 0 <= i < |s.threads| && 0 <= a < |s.threads[i].stack| && s.threads[i].stack[a].Load?
                  && s.threads[i].stack[a].phase == LoadWait :: WaitOk(s, s.threads[i].stack[a])
  }

  ghost predicate WaitOk(s: State, f: Frame)
    requires f.Load?
  {
    f.mod in s.mods && s.mods[f.mod].configured.None?
  }

  /** Manager `c` is the own manager of region `r`, or a sub-manager of a module whose manager
      belongs to `r`.  Elaboration fixes this. */
  ghost predicate Belongs(t: Topology, c: ManagerId, r: RegionId)
    decreases if r in t.root && c in t.depth && t.root[r] in t.depth && t.depth[c] < t.depth[t.root[r]]
      then t.depth[t.root[r]] - t.depth[c] else 0
  {
    && r in t.root
    && (c == t.root[r]
        || (c in t.depth && t.root[r] in t.depth && t.depth[c] < t.depth[t.root[r]]
            && exists m :: IsSubIn(t, c, m) && Belongs(t, t.mods[m].home, r)))
  }

  ghost predicate IsSubIn(t: Topology, c: ManagerId, m: ModuleId) {
    m in t.mods && c in t.mods[m].subs && Inside(t, c, m)
  }

  /** Managers and modules only ever point to the region they belong to. */
  ghost predicate Stationed(t: Topology, s: State) {
    && (forall c <- s.mgrs | s.mgrs[c].rr.Some? :: Belongs(t, c, s.mgrs[c].rr.value))
    && (forall m <- s.mods | s.mods[m].configured.Some? ::
          m in t.mods && Belongs(t, t.mods[m].home, s.mods[m].configured.value))
  }

  /** Only the current module of a manager is configured or runs processes. */
  ghost predicate Homes(t: Topology, s: State) {
    && (forall m <- s.mods | s.mods[m].configured.Some? ::
          m in t.mods && t.mods[m].home in s.mgrs
          && s.mgrs[t.mods[m].home] == Manager(Some(m), s.mods[m].configured))
    && (forall m <- s.mods | s.mods[m].handles != [] ::
          m in t.mods && t.mods[m].home in s.mgrs && s.mgrs[t.mods[m].home].current == Some(m))
  }

  /** A region's own manager always points to it; a manager holds a module only while it
      is connected. */
  ghost predicate Roots(t: Topology, s: State) {
    && (forall r <- t.root :: t.root[r] in s.mgrs && s.mgrs[t.root[r]].rr == Some(r))
    && (forall c <- s.mgrs | s.mgrs[c].current.Some? :: s.mgrs[c].rr.Some?)
  }

  /** A sub-manager is connected only to the region its split manager is loaded on, and
      all of them are while the split manager is configured. */
  ghost predicate Connected(t: Topology, s: State) {
    && (forall m <- t.mods, k | 0 <= k < |t.mods[m].subs| ::
          t.mods[m].subs[k] in s.mgrs && t.mods[m].home in s.mgrs &&
          (s.mgrs[t.mods[m].subs[k]].rr.Some? ==>
             s.mgrs[t.mods[m].home] == Manager(Some(m), s.mgrs[t.mods[m].subs[k]].rr)))
    && (forall m <- t.mods, k | m in s.mods && s.mods[m].configured.Some? && 0 <= k < |t.mods[m].subs| ::
          t.mods[m].subs[k] in s.mgrs && s.mgrs[t.mods[m].subs[k]].rr == s.mods[m].configured)
  }

  /** The decoupled flag is set only on unbound adapters, and not before the first unbind. */
  ghost predicate DecoupledOk(s: State) {
    && (forall k <- s.decoupled :: k !in s.bound)
    && (!s.started ==> s.decoupled == {})
  }

  /** Blocked transactions with calls still in flight need a split region. */
  ghost predicate BlockedOk(t: Topology, s: State) {
    forall r <- s.regions | s.regions[r].blocked && s.regions[r].count > 0 :: Divided(t, s, r)
  }

  /** Some sub-manager is connected to the region. */
  ghost predicate Divided(t: Topology, s: State, r: RegionId) {
    exists m, k :: m in t.mods && 0 <= k < |t.mods[m].subs| && t.mods[m].subs[k] in s.mgrs
                   && s.mgrs[t.mods[m].subs[k]].rr == Some(r)
  }

  /** A loaded module is coupled and holds exactly one handle per registered process. */
  ghost predicate Settled(t: Topology, s: State, m: ModuleId, r: RegionId) {
    m in t.mods && m in s.mods && s.mods[m].configured == Some(r) && |s.mods[m].handles| == t.mods[m].procs
  }

  /** The region is idle, or the thread reconfiguring it is alive, or it is one of the
      regions `q` that the operation being executed has opened.  Otherwise it is orphaned. */
  ghost predicate Attended(s: State, r: RegionId, q: set<RegionId>) {
    r in s.regions && (!s.regions[r].reconf || Tally(s.threads, LoadOn(r)) > 0 || r in q)
  }

  /** On a region that is not orphaned every current module is settled, except where a
      load is in progress or the operation being executed is unloading (managers `p`). */
  ghost predicate SettledPart(t: Topology, s: State, q: set<RegionId>, p: set<ManagerId>) {
    forall c <- s.mgrs | c !in p && s.mgrs[c].current.Some? && s.mgrs[c].rr.Some?
                         && Attended(s, s.mgrs[c].rr.value, q) ::
      Settled(t, s, s.mgrs[c].current.value, s.mgrs[c].rr.value) || Tally(s.threads, LoadBy(c)) > 0
  }

  /** Module `m` is the one being unloaded from one of the managers `p`. */
  ghost predicate Unloading(t: Topology, s: State, m: ModuleId, p: set<ManagerId>) {
    m in t.mods && t.mods[m].home in p && t.mods[m].home in s.mgrs && s.mgrs[t.mods[m].home].current == Some(m)
  }

  /** On a region that is not orphaned a module that is not configured has no handles left. */
  ghost predicate Leftovers(t: Topology, s: State, q: set<RegionId>, p: set<ManagerId>) {
    forall m <- s.mods, r | m in t.mods && s.mods[m].configured.None? && !Unloading(t, s, m, p)
                            && Belongs(t, t.mods[m].home, r) && Attended(s, r, q) ::
      s.mods[m].handles == []
  }

  /** On a region that is not orphaned a sub-manager is connected only while its split
      manager is coupled. */
  ghost predicate SplitPart(t: Topology, s: State, q: set<RegionId>, p: set<ManagerId>) {
    forall m <- t.mods, k | 0 <= k < |t.mods[m].subs| && t.mods[m].subs[k] in s.mgrs && !Unloading(t, s, m, p)
                            && s.mgrs[t.mods[m].subs[k]].rr.Some?
                            && Attended(s, s.mgrs[t.mods[m].subs[k]].rr.value, q) ::
      m in s.mods && s.mods[m].configured == s.mgrs[t.mods[m].subs[k]].rr
  }

  ghost predicate PathOk(s: State, q: set<RegionId>, p: set<ManagerId>) {
    && (forall r <- q :: r in s.regions && s.regions[r].reconf && Tally(s.threads, LoadOn(r)) == 0)
    && (forall c <- p | c in s.mgrs && s.mgrs[c].rr.Some? :: s.mgrs[c].rr.value in q)
  }

  // ---- the invariant -----------------------------------------------------------------

  /** What holds whatever has been preloaded over. */
  ghost predicate Always(t: Topology, s: State) {
    && Typed(t, s) && ThreadsOk(s) && HandlesOk(s) && Counted(s) && Exclusive(s) && FlagsOk(s)
    && CallsBound(s) && Matching(t, s) && LoadsOk(t, s) && Roots(t, s) && Stationed(t, s) && DecoupledOk(s)
  }

  /** What needs that no module has been lost to a preload. */
  ghost predicate Tidy(t: Topology, s: State) {
    Homes(t, s) && Connected(t, s) && BlockedOk(t, s) && WaitsOk(s)
  }

  /** The invariant in the middle of an atomic operation that has opened the regions `q` and is
      unloading the managers `p`: of any run, or while no module has been lost. */
  ghost predicate During(t: Topology, s: State, q: set<RegionId>, p: set<ManagerId>, tidy: bool) {
    && Always(t, s) && SettledPart(t, s, q, p) && SplitPart(t, s, q, p) && Leftovers(t, s, q, p) && PathOk(s, q, p)
    && (tidy ==> Tidy(t, s))
  }

  /** The invariant between steps of any run. */
  ghost predicate Sound(t: Topology, s: State) {
    During(t, s, {}, {}, false)
  }

  /** The invariant between steps while no module has been lost. */
  ghost predicate Inv(t: Topology, s: State) {
    During(t, s, {}, {}, true)
  }

  lemma InvSound(t: Topology, s: State)
    requires Inv(t, s)
    ensures Sound(t, s)
  {
  }

  // ---- monotonicity of unloading -----------------------------------------------------

  /** Unloading only ever takes away: pointers become null, threads die, counters drop. */
  ghost predicate Shrinks(s: State, n: State) {
    && n.regions.Keys == s.regions.Keys && n.mgrs.Keys == s.mgrs.Keys && n.mods.Keys == s.mods.Keys
    && |n.threads| == |s.threads|
    && (forall i | 0 <= i < |s.threads| :: n.threads[i] == s.threads[i] || n.threads[i] == Dead(s.threads[i]))
    && (forall r <- s.regions :: n.regions[r].blocked == s.regions[r].blocked
                                 && n.regions[r].count <= s.regions[r].count)
    && (forall c <- s.mgrs :: n.mgrs[c].current in {s.mgrs[c].current, None} && n.mgrs[c].rr in {s.mgrs[c].rr, None})
    && (forall m <- s.mods :: n.mods[m].configured in {s.mods[m].configured, None}
                              && n.mods[m].handles in {s.mods[m].handles, []})
  }

  ghost predicate SameReconf(s: State, n: State) {
    n.regions.Keys == s.regions.Keys && forall r <- s.regions :: n.regions[r].reconf == s.regions[r].reconf
  }
}
