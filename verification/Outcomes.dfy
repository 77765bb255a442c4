/** When each step of a run completes, and everything it changes. */
module Outcomes {
  import opened Model
  import opened Teardown
  import opened Invariants
  import opened Effects
  import opened UnloadSafety
  import opened Protocol
  import opened LoadEffects
  import opened Steps
  import opened Safety
  import opened Closure
  import opened Exactness
  import opened Guarantees
  import opened Interruption
  import opened Orphans
  import opened Completion
  import opened Blocking

  // ---- frames -----------------------------------------------------------------------------------

  ghost predicate SamePointers(s: State, e: State) {
    e.mgrs == s.mgrs && e.mods == s.mods && e.bound == s.bound && e.decoupled == s.decoupled
  }

  ghost predicate SameRegionsBut(s: State, e: State, r: RegionId) {
    && e.regions.Keys == s.regions.Keys && r in s.regions
    && forall w <- s.regions | w != r :: e.regions[w] == s.regions[w]
  }

  /** Thread `i` is as before except for its stack, the other threads altogether. */
  ghost predicate SameThreadsBut(s: State, e: State, i: ThreadId) {
    && i < |s.threads| <= |e.threads|
    && e.threads[i].owner == s.threads[i].owner && e.threads[i].alive == s.threads[i].alive
    && forall j | 0 <= j < |s.threads| && j != i :: e.threads[j] == s.threads[j]
  }

  /** Thread `i` gets the stack `stack`, and no thread is added. */
  ghost predicate Stacked(s: State, e: State, i: ThreadId, stack: seq<Frame>) {
    SameThreadsBut(s, e, i) && |e.threads| == |s.threads| && e.threads[i].stack == stack
  }

  // ---- calls ------------------------------------------------------------------------------------

  /** `e` is `s` with the call `f` begun by thread `i` under one more lock, and nothing else changed. */
  ghost predicate Called(s: State, e: State, i: ThreadId, f: Frame)
    requires f.Call?
  {
    && SamePointers(s, e) && SameRegionsBut(s, e, f.rr)
    && e.regions[f.rr] == Region(s.regions[f.rr].reconf, s.regions[f.rr].blocked, s.regions[f.rr].count + 1)
    && i < |s.threads| && Stacked(s, e, i, s.threads[i].stack + [f])
  }

  lemma CallExact(s: State, i: ThreadId, r: RegionId, x: MemberId, m: ModuleId)
    requires i < |s.threads| && r in s.regions
    ensures var o := DoCall(s, i, r, x, m);
      && !o.Aborted? && (o.Done? <==> !s.regions[r].blocked)
      && (o.Done? ==> Called(s, o.state, i, Call(r, x, m)) && o.state.started == s.started)
  {
  }

  lemma StartedCalled(s: State, e: State, i: ThreadId, f: Frame)
    requires f.Call? && Called(s.(started := true), e, i, f)
    ensures Called(s, e, i, f)
  {
  }

  /** A call into a region completes exactly when a module is bound there and transactions are not
      blocked; it then holds one more lock of the region and is recorded on the caller's stack. */
  lemma EnterExact(t: Topology, states: seq<State>, actions: seq<Action>, n: nat, i: ThreadId, r: RegionId, x: MemberId)
    requires Valid(t) && Run(t, states, actions) && n < |states| && Enabled(t, states[n], Enter(i, r, x))
    ensures Layered(t) && Typed(t, states[n]) && r in states[n].regions
    ensures var s, o := states[n], Next(t, states[n], Enter(i, r, x));
      && !o.Aborted? && (o.Done? <==> (r, x) in s.bound && !s.regions[r].blocked)
      && (o.Done? ==> Called(s, o.state, i, Call(r, x, s.bound[(r, x)])) && o.state.started)
  {
    hide During, Valid, Layered, Typed, Run, DoCall, Called;
    RunSound(t, states, actions, n);
    LayeredOf(t);
    TypedOf(t, states[n]);
    KeysOf(t, states[n]);
    var s := states[n];
    StartedTyped(t, s);
    if (r, x) in s.bound {
      CallExact(s.(started := true), i, r, x, s.bound[(r, x)]);
      if Next(t, s, Enter(i, r, x)).Done? { StartedCalled(s, Next(t, s, Enter(i, r, x)).state, i, Call(r, x, s.bound[(r, x)])); }
    }
  }

  /** A call out of a module completes exactly when the module is configured on a region whose
      transactions are not blocked; it holds a lock of that region. */
  lemma EnterOutExact(t: Topology, states: seq<State>, actions: seq<Action>, n: nat, i: ThreadId, m: ModuleId, x: MemberId)
    requires Valid(t) && Run(t, states, actions) && n < |states| && Enabled(t, states[n], EnterOut(i, m, x))
    ensures Layered(t) && Typed(t, states[n]) && m in states[n].mods
    ensures states[n].mods[m].configured.Some? ==> states[n].mods[m].configured.value in states[n].regions
    ensures var s, o := states[n], Next(t, states[n], EnterOut(i, m, x));
      && !o.Aborted?
      && (o.Done? <==> s.mods[m].configured.Some? && !s.regions[s.mods[m].configured.value].blocked)
      && (o.Done? ==> Called(s, o.state, i, Call(s.mods[m].configured.value, x, m)) && o.state.started)
  {
    hide During, Valid, Layered, Typed, Run, DoCall, Called;
    RunSound(t, states, actions, n);
    LayeredOf(t);
    TypedOf(t, states[n]);
    KeysOf(t, states[n]);
    var s := states[n];
    StartedTyped(t, s);
    if s.mods[m].configured.Some? {
      RegionOf(t, s, m);
      CallExact(s.(started := true), i, s.mods[m].configured.value, x, m);
      if Next(t, s, EnterOut(i, m, x)).Done? {
        StartedCalled(s, Next(t, s, EnterOut(i, m, x)).state, i, Call(s.mods[m].configured.value, x, m));
      }
    }
  }

  /** A return never fails: the innermost call is taken off the stack and its lock released, and
      nothing else changes. */
  lemma ReturnExact(t: Topology, states: seq<State>, actions: seq<Action>, n: nat, i: ThreadId)
    requires Valid(t) && Run(t, states, actions) && n < |states| && Enabled(t, states[n], Return(i))
    ensures Layered(t) && Typed(t, states[n])
    ensures var s, o := states[n], Next(t, states[n], Return(i));
      && o.Done? && o.state.started
      && i < |o.state.threads| && o.state.threads[i].stack == s.threads[i].stack[..|s.threads[i].stack| - 1]
      && Called(o.state, s, i, s.threads[i].stack[|s.threads[i].stack| - 1])
  {
    hide During, Valid, Layered, Typed, Run;
    RunSound(t, states, actions, n);
    LayeredOf(t);
    TypedOf(t, states[n]);
    KeysOf(t, states[n]);
    var s := states[n];
    StartedTyped(t, s);
    StartedKeeps(t, s, false);
    TopCall(t, s.(started := true), i, false);
    ReturnedFrom(s, i);
  }

  lemma ReturnedFrom(s: State, i: ThreadId)
    requires i < |s.threads| && Top(s, i).Some? && Top(s, i).value.Call?
    requires Top(s, i).value.rr in s.regions && s.regions[Top(s, i).value.rr].count > 0
    ensures var o := DoReturn(s.(started := true), i);
      && o.Done? && o.state.started
      && i < |o.state.threads| && o.state.threads[i].stack == s.threads[i].stack[..|s.threads[i].stack| - 1]
      && Called(o.state, s, i, s.threads[i].stack[|s.threads[i].stack| - 1])
  {
    var st := s.threads[i].stack;
    assert st == st[..|st| - 1] + [st[|st| - 1]];
  }

  /** A call that returns at once leaves everything as it found it. */
  lemma CallRestores(t: Topology, states: seq<State>, actions: seq<Action>, n: nat, i: ThreadId)
    requires Valid(t) && Run(t, states, actions) && n + 1 < |actions|
    requires (actions[n].Enter? || actions[n].EnterOut?) && actions[n].i == i && actions[n + 1] == Return(i)
    ensures states[n + 2] == states[n].(started := true)
  {
    hide During, Valid, Layered, Typed, Next, Run;
    RunSteps(t, states, actions, n);
    RunSteps(t, states, actions, n + 1);
    var s, b, e := states[n], states[n + 1], states[n + 2];
    var a := actions[n];
    if a.Enter? {
      EnterExact(t, states, actions, n, i, a.r, a.x);
      ReturnExact(t, states, actions, n + 1, i);
      CallBack(s, b, e, i, Call(a.r, a.x, s.bound[(a.r, a.x)]));
    } else {
      EnterOutExact(t, states, actions, n, i, a.m, a.x);
      ReturnExact(t, states, actions, n + 1, i);
      CallBack(s, b, e, i, Call(s.mods[a.m].configured.value, a.x, a.m));
    }
  }

  lemma RunSteps(t: Topology, states: seq<State>, actions: seq<Action>, n: nat)
    requires Run(t, states, actions) && n < |actions|
    ensures |states| == |actions| + 1 && Layered(t) && Typed(t, states[n]) && Enabled(t, states[n], actions[n])
    ensures Next(t, states[n], actions[n]) == Done(states[n + 1]) || Next(t, states[n], actions[n]) == Aborted(states[n + 1])
  {
    hide Next, Enabled, Typed, Layered, Init;
    assert Moves(t, states[n], actions[n], states[n + 1]);
  }

  lemma CallBack(s: State, b: State, e: State, i: ThreadId, f: Frame)
    requires f.Call? && Called(s, b, i, f) && e.started && i < |b.threads| && b.threads[i].stack != []
    requires b.threads[i].stack[|b.threads[i].stack| - 1].Call? && Called(e, b, i, b.threads[i].stack[|b.threads[i].stack| - 1])
    requires i < |e.threads| && e.threads[i].stack == b.threads[i].stack[..|b.threads[i].stack| - 1]
    ensures e == s.(started := true)
  {
    assert e.threads[i].stack == s.threads[i].stack;
    assert e.threads == s.threads;
    assert e.regions == s.regions;
  }

  /** The process function returns: the thread is dead, and nothing else changes. */
  lemma ExitExact(t: Topology, s: State, i: ThreadId)
    requires Layered(t) && Typed(t, s) && Enabled(t, s, Exit(i))
    ensures var o := Next(t, s, Exit(i));
      && o.Done? && SamePointers(s, o.state) && o.state.regions == s.regions && |o.state.threads| == |s.threads|
      && o.state.threads[i] == Thread(s.threads[i].owner, false, [])
      && forall j | 0 <= j < |s.threads| && j != i :: o.state.threads[j] == s.threads[j]
  {
  }

  // ---- requests ---------------------------------------------------------------------------------

  /** `e` without what the beginning of a load by manager `c` in thread `i` has left: the stack of `i`
      is as in `s`, and the manager is empty. */
  ghost function Unclaimed(s: State, e: State, i: ThreadId, c: ManagerId): State
    requires i < |s.threads| && i < |e.threads| && c in e.mgrs
  {
    e.(mgrs := e.mgrs[c := Manager(None, e.mgrs[c].rr)], threads := e.threads[i := e.threads[i].(stack := s.threads[i].stack)])
  }

  /** The region of `c` is marked and blocked, its manager points to `m` and thread `i` waits for the
      load time; but for that, exactly the active subtree has been taken out. */
  ghost predicate Requested(t: Topology, s: State, e: State, i: ThreadId, c: ManagerId, m: ModuleId)
    requires Layered(t) && Typed(t, s) && c in t.mgrs
  {
    && c in s.mgrs && s.mgrs[c].rr.Some? && s.mgrs[c].rr.value in s.regions && c in e.mgrs && e.regions.Keys == s.regions.Keys
    && i < |s.threads| && i < |e.threads|
    && var r, ms := s.mgrs[c].rr.value, Mods(t, s, c);
      && e.mgrs[c] == Manager(Some(m), Some(r))
      && e.threads[i].stack == s.threads[i].stack + [Load(c, r, m, LoadWait)]
      && Taken(t, s, Unclaimed(s, e, i, c), ms, ms, Subs(t, ms))
      && (forall w <- s.regions :: e.regions[w].reconf == (w == r || s.regions[w].reconf)
                                   && e.regions[w].blocked == (w == r || s.regions[w].blocked))
      && Counted(e)
  }

  /** What a request to configure another module has done when it reaches the load wait. */
  lemma ConfigureEffect(t: Topology, states: seq<State>, actions: seq<Action>, n: nat, i: ThreadId, c: ManagerId, m: ModuleId)
    requires Valid(t) && Run(t, states, actions) && n < |states| && Free(states[n], i) && c in t.mgrs
    requires m in t.mods && t.mods[m].home == c && c in states[n].mgrs && states[n].mgrs[c].current != Some(m)
    ensures Layered(t) && Typed(t, states[n])
    ensures var o := DoConfigure(t, states[n], i, c, Some(m)); o.Done? ==> Requested(t, states[n], o.state, i, c, m)
  {
    hide During, Valid, Layered, Typed, Run, Clear, Mods, Requested;
    RunSound(t, states, actions, n);
    LayeredOf(t);
    TypedOf(t, states[n]);
    KeysOf(t, states[n]);
    ConfigureRequested(t, states[n], i, c, m);
  }

  lemma ConfigureRequested(t: Topology, s: State, i: ThreadId, c: ManagerId, m: ModuleId)
    requires Layered(t) && Typed(t, s) && c in t.mgrs && c in s.mgrs && i < |s.threads| && s.threads[i].alive
    requires m in t.mods && t.mods[m].home == c && s.mgrs[c].current != Some(m)
    requires Valid(t) && Sound(t, s)
    ensures var o := DoConfigure(t, s, i, c, Some(m)); o.Done? ==> Requested(t, s, o.state, i, c, m)
  {
    hide During, Valid, Layered, Typed, Clear, Mods, Requested, Vacated, Unload;
    KeysOf(t, s);
    if s.mgrs[c].rr.Some? {
      var r := s.mgrs[c].rr.value;
      if !s.regions[r].reconf && !s.regions[r].blocked {
        ConfigureUnload(t, s, i, c, r);
        var b := SetBlocked(SetReconf(s, r, true), r, true);
        var u := Unload(t, b, c, i);
        if u.Done? && i < |u.state.threads| {
          KeysOf(t, u.state);
          ClaimRequested(t, s, u.state, i, c, r, m);
        }
      }
    }
  }

  lemma ClaimRequested(t: Topology, s: State, u: State, i: ThreadId, c: ManagerId, r: RegionId, m: ModuleId)
    requires Layered(t) && Typed(t, s) && c in t.mgrs && r in s.regions && c in s.mgrs && s.mgrs[c].rr == Some(r) && i < |s.threads|
    requires Vacated(t, s, SetBlocked(SetReconf(s, r, true), r, true), u, i, c)
    ensures Requested(t, s, Claim(u, i, c, r, m), i, c, m)
  {
    hide Layered, Typed, Mods, Subs, Taken;
    var e, f := Claim(u, i, c, r, m), Load(c, r, m, LoadWait);
    assert Unclaimed(s, e, i, c).mgrs == u.mgrs && Unclaimed(s, e, i, c).threads == u.threads;
    CountedClaim(u, i, c, r, m);
    hide Counted;
  }

  lemma CountedClaim(u: State, i: ThreadId, c: ManagerId, r: RegionId, m: ModuleId)
    requires Counted(u) && c in u.mgrs && i < |u.threads|
    ensures Counted(Claim(u, i, c, r, m))
  {
    PushTally(SetCurrent(u, c, Some(m)), i, Load(c, r, m, LoadWait));
    forall w ensures Hit(Load(c, r, m, LoadWait), LockOn(w)) == 0 {}
  }

  // ---- loads in progress ----------------------------------------------------------------------------

  /** The adapters of the members of `m` on region `r`. */
  ghost predicate Belonging(t: Topology, k: (RegionId, MemberId), m: ModuleId, r: RegionId) {
    m in t.mods && k.0 == r && k.1 in t.mods[m].members
  }

  /** Module `m` has been coupled on `r`, with synchronisation or without: bound with all its members, and
      its sub-managers connected; no other pointer has changed. */
  ghost predicate CoupledOn(t: Topology, s: State, e: State, m: ModuleId, r: RegionId, sync: bool, handles: seq<ThreadId>) {
    && m in t.mods && m in s.mods && e.mods.Keys == s.mods.Keys && e.mgrs.Keys == s.mgrs.Keys
    && (forall y <- s.mods :: e.mods[y] == if y == m then Module(Some(r), handles) else s.mods[y])
    && (forall d <- s.mgrs :: e.mgrs[d] == if d in t.mods[m].subs then Manager(s.mgrs[d].current, Some(r)) else s.mgrs[d])
    && (forall k :: k in e.bound <==> k in s.bound || Belonging(t, k, m, r))
    && (forall k <- e.bound :: e.bound[k] == if Belonging(t, k, m, r) then m else s.bound[k])
    && (forall k :: k in e.decoupled <==> k in s.decoupled && !(sync && Belonging(t, k, m, r)))
  }

  lemma CoupleIsOn(t: Topology, s: State, m: ModuleId, r: RegionId, sync: bool)
    requires m in t.mods && m in s.mods && CanCouple(t, s, m, r)
    ensures CoupledOn(t, s, Couple(t, s, m, r, sync), m, r, sync, s.mods[m].handles)
  {
    CoupleEffect(t, s, m, r, sync);
    CoupleKeys(t, s, m, r, sync);
  }

  lemma CoupleKeys(t: Topology, s: State, m: ModuleId, r: RegionId, sync: bool)
    requires m in t.mods && m in s.mods
    ensures var e := Couple(t, s, m, r, sync);
      && (forall k :: k in e.bound <==> k in s.bound || Belonging(t, k, m, r))
      && (forall k <- e.bound :: e.bound[k] == if Belonging(t, k, m, r) then m else s.bound[k])
      && (forall k :: k in e.decoupled <==> k in s.decoupled && !(sync && Belonging(t, k, m, r)))
  {
    var add := map x <- t.mods[m].members :: (r, x) := m;
    forall k ensures k in add <==> Belonging(t, k, m, r) { if Belonging(t, k, m, r) { assert (r, k.1) in add; } }
    forall k ensures k in Keys(r, t.mods[m].members) <==> Belonging(t, k, m, r) { if Belonging(t, k, m, r) { assert (r, k.1) in Keys(r, t.mods[m].members); } }
  }

  /** The processes of `m` are those from number `from` on, alive and at their beginning. */
  ghost predicate Newborns(e: State, m: ModuleId, from: nat, procs: nat) {
    && |e.threads| == from + procs
    && forall j | from <= j < |e.threads| :: e.threads[j] == Thread(Some(m), true, [])
  }

  ghost predicate Numbered(hs: seq<ThreadId>, from: nat, procs: nat) {
    |hs| == procs && forall j | 0 <= j < procs :: hs[j] == from + j
  }

  /** What one stretch of a load changes, when it does not fail. */
  ghost predicate Resumed(t: Topology, s: State, e: State, i: ThreadId)
    requires Top(s, i).Some? && Top(s, i).value.Load?
  {
    var f, rest := Top(s, i).value, s.threads[i].stack[..|s.threads[i].stack| - 1];
    && f.mod in t.mods && f.mod in s.mods && f.rr in s.regions
    && match f.phase
       case LoadWait =>
         && Stacked(s, e, i, rest + [f.(phase := SyncWait)]) && e.regions == s.regions
         && CoupledOn(t, s, e, f.mod, f.rr, true, [])
       case SyncWait =>
         && SameThreadsBut(s, e, i) && e.threads[i].stack == rest + [f.(phase := Activating(0))]
         && SameRegionsBut(s, e, f.rr) && e.regions[f.rr] == s.regions[f.rr].(blocked := false)
         && e.mgrs == s.mgrs && e.bound == s.bound && e.decoupled == s.decoupled && e.mods.Keys == s.mods.Keys
         && (forall y <- s.mods | y != f.mod :: e.mods[y] == s.mods[y]) && e.mods[f.mod].configured == Some(f.rr)
         && Newborns(e, f.mod, |s.threads|, t.mods[f.mod].procs)
         && Numbered(e.mods[f.mod].handles, |s.threads|, t.mods[f.mod].procs)
       case Activating(k) =>
         if k < |t.mods[f.mod].nested| then Nested(t, s, e, i, rest + [f.(phase := Activating(k + 1))], t.mods[f.mod].nested[k])
         else Stacked(s, e, i, rest) && SamePointers(s, e) && SameRegionsBut(s, e, f.rr)
              && e.regions[f.rr] == s.regions[f.rr].(reconf := false)
  }

  /** The nested region `w` is marked and blocked and its preload waits for the load time, if one is
      registered; otherwise nothing has happened. */
  ghost predicate Nested(t: Topology, s: State, e: State, i: ThreadId, stack: seq<Frame>, w: RegionId) {
    && w in t.root
    && if t.root[w] in t.preload then
         var c, m := t.root[w], t.preload[t.root[w]];
         && Stacked(s, e, i, stack + [Load(c, w, m, LoadWait)]) && SameRegionsBut(s, e, w)
         && e.regions[w] == Region(true, true, s.regions[w].count)
         && c in s.mgrs && e.mgrs == s.mgrs[c := Manager(Some(m), Some(w))]
         && e.mods == s.mods && e.bound == s.bound && e.decoupled == s.decoupled
       else Stacked(s, e, i, stack) && SamePointers(s, e) && e.regions == s.regions
  }

  /** The module about to be coupled is configured already, or one of the adapters it needs is bound. */
  ghost predicate Obstructed(t: Topology, s: State, m: ModuleId, r: RegionId) {
    m in t.mods && m in s.mods && (s.mods[m].configured.Some? || exists x <- t.mods[m].members :: (r, x) in s.bound)
  }

  lemma ResumeCouples(t: Topology, s: State, i: ThreadId)
    requires Layered(t) && Typed(t, s) && Enabled(t, s, Resume(i)) && Top(s, i).value.phase == LoadWait
    requires LoadOk(t, s, Top(s, i).value) && s.regions[Top(s, i).value.rr].reconf
    ensures var f, o := Top(s, i).value, DoResume(t, s, i);
      !o.Aborted? && (o.Failed? <==> Obstructed(t, s, f.mod, f.rr)) && (o.Done? ==> Resumed(t, s, o.state, i))
  {
    hide Layered, Typed, Couple;
    var f := Top(s, i).value;
    var b := Replace(s, i, f.(phase := SyncWait));
    if CanCouple(t, s, f.mod, f.rr) {
      CoupleIsOn(t, b, f.mod, f.rr, true);
      CoupleSame(t, b, f.mod, f.rr, true);
      hide CanCouple, CoupledOn;
      SameOn(t, s, b, DoResume(t, s, i).state, f.mod, f.rr, true, s.mods[f.mod].handles);
    }
  }

  lemma SameOn(t: Topology, s: State, b: State, e: State, m: ModuleId, r: RegionId, sync: bool, hs: seq<ThreadId>)
    requires CoupledOn(t, b, e, m, r, sync, hs) && SamePointers(s, b)
    ensures CoupledOn(t, s, e, m, r, sync, hs)
  {
  }

  lemma ResumeActivates(t: Topology, s: State, i: ThreadId)
    requires Layered(t) && Typed(t, s) && Enabled(t, s, Resume(i)) && Top(s, i).value.phase == SyncWait
    requires LoadOk(t, s, Top(s, i).value)
    ensures var o := DoResume(t, s, i); o.Done? && Resumed(t, s, o.state, i)
  {
    hide Layered, Typed;
  }

  lemma ResumePreloads(t: Topology, s: State, i: ThreadId, k: nat)
    requires Layered(t) && Typed(t, s) && Enabled(t, s, Resume(i)) && Top(s, i).value.phase == Activating(k)
    requires LoadOk(t, s, Top(s, i).value) && k < |t.mods[Top(s, i).value.mod].nested| && FlagsOk(s) && Roots(t, s)
    ensures var o := DoResume(t, s, i);
      !o.Aborted? && (o.Failed? <==> PreloadsBusy(t, s, i)) && (o.Done? ==> Resumed(t, s, o.state, i))
  {
    hide Layered, Typed, FlagsOk, Roots;
    KeysOf(t, s);
    var f := Top(s, i).value;
    var w := t.mods[f.mod].nested[k];
    NestedOf(t, f.mod, k);
    RootOf(t, s, w);
    FlagsAt(s, w);
    ReplaceTyped(t, s, i, f.(phase := Activating(k + 1)));
    hide Nested, DoNestedPreload;
    NestedFrom(t, s, i, f, k, w);
  }

  lemma NestedFrom(t: Topology, s: State, i: ThreadId, f: Frame, k: nat, w: RegionId)
    requires Layered(t) && f.Load? && Top(s, i) == Some(f) && w in t.root && t.root[w] in s.mgrs && s.mgrs[t.root[w]].rr == Some(w)
    requires i < |s.threads| && w in s.regions && (s.regions[w].blocked ==> s.regions[w].reconf)
    requires Typed(t, Replace(s, i, f.(phase := Activating(k + 1))))
    ensures var b, rest := Replace(s, i, f.(phase := Activating(k + 1))), s.threads[i].stack[..|s.threads[i].stack| - 1];
      var o := DoNestedPreload(t, b, i, w);
      && !o.Aborted? && (o.Failed? <==> t.root[w] in t.preload && s.regions[w].reconf)
      && (o.Done? ==> Nested(t, s, o.state, i, rest + [f.(phase := Activating(k + 1))], w))
  {
    hide Layered, Typed;
  }

  lemma FlagsAt(s: State, w: RegionId)
    requires FlagsOk(s) && w in s.regions
    ensures s.regions[w].blocked ==> s.regions[w].reconf
  {
  }

  lemma ResumeEnds(t: Topology, s: State, i: ThreadId, k: nat)
    requires Layered(t) && Typed(t, s) && Enabled(t, s, Resume(i)) && Top(s, i).value.phase == Activating(k)
    requires LoadOk(t, s, Top(s, i).value) && s.regions[Top(s, i).value.rr].reconf && k >= |t.mods[Top(s, i).value.mod].nested|
    ensures var o := DoResume(t, s, i); o.Done? && Resumed(t, s, o.state, i)
  {
    hide Layered, Typed;
  }

  /** The load fails exactly when its module is obstructed or it is about to preload a region being
      reconfigured. */
  ghost predicate ResumesAs(t: Topology, s: State, o: Outcome, i: ThreadId)
    requires Top(s, i).Some? && Top(s, i).value.Load?
  {
    var f := Top(s, i).value;
    && !o.Aborted? && (o.Failed? <==> (f.phase == LoadWait && Obstructed(t, s, f.mod, f.rr)) || PreloadsBusy(t, s, i))
    && (o.Done? ==> Resumed(t, s, o.state, i))
  }

  lemma ResumesExactly(t: Topology, s: State, i: ThreadId)
    requires Layered(t) && Typed(t, s) && Top(s, i).Some? && Top(s, i).value.Load?
    requires Top(s, i).value.mgr in t.mgrs && Top(s, i).value.mod in t.mods && Enabled(t, s, Resume(i))
    requires Sound(t, s)
    ensures ResumesAs(t, s, DoResume(t, s, i), i)
  {
    hide Typed, ThreadsOk, HandlesOk, Counted, Exclusive, FlagsOk, CallsBound, Matching, LoadsOk, Tidy, Roots, Layered,
         DecoupledOk, Stationed, Leftovers, SettledPart, SplitPart, PathOk, Resumed, Obstructed, LoadOk, DoResume;
    TopIn(t, s, i, false);
    var f := Top(s, i).value;
    match f.phase
    case LoadWait => ResumeCouples(t, s, i);
    case SyncWait => ResumeActivates(t, s, i);
    case Activating(k) => if k < |t.mods[f.mod].nested| { ResumePreloads(t, s, i, k); } else { ResumeEnds(t, s, i, k); }
  }

  /** A load that goes on fails exactly when its module is obstructed or it is about to preload a region
      being reconfigured; otherwise it does what its phase says and nothing else. */
  lemma ResumeEffect(t: Topology, states: seq<State>, actions: seq<Action>, n: nat, i: ThreadId)
    requires Valid(t) && Run(t, states, actions) && n < |states| && Enabled(t, states[n], Resume(i))
    ensures Layered(t) && Typed(t, states[n])
    ensures Top(states[n], i).Some? && Top(states[n], i).value.Load?
    ensures ResumesAs(t, states[n], Next(t, states[n], Resume(i)), i)
    ensures Next(t, states[n], Resume(i)).Done? ==> Next(t, states[n], Resume(i)).state.started
  {
    hide During, Valid, Layered, Typed, Run, Resumed, Obstructed, DoResume, PreloadsBusy;
    RunSound(t, states, actions, n);
    LayeredOf(t);
    TypedOf(t, states[n]);
    var s := states[n];
    StartedTyped(t, s);
    StartedKeeps(t, s, false);
    var b := s.(started := true);
    ResumesExactly(t, b, i);
    ResumedStarted(t, s, i, Top(s, i).value.mod, Top(s, i).value.rr);
    if DoResume(t, b, i).Done? {
      ResumedFrom(t, s, DoResume(t, b, i).state, i);
      StaysStarted(t, b, i);
    }
  }

  lemma StaysStarted(t: Topology, s: State, i: ThreadId)
    requires Layered(t) && Typed(t, s) && Enabled(t, s, Resume(i)) && DoResume(t, s, i).Done?
    ensures DoResume(t, s, i).state.started == s.started
  {
    hide Layered, Typed, CanCouple;
    KeysOf(t, s);
  }

  lemma ResumedStarted(t: Topology, s: State, i: ThreadId, m: ModuleId, r: RegionId)
    ensures Obstructed(t, s.(started := true), m, r) <==> Obstructed(t, s, m, r)
    ensures PreloadsBusy(t, s.(started := true), i) <==> PreloadsBusy(t, s, i)
  {
  }

  lemma ResumedFrom(t: Topology, s: State, e: State, i: ThreadId)
    requires Top(s, i).Some? && Top(s, i).value.Load? && Resumed(t, s.(started := true), e, i)
    ensures Resumed(t, s, e, i)
  {
    hide CoupledOn, Newborns, Numbered;
    var b, f := s.(started := true), Top(s, i).value;
    if f.phase == LoadWait { SameOn(t, s, b, e, f.mod, f.rr, true, []); }
  }

  // ---- preloads before simulation -------------------------------------------------------------------

  /** Until the simulation starts nothing but preloads happens, and no region is touched. */
  lemma {:induction false} UntouchedBefore(t: Topology, states: seq<State>, actions: seq<Action>, n: nat)
    requires Run(t, states, actions) && n < |states| && !states[n].started
    ensures forall r <- states[n].regions :: states[n].regions[r] == Region(false, false, 0)
  {
    hide Layered, Typed, Enabled, DoStartPreload, Moves, Init, Next;
    if n == 0 {
      BeginsIdle(t, states, actions);
    } else {
      RunSteps(t, states, actions, n - 1);
      var s, a := states[n - 1], actions[n - 1];
      if a.StartPreload? {
        StartRegions(t, s, a);
        UntouchedBefore(t, states, actions, n - 1);
      } else {
        NotStart(t, s, a);
      }
    }
  }

  lemma BeginsIdle(t: Topology, states: seq<State>, actions: seq<Action>)
    requires Run(t, states, actions)
    ensures forall r <- states[0].regions :: states[0].regions[r] == Region(false, false, 0)
  {
    hide Moves;
  }

  lemma StartRegions(t: Topology, s: State, a: Action)
    requires Layered(t) && Typed(t, s) && Enabled(t, s, a) && a.StartPreload?
    ensures var o := Next(t, s, a); !o.Failed? ==> o.state.regions == s.regions && o.state.started == s.started
  {
    hide Layered, Typed, CanCouple;
    KeysOf(t, s);
    if a.c in t.preload { PreloadHome(t, a.c); }
  }

  /** Every other step starts the simulation, and it stays started. */
  lemma NotStart(t: Topology, s: State, a: Action)
    requires Layered(t) && Typed(t, s) && Enabled(t, s, a) && !a.StartPreload?
    ensures var o := Next(t, s, a); !o.Failed? ==> o.state.started
  {
    hide Layered, Typed, Unload, UnloadModule, CanCouple, DoConfigure, DoUnload, DoResume;
    StartedTyped(t, s);
    KeysOf(t, s);
    var b := s.(started := true);
    match a
    case Configure(i, c, found) => RequestStarted(t, b, i, c, found);
    case UnloadRequest(i, c) => RequestStarted(t, b, i, c, None);
    case Resume(i) => if DoResume(t, b, i).Done? { StaysStarted(t, b, i); } NotAborting(t, b, i);
    case _ =>
  }

  lemma RequestStarted(t: Topology, s: State, i: ThreadId, c: ManagerId, found: Option<ModuleId>)
    requires Layered(t) && Typed(t, s) && c in t.mgrs && i < |s.threads| && s.started
    requires found.Some? ==> found.value in t.mods && t.mods[found.value].home == c
    ensures var o := DoConfigure(t, s, i, c, found); !o.Failed? ==> o.state.started
    ensures var o := DoUnload(t, s, i, c); !o.Failed? ==> o.state.started
  {
    hide Layered, Typed, Unload;
    KeysOf(t, s);
    if s.mgrs[c].rr.Some? {
      var r := s.mgrs[c].rr.value;
      SetReconfTyped(t, s, r, true);
      BeginTyped(t, s, r);
      UnloadFewer(t, SetReconf(s, r, true), c, i);
      UnloadFewer(t, SetBlocked(SetReconf(s, r, true), r, true), c, i);
    }
  }

  lemma NotAborting(t: Topology, s: State, i: ThreadId)
    requires Layered(t) && Typed(t, s) && Enabled(t, s, Resume(i))
    ensures !DoResume(t, s, i).Aborted?
  {
    hide Layered, Typed, CanCouple;
    KeysOf(t, s);
  }

  /** The module is current, coupled with all its members, its sub-managers connected and its processes
      running; nothing else has changed, so the region is still idle. */
  ghost predicate LoadedAtStart(t: Topology, s: State, e: State, c: ManagerId, m: ModuleId, r: RegionId) {
    && c in s.mgrs && c in e.mgrs && m in t.mods && m in e.mods
    && e.mgrs[c] == Manager(Some(m), Some(r)) && Settled(t, e, m, r)
    && CoupledOn(t, SetCurrent(s, c, Some(m)), e, m, r, false, e.mods[m].handles)
    && e.regions == s.regions && Newborns(e, m, |s.threads|, t.mods[m].procs) && e.threads[..|s.threads|] == s.threads
    && Numbered(e.mods[m].handles, |s.threads|, t.mods[m].procs)
    && !e.started
  }

  lemma StartsFrom(t: Topology, s: State, c: ManagerId, r: RegionId)
    requires Layered(t) && Typed(t, s) && Enabled(t, s, StartPreload(c)) && s.mgrs[c].rr == Some(r) && r in s.regions
    requires !s.regions[r].reconf && !s.regions[r].blocked && c !in t.mods[t.preload[c]].subs && t.preload[c] in s.mods
    requires s.mods[t.preload[c]].configured.None? ==> s.mods[t.preload[c]].handles == []
    ensures var m, o := t.preload[c], DoStartPreload(t, s, c);
      && !o.Aborted? && (o.Failed? <==> Obstructed(t, s, m, r))
      && (o.Done? ==> LoadedAtStart(t, s, o.state, c, m, r))
  {
    hide Layered, Typed, Couple;
    KeysOf(t, s);
    var m, b := t.preload[c], SetCurrent(s, c, Some(t.preload[c]));
    if CanCouple(t, s, m, r) {
      CoupleIsOn(t, b, m, r, false);
      CoupleSame(t, b, m, r, false);
      hide CanCouple;
      var k := Couple(t, b, m, r, false);
      hide Obstructed;
      ActivatesOn(t, b, k, m, r);
    }
  }

  lemma ActivatesOn(t: Topology, b: State, k: State, m: ModuleId, r: RegionId)
    requires CoupledOn(t, b, k, m, r, false, []) && k.threads == b.threads
    ensures var e := Activate(t, k, m);
      && m in e.mods && CoupledOn(t, b, e, m, r, false, e.mods[m].handles) && Settled(t, e, m, r)
      && Newborns(e, m, |b.threads|, t.mods[m].procs) && e.threads[..|b.threads|] == b.threads
      && Numbered(e.mods[m].handles, |b.threads|, t.mods[m].procs)
  {
  }

  /** The preload fails exactly when the manager is not connected or the module obstructed. */
  ghost predicate StartsAs(t: Topology, s: State, o: Outcome, c: ManagerId)
    requires c in t.preload && c in s.mgrs
  {
    && !o.Aborted?
    && (o.Failed? <==> s.mgrs[c].rr.None? || Obstructed(t, s, t.preload[c], s.mgrs[c].rr.value))
    && (o.Done? ==> LoadedAtStart(t, s, o.state, c, t.preload[c], s.mgrs[c].rr.value)
                    && s.mgrs[c].rr.value in s.regions && s.regions[s.mgrs[c].rr.value] == Region(false, false, 0))
  }

  /** A preload before simulation fails exactly when its manager is not connected or its module
      obstructed; otherwise the module is loaded at once and the region as idle as before. */
  lemma StartExact(t: Topology, states: seq<State>, actions: seq<Action>, n: nat, c: ManagerId)
    requires Valid(t) && Run(t, states, actions) && n < |states| && Enabled(t, states[n], StartPreload(c))
    ensures Layered(t) && Typed(t, states[n]) && c in t.preload && c in states[n].mgrs
    ensures StartsAs(t, states[n], Next(t, states[n], StartPreload(c)), c)
  {
    hide Valid, Layered, Typed, Run, Obstructed, LoadedAtStart, DoStartPreload, During;
    RunSound(t, states, actions, n);
    LayeredOf(t);
    TypedOf(t, states[n]);
    KeysOf(t, states[n]);
    PreloadHome(t, c);
    UntouchedBefore(t, states, actions, n);
    var s := states[n];
    if s.mgrs[c].rr.Some? {
      NoneLeft(t, s, c);
      NotOwnSub(t, t.preload[c]);
      StartsFrom(t, s, c, s.mgrs[c].rr.value);
    } else {
      Disconnected(t, s, c);
    }
  }

  /** On an idle region a module that is not configured has no processes. */
  lemma NoneLeft(t: Topology, s: State, c: ManagerId)
    requires c in t.preload && t.preload[c] in t.mods && t.mods[t.preload[c]].home == c && t.preload[c] in s.mods
    requires c in s.mgrs && s.mgrs[c].rr.Some? && s.mgrs[c].rr.value in s.regions && !s.regions[s.mgrs[c].rr.value].reconf
    requires Sound(t, s)
    ensures s.mods[t.preload[c]].configured.None? ==> s.mods[t.preload[c]].handles == []
  {
    hide Valid, Typed, ThreadsOk, HandlesOk, Counted, Exclusive, FlagsOk, Belongs,
         CallsBound, Matching, LoadsOk, Tidy, Roots, DecoupledOk, Stationed, Leftovers, SettledPart, SplitPart, PathOk;
    StationAt(t, s, c);
    UntouchedHandles(t, s, t.preload[c], s.mgrs[c].rr.value, {}, {});
  }

  lemma Disconnected(t: Topology, s: State, c: ManagerId)
    requires Layered(t) && Typed(t, s) && Enabled(t, s, StartPreload(c)) && c in s.mgrs && s.mgrs[c].rr.None?
    ensures DoStartPreload(t, s, c).Failed?
  {
  }

  /** While no module has been preloaded over, and with complementary sub-interfaces, nothing obstructs
      the module of an empty manager: the preload of a connected region always succeeds. */
  lemma StartCompletes(t: Topology, states: seq<State>, actions: seq<Action>, n: nat, c: ManagerId)
    requires Valid(t) && Complementary(t) && TidyRun(t, states, actions) && n < |states|
    requires Enabled(t, states[n], StartPreload(c)) && c in states[n].mgrs && states[n].mgrs[c].current.None?
    ensures Layered(t) && Typed(t, states[n]) && c in t.preload
    ensures Next(t, states[n], StartPreload(c)).Done? <==> states[n].mgrs[c].rr.Some?
    ensures StartsAs(t, states[n], Next(t, states[n], StartPreload(c)), c)
  {
    hide Valid, Layered, Typed, Run, TidyRun, Obstructed, LoadedAtStart, During, Complementary, Next;
    AllTidy(t, states, actions);
    RunInv(t, states, actions, n);
    StartExact(t, states, actions, n, c);
    PreloadHome(t, c);
    if states[n].mgrs[c].rr.Some? {
      Unobstructed(t, states[n], c, t.preload[c], states[n].mgrs[c].rr.value);
    }
  }

  lemma AllTidy(t: Topology, states: seq<State>, actions: seq<Action>)
    requires TidyRun(t, states, actions)
    ensures Run(t, states, actions)
  {
    hide Moves, Init, Overwrites;
    forall k | 0 <= k < |actions| ensures Moves(t, states[k], actions[k], states[k + 1]) {
      assert TidyMoves(t, states[k], actions[k], states[k + 1]);
    }
  }

  lemma Unobstructed(t: Topology, s: State, c: ManagerId, m: ModuleId, r: RegionId)
    requires Valid(t) && Complementary(t) && Inv(t, s) && c in s.mgrs && s.mgrs[c] == Manager(None, Some(r))
    requires m in t.mods && t.mods[m].home == c
    ensures !Obstructed(t, s, m, r)
  {
    hide Typed, ThreadsOk, HandlesOk, Counted, Exclusive, FlagsOk, CallsBound, LoadsOk, Homes, Roots,
         Connected, DecoupledOk, Stationed, Leftovers, WaitsOk, BlockedOk, SettledPart, SplitPart, PathOk, Valid, Complementary, Matching;
    KeysOf(t, s);
    TakeHomes(t, s, c, m);
    if Obstructed(t, s, m, r) {
      var x :| x in t.mods[m].members && (r, x) in s.bound;
      BoundBy(t, s, r, x);
      ApartFromEmpty(t, s, c, m, r, s.bound[(r, x)]);
    }
  }

  /** A module loaded on the region shares no member with a module of an empty manager. */
  lemma ApartFromEmpty(t: Topology, s: State, c: ManagerId, m: ModuleId, r: RegionId, y: ModuleId)
    requires Valid(t) && Complementary(t) && Connected(t, s) && Roots(t, s) && r in t.root
    requires c in t.mgrs && m in t.mods && t.mods[m].home == c && c in s.mgrs && s.mgrs[c] == Manager(None, Some(r))
    requires y in t.mods && t.mods[y].home in t.mgrs
    requires t.mods[y].home in s.mgrs && s.mgrs[t.mods[y].home] == Manager(Some(y), Some(r))
    ensures t.mods[m].members !! t.mods[y].members
  {
    hide Valid, Roots, Connected;
    var d := t.mods[y].home;
    SharedRegion(t, s, c, d, r);
    if d == t.root[r] {
      assert |t.mods[y].subs| > 0;
    } else {
      var w, i, j :| w in t.mods && 0 <= i < |t.mods[w].subs| && 0 <= j < |t.mods[w].subs|
                     && t.mods[w].subs[i] == c && t.mods[w].subs[j] == d;
    }
  }

  // ---- a call holds its module ----------------------------------------------------------------------

  /** If thread `i` is alive afterwards it was before, and the first `d` entries of its stack are the same. */
  ghost predicate Grips(s: State, n: State, i: ThreadId, d: nat) {
    && i < |s.threads| && i < |n.threads|
    && (n.threads[i].alive ==> s.threads[i].alive && d <= |s.threads[i].stack| && d <= |n.threads[i].stack|
                               && n.threads[i].stack[..d] == s.threads[i].stack[..d])
  }

  /** The innermost of the first `d` entries, if any, is a call that the action does not end. */
  ghost predicate Holding(s: State, a: Action, i: ThreadId, d: nat) {
    && i < |s.threads| && d <= |s.threads[i].stack|
    && (d > 0 ==> s.threads[i].stack[d - 1].Call? && !(a == Return(i) && |s.threads[i].stack| == d))
  }

  lemma SameGrips(s: State, n: State, i: ThreadId, d: nat)
    requires i < |s.threads| && i < |n.threads| && d <= |s.threads[i].stack|
    requires n.threads[i] == s.threads[i] || !n.threads[i].alive
    ensures Grips(s, n, i, d)
  {
  }

  lemma StackGrips(s: State, n: State, j: ThreadId, stack: seq<Frame>, i: ThreadId, d: nat)
    requires SameThreadsBut(s, n, j) && n.threads[j].stack == stack && i < |s.threads| && d <= |s.threads[i].stack|
    requires i == j ==> d <= |stack| && stack[..d] == s.threads[i].stack[..d]
    ensures Grips(s, n, i, d)
  {
  }

  lemma RequestGrips(t: Topology, s: State, a: Action, i: ThreadId, d: nat)
    requires Layered(t) && Typed(t, s) && Enabled(t, s, a) && (a.Configure? || a.UnloadRequest?) && i < |s.threads| && d <= |s.threads[i].stack|
    requires Valid(t) && Sound(t, s)
    ensures a.Configure? ==> var o := DoConfigure(t, s, a.i, a.c, a.found); !o.Failed? ==> Grips(s, o.state, i, d)
    ensures a.UnloadRequest? ==> var o := DoUnload(t, s, a.i, a.c); !o.Failed? ==> Grips(s, o.state, i, d)
  {
    hide Valid, Layered, Typed, Grips, During, Requested, Cuts, Stopped, Clear, Mods, DoConfigure, DoUnload;
    KeysOf(t, s);
    if a.Configure? {
      var o := DoConfigure(t, s, a.i, a.c, a.found);
      if a.found.None? || a.found == s.mgrs[a.c].current {
        StayedAs(t, s, a.i, a.c, a.found);
        if o.Done? { SameGrips(s, s, i, d); }
      } else {
        ConfigureRequested(t, s, a.i, a.c, a.found.value);
        var x := ConfigureCut(t, s, a.i, a.c, a.found.value);
        if o.Done? { RequestedGrips(t, s, o.state, a.i, a.c, a.found.value, i, d); }
        if o.Aborted? { CutGrips(t, s, o, Closing(Walk(t, s, a.c, x), s.mgrs[a.c].rr.value), x, a.i, i, d); }
      }
    } else {
      var o := DoUnload(t, s, a.i, a.c);
      var x := UnloadRequestCut(t, s, a.i, a.c);
      if o.Aborted? { CutGrips(t, s, o, Marking(Walk(t, s, a.c, x), s.mgrs[a.c].rr.value), x, a.i, i, d); }
      if o.Done? { UnloadGrips(t, s, a.i, a.c, i, d); }
    }
  }

  lemma StayedAs(t: Topology, s: State, i: ThreadId, c: ManagerId, found: Option<ModuleId>)
    requires Layered(t) && Typed(t, s) && c in t.mgrs && i < |s.threads|
    requires found.None? || found == s.mgrs[c].current
    requires found.Some? ==> found.value in t.mods && t.mods[found.value].home == c
    ensures DoConfigure(t, s, i, c, found) == if found.None? then Failed else Done(s)
  {
  }

  lemma UnloadGrips(t: Topology, s: State, me: ThreadId, c: ManagerId, i: ThreadId, d: nat)
    requires Layered(t) && Typed(t, s) && c in t.mgrs && me < |s.threads| && s.threads[me].alive && DoUnload(t, s, me, c).Done?
    requires i < |s.threads| && d <= |s.threads[i].stack|
    requires Valid(t) && Sound(t, s)
    ensures Grips(s, DoUnload(t, s, me, c).state, i, d)
  {
    hide Valid, Layered, Typed, Grips, Clear, Mods, UnloadModule, ThreadsOk, HandlesOk, Counted, Exclusive, FlagsOk, CallsBound,
         Matching, LoadsOk, Tidy, Roots, DecoupledOk, Stationed, Leftovers, SettledPart, SplitPart;
    KeysOf(t, s);
    UnloadModuleExact(t, s, c, s.mgrs[c].rr.value, me, {}, {});
    var ms := Mods(t, s, c);
    TakenThreads(t, s, DoUnload(t, s, me, c).state, ms, ms, Subs(t, ms));
    SameGrips(s, DoUnload(t, s, me, c).state, i, d);
  }

  lemma CutGrips(t: Topology, s: State, o: Outcome, w: Trace, x: ModuleId, me: ThreadId, i: ThreadId, d: nat)
    requires Stopped(t, s, o, w, x, me) && i < |s.threads| && d <= |s.threads[i].stack|
    ensures Grips(s, o.state, i, d)
  {
    hide CutPointers, CutBindings, Marks;
  }

  lemma RequestedGrips(t: Topology, s: State, e: State, j: ThreadId, c: ManagerId, m: ModuleId, i: ThreadId, d: nat)
    requires Layered(t) && Typed(t, s) && c in t.mgrs && Requested(t, s, e, j, c, m)
    requires i < |s.threads| && d <= |s.threads[i].stack|
    ensures Grips(s, e, i, d)
  {
    hide Layered, Typed, Mods, Subs, TakenPointers, TakenBindings;
    var u := Unclaimed(s, e, j, c);
    assert |u.threads| == |e.threads|;
    if i == j {
      assert e.threads[i].stack[..d] == s.threads[i].stack[..d];
      assert u.threads[i].alive == e.threads[i].alive;
    } else {
      assert u.threads[i] == e.threads[i];
    }
  }

  lemma ResumeGrips(t: Topology, s: State, j: ThreadId, i: ThreadId, d: nat)
    requires Layered(t) && Typed(t, s) && Enabled(t, s, Resume(j)) && Holding(s, Resume(j), i, d)
    requires Sound(t, s)
    ensures var o := DoResume(t, s, j); !o.Failed? ==> Grips(s, o.state, i, d)
  {
    hide Layered, Typed, During, Grips, DoResume, CoupledOn, Newborns, Numbered, Obstructed, PreloadsBusy, SameRegionsBut, SamePointers;
    ResumesExactly(t, s, j);
    var o, rest := DoResume(t, s, j), s.threads[j].stack[..|s.threads[j].stack| - 1];
    if o.Done? {
      var stack := o.state.threads[j].stack;
      assert i == j ==> d <= |rest|;
      assert rest <= stack;
      StackGrips(s, o.state, j, stack, i, d);
    }
  }

  lemma StepGrips(t: Topology, s: State, a: Action, i: ThreadId, d: nat)
    requires Layered(t) && Typed(t, s) && Enabled(t, s, a) && Holding(s, a, i, d)
    requires Valid(t) && Sound(t, s)
    ensures var o := Next(t, s, a); !o.Failed? ==> Grips(s, o.state, i, d)
  {
    hide Valid, Layered, Typed, During, Grips, Next, Enabled, Holding;
    match a
    case StartPreload(_) => StartGrips(t, s, a, i, d);
    case Configure(_, _, _) => RequestStepGrips(t, s, a, i, d);
    case UnloadRequest(_, _) => RequestStepGrips(t, s, a, i, d);
    case Resume(_) => ResumeStepGrips(t, s, a, i, d);
    case _ => CallStepGrips(t, s, a, i, d);
  }

  lemma StartGrips(t: Topology, s: State, a: Action, i: ThreadId, d: nat)
    requires Layered(t) && Typed(t, s) && Enabled(t, s, a) && a.StartPreload? && Holding(s, a, i, d)
    ensures var o := Next(t, s, a); !o.Failed? ==> Grips(s, o.state, i, d)
  {
    hide Layered, Typed, CanCouple;
    KeysOf(t, s);
  }

  lemma RequestStepGrips(t: Topology, s: State, a: Action, i: ThreadId, d: nat)
    requires Layered(t) && Typed(t, s) && Enabled(t, s, a) && (a.Configure? || a.UnloadRequest?) && Holding(s, a, i, d)
    requires Valid(t) && Sound(t, s)
    ensures var o := Next(t, s, a); !o.Failed? ==> Grips(s, o.state, i, d)
  {
    hide Valid, Layered, Typed, During, DoConfigure, DoUnload;
    StartedTyped(t, s);
    StartedKeeps(t, s, false);
    RequestGrips(t, s.(started := true), a, i, d);
  }

  lemma ResumeStepGrips(t: Topology, s: State, a: Action, i: ThreadId, d: nat)
    requires Layered(t) && Typed(t, s) && Enabled(t, s, a) && a.Resume? && Holding(s, a, i, d)
    requires Sound(t, s)
    ensures var o := Next(t, s, a); !o.Failed? ==> Grips(s, o.state, i, d)
  {
    hide Layered, Typed, During, DoResume;
    StartedTyped(t, s);
    StartedKeeps(t, s, false);
    ResumeGrips(t, s.(started := true), a.i, i, d);
  }

  lemma CallStepGrips(t: Topology, s: State, a: Action, i: ThreadId, d: nat)
    requires Layered(t) && Typed(t, s) && Enabled(t, s, a) && (a.Enter? || a.EnterOut? || a.Return? || a.Exit?) && Holding(s, a, i, d)
    ensures var o := Next(t, s, a); !o.Failed? ==> Grips(s, o.state, i, d)
  {
    hide Layered, Typed;
    KeysOf(t, s);
  }

  /** Thread `i` does not return, between steps `n` and `k`, from the call at depth `d` of its stack. */
  ghost predicate NoReturn(states: seq<State>, actions: seq<Action>, n: nat, k: nat, i: ThreadId, d: nat) {
    n < k < |states| == |actions| + 1
    && forall e | n < e < k && i < |states[e].threads| && |states[e].threads[i].stack| == d :: actions[e] != Return(i)
  }

  /** The frame that call `a` leaves on the stack. */
  ghost function FrameOf(s: State, a: Action): Frame
    requires a.Enter? && (a.r, a.x) in s.bound
  {
    Call(a.r, a.x, s.bound[(a.r, a.x)])
  }

  lemma {:induction false} StillCalling(t: Topology, states: seq<State>, actions: seq<Action>, n: nat, k: nat, i: ThreadId, d: nat)
    requires Valid(t) && Run(t, states, actions) && NoReturn(states, actions, n, k, i, d)
    requires actions[n].Enter? && actions[n].i == i && (actions[n].r, actions[n].x) in states[n].bound
    requires i < |states[n].threads| && d == |states[n].threads[i].stack| + 1
    ensures i < |states[k].threads|
    ensures states[k].threads[i].alive ==>
      d <= |states[k].threads[i].stack| && states[k].threads[i].stack[..d] == states[n].threads[i].stack + [FrameOf(states[n], actions[n])]
    decreases k
  {
    hide Valid, During, Next, Typed, Layered, Run;
    var a := actions[n];
    if k == n + 1 {
      RunSteps(t, states, actions, n);
      EnterExact(t, states, actions, n, i, a.r, a.x);
    } else {
      RunSteps(t, states, actions, k - 1);
      RunSound(t, states, actions, k - 1);
      StillCalling(t, states, actions, n, k - 1, i, d);
      if states[k - 1].threads[i].alive {
        assert states[k - 1].threads[i].stack[d - 1] == states[k - 1].threads[i].stack[..d][d - 1];
        StepGrips(t, states[k - 1], actions[k - 1], i, d);
      } else {
        StepGrips(t, states[k - 1], actions[k - 1], i, 0);
      }
    }
  }

  /** From the beginning of a call into a module until it returns or its thread is killed, the call is on
      its thread's stack, the module it entered stays bound and configured, and every request to take
      the region's module away fails. */
  lemma CallHolds(t: Topology, states: seq<State>, actions: seq<Action>, n: nat, k: nat, i: ThreadId, r: RegionId, x: MemberId)
    requires Valid(t) && Run(t, states, actions) && n < |actions| && actions[n] == Enter(i, r, x)
    requires i < |states[n].threads| && NoReturn(states, actions, n, k, i, |states[n].threads[i].stack| + 1)
    requires i < |states[k].threads| ==> states[k].threads[i].alive
    ensures i < |states[k].threads| && (r, x) in states[n].bound
    ensures var s, d, m := states[k], |states[n].threads[i].stack| + 1, states[n].bound[(r, x)];
      && d <= |s.threads[i].stack| && s.threads[i].stack[..d] == states[n].threads[i].stack + [Call(r, x, m)]
      && r in s.regions && s.regions[r].count > 0
      && (r, x) in s.bound && s.bound[(r, x)] == m && m in s.mods && s.mods[m].configured == Some(r)
    ensures Refuses(t, states[k], r)
  {
    hide Valid, During, Next, Typed, Layered, Run, Refuses;
    RunSteps(t, states, actions, n);
    EnterExact(t, states, actions, n, i, r, x);
    var d := |states[n].threads[i].stack| + 1;
    StillCalling(t, states, actions, n, k, i, d);
    RunSound(t, states, actions, k);
    LayeredOf(t);
    TypedOf(t, states[k]);
    assert states[k].threads[i].stack[d - 1] == states[k].threads[i].stack[..d][d - 1];
    HeldAt(t, states[k], i, d - 1);
    CountedRefuses(t, states[k], r);
  }

  /** A request to unload the module that manager `a.c` has on region `r`, or to replace it. */
  ghost predicate TakesFrom(s: State, a: Action, r: RegionId) {
    && (a.Configure? || a.UnloadRequest?) && a.c in s.mgrs && s.mgrs[a.c].current.Some? && s.mgrs[a.c].rr == Some(r)
    && (a.Configure? ==> a.found != s.mgrs[a.c].current)
  }

  /** Every such request fails, whoever makes it. */
  ghost predicate Refuses(t: Topology, s: State, r: RegionId) {
    Layered(t) && Typed(t, s) && forall a | Enabled(t, s, a) && TakesFrom(s, a, r) :: Next(t, s, a).Failed?
  }

  lemma CountedRefuses(t: Topology, s: State, r: RegionId)
    requires Layered(t) && Typed(t, s) && r in s.regions && s.regions[r].count > 0
    ensures Refuses(t, s, r)
  {
    hide Typed, Layered, DoConfigure, DoUnload;
    forall a | Enabled(t, s, a) && TakesFrom(s, a, r) ensures Next(t, s, a).Failed? {
      var b := s.(started := true);
      StartedTyped(t, s);
      if a.UnloadRequest? {
        BusyRefuses(t, b, a.i, a.c);
      } else if a.found.None? {
        StayedAs(t, b, a.i, a.c, a.found);
      } else {
        BusyRefusesOther(t, b, a.i, a.c, a.found.value);
      }
    }
  }

  lemma HeldAt(t: Topology, s: State, i: ThreadId, a: nat)
    requires Sound(t, s) && i < |s.threads| && a < |s.threads[i].stack| && s.threads[i].stack[a].Call?
    ensures var f := s.threads[i].stack[a];
      && f.rr in s.regions && s.regions[f.rr].count > 0
      && (f.rr, f.mem) in s.bound && s.bound[(f.rr, f.mem)] == f.mod && f.mod in s.mods && s.mods[f.mod].configured == Some(f.rr)
  {
    hide During;
    CallsSafe(t, s);
    TallyMember(s.threads, i, a, LockOn(s.threads[i].stack[a].rr));
    assert Hit(s.threads[i].stack[a], LockOn(s.threads[i].stack[a].rr)) == 1;
  }

  lemma BusyRefuses(t: Topology, s: State, j: ThreadId, c: ManagerId)
    requires Layered(t) && Typed(t, s) && c in t.mgrs && s.mgrs[c].current.Some? && s.mgrs[c].rr.Some?
    requires s.regions[s.mgrs[c].rr.value].count > 0
    ensures DoUnload(t, s, j, c).Failed?
  {
    hide Layered, Typed, Unload;
    KeysOf(t, s);
    var r := s.mgrs[c].rr.value;
    if !s.regions[r].reconf {
      SetReconfTyped(t, s, r, true);
      UnloadBusy(t, SetReconf(s, r, true), c, j);
    }
  }

  lemma BusyRefusesOther(t: Topology, s: State, j: ThreadId, c: ManagerId, m: ModuleId)
    requires Layered(t) && Typed(t, s) && c in t.mgrs && s.mgrs[c].current.Some? && s.mgrs[c].rr.Some? && j < |s.threads|
    requires s.regions[s.mgrs[c].rr.value].count > 0 && m in t.mods && t.mods[m].home == c && s.mgrs[c].current != Some(m)
    ensures DoConfigure(t, s, j, c, Some(m)).Failed?
  {
    hide Layered, Typed, Unload;
    KeysOf(t, s);
    var r := s.mgrs[c].rr.value;
    BeginTyped(t, s, r);
    UnloadBusy(t, SetBlocked(SetReconf(s, r, true), r, true), c, j);
  }
}
