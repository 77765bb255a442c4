/** Nothing is left over: processes are conserved over loads and unloads, and unloading a split
    manager leaves no sub-manager behind. */
module Conservation {
  import opened Model
  import opened Teardown
  import opened Invariants
  import opened Effects
  import opened UnloadSafety
  import opened Protocol
  import opened LoadEffects
  import opened Steps
  import opened Safety
  import opened Closure
  import opened Exactness
  import opened Guarantees
  import opened Slots
  import opened Refinement

  // ---- processes ---------------------------------------------------------------------------

  /** Every module holds one handle per registered spawn argument, or none. */
  ghost predicate Manned(t: Topology, s: State) {
    forall m <- s.mods | m in t.mods :: s.mods[m].handles == [] || |s.mods[m].handles| == t.mods[m].procs
  }

  lemma FewerManned(t: Topology, s: State, n: State)
    requires Manned(t, s) && n.mods.Keys == s.mods.Keys
    requires forall m <- s.mods :: n.mods[m].handles in {s.mods[m].handles, []}
    ensures Manned(t, n)
  {
  }

  lemma CoupleManned(t: Topology, s: State, m: ModuleId, r: RegionId, sync: bool)
    requires Manned(t, s) && m in t.mods && m in s.mods
    ensures Manned(t, Couple(t, s, m, r, sync)) && Couple(t, s, m, r, sync).mods.Keys == s.mods.Keys
    ensures Couple(t, s, m, r, sync).mods[m].handles == s.mods[m].handles
  {
    CoupleEffect(t, s, m, r, sync);
  }

  lemma ActivateManned(t: Topology, s: State, m: ModuleId)
    requires Manned(t, s) && m in t.mods && m in s.mods && s.mods[m].handles == []
    ensures Manned(t, Activate(t, s, m))
  {
  }

  lemma UnloadManned(t: Topology, s: State, i: ThreadId, c: ManagerId)
    requires Layered(t) && Typed(t, s) && c in t.mgrs && Manned(t, s)
    ensures var o := Unload(t, s, c, i); !o.Failed? ==> Manned(t, o.state)
  {
    hide Layered, Typed, Unload, Under;
    UnloadApart(t, s, c, i);
    var o := Unload(t, s, c, i);
    if !o.Failed? { FewerManned(t, s, o.state); }
  }

  lemma ResumeManned(t: Topology, s: State, i: ThreadId)
    requires Layered(t) && Typed(t, s) && Enabled(t, s, Resume(i)) && Manned(t, s)
    requires Sound(t, s)
    ensures var o := DoResume(t, s, i); !o.Failed? ==> Manned(t, o.state)
  {
    hide During, Layered, Typed, Couple, Activate, CanCouple;
    KeysOf(t, s);
    TopIn(t, s, i, false);
    var f := Top(s, i).value;
    match f.phase
    case LoadWait => CoupleManned(t, Replace(s, i, f.(phase := SyncWait)), f.mod, f.rr, true);
    case SyncWait => ActivateManned(t, SetBlocked(Replace(s, i, f.(phase := Activating(0))), f.rr, false), f.mod);
    case Activating(k) =>
  }

  lemma StartManned(t: Topology, s: State, c: ManagerId)
    requires Layered(t) && Typed(t, s) && Enabled(t, s, StartPreload(c)) && Manned(t, s)
    requires Valid(t) && Sound(t, s)
    ensures var o := DoStartPreload(t, s, c); !o.Failed? ==> Manned(t, o.state)
  {
    hide During, Valid, Layered, Typed, Couple, Activate, CanCouple;
    KeysOf(t, s);
    PreloadHome(t, c);
    if !DoStartPreload(t, s, c).Failed? {
      SpawnAtStart(t, s, c);
      var b, m, r := SetCurrent(s, c, Some(t.preload[c])), t.preload[c], s.mgrs[c].rr.value;
      CoupleManned(t, b, m, r, false);
      ActivateManned(t, Couple(t, b, m, r, false), m);
    }
  }

  lemma RequestManned(t: Topology, s: State, a: Action)
    requires Layered(t) && Typed(t, s) && Enabled(t, s, a) && Manned(t, s) && (a.Configure? || a.UnloadRequest?)
    ensures var o := Next(t, s, a); !o.Failed? ==> Manned(t, o.state)
  {
    hide Layered, Typed, Unload;
    StartedTyped(t, s);
    KeysOf(t, s);
    var n := s.(started := true);
    var c := a.c;
    if n.mgrs[c].rr.Some? {
      var r := n.mgrs[c].rr.value;
      BeginTyped(t, n, r);
      SetReconfTyped(t, n, r, true);
      UnloadManned(t, SetBlocked(SetReconf(n, r, true), r, true), a.i, c);
      UnloadManned(t, SetReconf(n, r, true), a.i, c);
    }
  }

  lemma StepManned(t: Topology, s: State, a: Action, n: State)
    requires Valid(t) && Sound(t, s) && Moves(t, s, a, n) && Manned(t, s)
    ensures Manned(t, n)
  {
    hide During, Valid, Layered, Typed, Manned, DoResume, DoStartPreload;
    match a
    case StartPreload(c) => StartManned(t, s, c);
    case Configure(_, _, _) => RequestManned(t, s, a);
    case UnloadRequest(_, _) => RequestManned(t, s, a);
    case Resume(i) =>
      StartedTyped(t, s);
      StartedKeeps(t, s, false);
      StartedManned(t, s);
      ResumeManned(t, s.(started := true), i);
    case _ =>
      CallsKeepSlots(t, s, a, n);
      SameManned(t, s, n);
  }

  lemma StartedManned(t: Topology, s: State)
    requires Manned(t, s)
    ensures Manned(t, s.(started := true))
  {
  }

  lemma SameManned(t: Topology, s: State, n: State)
    requires Manned(t, s) && n.mods == s.mods
    ensures Manned(t, n)
  {
  }

  /** Process conservation over whole runs: a module holds exactly one handle per registered spawn
      argument or none at all; the handles are distinct and each names a process of the module; and
      every live process of the module is among them.  While no module has been preloaded over, a
      module that is not its manager's current one holds none and all its processes are dead. */
  lemma ProcessesConserved(t: Topology, states: seq<State>, actions: seq<Action>, n: nat, m: ModuleId)
    requires Valid(t) && Run(t, states, actions) && n < |states| && m in t.mods
    ensures var s := states[n];
      && m in s.mods
      && (s.mods[m].handles != [] ==> |s.mods[m].handles| == t.mods[m].procs)
      && (forall h <- s.mods[m].handles :: h < |s.threads| && s.threads[h].owner == Some(m))
      && (forall i, j | 0 <= i < j < |s.mods[m].handles| :: s.mods[m].handles[i] != s.mods[m].handles[j])
      && (forall i | 0 <= i < |s.threads| && s.threads[i].alive && s.threads[i].owner == Some(m) :: i in s.mods[m].handles)
    ensures TidyRun(t, states, actions) ==>
      var s := states[n];
      && t.mods[m].home in s.mgrs
      && (s.mgrs[t.mods[m].home].current != Some(m) ==>
            s.mods[m].handles == []
            && forall i | 0 <= i < |s.threads| && s.threads[i].owner == Some(m) :: !s.threads[i].alive)
  {
    hide During, Valid, Run, TidyRun;
    RunSound(t, states, actions, n);
    RunManned(t, states, actions, n);
    OwnHandles(t, states[n], m);
    if TidyRun(t, states, actions) {
      RunInv(t, states, actions, n);
      ProcessesIn(t, states[n], m);
    }
  }

  lemma OwnHandles(t: Topology, s: State, m: ModuleId)
    requires Sound(t, s) && m in t.mods
    ensures m in s.mods
    ensures forall i | 0 <= i < |s.threads| && s.threads[i].alive && s.threads[i].owner == Some(m) :: i in s.mods[m].handles
    ensures forall h <- s.mods[m].handles :: h < |s.threads| && s.threads[h].owner == Some(m)
    ensures forall i, j | 0 <= i < j < |s.mods[m].handles| :: s.mods[m].handles[i] != s.mods[m].handles[j]
  {
    hide Typed, Counted, Exclusive, FlagsOk, CallsBound, Matching, LoadsOk, Roots, Tidy,
         DecoupledOk, Stationed, Leftovers, SettledPart, SplitPart, PathOk, ThreadsOk;
    KeysOf(t, s);
    LiveHandles(s, m);
  }

  lemma {:induction false} RunManned(t: Topology, states: seq<State>, actions: seq<Action>, n: nat)
    requires Valid(t) && Run(t, states, actions) && n < |states|
    ensures Manned(t, states[n])
  {
    hide During, Valid, Manned, Moves;
    if n == 0 {
      InitManned(t, states[0]);
    } else {
      RunManned(t, states, actions, n - 1);
      RunSound(t, states, actions, n - 1);
      assert Moves(t, states[n - 1], actions[n - 1], states[n]);
      StepManned(t, states[n - 1], actions[n - 1], states[n]);
    }
  }

  lemma InitManned(t: Topology, s: State)
    requires Init(t, s)
    ensures Manned(t, s)
  {
  }

  // ---- split managers --------------------------------------------------------------------------

  /** Unloading a split manager completes only by emptying and disconnecting every sub-manager. */
  lemma SplitUnloaded(t: Topology, states: seq<State>, actions: seq<Action>, n: nat, i: ThreadId, c: ManagerId, m: ModuleId, k: nat)
    requires Valid(t) && Run(t, states, actions) && n < |states| && Free(states[n], i) && c in t.mgrs
    requires Layered(t) && Typed(t, states[n]) && m in t.mods && k < |t.mods[m].subs|
    requires states[n].mgrs[c].current == Some(m) && DoUnload(t, states[n], i, c).Done?
    ensures var e := DoUnload(t, states[n], i, c).state; var d := t.mods[m].subs[k];
      c in e.mgrs && e.mgrs[c].current.None? && d in e.mgrs && e.mgrs[d] == Manager(None, None)
  {
    hide During, Valid, Run, Clear, Mods, Typed, Layered, DoUnload;
    var s := states[n];
    UnloadRequestExact(t, states, actions, n, i, c);
    KeysOf(t, s);
    InOwnSubtree(t, s, c);
    SubInTaken(t, s, c, m, k);
    var d := t.mods[m].subs[k];
    SubOwned(t, m, d);
    if s.mgrs[d].current.Some? { SubsTaken(t, s, c, d); }
  }

  lemma InOwnSubtree(t: Topology, s: State, c: ManagerId)
    requires Layered(t) && Typed(t, s) && c in t.mgrs && c in s.mgrs && s.mgrs[c].current.Some?
    ensures s.mgrs[c].current.value in Mods(t, s, c)
  {
  }

  lemma SubInTaken(t: Topology, s: State, c: ManagerId, m: ModuleId, k: nat)
    requires Layered(t) && Typed(t, s) && c in t.mgrs && m in t.mods && k < |t.mods[m].subs| && m in Mods(t, s, c)
    ensures t.mods[m].subs[k] in Subs(t, Mods(t, s, c))
  {
    assert t.mods[m].subs[k] in t.mods[m].subs;
  }
}
