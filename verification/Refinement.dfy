/** The protocol refines the machine with one slot per manager: every step fills one slot, settles one,
    empties a whole active subtree, or breaks one on the way to the process that was killed. */
module Refinement {
  import opened Model
  import opened Teardown
  import opened Invariants
  import opened Effects
  import opened UnloadSafety
  import opened Protocol
  import opened LoadEffects
  import opened Steps
  import opened Safety
  import opened Closure
  import opened Exactness
  import opened Guarantees
  import opened Interruption
  import opened Orphans
  import opened Slots
  import opened Wreckage

  // ---- a completed unload ----------------------------------------------------------------------

  lemma TakenSlots(t: Topology, s: State, n: State, c: ManagerId)
    requires Layered(t) && Typed(t, s) && c in t.mgrs && LoadsOk(t, s) && Exclusive(s)
    requires Taken(t, s, n, Mods(t, s, c), Mods(t, s, c), Subs(t, Mods(t, s, c)))
    ensures Cleared(t, Abs(t, s), Abs(t, n), c)
  {
    hide Layered, Typed, Mods, Subs, Abs, LoadsOk, Exclusive;
    KeysOf(t, s);
    AbsKeys(t, s);
    AbsKeys(t, n);
    var ms := Mods(t, s, c);
    forall x ensures x in Below(t, Abs(t, s), c) <==> x in ms { ModsAreActive(t, s, c, x); }
    forall d <- s.mgrs
      ensures Abs(t, n)[d] == Without(Abs(t, s)[d], Below(t, Abs(t, s), c), Below(t, Abs(t, s), c))
    {
      if s.mgrs[d].current.Some? && d in Subs(t, ms) { SubsTaken(t, s, c, d); }
      HomeIf(t, s, d);
      LoadByOne(t, s, d);
      TakenSlot(t, s, n, ms, Subs(t, ms), d, Below(t, Abs(t, s), c));
      SlotIs(t, s, d);
      SlotIs(t, n, d);
    }
  }

  lemma TakenSlot(t: Topology, s: State, n: State, ms: set<ModuleId>, ds: iset<ManagerId>, d: ManagerId, below: iset<ModuleId>)
    requires Taken(t, s, n, ms, ms, ds) && d in s.mgrs && forall x :: x in below <==> x in ms
    requires s.mgrs[d].current.Some? && d in ds ==> s.mgrs[d].current.value in ms
    requires s.mgrs[d].current.Some? ==> s.mgrs[d].current.value in s.mods
    requires Tally(s.threads, LoadBy(d)) <= 1
    ensures SlotOf(t, n, d) == Without(SlotOf(t, s, d), below, below)
  {
    MaskedLoader(s.threads, ms, d);
  }

  /** When a subtree is clear and its region idle, everything in it is loaded. */
  lemma {:induction false} ClearLoaded(t: Topology, s: State, c: ManagerId, r: RegionId, dead: set<ModuleId>, me: ThreadId, x: ModuleId)
    requires Layered(t) && Typed(t, s) && c in t.mgrs && me < |s.threads| && Clear(t, s, c, dead, me) && x in Mods(t, s, c)
    requires s.mgrs[c].rr == Some(r) && r in s.regions && !s.regions[r].reconf
    requires Inv(t, s)
    ensures x in t.mods && t.mods[x].home in s.mgrs && SlotOf(t, s, t.mods[x].home) == Loaded(x)
    decreases t.depth[c], 1, 0
  {
    hide Layered, Typed, ThreadsOk, HandlesOk, Counted, Exclusive, FlagsOk, CallsBound, Matching, LoadsOk, Homes, Roots,
         Connected, DecoupledOk, Stationed, Leftovers, WaitsOk, BlockedOk, SettledPart, SplitPart, PathOk, SlotOf;
    KeysOf(t, s);
    HomeOf(t, s, c);
    var m := s.mgrs[c].current.value;
    if x == m {
      IdleLoaded(t, s, c, r);
    } else {
      ClearLoadedFrom(t, s, m, r, 0, dead, me, x);
    }
  }

  lemma IdleLoaded(t: Topology, s: State, c: ManagerId, r: RegionId)
    requires LoadsOk(t, s) && Exclusive(s) && SettledPart(t, s, {}, {})
    requires c in s.mgrs && s.mgrs[c].rr == Some(r) && r in s.regions && !s.regions[r].reconf && s.mgrs[c].current.Some?
    ensures SlotOf(t, s, c) == Loaded(s.mgrs[c].current.value)
  {
    hide LoadsOk;
    assert Attended(s, r, {});
    ByMeansOn(t, s, c, r);
  }

  lemma {:induction false} ClearLoadedFrom(t: Topology, s: State, m: ModuleId, r: RegionId, k: nat, dead: set<ModuleId>,
                                           me: ThreadId, x: ModuleId)
    requires Layered(t) && Typed(t, s) && m in t.mods && k <= Tasks(t.mods[m]) && me < |s.threads|
    requires ClearFrom(t, s, m, k, dead, me) && x in ModsFrom(t, s, m, k)
    requires t.mods[m].home in s.mgrs && s.mgrs[t.mods[m].home].rr == Some(r) && r in s.regions && !s.regions[r].reconf
    requires Inv(t, s)
    ensures x in t.mods && t.mods[x].home in s.mgrs && SlotOf(t, s, t.mods[x].home) == Loaded(x)
    decreases t.depth[t.mods[m].home], 0, Tasks(t.mods[m]) - k
  {
    hide Layered, Typed, ThreadsOk, HandlesOk, Counted, Exclusive, FlagsOk, CallsBound, Matching, LoadsOk, Homes, Roots,
         Connected, DecoupledOk, Stationed, Leftovers, WaitsOk, BlockedOk, SettledPart, SplitPart, PathOk, SlotOf;
    KeysOf(t, s);
    ChildOwned(t, m, k);
    TaskIsOf(t, m, k);
    var c := Child(t, TaskAt(t.mods[m], k));
    if c.Some? && x in Mods(t, s, c.value) {
      ChildRegion(t, s, m, k, r, dead, me);
      ClearLoaded(t, s, c.value, s.mgrs[c.value].rr.value, dead, me, x);
    } else {
      match TaskAt(t.mods[m], k)
      case DropSub(d) => ClearLoadedFrom(t, s, m, r, k + 1, dead + Mods(t, s, d), me, x);
      case Kill => ClearLoadedFrom(t, s, m, r, k + 1, dead + {m}, me, x);
      case DropNested(w) => ClearLoadedFrom(t, s, m, r, k + 1, dead + Mods(t, s, t.root[w]), me, x);
    }
  }

  /** The region of a manager that is not empty and belongs to a module being unloaded is idle. */
  lemma ChildRegion(t: Topology, s: State, m: ModuleId, k: nat, r: RegionId, dead: set<ModuleId>, me: ThreadId)
    requires Layered(t) && Typed(t, s) && m in t.mods && k < Tasks(t.mods[m]) && me < |s.threads|
    requires Connected(t, s) && Roots(t, s)
    requires ClearFrom(t, s, m, k, dead, me)
    requires t.mods[m].home in s.mgrs && s.mgrs[t.mods[m].home].rr == Some(r) && r in s.regions && !s.regions[r].reconf
    ensures var c := Child(t, TaskAt(t.mods[m], k)); c.Some? && c.value in s.mgrs && s.mgrs[c.value].current.Some? ==>
      && s.mgrs[c.value].rr.Some? && s.mgrs[c.value].rr.value in s.regions && !s.regions[s.mgrs[c.value].rr.value].reconf
      && Clear(t, s, c.value, dead, me)
  {
    hide Layered, Typed;
    KeysOf(t, s);
    TaskIsOf(t, m, k);
  }

  // ---- an unload that is cut short ---------------------------------------------------------------

  /** However an unload ends, it leaves everything outside the subtree of its manager alone, and
      inside only empties managers. */
  ghost predicate Apart(t: Topology, s: State, n: State, c: ManagerId) {
    && n.mgrs.Keys == s.mgrs.Keys && n.mods.Keys == s.mods.Keys
    && (forall d <- s.mgrs | !Under(t, d, c) :: n.mgrs[d] == s.mgrs[d])
    && (forall d <- s.mgrs :: n.mgrs[d].current in {s.mgrs[d].current, None})
    && (forall x <- s.mods :: n.mods[x].handles in {s.mods[x].handles, []})
    && (forall x <- s.mods | x in t.mods && !Under(t, t.mods[x].home, c) :: n.mods[x] == s.mods[x])
  }

  lemma ApartUp(t: Topology, s: State, n: State, d: ManagerId, m: ModuleId)
    requires OwnedBy(t, d, m) && Apart(t, s, n, d)
    ensures Apart(t, s, n, t.mods[m].home)
  {
    forall e | Under(t, e, d) ensures Under(t, e, t.mods[m].home) { UnderTrans(t, e, d, m); }
  }

  lemma {:induction false} UnloadApart(t: Topology, s: State, c: ManagerId, me: ThreadId)
    requires Layered(t) && Typed(t, s) && c in t.mgrs
    ensures var o := Unload(t, s, c, me); !o.Failed? ==> Apart(t, s, o.state, c)
    decreases t.depth[c], 1, 0
  {
    hide Layered, Typed, CanDecouple, Under;
    KeysOf(t, s);
    HomeIf(t, s, c);
    UnderSelf(t, c);
    if s.mgrs[c].current.Some? && s.mgrs[c].rr.Some? {
      var m, w := s.mgrs[c].current.value, s.mgrs[c].rr.value;
      if s.regions[w].count == 0 && CanDecouple(t, s, m, w) {
        DecoupleTyped(t, s, m, w);
        DeactivateApart(t, Decouple(t, s, m, w), m, 0, me);
        var o := Deactivate(t, Decouple(t, s, m, w), m, 0, me);
        if o.Done? { KeysOf(t, o.state); }
      }
    }
  }

  lemma {:induction false} DeactivateApart(t: Topology, s: State, m: ModuleId, k: nat, me: ThreadId)
    requires Layered(t) && Typed(t, s) && m in t.mods && k <= Tasks(t.mods[m])
    ensures var o := Deactivate(t, s, m, k, me); !o.Failed? ==> Apart(t, s, o.state, t.mods[m].home)
    decreases t.depth[t.mods[m].home], 0, Tasks(t.mods[m]) - k
  {
    hide Layered, Typed, Under;
    if k < Tasks(t.mods[m]) {
      TaskIsOf(t, m, k);
      StepApart(t, s, m, k, me);
      var o := Step(t, s, m, TaskAt(t.mods[m], k), me);
      if o.Done? { DeactivateApart(t, o.state, m, k + 1, me); }
    }
  }

  lemma {:induction false} StepApart(t: Topology, s: State, m: ModuleId, k: nat, me: ThreadId)
    requires Layered(t) && Typed(t, s) && m in t.mods && k < Tasks(t.mods[m])
    requires TaskOf(t, m, TaskAt(t.mods[m], k))
    ensures var o := Step(t, s, m, TaskAt(t.mods[m], k), me); !o.Failed? ==> Apart(t, s, o.state, t.mods[m].home)
    decreases t.depth[t.mods[m].home], 0, 0
  {
    hide Layered, Typed, Unload, Under;
    KeysOf(t, s);
    ChildOwned(t, m, k);
    UnderSelf(t, t.mods[m].home);
    match TaskAt(t.mods[m], k)
    case DropSub(c) =>
      UnloadApart(t, s, c, me);
      DropApart(t, s, m, c, me);
    case Kill =>
      KillApart(s, s.mods[m].handles, me);
      KillTyped(t, s, s.mods[m].handles, me);
    case DropNested(w) =>
      if !s.regions[w].reconf {
        SetReconfTyped(t, s, w, true);
        UnloadApart(t, SetReconf(s, w, true), t.root[w], me);
        NestedApart(t, s, m, w, me);
      }
  }

  /** Disconnecting a sub-manager stays inside the subtree of the split manager. */
  lemma DropApart(t: Topology, s: State, m: ModuleId, c: ManagerId, me: ThreadId)
    requires Layered(t) && Typed(t, s) && m in t.mods && c in t.mgrs && OwnedBy(t, c, m) && TaskOf(t, m, DropSub(c))
    requires var o := Unload(t, s, c, me); !o.Failed? ==> Apart(t, s, o.state, c)
    ensures var o := Step(t, s, m, DropSub(c), me); !o.Failed? ==> Apart(t, s, o.state, t.mods[m].home)
  {
    hide Layered, Typed, Unload, Under, OwnedBy;
    UnderSelf(t, t.mods[m].home);
    UnderSelf(t, c);
    UnderTrans(t, c, c, m);
    var o := Unload(t, s, c, me);
    if !o.Failed? { KeysOf(t, o.state); ApartUp(t, s, o.state, c, m); }
  }

  lemma NestedApart(t: Topology, s: State, m: ModuleId, w: RegionId, me: ThreadId)
    requires Layered(t) && Typed(t, s) && m in t.mods && w in t.root && w in s.regions && OwnedBy(t, t.root[w], m) && t.root[w] in t.mgrs
    requires TaskOf(t, m, DropNested(w)) && !s.regions[w].reconf && Typed(t, SetReconf(s, w, true))
    requires var o := Unload(t, SetReconf(s, w, true), t.root[w], me); !o.Failed? ==> Apart(t, SetReconf(s, w, true), o.state, t.root[w])
    ensures var o := Step(t, s, m, DropNested(w), me); !o.Failed? ==> Apart(t, s, o.state, t.mods[m].home)
  {
    hide Layered, Typed, Unload, Under, OwnedBy;
    var o := Unload(t, SetReconf(s, w, true), t.root[w], me);
    if !o.Failed? { ApartUp(t, SetReconf(s, w, true), o.state, t.root[w], m); }
  }

  lemma {:induction false} KillApart(s: State, hs: seq<ThreadId>, me: ThreadId)
    ensures var o := KillFrom(s, hs, me); !o.Failed? ==> o.state.mgrs == s.mgrs && o.state.mods == s.mods
    decreases |hs|
  {
    if hs != [] && KillOne(s, hs[0]).Some? && hs[0] != me {
      KillApart(KillOne(s, hs[0]).value, hs[1..], me);
    }
  }

  // ---- every step ----------------------------------------------------------------------------------

  /** The module whose process the thread is; only asked where there is one. */
  function Owner(s: State, i: ThreadId): ModuleId
    requires i < |s.threads|
  {
    if s.threads[i].owner.Some? then s.threads[i].owner.value else 0
  }

  /** The change of the slots an action stands for. */
  ghost function ChangeOf(t: Topology, s: State, a: Action): Change
    requires Layered(t) && Typed(t, s) && Enabled(t, s, a)
  {
    match a
    case Configure(i, c, found) =>
      if found.None? || found == s.mgrs[c].current then Stay
      else if Next(t, s, a).Aborted? then Break(c, Owner(s, i)) else Take(c, found.value, s.threads[i].owner)
    case UnloadRequest(i, c) => if Next(t, s, a).Aborted? then Break(c, Owner(s, i)) else Release(c)
    case StartPreload(c) => Place(c, t.preload[c])
    case Resume(i) =>
      var f := Top(s, i).value;
      (match f.phase
       case LoadWait => if t.mods[f.mod].procs == 0 then Settle(f.mgr, f.mod) else Stay
       case SyncWait => if t.mods[f.mod].procs == 0 then Stay else Settle(f.mgr, f.mod)
       case Activating(k) =>
         if k < |t.mods[f.mod].nested| && t.mods[f.mod].nested[k] in t.root && t.root[t.mods[f.mod].nested[k]] in t.preload
         then Fill(t.root[t.mods[f.mod].nested[k]], t.preload[t.root[t.mods[f.mod].nested[k]]], s.threads[i].owner) else Stay)
    case _ => Stay
  }

  lemma ClearWhole(t: Topology, s: State, c: ManagerId, r: RegionId, me: ThreadId)
    requires Layered(t) && Typed(t, s) && c in t.mgrs && me < |s.threads| && Clear(t, s, c, {}, me)
    requires s.mgrs[c].rr == Some(r) && r in s.regions && !s.regions[r].reconf
    requires Inv(t, s)
    ensures Whole(t, Abs(t, s), c)
  {
    hide Layered, Typed, During, Clear, Mods, SlotOf;
    forall x | Active(t, Abs(t, s), x, c) ensures t.mods[x].home in Abs(t, s) && Abs(t, s)[t.mods[x].home] == Loaded(x) {
      ModsAreActive(t, s, c, x);
      ClearLoaded(t, s, c, r, {}, me, x);
    }
  }

  lemma UnloadChanges(t: Topology, s: State, i: ThreadId, c: ManagerId)
    requires Layered(t) && Typed(t, s) && c in t.mgrs && i < |s.threads| && s.threads[i].alive
    requires Valid(t) && Inv(t, s)
    ensures var o := DoUnload(t, s, i, c);
      && (o.Done? ==> Changes(t, Abs(t, s), Abs(t, o.state), Release(c)))
      && (o.Aborted? ==> Changes(t, Abs(t, s), Abs(t, o.state), Break(c, Owner(s, i))))
  {
    hide Typed, ThreadsOk, HandlesOk, Counted, Exclusive, FlagsOk, CallsBound, Matching, LoadsOk, Homes, Roots,
         Connected, DecoupledOk, Stationed, Leftovers, WaitsOk, BlockedOk, SettledPart, SplitPart, PathOk, Valid, Layered, Clear, Taken, Mods, Abs,
         Whole, Cleared, Changes, Shrinks, Cuts, Stopped, UnloadModule;
    KeysOf(t, s);
    if s.mgrs[c].rr.Some? {
      var r := s.mgrs[c].rr.value;
      UnloadModuleExact(t, s, c, r, i, {}, {});
      UnloadModuleKeeps(t, s, c, r, i, {}, {});
      var o := UnloadModule(t, s, c, r, i);
      if o.Done? {
        TakenSlots(t, s, o.state, c);
        ClearWhole(t, s, c, r, i);
        IsRelease(t, Abs(t, s), Abs(t, o.state), c);
      } else if o.Aborted? {
        var x := ModuleCut(t, s, c, r, i, {}, {});
        BreakSlots(t, s, o, c, r, i, x, Marking(Walk(t, s, c, x), r));
      }
    }
  }

  lemma IsRelease(t: Topology, a: Slots, b: Slots, c: ManagerId)
    requires Whole(t, a, c) && Cleared(t, a, b, c)
    ensures Changes(t, a, b, Release(c))
  {
  }

  lemma ConfigureChanges(t: Topology, s: State, i: ThreadId, c: ManagerId, m: ModuleId)
    requires Layered(t) && Typed(t, s) && c in t.mgrs && i < |s.threads| && s.threads[i].alive
    requires m in t.mods && t.mods[m].home == c && s.mgrs[c].current != Some(m)
    requires Valid(t) && Inv(t, s)
    ensures var o := DoConfigure(t, s, i, c, Some(m));
      && (o.Done? ==> Changes(t, Abs(t, s), Abs(t, o.state), Take(c, m, s.threads[i].owner)))
      && (o.Aborted? ==> Changes(t, Abs(t, s), Abs(t, o.state), Break(c, Owner(s, i))))
  {
    hide Typed, ThreadsOk, HandlesOk, Counted, Exclusive, FlagsOk, CallsBound, Matching, LoadsOk, Homes, Roots,
         Connected, DecoupledOk, Stationed, Leftovers, WaitsOk, BlockedOk, SettledPart, SplitPart, PathOk, Valid, Layered, Abs, Changes, Unload, Claim, Stopped, Cuts;
    KeysOf(t, s);
    if s.mgrs[c].rr.Some? {
      var r := s.mgrs[c].rr.value;
      if !s.regions[r].reconf && !s.regions[r].blocked {
        var b := SetBlocked(SetReconf(s, r, true), r, true);
        BeginTyped(t, s, r);
        var o := Unload(t, b, c, i);
        if o.Done? {
          TakeSlots(t, s, i, c, r, m);
        } else if o.Aborted? {
          var x := BegunCut(t, s, i, c, r);
          ConfigureKeeps(t, s, i, c, Some(m));
          BreakSlots(t, s, o, c, r, i, x, Closing(Walk(t, s, c, x), r));
        }
      }
    }
  }

  lemma TakeSlots(t: Topology, s: State, i: ThreadId, c: ManagerId, r: RegionId, m: ModuleId)
    requires Layered(t) && Typed(t, s) && c in t.mgrs && r in t.root && i < |s.threads| && s.threads[i].alive
    requires c in s.mgrs && s.mgrs[c].rr == Some(r) && r in s.regions && !s.regions[r].reconf
    requires m in t.mods && t.mods[m].home == c && s.mgrs[c].current != Some(m)
    requires Valid(t) && Inv(t, s)
    ensures var b := SetBlocked(SetReconf(s, r, true), r, true); Typed(t, b) && Unload(t, b, c, i).Done? ==>
      var n := Unload(t, b, c, i).state;
      && i < |n.threads| && c in n.mgrs
      && Changes(t, Abs(t, s), Abs(t, Claim(n, i, c, r, m)), Take(c, m, s.threads[i].owner))
  {
    hide Typed, ThreadsOk, HandlesOk, Counted, Exclusive, FlagsOk, CallsBound, Matching, LoadsOk, Homes, Roots,
         Connected, DecoupledOk, Stationed, Leftovers, WaitsOk, BlockedOk, SettledPart, SplitPart, PathOk, Valid, Layered, Clear, Taken, Mods, Abs,
         Whole, Cleared, Changes, Claim, Unload, Subs;
    var b := SetBlocked(SetReconf(s, r, true), r, true);
    BeginTyped(t, s, r);
    SameSlots(t, s, b);
    ConfigureUnload(t, s, i, c, r);
    var o := Unload(t, b, c, i);
    if o.Done? {
      ConfigureTaken(t, s, i, c, r, m);
      MarkedLoadsOk(t, s, r);
      TakenSlots(t, b, o.state, c);
      ClearWhole(t, s, c, r, i);
      NoLoadBy(t, s, c, r);
      TakenQuiet(t, b, o.state, c, Mods(t, b, c), Subs(t, Mods(t, b, c)));
      ClaimSlots(t, o.state, i, c, r, m);
      HoldsIff(t, s, c, m);
      AbsKeys(t, s);
      IsTake(t, Abs(t, s), Abs(t, o.state), c, m, s.threads[i].owner);
    }
  }

  /** Marking an idle region does not matter to the loads in progress elsewhere. */
  lemma MarkedLoadsOk(t: Topology, s: State, r: RegionId)
    requires LoadsOk(t, s) && Exclusive(s) && r in s.regions && !s.regions[r].reconf
    ensures var b := SetBlocked(SetReconf(s, r, true), r, true); LoadsOk(t, b) && Exclusive(b)
  {
    var b := SetBlocked(SetReconf(s, r, true), r, true);
    forall i, a | 0 <= i < |b.threads| && 0 <= a < |b.threads[i].stack| && b.threads[i].stack[a].Load?
      ensures LoadOk(t, b, b.threads[i].stack[a])
    {
      assert LoadOk(t, s, s.threads[i].stack[a]);
      TallyMember(s.threads, i, a, LoadOn(s.threads[i].stack[a].rr));
      assert Hit(s.threads[i].stack[a], LoadOn(s.threads[i].stack[a].rr)) == 1;
    }
  }

  lemma NoLoadBy(t: Topology, s: State, c: ManagerId, r: RegionId)
    requires LoadsOk(t, s) && Exclusive(s) && c in s.mgrs && s.mgrs[c].rr == Some(r) && r in s.regions && !s.regions[r].reconf
    ensures Tally(s.threads, LoadBy(c)) == 0
  {
    ByMeansOn(t, s, c, r);
  }

  lemma TakenQuiet(t: Topology, s: State, n: State, c: ManagerId, ms: set<ModuleId>, ds: iset<ManagerId>)
    requires Taken(t, s, n, ms, ms, ds) && Tally(s.threads, LoadBy(c)) == 0
    ensures Tally(n.threads, LoadBy(c)) == 0
  {
    MaskedLoader(s.threads, ms, c);
  }

  lemma IsTake(t: Topology, a: Slots, e: Slots, c: ManagerId, m: ModuleId, who: Option<ModuleId>)
    requires Whole(t, a, c) && Cleared(t, a, e, c) && c in a && !Holds(a, c, m)
    ensures Changes(t, a, e[c := Loading(m, who)], Take(c, m, who))
  {
  }

  lemma ConfigureTaken(t: Topology, s: State, i: ThreadId, c: ManagerId, r: RegionId, m: ModuleId)
    requires Layered(t) && Typed(t, s) && c in t.mgrs && r in t.root && i < |s.threads| && s.threads[i].alive
    requires c in s.mgrs && s.mgrs[c].rr == Some(r) && r in s.regions && !s.regions[r].reconf
    requires m in t.mods && t.mods[m].home == c
    requires Valid(t) && Inv(t, s)
    ensures var b := SetBlocked(SetReconf(s, r, true), r, true);
      Typed(t, b) && (Unload(t, b, c, i).Done? ==>
        Taken(t, b, Unload(t, b, c, i).state, Mods(t, b, c), Mods(t, b, c), Subs(t, Mods(t, b, c)))
        && Unload(t, b, c, i).state.mgrs.Keys == t.mgrs && c in Unload(t, b, c, i).state.mgrs
        && Unload(t, b, c, i).state.mgrs[c] == Manager(None, Some(r))
        && m in Unload(t, b, c, i).state.mods && Unload(t, b, c, i).state.mods[m].configured.None?
        && i < |Unload(t, b, c, i).state.threads| && Unload(t, b, c, i).state.threads[i] == s.threads[i])
  {
    hide Typed, ThreadsOk, HandlesOk, Exclusive, FlagsOk, CallsBound, Matching, LoadsOk, Homes, Roots,
         Connected, DecoupledOk, Stationed, Leftovers, WaitsOk, BlockedOk, SettledPart, SplitPart, PathOk, Valid, Layered, Taken, Mods;
    var b := SetBlocked(SetReconf(s, r, true), r, true);
    BeginTyped(t, s, r);
    KeysOf(t, b);
    if s.mgrs[c].current.None? || s.regions[r].count == 0 {
      BeginKeeps(t, s, c, r);
      UnloadExact(t, b, c, i, {r}, {});
      UnloadKeeps(t, b, c, i, {r}, {});
      var o := Unload(t, b, c, i);
      if o.Done? {
        KeysOf(t, o.state);
        TakeKeeps(t, o.state, c, m, {r}, {});
      }
    } else {
      assert !Unload(t, b, c, i).Done?;
    }
  }

  lemma ClaimSlots(t: Topology, s: State, i: ThreadId, c: ManagerId, r: RegionId, m: ModuleId)
    requires i < |s.threads| && c in s.mgrs && s.mgrs[c] == Manager(None, Some(r)) && m in t.mods && m in s.mods
    requires s.mods[m].configured.None? && Tally(s.threads, LoadBy(c)) == 0
    ensures Abs(t, Claim(s, i, c, r, m)) == Abs(t, s)[c := Loading(m, s.threads[i].owner)]
  {
    var n, who := Claim(s, i, c, r, m), s.threads[i].owner;
    forall d <- s.mgrs ensures SlotOf(t, n, d) == if d == c then Loading(m, who) else SlotOf(t, s, d) {
      PushLoader(SetCurrent(s, c, Some(m)), i, Load(c, r, m, LoadWait), d);
    }
  }

  /** A new load counts for its manager only. */
  lemma PushLoader(s: State, i: ThreadId, f: Frame, d: ManagerId)
    requires i < |s.threads| && f.Load? && Tally(s.threads, LoadBy(f.mgr)) == 0
    ensures var n := Push(s, i, f);
      if d == f.mgr then Tally(n.threads, LoadBy(d)) == 1 && Loader(n.threads, d) == s.threads[i].owner
      else Tally(n.threads, LoadBy(d)) == Tally(s.threads, LoadBy(d)) && Loader(n.threads, d) == Loader(s.threads, d)
  {
    PushTallyOf(s, i, f, LoadBy(d));
    InStackPush(s.threads[i].stack, f, LoadBy(d));
    var n := Push(s, i, f);
    if d == f.mgr {
      LoaderIs(n.threads, i, d);
    } else {
      LoaderUpdate(s.threads, i, n.threads[i], d);
    }
  }

  /** Neither the end of a load nor a later phase of it changes who loads for other managers. */
  lemma ReplaceLoader(s: State, i: ThreadId, phase: Phase)
    requires Top(s, i).Some? && Top(s, i).value.Load?
    ensures SameLoaders(s.threads, Replace(s, i, Top(s, i).value.(phase := phase)).threads)
  {
    var f := Top(s, i).value;
    var st := s.threads[i].stack;
    var th := s.threads[i].(stack := st[..|st| - 1] + [f.(phase := phase)]);
    forall c: ManagerId ensures InStack(th.stack, LoadBy(c)) == InStack(st, LoadBy(c)) {
      InStackPush(st[..|st| - 1], f.(phase := phase), LoadBy(c));
    }
    UpdateSame(s.threads, i, th);
    assert Replace(s, i, f.(phase := phase)).threads == s.threads[i := th];
  }

  // ---- loads ---------------------------------------------------------------------------------------

  lemma CoupleChanges(t: Topology, s: State, i: ThreadId, b: State)
    requires Valid(t) && Suspended(t, s, i) && Top(s, i).value.phase == LoadWait
    requires b.mgrs == s.mgrs && b.mods == s.mods && b.regions == s.regions && SameLoaders(s.threads, b.threads)
    ensures Top(s, i).value.mod in t.mods && Top(s, i).value.mod in b.mods
    ensures var f := Top(s, i).value;
      Changes(t, Abs(t, s), Abs(t, Couple(t, b, f.mod, f.rr, true)), if t.mods[f.mod].procs == 0 then Settle(f.mgr, f.mod) else Stay)
  {
    hide ThreadsOk, HandlesOk, Counted, Exclusive, FlagsOk, CallsBound, Matching, LoadsOk, Homes, Roots,
         Connected, DecoupledOk, Stationed, Leftovers, WaitsOk, BlockedOk, SettledPart, SplitPart, PathOk, Valid, Typed, Couple;
    LoadSplit(t, s, i);
    TopIn(t, s, i);
    TopWaits(s, i);
    NothingConnected(t, s, Top(s, i).value.mod);
    HomeOf(t, s, Top(s, i).value.mgr);
    var f := Top(s, i).value;
    NotOwnSub(t, f.mod);
    CoupleEffect(t, b, f.mod, f.rr, true);
    CoupleThreads(t, b, f.mod, f.rr, true);
    var n := Couple(t, b, f.mod, f.rr, true);
    forall d <- s.mgrs ensures SlotOf(t, n, d) == if d == f.mgr && t.mods[f.mod].procs == 0 then Loaded(f.mod) else SlotOf(t, s, d) {
      if s.mgrs[d].current.Some? { HomeOf(t, s, d); }
      SubsEmpty(t, s, f.mod, d);
    }
    TopBy(s, i);
    assert SlotOf(t, s, f.mgr) == Loading(f.mod, Loader(s.threads, f.mgr));
    CoupledSlots(t, s, n, f.mgr, f.mod);
  }

  lemma CoupledSlots(t: Topology, s: State, n: State, c: ManagerId, m: ModuleId)
    requires n.mgrs.Keys == s.mgrs.Keys && c in s.mgrs && m in t.mods && SlotOf(t, s, c) == Loading(m, Loader(s.threads, c))
    requires forall d <- s.mgrs :: SlotOf(t, n, d) == if d == c && t.mods[m].procs == 0 then Loaded(m) else SlotOf(t, s, d)
    ensures Changes(t, Abs(t, s), Abs(t, n), if t.mods[m].procs == 0 then Settle(c, m) else Stay)
  {
    hide SlotOf;
  }

  /** A disconnected sub-manager is empty. */
  lemma SubsEmpty(t: Topology, s: State, m: ModuleId, d: ManagerId)
    requires Roots(t, s) && m in t.mods && d in s.mgrs
    requires forall k | 0 <= k < |t.mods[m].subs| :: t.mods[m].subs[k] in s.mgrs && s.mgrs[t.mods[m].subs[k]].rr.None?
    ensures d in t.mods[m].subs ==> s.mgrs[d].current.None?
  {
  }

  lemma ActivateChanges(t: Topology, s: State, i: ThreadId, b: State)
    requires Suspended(t, s, i) && Top(s, i).value.phase == SyncWait
    requires b.mgrs == s.mgrs && b.mods == s.mods && SameLoaders(s.threads, b.threads)
    ensures Top(s, i).value.mod in t.mods && Top(s, i).value.mod in b.mods
    ensures var f := Top(s, i).value;
      Changes(t, Abs(t, s), Abs(t, Activate(t, b, f.mod)), if t.mods[f.mod].procs == 0 then Stay else Settle(f.mgr, f.mod))
  {
    hide ThreadsOk, HandlesOk, Counted, Exclusive, FlagsOk, CallsBound, Matching, LoadsOk, Homes, Roots,
         Connected, DecoupledOk, Stationed, Leftovers, WaitsOk, BlockedOk, SettledPart, SplitPart, PathOk, Typed;
    TopIn(t, s, i);
    HomeOf(t, s, Top(s, i).value.mgr);
    var f := Top(s, i).value;
    var n := Activate(t, b, f.mod);
    SpawnSame(b.threads, f.mod, t.mods[f.mod].procs);
    forall d <- s.mgrs ensures SlotOf(t, n, d) == if d == f.mgr then Loaded(f.mod) else SlotOf(t, s, d) {
      if s.mgrs[d].current.Some? { HomeOf(t, s, d); }
    }
    TopBy(s, i);
    assert SlotOf(t, s, f.mgr)
        == if t.mods[f.mod].procs == 0 then Loaded(f.mod) else Loading(f.mod, Loader(s.threads, f.mgr));
  }

  /** A manager that takes a module in a preload of an empty slot. */
  lemma FillChanges(t: Topology, s: State, b: State, i: ThreadId, c: ManagerId, r: RegionId, m: ModuleId)
    requires Homes(t, s) && Typed(t, s) && c in s.mgrs && s.mgrs[c] == Manager(None, Some(r)) && m in t.mods && m in s.mods
    requires t.mods[m].home == c && i < |b.threads| && b.mgrs == s.mgrs && b.mods == s.mods
    requires SameLoaders(s.threads, b.threads) && Tally(s.threads, LoadBy(c)) == 0
    ensures Changes(t, Abs(t, s), Abs(t, Claim(b, i, c, r, m)), Fill(c, m, b.threads[i].owner))
  {
    SameSlots(t, s, b);
    ClaimSlots(t, b, i, c, r, m);
  }

  /** The operation completes, if it does not fail, with change `g` of the slots. */
  ghost predicate Brings(t: Topology, s: State, o: Outcome, g: Change) {
    !o.Aborted? && (o.Done? ==> Changes(t, Abs(t, s), Abs(t, o.state), g))
  }

  lemma ResumeChanges(t: Topology, s: State, i: ThreadId)
    requires Layered(t) && Typed(t, s) && Top(s, i).Some? && Top(s, i).value.Load?
    requires Top(s, i).value.mgr in t.mgrs && Top(s, i).value.mod in t.mods && Enabled(t, s, Resume(i))
    requires Valid(t) && Inv(t, s) && !Overwriting(t, s, i)
    ensures Brings(t, s, DoResume(t, s, i), ChangeOf(t, s, Resume(i)))
  {
    hide ThreadsOk, HandlesOk, Counted, Exclusive, FlagsOk, CallsBound, Matching, LoadsOk, Homes, Roots, SameLoaders,
         Connected, DecoupledOk, Stationed, Leftovers, WaitsOk, BlockedOk, SettledPart, SplitPart, PathOk, Valid, Typed, Layered, Changes, CanCouple, Abs, Activate, Couple;
    KeysOf(t, s);
    TopIn(t, s, i);
    var f := Top(s, i).value;
    var b := Replace(s, i, f.(phase := SyncWait));
    var e := SetBlocked(Replace(s, i, f.(phase := Activating(0))), f.rr, false);
    match f.phase
    case LoadWait => ReplaceLoader(s, i, SyncWait); CoupleChanges(t, s, i, b);
    case SyncWait => ReplaceLoader(s, i, Activating(0)); ActivateChanges(t, s, i, e);
    case Activating(k) =>
      if k < |t.mods[f.mod].nested| {
        NestedOf(t, f.mod, k);
        ReplaceLoader(s, i, Activating(k + 1));
        PreloadChanges(t, s, Replace(s, i, f.(phase := Activating(k + 1))), i, t.mods[f.mod].nested[k]);
      } else {
        var o := DoResume(t, s, i);
        if o.Done? {
          FinishSlots(t, s, i);
          Stays(t, s, o.state);
        }
      }
  }

  /** The load that ends has a loaded slot. */
  lemma FinishSlots(t: Topology, s: State, i: ThreadId)
    requires Suspended(t, s, i) && Top(s, i).value.phase.Activating? && Top(s, i).value.rr in s.regions
    ensures Abs(t, SetReconf(Pop(s, i), Top(s, i).value.rr, false)) == Abs(t, s)
  {
    hide ThreadsOk, HandlesOk, Counted, Exclusive, FlagsOk, CallsBound, Matching, LoadsOk, Homes, Roots,
         Connected, DecoupledOk, Stationed, Leftovers, WaitsOk, BlockedOk, SettledPart, SplitPart, PathOk, Typed;
    TopIn(t, s, i);
    var f := Top(s, i).value;
    var n := SetReconf(Pop(s, i), f.rr, false);
    forall d <- s.mgrs ensures SlotOf(t, n, d) == SlotOf(t, s, d) {
      if d != f.mgr { PopLoader(s, i, d); }
    }
  }

  lemma PopLoader(s: State, i: ThreadId, d: ManagerId)
    requires Top(s, i).Some? && Top(s, i).value.Load? && d != Top(s, i).value.mgr
    ensures Tally(Pop(s, i).threads, LoadBy(d)) == Tally(s.threads, LoadBy(d))
    ensures Loader(Pop(s, i).threads, d) == Loader(s.threads, d)
  {
    PopTally(s, i);
    LoaderUpdate(s.threads, i, Pop(s, i).threads[i], d);
  }

  lemma PreloadChanges(t: Topology, s: State, b: State, i: ThreadId, r: RegionId)
    requires Layered(t) && Typed(t, s) && Homes(t, s) && Roots(t, s) && r in t.root && t.root[r] in t.mgrs
    requires i < |b.threads| && b == s.(threads := b.threads) && SameLoaders(s.threads, b.threads)
    requires t.root[r] in t.preload && t.root[r] in s.mgrs ==> s.mgrs[t.root[r]].current.None?
    requires LoadsOk(t, s) && Exclusive(s)
    ensures Typed(t, b)
    ensures var o := DoNestedPreload(t, b, i, r);
      o.Done? ==> Changes(t, Abs(t, s), Abs(t, o.state),
                          if t.root[r] in t.preload then Fill(t.root[r], t.preload[t.root[r]], b.threads[i].owner) else Stay)
  {
    hide Homes, Roots, Layered, Changes, Abs, SameLoaders, LoadsOk, Exclusive, Claim;
    KeysOf(t, s);
    RootOf(t, s, r);
    var c := t.root[r];
    var o := DoNestedPreload(t, b, i, r);
    if o.Done? {
      if c in t.preload {
        PreloadHome(t, c);
        NoLoadBy(t, s, c, r);
        var e := SetBlocked(SetReconf(b, r, true), r, true);
        FillChanges(t, s, e, i, c, r, t.preload[c]);
      } else {
        SameSlots(t, s, o.state);
        Stays(t, s, o.state);
      }
    }
  }

  lemma Stays(t: Topology, s: State, n: State)
    requires Abs(t, n) == Abs(t, s)
    ensures Changes(t, Abs(t, s), Abs(t, n), Stay)
  {
  }

  lemma PlaceChanges(t: Topology, s: State, c: ManagerId)
    requires Layered(t) && Typed(t, s) && Enabled(t, s, StartPreload(c)) && !Overwrites(t, s, StartPreload(c))
    requires Valid(t) && Inv(t, s)
    ensures var o := DoStartPreload(t, s, c); !o.Aborted? && (o.Done? ==> Changes(t, Abs(t, s), Abs(t, o.state), Place(c, t.preload[c])))
  {
    hide ThreadsOk, HandlesOk, Counted, Exclusive, FlagsOk, CallsBound, Matching, LoadsOk, Changes, Abs, Couple, Activate,
         CanCouple, DecoupledOk, Stationed, Leftovers, WaitsOk, BlockedOk, SettledPart, SplitPart, PathOk, Valid, Layered, Homes, Roots, Connected, Typed;
    KeysOf(t, s);
    PreloadHome(t, c);
    var o := DoStartPreload(t, s, c);
    if o.Done? {
      NotOwnSub(t, t.preload[c]);
      Unloaded(t, s, c, t.preload[c]);
      PlaceSlots(t, s, c, t.preload[c], s.mgrs[c].rr.value);
    }
  }

  lemma PlaceSlots(t: Topology, s: State, c: ManagerId, m: ModuleId, r: RegionId)
    requires Typed(t, s) && Roots(t, s) && m in t.mods && t.mods[m].home == c && c !in t.mods[m].subs && m in s.mods
    requires c in s.mgrs && s.mgrs[c] == Manager(None, Some(r)) && s.mods[m] == Module(None, [])
    requires forall k | 0 <= k < |t.mods[m].subs| :: t.mods[m].subs[k] in s.mgrs && s.mgrs[t.mods[m].subs[k]].rr.None?
    ensures var b := SetCurrent(s, c, Some(m));
      m in Couple(t, b, m, r, false).mods
      && Changes(t, Abs(t, s), Abs(t, Activate(t, Couple(t, b, m, r, false), m)), Place(c, m))
  {
    hide Roots, Typed, Couple;
    var b := SetCurrent(s, c, Some(m));
    CoupleEffect(t, b, m, r, false);
    var n := Activate(t, Couple(t, b, m, r, false), m);
    SpawnSame(s.threads, m, t.mods[m].procs);
    CoupleThreads(t, b, m, r, false);
    forall d <- s.mgrs ensures SlotOf(t, n, d) == if d == c then Loaded(m) else SlotOf(t, s, d) {
      if s.mgrs[d].current.Some? { HomeOf(t, s, d); }
      SubsEmpty(t, s, m, d);
    }
    PlacedSlots(t, s, n, c, m);
  }

  lemma PlacedSlots(t: Topology, s: State, n: State, c: ManagerId, m: ModuleId)
    requires n.mgrs.Keys == s.mgrs.Keys && c in s.mgrs && s.mgrs[c].current.None?
    requires forall d <- s.mgrs :: SlotOf(t, n, d) == if d == c then Loaded(m) else SlotOf(t, s, d)
    ensures Changes(t, Abs(t, s), Abs(t, n), Place(c, m))
  {
    hide SlotOf;
    assert SlotOf(t, s, c).Empty? by { EmptySlot(t, s, c); }
  }

  lemma EmptySlot(t: Topology, s: State, c: ManagerId)
    requires c in s.mgrs && s.mgrs[c].current.None?
    ensures SlotOf(t, s, c) == Empty
  {
  }

  lemma CoupleThreads(t: Topology, s: State, m: ModuleId, r: RegionId, sync: bool)
    requires m in t.mods && m in s.mods
    ensures Couple(t, s, m, r, sync).threads == s.threads
  {
  }

  /** A module that is not current anywhere has no processes, and its sub-managers are apart. */
  lemma Unloaded(t: Topology, s: State, c: ManagerId, m: ModuleId)
    requires Typed(t, s) && Homes(t, s) && Connected(t, s) && m in t.mods && t.mods[m].home == c && c in s.mgrs && s.mgrs[c].current.None?
    ensures m in s.mods && s.mods[m] == Module(None, [])
    ensures forall k | 0 <= k < |t.mods[m].subs| :: t.mods[m].subs[k] in s.mgrs && s.mgrs[t.mods[m].subs[k]].rr.None?
  {
  }

  // ---- the theorem -----------------------------------------------------------------------------------

  lemma ConfigureRefines(t: Topology, s: State, i: ThreadId, c: ManagerId, found: Option<ModuleId>)
    requires Layered(t) && Typed(t, s) && Enabled(t, s, Configure(i, c, found))
    requires Valid(t) && Inv(t, s)
    ensures var a := Configure(i, c, found);
      var o := Next(t, s, a); !o.Failed? ==> Changes(t, Abs(t, s), Abs(t, o.state), ChangeOf(t, s, a))
  {
    hide During, Typed, Valid, Layered, Abs, Changes, DoConfigure;
    StartedTyped(t, s);
    StartedKeeps(t, s);
    var b := s.(started := true);
    SameSlots(t, s, b);
    if found.Some? && found != s.mgrs[c].current {
      ConfigureChanges(t, b, i, c, found.value);
    } else {
      NoConfigure(t, b, i, c, found);
      Stays(t, b, b);
    }
  }

  lemma UnloadRefines(t: Topology, s: State, i: ThreadId, c: ManagerId)
    requires Layered(t) && Typed(t, s) && Enabled(t, s, UnloadRequest(i, c))
    requires Valid(t) && Inv(t, s)
    ensures var a := UnloadRequest(i, c);
      var o := Next(t, s, a); !o.Failed? ==> Changes(t, Abs(t, s), Abs(t, o.state), ChangeOf(t, s, a))
  {
    hide During, Typed, Valid, Layered, Abs, Changes, DoUnload;
    StartedTyped(t, s);
    StartedKeeps(t, s);
    SameSlots(t, s, s.(started := true));
    UnloadChanges(t, s.(started := true), i, c);
  }

  lemma ResumeRefines(t: Topology, s: State, i: ThreadId)
    requires Layered(t) && Typed(t, s) && Enabled(t, s, Resume(i)) && !Overwriting(t, s, i)
    requires Valid(t) && Inv(t, s)
    ensures var o := Next(t, s, Resume(i)); !o.Failed? ==> Changes(t, Abs(t, s), Abs(t, o.state), ChangeOf(t, s, Resume(i)))
  {
    hide During, Typed, Valid, Layered, Abs, Changes, DoResume, Overwriting;
    StartedTyped(t, s);
    StartedKeeps(t, s);
    SameSlots(t, s, s.(started := true));
    StartedSame(t, s, i);
    ResumeChanges(t, s.(started := true), i);
  }

  lemma StepRefines(t: Topology, s: State, a: Action, n: State)
    requires Valid(t) && Inv(t, s) && TidyMoves(t, s, a, n)
    ensures Changes(t, Abs(t, s), Abs(t, n), ChangeOf(t, s, a))
  {
    hide Typed, During, Valid, Layered, Abs, Changes, Next, Enabled, Overwriting, DoStartPreload;
    match a
    case StartPreload(c) => PlaceRefines(t, s, c);
    case Configure(i, c, found) => ConfigureRefines(t, s, i, c, found);
    case UnloadRequest(i, c) => UnloadRefines(t, s, i, c);
    case Resume(i) => ResumeRefines(t, s, i);
    case _ =>
      CallsKeepSlots(t, s, a, n);
      SameSlots(t, s, n);
      Stays(t, s, n);
  }

  lemma PlaceRefines(t: Topology, s: State, c: ManagerId)
    requires Layered(t) && Typed(t, s) && Enabled(t, s, StartPreload(c)) && !Overwrites(t, s, StartPreload(c))
    requires Valid(t) && Inv(t, s)
    ensures var o := Next(t, s, StartPreload(c));
      !o.Failed? ==> Changes(t, Abs(t, s), Abs(t, o.state), ChangeOf(t, s, StartPreload(c)))
  {
    hide During, Typed, Valid, Layered, Abs, Changes, DoStartPreload, Overwrites;
    PlaceChanges(t, s, c);
  }

  lemma CallsKeepSlots(t: Topology, s: State, a: Action, n: State)
    requires Layered(t) && Typed(t, s) && Enabled(t, s, a) && (a.Enter? || a.EnterOut? || a.Return? || a.Exit?)
    requires Next(t, s, a) == Done(n) || Next(t, s, a) == Aborted(n)
    ensures n.mgrs == s.mgrs && n.mods == s.mods && SameLoaders(s.threads, n.threads)
  {
    hide Layered, Typed, SameLoaders;
    KeysOf(t, s);
    match a
    case Enter(i, r, x) => CallLoaders(s.(started := true), i, r, x, s.bound[(r, x)]);
    case EnterOut(i, m, x) => RegionOf(t, s, m); CallLoaders(s.(started := true), i, s.mods[m].configured.value, x, m);
    case Return(i) => PopCallLoader(s, i);
    case Exit(i) => UpdateSame(s.threads, i, Dead(s.threads[i]));
  }

  lemma CallLoaders(s: State, i: ThreadId, r: RegionId, x: MemberId, m: ModuleId)
    requires i < |s.threads| && r in s.regions
    ensures var o := DoCall(s, i, r, x, m); !o.Failed? ==> SameLoaders(s.threads, o.state.threads)
  {
    var th := s.threads[i].(stack := s.threads[i].stack + [Call(r, x, m)]);
    forall c: ManagerId ensures InStack(th.stack, LoadBy(c)) == InStack(s.threads[i].stack, LoadBy(c)) {
      InStackPush(s.threads[i].stack, Call(r, x, m), LoadBy(c));
    }
    UpdateSame(s.threads, i, th);
  }

  lemma PopCallLoader(s: State, i: ThreadId)
    requires Top(s, i).Some? && Top(s, i).value.Call?
    ensures SameLoaders(s.threads, Pop(s, i).threads)
  {
    UpdateSame(s.threads, i, Pop(s, i).threads[i]);
  }

  lemma StartedSame(t: Topology, s: State, i: ThreadId)
    ensures Overwriting(t, s.(started := true), i) == Overwriting(t, s, i)
  {
  }

  lemma NoConfigure(t: Topology, s: State, i: ThreadId, c: ManagerId, found: Option<ModuleId>)
    requires Layered(t) && Typed(t, s) && c in t.mgrs && i < |s.threads|
    requires found.None? || found == s.mgrs[c].current
    requires found.Some? ==> found.value in t.mods && t.mods[found.value].home == c
    ensures DoConfigure(t, s, i, c, found) == if found.None? then Failed else Done(s)
  {
  }

  /** Every step of every run is one change of the slots, so a request empties or fills slots
      only where the whole active subtree it replaces is loaded. */
  lemma RunRefines(t: Topology, states: seq<State>, actions: seq<Action>, k: nat)
    requires Valid(t) && TidyRun(t, states, actions) && k < |actions|
    ensures Layered(t) && Typed(t, states[k]) && Enabled(t, states[k], actions[k])
    ensures Changes(t, Abs(t, states[k]), Abs(t, states[k + 1]), ChangeOf(t, states[k], actions[k]))
  {
    hide During, Valid, Next, Typed, Changes, Abs, ChangeOf;
    RunInv(t, states, actions, k);
    assert TidyMoves(t, states[k], actions[k], states[k + 1]);
    StepRefines(t, states[k], actions[k], states[k + 1]);
  }

  /** Nobody starts loading or unloading on a region while a slot of the region, counting those of all its
      sub-managers, is being loaded or broken. */
  lemma LoadsExclude(t: Topology, states: seq<State>, actions: seq<Action>, k: nat, r: RegionId, d: ManagerId)
    requires Valid(t) && Run(t, states, actions) && k < |actions| && r in t.root && r in states[k].regions
    requires Layered(t) && Typed(t, states[k]) && Enabled(t, states[k], actions[k])
    requires var g := ChangeOf(t, states[k], actions[k]);
      (g.Take? || g.Fill? || g.Release? || g.Break?) && g.c in states[k].mgrs && states[k].mgrs[g.c].rr == Some(r)
    requires d in states[k].mgrs && states[k].mgrs[d].rr == Some(r)
    ensures SlotOf(t, states[k], d).Empty? || SlotOf(t, states[k], d).Loaded?
  {
    hide During, Valid, Layered, Typed, Settled, Next, Enabled, Overwrites, ChangeOf;
    assert Moves(t, states[k], actions[k], states[k + 1]);
    RunSound(t, states, actions, k);
    KeysOf(t, states[k]);
    MarksIdle(t, states[k], actions[k], r);
    IdleSlot(t, states[k], r, d);
  }

  lemma IdleSlot(t: Topology, s: State, r: RegionId, d: ManagerId)
    requires Sound(t, s) && r in s.regions && !s.regions[r].reconf && d in s.mgrs && s.mgrs[d].rr == Some(r)
    ensures SlotOf(t, s, d).Empty? || SlotOf(t, s, d).Loaded?
  {
    hide Typed, ThreadsOk, HandlesOk, Counted, Exclusive, FlagsOk, CallsBound, Matching, LoadsOk, Tidy, Roots,
         DecoupledOk, Stationed, Leftovers, SettledPart, SplitPart, PathOk, Settled;
    if s.mgrs[d].current.Some? { IdleLoaded(t, s, d, r); }
  }

  lemma MarksIdle(t: Topology, s: State, a: Action, r: RegionId)
    requires Layered(t) && Typed(t, s) && Enabled(t, s, a) && r in s.regions && r in t.root
    requires var g := ChangeOf(t, s, a);
      (g.Take? || g.Fill? || g.Release? || g.Break?) && g.c in s.mgrs && s.mgrs[g.c].rr == Some(r)
    requires Valid(t) && Sound(t, s)
    requires !Next(t, s, a).Failed?
    ensures !s.regions[r].reconf
  {
    hide Typed, ThreadsOk, HandlesOk, Counted, Exclusive, FlagsOk, CallsBound, Matching, LoadsOk, Tidy, Roots,
         DecoupledOk, Stationed, Leftovers, SettledPart, SplitPart, PathOk, Valid, Layered, Unload, Settled;
    KeysOf(t, s);
    if a.Resume? {
      TopIn(t, s, a.i, false);
      var f := Top(s, a.i).value;
      NestedOf(t, f.mod, f.phase.next);
      RootOf(t, s, t.mods[f.mod].nested[f.phase.next]);
    }
  }

  // ---- the slots of one region ---------------------------------------------------------------------

  /** In every reachable state at most one slot of a region, counting those of all its sub-managers, is
      being loaded, and only while the region is marked; a broken slot is found only on a region that is
      orphaned, and there nothing is being loaded. */
  lemma OneLoading(t: Topology, states: seq<State>, actions: seq<Action>, n: nat, r: RegionId, c: ManagerId, d: ManagerId)
    requires Valid(t) && Run(t, states, actions) && n < |states| && r in t.root
    requires c in states[n].mgrs && states[n].mgrs[c].rr == Some(r) && d in states[n].mgrs && states[n].mgrs[d].rr == Some(r)
    ensures r in states[n].regions
    ensures SlotOf(t, states[n], c).Loading? && SlotOf(t, states[n], d).Loading? ==> c == d
    ensures SlotOf(t, states[n], c).Loading? ==> states[n].regions[r].reconf && !SlotOf(t, states[n], d).Broken?
    ensures SlotOf(t, states[n], c).Broken? ==> Orphan(states[n], r)
  {
    hide Valid, Run, During;
    RunSound(t, states, actions, n);
    OneLoadingIn(t, states[n], r, c, d);
  }

  lemma OneLoadingIn(t: Topology, s: State, r: RegionId, c: ManagerId, d: ManagerId)
    requires Sound(t, s) && r in t.root && c in s.mgrs && s.mgrs[c].rr == Some(r) && d in s.mgrs && s.mgrs[d].rr == Some(r)
    ensures r in s.regions
    ensures SlotOf(t, s, c).Loading? && SlotOf(t, s, d).Loading? ==> c == d
    ensures SlotOf(t, s, c).Loading? ==> s.regions[r].reconf && !SlotOf(t, s, d).Broken?
    ensures SlotOf(t, s, c).Broken? ==> Orphan(s, r)
  {
    hide Typed, ThreadsOk, HandlesOk, Counted, FlagsOk, CallsBound, Matching, LoadsOk, Tidy, Roots,
         DecoupledOk, Stationed, Leftovers, SplitPart, SettledPart, PathOk, Settled;
    KeysOf(t, s);
    ByMeansOn(t, s, c, r);
    BrokenSlot(t, s, c, r);
    BrokenSlot(t, s, d, r);
    if Tally(s.threads, LoadBy(c)) > 0 && Tally(s.threads, LoadBy(d)) > 0 && c != d {
      LoadsOfManager(t, s, c, r);
      LoadsOfManager(t, s, d, r);
      TwoLoadsAll(s.threads, c, d, r);
    }
  }

  lemma BrokenSlot(t: Topology, s: State, c: ManagerId, r: RegionId)
    requires SettledPart(t, s, {}, {}) && c in s.mgrs && s.mgrs[c].rr == Some(r) && r in s.regions
    ensures SlotOf(t, s, c).Broken? ==> Orphan(s, r)
  {
    assert Attended(s, r, {}) <==> !Orphan(s, r);
  }
}
