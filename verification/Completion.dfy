/** A reconfiguration that has begun can always be completed. */
module Completion {
  import opened Model
  import opened Teardown
  import opened Invariants
  import opened Effects
  import opened UnloadSafety
  import opened Protocol
  import opened LoadEffects
  import opened Steps
  import opened Safety

  /** What the interface macros demand of a design: a split manager couples no members itself
      and is registered at a region's own manager, and its sub-interfaces share no member. */
  ghost predicate Complementary(t: Topology) {
    && (forall m <- t.mods | |t.mods[m].subs| > 0 ::
          t.mods[m].members == {} && exists r :: r in t.root && t.root[r] == t.mods[m].home)
    && (forall m <- t.mods, i, j, x <- t.mods, y <- t.mods
          | 0 <= i < |t.mods[m].subs| && 0 <= j < |t.mods[m].subs| && i != j
            && t.mods[x].home == t.mods[m].subs[i] && t.mods[y].home == t.mods[m].subs[j] ::
          t.mods[x].members !! t.mods[y].members)
  }

  /** Two managers connected to one region, both holding modules, are sub-managers of one
      split manager, or one of them holds that split manager. */
  lemma SharedRegion(t: Topology, s: State, c: ManagerId, d: ManagerId, r: RegionId)
    requires Valid(t) && Complementary(t) && Connected(t, s) && Roots(t, s) && r in t.root
    requires c in t.mgrs && d in t.mgrs && c in s.mgrs && d in s.mgrs && c != d
    requires s.mgrs[c].rr == Some(r) && s.mgrs[d].rr == Some(r)
    ensures c == t.root[r] || d == t.root[r] || SameSplit(t, c, d)
    ensures c == t.root[r] ==> IsSubOf(t, s, d, c)
    ensures d == t.root[r] ==> IsSubOf(t, s, c, d)
  {
    hide Valid, Complementary, Connected, Roots;
    OwnedAt(t, s, c, r);
    OwnedAt(t, s, d, r);
    if c != t.root[r] && d != t.root[r] {
      var m, i :| m in t.mods && 0 <= i < |t.mods[m].subs| && t.mods[m].subs[i] == c && AtRoot(t, s, m, r);
      var n, j :| n in t.mods && 0 <= j < |t.mods[n].subs| && t.mods[n].subs[j] == d && AtRoot(t, s, n, r);
      assert m == n;
    }
  }

  ghost predicate AtRoot(t: Topology, s: State, m: ModuleId, r: RegionId) {
    && m in t.mods && r in t.root && t.mods[m].home == t.root[r]
    && t.root[r] in s.mgrs && s.mgrs[t.root[r]].current == Some(m)
  }

  ghost predicate SameSplit(t: Topology, c: ManagerId, d: ManagerId) {
    exists m, i, j :: m in t.mods && 0 <= i < |t.mods[m].subs| && 0 <= j < |t.mods[m].subs|
                      && t.mods[m].subs[i] == c && t.mods[m].subs[j] == d
  }

  /** `c` is a connected sub-manager of the split manager that `d` holds. */
  ghost predicate IsSubOf(t: Topology, s: State, c: ManagerId, d: ManagerId) {
    && d in s.mgrs && s.mgrs[d].current.Some? && s.mgrs[d].current.value in t.mods
    && c in t.mods[s.mgrs[d].current.value].subs
  }

  /** A connected manager is the region's own or a sub-manager of the split manager it holds. */
  lemma OwnedAt(t: Topology, s: State, c: ManagerId, r: RegionId)
    requires Valid(t) && Complementary(t) && Connected(t, s) && Roots(t, s) && r in t.root && c in t.mgrs && c in s.mgrs
    requires s.mgrs[c].rr == Some(r)
    ensures c == t.root[r]
      || exists m, i :: m in t.mods && 0 <= i < |t.mods[m].subs| && t.mods[m].subs[i] == c && AtRoot(t, s, m, r)
  {
    OwnedByOne(t, c);
    hide Valid;
    if !(exists w :: w in t.root && t.root[w] == c) {
      var m, i :| m in t.mods && 0 <= i < |t.mods[m].subs| && t.mods[m].subs[i] == c;
      assert s.mgrs[t.mods[m].home] == Manager(Some(m), Some(r));
      var w :| w in t.root && t.root[w] == t.mods[m].home;
      assert w == r;
      assert AtRoot(t, s, m, r);
    }
  }

  lemma OwnedByOne(t: Topology, c: ManagerId)
    requires Valid(t) && c in t.mgrs
    ensures (exists w :: w in t.root && t.root[w] == c)
      || (exists m, i :: m in t.mods && 0 <= i < |t.mods[m].subs| && t.mods[m].subs[i] == c)
  {
    assert Owned(t, c);
    if IsSub(t, c) {}
  }

  /** The module a waiting load is about to couple finds all its adapters unbound. */
  lemma CoupleSucceeds(t: Topology, s: State, i: ThreadId)
    requires Valid(t) && Complementary(t) && Suspended(t, s, i) && Top(s, i).value.phase == LoadWait
    ensures var f := Top(s, i).value; f.mod in t.mods && f.mod in s.mods && CanCouple(t, s, f.mod, f.rr)
  {
    hide Typed, ThreadsOk, HandlesOk, Counted, Exclusive, FlagsOk, CallsBound, LoadsOk, Homes, Roots,
         Connected, DecoupledOk, Stationed, Leftovers, WaitsOk, BlockedOk, SettledPart, SplitPart, PathOk, Valid, Complementary, Matching;
    LoadSplit(t, s, i);
    TopIn(t, s, i);
    TopWaits(s, i);
    KeysOf(t, s);
    var f := Top(s, i).value;
    NothingConnected(t, s, f.mod);
    HomeOf(t, s, f.mgr);
    forall x | x in t.mods[f.mod].members ensures (f.rr, x) !in s.bound {
      if (f.rr, x) in s.bound {
        BoundBy(t, s, f.rr, x);
        Apart(t, s, f.mgr, f.mod, f.rr, s.bound[(f.rr, x)]);
      }
    }
  }

  lemma BoundBy(t: Topology, s: State, r: RegionId, x: MemberId)
    requires Matching(t, s) && Homes(t, s) && (r, x) in s.bound
    ensures var m := s.bound[(r, x)];
      m in t.mods && m in s.mods && x in t.mods[m].members && s.mods[m].configured == Some(r)
      && t.mods[m].home in s.mgrs && s.mgrs[t.mods[m].home] == Manager(Some(m), Some(r))
  {
  }

  /** No other module can occupy a member of the module being loaded. */
  lemma Apart(t: Topology, s: State, c: ManagerId, m: ModuleId, r: RegionId, y: ModuleId)
    requires Valid(t) && Complementary(t) && Connected(t, s) && Roots(t, s) && r in t.root
    requires c in t.mgrs && m in t.mods && t.mods[m].home == c && c in s.mgrs && s.mgrs[c] == Manager(Some(m), Some(r))
    requires forall k | 0 <= k < |t.mods[m].subs| :: t.mods[m].subs[k] in s.mgrs && s.mgrs[t.mods[m].subs[k]].rr.None?
    requires y in t.mods && y != m && t.mods[y].home in t.mgrs
    requires t.mods[y].home in s.mgrs && s.mgrs[t.mods[y].home] == Manager(Some(y), Some(r))
    ensures t.mods[m].members !! t.mods[y].members
  {
    hide Valid, Typed, Roots, Connected;
    var d := t.mods[y].home;
    SharedRegion(t, s, c, d, r);
    assert d !in t.mods[m].subs;
    if d == t.root[r] {
      assert |t.mods[y].subs| > 0;
    } else {
      var w, i, j :| w in t.mods && 0 <= i < |t.mods[w].subs| && 0 <= j < |t.mods[w].subs|
                     && t.mods[w].subs[i] == c && t.mods[w].subs[j] == d;
    }
  }

  /** Whenever a load resumes it goes on without any failure, with one exception: it is about to
      preload a nested region that somebody is already reconfiguring. */
  lemma ResumeExact(t: Topology, states: seq<State>, actions: seq<Action>, n: nat, i: ThreadId)
    requires Valid(t) && Complementary(t) && TidyRun(t, states, actions) && n < |states|
    requires Enabled(t, states[n], Resume(i)) && !Overwrites(t, states[n], Resume(i))
    ensures Layered(t) && Typed(t, states[n])
    ensures var s := states[n]; DoResume(t, s, i).Failed? <==> PreloadsBusy(t, s, i)
  {
    hide During, Valid, Layered, Typed, TidyRun, Complementary, PreloadsBusy;
    RunInv(t, states, actions, n);
    LayeredOf(t);
    TypedOf(t, states[n]);
    ResumeExactIn(t, states[n], i, DoResume(t, states[n], i));
  }

  lemma ResumeExactIn(t: Topology, s: State, i: ThreadId, o: Outcome)
    requires Layered(t) && Typed(t, s) && Enabled(t, s, Resume(i)) && o == DoResume(t, s, i)
    requires Valid(t) && Complementary(t) && Inv(t, s)
    ensures o.Failed? <==> PreloadsBusy(t, s, i)
  {
    hide Typed, ThreadsOk, HandlesOk, Counted, Exclusive, CallsBound, LoadsOk, Homes, Roots,
         Connected, DecoupledOk, Stationed, Leftovers, WaitsOk, BlockedOk, SettledPart, SplitPart, PathOk, Valid, Complementary, Matching, Layered,
         CanCouple;
    TopIn(t, s, i);
    KeysOf(t, s);
    var f := Top(s, i).value;
    match f.phase
    case LoadWait => CoupleSucceeds(t, s, i);
    case SyncWait =>
    case Activating(k) => if k < |t.mods[f.mod].nested| { NestedOf(t, f.mod, k); }
  }

  ghost predicate PreloadsBusy(t: Topology, s: State, i: ThreadId) {
    && Top(s, i).Some? && Top(s, i).value.Load? && Top(s, i).value.phase.Activating?
    && var f := Top(s, i).value;
      && f.mod in t.mods && f.phase.next < |t.mods[f.mod].nested|
      && var w := t.mods[f.mod].nested[f.phase.next];
        w in t.root && t.root[w] in t.preload && w in s.regions && s.regions[w].reconf
  }
}
