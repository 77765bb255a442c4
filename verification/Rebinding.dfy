/** Why an output can fail to follow the module it is bound to, in two runs: bound again in the delta
    cycle in which it was unbound, after the drive thread has run; and bound to a module whose output
    was written before, when the notification reached nobody. */
module Rebinding {
  import opened Model
  import opened Fabric

  /** An interface with one output, whose decoupled value is 0, and one module. */
  function One(exposed: Signal, inner: Signal, bound: Option<ModuleId>, listen: Process, drive: Process,
               decoupled: bool, synced: bool, recent: bool, aligned: bool, conf: Conf): Interface
  {
    Interface([Output(OutAdapter(exposed, map[0 := inner], 0, bound, if bound.Some? then {bound.value} else {},
                                 map[0 := listen], drive, decoupled, synced, recent, aligned))], conf)
  }

  /** The module is bound before simulation and writes 5; in the next cycle its adapter has been
      told to update when the region is unloaded, the drive thread runs, and a nested preload
      binds the module again. */
  function Deeds(): seq<Step> {
    [Couple(0, {0}, false), Proc(0, Listen(0)), Proc(0, Drive), Proc(0, Emit(0, 5)), Delta,
     Proc(0, Listen(0)), Decouple(0, {0}), Proc(0, Drive), Couple(0, {0}, true), Delta]
  }

  function Story(): seq<Interface> {
    [One(Signal(0, 0), Signal(0, 0), None, Fresh, Fresh, false, false, false, false, Idle),
     One(Signal(0, 0), Signal(0, 0), Some(0), Fresh, Fresh, false, false, false, true, Idle),
     One(Signal(0, 0), Signal(0, 0), Some(0), Waiting, Fresh, false, false, false, true, Idle),
     One(Signal(0, 0), Signal(0, 0), Some(0), Waiting, Waiting, false, false, false, true, Idle),
     One(Signal(0, 0), Signal(0, 5), Some(0), Waiting, Waiting, false, false, false, true, Idle),
     One(Signal(0, 0), Signal(5, 5), Some(0), Runnable, Waiting, false, false, false, true, Idle),
     One(Signal(0, 0), Signal(5, 5), Some(0), Waiting, Runnable, false, false, false, true, Idle),
     One(Signal(0, 0), Signal(5, 0), None, Waiting, Runnable, true, false, true, true, Idle),
     One(Signal(0, 0), Signal(5, 0), None, Waiting, Waiting, true, false, true, true, Idle),
     One(Signal(0, 0), Signal(5, 0), Some(0), Waiting, Waiting, false, true, true, false, Waits(0, {0}, {0})),
     One(Signal(0, 0), Signal(0, 0), Some(0), Runnable, Waiting, false, false, false, false, Woken(0, {0}))]
  }

  predicate Moves(s: Interface, step: Step, n: Interface) {
    Enabled(s, step) && Next(s, step) == Some(n)
  }

  lemma Binds(s: Interface, n: Interface, p: OutAdapter, sync: bool)
    requires s == Interface([Output(p)], Idle) && p.bound.None? && 0 in p.inner && (!sync ==> !p.decoupled)
    requires n == Interface([Output(BindOut(p, 0, sync))], if sync then Waits(0, {0}, {0}) else Idle)
    ensures Moves(s, Couple(0, {0}, sync), n)
  {
    assert s.ports[0] == Output(p);
    assert Next(s, Couple(0, {0}, sync)).value.ports == n.ports;
  }

  lemma Runs(s: Interface, n: Interface, p: OutAdapter, a: Act)
    requires s == Interface([Output(p)], Idle) && CanAct(Output(p), a)
    requires n == Interface([Do(Output(p), a)], Idle)
    ensures Moves(s, Proc(0, a), n)
  {
    assert s.ports[0 := Do(Output(p), a)] == n.ports;
  }

  lemma Ticks(s: Interface, n: Interface, p: OutAdapter, conf: Conf)
    requires s == Interface([Output(p)], conf) && Quiet(Output(p)) && (conf == Idle || (conf == Waits(0, {0}, {0}) && p.synced))
    requires n == Interface([Output(TickOut(p))], if conf.Idle? then Idle else Woken(0, {0}))
    ensures Moves(s, Delta, n)
  {
    assert Next(s, Delta).value.ports == n.ports;
  }

  /** The adapter's functions on the maps of one module. */
  lemma OfOne(p: OutAdapter, x: Signal, l: Process)
    requires p.inner == map[0 := x] && p.listen == map[0 := l]
    ensures forall v :: Put(p.inner, 0, v) == map[0 := x.(nxt := v)]
    ensures p.listen[0 := Waiting] == map[0 := Waiting]
    ensures UpdatedAll(p.inner) == map[0 := Updated(x)]
    ensures TickOut(p).listen == map[0 := Wake(l, x)]
    ensures p.back == {} ==> p.back + {0} == {0}
    ensures p.back == {0} ==> p.back - {0} == {}
  {
  }

  lemma Begins()
    ensures |Story()| == 11 && |Deeds()| == 10 && Start(Story()[0])
  {
  }

  lemma FirstBind()
    ensures |Story()| == 11 && |Deeds()| == 10 && Moves(Story()[0], Deeds()[0], Story()[1])
  {
    hide Moves, TickOut, UpdatedAll;
    var s := Story();
    OfOne(s[0].ports[0].o, Signal(0, 0), Fresh);
    Binds(s[0], s[1], s[0].ports[0].o, false);
  }

  lemma FirstWaits()
    ensures |Story()| == 11 && |Deeds()| == 10
    ensures forall k | 1 <= k < 3 :: Moves(Story()[k], Deeds()[k], Story()[k + 1])
  {
    hide Moves, Story, Deeds;
    FirstListens();
    FirstDrives();
  }

  lemma FirstListens()
    ensures |Story()| == 11 && |Deeds()| == 10 && Moves(Story()[1], Deeds()[1], Story()[2])
  {
    hide Moves, TickOut, UpdatedAll;
    var s := Story();
    OfOne(s[1].ports[0].o, Signal(0, 0), Fresh);
    Runs(s[1], s[2], s[1].ports[0].o, Listen(0));
  }

  lemma FirstDrives()
    ensures |Story()| == 11 && |Deeds()| == 10 && Moves(Story()[2], Deeds()[2], Story()[3])
  {
    hide Moves, TickOut, UpdatedAll;
    var s := Story();
    Runs(s[2], s[3], s[2].ports[0].o, Drive);
  }

  lemma FirstHalf()
    ensures |Story()| == 11 && |Deeds()| == 10
    ensures forall k | 3 <= k < 5 :: Moves(Story()[k], Deeds()[k], Story()[k + 1])
  {
    hide Moves, TickOut, UpdatedAll;
    var s := Story();
    OfOne(s[3].ports[0].o, Signal(0, 0), Waiting);
    Runs(s[3], s[4], s[3].ports[0].o, Emit(0, 5));
    TickOf(s[4].ports[0].o, Signal(0, 5), Waiting);
    Ticks(s[4], s[5], s[4].ports[0].o, Idle);
  }

  lemma SecondHalf()
    ensures |Story()| == 11 && |Deeds()| == 10
    ensures forall k | 5 <= k < 10 :: Moves(Story()[k], Deeds()[k], Story()[k + 1])
  {
    hide Moves, Story, Deeds;
    Unbound();
    BoundAgain();
  }

  lemma Unbound()
    ensures |Story()| == 11 && |Deeds()| == 10
    ensures forall k | 5 <= k < 8 :: Moves(Story()[k], Deeds()[k], Story()[k + 1])
  {
    hide Moves, TickOut, UpdatedAll;
    var s := Story();
    OfOne(s[5].ports[0].o, Signal(5, 5), Runnable);
    Runs(s[5], s[6], s[5].ports[0].o, Listen(0));
    OfOne(s[6].ports[0].o, Signal(5, 5), Waiting);
    Unbinds(s[6], s[7]);
    Runs(s[7], s[8], s[7].ports[0].o, Drive);
  }

  lemma BoundAgain()
    ensures |Story()| == 11 && |Deeds()| == 10
    ensures forall k | 8 <= k < 10 :: Moves(Story()[k], Deeds()[k], Story()[k + 1])
  {
    hide Moves, TickOut, UpdatedAll;
    var s := Story();
    OfOne(s[8].ports[0].o, Signal(5, 0), Waiting);
    Binds(s[8], s[9], s[8].ports[0].o, true);
    TickOf(s[9].ports[0].o, Signal(5, 0), Waiting);
    Ticks(s[9], s[10], s[9].ports[0].o, Waits(0, {0}, {0}));
  }

  lemma TickOf(p: OutAdapter, x: Signal, l: Process)
    requires p.inner == map[0 := x] && p.listen == map[0 := l]
    ensures TickOut(p) == p.(exposed := Updated(p.exposed), inner := map[0 := Updated(x)], synced := false, recent := false,
                             listen := map[0 := Wake(l, x)])
  {
    OfOne(p, x, l);
  }

  lemma Unbinds(s: Interface, n: Interface)
    requires |s.ports| == 1 && s.conf == Idle && s.ports[0].Output? && s.ports[0].o.bound == Some(0)
    requires n == Interface([Output(UnbindOut(s.ports[0].o, 0))], Idle)
    ensures Moves(s, Decouple(0, {0}), n)
  {
    assert Next(s, Decouple(0, {0})).value.ports == n.ports;
  }

  /** In this run the exposed output after the last cycle is not what the bound module's output
      was during it: the pair is not aligned, because at its bind the output showed the decoupled
      value and no thread was ready to change that. */
  lemma Lags()
    ensures Run(Story(), Deeds()) && |Story()| == 11 && Deeds()[9] == Delta
    ensures var p, n := Story()[9].ports[0].o, Story()[10].ports[0].o;
      && p.bound == Some(0) && !p.aligned && !Follows(Story()[8].ports[0].o, 0)
      && n.exposed.cur == 0 && p.inner[0].cur == 5
  {
    Begins();
    FirstBind();
    FirstWaits();
    FirstHalf();
    SecondHalf();
    Connects(Story(), Deeds());
  }

  lemma Connects(states: seq<Interface>, steps: seq<Step>)
    requires |states| == |steps| + 1 && Start(states[0])
    requires forall k | 0 <= k < |steps| :: Moves(states[k], steps[k], states[k + 1])
    ensures Run(states, steps)
  {
    hide Enabled, Next;
    forall k | 0 <= k < |steps| ensures Enabled(states[k], steps[k]) && Next(states[k], steps[k]) == Some(states[k + 1]) {
      assert Moves(states[k], steps[k], states[k + 1]);
    }
  }

  // ---- written before the bind --------------------------------------------------------------------

  /** Something in the module writes its output while it is not bound; then it is bound. */
  function EarlyDeeds(): seq<Step> {
    [Proc(0, Listen(0)), Proc(0, Drive), Proc(0, Emit(0, 5)), Delta, Proc(0, Listen(0)), Couple(0, {0}, true), Delta]
  }

  function Early(): seq<Interface> {
    [One(Signal(0, 0), Signal(0, 0), None, Fresh, Fresh, false, false, false, false, Idle),
     One(Signal(0, 0), Signal(0, 0), None, Waiting, Fresh, false, false, false, false, Idle),
     One(Signal(0, 0), Signal(0, 0), None, Waiting, Waiting, false, false, false, false, Idle),
     One(Signal(0, 0), Signal(0, 5), None, Waiting, Waiting, false, false, false, false, Idle),
     One(Signal(0, 0), Signal(5, 5), None, Runnable, Waiting, false, false, false, false, Idle),
     One(Signal(0, 0), Signal(5, 5), None, Waiting, Waiting, false, false, false, false, Idle),
     One(Signal(0, 0), Signal(5, 5), Some(0), Waiting, Waiting, false, true, false, false, Waits(0, {0}, {0})),
     One(Signal(0, 0), Signal(5, 5), Some(0), Waiting, Waiting, false, false, false, false, Woken(0, {0}))]
  }

  lemma EarlyStarts()
    ensures |Early()| == 8 && |EarlyDeeds()| == 7 && Start(Early()[0])
  {
  }

  lemma EarlyWrites()
    ensures |Early()| == 8 && |EarlyDeeds()| == 7
    ensures forall k | 0 <= k < 3 :: Moves(Early()[k], EarlyDeeds()[k], Early()[k + 1])
  {
    hide Moves, TickOut, UpdatedAll;
    var s := Early();
    OfOne(s[0].ports[0].o, Signal(0, 0), Fresh);
    Runs(s[0], s[1], s[0].ports[0].o, Listen(0));
    Runs(s[1], s[2], s[1].ports[0].o, Drive);
    OfOne(s[2].ports[0].o, Signal(0, 0), Waiting);
    Runs(s[2], s[3], s[2].ports[0].o, Emit(0, 5));
  }

  lemma EarlyLoses()
    ensures |Early()| == 8 && |EarlyDeeds()| == 7
    ensures forall k | 3 <= k < 5 :: Moves(Early()[k], EarlyDeeds()[k], Early()[k + 1])
  {
    hide Moves, TickOut, UpdatedAll;
    var s := Early();
    TickOf(s[3].ports[0].o, Signal(0, 5), Waiting);
    Ticks(s[3], s[4], s[3].ports[0].o, Idle);
    OfOne(s[4].ports[0].o, Signal(5, 5), Runnable);
    Runs(s[4], s[5], s[4].ports[0].o, Listen(0));
  }

  lemma EarlyBinds()
    ensures |Early()| == 8 && |EarlyDeeds()| == 7
    ensures forall k | 5 <= k < 7 :: Moves(Early()[k], EarlyDeeds()[k], Early()[k + 1])
  {
    hide Moves, TickOut, UpdatedAll;
    var s := Early();
    OfOne(s[5].ports[0].o, Signal(5, 5), Waiting);
    Binds(s[5], s[6], s[5].ports[0].o, true);
    TickOf(s[6].ports[0].o, Signal(5, 5), Waiting);
    Ticks(s[6], s[7], s[6].ports[0].o, Waits(0, {0}, {0}));
  }

  /** In this run the adapter was never unbound.  The synchronised bind is answered, and yet the exposed
      output stays at the decoupled value while the module shows another one. */
  lemma StaysAtRest()
    ensures Run(Early(), EarlyDeeds()) && |Early()| == 8 && EarlyDeeds()[6] == Delta
    ensures forall k | 0 <= k < 7 :: !EarlyDeeds()[k].Decouple?
    ensures var p, n := Early()[6].ports[0].o, Early()[7].ports[0].o;
      && !Early()[5].ports[0].o.recent && !Follows(Early()[5].ports[0].o, 0)
      && p.bound == Some(0) && Early()[7].conf.Woken? && n.exposed.cur == 0 && p.inner[0].cur == 5
  {
    EarlyStarts();
    EarlyWrites();
    EarlyLoses();
    EarlyBinds();
    Connects(Early(), EarlyDeeds());
  }
}
