/** The nested add-one example: modules nested to any depth, whose signals are joined by the
    adapters of `Fabric` and by module processes. */
module Chain {
  import opened Model
  import opened Fabric

  /** What carries a value from one signal to the next: the adapter pair of an input of a loaded
      module, that of an output, or a method process that adds `gain`. */
  datatype Stage =
    | Inward(update: Process)
    | Outward(listen: Process, drive: Process)
    | Method(proc: Process, gain: Value)

  /** Stage `j` reads signal `j` and writes signal `j + 1`. */
  datatype Design = Design(sigs: seq<Signal>, stages: seq<Stage>)

  // ---- the stages, run by the adapters' own code ------------------------------------------------

  function InAt(source: Signal, target: Signal, update: Process): InAdapter {
    InAdapter(source, map[0 := target], Some(0), {0}, update, false, false, true)
  }

  function OutAt(source: Signal, target: Signal, listen: Process, drive: Process): OutAdapter {
    OutAdapter(target, map[0 := source], 0, Some(0), {0}, map[0 := listen], drive, false, false, false, true)
  }

  datatype Step = Write(v: Value) | Update(j: nat) | Listen(j: nat) | Drive(j: nat) | Invoke(j: nat) | Delta

  predicate Shaped(c: Design) {
    |c.sigs| == |c.stages| + 1
  }

  predicate Idle(g: Stage) {
    match g
    case Inward(update) => update.Waiting?
    case Outward(listen, drive) => listen.Waiting? && drive.Waiting?
    case Method(proc, gain) => proc.Waiting?
  }

  predicate Enabled(c: Design, step: Step)
    requires Shaped(c)
  {
    match step
    case Write(v) => true
    case Update(j) => j < |c.stages| && c.stages[j].Inward? && !c.stages[j].update.Waiting?
    case Listen(j) => j < |c.stages| && c.stages[j].Outward? && !c.stages[j].listen.Waiting?
    case Drive(j) => j < |c.stages| && c.stages[j].Outward? && !c.stages[j].drive.Waiting?
    case Invoke(j) => j < |c.stages| && c.stages[j].Method? && c.stages[j].proc.Runnable?
    case Delta => forall j | 0 <= j < |c.stages| :: Idle(c.stages[j])
  }

  function Next(c: Design, step: Step): Design
    requires Shaped(c) && Enabled(c, step)
  {
    match step
    case Write(v) => c.(sigs := c.sigs[0 := c.sigs[0].(nxt := v)])
    case Update(j) =>
      var p := RunUpdate(InAt(c.sigs[j], c.sigs[j + 1], c.stages[j].update));
      Design(c.sigs[j + 1 := p.inner[0]], c.stages[j := Inward(p.update)])
    case Listen(j) =>
      var p := RunListen(OutAt(c.sigs[j], c.sigs[j + 1], c.stages[j].listen, c.stages[j].drive), 0);
      c.(stages := c.stages[j := Outward(p.listen[0], p.drive)])
    case Drive(j) =>
      var p := RunDrive(OutAt(c.sigs[j], c.sigs[j + 1], c.stages[j].listen, c.stages[j].drive));
      Design(c.sigs[j + 1 := p.exposed], c.stages[j := Outward(p.listen[0], p.drive)])
    case Invoke(j) =>
      Design(c.sigs[j + 1 := c.sigs[j + 1].(nxt := c.sigs[j].cur + c.stages[j].gain)],
             c.stages[j := c.stages[j].(proc := Waiting)])
    case Delta =>
      Design(seq(|c.sigs|, j requires 0 <= j < |c.sigs| => Updated(c.sigs[j])),
             seq(|c.stages|, j requires 0 <= j < |c.stages| && j < |c.sigs| => Woken(c.stages[j], c.sigs[j])))
  }

  function Woken(g: Stage, source: Signal): Stage {
    match g
    case Inward(update) => Inward(TickIn(InAt(source, source, update)).update)
    case Outward(listen, drive) => Outward(TickOut(OutAt(source, source, listen, drive)).listen[0], drive)
    case Method(proc, gain) => Method(Wake(proc, source), gain)
  }

  // ---- the invariant ------------------------------------------------------------------------------

  function Gain(g: Stage): Value {
    if g.Method? then g.gain else 0
  }

  /** The target has been asked to follow the source, or a process that will see to it is ready. */
  predicate Follows(g: Stage, source: Signal, target: Signal) {
    && match g
       case Inward(update) => !update.Fresh? && (update.Waiting? ==> target.nxt == source.cur)
       case Outward(listen, drive) => !listen.Fresh? && !drive.Fresh?
                                      && (listen.Waiting? && drive.Waiting? ==> target.nxt == source.cur)
       case Method(proc, gain) => !proc.Fresh? && (proc.Waiting? ==> target.nxt == source.cur + gain)
  }

  predicate Ok(c: Design) {
    Shaped(c) && forall j | 0 <= j < |c.stages| :: Follows(c.stages[j], c.sigs[j], c.sigs[j + 1])
  }

  /** The step keeps the invariant, the shape and the gains; only a delta cycle changes what the signals
      show, and only a write what the input is asked to show. */
  predicate Keeps(c: Design, n: Design, step: Step) {
    && Ok(n) && |n.stages| == |c.stages| && |n.sigs| == |c.sigs| && 0 < |c.sigs|
    && (forall j | 0 <= j < |c.stages| :: Gain(n.stages[j]) == Gain(c.stages[j]))
    && (!step.Delta? ==> forall j | 0 <= j < |c.sigs| :: n.sigs[j].cur == c.sigs[j].cur)
    && (!step.Write? && !step.Delta? ==> n.sigs[0] == c.sigs[0])
  }

  lemma WriteOk(c: Design, v: Value)
    requires Ok(c)
    ensures Keeps(c, Next(c, Step.Write(v)), Step.Write(v))
  {
  }

  lemma UpdateOk(c: Design, j: nat)
    requires Ok(c) && Enabled(c, Step.Update(j))
    ensures Keeps(c, Next(c, Step.Update(j)), Step.Update(j))
  {
  }

  lemma ListenOk(c: Design, j: nat)
    requires Ok(c) && Enabled(c, Step.Listen(j))
    ensures Keeps(c, Next(c, Step.Listen(j)), Step.Listen(j))
  {
  }

  lemma DriveOk(c: Design, j: nat)
    requires Ok(c) && Enabled(c, Step.Drive(j))
    ensures Keeps(c, Next(c, Step.Drive(j)), Step.Drive(j))
  {
  }

  lemma InvokeOk(c: Design, j: nat)
    requires Ok(c) && Enabled(c, Step.Invoke(j))
    ensures Keeps(c, Next(c, Step.Invoke(j)), Step.Invoke(j))
  {
  }

  lemma DeltaOk(c: Design)
    requires Ok(c) && Enabled(c, Step.Delta)
    ensures Keeps(c, Next(c, Step.Delta), Step.Delta)
  {
  }

  lemma NextOk(c: Design, step: Step)
    requires Ok(c) && Enabled(c, step)
    ensures Keeps(c, Next(c, step), step)
  {
    hide Ok, Enabled, Next, Keeps;
    match step
    case Write(v) => WriteOk(c, v);
    case Update(j) => UpdateOk(c, j);
    case Listen(j) => ListenOk(c, j);
    case Drive(j) => DriveOk(c, j);
    case Invoke(j) => InvokeOk(c, j);
    case Delta => DeltaOk(c);
  }

  /** One delta cycle moves every value on by one stage. */
  lemma DeltaMoves(c: Design, j: nat)
    requires Ok(c) && Enabled(c, Step.Delta) && j < |c.stages|
    ensures Next(c, Step.Delta).sigs[j + 1].cur == c.sigs[j].cur + Gain(c.stages[j])
  {
  }

  // ---- runs ------------------------------------------------------------------------------------------

  /** The gains of the first `j` stages. */
  function Total(stages: seq<Stage>, j: nat): Value
    requires j <= |stages|
  {
    if j == 0 then 0 else Total(stages, j - 1) + Gain(stages[j - 1])
  }

  /** Settled and consistent: every process waits and every signal carries the input plus the
      gains on the way. */
  predicate Still(c: Design, a: Value) {
    && Shaped(c)
    && (forall j | 0 <= j < |c.stages| :: Idle(c.stages[j]))
    && (forall j | 0 <= j < |c.sigs| :: c.sigs[j] == Signal(a + Total(c.stages, j), a + Total(c.stages, j)))
  }

  predicate Run(states: seq<Design>, steps: seq<Step>) {
    && |states| == |steps| + 1
    && Ok(states[0])
    && forall k | 0 <= k < |steps| :: Shaped(states[k]) && Enabled(states[k], steps[k]) && states[k + 1] == Next(states[k], steps[k])
  }

  /** The number of delta cycles that have ended before position `k`. */
  function Clock(steps: seq<Step>, k: nat): nat
    requires k <= |steps|
  {
    if k == 0 then 0 else Clock(steps, k - 1) + if steps[k - 1].Delta? then 1 else 0
  }

  lemma StillOk(c: Design, a: Value)
    requires Still(c, a)
    ensures Ok(c)
  {
    forall j | 0 <= j < |c.stages| ensures Follows(c.stages[j], c.sigs[j], c.sigs[j + 1]) {
      assert Total(c.stages, j + 1) == Total(c.stages, j) + Gain(c.stages[j]);
    }
  }

  lemma {:induction false} SameTotal(a: seq<Stage>, b: seq<Stage>, j: nat)
    requires |a| == |b| && j <= |a| && forall i | 0 <= i < |a| :: Gain(a[i]) == Gain(b[i])
    ensures Total(a, j) == Total(b, j)
  {
    if j > 0 { SameTotal(a, b, j - 1); }
  }

  lemma {:induction false} RunOk(states: seq<Design>, steps: seq<Step>, k: nat)
    requires Run(states, steps) && k < |states|
    ensures Ok(states[k]) && |states[k].stages| == |states[0].stages|
    ensures forall j | 0 <= j < |states[0].stages| :: Gain(states[k].stages[j]) == Gain(states[0].stages[j])
  {
    hide Ok, Enabled, Next;
    if k > 0 {
      RunOk(states, steps, k - 1);
      NextOk(states[k - 1], steps[k - 1]);
    }
  }

  /** Within one delta cycle no signal changes. */
  lemma {:induction false} Steady(states: seq<Design>, steps: seq<Step>, k: nat, l: nat, j: nat)
    requires Run(states, steps) && k <= l < |states| && Clock(steps, l) == Clock(steps, k) && j <= |states[0].stages|
    ensures Shaped(states[k]) && Shaped(states[l]) && |states[k].stages| == |states[l].stages| == |states[0].stages|
    ensures states[l].sigs[j].cur == states[k].sigs[j].cur
    decreases l
  {
    hide Next, Enabled;
    RunOk(states, steps, k);
    RunOk(states, steps, l);
    if k < l {
      ClockGrows(steps, k, l - 1);
      Steady(states, steps, k, l - 1, j);
      RunOk(states, steps, l - 1);
      NextOk(states[l - 1], steps[l - 1]);
    }
  }

  lemma {:induction false} ClockGrows(steps: seq<Step>, k: nat, l: nat)
    requires k <= l <= |steps|
    ensures Clock(steps, k) <= Clock(steps, l)
    decreases l
  {
    if k < l { ClockGrows(steps, k, l - 1); }
  }

  /** The last position with a given clock value. */
  lemma {:induction false} Before(steps: seq<Step>, l: nat, d: nat) returns (i: nat)
    requires l <= |steps| && d <= Clock(steps, l)
    ensures i <= l && Clock(steps, i) == d
    ensures forall k | 0 <= k <= l && Clock(steps, k) <= d :: k <= i
    decreases l
  {
    if d == Clock(steps, l) {
      i := l;
    } else {
      i := Before(steps, l - 1, d);
    }
  }

  lemma {:induction false} OneStage(states: seq<Design>, steps: seq<Step>, k: nat, l: nat, j: nat)
    requires Run(states, steps) && k <= l < |states| && Clock(steps, l) == Clock(steps, k) + 1 && j < |states[0].stages|
    ensures Shaped(states[k]) && Shaped(states[l]) && |states[k].stages| == |states[l].stages| == |states[0].stages|
    ensures states[l].sigs[j + 1].cur == states[k].sigs[j].cur + Gain(states[0].stages[j])
    decreases l
  {
    hide Next, Enabled;
    RunOk(states, steps, k);
    RunOk(states, steps, l);
    RunOk(states, steps, l - 1);
    NextOk(states[l - 1], steps[l - 1]);
    if steps[l - 1].Delta? {
      Steady(states, steps, k, l - 1, j);
      DeltaMoves(states[l - 1], j);
    } else {
      OneStage(states, steps, k, l - 1, j);
    }
  }

  /** For every schedule and every input waveform: `j` delta cycles later signal `j` carries
      what the input carried, plus the gains on the way. */
  lemma {:induction false} DelayLine(states: seq<Design>, steps: seq<Step>, k: nat, l: nat, j: nat)
    requires Run(states, steps) && k <= l < |states| && Clock(steps, l) == Clock(steps, k) + j && j <= |states[0].stages|
    ensures Shaped(states[k]) && Shaped(states[l]) && |states[k].stages| == |states[l].stages| == |states[0].stages|
    ensures states[l].sigs[j].cur == states[k].sigs[0].cur + Total(states[0].stages, j)
    decreases j
  {
    hide Next, Enabled, Ok;
    if j == 0 {
      Steady(states, steps, k, l, 0);
    } else {
      var i := Before(steps, l, Clock(steps, l) - 1);
      DelayLine(states, steps, k, i, j - 1);
      OneStage(states, steps, i, l, j - 1);
    }
  }

  // ---- quiescence ----------------------------------------------------------------------------------

  /** From position `k` on nobody writes the input, which has been asked to carry `b`. */
  predicate Settling(states: seq<Design>, steps: seq<Step>, k: nat, b: Value) {
    && k < |states| && |states| == |steps| + 1
    && Shaped(states[k]) && states[k].sigs[0].nxt == b
    && forall i | k <= i < |steps| :: !steps[i].Write?
  }

  lemma {:induction false} InputHolds(states: seq<Design>, steps: seq<Step>, k: nat, l: nat, b: Value)
    requires Run(states, steps) && Settling(states, steps, k, b) && k <= l < |states|
    ensures Shaped(states[l]) && states[l].sigs[0].nxt == b
    ensures Clock(steps, l) > Clock(steps, k) ==> states[l].sigs[0].cur == b
    decreases l
  {
    hide Enabled, Next, Ok, Follows;
    if k < l {
      InputHolds(states, steps, k, l - 1, b);
      RunOk(states, steps, l - 1);
      StepHolds(states[l - 1], steps[l - 1], b);
    }
  }

  lemma StepHolds(c: Design, step: Step, b: Value)
    requires Ok(c) && Enabled(c, step) && !step.Write? && c.sigs[0].nxt == b
    ensures Shaped(Next(c, step)) && Next(c, step).sigs[0].nxt == b
    ensures Next(c, step).sigs[0].cur == if step.Delta? then b else c.sigs[0].cur
  {
    hide Follows;
    NextOk(c, step);
  }

  /** Signal `j` has its final value after `j + 1` delta cycles. */
  lemma Arrived(states: seq<Design>, steps: seq<Step>, k: nat, l: nat, b: Value, j: nat)
    requires Run(states, steps) && Settling(states, steps, k, b) && k <= l < |states|
    requires j <= |states[0].stages| && Clock(steps, l) >= Clock(steps, k) + 1 + j
    ensures Shaped(states[l]) && |states[l].stages| == |states[0].stages|
    ensures states[l].sigs[j].cur == b + Total(states[0].stages, j)
  {
    hide Next, Enabled, Ok, Run;
    RunOk(states, steps, l);
    var i := Before(steps, l, Clock(steps, l) - j);
    InputHolds(states, steps, k, i, b);
    DelayLine(states, steps, i, l, j);
  }

  /** A design that is still stays as it is until somebody writes the input. */
  lemma StillStays(c: Design, step: Step, b: Value)
    requires Still(c, b) && Enabled(c, step) && !step.Write?
    ensures step.Delta? && Next(c, step) == c
  {
    assert step.Delta?;
    var n := Next(c, step);
    forall j | 0 <= j < |c.sigs| ensures n.sigs[j] == c.sigs[j] {}
    forall j | 0 <= j < |c.stages| ensures n.stages[j] == c.stages[j] { StillStage(c.stages[j], c.sigs[j]); }
    assert n.sigs == c.sigs && n.stages == c.stages;
  }

  lemma StillStage(g: Stage, source: Signal)
    requires Idle(g) && source.nxt == source.cur
    ensures Woken(g, source) == g
  {
  }

  /** After any change of the input the whole design is still again, with every signal
      consistent with the new input, once one more delta cycle than it has stages has ended. */
  lemma {:induction false} Quiesces(states: seq<Design>, steps: seq<Step>, k: nat, l: nat, b: Value)
    requires Run(states, steps) && Settling(states, steps, k, b) && k <= l < |states|
    requires Clock(steps, l) >= Clock(steps, k) + 1 + |states[0].stages|
    ensures Still(states[l], b)
    decreases l
  {
    hide Still, Settling;
    assert Settling(states, steps, k, b) && !steps[l - 1].Write? by { NoWrite(states, steps, k, l, b); }
    if Clock(steps, l - 1) >= Clock(steps, k) + 1 + |states[0].stages| {
      Quiesces(states, steps, k, l - 1, b);
      StillStays(states[l - 1], steps[l - 1], b);
    } else {
      LastCycle(states, steps, k, l, b);
    }
  }

  lemma NoWrite(states: seq<Design>, steps: seq<Step>, k: nat, l: nat, b: Value)
    requires Settling(states, steps, k, b) && k < l < |states|
    ensures !steps[l - 1].Write?
  {
  }

  lemma LastCycle(states: seq<Design>, steps: seq<Step>, k: nat, l: nat, b: Value)
    requires Run(states, steps) && Settling(states, steps, k, b) && k < l < |states| && steps[l - 1].Delta?
    requires Clock(steps, l) == Clock(steps, k) + 1 + |states[0].stages|
    ensures Still(states[l], b)
  {
    hide Settling, Follows, Run, Next, Enabled;
    var n := states[l];
    RunOk(states, steps, l);
    forall j | 0 <= j < |n.sigs| ensures n.sigs[j] == Signal(b + Total(n.stages, j), b + Total(n.stages, j)) {
      Arrived(states, steps, k, l, b, j);
      SameTotal(n.stages, states[0].stages, j);
      FreshlyUpdated(states, steps, l, j);
    }
    forall j | 0 <= j < |n.stages| ensures Idle(n.stages[j]) {
      Arrived(states, steps, k, l - 1, b, j);
      Arrived(states, steps, k, l, b, j);
      FreshlyUpdated(states, steps, l, j);
    }
  }

  lemma FreshlyUpdated(states: seq<Design>, steps: seq<Step>, l: nat, j: nat)
    requires Run(states, steps) && 0 < l < |states| && steps[l - 1].Delta? && j <= |states[l].stages|
    ensures Shaped(states[l - 1]) && Shaped(states[l]) && |states[l - 1].stages| == |states[l].stages|
    ensures states[l].sigs[j].nxt == states[l].sigs[j].cur
    ensures j < |states[l].stages| && states[l].sigs[j].cur == states[l - 1].sigs[j].cur ==> Idle(states[l].stages[j])
  {
    hide Ok;
    RunOk(states, steps, l - 1);
    RunOk(states, steps, l);
  }

  // ---- progress ------------------------------------------------------------------------------------

  function Ready(p: Process): nat {
    if p.Waiting? then 0 else 1
  }

  /** How many more times processes of a stage can run before the evaluation phase ends. */
  function StageWork(g: Stage): nat {
    match g
    case Inward(update) => Ready(update)
    case Outward(listen, drive) => 2 * Ready(listen) + Ready(drive)
    case Method(proc, gain) => Ready(proc)
  }

  function Work(stages: seq<Stage>): nat {
    if stages == [] then 0 else Work(stages[..|stages| - 1]) + StageWork(stages[|stages| - 1])
  }

  lemma {:induction false} WorkBound(stages: seq<Stage>)
    ensures Work(stages) <= 3 * |stages|
  {
    if stages != [] { WorkBound(stages[..|stages| - 1]); }
  }

  lemma {:induction false} WorkUpdate(stages: seq<Stage>, j: nat, g: Stage)
    requires j < |stages|
    ensures Work(stages[j := g]) + StageWork(stages[j]) == Work(stages) + StageWork(g)
  {
    var n := |stages| - 1;
    if j == n {
      assert stages[j := g][..n] == stages[..n];
    } else {
      WorkUpdate(stages[..n], j, g);
      assert stages[j := g][..n] == stages[..n][j := g];
    }
  }

  /** Every run of a process uses up work, so an evaluation phase without writes ends. */
  lemma WorkDecreases(c: Design, step: Step)
    requires Shaped(c) && Enabled(c, step) && !step.Write? && !step.Delta?
    ensures Work(Next(c, step).stages) < Work(c.stages)
  {
    WorkUpdate(c.stages, step.j, Next(c, step).stages[step.j]);
  }

  lemma {:induction false} PhaseEnds(states: seq<Design>, steps: seq<Step>, k: nat, j: nat)
    requires Run(states, steps) && k + j < |states| && forall i | k <= i < k + j :: !steps[i].Write?
    requires Clock(steps, k + j) == Clock(steps, k)
    ensures Work(states[k + j].stages) + j <= Work(states[k].stages)
    decreases j
  {
    hide Enabled, Next;
    if j > 0 {
      ClockGrows(steps, k, k + j - 1);
      PhaseEnds(states, steps, k, j - 1);
      WorkDecreases(states[k + j - 1], steps[k + j - 1]);
    }
  }

  /** The number of steps after which a delta cycle must have ended. */
  function Phase(c: Design): nat {
    3 * |c.stages| + 1
  }

  lemma Distribute(d: nat, p: nat)
    requires d > 0
    ensures d * p == (d - 1) * p + p && (d - 1) * p >= 0
  {
  }

  lemma {:induction false} ClockAdvances(states: seq<Design>, steps: seq<Step>, k: nat, d: nat)
    requires Run(states, steps) && k + d * Phase(states[0]) < |states| && forall i | k <= i < |steps| :: !steps[i].Write?
    ensures Clock(steps, k + d * Phase(states[0])) >= Clock(steps, k) + d
    decreases d
  {
    hide Enabled, Next;
    if d > 0 {
      var p := Phase(states[0]);
      var l := k + (d - 1) * p;
      Distribute(d, p);
      ClockAdvances(states, steps, k, d - 1);
      ClockGrows(steps, l, l + p);
      if Clock(steps, l + p) == Clock(steps, l) {
        PhaseEnds(states, steps, l, p);
        WorkBound(states[l].stages);
        RunOk(states, steps, l);
      }
    }
  }

  // ---- the example -----------------------------------------------------------------------------------

  /** What the recursive `configure` leaves loaded in a region: add-one modules inside each other
      and a reflector in the innermost one. */
  datatype Loaded = Reflector | AddOne(inner: Loaded)

  function Configure(remaining: int): Loaded {
    if remaining > 0 then AddOne(Configure(remaining - 1)) else Reflector
  }

  /** From the signal at the region's input to the signal at its output: the adapters of the
      region and the processes of the module that is loaded in it. */
  function Wiring(x: Loaded): seq<Stage> {
    match x
    case Reflector => [Inward(Waiting), Method(Waiting, 0), Outward(Waiting, Waiting)]
    case AddOne(inner) => [Inward(Waiting), Method(Waiting, 1)] + Wiring(inner) + [Method(Waiting, 0), Outward(Waiting, Waiting)]
  }

  /** The base module passes its own ports on to the region inside it, which it configures. */
  function Example(adds: int): seq<Stage> {
    [Inward(Waiting)] + Wiring(Configure(adds)) + [Outward(Waiting, Waiting)]
  }

  /** The number of modules that add one. */
  function Adds(adds: int): nat {
    if adds > 0 then adds else 0
  }

  lemma {:induction false} TotalConcat(a: seq<Stage>, b: seq<Stage>, j: nat)
    requires j <= |a| + |b|
    ensures Total(a + b, j) == if j <= |a| then Total(a, j) else Total(a, |a|) + Total(b, j - |a|)
  {
    if j > 0 { TotalConcat(a, b, j - 1); }
  }

  lemma Short(a: seq<Stage>)
    requires |a| <= 3
    ensures Total(a, |a|) == (if |a| > 0 then Gain(a[0]) else 0) + (if |a| > 1 then Gain(a[1]) else 0) + if |a| > 2 then Gain(a[2]) else 0
  {
    assert |a| > 1 ==> Total(a, 2) == Gain(a[0]) + Gain(a[1]) by { assert |a| > 1 ==> Total(a, 1) == Gain(a[0]); }
  }

  lemma {:induction false} WiringGain(adds: int)
    ensures var w, n := Wiring(Configure(adds)), Adds(adds); |w| == 4 * n + 3 && Total(w, 4 * n + 3) == n
    decreases Adds(adds)
  {
    if adds <= 0 {
      Short(Wiring(Reflector));
    } else {
      WiringGain(adds - 1);
      GainAround(Wiring(Configure(adds - 1)));
    }
  }

  /** The four stages of one adding module add one. */
  lemma GainAround(b: seq<Stage>)
    ensures var w := [Inward(Waiting), Method(Waiting, 1)] + b + [Method(Waiting, 0), Outward(Waiting, Waiting)];
      |w| == |b| + 4 && Total(w, |w|) == Total(b, |b|) + 1
  {
    var a, c := [Inward(Waiting), Method(Waiting, 1)], [Method(Waiting, 0), Outward(Waiting, Waiting)];
    Short(a);
    Short(c);
    TotalConcat(a, b, |a + b|);
    TotalConcat(a + b, c, |a + b + c|);
  }

  lemma ExampleGain(adds: int)
    ensures var w, n := Example(adds), Adds(adds); |w| == 4 * n + 5 && Total(w, 4 * n + 5) == n
  {
    WiringGain(adds);
    var a, b, c := [Inward(Waiting)], Wiring(Configure(adds)), [Outward(Waiting, Waiting)];
    Short(a);
    Short(c);
    TotalConcat(a, b, |a + b|);
    TotalConcat(a + b, c, |a + b + c|);
  }

  /** Stage `j` of the example with `n` adding modules, read off the source without the recursion: in each
      module the one is added before the inner region's input and the result is copied on the way out;
      the reflector copies, and every region has an adapter pair at its input and one at its output. */
  function StageAt(n: nat, j: nat): Stage {
    if j == 0 || (j % 2 == 1 && j <= 2 * n + 1) then Inward(Waiting)
    else if j % 2 == 0 && j <= 2 * n then Method(Waiting, 1)
    else if j % 2 == 0 && j <= 4 * n + 2 then Method(Waiting, 0)
    else Outward(Waiting, Waiting)
  }

  lemma {:induction false} WiringAt(adds: int, j: nat)
    requires j < 4 * Adds(adds) + 3
    ensures var w := Wiring(Configure(adds)); |w| == 4 * Adds(adds) + 3 && w[j] == StageAt(Adds(adds), j + 1)
    decreases Adds(adds)
  {
    hide Wiring, StageAt;
    WiringGain(adds);
    var n := Adds(adds);
    if n > 0 {
      Layer(n, j);
      WiringGain(adds - 1);
      Around(Configure(adds - 1), j);
      if 2 <= j < 4 * n + 1 { WiringAt(adds - 1, j - 2); }
    } else {
      InnermostAt(j);
    }
  }

  lemma InnermostAt(j: nat)
    requires j < 3
    ensures Wiring(Reflector)[j] == StageAt(0, j + 1)
  {
  }

  /** The stages of an adding module are around those of the region inside it. */
  lemma Around(inner: Loaded, j: nat)
    requires j < |Wiring(inner)| + 4
    ensures var v, w := Wiring(inner), Wiring(AddOne(inner));
      && |w| == |v| + 4
      && w[j] == if j == 0 then Inward(Waiting) else if j == 1 then Method(Waiting, 1) else if j < |v| + 2 then v[j - 2]
                 else if j == |v| + 2 then Method(Waiting, 0) else Outward(Waiting, Waiting)
  {
  }

  lemma Layer(n: nat, j: nat)
    requires 0 < n && j < 4 * n + 3
    ensures StageAt(n, j + 1) ==
      if j == 0 then Inward(Waiting) else if j == 1 then Method(Waiting, 1) else if j < 4 * n + 1 then StageAt(n - 1, j - 1)
      else if j == 4 * n + 1 then Method(Waiting, 0) else Outward(Waiting, Waiting)
  {
  }

  lemma ExampleAt(adds: int, j: nat)
    requires j < 4 * Adds(adds) + 5
    ensures |Example(adds)| == 4 * Adds(adds) + 5 && Example(adds)[j] == StageAt(Adds(adds), j)
  {
    WiringGain(adds);
    if 0 < j < 4 * Adds(adds) + 4 { WiringAt(adds, j - 1); }
  }

  /** What is added on the way to signal `j`: the ones of the modules entered so far. */
  function AddedAt(n: nat, j: nat): nat {
    if j <= 2 * n then (if j == 0 then 0 else (j - 1) / 2) else n
  }

  lemma {:induction false} TotalAt(adds: int, j: nat)
    requires j <= 4 * Adds(adds) + 5
    ensures |Example(adds)| == 4 * Adds(adds) + 5 && Total(Example(adds), j) == AddedAt(Adds(adds), j)
  {
    hide Example;
    ExampleGain(adds);
    if j > 0 {
      TotalAt(adds, j - 1);
      ExampleAt(adds, j - 1);
    }
  }

  /** The input of the region inside `d` adding modules is signal `2 d + 1`, and carries what the
      input of the example carried that many delta cycles before plus `d`. */
  lemma AddsOnTheWayIn(states: seq<Design>, steps: seq<Step>, adds: int, k: nat, l: nat, d: nat)
    requires Run(states, steps) && states[0].stages == Example(adds) && d <= Adds(adds)
    requires k <= l < |states| && Clock(steps, l) == Clock(steps, k) + 2 * d + 1
    ensures |states[k].sigs| == |states[l].sigs| == 4 * Adds(adds) + 6
    ensures states[l].sigs[2 * d + 1].cur == states[k].sigs[0].cur + d
  {
    hide Example, Run, Enabled, Next, Ok, Follows;
    TotalAt(adds, 2 * d + 1);
    DelayLine(states, steps, k, l, 2 * d + 1);
  }

  /** From the reflector's input on nothing more is added. */
  lemma CopiesOnTheWayOut(states: seq<Design>, steps: seq<Step>, adds: int, k: nat, l: nat, j: nat)
    requires Run(states, steps) && states[0].stages == Example(adds) && 2 * Adds(adds) + 1 <= j <= 4 * Adds(adds) + 5
    requires k <= l < |states| && Clock(steps, l) == Clock(steps, k) + j
    ensures |states[k].sigs| == |states[l].sigs| == 4 * Adds(adds) + 6
    ensures states[l].sigs[j].cur == states[k].sigs[0].cur + Adds(adds)
  {
    hide Example, Run, Enabled, Next, Ok, Follows;
    TotalAt(adds, j);
    DelayLine(states, steps, k, l, j);
  }

  /** When the example has settled on `b`, the input of the region inside `d` adding modules carries
      `b + d`, for every `d`. */
  lemma SettledOnTheWayIn(states: seq<Design>, steps: seq<Step>, adds: int, k: nat, b: Value, d: nat)
    requires Run(states, steps) && states[0].stages == Example(adds) && k < |states| && Still(states[k], b)
    requires d <= Adds(adds)
    ensures |states[k].sigs| == 4 * Adds(adds) + 6 && states[k].sigs[2 * d + 1] == Signal(b + d, b + d)
  {
    hide Example, Ok, Next, Enabled;
    RunOk(states, steps, k);
    TotalAt(adds, 2 * d + 1);
    SameTotal(states[k].stages, Example(adds), 2 * d + 1);
  }

  /** And every signal from the reflector's input on carries `b` plus the number of adding modules. */
  lemma SettledOnTheWayOut(states: seq<Design>, steps: seq<Step>, adds: int, k: nat, b: Value, j: nat)
    requires Run(states, steps) && states[0].stages == Example(adds) && k < |states| && Still(states[k], b)
    requires 2 * Adds(adds) + 1 <= j <= 4 * Adds(adds) + 5
    ensures |states[k].sigs| == 4 * Adds(adds) + 6 && states[k].sigs[j] == Signal(b + Adds(adds), b + Adds(adds))
  {
    hide Example, Ok, Next, Enabled;
    RunOk(states, steps, k);
    TotalAt(adds, j);
    SameTotal(states[k].stages, Example(adds), j);
  }

  /** The example is correct at every nesting depth and under every schedule: the output at any
      time is the input of `4 n + 5` delta cycles before plus `n`, the number of adding modules. */
  lemma AddsAtEveryDepth(states: seq<Design>, steps: seq<Step>, adds: int, k: nat, l: nat)
    requires Run(states, steps) && states[0].stages == Example(adds)
    requires k <= l < |states| && Clock(steps, l) == Clock(steps, k) + 4 * Adds(adds) + 5
    ensures |states[k].sigs| == |states[l].sigs| == 4 * Adds(adds) + 6
    ensures states[l].sigs[4 * Adds(adds) + 5].cur == states[k].sigs[0].cur + Adds(adds)
  {
    ExampleGain(adds);
    DelayLine(states, steps, k, l, 4 * Adds(adds) + 5);
  }

  lemma AfterWrite(states: seq<Design>, steps: seq<Step>, k: nat, b: Value)
    requires Run(states, steps) && k < |steps| && steps[k] == Step.Write(b)
    ensures Shaped(states[k + 1]) && states[k + 1].sigs[0].nxt == b && Clock(steps, k + 1) == Clock(steps, k)
  {
    hide Ok, Follows;
    RunOk(states, steps, k);
  }

  /** After an input change to `b` it quiesces in `4 n + 6` delta cycles with output `b + n`. */
  lemma SettlesAtEveryDepth(states: seq<Design>, steps: seq<Step>, adds: int, k: nat, l: nat, b: Value)
    requires Run(states, steps) && states[0].stages == Example(adds)
    requires k < |steps| && steps[k] == Step.Write(b) && (forall i | k < i < |steps| :: !steps[i].Write?)
    requires k < l < |states| && Clock(steps, l) >= Clock(steps, k) + 4 * Adds(adds) + 6
    ensures Still(states[l], b) && |states[l].sigs| == 4 * Adds(adds) + 6
    ensures states[l].sigs[4 * Adds(adds) + 5] == Signal(b + Adds(adds), b + Adds(adds))
  {
    hide Ok, Follows, Enabled, Next, Idle, Example, Wiring, Configure;
    var n := Adds(adds);
    ExampleGain(adds);
    AfterWrite(states, steps, k, b);
    RunOk(states, steps, k + 1);
    assert Settling(states, steps, k + 1, b);
    Quiesces(states, steps, k + 1, l, b);
    RunOk(states, steps, l);
    SameTotal(states[l].stages, states[0].stages, 4 * n + 5);
  }

  /** The run of the example starts settled on its first input and stays so until the input changes. */
  lemma {:induction false} StartsSettled(states: seq<Design>, steps: seq<Step>, adds: int, a: Value, k: nat)
    requires |states| == |steps| + 1 && Still(states[0], a) && states[0].stages == Example(adds)
    requires forall i | 0 <= i < |steps| :: Shaped(states[i]) && Enabled(states[i], steps[i]) && states[i + 1] == Next(states[i], steps[i])
    requires k < |states| && forall i | 0 <= i < k :: !steps[i].Write?
    ensures Run(states, steps)
    ensures states[k] == states[0] && |states[k].sigs| == 4 * Adds(adds) + 6
    ensures states[k].sigs[4 * Adds(adds) + 5] == Signal(a + Adds(adds), a + Adds(adds))
  {
    hide Enabled, Next, Example, Idle, Ok, Follows;
    StillOk(states[0], a);
    if k == 0 {
      ExampleGain(adds);
    } else {
      StartsSettled(states, steps, adds, a, k - 1);
      StillStays(states[k - 1], steps[k - 1], a);
    }
  }

  /** And it cannot fail to: whatever is scheduled, that many delta cycles have ended after a
      bounded number of process runs. */
  lemma SettlesInTime(states: seq<Design>, steps: seq<Step>, adds: int, k: nat, b: Value)
    requires Run(states, steps) && states[0].stages == Example(adds)
    requires k < |steps| && steps[k] == Step.Write(b) && (forall i | k < i < |steps| :: !steps[i].Write?)
    requires k + 1 + (4 * Adds(adds) + 6) * Phase(states[0]) < |states|
    ensures var e := states[k + 1 + (4 * Adds(adds) + 6) * Phase(states[0])];
      Still(e, b) && |e.sigs| == 4 * Adds(adds) + 6 && e.sigs[4 * Adds(adds) + 5].cur == b + Adds(adds)
  {
    hide Ok, Follows, Enabled, Next, Idle, Example, Wiring, Configure, Still;
    AfterWrite(states, steps, k, b);
    ClockAdvances(states, steps, k + 1, 4 * Adds(adds) + 6);
    SettlesAtEveryDepth(states, steps, adds, k, k + 1 + (4 * Adds(adds) + 6) * Phase(states[0]), b);
  }
}
