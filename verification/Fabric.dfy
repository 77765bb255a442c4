/** The adapters of a region's interface under delta-cycle semantics (IEEE Std 1666-2011,
    section 4.2.1): processes of one evaluation phase run in any order, signals change in the
    update phase, zero-time notifications arrive in the next evaluation phase, immediate
    notifications wake a process that is already waiting and are lost otherwise. */
module Fabric {
  import opened Model

  type Value = int

  /** A primitive channel: the value read now and the value requested for the next update. */
  datatype Signal = Signal(cur: Value, nxt: Value)

  function Updated(x: Signal): Signal {
    Signal(x.nxt, x.nxt)
  }

  /** An adapter's thread: not yet at its first wait, waiting, or ready to run. */
  datatype Process = Fresh | Waiting | Runnable

  function Notify(p: Process): Process {
    if p.Waiting? then Runnable else p
  }

  /** A value change notifies the processes sensitive to the signal. */
  function Wake(p: Process, x: Signal): Process {
    if x.nxt != x.cur then Notify(p) else p
  }

  // ---- the adapters' fields ---------------------------------------------------------------

  /** `rr_port_adapter<sc_in>` with the adapters of all modules that can be bound to it:
      `exposed` is the channel on the static side, `inner` the channel of each module, `bound`
      and `back` are the pointers in either direction.  `aligned` is history: the bound
      module's input was made equal to the exposed one when or since it was bound. */
  datatype InAdapter = InAdapter(
    exposed: Signal, inner: map<ModuleId, Signal>,
    bound: Option<ModuleId>, back: set<ModuleId>,
    update: Process, syncing: bool, synced: bool, aligned: bool)

  /** `rr_port_adapter<sc_out>` likewise; `listen` holds the update threads of the modules'
      adapters and `rest` is the decoupled value.  `recent` and `aligned` are history: the adapter
      was unbound in the current delta cycle; the exposed output was to follow the bound module's
      output when or since it was bound. */
  datatype OutAdapter = OutAdapter(
    exposed: Signal, inner: map<ModuleId, Signal>, rest: Value,
    bound: Option<ModuleId>, back: set<ModuleId>,
    listen: map<ModuleId, Process>, drive: Process, decoupled: bool, synced: bool, recent: bool, aligned: bool)

  /** The socket adapters, which have no threads. */
  datatype SocketAdapter = SocketAdapter(bound: Option<ModuleId>, back: set<ModuleId>, synced: bool)

  datatype Port = Input(i: InAdapter) | Output(o: OutAdapter) | Socket(t: SocketAdapter)

  // ---- the threads --------------------------------------------------------------------------

  /** A process requests a new value for a module's channel. */
  function Put(inner: map<ModuleId, Signal>, m: ModuleId, v: Value): map<ModuleId, Signal>
    requires m in inner
  {
    inner[m := inner[m].(nxt := v)]
  }

  /** `update` of an input adapter, from its wait to its next wait. */
  function RunUpdate(p: InAdapter): InAdapter
    requires !p.update.Waiting? && (p.bound.Some? ==> p.bound.value in p.inner)
  {
    if p.update.Fresh? || p.bound.None? then p.(update := Waiting)
    else p.(inner := Put(p.inner, p.bound.value, p.exposed.cur),
            synced := p.synced || p.syncing, syncing := false, update := Waiting, aligned := true)
  }

  /** `update` of the output adapter of module `m`. */
  function RunListen(p: OutAdapter, m: ModuleId): OutAdapter
    requires m in p.listen && !p.listen[m].Waiting?
  {
    p.(listen := p.listen[m := Waiting],
       drive := if p.listen[m].Runnable? && m in p.back then Notify(p.drive) else p.drive)
  }

  /** `drive_signal` of an output adapter. */
  function RunDrive(p: OutAdapter): OutAdapter
    requires !p.drive.Waiting? && (p.bound.Some? ==> p.bound.value in p.inner)
  {
    if p.drive.Fresh? then p.(drive := Waiting)
    else if p.decoupled then p.(drive := Waiting, exposed := p.exposed.(nxt := p.rest))
    else if p.bound.Some? then
      p.(drive := Waiting, exposed := p.exposed.(nxt := p.inner[p.bound.value].cur), aligned := true)
    else p.(drive := Waiting)
  }

  // ---- binding --------------------------------------------------------------------------------

  function BindIn(p: InAdapter, m: ModuleId, sync: bool): InAdapter {
    p.(bound := Some(m), back := p.back + {m}, syncing := p.syncing || sync,
       update := if sync then Notify(p.update) else p.update,
       aligned := sync || (m in p.inner && p.inner[m].nxt == p.exposed.cur))
  }

  /** The exposed output shows what module `m` drives, or a thread that will see to it is ready. */
  predicate Follows(p: OutAdapter, m: ModuleId) {
    || p.drive.Runnable?
    || (m in p.listen && p.listen[m].Runnable?)
    || (m in p.inner && p.exposed.nxt == p.inner[m].cur)
  }

  function BindOut(p: OutAdapter, m: ModuleId, sync: bool): OutAdapter {
    p.(bound := Some(m), back := p.back + {m}, decoupled := p.decoupled && !sync, synced := p.synced || sync,
       aligned := Follows(p, m))
  }

  function BoundTo(p: Port): Option<ModuleId> {
    match p
    case Input(i) => i.bound
    case Output(o) => o.bound
    case Socket(t) => t.bound
  }

  /** `dynamic_bind`; None where it asserts. */
  function Bind(p: Port, m: ModuleId, sync: bool): Option<Port> {
    if BoundTo(p).Some? then None
    else
      match p
      case Input(i) => Some(Input(BindIn(i, m, sync)))
      case Output(o) => Some(Output(BindOut(o, m, sync)))
      case Socket(t) => Some(Socket(t.(bound := Some(m), back := t.back + {m}, synced := t.synced || sync)))
  }

  function UnbindOut(p: OutAdapter, m: ModuleId): OutAdapter {
    p.(bound := None, back := p.back - {m}, decoupled := true, drive := Notify(p.drive), recent := true,
       inner := if m in p.inner then Put(p.inner, m, p.rest) else p.inner)
  }

  /** `dynamic_unbind`; None where it asserts. */
  function Unbind(p: Port, m: ModuleId): Option<Port> {
    if BoundTo(p) != Some(m) then None
    else
      match p
      case Input(i) => Some(Input(i.(bound := None, back := i.back - {m})))
      case Output(o) => Some(Output(UnbindOut(o, m)))
      case Socket(t) => Some(Socket(t.(bound := None, back := t.back - {m})))
  }

  // ---- the kernel, as far as one member is concerned ----------------------------------------------

  datatype Act =
    | Write(v: Value)                // a process writes the exposed input
    | Emit(m: ModuleId, v: Value)    // something in a module writes its output, bound or not
    | Update
    | Listen(m: ModuleId)
    | Drive

  predicate CanAct(p: Port, a: Act) {
    match p
    case Input(i) => a.Write? || (a.Update? && !i.update.Waiting? && (i.bound.Some? ==> i.bound.value in i.inner))
    case Output(o) =>
      (match a
       case Emit(m, v) => m in o.inner
       case Write(_) => false
       case Update => false
       case Listen(m) => m in o.listen && !o.listen[m].Waiting?
       case Drive => !o.drive.Waiting? && (o.bound.Some? ==> o.bound.value in o.inner))
    case Socket(t) => false
  }

  function Do(p: Port, a: Act): Port
    requires CanAct(p, a)
  {
    match p
    case Input(i) => Input(if a.Write? then i.(exposed := i.exposed.(nxt := a.v)) else RunUpdate(i))
    case Output(o) =>
      Output(match a
             case Emit(m, v) => o.(inner := Put(o.inner, m, v))
             case Listen(m) => RunListen(o, m)
             case Drive => RunDrive(o))
    case Socket(t) => p
  }

  /** The evaluation phase can end: no adapter thread is ready to run. */
  predicate Quiet(p: Port) {
    match p
    case Input(i) => i.update.Waiting?
    case Output(o) => o.drive.Waiting? && forall m <- o.listen :: o.listen[m].Waiting?
    case Socket(t) => true
  }

  function UpdatedAll(inner: map<ModuleId, Signal>): map<ModuleId, Signal> {
    map m <- inner :: Updated(inner[m])
  }

  function TickIn(p: InAdapter): InAdapter {
    p.(exposed := Updated(p.exposed), inner := UpdatedAll(p.inner), update := Wake(p.update, p.exposed), synced := false)
  }

  function TickOut(p: OutAdapter): OutAdapter {
    p.(exposed := Updated(p.exposed), inner := UpdatedAll(p.inner), synced := false, recent := false,
       listen := map m <- p.listen :: if m in p.inner then Wake(p.listen[m], p.inner[m]) else p.listen[m])
  }

  /** Update phase and delta notification phase. */
  function Tick(p: Port): Port {
    match p
    case Input(i) => Input(TickIn(i))
    case Output(o) => Output(TickOut(o))
    case Socket(t) => Socket(t.(synced := false))
  }

  function Synced(p: Port): bool {
    match p
    case Input(i) => i.synced
    case Output(o) => o.synced
    case Socket(t) => t.synced
  }

  // ---- a region's interface ------------------------------------------------------------------

  /** The thread that couples a module: not coupling, waiting for the synced events of
      `remaining`, or woken to spawn the processes of module `m` coupled on `members`. */
  datatype Conf = Idle | Waits(m: ModuleId, members: set<nat>, remaining: set<nat>) | Woken(m: ModuleId, members: set<nat>)

  datatype Interface = Interface(ports: seq<Port>, conf: Conf)

  datatype Step =
    | Proc(j: nat, a: Act)
    | Couple(m: ModuleId, xs: set<nat>, sync: bool)
    | Decouple(m: ModuleId, xs: set<nat>)
    | Spawn
    | Delta

  /** What the reconfiguration protocol guarantees about binding: an unsynchronised bind finds the
      decoupled flag clear (Safety.FlagMeansUnbound), a synchronised one happens after the
      initialisation phase, and nothing is bound or unbound during a coupling
      (Bindings.SyncedUntouched).  An adapter may be bound again in the very delta cycle in which it was
      unbound: a nested preload binds without waiting. */
  predicate MayBind(p: Port, m: ModuleId, sync: bool) {
    match p
    case Input(i) => m in i.inner && (sync ==> !i.update.Fresh?)
    case Output(o) => m in o.inner && (!sync ==> !o.decoupled)
    case Socket(t) => true
  }

  predicate MayUnbind(p: Port) {
    p.Input? ==> !p.i.syncing
  }

  predicate Enabled(s: Interface, step: Step) {
    match step
    case Proc(j, a) => j < |s.ports| && CanAct(s.ports[j], a)
    case Couple(m, xs, sync) => s.conf.Idle? && forall j <- xs :: j < |s.ports| && MayBind(s.ports[j], m, sync)
    case Decouple(m, xs) => !s.conf.Waits? && forall j <- xs :: j < |s.ports| && MayUnbind(s.ports[j])
    case Spawn => s.conf.Woken?
    case Delta => forall j | 0 <= j < |s.ports| :: Quiet(s.ports[j])
  }

  /** The members are disjoint, so the order in which they are bound does not matter. */
  function Next(s: Interface, step: Step): Option<Interface>
    requires Enabled(s, step)
  {
    match step
    case Proc(j, a) => Some(s.(ports := s.ports[j := Do(s.ports[j], a)]))
    case Couple(m, xs, sync) =>
      if exists j <- xs :: Bind(s.ports[j], m, sync).None? then None
      else Some(Interface(
        seq(|s.ports|, j requires 0 <= j < |s.ports| && (j in xs ==> Bind(s.ports[j], m, sync).Some?) =>
          if j in xs then Bind(s.ports[j], m, sync).value else s.ports[j]),
        if sync then Waits(m, xs, xs) else s.conf))
    case Decouple(m, xs) =>
      if exists j <- xs :: Unbind(s.ports[j], m).None? then None
      else Some(s.(ports :=
        seq(|s.ports|, j requires 0 <= j < |s.ports| && (j in xs ==> Unbind(s.ports[j], m).Some?) =>
          if j in xs then Unbind(s.ports[j], m).value else s.ports[j])))
    case Spawn => Some(s.(conf := Idle))
    case Delta =>
      Some(Interface(seq(|s.ports|, j requires 0 <= j < |s.ports| => Tick(s.ports[j])), Resume(s)))
  }

  /** The synced events that were notified fire; a thread waiting for all of a list of events
      wakes when the last one has. */
  function Resume(s: Interface): Conf {
    if !s.conf.Waits? then s.conf
    else
      var left := set j <- s.conf.remaining | !(j < |s.ports| && Synced(s.ports[j]));
      if left == {} then Woken(s.conf.m, s.conf.members) else s.conf.(remaining := left)
  }

  // ---- the invariant -------------------------------------------------------------------------

  predicate Paired(bound: Option<ModuleId>, back: set<ModuleId>) {
    back == if bound.Some? then {bound.value} else {}
  }

  predicate InOk(p: InAdapter) {
    && Paired(p.bound, p.back)
    && (p.syncing ==> p.bound.Some? && p.update.Runnable? && p.aligned)
    && (p.bound.Some? ==>
          && p.bound.value in p.inner
          && (p.update.Runnable? || (p.aligned <==> p.inner[p.bound.value].nxt == p.exposed.cur)))
  }

  /** What the exposed output must show one delta cycle later. */
  function Shown(p: OutAdapter): Value
    requires p.bound.Some? ==> p.bound.value in p.inner
  {
    if p.bound.Some? then p.inner[p.bound.value].cur else p.rest
  }

  predicate OutOk(p: OutAdapter) {
    && Paired(p.bound, p.back)
    && p.listen.Keys == p.inner.Keys
    && (p.bound.Some? ==> p.bound.value in p.inner && !p.decoupled)
    && (p.bound.None? ==> p.exposed.nxt == p.rest || (p.drive.Runnable? && p.decoupled))
    && (p.bound.Some? ==>
          || p.drive.Runnable? || p.listen[p.bound.value].Runnable?
          || (p.aligned <==> p.exposed.nxt == p.inner[p.bound.value].cur))
    && (p.drive.Fresh? ==> p.exposed.nxt == p.rest && forall m <- p.listen :: !p.listen[m].Runnable?)
    && (p.bound.None? && p.drive.Runnable? ==> p.recent)
  }

  predicate PortOk(p: Port) {
    match p
    case Input(i) => InOk(i)
    case Output(o) => OutOk(o)
    case Socket(t) => Paired(t.bound, t.back)
  }

  /** While a coupling waits, each of its members is bound and its synced event notified or
      about to be. */
  predicate Answers(p: Port, m: ModuleId) {
    && BoundTo(p) == Some(m)
    && (Synced(p) || (p.Input? && p.i.syncing))
    && (p.Input? ==> p.i.aligned)
  }

  predicate Ok(s: Interface) {
    && (forall j | 0 <= j < |s.ports| :: PortOk(s.ports[j]))
    && (s.conf.Waits? ==> s.conf.remaining == s.conf.members)
    && (s.conf.Waits? ==> forall j <- s.conf.members :: j < |s.ports| && Answers(s.ports[j], s.conf.m))
  }

  // ---- every step keeps it ---------------------------------------------------------------------

  lemma DoKeeps(p: Port, a: Act)
    requires CanAct(p, a) && PortOk(p)
    ensures PortOk(Do(p, a)) && BoundTo(Do(p, a)) == BoundTo(p)
    ensures p.Input? && p.i.aligned ==> Do(p, a).Input? && Do(p, a).i.aligned
    ensures forall m :: Answers(p, m) ==> Answers(Do(p, a), m)
  {
  }

  lemma BindKeeps(p: Port, m: ModuleId, sync: bool)
    requires PortOk(p) && MayBind(p, m, sync)
    ensures var n := Bind(p, m, sync); n.Some? ==> PortOk(n.value) && (sync ==> Answers(n.value, m))
  {
  }

  lemma UnbindKeeps(p: Port, m: ModuleId)
    requires PortOk(p) && MayUnbind(p)
    ensures var n := Unbind(p, m); n.Some? ==> PortOk(n.value)
  {
  }

  lemma TickKeeps(p: Port)
    requires PortOk(p) && Quiet(p)
    ensures PortOk(Tick(p))
  {
  }

  lemma NextKeeps(s: Interface, step: Step)
    requires Ok(s) && Enabled(s, step)
    ensures var n := Next(s, step); n.Some? ==> Ok(n.value) && |n.value.ports| == |s.ports|
                                                && (step.Delta? ==> !n.value.conf.Waits?)
  {
    hide PortOk, Answers, Quiet, MayBind, MayUnbind, CanAct, Do, Bind, Unbind, Tick, Synced;
    match step
    case Proc(j, a) => DoKeeps(s.ports[j], a);
    case Couple(m, xs, sync) => forall j <- xs { BindKeeps(s.ports[j], m, sync); }
    case Decouple(m, xs) => forall j <- xs { UnbindKeeps(s.ports[j], m); }
    case Spawn =>
    case Delta =>
      forall j | 0 <= j < |s.ports| { TickKeeps(s.ports[j]); }
      if s.conf.Waits? {
        forall j <- s.conf.remaining ensures j < |s.ports| && Synced(s.ports[j]) { AnswersQuiet(s.ports[j], s.conf.m); }
      }
  }

  /** Once the evaluation phase is over every synced event of the coupling has been notified. */
  lemma AnswersQuiet(p: Port, m: ModuleId)
    requires PortOk(p) && Quiet(p) && Answers(p, m)
    ensures Synced(p)
  {
  }

  // ---- runs ------------------------------------------------------------------------------------

  /** Elaboration: no thread has run, nothing is bound, and every exposed output carries the
      decoupled value. */
  predicate Start(s: Interface) {
    s.conf.Idle? && forall j | 0 <= j < |s.ports| :: AtStart(s.ports[j])
  }

  predicate AtStart(p: Port) {
    match p
    case Input(i) => i.bound.None? && i.back == {} && i.update.Fresh? && !i.syncing && !i.synced
    case Output(o) =>
      && o.bound.None? && o.back == {} && o.drive.Fresh? && !o.decoupled && !o.synced && !o.recent
      && o.exposed == Signal(o.rest, o.rest) && o.listen.Keys == o.inner.Keys
      && (forall m <- o.listen :: o.listen[m].Fresh?)
    case Socket(t) => t.bound.None? && t.back == {} && !t.synced
  }

  predicate Run(states: seq<Interface>, steps: seq<Step>) {
    && |states| == |steps| + 1
    && Start(states[0])
    && forall k | 0 <= k < |steps| :: Enabled(states[k], steps[k]) && Next(states[k], steps[k]) == Some(states[k + 1])
  }

  lemma {:induction false} RunOk(states: seq<Interface>, steps: seq<Step>, k: nat)
    requires Run(states, steps) && k < |states|
    ensures Ok(states[k]) && |states[k].ports| == |states[0].ports|
  {
    hide Ok, Enabled, Next;
    if k == 0 {
      StartOk(states[0]);
    } else {
      RunOk(states, steps, k - 1);
      assert Next(states[k - 1], steps[k - 1]) == Some(states[k]);
      NextKeeps(states[k - 1], steps[k - 1]);
    }
  }

  lemma StartOk(s: Interface)
    requires Start(s)
    ensures Ok(s)
  {
  }

  // ---- theorems ----------------------------------------------------------------------------------

  /** An adapter of the region points to a module's adapter exactly when that one points back,
      and never to two of them. */
  lemma PointersMatch(states: seq<Interface>, steps: seq<Step>, k: nat, j: nat, m: ModuleId)
    requires Run(states, steps) && k < |states| && j < |states[k].ports|
    ensures BoundTo(states[k].ports[j]) == Some(m) <==> m in Back(states[k].ports[j])
  {
    RunOk(states, steps, k);
    assert PortOk(states[k].ports[j]);
  }

  function Back(p: Port): set<ModuleId> {
    match p
    case Input(i) => i.back
    case Output(o) => o.back
    case Socket(t) => t.back
  }

  /** After every delta cycle the exposed output shows the decoupled value if no module was bound
      at its end, whatever was written or driven before in the same cycle; and if one was, it shows
      what that module's output was during the cycle exactly when the pair is aligned. */
  lemma OutputDelay(states: seq<Interface>, steps: seq<Step>, k: nat, j: nat)
    requires Run(states, steps) && k < |steps| && steps[k].Delta? && j < |states[k].ports| && states[k].ports[j].Output?
    ensures |states[k + 1].ports| == |states[k].ports| && states[k + 1].ports[j].Output?
    ensures var p, n := states[k].ports[j].o, states[k + 1].ports[j].o;
      && (p.bound.Some? ==> p.bound.value in p.inner)
      && n.exposed.nxt == n.exposed.cur
      && (n.exposed.cur == Shown(p) <==> p.bound.Some? ==> p.aligned)
  {
    RunOk(states, steps, k);
    assert PortOk(states[k].ports[j]);
    assert Quiet(states[k].ports[j]);
    assert Next(states[k], steps[k]) == Some(states[k + 1]);
  }

  /** The channel of the exposed output is requested to change only by the drive thread. */
  lemma OnlyDriveWrites(states: seq<Interface>, steps: seq<Step>, k: nat, j: nat)
    requires Run(states, steps) && k < |steps| && j < |states[k].ports| && states[k].ports[j].Output?
    requires steps[k] != Proc(j, Drive) && !steps[k].Delta?
    ensures |states[k + 1].ports| == |states[k].ports| && states[k + 1].ports[j].Output?
    ensures states[k + 1].ports[j].o.exposed == states[k].ports[j].o.exposed
  {
    assert Next(states[k], steps[k]) == Some(states[k + 1]);
  }

  /** The channel of the bound module's input after a delta cycle equals the exposed input during
      it exactly when the pair is aligned. */
  lemma InputDelay(states: seq<Interface>, steps: seq<Step>, k: nat, j: nat, m: ModuleId)
    requires Run(states, steps) && k < |steps| && steps[k].Delta? && j < |states[k].ports| && states[k].ports[j].Input?
    requires states[k].ports[j].i.bound == Some(m)
    ensures |states[k + 1].ports| == |states[k].ports| && states[k + 1].ports[j].Input?
    ensures m in states[k + 1].ports[j].i.inner
    ensures states[k + 1].ports[j].i.inner[m].cur == states[k].ports[j].i.exposed.cur <==> states[k].ports[j].i.aligned
  {
    RunOk(states, steps, k);
    assert PortOk(states[k].ports[j]);
    assert Quiet(states[k].ports[j]);
    assert Next(states[k], steps[k]) == Some(states[k + 1]);
  }

  /** Bound by step `a` and ever since. */
  predicate BoundSince(states: seq<Interface>, steps: seq<Step>, a: nat, k: nat, j: nat, m: ModuleId, sync: bool) {
    && a < k < |states| && a < |steps| && steps[a].Couple? && steps[a].m == m && j in steps[a].xs && steps[a].sync == sync
    && forall i | a < i <= k :: j < |states[i].ports| && BoundTo(states[i].ports[j]) == Some(m)
  }

  predicate Aligned(p: Port) {
    match p
    case Input(i) => i.aligned
    case Output(o) => o.aligned
    case Socket(t) => true
  }

  lemma {:induction false} StaysAligned(states: seq<Interface>, steps: seq<Step>, a: nat, b: nat, k: nat, j: nat, m: ModuleId, sync: bool)
    requires Run(states, steps) && BoundSince(states, steps, a, k, j, m, sync) && a < b <= k
    requires Aligned(states[b].ports[j])
    ensures Aligned(states[k].ports[j])
    decreases k - b
  {
    hide Ok, Enabled, Next;
    if b < k {
      RunOk(states, steps, b);
      assert Next(states[b], steps[b]) == Some(states[b + 1]);
      StillAligned(states[b], steps[b], j, m);
      StaysAligned(states, steps, a, b + 1, k, j, m, sync);
    }
  }

  lemma StillAligned(s: Interface, step: Step, j: nat, m: ModuleId)
    requires Ok(s) && Enabled(s, step) && Next(s, step).Some? && j < |s.ports|
    requires Aligned(s.ports[j]) && BoundTo(s.ports[j]) == Some(m)
    ensures j < |Next(s, step).value.ports|
    ensures var p := Next(s, step).value.ports[j]; BoundTo(p) == Some(m) ==> Aligned(p)
  {
    hide PortOk, Answers;
    assert PortOk(s.ports[j]);
  }

  /** While a pair bound with synchronisation stays bound, the module's input is an exact delay
      line: during the delta cycle after `k` it is what the exposed input was during `k`. */
  lemma InputDelayLine(states: seq<Interface>, steps: seq<Step>, a: nat, k: nat, j: nat, m: ModuleId)
    requires Run(states, steps) && BoundSince(states, steps, a, k, j, m, true)
    requires k < |steps| && steps[k].Delta? && states[k].ports[j].Input?
    ensures |states[k + 1].ports| == |states[k].ports| && states[k + 1].ports[j].Input?
    ensures m in states[k + 1].ports[j].i.inner
    ensures states[k + 1].ports[j].i.inner[m].cur == states[k].ports[j].i.exposed.cur
  {
    SyncedAligned(states, steps, a, k, j, m);
    InputDelay(states, steps, k, j, m);
  }

  lemma SyncedAligned(states: seq<Interface>, steps: seq<Step>, a: nat, k: nat, j: nat, m: ModuleId)
    requires Run(states, steps) && BoundSince(states, steps, a, k, j, m, true) && states[k].ports[j].Input?
    ensures states[k].ports[j].i.aligned
  {
    assert Next(states[a], steps[a]) == Some(states[a + 1]);
    RunOk(states, steps, k);
    SameKind(states, steps, a + 1, k, j);
    StaysAligned(states, steps, a, a + 1, k, j, m, true);
  }

  /** While a pair stays bound the exposed output is an exact delay line, if at the bind it showed
      what the module drives or a thread was ready to see to it. */
  lemma OutputDelayLine(states: seq<Interface>, steps: seq<Step>, a: nat, k: nat, j: nat, m: ModuleId, sync: bool)
    requires Run(states, steps) && BoundSince(states, steps, a, k, j, m, sync)
    requires j < |states[a].ports| && states[a].ports[j].Output? && Follows(states[a].ports[j].o, m)
    requires k < |steps| && steps[k].Delta?
    ensures |states[k + 1].ports| == |states[k].ports| && states[k].ports[j].Output? && states[k + 1].ports[j].Output?
    ensures m in states[k].ports[j].o.inner
    ensures states[k + 1].ports[j].o.exposed.cur == states[k].ports[j].o.inner[m].cur
  {
    RunOk(states, steps, a);
    SameKind(states, steps, a, k, j);
    assert Next(states[a], steps[a]) == Some(states[a + 1]);
    StaysAligned(states, steps, a, a + 1, k, j, m, sync);
    OutputDelay(states, steps, k, j);
  }

  /** Whether an output that was not unbound in the current delta cycle will follow a module bound to
      it now: exactly if the module shows the decoupled value or its adapter has been told to update.
      The module may show another value although it is not bound, because something in it -- a
      region nested in it, say -- writes its output; the notification of that is lost. */
  lemma FollowsIff(states: seq<Interface>, steps: seq<Step>, k: nat, j: nat, m: ModuleId)
    requires Run(states, steps) && k < |states| && j < |states[k].ports| && states[k].ports[j].Output?
    requires var p := states[k].ports[j].o; p.bound.None? && !p.recent && m in p.inner
    ensures var p := states[k].ports[j].o;
      m in p.listen && (Follows(p, m) <==> p.inner[m].cur == p.rest || p.listen[m].Runnable?)
  {
    RunOk(states, steps, k);
    assert PortOk(states[k].ports[j]);
  }

  lemma {:induction false} SameKind(states: seq<Interface>, steps: seq<Step>, a: nat, k: nat, j: nat)
    requires Run(states, steps) && a <= k < |states| && j < |states[0].ports|
    ensures j < |states[a].ports| && j < |states[k].ports|
    ensures states[a].ports[j].Input? <==> states[k].ports[j].Input?
    ensures states[a].ports[j].Output? <==> states[k].ports[j].Output?
    decreases k - a
  {
    hide Ok, Next, Enabled;
    RunOk(states, steps, a);
    RunOk(states, steps, k);
    if a < k {
      SameKind(states, steps, a, k - 1, j);
      assert Next(states[k - 1], steps[k - 1]) == Some(states[k]);
      KeepsKind(states[k - 1], steps[k - 1], j);
    }
  }

  lemma KeepsKind(s: Interface, step: Step, j: nat)
    requires Enabled(s, step) && Next(s, step).Some? && j < |s.ports|
    ensures j < |Next(s, step).value.ports|
    ensures Next(s, step).value.ports[j].Input? <==> s.ports[j].Input?
    ensures Next(s, step).value.ports[j].Output? <==> s.ports[j].Output?
  {
  }

  // ---- synchronised coupling -------------------------------------------------------------------

  /** A coupling never hangs and never loses a wake-up: whatever the number of members and the
      order in which the threads ran, the first delta cycle to end wakes the thread that waits
      for all synced events. */
  lemma CouplingWakes(states: seq<Interface>, steps: seq<Step>, k: nat)
    requires Run(states, steps) && k < |steps| && steps[k].Delta?
    ensures !states[k + 1].conf.Waits?
    ensures states[k].conf.Waits? ==> states[k + 1].conf == Woken(states[k].conf.m, states[k].conf.members)
  {
    RunOk(states, steps, k);
    assert Next(states[k], steps[k]) == Some(states[k + 1]);
    NextKeeps(states[k], steps[k]);
  }

  /** When it is woken, every input of the module carries what its exposed input carried in the
      cycle before. */
  lemma WokenAligned(states: seq<Interface>, steps: seq<Step>, k: nat, j: nat)
    requires Run(states, steps) && k < |steps| && steps[k].Delta?
    requires states[k].conf.Waits? && j in states[k].conf.members
    ensures j < |states[k].ports| && j < |states[k + 1].ports|
    ensures states[k].ports[j].Input? ==>
      var m := states[k].conf.m;
      && states[k + 1].ports[j].Input? && m in states[k + 1].ports[j].i.inner
      && states[k + 1].ports[j].i.inner[m].cur == states[k].ports[j].i.exposed.cur
  {
    RunOk(states, steps, k);
    assert Answers(states[k].ports[j], states[k].conf.m);
    RunOk(states, steps, k + 1);
    if states[k].ports[j].Input? { InputDelay(states, steps, k, j, states[k].conf.m); }
  }

  /** Once the exposed input has stopped changing both sides are equal: no change is lost. */
  lemma QuiescentEqual(states: seq<Interface>, steps: seq<Step>, a: nat, k: nat, j: nat, m: ModuleId)
    requires Run(states, steps) && BoundSince(states, steps, a, k, j, m, true)
    requires k < |steps| && steps[k].Delta? && states[k].ports[j].Input?
    requires states[k].ports[j].i.exposed.nxt == states[k].ports[j].i.exposed.cur
    ensures |states[k + 1].ports| == |states[k].ports| && states[k + 1].ports[j].Input?
    ensures m in states[k + 1].ports[j].i.inner
    ensures states[k + 1].ports[j].i.inner[m].cur == states[k + 1].ports[j].i.exposed.cur
  {
    InputDelayLine(states, steps, a, k, j, m);
    assert Next(states[k], steps[k]) == Some(states[k + 1]);
  }

  // ---- what binding and unbinding leave ----------------------------------------------------------------

  /** Between the two sides of a member: which module is bound, and that module's pointer back. */
  predicate Joined(p: Port, m: Option<ModuleId>) {
    BoundTo(p) == m && Back(p) == if m.Some? then {m.value} else {}
  }

  predicate SameChannels(p: Port, n: Port) {
    match p
    case Input(i) => n.Input? && n.i.exposed == i.exposed && n.i.inner == i.inner && n.i.synced == i.synced
    case Output(o) => n.Output? && n.o.exposed == o.exposed && n.o.inner == o.inner && n.o.rest == o.rest && n.o.listen == o.listen
    case Socket(t) => n.Socket?
  }

  /** A completed coupling found every member unbound and left all of them bound to the module.  It tells
      the update threads of the inputs to run if it is synchronised, and no other thread; no output
      is decoupled any more; the channels, and the members of other sets, are as they were. */
  lemma CoupleExact(states: seq<Interface>, steps: seq<Step>, k: nat, j: nat)
    requires Run(states, steps) && k < |steps| && steps[k].Couple? && j < |states[k].ports|
    ensures |states[k + 1].ports| == |states[k].ports|
    ensures var p, n, m := states[k].ports[j], states[k + 1].ports[j], steps[k].m;
      if j !in steps[k].xs then n == p
      else
        && Joined(p, None) && Joined(n, Some(m)) && SameChannels(p, n)
        && (p.Input? ==> n.i.update == if steps[k].sync then Runnable else p.i.update)
        && (p.Output? ==> !n.o.decoupled && n.o.drive == p.o.drive)
  {
    hide Start;
    RunOk(states, steps, k);
    assert PortOk(states[k].ports[j]);
    assert Next(states[k], steps[k]) == Some(states[k + 1]);
  }

  /** A completed decoupling found every member bound to the module and left none of them bound; the
      only request for a channel is that the module's output carry the decoupled value, and the exposed
      output is decoupled and its drive thread told to run.  The members of other sets are as they were. */
  lemma DecoupleExact(states: seq<Interface>, steps: seq<Step>, k: nat, j: nat)
    requires Run(states, steps) && k < |steps| && steps[k].Decouple? && j < |states[k].ports|
    ensures |states[k + 1].ports| == |states[k].ports| && states[k + 1].conf == states[k].conf
    ensures var p, n, m := states[k].ports[j], states[k + 1].ports[j], steps[k].m;
      if j !in steps[k].xs then n == p
      else
        && Joined(p, Some(m)) && Joined(n, None)
        && (p.Input? ==> n.Input? && n.i.update == p.i.update)
        && (p.Output? ==> m in p.o.inner && n.Output? && n.o.decoupled && n.o.drive == if p.o.drive.Fresh? then Fresh else Runnable)
        && SameChannels(if p.Output? then Output(p.o.(inner := Put(p.o.inner, m, p.o.rest))) else p, n)
  {
    hide Start;
    RunOk(states, steps, k);
    assert PortOk(states[k].ports[j]);
    assert Next(states[k], steps[k]) == Some(states[k + 1]);
  }

  // ---- when the synced event is notified --------------------------------------------------------------

  /** Step `a` binds member `j` with synchronisation, in the delta cycle of position `k`. */
  ghost predicate SyncedBind(steps: seq<Step>, a: nat, k: nat, j: nat) {
    && a < k <= |steps| && steps[a].Couple? && steps[a].sync && j in steps[a].xs
    && forall e | a < e < k :: !steps[e].Delta?
  }

  /** The update thread of member `j` has run between `a` and `k`. */
  ghost predicate Ran(steps: seq<Step>, a: nat, k: nat, j: nat) {
    exists e | a < e < k && e < |steps| :: steps[e] == Proc(j, Act.Update)
  }

  /** A synchronised bind of this cycle has been answered: by the next run of the update thread if the
      member is an input, at once if it is not. */
  ghost predicate Answered(steps: seq<Step>, k: nat, j: nat, input: bool) {
    exists a :: SyncedBind(steps, a, k, j) && (input ==> Ran(steps, a, k, j))
  }

  ghost predicate Unanswered(steps: seq<Step>, k: nat, j: nat) {
    exists a :: SyncedBind(steps, a, k, j) && !Ran(steps, a, k, j)
  }

  lemma BindLater(steps: seq<Step>, a: nat, k: nat, j: nat)
    requires k < |steps|
    ensures SyncedBind(steps, a, k + 1, j) <==>
      (!steps[k].Delta? && SyncedBind(steps, a, k, j)) || (a == k && steps[k].Couple? && steps[k].sync && j in steps[k].xs)
    ensures a < k ==> (Ran(steps, a, k + 1, j) <==> Ran(steps, a, k, j) || steps[k] == Proc(j, Act.Update))
    ensures a >= k ==> !Ran(steps, a, k + 1, j)
  {
  }

  lemma AnsweredLater(steps: seq<Step>, k: nat, j: nat, input: bool)
    requires k < |steps|
    ensures var binds := steps[k].Couple? && steps[k].sync && j in steps[k].xs;
      && (Answered(steps, k + 1, j, input) <==>
            !steps[k].Delta? && (|| Answered(steps, k, j, input)
                                 || (input && steps[k] == Proc(j, Act.Update) && Unanswered(steps, k, j))
                                 || (binds && !input)))
      && (Unanswered(steps, k + 1, j) <==>
            || binds
            || (!steps[k].Delta? && steps[k] != Proc(j, Act.Update) && Unanswered(steps, k, j)))
  {
    hide Ran;
    BindLater(steps, k, k, j);
    if Answered(steps, k + 1, j, input) {
      var a :| SyncedBind(steps, a, k + 1, j) && (input ==> Ran(steps, a, k + 1, j));
      BindLater(steps, a, k, j);
    }
    if Unanswered(steps, k + 1, j) {
      var a :| SyncedBind(steps, a, k + 1, j) && !Ran(steps, a, k + 1, j);
      BindLater(steps, a, k, j);
    }
    if Answered(steps, k, j, input) && !steps[k].Delta? {
      var a :| SyncedBind(steps, a, k, j) && (input ==> Ran(steps, a, k, j));
      BindLater(steps, a, k, j);
      assert SyncedBind(steps, a, k + 1, j);
    }
    if Unanswered(steps, k, j) && !steps[k].Delta? {
      var a :| SyncedBind(steps, a, k, j) && !Ran(steps, a, k, j);
      BindLater(steps, a, k, j);
      assert SyncedBind(steps, a, k + 1, j);
    }
  }

  /** What one step does to the pending notification and to the bind that is to be answered. */
  lemma StepSyncs(s: Interface, step: Step, j: nat)
    requires Ok(s) && Enabled(s, step) && Next(s, step).Some? && j < |s.ports|
    ensures j < |Next(s, step).value.ports|
    ensures var p, n, binds := s.ports[j], Next(s, step).value.ports[j], step.Couple? && step.sync && j in step.xs;
      && (n.Input? <==> p.Input?)
      && (Synced(n) <==>
            !step.Delta? && (|| Synced(p)
                             || (step == Proc(j, Act.Update) && p.Input? && p.i.syncing)
                             || (binds && !p.Input?)))
      && (p.Input? ==> (n.i.syncing <==> binds || (!step.Delta? && step != Proc(j, Act.Update) && p.i.syncing)))
  {
    hide Answers;
    assert PortOk(s.ports[j]);
  }

  /** A member's synced event is pending exactly when a synchronised bind of that member took place in
      the current delta cycle and has been answered: never without one, whatever the signals do. */
  lemma {:induction false} SyncedExact(states: seq<Interface>, steps: seq<Step>, k: nat, j: nat)
    requires Run(states, steps) && k < |states| && j < |states[k].ports|
    ensures Synced(states[k].ports[j]) <==> Answered(steps, k, j, states[k].ports[j].Input?)
    ensures states[k].ports[j].Input? ==> (states[k].ports[j].i.syncing <==> Unanswered(steps, k, j))
  {
    hide Ok, Enabled, Next, Answered, Unanswered, Synced;
    if k == 0 {
      NoneAtStart(states[0], steps, j);
    } else {
      RunOk(states, steps, k);
      RunOk(states, steps, k - 1);
      SyncedExact(states, steps, k - 1, j);
      assert Next(states[k - 1], steps[k - 1]) == Some(states[k]);
      StepSyncs(states[k - 1], steps[k - 1], j);
      AnsweredLater(steps, k - 1, j, states[k].ports[j].Input?);
    }
  }

  lemma NoneAtStart(s: Interface, steps: seq<Step>, j: nat)
    requires Start(s) && j < |s.ports|
    ensures !Synced(s.ports[j]) && (s.ports[j].Input? ==> !s.ports[j].i.syncing)
    ensures !Answered(steps, 0, j, s.ports[j].Input?) && !Unanswered(steps, 0, j)
  {
    assert AtStart(s.ports[j]);
  }

  // ---- the evaluation phase ends -----------------------------------------------------------------

  function Ready(p: Process): nat {
    if p.Waiting? then 0 else 1
  }

  function Listeners(listen: map<ModuleId, Process>): set<ModuleId> {
    set m <- listen | !listen[m].Waiting?
  }

  /** How many more times threads of the adapter can run in this evaluation phase. */
  function Left(p: Port): nat {
    match p
    case Input(i) => Ready(i.update)
    case Output(o) => Ready(o.drive) + 2 * |Listeners(o.listen)|
    case Socket(t) => 0
  }

  /** Every run of an adapter thread brings the end of the evaluation phase nearer. */
  lemma EvaluationEnds(p: Port, a: Act)
    requires CanAct(p, a) && !a.Write? && !a.Emit?
    ensures Left(Do(p, a)) < Left(p)
  {
    if a.Listen? {
      var was, now := Listeners(p.o.listen), Listeners(p.o.listen[a.m := Waiting]);
      assert now == was - {a.m};
    }
  }

  lemma QuietIffNoneLeft(p: Port)
    ensures Quiet(p) <==> Left(p) == 0
  {
    if p.Output? {
      assert (forall m <- p.o.listen :: p.o.listen[m].Waiting?) <==> Listeners(p.o.listen) == {} by {
        if Listeners(p.o.listen) == {} {
          forall m <- p.o.listen ensures p.o.listen[m].Waiting? { assert m !in Listeners(p.o.listen); }
        }
      }
    }
  }

  // ---- where the guards are needed ------------------------------------------------------------------

  /** A synchronised bind is answered in the same cycle exactly when the update thread has
      already reached its first wait; otherwise the immediate notification is lost and the
      coupling waits until the exposed input changes. */
  lemma BindAnsweredIff(p: InAdapter, m: ModuleId)
    requires p.bound.None? && !p.syncing && !p.synced && m in p.inner
    ensures var b := BindIn(p, m, true);
      var e := if b.update.Waiting? then b else RunUpdate(b);
      && e.update.Waiting?
      && (e.synced <==> !p.update.Fresh?)
      && (e.inner[m].nxt == p.exposed.cur <==> !p.update.Fresh? || p.inner[m].nxt == p.exposed.cur)
  {
  }
}
