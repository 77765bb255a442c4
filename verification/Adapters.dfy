/** The port and socket adapters as objects that point to each other.  Every method is proved
    against the functions of `Fabric`, through the view that one region adapter and the module
    adapters that can be bound to it form together. */
module Adapters {
  import opened Model
  import opened Fabric
  import opened Regions

  // ---- sc_in ---------------------------------------------------------------------------------

  /** `module_port_adapter<sc_in>`. */
  class ModuleIn {
    const id: ModuleId
    var rrAdapter: RrIn?
    var signal: Signal

    constructor (id: ModuleId, signal: Signal)
      ensures this.id == id && this.signal == signal && rrAdapter == null
    {
      this.id, this.signal, rrAdapter := id, signal, null;
    }
  }

  /** `rr_port_adapter<sc_in>`. */
  class RrIn {
    var moduleAdapter: ModuleIn?
    var exposed: Signal
    var update: Process
    var syncing: bool
    var synced: bool           // the synced event is notified for the next delta cycle
    ghost var aligned: bool

    constructor (exposed: Signal)
      ensures moduleAdapter == null && this.exposed == exposed && update.Fresh? && !syncing && !synced
    {
      moduleAdapter, this.exposed, update, syncing, synced, aligned := null, exposed, Fresh, false, false, false;
    }

    ghost predicate Valid(ms: map<ModuleId, ModuleIn>)
      reads this, ms.Values
    {
      && (forall m <- ms :: ms[m].id == m)
      && (moduleAdapter != null ==> moduleAdapter.id in ms && ms[moduleAdapter.id] == moduleAdapter)
    }

    ghost function View(ms: map<ModuleId, ModuleIn>): InAdapter
      reads this, ms.Values
    {
      InAdapter(exposed, (map m <- ms :: ms[m].signal),
                if moduleAdapter == null then None else Some(moduleAdapter.id),
                (set m <- ms | ms[m].rrAdapter == this),
                update, syncing, synced, aligned)
    }

    /** One round of the update thread, from its wait to its next wait. */
    method Update(ghost ms: map<ModuleId, ModuleIn>)
      requires Valid(ms) && !update.Waiting?
      modifies this, if moduleAdapter == null then {} else {moduleAdapter}
      ensures Valid(ms) && View(ms) == RunUpdate(old(View(ms)))
    {
      if update.Runnable? && moduleAdapter != null {
        moduleAdapter.signal := moduleAdapter.signal.(nxt := exposed.cur);
        if syncing {
          syncing := false;
          synced := true;
        }
        aligned := true;
      }
      update := Waiting;
    }

    method DynamicBind(ghost ms: map<ModuleId, ModuleIn>, m: ModuleIn, sync: bool) returns (ok: bool)
      modifies this, m`rrAdapter
      ensures ok <==> old(moduleAdapter) == null
      ensures ok ==> moduleAdapter == m && m.rrAdapter == this && exposed == old(exposed) && synced == old(synced)
      ensures ok ==> syncing == (old(syncing) || sync) && update == if sync then Notify(old(update)) else old(update)
      ensures !ok ==> unchanged(this) && unchanged(m)
      ensures old(Valid(ms)) && m.id in ms && ms[m.id] == m ==>
        Valid(ms) && View(ms) == if ok then BindIn(old(View(ms)), m.id, sync) else old(View(ms))
    {
      if moduleAdapter != null {
        return false;
      }
      moduleAdapter := m;
      m.rrAdapter := this;
      if sync {
        syncing := true;
        update := Notify(update);
      }
      aligned := sync || m.signal.nxt == exposed.cur;
      return true;
    }

    method DynamicUnbind(ghost ms: map<ModuleId, ModuleIn>, m: ModuleIn) returns (ok: bool)
      modifies this`moduleAdapter, m`rrAdapter
      ensures ok <==> old(moduleAdapter) == m
      ensures ok ==> moduleAdapter == null && m.rrAdapter == null
      ensures !ok ==> unchanged(this) && unchanged(m)
      ensures old(Valid(ms)) && m.id in ms && ms[m.id] == m ==>
        var was := old(View(ms)); Valid(ms) && View(ms) == if ok then was.(bound := None, back := was.back - {m.id}) else was
    {
      if moduleAdapter != m {
        return false;
      }
      moduleAdapter := null;
      m.rrAdapter := null;
      return true;
    }
  }

  // ---- sc_out ----------------------------------------------------------------------------------

  /** `module_port_adapter<sc_out>`. */
  class ModuleOut {
    const id: ModuleId
    var rrAdapter: RrOut?
    var signal: Signal
    var listen: Process

    constructor (id: ModuleId, signal: Signal)
      ensures this.id == id && this.signal == signal && rrAdapter == null && listen.Fresh?
    {
      this.id, this.signal, rrAdapter, listen := id, signal, null, Fresh;
    }

    /** One round of the update thread. */
    method Update(ghost rr: RrOut, ghost ms: map<ModuleId, ModuleOut>)
      requires rr.Valid(ms) && id in ms && ms[id] == this && !listen.Waiting?
      modifies this`listen, if rrAdapter == null then {} else {rrAdapter}
      ensures rr.Valid(ms) && rr.View(ms) == RunListen(old(rr.View(ms)), id)
    {
      hide RrOut.Signals, RrOut.Back, RrOut.Listeners;
      rr.BackAt(ms, id);
      rr.ViewAt(ms, id);
      if listen.Runnable? && rrAdapter != null {
        rrAdapter.drive := Notify(rrAdapter.drive);
      }
      ghost var before := rr.Listeners(ms);
      rr.ListenersAre(ms);
      listen := Waiting;
      rr.ListenerAt(ms, before, this);
    }
  }

  /** `rr_port_adapter<sc_out>`. */
  class RrOut {
    const rest: Value
    var moduleAdapter: ModuleOut?
    var exposed: Signal
    var drive: Process
    var decoupled: bool
    var synced: bool
    ghost var recent: bool
    ghost var aligned: bool

    constructor (exposed: Signal, rest: Value)
      ensures moduleAdapter == null && this.exposed == exposed && this.rest == rest && drive.Fresh? && !decoupled && !synced
    {
      this.rest, moduleAdapter, this.exposed, drive := rest, null, exposed, Fresh;
      decoupled, synced, recent, aligned := false, false, false, false;
    }

    ghost predicate Valid(ms: map<ModuleId, ModuleOut>)
      reads this, ms.Values
    {
      && (forall m <- ms :: ms[m].id == m)
      && (moduleAdapter != null ==> moduleAdapter.id in ms && ms[moduleAdapter.id] == moduleAdapter)
    }

    ghost function Signals(ms: map<ModuleId, ModuleOut>): map<ModuleId, Signal>
      reads ms.Values`signal
    {
      map m <- ms :: ms[m].signal
    }

    ghost function Listeners(ms: map<ModuleId, ModuleOut>): map<ModuleId, Process>
      reads ms.Values`listen
    {
      map m <- ms :: ms[m].listen
    }

    /** One module adapter's thread has changed since `before`. */
    lemma ListenerAt(ms: map<ModuleId, ModuleOut>, before: map<ModuleId, Process>, m: ModuleOut)
      requires m.id in ms && ms[m.id] == m && before.Keys == ms.Keys
      requires forall k <- ms | ms[k] != m :: before[k] == ms[k].listen
      requires forall k <- ms :: ms[k].id == k
      ensures Listeners(ms) == before[m.id := m.listen]
    {
    }

    /** One module adapter's signal has changed since `before`. */
    lemma SignalAt(ms: map<ModuleId, ModuleOut>, before: map<ModuleId, Signal>, m: ModuleOut)
      requires m.id in ms && ms[m.id] == m && before.Keys == ms.Keys
      requires forall k <- ms | ms[k] != m :: before[k] == ms[k].signal
      requires forall k <- ms :: ms[k].id == k
      ensures Signals(ms) == before[m.id := m.signal]
    {
    }

    lemma SignalsAre(ms: map<ModuleId, ModuleOut>)
      ensures Signals(ms).Keys == ms.Keys && forall k <- ms :: Signals(ms)[k] == ms[k].signal
    {
    }

    lemma ListenersAre(ms: map<ModuleId, ModuleOut>)
      ensures Listeners(ms).Keys == ms.Keys && forall k <- ms :: Listeners(ms)[k] == ms[k].listen
    {
    }

    lemma ViewAt(ms: map<ModuleId, ModuleOut>, m: ModuleId)
      requires m in ms
      ensures m in Signals(ms) && Signals(ms)[m] == ms[m].signal && m in Listeners(ms) && Listeners(ms)[m] == ms[m].listen
    {
    }

    ghost function View(ms: map<ModuleId, ModuleOut>): OutAdapter
      reads this, ms.Values
    {
      OutAdapter(exposed, Signals(ms), rest,
                 if moduleAdapter == null then None else Some(moduleAdapter.id),
                 Back(ms), Listeners(ms), drive, decoupled, synced, recent, aligned)
    }

    /** The modules whose adapters point here. */
    ghost function Back(ms: map<ModuleId, ModuleOut>): set<ModuleId>
      reads ms.Values`rrAdapter
    {
      set m <- ms | ms[m].rrAdapter == this
    }

    lemma BackAt(ms: map<ModuleId, ModuleOut>, m: ModuleId)
      requires m in ms
      ensures m in Back(ms) <==> ms[m].rrAdapter == this
    {
    }

    /** One round of the drive thread. */
    method DriveSignal(ghost ms: map<ModuleId, ModuleOut>)
      requires Valid(ms) && !drive.Waiting?
      modifies this
      ensures Valid(ms) && View(ms) == RunDrive(old(View(ms)))
    {
      if drive.Runnable? {
        if decoupled {
          exposed := exposed.(nxt := rest);
        } else if moduleAdapter != null {
          exposed := exposed.(nxt := moduleAdapter.signal.cur);
          aligned := true;
        }
      }
      drive := Waiting;
    }

    /** Both pointers are set. */
    method Attach(ghost ms: map<ModuleId, ModuleOut>, m: ModuleOut)
      modifies this`moduleAdapter, m`rrAdapter
      ensures moduleAdapter == m && m.rrAdapter == this
      ensures old(Valid(ms)) && m.id in ms && ms[m.id] == m ==>
        var was := old(View(ms)); Valid(ms) && View(ms) == was.(bound := Some(m.id), back := was.back + {m.id})
    {
      hide Signals, Listeners;
      ghost var was := View(ms);
      moduleAdapter := m;
      m.rrAdapter := this;
      if m.id in ms && ms[m.id] == m && old(Valid(ms)) {
        assert View(ms).back == was.back + {m.id};
      }
    }

    method DynamicBind(ghost ms: map<ModuleId, ModuleOut>, m: ModuleOut, sync: bool) returns (ok: bool)
      modifies this, m`rrAdapter
      ensures ok <==> old(moduleAdapter) == null
      ensures ok ==> moduleAdapter == m && m.rrAdapter == this && exposed == old(exposed) && drive == old(drive)
      ensures ok ==> decoupled == (old(decoupled) && !sync) && synced == (old(synced) || sync)
      ensures !ok ==> unchanged(this) && unchanged(m)
      ensures old(Valid(ms)) && m.id in ms && ms[m.id] == m ==>
        Valid(ms) && View(ms) == if ok then BindOut(old(View(ms)), m.id, sync) else old(View(ms))
    {
      hide Signals, Listeners;
      if moduleAdapter != null {
        return false;
      }
      aligned := drive.Runnable? || m.listen.Runnable? || exposed.nxt == m.signal.cur;
      if m.id in ms { ViewAt(ms, m.id); }
      Attach(ms, m);
      if sync {
        decoupled := false;
        synced := true;
      }
      return true;
    }

    method DynamicUnbind(ghost ms: map<ModuleId, ModuleOut>, m: ModuleOut) returns (ok: bool)
      modifies this, m`rrAdapter, m`signal
      ensures ok <==> old(moduleAdapter) == m
      ensures ok ==> moduleAdapter == null && m.rrAdapter == null && exposed == old(exposed) && synced == old(synced)
      ensures ok ==> decoupled && drive == Notify(old(drive)) && m.signal == old(m.signal).(nxt := rest)
      ensures !ok ==> unchanged(this) && unchanged(m)
      ensures old(Valid(ms)) && m.id in ms && ms[m.id] == m ==>
        Valid(ms) && View(ms) == if ok then UnbindOut(old(View(ms)), m.id) else old(View(ms))
    {
      hide Signals, Listeners, Back;
      if moduleAdapter != m {
        return false;
      }
      StartDecoupling(ms, m);
      Detach(ms, m);
      return true;
    }

    /** The thread is told to write the decoupled value, and the module's signal is reset. */
    method StartDecoupling(ghost ms: map<ModuleId, ModuleOut>, m: ModuleOut)
      modifies this`decoupled, this`drive, this`recent, m`signal
      ensures decoupled && drive == Notify(old(drive)) && m.signal == old(m.signal).(nxt := rest)
      ensures old(Valid(ms)) && m.id in ms && ms[m.id] == m ==>
        var was := old(View(ms));
        Valid(ms) && m.id in was.inner
        && View(ms) == was.(decoupled := true, drive := Notify(was.drive), recent := true, inner := Put(was.inner, m.id, rest))
    {
      hide Listeners, Back, Signals;
      ghost var before := Signals(ms);
      SignalsAre(ms);
      decoupled := true;
      drive := Notify(drive);
      recent := true;
      m.signal := m.signal.(nxt := rest);
      if m.id in ms && ms[m.id] == m && old(Valid(ms)) { SignalAt(ms, before, m); }
    }

    /** Both pointers are cleared. */
    method Detach(ghost ms: map<ModuleId, ModuleOut>, m: ModuleOut)
      modifies this`moduleAdapter, m`rrAdapter
      ensures moduleAdapter == null && m.rrAdapter == null
      ensures old(Valid(ms)) && m.id in ms && ms[m.id] == m ==>
        var was := old(View(ms)); Valid(ms) && View(ms) == was.(bound := None, back := was.back - {m.id})
    {
      hide Signals, Listeners;
      ghost var was := View(ms);
      moduleAdapter := null;
      m.rrAdapter := null;
      if m.id in ms && ms[m.id] == m && old(Valid(ms)) {
        assert View(ms).back == was.back - {m.id};
      }
    }
  }

  // ---- sockets ---------------------------------------------------------------------------------

  /** The socket adapters of a module, initiator and target alike. */
  class ModuleSocket {
    const id: ModuleId
    var rrAdapter: RrSocket?

    constructor (id: ModuleId)
      ensures this.id == id && rrAdapter == null
    {
      this.id, rrAdapter := id, null;
    }

    /** A call from the module to the static side begins: without a region it is an error. */
    method Enter() returns (lock: ReconfLock?)
      modifies if rrAdapter == null then {} else {rrAdapter.rr}
      ensures lock == null <==> rrAdapter == null || old(rrAdapter.rr.blocked)
      ensures lock != null ==> fresh(lock) && lock.rr == rrAdapter.rr
      ensures lock != null ==> lock.rr.View() == old(rrAdapter.rr.View()).(count := old(rrAdapter.rr.View()).count + 1)
      ensures rrAdapter != null && lock == null ==> rrAdapter.rr.View() == old(rrAdapter.rr.View())
    {
      if rrAdapter == null {
        return null;
      }
      lock := ReconfLock.Acquire(rrAdapter.rr);
    }
  }

  /** The socket adapters of a region. */
  class RrSocket {
    const rr: RegionBase
    var moduleAdapter: ModuleSocket?
    var synced: bool

    constructor (rr: RegionBase)
      ensures this.rr == rr && moduleAdapter == null && !synced
    {
      this.rr, moduleAdapter, synced := rr, null, false;
    }

    /** A call from the static side into the module begins: the lock is taken first, and a missing
        module is an error. */
    method Enter() returns (lock: ReconfLock?, target: ModuleSocket?)
      modifies rr
      ensures target == null <==> moduleAdapter == null || old(rr.blocked)
      ensures lock == null <==> old(rr.blocked)
      ensures lock != null ==> fresh(lock) && lock.rr == rr && target == moduleAdapter
      ensures lock != null ==> rr.View() == old(rr.View()).(count := old(rr.View()).count + 1)
      ensures lock == null ==> rr.View() == old(rr.View())
    {
      target := null;
      lock := ReconfLock.Acquire(rr);
      if lock != null {
        target := moduleAdapter;
      }
    }

    /** A call that does not wait reaches the module under a lock that lives no longer than the call, so
        the counter is afterwards as before. */
    method CallAtOnce() returns (target: ModuleSocket?)
      modifies rr
      ensures target == if old(rr.blocked) then null else moduleAdapter
      ensures rr.View() == old(rr.View())
    {
      var lock: ReconfLock?;
      lock, target := Enter();
      if lock != null {
        var ok := lock.Release();
      }
    }

    method DynamicBind(m: ModuleSocket, sync: bool) returns (ok: bool)
      modifies this, m`rrAdapter
      ensures ok <==> old(moduleAdapter) == null
      ensures ok ==> moduleAdapter == m && m.rrAdapter == this && synced == (old(synced) || sync)
      ensures !ok ==> unchanged(this) && unchanged(m)
    {
      if moduleAdapter != null {
        return false;
      }
      moduleAdapter := m;
      m.rrAdapter := this;
      if sync {
        synced := true;
      }
      return true;
    }

    method DynamicUnbind(m: ModuleSocket) returns (ok: bool)
      modifies this`moduleAdapter, m`rrAdapter
      ensures ok <==> old(moduleAdapter) == m
      ensures ok ==> moduleAdapter == null && m.rrAdapter == null
      ensures !ok ==> unchanged(this) && unchanged(m)
    {
      if moduleAdapter != m {
        return false;
      }
      moduleAdapter := null;
      m.rrAdapter := null;
      return true;
    }
  }
}
