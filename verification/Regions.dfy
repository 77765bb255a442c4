/** `abstract_reconf_region_base` and `reconf_lock` as objects. */
module Regions {
  import opened Model

  class RegionBase {
    var reconfiguring: bool
    var blocked: bool
    var active: nat

    constructor ()
      ensures View() == Region(false, false, 0)
    {
      reconfiguring, blocked, active := false, false, 0;
    }

    function View(): Region
      reads this
    {
      Region(reconfiguring, blocked, active)
    }

    method MarkReconfBegin() returns (ok: bool)
      modifies this
      ensures ok <==> !old(reconfiguring)
      ensures View() == if ok then old(View()).(reconf := true) else old(View())
    {
      if reconfiguring {
        return false;
      }
      reconfiguring := true;
      return true;
    }

    method MarkReconfEnd() returns (ok: bool)
      modifies this
      ensures ok <==> old(reconfiguring)
      ensures View() == if ok then old(View()).(reconf := false) else old(View())
    {
      if !reconfiguring {
        return false;
      }
      reconfiguring := false;
      return true;
    }

    method BlockTransactions() returns (ok: bool)
      modifies this
      ensures ok <==> !old(blocked)
      ensures View() == if ok then old(View()).(blocked := true) else old(View())
    {
      if blocked {
        return false;
      }
      blocked := true;
      return true;
    }

    method UnblockTransactions() returns (ok: bool)
      modifies this
      ensures ok <==> old(blocked)
      ensures View() == if ok then old(View()).(blocked := false) else old(View())
    {
      if !blocked {
        return false;
      }
      blocked := false;
      return true;
    }

    method StartTransaction() returns (ok: bool)
      modifies this
      ensures ok <==> !old(blocked)
      ensures View() == if ok then old(View()).(count := old(View()).count + 1) else old(View())
    {
      if blocked {
        return false;
      }
      active := active + 1;
      return true;
    }

    method EndTransaction() returns (ok: bool)
      modifies this
      ensures ok <==> old(active) > 0
      ensures View() == if ok then old(View()).(count := old(View()).count - 1) else old(View())
    {
      if active == 0 {
        return false;
      }
      active := active - 1;
      return true;
    }

    method IsUnloadOk() returns (ok: bool)
      ensures ok <==> View().count == 0
    {
      return active == 0;
    }
  }

  /** A scoped lock.  When the constructor's request is refused no object exists, and nothing is
      released at the end of the scope. */
  class ReconfLock {
    const rr: RegionBase

    constructor (rr: RegionBase)
      requires !rr.blocked
      modifies rr
      ensures this.rr == rr && rr.View() == old(rr.View()).(count := old(rr.View()).count + 1)
    {
      this.rr := rr;
      new;
      var ok := rr.StartTransaction();
    }

    static method Acquire(rr: RegionBase) returns (lock: ReconfLock?)
      modifies rr
      ensures lock == null <==> old(rr.blocked)
      ensures lock != null ==> fresh(lock) && lock.rr == rr && rr.View() == old(rr.View()).(count := old(rr.View()).count + 1)
      ensures lock == null ==> rr.View() == old(rr.View())
    {
      if rr.blocked {
        return null;
      }
      lock := new ReconfLock(rr);
    }

    /** The destructor. */
    method Release() returns (ok: bool)
      modifies rr
      ensures ok <==> old(rr.active) > 0
      ensures rr.View() == if ok then old(rr.View()).(count := old(rr.View()).count - 1) else old(rr.View())
    {
      ok := rr.EndTransaction();
    }
  }
}
