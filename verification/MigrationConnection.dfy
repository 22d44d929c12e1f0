/** The migrations' database connection against a hostile environment, and its disposal. */
module MigrationConnection {
  import opened Options

  /** What a call may raise. An ordinary exception may report a lost connection; an interrupt is a
      BaseException that is not an Exception. */
  datatype Fault = Ordinary(lossy: bool) | Interrupt

  /** The scalar a lock call yields: an int, NULL, a value of another type, or an exception. */
  datatype Reply = Value(n: int) | NullReply | NotAnInt | Raises(fault: Fault)

  /** Which handles a disposal had captured, and which of its steps raised, in the order they are tried. */
  datatype Disposal = Disposal(
    pooled: bool, driver: bool,
    capture: bool, invalidate: bool, detach: bool, closeDriver: bool, invalidatePooled: bool, closeWrapper: bool)
  {
    /** Every isolating step that could be tried raised. */
    predicate Futile() {
      invalidate && (pooled ==> detach && invalidatePooled) && (driver ==> closeDriver)
    }
  }

  class Connection {
    var closed: bool
    var invalidated: bool
    // what the pool and the driver know of the physical connection
    var detached: bool
    var driverClosed: bool
    var pooledInvalidated: bool
    /** The server session behind this connection may own the named lock. */
    ghost var owner: bool
    /** How often this connection went through Discard, and whether in one of those every isolating step raised. */
    ghost var discards: nat
    ghost var isolationFailed: bool

    constructor ()
      ensures !closed && !invalidated && !detached && !driverClosed && !pooledInvalidated
      ensures !owner && discards == 0 && !isolationFailed
    {
      closed, invalidated, detached, driverClosed, pooledInvalidated := false, false, false, false, false;
      owner, discards, isolationFailed := false, 0, false;
    }

    /** The physical connection cannot be handed out again by the pool. */
    predicate Quarantined()
      reads this
    {
      invalidated || detached || driverClosed || pooledInvalidated
    }

    /** A connection that may own the lock is out of circulation, unless every attempt to take it
        out failed. */
    ghost predicate NoLeak()
      reads this
    {
      owner ==> Quarantined() || isolationFailed
    }

    /** Any statement other than the two lock calls: it may return or raise, the server session may
        be lost, and the wrapper may be invalidated or silently reconnected to a fresh session. */
    method Run() returns (fault: Option<Fault>)
      modifies this`invalidated, this`owner
      ensures owner ==> old(owner)
    {
      Disturb();
      fault := *;
    }

    method Disturb()
      modifies this`invalidated, this`owner
      ensures owner ==> old(owner)
    {
      var sessionLost: bool, nowInvalid: bool := *, *;
      if sessionLost || (invalidated && !nowInvalid) { owner := false; }
      invalidated := nowInvalid;
    }

    /** GET_LOCK: 0 means the lock was not obtained; anything else leaves ownership open. */
    method GetLock() returns (reply: Reply)
      modifies this`invalidated, this`owner
      ensures reply == Value(0) ==> owner ==> old(owner)
    {
      Disturb();
      reply := *;
      if reply != Value(0) {
        ghost var taken: bool := *;
        owner := owner || taken;
      }
    }

    /** RELEASE_LOCK: 1 means this session owned the lock and no longer does. */
    method ReleaseLock() returns (reply: Reply)
      modifies this`invalidated, this`owner
      ensures owner ==> old(owner)
      ensures reply == Value(1) ==> !owner
    {
      Disturb();
      reply := *;
      if reply == Value(1) { owner := false; }
    }

    /** A disposal call: `failed` if it raised, `effective` if it took effect. */
    static method Attempt() returns (failed: bool, effective: bool)
      ensures !failed ==> effective
    {
      failed, effective := *, *;
      if !failed { effective := true; }
    }

    /** A disposal call made only under a condition. */
    static method AttemptIf(tried: bool) returns (failed: bool, effective: bool)
      ensures tried && !failed ==> effective
      ensures !tried ==> !failed && !effective
    {
      failed, effective := false, false;
      if tried {
        failed, effective := Attempt();
      }
    }

    /** Keeps both handles of a live connection before they can be lost. */
    method Capture() returns (failed: bool, pooled: bool, driver: bool)
      ensures !closed && !invalidated && !failed ==> pooled && driver
      ensures closed || invalidated ==> !failed && !pooled && !driver
    {
      failed, pooled, driver := false, false, false;
      if !closed && !invalidated {
        var effective;
        failed, effective := Attempt();
        pooled := !failed;
        if pooled {
          failed, effective := Attempt();
          driver := !failed;
        }
      }
    }

    /** Takes the physical connection out of circulation behind the wrapper's back. */
    method Isolate(pooled: bool, driver: bool) returns (detachFailed: bool, driverFailed: bool, pooledFailed: bool)
      modifies this`detached, this`driverClosed, this`pooledInvalidated
      ensures old(detached) || (pooled && !detachFailed) ==> detached
      ensures old(driverClosed) || (driver && !driverFailed) ==> driverClosed
      ensures old(pooledInvalidated) || (pooled && !pooledFailed) ==> pooledInvalidated
      ensures !pooled ==> detached == old(detached) && pooledInvalidated == old(pooledInvalidated)
      ensures !driver ==> driverClosed == old(driverClosed)
    {
      var done;
      detachFailed, done := AttemptIf(pooled);
      detached := detached || done;
      driverFailed, done := AttemptIf(driver);
      driverClosed := driverClosed || done;
      pooledFailed, done := AttemptIf(pooled);
      pooledInvalidated := pooledInvalidated || done;
    }

    /** Disposes of the connection without ever raising: every step is tried whatever failed before
        and reuse is excluded unless every isolating step that could be tried failed. */
    method Discard() returns (d: Disposal)
      modifies this
      ensures owner == old(owner) && discards == old(discards) + 1
      ensures old(Quarantined()) ==> Quarantined()
      ensures isolationFailed <==> old(isolationFailed) || d.Futile()
      ensures !d.Futile() ==> Quarantined()
      ensures !old(closed) && !old(invalidated) && !d.capture ==> d.pooled && d.driver
      ensures d.pooled || d.driver ==> !old(closed) && !old(invalidated)
      ensures old(closed) || !d.closeWrapper ==> closed
    {
      var captureFailed, pooled, driver := Capture();
      var invalidateFailed, nowInvalid := Attempt();
      invalidated := invalidated || nowInvalid;
      var detachFailed, driverFailed, pooledFailed := Isolate(invalidateFailed && pooled, driver);
      var closeFailed, nowClosed := Attempt();
      closed := closed || nowClosed;
      d := Disposal(pooled, driver, captureFailed, invalidateFailed, detachFailed, driverFailed, pooledFailed, closeFailed);
      discards := discards + 1;
      isolationFailed := isolationFailed || d.Futile();
    }
  }
}
