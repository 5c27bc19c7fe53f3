/** The lifecycle fields of the application, updated in place by the sections under its lock and by the
    close owner: each method takes one step of the lifecycle machine (internal/app/app.go). */
module Application {
  import opened AppLifecycle

  class Application {
    var runtimeStarted: bool
    var closed: bool
    var closeErr: CloseErrors
    /** Whether a close attempt is pending. */
    var attemptPending: bool
    var httpClosing: bool
    /** The wait groups of admitted handlers and of background tasks. */
    var httpWG: int
    var backgroundWG: int
    var databaseOpen: bool
    var logOpen: bool
    /** The machine: who is live, and where each caller of `Close` is. */
    ghost var machine: App

    /** The fields show what the machine says. */
    ghost predicate Valid()
      reads this
    {
      && AppLifecycle.Inv(machine)
      && runtimeStarted == machine.started && closed == machine.closed && closeErr == machine.closeErr
      && attemptPending == machine.closing && httpClosing == machine.httpClosing
      && httpWG == |machine.handlers| && backgroundWG == |machine.background|
      && databaseOpen == machine.databaseOpen && logOpen == machine.logOpen
    }

    constructor ()
      ensures Valid() && machine == NEW_APP
    {
      runtimeStarted, closed, closeErr, attemptPending, httpClosing := false, false, [], false, false;
      httpWG, backgroundWG, databaseOpen, logOpen := 0, 0, true, true;
      machine := NEW_APP;
    }

    /** `startRuntime`: refused while closing or running; nothing starts when listening fails. */
    method StartRuntime(ghost tasks: set<nat>, count: nat, listens: bool) returns (started: bool)
      requires Valid() && count == |tasks| && tasks !! machine.background
      modifies this
      ensures Valid()
      ensures machine == Next(old(machine), Start(tasks, listens))
      ensures started <==> CanStart(old(machine)) && listens
      ensures started <==> listens && !old(runtimeStarted) && !old(httpClosing)
    {
      StepKeepsInv(machine, Start(tasks, listens));
      if closed || attemptPending || runtimeStarted || !listens {
        return false;
      }
      assert |machine.background + tasks| == |machine.background| + |tasks|;
      backgroundWG := backgroundWG + count;
      runtimeStarted := true;
      machine := Next(machine, Start(tasks, listens));
      return true;
    }

    /** `admitHTTPRequest`. */
    method AdmitHTTPRequest(ghost handler: nat) returns (admitted: bool)
      requires Valid() && handler !in machine.handlers
      modifies this
      ensures Valid()
      ensures machine == Next(old(machine), Admit(handler))
      ensures admitted <==> handler in machine.handlers
    {
      StepKeepsInv(machine, Admit(handler));
      if httpClosing {
        return false;
      }
      httpWG := httpWG + 1;
      machine := Next(machine, Admit(handler));
      return true;
    }

    /** The release function of an admitted request. */
    method ReleaseHTTPRequest(ghost handler: nat)
      requires Valid() && handler in machine.handlers
      modifies this
      ensures Valid()
      ensures machine == Next(old(machine), ReleaseHandler(handler))
    {
      StepKeepsInv(machine, ReleaseHandler(handler));
      httpWG := httpWG - 1;
      machine := Next(machine, ReleaseHandler(handler));
    }

    /** `httpWG.Wait` returns exactly when no admitted handler is live. */
    method HandlersAreGone() returns (gone: bool)
      requires Valid()
      ensures gone <==> machine.handlers == {}
    {
      gone := httpWG == 0;
    }

    method BackgroundIsGone() returns (gone: bool)
      requires Valid()
      ensures gone <==> machine.background == {}
    {
      gone := backgroundWG == 0;
    }

    /** `beginCloseAttempt`: the caller owns a new attempt, waits for the pending one, or gets the result. */
    method BeginCloseAttempt(ghost caller: nat) returns (owner: bool, waits: bool, closedErr: CloseErrors)
      requires Valid() && caller !in machine.callers
      modifies this
      ensures Valid()
      ensures machine == Next(old(machine), CallClose(caller))
      ensures caller in machine.callers
      ensures owner <==> machine.callers[caller].Owner?
      ensures waits <==> machine.callers[caller].Waiter?
      ensures !owner && !waits ==> machine.callers[caller] == Returned(closedErr)
    {
      StepKeepsInv(machine, CallClose(caller));
      machine := Next(machine, CallClose(caller));
      if closed {
        return false, false, closeErr;
      }
      if attemptPending {
        return false, true, [];
      }
      attemptPending := true;
      httpClosing := true;
      return true, false, [];
    }

    /** The owner closes the database once, if it is still open. */
    method CloseDatabase(ghost caller: nat, errors: CloseErrors, fails: bool) returns (closeErrors: CloseErrors)
      requires Valid() && caller in machine.callers && machine.callers[caller] == Owner(ClosingDatabase, errors)
      modifies this
      ensures Valid()
      ensures machine == Next(old(machine), OwnerMoves(caller, fails))
      ensures machine.callers[caller] == Owner(ClosingLog, closeErrors)
      ensures machine.handlers == {} && machine.workers == {} && machine.background == {} && !databaseOpen
    {
      StepKeepsInv(machine, OwnerMoves(caller, fails));
      assert CallerInv(machine, caller);
      machine := Next(machine, OwnerMoves(caller, fails));
      closeErrors := if databaseOpen && fails then errors + [DatabaseFailed] else errors;
      databaseOpen := false;
    }

    method CloseLog(ghost caller: nat, errors: CloseErrors, fails: bool) returns (closeErrors: CloseErrors)
      requires Valid() && caller in machine.callers && machine.callers[caller] == Owner(ClosingLog, errors)
      modifies this
      ensures Valid()
      ensures machine == Next(old(machine), OwnerMoves(caller, fails))
      ensures machine.callers[caller] == Owner(Finishing, closeErrors)
      ensures machine.handlers == {} && machine.workers == {} && machine.background == {} && !databaseOpen && !logOpen
    {
      StepKeepsInv(machine, OwnerMoves(caller, fails));
      assert CallerInv(machine, caller);
      machine := Next(machine, OwnerMoves(caller, fails));
      closeErrors := if logOpen && fails then errors + [LogFailed] else errors;
      logOpen := false;
    }

    /** `finishCloseAttempt`: the attempt's errors become the application's, for the owner and all waiters. */
    method FinishCloseAttempt(ghost caller: nat, errors: CloseErrors)
      requires Valid() && caller in machine.callers && machine.callers[caller] == Owner(Finishing, errors)
      modifies this
      ensures Valid()
      ensures machine == Next(old(machine), OwnerMoves(caller, false))
      ensures closed && closeErr == errors && machine.callers[caller] == Returned(errors)
    {
      StepKeepsInv(machine, OwnerMoves(caller, false));
      machine := Next(machine, OwnerMoves(caller, false));
      closed := true;
      closeErr := errors;
      attemptPending := false;
    }
  }
}
