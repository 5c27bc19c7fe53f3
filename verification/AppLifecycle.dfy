/** Application start, HTTP admission and close: lock-protected sections and the waits of one close owner,
    interleaved (internal/app/app.go). */
module AppLifecycle {
  import opened Accounting

  /** What went wrong while closing, in order; empty for success. */
  datatype CloseError = DrainFailed | DatabaseFailed | LogFailed

  type CloseErrors = seq<CloseError>

  /** The stages of `closeRuntime`, each named after what it does next. */
  datatype Stage =
    | ClosingAdmission | Draining | CancellingHandlers | WaitingForHandlers | StoppingWorkers | WaitingForWorkers
    | CancellingBackground | WaitingForBackground | ClosingDatabase | ClosingLog | Finishing

  datatype Caller = Owner(stage: Stage, errors: CloseErrors) | Waiter | Returned(errors: CloseErrors)

  /** The fields of the application, the requests, refresh workers and background tasks that are live, and
      the callers of `Close`. */
  datatype App = App(
    started: bool, closed: bool, closeErr: CloseErrors, closing: bool,
    httpClosing: bool, handlers: set<nat>, handlersCancelled: bool,
    refreshClosed: bool, workersCancelled: bool, workers: set<nat>,
    background: set<nat>, backgroundCancelled: bool,
    databaseOpen: bool, databaseCloses: nat, logOpen: bool, logCloses: nat,
    attemptErr: Option<CloseErrors>,
    callers: map<nat, Caller>)

  datatype Step =
    | Start(tasks: set<nat>, listens: bool)
    | Admit(handler: nat) | ReleaseHandler(handler: nat)
    | AdmitWorker(worker: nat) | WorkerReturns(worker: nat) | BackgroundReturns(task: nat)
    | CallClose(caller: nat) | OwnerMoves(caller: nat, fails: bool) | WaiterWakes(caller: nat)

  const NEW_APP :=
    App(false, false, [], false, false, {}, false, false, false, {}, {}, false, true, 0, true, 0, None, map[])

  predicate CanStart(a: App) { !a.closed && !a.closing && !a.started }

  /** Whether a step can be taken now: rejected calls are steps that change nothing. */
  predicate Enabled(a: App, step: Step) {
    match step
    case Start(_, _) => true
    case Admit(_) => true
    case ReleaseHandler(h) => h in a.handlers
    case AdmitWorker(_) => true
    case WorkerReturns(w) => w in a.workers
    case BackgroundReturns(t) => t in a.background
    case CallClose(c) => c !in a.callers
    case OwnerMoves(c, _) => c in a.callers && a.callers[c].Owner? && !Blocked(a, a.callers[c].stage)
    case WaiterWakes(c) => c in a.callers && a.callers[c].Waiter? && a.attemptErr.Some?
  }

  /** The three waits of `closeRuntime`. */
  predicate Blocked(a: App, stage: Stage) {
    || (stage.WaitingForHandlers? && a.handlers != {})
    || (stage.WaitingForWorkers? && a.workers != {})
    || (stage.WaitingForBackground? && a.background != {})
  }

  function Moved(a: App, c: nat, stage: Stage, errors: CloseErrors): App {
    a.(callers := a.callers[c := Owner(stage, errors)])
  }

  /** `closeRuntime` and then `finishCloseAttempt`, one section at a time. */
  function OwnerNext(a: App, c: nat, stage: Stage, errors: CloseErrors, fails: bool): App {
    match stage
    case ClosingAdmission => Moved(a, c, Draining, errors).(refreshClosed := true)
    case Draining => Moved(a, c, CancellingHandlers, if fails then errors + [DrainFailed] else errors)
    case CancellingHandlers => Moved(a, c, WaitingForHandlers, errors).(handlersCancelled := true)
    case WaitingForHandlers => Moved(a, c, StoppingWorkers, errors)
    case StoppingWorkers => Moved(a, c, WaitingForWorkers, errors).(refreshClosed := true, workersCancelled := true)
    case WaitingForWorkers => Moved(a, c, CancellingBackground, errors)
    case CancellingBackground => Moved(a, c, WaitingForBackground, errors).(backgroundCancelled := true)
    case WaitingForBackground => Moved(a, c, ClosingDatabase, errors)
    case ClosingDatabase =>
      if !a.databaseOpen then Moved(a, c, ClosingLog, errors)
      else
        Moved(a, c, ClosingLog, if fails then errors + [DatabaseFailed] else errors)
          .(databaseOpen := false, databaseCloses := a.databaseCloses + 1)
    case ClosingLog =>
      if !a.logOpen then Moved(a, c, Finishing, errors)
      else
        Moved(a, c, Finishing, if fails then errors + [LogFailed] else errors)
          .(logOpen := false, logCloses := a.logCloses + 1)
    case Finishing =>
      a.(callers := a.callers[c := Returned(errors)], attemptErr := Some(errors), closed := true, closeErr := errors,
         closing := false)
  }

  function Closing(a: App, c: nat): App {
    if a.closed then a.(callers := a.callers[c := Returned(a.closeErr)])
    else if a.closing then a.(callers := a.callers[c := Waiter])
    else a.(closing := true, httpClosing := true, callers := a.callers[c := Owner(ClosingAdmission, [])])
  }

  function Next(a: App, step: Step): App {
    if !Enabled(a, step) then a
    else match step
      case Start(tasks, listens) =>
        if CanStart(a) && listens then a.(started := true, background := a.background + tasks) else a
      case Admit(h) => if a.httpClosing then a else a.(handlers := a.handlers + {h})
      case ReleaseHandler(h) => a.(handlers := a.handlers - {h})
      case AdmitWorker(w) => if a.refreshClosed || a.workersCancelled then a else a.(workers := a.workers + {w})
      case WorkerReturns(w) => a.(workers := a.workers - {w})
      case BackgroundReturns(t) => a.(background := a.background - {t})
      case CallClose(c) => Closing(a, c)
      case OwnerMoves(c, fails) => OwnerNext(a, c, a.callers[c].stage, a.callers[c].errors, fails)
      case WaiterWakes(c) => a.(callers := a.callers[c := Returned(a.attemptErr.value)])
  }

  function Run(a: App, steps: seq<Step>): App {
    if steps == [] then a else Next(Run(a, steps[..|steps| - 1]), steps[|steps| - 1])
  }

  // The invariant

  function Rank(stage: Stage): nat {
    match stage
    case ClosingAdmission => 0
    case Draining => 1
    case CancellingHandlers => 2
    case WaitingForHandlers => 3
    case StoppingWorkers => 4
    case WaitingForWorkers => 5
    case CancellingBackground => 6
    case WaitingForBackground => 7
    case ClosingDatabase => 8
    case ClosingLog => 9
    case Finishing => 10
  }

  /** What the owner has achieved when it is at a stage. */
  ghost predicate Reached(a: App, rank: nat) {
    && (0 < rank ==> a.refreshClosed)
    && (a.handlersCancelled <==> 2 < rank) && (a.workersCancelled <==> 4 < rank)
       && (a.backgroundCancelled <==> 6 < rank)
    && (3 < rank ==> a.handlers == {})
    && (5 < rank ==> a.workers == {})
    && (7 < rank ==> a.background == {})
    && (a.databaseOpen <==> rank <= 8)
    && (a.logOpen <==> rank <= 9)
  }

  ghost predicate CallerInv(a: App, c: nat)
    requires c in a.callers
  {
    match a.callers[c]
    case Owner(stage, errors) => a.closing && Reached(a, Rank(stage))
      && forall o :: o in a.callers && a.callers[o].Owner? ==> o == c
    case Waiter => a.closing || a.closed
    case Returned(errors) => a.closed && errors == a.closeErr
  }

  ghost predicate ClosesCounted(a: App) {
    && a.databaseCloses == (if a.databaseOpen then 0 else 1)
    && a.logCloses == (if a.logOpen then 0 else 1)
  }

  ghost predicate Inv(a: App) {
    && (forall c :: c in a.callers ==> CallerInv(a, c))
    && (a.closing ==> exists c :: c in a.callers && a.callers[c].Owner?)
    && !(a.closing && a.closed)
    && (a.httpClosing <==> a.closing || a.closed)
    && (!a.closing && !a.closed ==> a.databaseOpen && a.logOpen && a.callers == map[])
    && (!a.closing && !a.closed ==> !a.handlersCancelled && !a.workersCancelled && !a.backgroundCancelled)
    && (a.closed <==> a.attemptErr.Some?) && (a.closed ==> a.attemptErr == Some(a.closeErr) && Reached(a, 11))
    && ClosesCounted(a)
  }

  /** A section that leaves the callers and the attempt alone, and keeps what the owner has achieved. */
  lemma LiveKeepsInv(a: App, a': App)
    requires Inv(a) && a'.callers == a.callers && SameAttempt(a, a') && ClosesCounted(a')
    requires forall rank: nat | rank <= 11 && (a.closing || a.closed) && Reached(a, rank) :: Reached(a', rank)
    requires !a.closing && !a.closed ==>
      a'.databaseOpen && a'.logOpen && !a'.handlersCancelled && !a'.workersCancelled && !a'.backgroundCancelled
    ensures Inv(a')
  {
    forall c | c in a'.callers ensures CallerInv(a', c) {
      assert CallerInv(a, c);
    }
    if a.closing {
      var c :| c in a.callers && a.callers[c].Owner?;
      assert c in a'.callers && a'.callers[c].Owner?;
    }
  }

  lemma OutsideKeepsReached(a: App, step: Step, rank: nat)
    requires !step.CallClose? && !step.OwnerMoves? && !step.WaiterWakes? && rank <= 11
    requires Reached(a, rank) && a.httpClosing && !CanStart(a)
    ensures Reached(Next(a, step), rank)
  {
  }

  /** Starting, admitting and returning: sections outside of `Close`. */
  lemma OutsideKeepsInv(a: App, step: Step)
    requires Inv(a) && !step.CallClose? && !step.OwnerMoves? && !step.WaiterWakes?
    ensures Inv(Next(a, step))
  {
    forall rank: nat | rank <= 11 && (a.closing || a.closed) && Reached(a, rank) ensures Reached(Next(a, step), rank) {
      OutsideKeepsReached(a, step, rank);
    }
    LiveKeepsInv(a, Next(a, step));
  }

  lemma OtherCallers(a: App, c: nat, caller: Caller, o: nat)
    requires Inv(a) && c !in a.callers && o in a.callers && !caller.Owner?
    ensures CallerInv(a.(callers := a.callers[c := caller]), o)
  {
    assert CallerInv(a, o);
  }

  /** A caller of `Close` that does not become the owner. */
  lemma JoinKeepsInv(a: App, c: nat, caller: Caller)
    requires Inv(a) && c !in a.callers && !caller.Owner?
    requires CallerInv(a.(callers := a.callers[c := caller]), c)
    ensures Inv(a.(callers := a.callers[c := caller]))
  {
    var a' := a.(callers := a.callers[c := caller]);
    forall o | o in a'.callers ensures CallerInv(a', o) {
      if o != c { OtherCallers(a, c, caller, o); }
    }
    if a.closing {
      var o :| o in a.callers && a.callers[o].Owner?;
      assert o in a'.callers && a'.callers[o].Owner?;
    }
  }

  /** Before the first owner nobody has called `Close`. */
  lemma NobodyCalled(a: App)
    requires Inv(a) && !a.closed && !a.closing
    ensures a.callers == map[]
  {
    assert a.callers.Keys == {};
  }

  lemma OwnKeepsInv(a: App, c: nat)
    requires Inv(a) && c !in a.callers && !a.closed && !a.closing
    ensures Inv(Closing(a, c))
  {
    NobodyCalled(a);
    assert Closing(a, c).callers[c].Owner?;
  }

  lemma CallKeepsInv(a: App, c: nat)
    requires Inv(a) && c !in a.callers
    ensures Inv(Closing(a, c))
  {
    if a.closed {
      JoinKeepsInv(a, c, Returned(a.closeErr));
    } else if a.closing {
      JoinKeepsInv(a, c, Waiter);
    } else {
      OwnKeepsInv(a, c);
    }
  }

  lemma WakeKeepsInv(a: App, c: nat)
    requires Inv(a) && Enabled(a, WaiterWakes(c))
    ensures Inv(Next(a, WaiterWakes(c)))
  {
    var a' := Next(a, WaiterWakes(c));
    forall o | o in a'.callers ensures CallerInv(a', o) {
      if o != c { assert CallerInv(a, o); }
    }
  }

  /** An owner that moves on to its next stage. */
  lemma MoveKeepsInv(a: App, c: nat, a': App, stage: Stage, errors: CloseErrors)
    requires Inv(a) && c in a.callers && a.callers[c].Owner?
    requires a'.callers == a.callers[c := Owner(stage, errors)] && Reached(a', Rank(stage))
    requires SameAttempt(a, a') && ClosesCounted(a')
    ensures Inv(a')
  {
    assert CallerInv(a, c);
    forall o | o in a'.callers ensures CallerInv(a', o) {
      if o != c { assert CallerInv(a, o); }
    }
    assert a'.callers[c].Owner?;
  }

  lemma FinishKeepsInv(a: App, c: nat, errors: CloseErrors, fails: bool)
    requires Inv(a) && c in a.callers && a.callers[c] == Owner(Finishing, errors)
    ensures Inv(OwnerNext(a, c, Finishing, errors, fails))
  {
    var a' := OwnerNext(a, c, Finishing, errors, fails);
    assert CallerInv(a, c);
    forall o | o in a'.callers ensures CallerInv(a', o) {
      if o != c { assert CallerInv(a, o); }
    }
  }

  /** Each section takes the owner one stage further, and achieves what the next stage relies on. */
  lemma OwnerMovesOn(a: App, c: nat, stage: Stage, errors: CloseErrors, fails: bool)
    requires Reached(a, Rank(stage)) && !Blocked(a, stage) && !stage.Finishing?
    ensures var a' := OwnerNext(a, c, stage, errors, fails);
      && c in a'.callers && a'.callers[c].Owner? && Rank(a'.callers[c].stage) == Rank(stage) + 1
      && a'.callers == a.callers[c := a'.callers[c]]
      && Reached(a', Rank(stage) + 1)
  {
  }

  lemma OwnerCountsCloses(a: App, c: nat, stage: Stage, errors: CloseErrors, fails: bool)
    requires !stage.Finishing? && ClosesCounted(a)
    ensures ClosesCounted(OwnerNext(a, c, stage, errors, fails))
  {
  }

  ghost predicate SameAttempt(a: App, a': App) {
    && a'.closing == a.closing && a'.closed == a.closed && a'.closeErr == a.closeErr
    && a'.httpClosing == a.httpClosing && a'.attemptErr == a.attemptErr
  }

  lemma OwnerKeepsAttempt(a: App, c: nat, stage: Stage, errors: CloseErrors, fails: bool, a': App)
    requires !stage.Finishing? && a' == OwnerNext(a, c, stage, errors, fails)
    ensures SameAttempt(a, a')
  {
    match stage
    case ClosingDatabase =>
    case ClosingLog =>
    case _ =>
  }

  lemma OwnerKeepsInv(a: App, c: nat, stage: Stage, errors: CloseErrors, fails: bool, a': App)
    requires Inv(a) && c in a.callers && a.callers[c] == Owner(stage, errors) && !Blocked(a, stage)
    requires a' == OwnerNext(a, c, stage, errors, fails)
    ensures Inv(a')
  {
    assert CallerInv(a, c);
    if stage.Finishing? {
      FinishKeepsInv(a, c, errors, fails);
    } else {
      OwnerMovesOn(a, c, stage, errors, fails);
      OwnerCountsCloses(a, c, stage, errors, fails);
      OwnerKeepsAttempt(a, c, stage, errors, fails, a');
      MoveKeepsInv(a, c, a', a'.callers[c].stage, a'.callers[c].errors);
    }
  }

  lemma StepKeepsInv(a: App, step: Step)
    requires Inv(a)
    ensures Inv(Next(a, step))
  {
    if Enabled(a, step) {
      match step
      case CallClose(c) => CallKeepsInv(a, c);
      case OwnerMoves(c, fails) => OwnerKeepsInv(a, c, a.callers[c].stage, a.callers[c].errors, fails, Next(a, step));
      case WaiterWakes(c) => WakeKeepsInv(a, c);
      case _ => OutsideKeepsInv(a, step);
    }
  }

  lemma {:induction false} RunKeepsInv(steps: seq<Step>)
    ensures Inv(Run(NEW_APP, steps))
  {
    if steps != [] {
      RunKeepsInv(steps[..|steps| - 1]);
      StepKeepsInv(Run(NEW_APP, steps[..|steps| - 1]), steps[|steps| - 1]);
    }
  }

  // Safety

  /** In every interleaving: the database and the log are closed at most once, and only when no admitted
      handler, refresh worker or background task is live. */
  lemma ResourcesOutliveTheirUsers(steps: seq<Step>)
    ensures var a := Run(NEW_APP, steps);
      && (!a.databaseOpen || !a.logOpen ==> a.handlers == {} && a.workers == {} && a.background == {})
      && a.databaseCloses <= 1 && a.logCloses <= 1
      && (a.closed ==> a.databaseCloses == 1 && a.logCloses == 1)
  {
    RunKeepsInv(steps);
    var a := Run(NEW_APP, steps);
    if a.closing {
      var c :| c in a.callers && a.callers[c].Owner?;
      assert CallerInv(a, c);
    }
  }

  /** The order of the shutdown: nothing is cancelled before closing begins; workers are cancelled only once no handler
      is live, background tasks only once no worker is, and everything has been cancelled before the database closes. */
  lemma CancellationOrder(steps: seq<Step>)
    ensures var a := Run(NEW_APP, steps);
      && (a.handlersCancelled ==> a.httpClosing)
      && (a.workersCancelled ==> a.handlersCancelled && a.handlers == {} && a.refreshClosed)
      && (a.backgroundCancelled ==> a.workersCancelled && a.workers == {})
      && (!a.databaseOpen ==> a.backgroundCancelled && a.background == {})
      && (!a.logOpen ==> !a.databaseOpen)
  {
    RunKeepsInv(steps);
    var a := Run(NEW_APP, steps);
    if a.closing {
      var c :| c in a.callers && a.callers[c].Owner?;
      assert CallerInv(a, c);
    }
  }

  /** The runtime starts once at most, and never while closing or closed. */
  lemma StartsOnce(steps: seq<Step>, tasks: set<nat>, listens: bool)
    ensures var a := Run(NEW_APP, steps); var a' := Next(a, Start(tasks, listens));
      && (listens && !a.started && !a.httpClosing ==> a'.started && a'.background == a.background + tasks)
      && (!listens || a.started || a.httpClosing ==> a' == a)
  {
    RunKeepsInv(steps);
    StartIsGuarded(Run(NEW_APP, steps), tasks, listens);
  }

  lemma StartIsGuarded(a: App, tasks: set<nat>, listens: bool)
    requires a.httpClosing <==> a.closing || a.closed
    ensures var a' := Next(a, Start(tasks, listens));
      && (listens && !a.started && !a.httpClosing ==> a'.started && a'.background == a.background + tasks)
      && (!listens || a.started || a.httpClosing ==> a' == a)
  {
  }

  /** Every caller of `Close` that has returned got the same errors, those of the one owner. */
  lemma AllCallersGetTheOwnersErrors(steps: seq<Step>, b: nat, c: nat)
    requires var a := Run(NEW_APP, steps);
      b in a.callers && c in a.callers && a.callers[b].Returned? && a.callers[c].Returned?
    ensures var a := Run(NEW_APP, steps); a.closed && a.callers[b].errors == a.callers[c].errors == a.closeErr
  {
    RunKeepsInv(steps);
    var a := Run(NEW_APP, steps);
    assert CallerInv(a, b) && CallerInv(a, c);
  }

  /** At most one caller owns the close. */
  lemma OneOwner(steps: seq<Step>, b: nat, c: nat)
    requires var a := Run(NEW_APP, steps);
      b in a.callers && c in a.callers && a.callers[b].Owner? && a.callers[c].Owner?
    ensures b == c && !Run(NEW_APP, steps).closed
  {
    RunKeepsInv(steps);
    assert CallerInv(Run(NEW_APP, steps), c);
  }

  lemma NoOwnerOnceClosed(a: App, c: nat)
    requires Inv(a) && a.closed && c in a.callers
    ensures !a.callers[c].Owner?
  {
    assert CallerInv(a, c);
  }

  lemma ClosedStep(a: App, step: Step)
    requires Inv(a) && a.closed
    ensures Next(a, step).closed && Next(a, step).closeErr == a.closeErr
  {
    forall c | c in a.callers ensures !a.callers[c].Owner? {
      NoOwnerOnceClosed(a, c);
    }
  }

  /** Once closed, always closed, with the same errors: nothing can be admitted or started any more. */
  lemma {:induction false} ClosedForGood(steps: seq<Step>, more: seq<Step>)
    requires Run(NEW_APP, steps).closed
    ensures var a := Run(NEW_APP, steps + more);
      a.closed && a.closeErr == Run(NEW_APP, steps).closeErr && a.handlers == {} && a.workers == {}
        && a.background == {} && !CanStart(a)
  {
    if more == [] {
      assert steps + more == steps;
    } else {
      assert (steps + more)[..|steps + more| - 1] == steps + more[..|more| - 1];
      ClosedForGood(steps, more[..|more| - 1]);
      RunKeepsInv(steps + more[..|more| - 1]);
      ClosedStep(Run(NEW_APP, steps + more[..|more| - 1]), more[|more| - 1]);
    }
    RunKeepsInv(steps + more);
  }

  /** The owner waits for nothing but live handlers, workers and background tasks, at a time when no new
      ones are admitted or started. */
  lemma OwnerWaitsOnlyForTheLive(a: App, c: nat, fails: bool)
    requires Inv(a) && c in a.callers && a.callers[c].Owner?
    ensures a.httpClosing && !CanStart(a)
    ensures 0 < Rank(a.callers[c].stage) ==> a.refreshClosed
    ensures Enabled(a, OwnerMoves(c, fails)) || a.handlers != {} || a.workers != {} || a.background != {}
  {
    assert CallerInv(a, c);
  }
}
