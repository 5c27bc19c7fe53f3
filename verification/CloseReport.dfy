/** What `Close` reports: exactly the failures of the sections its owner went through, in their order, told from the
    steps of the run (internal/app/app.go). */
module CloseReport {
  import opened AppLifecycle

  /** The step is the owner's section at a stage, and that section fails. */
  predicate Fails(a: App, step: Step, stage: Stage) {
    && step.OwnerMoves? && step.fails
    && step.caller in a.callers && a.callers[step.caller].Owner? && a.callers[step.caller].stage == stage
  }

  /** In this run the section of a stage has failed. */
  ghost predicate Failed(steps: seq<Step>, stage: Stage) {
    exists i :: 0 <= i < |steps| && Fails(Run(NEW_APP, steps[..i]), steps[i], stage)
  }

  /** The errors of the failed sections, each once, in the order of the sections. */
  function Told(drain: bool, database: bool, log: bool): CloseErrors {
    (if drain then [DrainFailed] else []) + (if database then [DatabaseFailed] else [])
      + if log then [LogFailed] else []
  }

  lemma FailedSnoc(steps: seq<Step>, last: Step, stage: Stage)
    ensures Failed(steps + [last], stage) <==> Failed(steps, stage) || Fails(Run(NEW_APP, steps), last, stage)
  {
    var all, n := steps + [last], |steps|;
    forall i | 0 <= i < n ensures all[..i] == steps[..i] && all[i] == steps[i] {}
    assert all[..n] == steps && all[n] == last;
  }

  /** An owner carries the errors of the sections behind it; no later section has failed. */
  ghost predicate OwnerTells(caller: Caller, drain: bool, database: bool, log: bool)
    requires caller.Owner?
  {
    && caller.errors == Told(drain, database, log)
    && (Rank(caller.stage) <= 1 ==> !drain)
    && (Rank(caller.stage) <= 8 ==> !database)
    && (Rank(caller.stage) <= 9 ==> !log)
  }

  ghost predicate Tells(a: App, drain: bool, database: bool, log: bool) {
    && (!a.closing && !a.closed ==> !drain && !database && !log)
    && (forall c :: c in a.callers && a.callers[c].Owner? ==> OwnerTells(a.callers[c], drain, database, log))
    && (a.closed ==> a.closeErr == Told(drain, database, log))
  }

  /** A section of the owner adds its own error, when it fails. */
  lemma SectionTells(a: App, c: nat, stage: Stage, errors: CloseErrors, fails: bool, drain: bool, database: bool,
                     log: bool)
    requires Reached(a, Rank(stage)) && !Blocked(a, stage) && !stage.Finishing?
    requires OwnerTells(Owner(stage, errors), drain, database, log)
    ensures var caller := OwnerNext(a, c, stage, errors, fails).callers[c];
      caller.Owner? && OwnerTells(caller, drain || (fails && stage.Draining?),
                                  database || (fails && stage.ClosingDatabase?), log || (fails && stage.ClosingLog?))
  {
    match stage
    case Draining =>
    case ClosingDatabase =>
    case ClosingLog =>
    case _ =>
  }

  lemma OneOwnerTells(a: App, c: nat, drain: bool, database: bool, log: bool)
    requires c in a.callers && a.callers[c].Owner? && OwnerTells(a.callers[c], drain, database, log)
    requires forall o :: o in a.callers && a.callers[o].Owner? ==> o == c
    requires a.closing && !a.closed
    ensures Tells(a, drain, database, log)
  {
  }

  lemma OwnerStepTells(a: App, c: nat, fails: bool, a': App, drain: bool, database: bool, log: bool, stage: Stage)
    requires Inv(a) && c in a.callers && a.callers[c].Owner? && a.callers[c].stage == stage && !Blocked(a, stage)
    requires OwnerTells(a.callers[c], drain, database, log)
    requires a' == OwnerNext(a, c, stage, a.callers[c].errors, fails)
    ensures Tells(a', drain || (fails && stage.Draining?), database || (fails && stage.ClosingDatabase?),
                  log || (fails && stage.ClosingLog?))
  {
    var errors := a.callers[c].errors;
    assert CallerInv(a, c);
    if stage.Finishing? {
      forall o | o in a'.callers ensures !a'.callers[o].Owner? {
        assert o != c ==> CallerInv(a, o);
      }
    } else {
      SectionTells(a, c, stage, errors, fails, drain, database, log);
      OwnerMovesOn(a, c, stage, errors, fails);
      OwnerKeepsAttempt(a, c, stage, errors, fails, a');
      OneOwnerTells(a', c, drain || (fails && stage.Draining?), database || (fails && stage.ClosingDatabase?),
                    log || (fails && stage.ClosingLog?));
    }
  }

  lemma CallTells(a: App, c: nat, drain: bool, database: bool, log: bool)
    requires Inv(a) && Tells(a, drain, database, log) && c !in a.callers
    ensures Tells(Closing(a, c), drain, database, log)
  {
    if !a.closed && !a.closing {
      NobodyCalled(a);
    }
  }

  /** Sections outside of `Close`, and callers that wait or come late, change nothing that is told. */
  lemma OthersTell(a: App, step: Step, drain: bool, database: bool, log: bool)
    requires Tells(a, drain, database, log) && !step.OwnerMoves? && !step.CallClose?
    ensures Tells(Next(a, step), drain, database, log)
  {
  }

  lemma StepTells(a: App, step: Step, drain: bool, database: bool, log: bool)
    requires Inv(a) && Tells(a, drain, database, log) && Enabled(a, step)
    ensures Tells(Next(a, step), drain || Fails(a, step, Draining), database || Fails(a, step, ClosingDatabase),
                  log || Fails(a, step, ClosingLog))
  {
    if step.OwnerMoves? {
      OwnerStepTells(a, step.caller, step.fails, Next(a, step), drain, database, log, a.callers[step.caller].stage);
    } else if step.CallClose? {
      CallTells(a, step.caller, drain, database, log);
    } else {
      OthersTell(a, step, drain, database, log);
    }
  }

  /** A step that cannot be taken fails no section: neither of the three that can fail waits for anybody. */
  lemma DisabledFailsNothing(a: App, step: Step)
    requires !Enabled(a, step)
    ensures !Fails(a, step, Draining) && !Fails(a, step, ClosingDatabase) && !Fails(a, step, ClosingLog)
  {
  }

  lemma {:induction false} RunTells(steps: seq<Step>)
    ensures Tells(Run(NEW_APP, steps), Failed(steps, Draining), Failed(steps, ClosingDatabase),
                  Failed(steps, ClosingLog))
  {
    if steps != [] {
      var before, last := steps[..|steps| - 1], steps[|steps| - 1];
      RunTells(before);
      RunKeepsInv(before);
      if Enabled(Run(NEW_APP, before), last) {
        StepTells(Run(NEW_APP, before), last, Failed(before, Draining), Failed(before, ClosingDatabase),
                  Failed(before, ClosingLog));
      } else {
        DisabledFailsNothing(Run(NEW_APP, before), last);
      }
      assert steps == before + [last];
      FailedSnoc(before, last, Draining);
      FailedSnoc(before, last, ClosingDatabase);
      FailedSnoc(before, last, ClosingLog);
    }
  }

  lemma ToldInOrder(drain: bool, database: bool, log: bool)
    ensures var errors := Told(drain, database, log);
      && (DrainFailed in errors <==> drain) && (DatabaseFailed in errors <==> database)
         && (LogFailed in errors <==> log)
      && (errors == [] <==> !drain && !database && !log)
      && forall i, j :: 0 <= i < j < |errors| ==> Before(errors[i], errors[j])
  {
  }

  /** The order of the sections that can fail. */
  predicate Before(a: CloseError, b: CloseError) {
    (a.DrainFailed? && !b.DrainFailed?) || (a.DatabaseFailed? && b.LogFailed?)
  }

  /** In every run that has closed the application: a failed drain, a failed database close and a failed log close are
      each reported exactly when that section failed, once and in this order; success when none did. */
  lemma CloseReportsExactlyTheFailures(steps: seq<Step>)
    requires Run(NEW_APP, steps).closed
    ensures var errors := Run(NEW_APP, steps).closeErr;
      && (DrainFailed in errors <==> Failed(steps, Draining))
      && (DatabaseFailed in errors <==> Failed(steps, ClosingDatabase))
      && (LogFailed in errors <==> Failed(steps, ClosingLog))
      && (errors == [] <==>
          !Failed(steps, Draining) && !Failed(steps, ClosingDatabase) && !Failed(steps, ClosingLog))
      && (forall i, j :: 0 <= i < j < |errors| ==> Before(errors[i], errors[j]))
  {
    RunTells(steps);
    ToldInOrder(Failed(steps, Draining), Failed(steps, ClosingDatabase), Failed(steps, ClosingLog));
  }

  function SectionOf(error: CloseError): Stage {
    match error
    case DrainFailed => Draining
    case DatabaseFailed => ClosingDatabase
    case LogFailed => ClosingLog
  }

  /** So every caller that has returned got them. */
  lemma ReturnedErrorsAreTheFailures(steps: seq<Step>, c: nat, error: CloseError)
    requires c in Run(NEW_APP, steps).callers && Run(NEW_APP, steps).callers[c].Returned?
    ensures error in Run(NEW_APP, steps).callers[c].errors <==> Failed(steps, SectionOf(error))
  {
    AllCallersGetTheOwnersErrors(steps, c, c);
    CloseReportsExactlyTheFailures(steps);
  }
}
