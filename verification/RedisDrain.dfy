/** Stage admission of the queue drain: a pull loop, a process loop and manual synchronisation contend for
    two stages under one lock (internal/poller/redis_drain.go). */
module RedisDrain {

  /** What a caller is doing with the stages it was admitted to. */
  datatype Activity = Pulling | Processing | ManualPull | ManualProcess

  /** The flags, and the callers that are between their admission and their release. */
  datatype Drain = Drain(manualRunning: bool, pullRunning: bool, processRunning: bool, callers: map<nat, Activity>)

  predicate IsManual(a: Activity) { a.ManualPull? || a.ManualProcess? }

  /** The stages a caller has reserved: a manual caller holds both for its whole command. */
  predicate HoldsPull(a: Activity) { a.Pulling? || IsManual(a) }

  predicate HoldsProcess(a: Activity) { a.Processing? || IsManual(a) }

  datatype Step =
    | BeginPull(caller: nat) | EndPull(caller: nat)
    | BeginProcess(caller: nat) | EndProcess(caller: nat)
    | BeginManual(caller: nat) | ManualPulled(caller: nat) | EndManual(caller: nat)

  predicate Doing(d: Drain, caller: nat, a: Activity) { caller in d.callers && d.callers[caller] == a }

  /** Whether a caller is admitted, or may leave. */
  predicate Enabled(d: Drain, step: Step) {
    match step
    case BeginPull(c) => c !in d.callers && !d.pullRunning
    case EndPull(c) => Doing(d, c, Pulling)
    case BeginProcess(c) => c !in d.callers && !d.processRunning
    case EndProcess(c) => Doing(d, c, Processing)
    case BeginManual(c) => c !in d.callers && !d.manualRunning && !d.pullRunning && !d.processRunning
    case ManualPulled(c) => Doing(d, c, ManualPull)
    case EndManual(c) => Doing(d, c, ManualPull) || Doing(d, c, ManualProcess)
  }

  function Next(d: Drain, step: Step): Drain {
    if !Enabled(d, step) then d
    else match step
      case BeginPull(c) => d.(pullRunning := true, callers := d.callers[c := Pulling])
      case EndPull(c) => d.(pullRunning := false, callers := d.callers - {c})
      case BeginProcess(c) => d.(processRunning := true, callers := d.callers[c := Processing])
      case EndProcess(c) => d.(processRunning := false, callers := d.callers - {c})
      case BeginManual(c) => Drain(true, true, true, d.callers[c := ManualPull])
      case ManualPulled(c) => d.(callers := d.callers[c := ManualProcess])
      case EndManual(c) => Drain(false, false, false, d.callers - {c})
  }

  function Run(d: Drain, steps: seq<Step>): Drain {
    if steps == [] then d else Next(Run(d, steps[..|steps| - 1]), steps[|steps| - 1])
  }

  const NEW_DRAIN := Drain(false, false, false, map[])

  /** The flags say who is inside, and each stage has one holder at most. */
  ghost predicate Exclusive(d: Drain) {
    && (d.pullRunning <==> exists c :: c in d.callers && HoldsPull(d.callers[c]))
    && (d.processRunning <==> exists c :: c in d.callers && HoldsProcess(d.callers[c]))
    && (d.manualRunning <==> exists c :: c in d.callers && IsManual(d.callers[c]))
    && (forall a, b :: a in d.callers && b in d.callers && HoldsPull(d.callers[a]) && HoldsPull(d.callers[b]) ==>
       a == b)
    && (forall a, b :: a in d.callers && b in d.callers && HoldsProcess(d.callers[a]) && HoldsProcess(d.callers[b]) ==>
       a == b)
  }

  lemma EnterKeepsExclusive(d: Drain, c: nat, a: Activity, d': Drain)
    requires Exclusive(d) && c !in d.callers && d'.callers == d.callers[c := a]
    requires HoldsPull(a) ==> !d.pullRunning
    requires HoldsProcess(a) ==> !d.processRunning
    requires d'.pullRunning == (d.pullRunning || HoldsPull(a))
    requires d'.processRunning == (d.processRunning || HoldsProcess(a))
    requires d'.manualRunning == (d.manualRunning || IsManual(a))
    ensures Exclusive(d')
  {
    assert d'.callers[c] == a;
    forall x | x in d.callers ensures x in d'.callers && d'.callers[x] == d.callers[x] {
    }
  }

  lemma LeaveKeepsExclusive(d: Drain, c: nat, d': Drain)
    requires Exclusive(d) && c in d.callers && d'.callers == d.callers - {c}
    requires d'.pullRunning == (d.pullRunning && !HoldsPull(d.callers[c]))
    requires d'.processRunning == (d.processRunning && !HoldsProcess(d.callers[c]))
    requires d'.manualRunning == (d.manualRunning && !IsManual(d.callers[c]))
    ensures Exclusive(d')
  {
    forall x | x in d.callers && x != c ensures x in d'.callers && d'.callers[x] == d.callers[x] {
    }
  }

  lemma PulledKeepsExclusive(d: Drain, c: nat)
    requires Exclusive(d) && Doing(d, c, ManualPull)
    ensures Exclusive(d.(callers := d.callers[c := ManualProcess]))
  {
    var d' := d.(callers := d.callers[c := ManualProcess]);
    assert d'.callers[c] == ManualProcess && d'.callers.Keys == d.callers.Keys;
  }

  lemma StepKeepsExclusive(d: Drain, step: Step)
    requires Exclusive(d)
    ensures Exclusive(Next(d, step))
  {
    if Enabled(d, step) {
      match step
      case BeginPull(c) => EnterKeepsExclusive(d, c, Pulling, Next(d, step));
      case BeginProcess(c) => EnterKeepsExclusive(d, c, Processing, Next(d, step));
      case BeginManual(c) => EnterKeepsExclusive(d, c, ManualPull, Next(d, step));
      case EndPull(c) => LeaveKeepsExclusive(d, c, Next(d, step));
      case EndProcess(c) => LeaveKeepsExclusive(d, c, Next(d, step));
      case ManualPulled(c) => PulledKeepsExclusive(d, c);
      case EndManual(c) => LeaveKeepsExclusive(d, c, Next(d, step));
    }
  }

  lemma {:induction false} RunKeepsExclusive(steps: seq<Step>)
    ensures Exclusive(Run(NEW_DRAIN, steps))
  {
    if steps != [] {
      RunKeepsExclusive(steps[..|steps| - 1]);
      StepKeepsExclusive(Run(NEW_DRAIN, steps[..|steps| - 1]), steps[|steps| - 1]);
    }
  }

  /** In every interleaving at most one caller pulls and at most one processes, and while a manual command
      runs nobody else does either, not even between its pull and its processing. */
  lemma StagesAreExclusive(steps: seq<Step>, a: nat, b: nat)
    requires var d := Run(NEW_DRAIN, steps); a in d.callers && b in d.callers && a != b
    ensures var d := Run(NEW_DRAIN, steps);
      && !(HoldsPull(d.callers[a]) && HoldsPull(d.callers[b]))
      && !(HoldsProcess(d.callers[a]) && HoldsProcess(d.callers[b]))
      && !IsManual(d.callers[a])
  {
    RunKeepsExclusive(steps);
  }

  /** Pulling and processing do not block each other: with no manual command, each background stage is
      admitted exactly when it is not already running. */
  lemma BackgroundStagesAreIndependent(steps: seq<Step>, c: nat)
    requires var d := Run(NEW_DRAIN, steps); c !in d.callers && !d.manualRunning
    ensures var d := Run(NEW_DRAIN, steps);
      && (Enabled(d, BeginProcess(c)) <==> forall x :: x in d.callers ==> !d.callers[x].Processing?)
      && (Enabled(d, BeginPull(c)) <==> forall x :: x in d.callers ==> !d.callers[x].Pulling?)
  {
    RunKeepsExclusive(steps);
  }

  /** The fields of the drain; each method is one section under its mutex. */
  class RedisDrain {
    var manualRunning: bool
    var pullRunning: bool
    var processRunning: bool
    ghost var callers: map<nat, Activity>

    ghost function State(): Drain
      reads this
    {
      Drain(manualRunning, pullRunning, processRunning, callers)
    }

    constructor ()
      ensures State() == NEW_DRAIN
    {
      manualRunning, pullRunning, processRunning, callers := false, false, false, map[];
    }

    method BeginManualSync(ghost caller: nat) returns (admitted: bool)
      requires caller !in callers
      modifies this
      ensures State() == Next(old(State()), BeginManual(caller))
      ensures admitted <==> Enabled(old(State()), BeginManual(caller))
    {
      if manualRunning || pullRunning || processRunning {
        return false;
      }
      manualRunning := true;
      pullRunning := true;
      processRunning := true;
      callers := callers[caller := ManualPull];
      return true;
    }

    method EndManualSync(ghost caller: nat)
      requires Doing(State(), caller, ManualPull) || Doing(State(), caller, ManualProcess)
      modifies this
      ensures State() == Next(old(State()), EndManual(caller))
    {
      manualRunning := false;
      pullRunning := false;
      processRunning := false;
      callers := callers - {caller};
    }

    method EnterPull(ghost caller: nat) returns (admitted: bool)
      requires caller !in callers
      modifies this
      ensures State() == Next(old(State()), BeginPull(caller))
      ensures admitted <==> Enabled(old(State()), BeginPull(caller))
    {
      if pullRunning {
        return false;
      }
      pullRunning := true;
      callers := callers[caller := Pulling];
      return true;
    }

    method LeavePull(ghost caller: nat)
      requires Doing(State(), caller, Pulling)
      modifies this
      ensures State() == Next(old(State()), EndPull(caller))
    {
      pullRunning := false;
      callers := callers - {caller};
    }

    method EnterProcess(ghost caller: nat) returns (admitted: bool)
      requires caller !in callers
      modifies this
      ensures State() == Next(old(State()), BeginProcess(caller))
      ensures admitted <==> Enabled(old(State()), BeginProcess(caller))
    {
      if processRunning {
        return false;
      }
      processRunning := true;
      callers := callers[caller := Processing];
      return true;
    }

    method LeaveProcess(ghost caller: nat)
      requires Doing(State(), caller, Processing)
      modifies this
      ensures State() == Next(old(State()), EndProcess(caller))
    {
      processRunning := false;
      callers := callers - {caller};
    }
  }
}
