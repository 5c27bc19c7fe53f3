/** Refresh workers: admission under the lifecycle lock, five worker tokens, cancellation and stop, as a
    machine whose steps are the lock-protected sections (internal/quota/refresh.go). */
module RefreshWorkers {
  import opened Accounting
  import opened RefreshTasks

  const WORKER_TOKENS := 5

  /** Where a worker is: waiting for a token, holding one before its task runs, checking, finished but
      still holding the token, or past its last deferred call but `Done`. */
  datatype Worker = Waiting | Holding | Checking | Releasing | Leaving

  /** The service: its tasks, one worker per accepted task, the wait group count, the tokens in use, and
      the lifecycle flags; `stopped` once `StopRefreshWorkers` has returned. */
  datatype Service = Service(
    tasks: Tasks, workers: map<nat, Worker>, waiting: int, tokens: int,
    closed: bool, cancelled: bool, stopped: bool)

  datatype Step =
    | Admit(auth: string)
    | TakeToken(id: nat) | Abort(id: nat, now: int) | Start(id: nat) | Check(id: nat, ok: bool, now: int)
    | Release(id: nat) | Exit(id: nat)
    | Expire(now: int)
    | CloseAdmission | Cancel | StopReturns

  predicate Is(s: Service, id: nat, at: Worker) { id in s.workers && s.workers[id] == at }

  /** Whether a step can be taken; a step that cannot leaves the service as it is. */
  predicate Enabled(s: Service, step: Step) {
    match step
    case Admit(auth) => !s.closed && !s.cancelled
    case TakeToken(id) => Is(s, id, Waiting) && s.tokens < WORKER_TOKENS
    case Abort(id, _) => Is(s, id, Waiting) && s.cancelled
    case Start(id) => Is(s, id, Holding)
    case Check(id, _, _) => Is(s, id, Checking)
    case Release(id) => Is(s, id, Releasing)
    case Exit(id) => Is(s, id, Leaving)
    case Expire(_) => true
    case CloseAdmission => true
    case Cancel => true
    case StopReturns => s.closed && s.cancelled && s.waiting == 0
  }

  function At(s: Service, id: nat, at: Worker): Service { s.(workers := s.workers[id := at]) }

  /** `startRefreshTask`. */
  function Admitted(s: Service, auth: string): Service {
    if HasActive(s.tasks, auth) then s
    else s.(tasks := Enqueued(s.tasks, auth), workers := s.workers[s.tasks.sequence + 1 := Waiting],
            waiting := s.waiting + 1)
  }

  function Next(s: Service, step: Step): Service {
    if !Enabled(s, step) then s
    else match step
      case Admit(auth) => Admitted(s, auth)
      case TakeToken(id) => At(s, id, Holding).(tokens := s.tokens + 1)
      case Abort(id, now) => At(s, id, Leaving).(tasks := Finished(s.tasks, id, Failed, now + TASK_TTL))
      case Start(id) => At(s, id, if CanRun(s.tasks, id) then Checking else Releasing).(tasks := Started(s.tasks, id))
      case Check(id, ok, now) =>
        At(s, id, Releasing).(tasks := Finished(s.tasks, id, if ok then Completed else Failed, now + TASK_TTL))
      case Release(id) => At(s, id, Leaving).(tokens := s.tokens - 1)
      case Exit(id) => s.(workers := s.workers - {id}, waiting := s.waiting - 1)
      case Expire(now) => s.(tasks := CleanedUp(s.tasks, now))
      case CloseAdmission => s.(closed := true)
      case Cancel => s.(cancelled := true)
      case StopReturns => s.(stopped := true)
  }

  function Run(s: Service, steps: seq<Step>): Service {
    if steps == [] then s else Next(Run(s, steps[..|steps| - 1]), steps[|steps| - 1])
  }

  const NEW_SERVICE := Service(Tasks(map[], map[], 0), map[], 0, 0, false, false, false)

  // The invariant

  predicate HoldsToken(w: Worker) { w.Holding? || w.Checking? || w.Releasing? }

  ghost function Holders(workers: map<nat, Worker>): set<nat> { set id | id in workers && HoldsToken(workers[id]) }

  /** A task is queued exactly while its worker waits or holds a token before running, and running
      exactly while its worker checks. */
  ghost predicate TaskMatches(s: Service, id: nat) {
    && (id in s.tasks.tasks && s.tasks.tasks[id].status.Queued? <==> Is(s, id, Waiting) || Is(s, id, Holding))
    && (id in s.tasks.tasks && s.tasks.tasks[id].status.Running? <==> Is(s, id, Checking))
  }

  ghost predicate Counted(s: Service) { s.waiting == |s.workers| && s.tokens == |Holders(s.workers)| }

  ghost predicate Inv(s: Service) {
    && Indexed(s.tasks)
    && (forall id :: TaskMatches(s, id))
    && (forall id :: id in s.workers ==> id <= s.tasks.sequence)
    && Counted(s) && s.tokens <= WORKER_TOKENS
    && (s.stopped ==> s.closed && s.workers == map[])
  }

  lemma HoldersMoved(workers: map<nat, Worker>, id: nat, w: Worker)
    ensures var after := workers[id := w];
      Holders(after) == if HoldsToken(w) then Holders(workers) + {id} else Holders(workers) - {id}
  {
  }

  lemma AdmitCounted(s: Service, auth: string)
    requires Inv(s) && !HasActive(s.tasks, auth)
    ensures Counted(Admitted(s, auth))
  {
    var id, after := s.tasks.sequence + 1, Admitted(s, auth).workers;
    HoldersMoved(s.workers, id, Waiting);
    assert after.Keys == s.workers.Keys + {id};
    assert Holders(after) == Holders(s.workers);
  }

  lemma AdmitMatches(s: Service, auth: string, i: nat)
    requires Indexed(s.tasks) && TaskMatches(s, i) && !HasActive(s.tasks, auth)
    ensures TaskMatches(Admitted(s, auth), i)
  {
    var id, s' := s.tasks.sequence + 1, Admitted(s, auth);
    if i == id {
      assert s'.tasks.tasks[i] == Task(auth, Queued, None) && s'.workers[i] == Waiting;
    } else {
      assert i in s'.tasks.tasks <==> i in s.tasks.tasks;
      assert i in s.tasks.tasks ==> s'.tasks.tasks[i] == s.tasks.tasks[i];
      assert i in s'.workers <==> i in s.workers;
      assert i in s.workers ==> s'.workers[i] == s.workers[i];
    }
  }

  lemma AdmitKeepsInv(s: Service, auth: string)
    requires Inv(s) && !s.closed
    ensures Inv(Admitted(s, auth))
  {
    if !HasActive(s.tasks, auth) {
      assert Indexed(Enqueued(s.tasks, auth)) by { EnqueueKeepsIndexed(s.tasks, auth); }
      AdmitCounted(s, auth);
      forall i ensures TaskMatches(Admitted(s, auth), i) {
        AdmitMatches(s, auth, i);
      }
    }
  }

  lemma HoldersCount(workers: map<nat, Worker>, id: nat, at: Worker)
    requires id in workers
    ensures |Holders(workers[id := at])|
      == |Holders(workers)| + (if HoldsToken(at) then 1 else 0) - (if HoldsToken(workers[id]) then 1 else 0)
  {
    HoldersMoved(workers, id, at);
    var before := Holders(workers);
    if HoldsToken(workers[id]) {
      assert before + {id} == before;
    } else {
      assert before - {id} == before;
    }
  }

  /** A worker that moves on, keeping its place in the table. */
  lemma MoveCounted(s: Service, id: nat, at: Worker, tokens: int)
    requires Counted(s) && id in s.workers
    requires tokens == s.tokens + (if HoldsToken(at) then 1 else 0) - (if HoldsToken(s.workers[id]) then 1 else 0)
    ensures Counted(At(s, id, at).(tokens := tokens))
  {
    HoldersCount(s.workers, id, at);
    assert s.workers[id := at].Keys == s.workers.Keys;
  }

  lemma MoveMatches(s: Service, id: nat, at: Worker, tasks: Tasks)
    requires Inv(s) && id in s.workers
    requires forall i :: i != id ==>
      (i in tasks.tasks <==> i in s.tasks.tasks)
        && (i in tasks.tasks ==> tasks.tasks[i].status == s.tasks.tasks[i].status)
    requires TaskMatches(At(s, id, at).(tasks := tasks), id)
    ensures forall i :: TaskMatches(At(s, id, at).(tasks := tasks), i)
  {
    forall i ensures TaskMatches(At(s, id, at).(tasks := tasks), i) {
      assert TaskMatches(s, i);
    }
  }

  /** One step of one worker. */
  lemma WorkerMoveKeepsInv(s: Service, id: nat, at: Worker, tasks: Tasks, tokens: int)
    requires Inv(s) && id in s.workers && Indexed(tasks) && s.tasks.sequence == tasks.sequence
    requires forall i :: i != id ==>
      (i in tasks.tasks <==> i in s.tasks.tasks)
        && (i in tasks.tasks ==> tasks.tasks[i].status == s.tasks.tasks[i].status)
    requires TaskMatches(At(s, id, at).(tasks := tasks), id)
    requires tokens == s.tokens + (if HoldsToken(at) then 1 else 0) - (if HoldsToken(s.workers[id]) then 1 else 0)
    requires tokens <= WORKER_TOKENS
    ensures Inv(At(s, id, at).(tasks := tasks, tokens := tokens))
  {
    var s' := At(s, id, at).(tasks := tasks, tokens := tokens);
    MoveMatches(s, id, at, tasks);
    MoveCounted(s, id, at, tokens);
    forall i ensures TaskMatches(s', i) {
      assert TaskMatches(At(s, id, at).(tasks := tasks), i);
    }
  }

  lemma TakeKeepsInv(s: Service, id: nat)
    requires Inv(s) && Is(s, id, Waiting) && s.tokens < WORKER_TOKENS
    ensures Inv(Next(s, TakeToken(id)))
  {
    assert TaskMatches(s, id);
    WorkerMoveKeepsInv(s, id, Holding, s.tasks, s.tokens + 1);
  }

  lemma StartKeepsInv(s: Service, id: nat)
    requires Inv(s) && Is(s, id, Holding)
    ensures Inv(Next(s, Start(id)))
  {
    assert TaskMatches(s, id);
    FinishKeepsIndexed(s.tasks, id, Failed, 0);
    WorkerMoveKeepsInv(s, id, Checking, Started(s.tasks, id), s.tokens);
  }

  lemma ReleaseKeepsInv(s: Service, id: nat)
    requires Inv(s) && Is(s, id, Releasing)
    ensures Inv(Next(s, Release(id)))
  {
    assert TaskMatches(s, id);
    WorkerMoveKeepsInv(s, id, Leaving, s.tasks, s.tokens - 1);
  }

  lemma FinishingStepKeepsInv(s: Service, id: nat, at: Worker, status: TaskStatus, expiresAt: int)
    requires Inv(s) && id in s.workers && (status.Completed? || status.Failed?)
    requires at.Leaving? || at.Releasing?
    requires HoldsToken(at) == HoldsToken(s.workers[id])
    ensures Inv(At(s, id, at).(tasks := Finished(s.tasks, id, status, expiresAt)))
  {
    assert TaskMatches(s, id);
    FinishKeepsIndexed(s.tasks, id, status, expiresAt);
    WorkerMoveKeepsInv(s, id, at, Finished(s.tasks, id, status, expiresAt), s.tokens);
  }

  lemma ExitKeepsInv(s: Service, id: nat)
    requires Inv(s) && Is(s, id, Leaving)
    ensures Inv(Next(s, Exit(id)))
  {
    var s' := Next(s, Exit(id));
    assert s'.workers.Keys == s.workers.Keys - {id};
    assert Holders(s'.workers) == Holders(s.workers);
    forall i ensures TaskMatches(s', i) {
      assert TaskMatches(s, i);
    }
  }

  lemma ExpiryKeepsActive(t: Tasks, now: int, id: nat)
    requires Indexed(t)
    ensures var after := CleanedUp(t, now);
      && (id in after.tasks && after.tasks[id].status.Queued? <==> id in t.tasks && t.tasks[id].status.Queued?)
      && (id in after.tasks && after.tasks[id].status.Running? <==> id in t.tasks && t.tasks[id].status.Running?)
  {
  }

  lemma ExpireKeepsInv(s: Service, now: int)
    requires Inv(s)
    ensures Inv(s.(tasks := CleanedUp(s.tasks, now)))
  {
    var after := CleanedUp(s.tasks, now);
    assert Indexed(after) by { CleanupKeepsIndexed(s.tasks, now); }
    forall i ensures TaskMatches(s.(tasks := after), i) {
      ExpiryKeepsActive(s.tasks, now, i);
      assert TaskMatches(s, i);
    }
  }

  lemma FlagsKeepInv(s: Service, closed: bool, cancelled: bool, stopped: bool)
    requires Inv(s) && (s.closed ==> closed) && (stopped ==> closed && s.workers == map[])
    ensures Inv(s.(closed := closed, cancelled := cancelled, stopped := stopped))
  {
    forall i ensures TaskMatches(s.(closed := closed, cancelled := cancelled, stopped := stopped), i) {
      assert TaskMatches(s, i);
    }
  }

  lemma StepKeepsInv(s: Service, step: Step)
    requires Inv(s)
    ensures Inv(Next(s, step))
  {
    if Enabled(s, step) {
      match step
      case Admit(auth) => AdmitKeepsInv(s, auth);
      case TakeToken(id) => TakeKeepsInv(s, id);
      case Abort(id, now) => FinishingStepKeepsInv(s, id, Leaving, Failed, now + TASK_TTL);
      case Start(id) => StartKeepsInv(s, id);
      case Check(id, ok, now) =>
        FinishingStepKeepsInv(s, id, Releasing, if ok then Completed else Failed, now + TASK_TTL);
      case Release(id) => ReleaseKeepsInv(s, id);
      case Exit(id) => ExitKeepsInv(s, id);
      case Expire(now) => ExpireKeepsInv(s, now);
      case CloseAdmission => FlagsKeepInv(s, true, s.cancelled, s.stopped);
      case Cancel => FlagsKeepInv(s, s.closed, true, s.stopped);
      case StopReturns => FlagsKeepInv(s, s.closed, s.cancelled, true);
    }
  }

  /** In every interleaving the tables agree: every queued or running task has its live worker, the wait
      group counts the workers and at most five of them hold tokens. */
  lemma {:induction false} RunKeepsInv(steps: seq<Step>)
    ensures Inv(Run(NEW_SERVICE, steps))
  {
    if steps == [] {
      assert Holders(NEW_SERVICE.workers) == {};
    } else {
      RunKeepsInv(steps[..|steps| - 1]);
      StepKeepsInv(Run(NEW_SERVICE, steps[..|steps| - 1]), steps[|steps| - 1]);
    }
  }

  lemma ActiveTasksHaveWorkers(steps: seq<Step>, id: nat)
    requires var s := Run(NEW_SERVICE, steps); id in s.tasks.tasks && Active(s.tasks.tasks[id])
    ensures var s := Run(NEW_SERVICE, steps);
      id in s.workers && !s.workers[id].Leaving? && !s.workers[id].Releasing? && s.tokens <= 5
      && forall other :: other in s.tasks.tasks && Active(s.tasks.tasks[other]) ==>
        s.tasks.tasks[other].auth == s.tasks.tasks[id].auth ==> other == id
  {
    RunKeepsInv(steps);
    assert TaskMatches(Run(NEW_SERVICE, steps), id);
  }

  /** A worker that got its token always finds its task still queued. */
  lemma StartNeverFails(steps: seq<Step>, id: nat)
    requires Is(Run(NEW_SERVICE, steps), id, Holding)
    ensures CanRun(Run(NEW_SERVICE, steps).tasks, id)
  {
    RunKeepsInv(steps);
    assert TaskMatches(Run(NEW_SERVICE, steps), id);
  }

  // Outcomes

  /** The step ends a task with this record: by its check, or by giving up before it. */
  predicate Ends(s: Service, step: Step, id: nat, task: Task) {
    && Enabled(s, step)
    && match step
       case Check(i, ok, now) =>
         i == id && Is(s, id, Checking) && task.status == (if ok then Completed else Failed)
           && task.expiresAt == Some(now + 20 * 60 * 1_000_000_000)
       case Abort(i, now) =>
         i == id && s.cancelled && task.status == Failed && task.expiresAt == Some(now + 20 * 60 * 1_000_000_000)
       case _ => false
  }

  lemma StepEnds(s: Service, step: Step, id: nat)
    requires Inv(s) && id in Next(s, step).tasks.tasks && !Active(Next(s, step).tasks.tasks[id])
    ensures var task := Next(s, step).tasks.tasks[id];
      Ends(s, step, id, task) || (id in s.tasks.tasks && s.tasks.tasks[id] == task)
  {
    if Enabled(s, step) && (step.Check? || step.Abort?) && step.id == id {
      assert TaskMatches(s, id);
    }
  }

  /** A task that is finished was ended by a step of its own worker, as that step says: completed exactly by a
      successful
      check, and kept for twenty minutes from then. */
  lemma {:induction false} OutcomeIsOfItsStep(steps: seq<Step>, id: nat)
    requires var s := Run(NEW_SERVICE, steps); id in s.tasks.tasks && !Active(s.tasks.tasks[id])
    ensures var task := Run(NEW_SERVICE, steps).tasks.tasks[id];
      exists i :: 0 <= i < |steps| && Ends(Run(NEW_SERVICE, steps[..i]), steps[i], id, task)
  {
    if steps == [] {
      assert false;
    } else {
      var front, last := steps[..|steps| - 1], steps[|steps| - 1];
      RunKeepsInv(front);
      StepEnds(Run(NEW_SERVICE, front), last, id);
      var task := Run(NEW_SERVICE, steps).tasks.tasks[id];
      if !Ends(Run(NEW_SERVICE, front), last, id, task) {
        OutcomeIsOfItsStep(front, id);
        var i :| 0 <= i < |front| && Ends(Run(NEW_SERVICE, front[..i]), front[i], id, task);
        assert front[..i] == steps[..i] && front[i] == steps[i];
      }
    }
  }

  // Admission

  lemma AdmissionStaysShut(s: Service, step: Step)
    requires s.closed || s.cancelled
    ensures Next(s, step).closed || Next(s, step).cancelled
    ensures Next(s, step).workers.Keys <= s.workers.Keys && Next(s, step).tasks.sequence == s.tasks.sequence
  {
  }

  /** Once admission is closed or the service is cancelled, no task is numbered and no worker joins any more. */
  lemma {:induction false} NobodyJoins(s: Service, more: seq<Step>)
    requires s.closed || s.cancelled
    ensures Run(s, more).closed || Run(s, more).cancelled
    ensures Run(s, more).workers.Keys <= s.workers.Keys && Run(s, more).tasks.sequence == s.tasks.sequence
  {
    if more != [] {
      NobodyJoins(s, more[..|more| - 1]);
      AdmissionStaysShut(Run(s, more[..|more| - 1]), more[|more| - 1]);
    }
  }

  // Stopping

  lemma {:induction false} RunAppend(s: Service, a: seq<Step>, b: seq<Step>)
    ensures Run(s, a + b) == Run(Run(s, a), b)
  {
    if b == [] {
      assert a + b == a;
    } else {
      assert (a + b)[..|a + b| - 1] == a + b[..|b| - 1];
      RunAppend(s, a, b[..|b| - 1]);
    }
  }

  lemma FlagsStay(s: Service, step: Step)
    ensures s.stopped ==> Next(s, step).stopped
    ensures s.closed ==> Next(s, step).closed
  {
  }

  lemma {:induction false} StoppedStaysStopped(s: Service, more: seq<Step>)
    requires s.stopped
    ensures Run(s, more).stopped
  {
    if more != [] {
      StoppedStaysStopped(s, more[..|more| - 1]);
      FlagsStay(Run(s, more[..|more| - 1]), more[|more| - 1]);
    }
  }

  /** Once `StopRefreshWorkers` has returned, no task is queued or running, no worker is left, and
      whatever comes after, none can start. */
  lemma NothingRunsAfterStop(steps: seq<Step>, more: seq<Step>, id: nat)
    requires Run(NEW_SERVICE, steps).stopped
    ensures var s := Run(NEW_SERVICE, steps + more);
      s.workers == map[] && s.waiting == 0 && s.tokens == 0 && (id in s.tasks.tasks ==> !Active(s.tasks.tasks[id]))
  {
    RunAppend(NEW_SERVICE, steps, more);
    StoppedStaysStopped(Run(NEW_SERVICE, steps), more);
    RunKeepsInv(steps + more);
    var s := Run(NEW_SERVICE, steps + more);
    assert TaskMatches(s, id);
    assert Holders(s.workers) == {};
  }

  /** The steps a worker has left. */
  function Left(w: Worker): nat {
    match w
    case Waiting => 5
    case Holding => 4
    case Checking => 3
    case Releasing => 2
    case Leaving => 1
  }

  ghost function Work(workers: map<nat, Worker>, ids: set<nat>): nat
    requires ids <= workers.Keys
  {
    if ids == {} then 0
    else
      var id :| id in ids;
      Left(workers[id]) + Work(workers, ids - {id})
  }

  lemma {:induction false} WorkOf(workers: map<nat, Worker>, ids: set<nat>, id: nat)
    requires ids <= workers.Keys && id in ids
    ensures Work(workers, ids) == Left(workers[id]) + Work(workers, ids - {id})
    decreases |ids|
  {
    var first :| first in ids && Work(workers, ids) == Left(workers[first]) + Work(workers, ids - {first});
    if first != id {
      WorkOf(workers, ids - {first}, id);
      WorkOf(workers, ids - {id}, first);
      assert ids - {first} - {id} == ids - {id} - {first};
    }
  }

  lemma {:induction false} SameWork(a: map<nat, Worker>, b: map<nat, Worker>, ids: set<nat>)
    requires ids <= a.Keys && ids <= b.Keys && forall id :: id in ids ==> a[id] == b[id]
    ensures Work(a, ids) == Work(b, ids)
    decreases |ids|
  {
    if ids != {} {
      var id :| id in ids;
      WorkOf(a, ids, id);
      WorkOf(b, ids, id);
      SameWork(a, b, ids - {id});
    }
  }

  predicate WorkerStep(step: Step) {
    step.TakeToken? || step.Abort? || step.Start? || step.Check? || step.Release? || step.Exit?
  }

  /** Every step of a worker leaves less work. */
  lemma WorkerStepsFinish(s: Service, step: Step)
    requires WorkerStep(step) && Enabled(s, step)
    ensures Work(Next(s, step).workers, Next(s, step).workers.Keys) < Work(s.workers, s.workers.Keys)
  {
    var id, after := step.id, Next(s, step).workers;
    WorkOf(s.workers, s.workers.Keys, id);
    SameWork(s.workers, after, s.workers.Keys - {id});
    if step.Exit? {
      assert after.Keys == s.workers.Keys - {id};
    } else {
      assert after.Keys == s.workers.Keys;
      WorkOf(after, after.Keys, id);
    }
  }

  /** No deadlock: while any worker is left, some worker can take a step, so that the wait of
      `StopRefreshWorkers` ends after at most `Work` further worker steps. */
  lemma SomeWorkerCanMove(s: Service) returns (step: Step)
    requires Inv(s) && s.workers != map[]
    ensures WorkerStep(step) && Enabled(s, step)
  {
    if holder :| holder in s.workers && !s.workers[holder].Waiting? {
      match s.workers[holder]
      case Holding => step := Start(holder);
      case Checking => step := Check(holder, true, 0);
      case Releasing => step := Release(holder);
      case Leaving => step := Exit(holder);
    } else {
      var id :| id in s.workers;
      assert Holders(s.workers) == {};
      step := TakeToken(id);
    }
  }

  /** After cancellation every worker can take its next step, whatever the others do. */
  lemma CancelledWorkersCanMove(s: Service, id: nat) returns (step: Step)
    requires Inv(s) && s.cancelled && id in s.workers
    ensures WorkerStep(step) && step.id == id && Enabled(s, step)
  {
    match s.workers[id]
    case Waiting => step := Abort(id, 0);
    case Holding => step := Start(id);
    case Checking => step := Check(id, false, 0);
    case Releasing => step := Release(id);
    case Leaving => step := Exit(id);
  }

  /** The worker steps a run takes. */
  function Moves(s: Service, steps: seq<Step>): nat {
    if steps == [] then 0
    else
      var front, last := steps[..|steps| - 1], steps[|steps| - 1];
      Moves(s, front) + if WorkerStep(last) && Enabled(Run(s, front), last) then 1 else 0
  }

  lemma {:induction false} ClosedStaysClosed(s: Service, steps: seq<Step>)
    requires s.closed
    ensures Run(s, steps).closed
  {
    if steps != [] {
      ClosedStaysClosed(s, steps[..|steps| - 1]);
      FlagsStay(Run(s, steps[..|steps| - 1]), steps[|steps| - 1]);
    }
  }

  /** The wait of `StopRefreshWorkers` is bounded: in any run after admission closed the workers take at most
      as many steps as were left to them, whatever comes between, and once they took them none is left. */
  lemma {:induction false} DrainIsBounded(s: Service, steps: seq<Step>)
    requires s.closed
    ensures var after := Run(s, steps).workers;
      && Moves(s, steps) + Work(after, after.Keys) <= Work(s.workers, s.workers.Keys)
      && (Moves(s, steps) == Work(s.workers, s.workers.Keys) ==> after == map[])
  {
    if steps != [] {
      var front, last := steps[..|steps| - 1], steps[|steps| - 1];
      DrainIsBounded(s, front);
      ClosedStaysClosed(s, front);
      if WorkerStep(last) && Enabled(Run(s, front), last) {
        WorkerStepsFinish(Run(s, front), last);
      } else {
        assert Run(s, steps).workers == Run(s, front).workers;
      }
    }
    var after := Run(s, steps).workers;
    if id :| id in after {
      WorkOf(after, after.Keys, id);
    }
  }
}
