/** The transient store of quota refresh tasks: two maps kept in step under one lock
    (internal/quota/refresh_task_store.go). */
module RefreshTasks {
  import opened Accounting

  datatype TaskStatus = Queued | Running | Completed | Failed

  /** A task record; `expiresAt` is `None` for Go's zero time. */
  datatype Task = Task(auth: string, status: TaskStatus, expiresAt: Option<int>)

  predicate Active(t: Task) { t.status.Queued? || t.status.Running? }

  /** Task ids are "quota-refresh-n"; the number stands for the id. */
  datatype Tasks = Tasks(tasks: map<nat, Task>, byAuth: map<string, nat>, sequence: nat)

  predicate HasActive(t: Tasks, auth: string) {
    auth in t.byAuth && t.byAuth[auth] in t.tasks && Active(t.tasks[t.byAuth[auth]])
  }

  function Enqueued(t: Tasks, auth: string): Tasks {
    if HasActive(t, auth) then t
    else
      var id := t.sequence + 1;
      Tasks(t.tasks[id := Task(auth, Queued, None)], t.byAuth[auth := id], id)
  }

  predicate CanRun(t: Tasks, id: nat) { id in t.tasks && t.tasks[id].status.Queued? }

  function Started(t: Tasks, id: nat): Tasks {
    if CanRun(t, id) then t.(tasks := t.tasks[id := t.tasks[id].(status := Running)]) else t
  }

  function Finished(t: Tasks, id: nat, status: TaskStatus, expiresAt: int): Tasks {
    if id !in t.tasks then t
    else t.(tasks := t.tasks[id := t.tasks[id].(status := status, expiresAt := Some(expiresAt))])
  }

  predicate IsExpired(task: Task, now: int) { task.expiresAt.Some? && task.expiresAt.value <= now }

  function ExpiredIds(t: Tasks, now: int): set<nat> { set id | id in t.tasks && IsExpired(t.tasks[id], now) }

  /** Both maps without the given tasks. */
  function Without(t: Tasks, ids: set<nat>): Tasks {
    t.(tasks := t.tasks - ids, byAuth := map auth | auth in t.byAuth && t.byAuth[auth] !in ids :: t.byAuth[auth])
  }

  /** One deletion: a refresh task, and its index entry if that still leads to it. */
  function Deleted(t: Tasks, id: nat): Tasks
    requires id in t.tasks
  {
    var auth := t.tasks[id].auth;
    t.(tasks := t.tasks - {id},
       byAuth := if auth in t.byAuth && t.byAuth[auth] == id then t.byAuth - {auth} else t.byAuth)
  }

  lemma DeletedStep(t: Tasks, gone: set<nat>, id: nat)
    requires Indexed(t) && id in t.tasks && id !in gone
    ensures Deleted(Without(t, gone), id) == Without(t, gone + {id})
  {
    assert Deleted(Without(t, gone), id).tasks == Without(t, gone + {id}).tasks;
    assert Deleted(Without(t, gone), id).byAuth == Without(t, gone + {id}).byAuth;
  }

  function CleanedUp(t: Tasks, now: int): Tasks { Without(t, ExpiredIds(t, now)) }

  /** The two maps agree: the index leads from an identity to its own task, and an active task is always
      the indexed one, so that an identity has at most one. */
  ghost predicate Indexed(t: Tasks) {
    && (forall id :: id in t.tasks ==> 0 < id <= t.sequence)
    && (forall auth :: auth in t.byAuth ==> t.byAuth[auth] in t.tasks && t.tasks[t.byAuth[auth]].auth == auth)
    && (forall id :: id in t.tasks && Active(t.tasks[id]) ==>
       t.tasks[id].auth in t.byAuth && t.byAuth[t.tasks[id].auth] == id)
    && (forall id :: id in t.tasks ==> (t.tasks[id].expiresAt.None? <==> Active(t.tasks[id])))
  }

  /** The clean-up with the tasks `rest` still to visit. */
  function CleaningUp(t: Tasks, now: int, rest: set<nat>): Tasks { Without(t, ExpiredIds(t, now) - rest) }

  lemma CleanupBegins(t: Tasks, now: int)
    ensures CleaningUp(t, now, t.tasks.Keys) == t
  {
    assert ExpiredIds(t, now) - t.tasks.Keys == {};
  }

  lemma CleanupEnds(t: Tasks, now: int)
    ensures CleaningUp(t, now, {}) == CleanedUp(t, now)
  {
    assert ExpiredIds(t, now) - {} == ExpiredIds(t, now);
  }

  function Visited(t: Tasks, now: int, id: nat): Tasks
    requires id in t.tasks
  {
    if IsExpired(t.tasks[id], now) then Deleted(t, id) else t
  }

  /** Visiting one more task of the loop over all tasks. */
  lemma CleanupStep(t: Tasks, now: int, rest: set<nat>, id: nat)
    requires Indexed(t) && rest <= t.tasks.Keys && id in rest
    ensures id in CleaningUp(t, now, rest).tasks
    ensures Visited(CleaningUp(t, now, rest), now, id) == CleaningUp(t, now, rest - {id})
  {
    var gone := ExpiredIds(t, now) - rest;
    if IsExpired(t.tasks[id], now) {
      DeletedStep(t, gone, id);
      assert ExpiredIds(t, now) - (rest - {id}) == gone + {id};
    } else {
      assert ExpiredIds(t, now) - (rest - {id}) == gone;
    }
  }

  /** The task has an expiry time that is not in the future. */
  predicate EndsBy(task: Task, now: int) { task.expiresAt.Some? && now >= task.expiresAt.value }

  /** At most one queued or running task per identity. */
  lemma OneActivePerAuth(t: Tasks, a: nat, b: nat)
    requires Indexed(t) && a in t.tasks && b in t.tasks && Active(t.tasks[a]) && Active(t.tasks[b])
    requires t.tasks[a].auth == t.tasks[b].auth
    ensures a == b
  {
  }

  lemma EnqueueKeepsIndexed(t: Tasks, auth: string)
    requires Indexed(t)
    ensures Indexed(Enqueued(t, auth)) && HasActive(Enqueued(t, auth), auth)
    ensures !HasActive(t, auth) ==> t.sequence + 1 !in t.tasks
  {
  }

  lemma FinishKeepsIndexed(t: Tasks, id: nat, status: TaskStatus, expiresAt: int)
    requires Indexed(t) && (status.Completed? || status.Failed?)
    ensures Indexed(Started(t, id)) && Indexed(Finished(t, id, status, expiresAt))
  {
  }

  /** Expiry removes finished tasks only, and leaves no index entry behind. */
  lemma CleanupKeepsIndexed(t: Tasks, now: int)
    requires Indexed(t)
    ensures Indexed(CleanedUp(t, now))
    ensures forall id :: id in t.tasks && Active(t.tasks[id]) ==>
      id in CleanedUp(t, now).tasks && CleanedUp(t, now).tasks[id] == t.tasks[id]
    ensures forall auth :: HasActive(t, auth) <==> HasActive(CleanedUp(t, now), auth)
  {
  }

  const TASK_TTL := 20 * 60 * 1_000_000_000

  class RefreshTaskStore {
    var tasks: map<nat, Task>
    var activeTaskIDsByAuth: map<string, nat>
    var sequence: nat

    ghost predicate Valid()
      reads this
    {
      Indexed(Contents())
    }

    ghost function Contents(): Tasks
      reads this
    {
      Tasks(tasks, activeTaskIDsByAuth, sequence)
    }

    constructor ()
      ensures Valid() && Contents() == Tasks(map[], map[], 0)
    {
      tasks, activeTaskIDsByAuth, sequence := map[], map[], 0;
    }

    method Enqueue(auth: string) returns (id: nat, created: bool)
      requires Valid()
      modifies this
      ensures Valid()
      ensures Contents() == Enqueued(old(Contents()), auth)
      ensures created <==> !HasActive(old(Contents()), auth)
      ensures id in tasks && tasks[id].auth == auth && Active(tasks[id])
      ensures created ==> id == sequence == old(sequence) + 1 && tasks == old(tasks)[id := Task(auth, Queued, None)]
      ensures !created ==> tasks == old(tasks) && id in old(tasks)
    {
      EnqueueKeepsIndexed(Contents(), auth);
      if auth in activeTaskIDsByAuth {
        var existing := activeTaskIDsByAuth[auth];
        if existing in tasks && Active(tasks[existing]) {
          return existing, false;
        }
      }
      sequence := sequence + 1;
      tasks := tasks[sequence := Task(auth, Queued, None)];
      activeTaskIDsByAuth := activeTaskIDsByAuth[auth := sequence];
      return sequence, true;
    }

    method MarkRunning(id: nat) returns (auth: Option<string>)
      requires Valid()
      modifies this`tasks
      ensures Valid()
      ensures Contents() == Started(old(Contents()), id)
      ensures auth.Some? <==> CanRun(old(Contents()), id)
      ensures auth.Some? ==> auth.value == tasks[id].auth && tasks[id].status.Running? && old(tasks)[id].status.Queued?
      ensures auth.None? ==> tasks == old(tasks)
    {
      FinishKeepsIndexed(Contents(), id, Failed, 0);
      if id !in tasks || !tasks[id].status.Queued? {
        return None;
      }
      tasks := tasks[id := tasks[id].(status := Running)];
      return Some(tasks[id].auth);
    }

    /** `markCompleted` and `markFailed`. */
    method MarkFinished(id: nat, completed: bool, now: int)
      requires Valid()
      modifies this`tasks
      ensures Valid()
      ensures Contents() == Finished(old(Contents()), id, if completed then Completed else Failed, now + TASK_TTL)
      ensures id in old(tasks) ==> tasks == old(tasks)[
        id := Task(old(tasks)[id].auth, if completed then Completed else Failed, Some(now + 1_200_000_000_000))]
      ensures id !in old(tasks) ==> tasks == old(tasks)
    {
      FinishKeepsIndexed(Contents(), id, if completed then Completed else Failed, now + TASK_TTL);
      if id in tasks {
        tasks :=
          tasks[id := tasks[id].(status := if completed then Completed else Failed, expiresAt := Some(now + TASK_TTL))];
      }
    }

    method CleanupExpired(now: int)
      requires Valid()
      modifies this`tasks, this`activeTaskIDsByAuth
      ensures Valid()
      ensures Contents() == CleanedUp(old(Contents()), now)
      ensures forall id :: id in tasks <==> id in old(tasks) && !EndsBy(old(tasks)[id], now)
      ensures forall id :: id in tasks ==> tasks[id] == old(tasks)[id]
    {
      ghost var before := Contents();
      CleanupBegins(before, now);
      var rest := tasks.Keys;
      while rest != {}
        invariant rest <= before.tasks.Keys
        invariant Contents() == CleaningUp(before, now, rest)
        decreases |rest|
      {
        var id :| id in rest;
        CleanupStep(before, now, rest, id);
        Visit(id, now);
        rest := rest - {id};
      }
      CleanupEnds(before, now);
      CleanupKeepsIndexed(before, now);
    }

    method Visit(id: nat, now: int)
      requires id in tasks
      modifies this`tasks, this`activeTaskIDsByAuth
      ensures Contents() == Visited(old(Contents()), now, id)
    {
      if IsExpired(tasks[id], now) {
        DeleteTask(id);
      }
    }

    method DeleteTask(id: nat)
      requires id in tasks
      modifies this`tasks, this`activeTaskIDsByAuth
      ensures Contents() == Deleted(old(Contents()), id)
    {
      var task := tasks[id];
      tasks := tasks - {id};
      if task.auth in activeTaskIDsByAuth && activeTaskIDsByAuth[task.auth] == id {
        activeTaskIDsByAuth := activeTaskIDsByAuth - {task.auth};
      }
    }
  }
}
