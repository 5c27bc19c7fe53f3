/** The refresh entry point: validating, deduplicating and admitting the requested auth indexes
    (internal/quota/refresh.go). */
module RefreshRequests {
  import opened Accounting
  import opened RefreshTasks
  import opened Trimming

  datatype Rejection = Invalid | Duplicate | Unsupported | NotAuthFile | NotFound | Unavailable

  /** What the repository says of an auth index. */
  datatype Validation = Valid | Rejected(reason: Rejection) | LookupFailed

  datatype Accept = Accept(auth: string, task: nat)

  datatype Refusal = Refusal(auth: string, reason: Rejection)

  /** The answer under construction, and the indexes seen. */
  datatype Progress = Progress(tasks: seq<Accept>, rejected: seq<Refusal>, seen: set<string>)

  datatype Response =
    | LimitRequired | Aborted
    | Response(tasks: seq<Accept>, rejected: seq<Refusal>, accepted: int, skipped: int)

  /** The requested indexes, trimmed. */
  function Names(authIndexes: seq<string>): (names: seq<string>)
    ensures |names| == |authIndexes|
  {
    seq(|authIndexes|, i requires 0 <= i < |authIndexes| => TrimSpace(authIndexes[i]))
  }

  /** A requested index that passes validation. */
  predicate Requested(names: seq<string>, validate: string -> Validation, auth: string) {
    auth != "" && validate(auth).Valid? && auth in names
  }

  ghost predicate QueuedFor(t: Tasks, a: Accept) { a.task in t.tasks && t.tasks[a.task] == Task(a.auth, Queued, None) }

  /** Two of the requested indexes are the same after trimming. */
  ghost predicate Repeated(names: seq<string>, auth: string) {
    exists i, j :: 0 <= i < j < |names| && names[i] == auth == names[j]
  }

  /** The reason of a refusal holds: a blank index or a reached limit, a closed service, an index repeated in
      the request or with a task under way, or what validation said. */
  ghost predicate Justified(names: seq<string>, validate: string -> Validation, limitReached: bool, unavailable: bool,
                            t: Tasks, r: Refusal)
  {
    || (r.auth != "" && validate(r.auth) == Rejected(r.reason))
    || match r.reason
       case Invalid => r.auth == "" || limitReached
       case Unavailable => unavailable
       case Duplicate => r.auth != "" && (Repeated(names, r.auth) || HasActive(t, r.auth))
       case _ => false
  }

  ghost predicate AllJustified(names: seq<string>, validate: string -> Validation, limitReached: bool,
                               unavailable: bool,
                               t: Tasks, rejected: seq<Refusal>)
  {
    forall r :: r in rejected ==> Justified(names, validate, limitReached, unavailable, t, r)
  }

  /** Accepted indexes are distinct and requested, each with a queued task numbered after `first`. */
  ghost predicate Accepted(names: seq<string>, validate: string -> Validation, t: Tasks, first: nat,
                           tasks: seq<Accept>) {
    && (forall i :: 0 <= i < |tasks| ==>
      && Requested(names, validate, tasks[i].auth) && QueuedFor(t, tasks[i]) && first < tasks[i].task <= t.sequence)
    && forall i, j :: 0 <= i < j < |tasks| ==> tasks[i].auth != tasks[j].auth
  }

  /** What the loop has seen: the trimmed indexes so far, among them every accepted one. */
  ghost predicate SeenSoFar(names: seq<string>, n: nat, seen: set<string>, tasks: seq<Accept>)
    requires n <= |names|
  {
    && (forall auth :: auth in seen ==> exists i :: 0 <= i < n && names[i] == auth)
    && forall i :: 0 <= i < |tasks| ==> tasks[i].auth in seen
  }

  lemma SeenMore(names: seq<string>, n: nat, seen: set<string>, tasks: seq<Accept>)
    requires n < |names| && SeenSoFar(names, n, seen, tasks)
    ensures SeenSoFar(names, n + 1, seen, tasks)
    ensures SeenSoFar(names, n + 1, seen + {names[n]}, tasks)
    ensures names[n] in seen ==> Repeated(names, names[n])
  {
  }

  lemma AcceptMore(names: seq<string>, validate: string -> Validation, t: Tasks, first: nat, tasks: seq<Accept>,
                   auth: string)
    requires Indexed(t) && !HasActive(t, auth) && first <= t.sequence && Requested(names, validate, auth)
    requires Accepted(names, validate, t, first, tasks) && forall i :: 0 <= i < |tasks| ==> tasks[i].auth != auth
    ensures Accepted(names, validate, Enqueued(t, auth), first, tasks + [Accept(auth, t.sequence + 1)])
  {
  }

  lemma StillJustified(names: seq<string>, validate: string -> Validation, unavailable: bool, t: Tasks, auth: string,
                       rejected: seq<Refusal>, limitReached: bool)
    requires Indexed(t) && AllJustified(names, validate, false, unavailable, t, rejected)
    ensures AllJustified(names, validate, limitReached, unavailable, Enqueued(t, auth), rejected)
  {
    forall r | r in rejected ensures Justified(names, validate, limitReached, unavailable, Enqueued(t, auth), r) {
      assert Justified(names, validate, false, unavailable, t, r);
    }
  }

  lemma JustifiedMore(names: seq<string>, validate: string -> Validation, limitReached: bool, unavailable: bool,
                      t: Tasks,
                      rejected: seq<Refusal>, r: Refusal)
    requires AllJustified(names, validate, limitReached, unavailable, t, rejected)
    requires Justified(names, validate, limitReached, unavailable, t, r)
    ensures AllJustified(names, validate, limitReached, unavailable, t, rejected + [r])
  {
  }

  /** The answer names the index: as accepted, or as refused. */
  ghost predicate Answered(auth: string, tasks: seq<Accept>, rejected: seq<Refusal>) {
    || (exists a :: a in tasks && a.auth == auth)
    || (exists r :: r in rejected && r.auth == auth)
  }

  /** The answer has grown, and now names the index. */
  ghost predicate Answers(p: Progress, q: Progress, auth: string) {
    p.tasks <= q.tasks && p.rejected <= q.rejected && Answered(auth, q.tasks, q.rejected)
  }

  /** The first `n` indexes are named, trimmed. */
  ghost predicate AllAnswered(authIndexes: seq<string>, n: nat, tasks: seq<Accept>, rejected: seq<Refusal>) {
    n <= |authIndexes| && forall i :: 0 <= i < n ==> Answered(TrimSpace(authIndexes[i]), tasks, rejected)
  }

  lemma AnswerMore(authIndexes: seq<string>, n: nat, p: Progress, q: Progress)
    requires n < |authIndexes| && AllAnswered(authIndexes, n, p.tasks, p.rejected)
    requires Answers(p, q, TrimSpace(authIndexes[n]))
    ensures AllAnswered(authIndexes, n + 1, q.tasks, q.rejected)
  {
    assert forall a :: a in p.tasks ==> a in q.tasks;
    assert forall r :: r in p.rejected ==> r in q.rejected;
  }

  lemma AcceptAnswers(p: Progress, a: Accept, seen: set<string>)
    ensures Answers(p, Progress(p.tasks + [a], p.rejected, seen), a.auth)
  {
    assert a in p.tasks + [a];
  }

  lemma RefusalAnswers(p: Progress, r: Refusal, seen: set<string>)
    ensures Answers(p, Progress(p.tasks, p.rejected + [r], seen), r.auth)
  {
    assert r in p.rejected + [r];
  }

  /** The answer so far agrees with the request and with the tasks; a closed or cancelled service accepts nothing. */
  ghost predicate Answering(names: seq<string>, n: nat, validate: string -> Validation, limit: int, first: nat,
                            p: Progress, t: Tasks, stopped: bool)
    requires n <= |names|
  {
    && |p.tasks| <= limit && |p.tasks| + |p.rejected| == n
    && (stopped ==> p.tasks == [])
    && SeenSoFar(names, n, p.seen, p.tasks)
    && Accepted(names, validate, t, first, p.tasks)
    && AllJustified(names, validate, |p.tasks| == limit, stopped, t, p.rejected)
  }

  lemma AcceptKeepsAnswering(names: seq<string>, n: nat, validate: string -> Validation, limit: int, first: nat,
                             p: Progress, t: Tasks, auth: string)
    requires n < |names| && names[n] == auth && Answering(names, n, validate, limit, first, p, t, false)
    requires auth !in p.seen && |p.tasks| < limit && Requested(names, validate, auth)
    requires Indexed(t) && !HasActive(t, auth) && first <= t.sequence
    ensures var q := Progress(p.tasks + [Accept(auth, t.sequence + 1)], p.rejected, p.seen + {auth});
      Answering(names, n + 1, validate, limit, first, q, Enqueued(t, auth), false)
  {
    SeenMore(names, n, p.seen, p.tasks);
    AcceptMore(names, validate, t, first, p.tasks, auth);
    StillJustified(names, validate, false, t, auth, p.rejected, |p.tasks| + 1 == limit);
  }

  lemma RefusalKeepsAnswering(names: seq<string>, n: nat, validate: string -> Validation, limit: int, first: nat,
                              p: Progress, t: Tasks, stopped: bool, r: Refusal, seen: set<string>)
    requires n < |names| && Answering(names, n, validate, limit, first, p, t, stopped)
    requires Justified(names, validate, |p.tasks| == limit, stopped, t, r)
    requires seen == p.seen || seen == p.seen + {names[n]}
    ensures Answering(names, n + 1, validate, limit, first, Progress(p.tasks, p.rejected + [r], seen), t, stopped)
  {
    SeenMore(names, n, p.seen, p.tasks);
    JustifiedMore(names, validate, |p.tasks| == limit, stopped, t, p.rejected, r);
  }

  /** The service fields a request touches; workers are counted when they are started. */
  class QuotaService {
    const store: RefreshTaskStore
    var closed: bool
    var cancelled: bool
    var waiting: int

    constructor ()
      ensures fresh(store) && store.Valid() && store.Contents() == Tasks(map[], map[], 0)
      ensures !closed && !cancelled && waiting == 0
    {
      store := new RefreshTaskStore();
      closed, cancelled, waiting := false, false, 0;
    }

    /** `startRefreshTask`: one lock-protected section, so that an accepted task always has a worker. */
    method StartRefreshTask(auth: string) returns (task: nat, rejection: Option<Rejection>)
      requires store.Valid()
      modifies this`waiting, store
      ensures store.Valid()
      ensures rejection == Some(Unavailable) <==> closed || cancelled
      ensures rejection == Some(Duplicate) <==> !closed && !cancelled && HasActive(old(store.Contents()), auth)
      ensures rejection.None? || rejection == Some(Unavailable) || rejection == Some(Duplicate)
      ensures rejection.None? ==>
        && store.Contents() == Enqueued(old(store.Contents()), auth) && waiting == old(waiting) + 1
        && task == store.sequence && store.sequence == old(store.sequence) + 1
      ensures rejection.Some? ==> store.Contents() == old(store.Contents()) && waiting == old(waiting)
    {
      if closed || cancelled {
        return 0, Some(Unavailable);
      }
      var created;
      task, created := store.Enqueue(auth);
      if !created {
        return task, Some(Duplicate);
      }
      waiting := waiting + 1;
      return task, None;
    }

    /** Validation and admission of one index that was not seen before; `full` once the limit is reached. */
    method Admit(auth: string, full: bool, validate: string -> Validation)
      returns (lookupFailed: bool, task: nat, refused: Option<Rejection>)
      requires store.Valid() && auth != ""
      modifies this`waiting, store
      ensures store.Valid()
      ensures lookupFailed ==> validate(auth).LookupFailed? && refused.None?
      ensures !lookupFailed && refused.None? ==>
        && validate(auth).Valid? && !full && !closed && !cancelled && !HasActive(old(store.Contents()), auth)
        && store.Contents() == Enqueued(old(store.Contents()), auth)
        && waiting == old(waiting) + 1 && task == old(store.sequence) + 1
      ensures lookupFailed || refused.Some? ==> store.Contents() == old(store.Contents()) && waiting == old(waiting)
      ensures refused.Some? ==>
        || validate(auth) == Rejected(refused.value)
        || (refused.value.Invalid? && full)
        || (refused.value.Unavailable? && (closed || cancelled))
        || (refused.value.Duplicate? && HasActive(store.Contents(), auth))
    {
      if full {
        return false, 0, Some(Invalid);
      }
      var validation := validate(auth);
      if validation.LookupFailed? {
        return true, 0, None;
      }
      if validation.Rejected? {
        return false, 0, Some(validation.reason);
      }
      task, refused := StartRefreshTask(auth);
      lookupFailed := false;
    }

    /** One more index is accepted or refused. */
    method RefreshNext(ghost names: seq<string>, ghost n: nat, auth: string, limit: int, validate: string -> Validation,
                       ghost first: nat, p: Progress)
      returns (lookupFailed: bool, q: Progress)
      requires store.Valid() && n < |names| && names[n] == auth && first <= store.sequence
      requires Answering(names, n, validate, limit, first, p, store.Contents(), closed || cancelled)
      modifies this`waiting, store
      ensures store.Valid() && first <= store.sequence
      ensures lookupFailed ==> validate(auth).LookupFailed?
      ensures !lookupFailed ==>
        && Answering(names, n + 1, validate, limit, first, q, store.Contents(), closed || cancelled)
        && waiting == old(waiting) + |q.tasks| - |p.tasks|
      ensures !lookupFailed ==> Answers(p, q, auth)
    {
      SeenMore(names, n, p.seen, p.tasks);
      var refused: Rejection;
      if auth == "" {
        refused := Invalid;
        q := p;
      } else if auth in p.seen {
        refused := Duplicate;
        q := p;
      } else {
        ghost var before := store.Contents();
        var task, rejection;
        lookupFailed, task, rejection := Admit(auth, |p.tasks| >= limit, validate);
        if lookupFailed {
          return true, p;
        }
        if rejection.None? {
          AcceptKeepsAnswering(names, n, validate, limit, first, p, before, auth);
          AcceptAnswers(p, Accept(auth, task), p.seen + {auth});
          return false, Progress(p.tasks + [Accept(auth, task)], p.rejected, p.seen + {auth});
        }
        refused := rejection.value;
        q := p.(seen := p.seen + {auth});
      }
      RefusalKeepsAnswering(names, n, validate, limit, first, p, store.Contents(), closed || cancelled,
                            Refusal(auth, refused), q.seen);
      RefusalAnswers(p, Refusal(auth, refused), q.seen);
      return false, q.(rejected := p.rejected + [Refusal(auth, refused)]);
    }

    /** `Refresh`, without other sections interleaved: every index is either accepted, with a fresh queued
        task and a worker of its own, or rejected; at most `limit` are accepted, none twice. */
    method Refresh(authIndexes: seq<string>, limit: int, validate: string -> Validation, now: int)
      returns (response: Response)
      requires store.Valid()
      modifies this`waiting, store
      ensures store.Valid()
      ensures response.LimitRequired? <==> limit <= 0
      ensures response.LimitRequired? ==> store.Contents() == old(store.Contents())
      ensures response.Aborted? ==> exists name :: name in Names(authIndexes) && validate(name).LookupFailed?
      ensures response.Response? ==>
        && response.accepted == |response.tasks| <= limit && response.skipped == |response.rejected|
        && response.accepted + response.skipped == |authIndexes|
        && waiting == old(waiting) + response.accepted
      ensures response.Response? ==>
        Accepted(Names(authIndexes), validate, store.Contents(), old(store.sequence), response.tasks)
      ensures response.Response? ==>
        AllJustified(Names(authIndexes), validate, response.accepted == limit, closed || cancelled, store.Contents(),
                     response.rejected)
      ensures response.Response? && (closed || cancelled) ==> response.accepted == 0
      ensures response.Response? ==>
        AllAnswered(authIndexes, |authIndexes|, response.tasks, response.rejected)
    {
      if limit <= 0 {
        return LimitRequired;
      }
      ghost var names := Names(authIndexes);
      var p := Progress([], [], {});
      store.CleanupExpired(now);
      for n := 0 to |authIndexes|
        invariant store.Valid() && old(store.sequence) <= store.sequence
        invariant closed == old(closed) && cancelled == old(cancelled) && waiting == old(waiting) + |p.tasks|
        invariant Answering(names, n, validate, limit, old(store.sequence), p, store.Contents(), closed || cancelled)
        invariant AllAnswered(authIndexes, n, p.tasks, p.rejected)
      {
        var lookupFailed, q :=
          RefreshNext(names, n, TrimSpace(authIndexes[n]), limit, validate, old(store.sequence), p);
        if lookupFailed {
          assert names[n] in names;
          return Aborted;
        }
        AnswerMore(authIndexes, n, p, q);
        p := q;
      }
      return Response(p.tasks, p.rejected, |p.tasks|, |p.rejected|);
    }
  }
}
