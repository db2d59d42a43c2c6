/** Retried requests (pkg/retry/retry.go, and withRetryCtx in directorybackup/main.go). */
module Retry {
  import opened Types
  import opened Pool
  import opened PoolSteps

  /** Why an attempt failed, and whether that is a failure that passes. */
  datatype Failure = Failure(code: nat, passing: bool)

  /** What happens to a request: attempts with their results, and looks at the context
      that find it done. */
  datatype Event = Attempt(err: Option<Failure>) | SeenDone

  /** What retry.Do returns. */
  datatype DoResult =
    | DoOk
    | DoDone
    | DoNotRetryable(err: Failure)
    | DoExhausted(last: Option<Failure>)

  /** What withRetryCtx returns: the request's own error, with the attempts it took. */
  datatype Result =
    | Success
    | Ended
    | Own(attempts: nat, err: Failure)

  class World {
    var done: bool               // the context's state
    var events: seq<Event>

    constructor ()
      ensures events == []
    {
      done := *;
      events := [];
    }

    /** A look at the context, which may be cancelled or run out at any time. */
    method Look() returns (d: bool)
      modifies this
      ensures events == if d then old(events) + [SeenDone] else old(events)
      ensures d == done && (old(done) ==> done)
    {
      var now: bool := *;
      done := done || now;
      d := done;
      if d {
        events := events + [SeenDone];
      }
    }

    /** The wait between attempts, which the context may cut short. */
    method Wait() returns (d: bool)
      modifies this
      ensures events == if d then old(events) + [SeenDone] else old(events)
      ensures (d ==> done) && (old(done) ==> done)
    {
      var now: bool, late: bool := *, *;
      done := done || now;
      d := done && !late;
      if d {
        events := events + [SeenDone];
      }
    }

    /** An attempt, begun while the context is live; it may end during the attempt. */
    method Call() returns (err: Option<Failure>)
      requires !done
      modifies this
      ensures events == old(events) + [Attempt(err)] && (old(done) ==> done)
    {
      var now: bool := *;
      err := *;
      done := done || now;
      events := events + [Attempt(err)];
    }
  }

  // ---- The specification ----

  /** An attempt that is followed by another. */
  predicate GoesOn(e: Event) {
    e.Attempt? && e.err.Some? && e.err.value.passing
  }

  /** The attempts of a request: all before the last have failed in a way that passes;
      a look that finds the context done ends them. */
  predicate Proper(events: seq<Event>, max: int) {
    && (Attempts(events) != [] ==> |Attempts(events)| <= max)
    && forall i :: 0 <= i < |events| - 1 ==> GoesOn(events[i])
  }

  function Attempts(events: seq<Event>): (attempts: seq<Option<Failure>>)
    ensures |attempts| <= |events|
  {
    if events == [] then []
    else
      var before, e := Attempts(events[..|events| - 1]), events[|events| - 1];
      if e.Attempt? then before + [e.err] else before
  }

  /** The result a request's events call for. */
  function ResultOf(events: seq<Event>): Result {
    var attempts := Attempts(events);
    if attempts == [] then Ended
    else
      var last := attempts[|attempts| - 1];
      if last.None? then Success else Own(|attempts|, last.value)
  }

  /** The request has been given up, or has succeeded, for a reason. */
  predicate Over(events: seq<Event>, max: int) {
    if events == [] then max <= 0
    else if events[|events| - 1].SeenDone? then |Attempts(events)| < max
    else !GoesOn(events[|events| - 1]) || |Attempts(events)| == max
  }

  lemma {:induction false} AllAttempts(events: seq<Event>)
    requires forall i :: 0 <= i < |events| ==> GoesOn(events[i])
    ensures |Attempts(events)| == |events|
    ensures events != [] ==> Attempts(events)[|events| - 1] == events[|events| - 1].err
  {
    if events != [] {
      AllAttempts(events[..|events| - 1]);
    }
  }

  /** The attempts that have been made, none successful. */
  ghost predicate Trying(events: seq<Event>, n: nat) {
    |events| == n && forall i :: 0 <= i < n ==> GoesOn(events[i])
  }

  ghost function DoOf(events: seq<Event>): DoResult {
    var attempts := Attempts(events);
    if events != [] && events[|events| - 1].SeenDone? then DoDone
    else if attempts == [] then DoExhausted(None)
    else
      var last := attempts[|attempts| - 1];
      if last.None? then DoOk
      else if !last.value.passing then DoNotRetryable(last.value)
      else DoExhausted(last)
  }

  lemma OneMore(before: seq<Event>, e: Event)
    requires Trying(before, |before|)
    ensures Attempts(before + [e]) == if e.Attempt? then Attempts(before) + [e.err] else Attempts(before)
    ensures |Attempts(before)| == |before|
    ensures Proper(before + [e], |before| + 1)
    ensures GoesOn(e) ==> Trying(before + [e], |before| + 1)
  {
    AllAttempts(before);
    assert (before + [e])[..|before|] == before;
  }

  /** retry.Do: tries until it succeeds, fails for good, has used up its attempts, or is
      ended; no attempt begins with the context done. */
  method Do(world: World, max: int) returns (r: DoResult)
    requires world.events == []
    modifies world
    ensures Proper(world.events, max) && Over(world.events, max)
    ensures r == DoOf(world.events)
    ensures old(world.done) ==> Attempts(world.events) == [] && (max > 0 ==> r.DoDone?)
    ensures r.DoNotRetryable? ==> !r.err.passing
    ensures r.DoExhausted? && max > 0 ==> |Attempts(world.events)| == max && r.last.Some? && r.last.value.passing
  {
    var last: Option<Failure> := None;
    var attempt := 0;
    while attempt < max
      invariant 0 <= attempt && (attempt < max || attempt == 0) && Trying(world.events, attempt)
      invariant attempt == 0 ==> last.None?
      invariant old(world.done) ==> world.done && attempt == 0
      decreases max - attempt
    {
      ghost var before := world.events;
      var d := world.Look();
      if d {
        OneMore(before, SeenDone);
        return DoDone;
      }
      var err := world.Call();
      OneMore(before, Attempt(err));
      if err.None? {
        return DoOk;
      }
      last := err;
      if !err.value.passing {
        return DoNotRetryable(err.value);
      }
      if attempt == max - 1 {
        break;
      }
      before := world.events;
      d := world.Wait();
      if d {
        OneMore(before, SeenDone);
        return DoDone;
      }
      attempt := attempt + 1;
    }
    return DoExhausted(last);
  }

  /** withRetryCtx: at most five attempts; it succeeds exactly when the last attempt did,
      and otherwise returns the last attempt's own error, if there was an attempt. A
      failure that passes is returned only after the fifth, or when the context ended. */
  method WithRetry(world: World) returns (r: Result)
    requires world.events == []
    modifies world
    ensures Proper(world.events, MAX_ATTEMPTS) && Over(world.events, MAX_ATTEMPTS)
    ensures r == ResultOf(world.events)
    ensures old(world.done) ==> Attempts(world.events) == [] && r.Ended?
    ensures r.Success? <==> Attempts(world.events) != [] && Attempts(world.events)[|Attempts(world.events)| - 1].None?
    ensures r.Own? ==>
      1 <= r.attempts == |Attempts(world.events)| <= 5 && Attempts(world.events)[r.attempts - 1] == Some(r.err)
    ensures r.Own? && r.err.passing && !world.events[|world.events| - 1].SeenDone? ==> r.attempts == 5
  {
    var res := Do(world, MAX_ATTEMPTS);
    var attempts := Attempts(world.events);
    EndedOrLast(world.events);
    if res.DoOk? {
      return Success;
    }
    if attempts == [] || attempts[|attempts| - 1].None? {
      return Ended;
    }
    return Own(|attempts|, attempts[|attempts| - 1].value);
  }

  /** A context seen done never follows a success. */
  lemma EndedOrLast(events: seq<Event>)
    requires Proper(events, MAX_ATTEMPTS) && events != []
    ensures DoOf(events).DoOk? <==> ResultOf(events).Success?
    ensures Attempts(events) != [] && Attempts(events)[|Attempts(events)| - 1].None? ==> DoOf(events).DoOk?
  {
    var before, e := events[..|events| - 1], events[|events| - 1];
    AllAttempts(before);
    OneMore(before, e);
    assert before + [e] == events;
    if e.SeenDone? && before != [] {
      assert GoesOn(before[|before| - 1]);
    }
  }

  // ---- The pool's workers retry in the same way ----

  function AsOutcome(err: Option<Failure>): Outcome {
    if err.None? then Fine
    else if err.value.passing then Passing(err.value.code, false)
    else Refused(err.value.code, false)
  }

  /** Worker w's own steps at a request's event: its look at the context and the attempt,
      or the look alone when it finds the context ended. */
  function Played(hash: Hash, p: Pool, store: Store, w: nat, e: Event): (Pool, Store)
    requires WorkerEnabled(p, w)
  {
    match e
    case SeenDone => WorkerNext(hash, p.(cancelled := true), store, w, Fine)
    case Attempt(err) =>
      var (q, store') := WorkerNext(hash, p, store, w, Fine);
      if WorkerEnabled(q, w) then WorkerNext(hash, q, store', w, AsOutcome(err)) else (q, store')
  }

  function Replay(hash: Hash, p: Pool, store: Store, w: nat, events: seq<Event>): (Pool, Store) {
    if events == [] then (p, store)
    else
      var (q, store') := Replay(hash, p, store, w, events[..|events| - 1]);
      if WorkerEnabled(q, w) then Played(hash, q, store', w, events[|events| - 1]) else (q, store')
  }

  /** The worker is at the head of its retries, and the context is live. */
  ghost predicate AtTry(p: Pool, w: nat, job: Job, tries: nat) {
    w < |p.workers| && p.workers[w] == Retrying(job, tries) && !p.cancelled
  }

  lemma PlayedAttempt(hash: Hash, p: Pool, store: Store, w: nat, job: Job, tries: nat, err: Option<Failure>)
    requires AtTry(p, w, job, tries)
    ensures var q := Played(hash, p, store, w, Attempt(err)).0;
            |q.workers| == |p.workers| && q.workers[w] == AfterAttempt(job, tries, AsOutcome(err)) && !q.cancelled
  {
    RetryingIs(hash, p, store, w, Fine);
    var (q, store') := WorkerNext(hash, p, store, w, Fine);
    UploadingIs(hash, q, store', w, AsOutcome(err));
  }

  lemma PlayedDone(hash: Hash, p: Pool, store: Store, w: nat, job: Job, tries: nat)
    requires AtTry(p, w, job, tries)
    ensures var q := Played(hash, p, store, w, SeenDone).0;
            |q.workers| == |p.workers| && q.workers[w] == GaveUp(job, 0) && q.cancelled
  {
    RetryingIs(hash, p.(cancelled := true), store, w, Fine);
  }

  lemma {:induction false} StillTrying(hash: Hash, p: Pool, store: Store, w: nat, job: Job, events: seq<Event>)
    requires AtTry(p, w, job, 0) && |events| < MAX_ATTEMPTS
    requires forall i :: 0 <= i < |events| ==> GoesOn(events[i])
    ensures AtTry(Replay(hash, p, store, w, events).0, w, job, |events|)
  {
    if events != [] {
      var but := events[..|events| - 1];
      StillTrying(hash, p, store, w, job, but);
      var (q, store') := Replay(hash, p, store, w, but);
      PlayedAttempt(hash, q, store', w, job, |but|, events[|but|].err);
    }
  }

  lemma BeforeTheEnd(events: seq<Event>)
    requires Proper(events, MAX_ATTEMPTS) && Over(events, MAX_ATTEMPTS)
    ensures var before, e := events[..|events| - 1], events[|events| - 1];
      && |before| < MAX_ATTEMPTS && (forall i :: 0 <= i < |before| ==> GoesOn(before[i]))
      && (e.SeenDone? ==> !ResultOf(events).Success?)
      && (e.Attempt? ==> ResultOf(events) == if e.err.None? then Success else Own(|before| + 1, e.err.value))
      && (e.Attempt? && GoesOn(e) ==> |before| + 1 == MAX_ATTEMPTS)
  {
    var before, e := events[..|events| - 1], events[|events| - 1];
    assert before + [e] == events;
    OneMore(before, e);
    PassingAttempts(before);
  }

  /** A worker of the pool, by its own steps, comes to what withRetryCtx returns: the
      chunk stored on success, given up with the last attempt's error otherwise; and when
      the context ended the attempts, given up with the context ended, so that nothing is
      kept as a failure. */
  lemma WorkerRetriesAlike(hash: Hash, p: Pool, store: Store, w: nat, job: Job, events: seq<Event>)
    requires AtTry(p, w, job, 0) && Proper(events, MAX_ATTEMPTS) && Over(events, MAX_ATTEMPTS)
    ensures var q := Replay(hash, p, store, w, events).0;
      && w < |q.workers|
      && if events[|events| - 1].SeenDone? then q.workers[w] == GaveUp(job, 0) && q.cancelled && !ResultOf(events).Success?
         else if ResultOf(events).Success? then q.workers[w] == Stored(job) && !q.cancelled
         else ResultOf(events).Own? && q.workers[w] == GaveUp(job, ResultOf(events).err.code) && !q.cancelled
  {
    var before, e := events[..|events| - 1], events[|events| - 1];
    BeforeTheEnd(events);
    StillTrying(hash, p, store, w, job, before);
    var (q, store') := Replay(hash, p, store, w, before);
    if e.Attempt? {
      PlayedAttempt(hash, q, store', w, job, |before|, e.err);
    } else {
      PlayedDone(hash, q, store', w, job, |before|);
    }
  }

  lemma {:induction false} PassingAttempts(events: seq<Event>)
    requires forall i :: 0 <= i < |events| ==> GoesOn(events[i])
    ensures |Attempts(events)| == |events|
    ensures forall i :: 0 <= i < |events| ==> Attempts(events)[i].Some? && Attempts(events)[i].value.passing
  {
    if events != [] {
      PassingAttempts(events[..|events| - 1]);
    }
  }
}
