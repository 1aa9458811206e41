/**
 * The archive's retry queue: jobs are enqueued (again and again if need be), claimed oldest
 * first by a single-flight worker, and retried with exponential backoff.
 */
module ArchiveQueue {
  import opened Text
  import opened Rows

  const MAX_ARCHIVE_ATTEMPTS: nat := 5
  const MAX_SAFE_INTEGER: int := 9007199254740991

  datatype JobStatus = Queued | Running | Complete | Partial | Failed

  datatype Job = Job(id: string, status: JobStatus, attempts: nat, nextAttemptAt: int, createdAt: int)
  {
    predicate Settled() { status == Complete || status == Partial }
  }

  /** The claimed job as the worker read it. */
  datatype Claim = Claim(id: string, attempts: nat)

  datatype State = State(jobs: seq<Job>, claim: Option<Claim>)

  function Find(jobs: seq<Job>, id: string): (i: nat)
    ensures i <= |jobs|
    ensures i < |jobs| ==> jobs[i].id == id
    ensures i == |jobs| ==> forall k :: 0 <= k < |jobs| ==> jobs[k].id != id
  {
    FindBy(jobs, (job: Job) => job.id, id)
  }

  /** `enqueue`: a settled job is left alone, any other is queued again keeping its attempts. */
  function Enqueue(jobs: seq<Job>, id: string, payloadFits: bool, now: int): seq<Job> {
    var i := Find(jobs, id);
    if i < |jobs| && jobs[i].Settled() then jobs
    else if !payloadFits then jobs
    else if i < |jobs| then jobs[i := jobs[i].(status := Queued, nextAttemptAt := now)]
    else jobs + [Job(id, Queued, 0, now, now)]
  }

  predicate Claimable(job: Job, now: int) {
    (job.status == Queued || job.status == Failed) && job.nextAttemptAt <= now && job.attempts < MAX_ARCHIVE_ATTEMPTS
  }

  /** What `ORDER BY created_at ASC LIMIT 1` may return. */
  predicate Oldest(jobs: seq<Job>, i: nat, now: int) {
    && i < |jobs| && Claimable(jobs[i], now)
    && forall k :: 0 <= k < |jobs| && Claimable(jobs[k], now) ==> jobs[i].createdAt <= jobs[k].createdAt
  }

  function Power2(n: nat): nat { if n == 0 then 1 else 2 * Power2(n - 1) }

  /** Thirty seconds doubled per attempt, at most an hour. */
  function BackoffMs(attempt: nat): nat
    requires attempt >= 1
  {
    var delay := 30000 * Power2(attempt - 1);
    if delay < 3600000 then delay else 3600000
  }

  /** The catch branch of `processNext`, from the attempt count read at claim time. */
  function AfterFailure(job: Job, attemptsAtClaim: nat, quota: bool, now: int): Job {
    var attempt := attemptsAtClaim + 1;
    if attempt >= MAX_ARCHIVE_ATTEMPTS || quota
    then job.(status := Failed, attempts := MAX_ARCHIVE_ATTEMPTS, nextAttemptAt := MAX_SAFE_INTEGER)
    else job.(status := Failed, attempts := attempt, nextAttemptAt := now + BackoffMs(attempt))
  }

  function Requeue(jobs: seq<Job>): (r: seq<Job>)
    ensures |r| == |jobs|
    ensures forall i :: 0 <= i < |jobs| ==>
            r[i] == if jobs[i].status == Running then jobs[i].(status := Queued) else jobs[i]
  {
    seq(|jobs|, i requires 0 <= i < |jobs| => if jobs[i].status == Running then jobs[i].(status := Queued) else jobs[i])
  }

  class Queue {
    var jobs: seq<Job>

    constructor ()
      ensures jobs == []
    {
      jobs := [];
    }

    method EnqueueJob(id: string, payloadFits: bool, now: int) returns (accepted: bool)
      modifies this
      ensures jobs == Enqueue(old(jobs), id, payloadFits, now)
      ensures accepted <==>
              payloadFits || (Find(old(jobs), id) < |old(jobs)| && old(jobs)[Find(old(jobs), id)].Settled())
    {
      var i := Find(jobs, id);
      if i < |jobs| && jobs[i].Settled() { return true; }
      if !payloadFits { return false; }
      if i < |jobs| {
        jobs := jobs[i := jobs[i].(status := Queued, nextAttemptAt := now)];
      } else {
        jobs := jobs + [Job(id, Queued, 0, now, now)];
      }
      return true;
    }

    /** `claimNextJob`: the oldest claimable job, marked running. */
    method ClaimNextJob(now: int) returns (claim: Option<Claim>, ghost index: nat)
      modifies this
      ensures claim.None? ==> jobs == old(jobs) && forall k :: 0 <= k < |jobs| ==> !Claimable(jobs[k], now)
      ensures claim.Some? ==>
                && Oldest(old(jobs), index, now)
                && claim.value == Claim(old(jobs)[index].id, old(jobs)[index].attempts)
                && jobs == old(jobs)[index := old(jobs)[index].(status := Running)]
    {
      index := 0;
      var best: nat := |jobs|;
      for i := 0 to |jobs|
        invariant best == |jobs| || (best < i && Claimable(jobs[best], now))
        invariant forall k :: 0 <= k < i && Claimable(jobs[k], now) ==>
                best < |jobs| && jobs[best].createdAt <= jobs[k].createdAt
      {
        if Claimable(jobs[i], now) && (best == |jobs| || jobs[i].createdAt < jobs[best].createdAt) { best := i; }
      }
      if best == |jobs| { return None, 0; }
      index := best;
      claim := Some(Claim(jobs[best].id, jobs[best].attempts));
      jobs := jobs[best := jobs[best].(status := Running)];
    }

    method Finish(id: string, partial: bool)
      modifies this
      ensures jobs == SetJob(old(jobs), id, (job: Job) => job.(status := if partial then Partial else Complete))
    {
      var i := Find(jobs, id);
      if i < |jobs| { jobs := jobs[i := jobs[i].(status := if partial then Partial else Complete)]; }
    }

    method Fail(claim: Claim, quota: bool, now: int)
      modifies this
      ensures jobs == SetJob(old(jobs), claim.id, (job: Job) => AfterFailure(job, claim.attempts, quota, now))
    {
      var i := Find(jobs, claim.id);
      if i < |jobs| { jobs := jobs[i := AfterFailure(jobs[i], claim.attempts, quota, now)]; }
    }

    method RecoverAfterRestart()
      modifies this
      ensures jobs == Requeue(old(jobs))
    {
      jobs := Requeue(jobs);
    }
  }

  /** `UPDATE ... WHERE id = ?`. */
  function SetJob(jobs: seq<Job>, id: string, f: Job -> Job): seq<Job> {
    var i := Find(jobs, id);
    if i < |jobs| then jobs[i := f(jobs[i])] else jobs
  }

  // ----- Runs -----

  datatype Event =
    | Enqueued(id: string, payloadFits: bool, now: int)
    | Claimed(index: nat, now: int)
    | Archived(partial: bool)
    | ArchiveFailed(quota: bool, now: int)
    | Restart

  /** The worker is single-flight: it claims only when idle, and settles only what it holds. */
  predicate Allowed(s: State, e: Event) {
    match e
    case Enqueued(_, _, _) => true
    case Claimed(i, now) => s.claim.None? && Oldest(s.jobs, i, now)
    case Archived(_) => s.claim.Some?
    case ArchiveFailed(_, _) => s.claim.Some?
    case Restart => true
  }

  function Step(s: State, e: Event): State
    requires Allowed(s, e)
  {
    match e
    case Enqueued(id, fits, now) => s.(jobs := Enqueue(s.jobs, id, fits, now))
    case Claimed(i, now) =>
      State(s.jobs[i := s.jobs[i].(status := Running)], Some(Claim(s.jobs[i].id, s.jobs[i].attempts)))
    case Archived(partial) =>
      State(SetJob(s.jobs, s.claim.value.id, (job: Job) => job.(status := if partial then Partial else Complete)), None)
    case ArchiveFailed(quota, now) =>
      State(SetJob(s.jobs, s.claim.value.id, (job: Job) => AfterFailure(job, s.claim.value.attempts, quota, now)), None)
    case Restart => State(Requeue(s.jobs), None)
  }

  ghost predicate Inv(s: State) {
    && (forall i, j :: 0 <= i < j < |s.jobs| ==> s.jobs[i].id != s.jobs[j].id)
    && (forall i :: 0 <= i < |s.jobs| ==> s.jobs[i].attempts <= MAX_ARCHIVE_ATTEMPTS)
    && (s.claim.Some? ==>
          var i := Find(s.jobs, s.claim.value.id);
          && i < |s.jobs| && s.jobs[i].attempts == s.claim.value.attempts < MAX_ARCHIVE_ATTEMPTS
          && (s.jobs[i].status == Running || s.jobs[i].status == Queued))
  }

  /** What no step may undo, for one job. */
  ghost predicate Progresses(before: Job, after: Job) {
    && after.id == before.id && after.attempts >= before.attempts
    && (before.Settled() ==> after == before)
  }

  lemma FindUnique(jobs: seq<Job>, id: string, i: nat)
    requires forall i, j :: 0 <= i < j < |jobs| ==> jobs[i].id != jobs[j].id
    requires i < |jobs| && jobs[i].id == id
    ensures Find(jobs, id) == i
  {
  }

  lemma StepSafe(s: State, e: Event)
    requires Inv(s) && Allowed(s, e)
    ensures Inv(Step(s, e))
    ensures |s.jobs| <= |Step(s, e).jobs|
    ensures forall i :: 0 <= i < |s.jobs| ==> Progresses(s.jobs[i], Step(s, e).jobs[i])
    ensures e.ArchiveFailed? ==>
            var i := Find(s.jobs, s.claim.value.id); Step(s, e).jobs[i].attempts >= s.jobs[i].attempts + 1
  {
    match e
    case Enqueued(id, fits, now) => EnqueueSafe(s, id, fits, now);
    case Claimed(i, now) => ReplaceSafe(s, i, s.jobs[i].(status := Running),
        Some(Claim(s.jobs[i].id, s.jobs[i].attempts)));
    case Archived(partial) =>
      var i := Find(s.jobs, s.claim.value.id);
      ReplaceSafe(s, i, s.jobs[i].(status := if partial then Partial else Complete), None);
    case ArchiveFailed(quota, now) =>
      var i := Find(s.jobs, s.claim.value.id);
      ReplaceSafe(s, i, AfterFailure(s.jobs[i], s.claim.value.attempts, quota, now), None);
    case Restart =>
  }

  /** Replacing an unsettled job by one further on, with the claim dropped or taken on that job. */
  lemma ReplaceSafe(s: State, i: nat, job: Job, claim: Option<Claim>)
    requires Inv(s) && i < |s.jobs| && Progresses(s.jobs[i], job) && job.attempts <= MAX_ARCHIVE_ATTEMPTS
    requires claim.Some? ==>
               claim.value == Claim(job.id, job.attempts) && job.attempts < MAX_ARCHIVE_ATTEMPTS &&
                   (job.status == Running || job.status == Queued)
    ensures Inv(State(s.jobs[i := job], claim))
    ensures forall k :: 0 <= k < |s.jobs| ==> Progresses(s.jobs[k], s.jobs[i := job][k])
  {
    if claim.Some? { FindUnique(s.jobs[i := job], job.id, i); }
  }

  lemma EnqueueSafe(s: State, id: string, fits: bool, now: int)
    requires Inv(s)
    ensures var jobs := Enqueue(s.jobs, id, fits, now);
            && Inv(s.(jobs := jobs)) && |s.jobs| <= |jobs|
            && forall i :: 0 <= i < |s.jobs| ==> Progresses(s.jobs[i], jobs[i])
  {
    var jobs := Enqueue(s.jobs, id, fits, now);
    if s.claim.Some? { FindUnique(jobs, s.claim.value.id, Find(s.jobs, s.claim.value.id)); }
  }

  ghost predicate AllowedRun(s: State, events: seq<Event>)
    decreases events
  {
    events == [] || (Allowed(s, events[0]) && AllowedRun(Step(s, events[0]), events[1..]))
  }

  ghost function Run(s: State, events: seq<Event>): State
    requires AllowedRun(s, events)
    decreases events
  {
    if events == [] then s else Run(Step(s, events[0]), events[1..])
  }

  /** How often archiving the job `id` failed during the run. */
  ghost function Failures(s: State, events: seq<Event>, id: string): nat
    requires AllowedRun(s, events)
    decreases events
  {
    if events == [] then 0
    else
      var now := if events[0].ArchiveFailed? && s.claim.value.id == id then 1 else 0;
      now + Failures(Step(s, events[0]), events[1..], id)
  }

  ghost function Attempts(s: State, id: string): nat {
    var i := Find(s.jobs, id);
    if i < |s.jobs| then s.jobs[i].attempts else 0
  }

  lemma AttemptsGrow(s: State, e: Event, id: string)
    requires Inv(s) && Allowed(s, e)
    ensures Attempts(Step(s, e), id) >= Attempts(s, id) + (if e.ArchiveFailed? && s.claim.value.id == id then 1 else 0)
  {
    StepSafe(s, e);
    var i := Find(s.jobs, id);
    if i < |s.jobs| { FindUnique(Step(s, e).jobs, id, i); }
  }

  /**
   * Over every run, with re-enqueues and restarts anywhere: attempts never go down nor above
   * the limit, settled jobs never change, and each failure costs an attempt, so no job fails
   * more than five times.
   */
  lemma {:induction false} QueueSafety(s: State, events: seq<Event>, id: string)
    requires Inv(s) && AllowedRun(s, events)
    ensures Inv(Run(s, events))
    ensures |s.jobs| <= |Run(s, events).jobs|
    ensures forall i :: 0 <= i < |s.jobs| ==> Progresses(s.jobs[i], Run(s, events).jobs[i])
    ensures Attempts(s, id) + Failures(s, events, id) <= Attempts(Run(s, events), id) <= MAX_ARCHIVE_ATTEMPTS
    decreases events
  {
    if events != [] {
      StepSafe(s, events[0]);
      AttemptsGrow(s, events[0], id);
      QueueSafety(Step(s, events[0]), events[1..], id);
      var mid := Step(s, events[0]);
      forall i | 0 <= i < |s.jobs| ensures Progresses(s.jobs[i], Run(s, events).jobs[i]) {
        assert Progresses(s.jobs[i], mid.jobs[i]) && Progresses(mid.jobs[i], Run(mid, events[1..]).jobs[i]);
      }
    }
  }

  lemma AtMostFiveFailures(events: seq<Event>, id: string)
    requires AllowedRun(State([], None), events)
    ensures Failures(State([], None), events, id) <= MAX_ARCHIVE_ATTEMPTS
  {
    QueueSafety(State([], None), events, id);
  }

  // ----- Backoff -----

  /** Thirty seconds after the first failure, doubling each time, never more than an hour. */
  lemma BackoffDoubles(attempt: nat)
    requires attempt >= 1
    ensures BackoffMs(1) == 30000
    ensures BackoffMs(attempt + 1) == if 2 * BackoffMs(attempt) < 3600000 then 2 * BackoffMs(attempt) else 3600000
  {
    assert Power2(attempt) == 2 * Power2(attempt - 1);
  }

  /**
   * A failed job can be claimed again exactly when it failed for another reason than the quota and
   * for at most the fourth time, from 30 seconds, one, two or four minutes after the failure on.
   */
  lemma FailureRetriedExactly(s: State, quota: bool, now: int, x: int)
    requires Inv(s) && s.claim.Some?
    ensures var i := Find(s.jobs, s.claim.value.id);
            var before, job := s.jobs[i].attempts, Step(s, ArchiveFailed(quota, now)).jobs[i];
            var wait := if before == 0 then 30000 else if before == 1 then 60000
                        else if before == 2 then 120000 else 240000;
            && job.status == Failed
            && job.attempts == (if quota then 5 else before + 1)
            && (Claimable(job, x) <==> !quota && before < 4 && now + wait <= x)
  {
    assert Power2(0) == 1 && Power2(1) == 2 && Power2(2) == 4 && Power2(3) == 8;
  }

  /**
   * Enqueuing a payload that fits makes the job claimable from then on while it has attempts left,
   * unless it is settled, and a job that is running or settled is never claimable.
   */
  lemma EnqueuedIsClaimable(s: State, id: string, now: int, x: int)
    requires Inv(s)
    ensures var i := Find(s.jobs, id);
            var job := Step(s, Enqueued(id, true, now)).jobs[i];
            && job.id == id
            && (Claimable(job, x) <==>
                  && now <= x && job.attempts < 5
                  && !(i < |s.jobs| && (s.jobs[i].status == Complete || s.jobs[i].status == Partial)))
            && (i < |s.jobs| && s.jobs[i].status != Queued && s.jobs[i].status != Failed ==> !Claimable(s.jobs[i], x))
  {
  }

  /** The event may make the job due again or hand it out. */
  predicate Concerns(e: Event, i: nat, id: string) { (e.Enqueued? && e.id == id) || (e.Claimed? && e.index == i) }

  /**
   * A failed job waits untouched until it is enqueued again or claimed, and it is claimed only once
   * its time has come.
   */
  lemma {:induction false} BackoffRespected(s: State, events: seq<Event>, i: nat)
    requires Inv(s) && AllowedRun(s, events) && i < |s.jobs| && s.jobs[i].status == Failed
    requires s.claim.Some? ==> s.claim.value.id != s.jobs[i].id
    requires forall k :: 0 <= k < |events| - 1 ==> !Concerns(events[k], i, s.jobs[i].id)
    ensures events != [] && events[|events| - 1].Claimed? && events[|events| - 1].index == i ==>
              s.jobs[i].nextAttemptAt <= events[|events| - 1].now
    decreases events
  {
    if |events| > 1 {
      StepSafe(s, events[0]);
      UnconcernedKeepsJob(s, events[0], i);
      BackoffRespected(Step(s, events[0]), events[1..], i);
    }
  }

  lemma UnconcernedKeepsJob(s: State, e: Event, i: nat)
    requires Inv(s) && Allowed(s, e) && i < |s.jobs| && s.jobs[i].status == Failed && !Concerns(e, i, s.jobs[i].id)
    requires s.claim.Some? ==> s.claim.value.id != s.jobs[i].id
    ensures i < |Step(s, e).jobs| && Step(s, e).jobs[i] == s.jobs[i]
    ensures Step(s, e).claim.Some? ==> Step(s, e).claim.value.id != s.jobs[i].id
  {
  }

  // ----- Bounded work -----

  /** Attempts the unsettled jobs still have. */
  ghost function Remaining(jobs: seq<Job>): nat
    requires forall i :: 0 <= i < |jobs| ==> jobs[i].attempts <= MAX_ARCHIVE_ATTEMPTS
  {
    if jobs == [] then 0
    else
      var job := jobs[|jobs| - 1];
      Remaining(jobs[..|jobs| - 1]) + Left(job)
  }

  ghost function Left(job: Job): nat
    requires job.attempts <= MAX_ARCHIVE_ATTEMPTS
  {
    if job.Settled() then 0 else MAX_ARCHIVE_ATTEMPTS - job.attempts
  }

  lemma {:induction false} UpdateRemaining(jobs: seq<Job>, i: nat, job: Job)
    requires i < |jobs| && job.attempts <= MAX_ARCHIVE_ATTEMPTS
    requires forall i :: 0 <= i < |jobs| ==> jobs[i].attempts <= MAX_ARCHIVE_ATTEMPTS
    ensures Remaining(jobs[i := job]) + Left(jobs[i]) == Remaining(jobs) + Left(job)
  {
    var n := |jobs| - 1;
    if i == n {
      assert jobs[i := job][..n] == jobs[..n];
    } else {
      assert jobs[i := job][..n] == jobs[..n][i := job];
      UpdateRemaining(jobs[..n], i, job);
    }
  }

  predicate Settles(e: Event) { e.Archived? || e.ArchiveFailed? }

  /** A claim keeps what remains, and processing a job always uses some of it up. */
  lemma ProcessingUsesAttempts(s: State, e: Event)
    requires Inv(s) && Allowed(s, e) && (e.Claimed? || Settles(e))
    ensures Inv(Step(s, e))
    ensures Remaining(Step(s, e).jobs) + (if Settles(e) then 1 else 0) <= Remaining(s.jobs)
  {
    StepSafe(s, e);
    if e.Claimed? {
      UpdateRemaining(s.jobs, e.index, s.jobs[e.index].(status := Running));
    } else {
      var i := Find(s.jobs, s.claim.value.id);
      UpdateRemaining(s.jobs, i, Step(s, e).jobs[i]);
    }
  }

  ghost function Processed(events: seq<Event>): nat {
    if events == [] then 0 else (if Settles(events[0]) then 1 else 0) + Processed(events[1..])
  }

  /** Without new enqueues or restarts the worker stops after at most `Remaining` jobs. */
  lemma {:induction false} WorkIsBounded(s: State, events: seq<Event>)
    requires Inv(s) && AllowedRun(s, events)
    requires forall i :: 0 <= i < |events| ==> events[i].Claimed? || Settles(events[i])
    ensures Inv(Run(s, events))
    ensures Processed(events) + Remaining(Run(s, events).jobs) <= Remaining(s.jobs)
    decreases events
  {
    if events != [] {
      ProcessingUsesAttempts(s, events[0]);
      WorkIsBounded(Step(s, events[0]), events[1..]);
    }
  }
}
