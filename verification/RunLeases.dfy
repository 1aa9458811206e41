/**
 * Processing leases of brand research runs: workers read a claimable run, then try to take it
 * with a conditional update, and keep it by heartbeats. The read and the write of a claim are
 * separate steps, so workers (in one process or several) interleave freely between them, and
 * everything else that touches a run's status may happen at any time.
 */
module RunLeases {
  import opened Text
  import opened ResearchStatus

  datatype Row = Row(status: RunStatus, token: Option<string>, expiresAt: Option<int>)

  type Runs = map<string, Row>

  /** `status = 'queued' OR (status = 'running' AND expires_at IS NOT NULL AND expires_at < now)`. */
  predicate Claimable(row: Row, now: int) {
    row.status == Queued || (row.status == Running && row.expiresAt.Some? && row.expiresAt.value < now)
  }

  // ----- Row updates -----

  function Claimed(row: Row, token: string, expiresAt: int, now: int): Row {
    if Claimable(row, now) then Row(Running, Some(token), Some(expiresAt)) else row
  }

  function Beaten(row: Row, token: string, expiresAt: int): Row {
    if row.token == Some(token) && row.status == Running then row.(expiresAt := Some(expiresAt)) else row
  }

  function Released(row: Row, token: string): Row {
    if row.token == Some(token) then row.(token := None, expiresAt := None) else row
  }

  function Ended(row: Row, status: RunStatus): Row { if Active(row.status) then Row(status, None, None) else row }

  function Retried(row: Row): Row {
    if row.status == Failed || row.status == Cancelled || row.status == Partial then Row(Queued, None, None) else row
  }

  function Swept(row: Row, now: int): Row {
    if row.status == Running && row.expiresAt.Some? && row.expiresAt.value < now then Row(Failed, None, None) else row
  }

  function Update(runs: Runs, id: string, f: Row -> Row): Runs { if id in runs then runs[id := f(runs[id])] else runs }

  class RunTable {
    var runs: Runs

    constructor ()
      ensures runs == map[]
    {
      runs := map[];
    }

    /** The conditional write of `claimBrandResearchRunForExecution`, for the run it read. */
    method TryClaim(id: string, token: string, expiresAt: int, now: int) returns (won: bool)
      modifies this
      ensures runs == Update(old(runs), id, (row: Row) => Claimed(row, token, expiresAt, now))
      ensures won <==>
              && id in old(runs)
              && var row := old(runs)[id];
                 row.status == Queued || (row.status == Running && row.expiresAt.Some? && row.expiresAt.value < now)
      ensures won ==> runs == old(runs)[id := Row(Running, Some(token), Some(expiresAt))]
      ensures !won ==> runs == old(runs)
    {
      won := id in runs && Claimable(runs[id], now);
      if won { runs := runs[id := Row(Running, Some(token), Some(expiresAt))]; }
      else if id in runs { assert runs[id := runs[id]] == runs; }
    }

    method HeartbeatLease(id: string, token: string, expiresAt: int) returns (kept: bool)
      modifies this
      ensures runs == Update(old(runs), id, (row: Row) => Beaten(row, token, expiresAt))
      ensures kept <==> id in old(runs) && old(runs)[id].token == Some(token) && old(runs)[id].status == Running
    {
      kept := id in runs && runs[id].token == Some(token) && runs[id].status == Running;
      if kept { runs := runs[id := runs[id].(expiresAt := Some(expiresAt))]; }
      else if id in runs { assert runs[id := runs[id]] == runs; }
    }

    method ClearLease(id: string, token: string)
      modifies this
      ensures runs == Update(old(runs), id, (row: Row) => Released(row, token))
    {
      if id in runs {
        if runs[id].token == Some(token) { runs := runs[id := runs[id].(token := None, expiresAt := None)]; }
        else { assert runs[id := runs[id]] == runs; }
      }
    }
  }

  // ----- Interleavings -----

  /** The rows, what each claim attempt read, and the tokens that have attempted their write. */
  datatype State = State(runs: Runs, read: map<string, string>, spent: set<string>)

  datatype Event =
    | Created(id: string)
    | ReadCandidate(token: string, id: string, now: int)
    | WroteClaim(token: string, now: int, expiresAt: int)
    | Heartbeat(token: string, id: string, expiresAt: int)
    | ClearedLease(token: string, id: string)
    | Progressed(id: string, status: RunStatus)
    | MarkedRunning(id: string)
    | EndedAs(id: string, status: RunStatus)
    | ReleasedForRetry(id: string)
    | SweptExpired(now: int)

  /** Tokens are fresh for each attempt, an attempt writes once, and a read returns a claimable run. */
  predicate Allowed(s: State, e: Event) {
    match e
    case Created(id) => id !in s.runs
    case ReadCandidate(token, id, now) => token !in s.read && token !in s.spent && id in s.runs &&
        Claimable(s.runs[id], now)
    case WroteClaim(token, _, _) => token in s.read && token !in s.spent
    case EndedAs(_, status) => status == Cancelled || status == Failed || status == Complete
    case _ => true
  }

  function Step(s: State, e: Event): State {
    match e
    case Created(id) => s.(runs := s.runs[id := Row(Queued, None, None)])
    case ReadCandidate(token, id, _) => s.(read := s.read[token := id])
    case WroteClaim(token, now, expiresAt) =>
      if token !in s.read then s
      else s.(runs := Update(s.runs, s.read[token], (row: Row) => Claimed(row, token, expiresAt, now)),
          spent := s.spent + {token})
    case Heartbeat(token, id, expiresAt) => s.(runs := Update(s.runs, id, (row: Row) => Beaten(row, token, expiresAt)))
    case ClearedLease(token, id) => s.(runs := Update(s.runs, id, (row: Row) => Released(row, token)))
    case Progressed(id, status) => s.(runs := Update(s.runs, id, (row: Row) => row.(status := status)))
    case MarkedRunning(id) =>
      s.(runs := Update(s.runs, id, (row: Row) =>
        if row.status == Queued || row.status == Partial then row.(status := Running) else row))
    case EndedAs(id, status) => s.(runs := Update(s.runs, id, (row: Row) => Ended(row, status)))
    case ReleasedForRetry(id) => s.(runs := Update(s.runs, id, (row: Row) => Retried(row)))
    case SweptExpired(now) => s.(runs := map id | id in s.runs :: Swept(s.runs[id], now))
  }

  /** The state before event `n`. */
  function At(s: State, events: seq<Event>, n: nat): State
    requires n <= |events|
  {
    if n == 0 then s else Step(At(s, events, n - 1), events[n - 1])
  }

  ghost predicate AllowedRun(s: State, events: seq<Event>) {
    forall n :: 0 <= n < |events| ==> Allowed(At(s, events, n), events[n])
  }

  lemma Next(s: State, events: seq<Event>, n: nat)
    requires n < |events|
    ensures At(s, events, n + 1) == Step(At(s, events, n), events[n])
    ensures AllowedRun(s, events) ==> Allowed(At(s, events, n), events[n])
  {
  }

  /** The attempt's write took the run `id`. */
  predicate Wins(s: State, e: Event, id: string) {
    e.WroteClaim? && e.token in s.read && s.read[e.token] == id && id in s.runs && Claimable(s.runs[id], e.now)
  }

  /** A write wins exactly a queued run, or a running one whose lease has run out, and makes the token its holder. */
  lemma WinsExactly(s: State, token: string, now: int, expiresAt: int, id: string)
    requires token in s.read && s.read[token] == id && id in s.runs
    ensures var row, s' := s.runs[id], Step(s, WroteClaim(token, now, expiresAt));
            var expired := row.expiresAt.Some? && row.expiresAt.value < now;
            var free := row.status == Queued || (row.status == Running && expired);
            && (Wins(s, WroteClaim(token, now, expiresAt), id) <==> free)
            && s'.runs == (if free then s.runs[id := Row(Running, Some(token), Some(expiresAt))] else s.runs)
  {
    assert s.runs[id := s.runs[id]] == s.runs;
  }

  /** Ending an active run, releasing a run for retry and sweeping an expired one all drop the lease. */
  lemma EndingsDropTheLease(s: State, id: string, status: RunStatus, now: int)
    requires id in s.runs
    ensures var row := s.runs[id];
            && (row.status == Queued || row.status == Running || row.status == Partial ==>
                  Step(s, EndedAs(id, status)).runs[id] == Row(status, None, None))
            && (row.status == Complete || row.status == Failed || row.status == Cancelled ==>
                  Step(s, EndedAs(id, status)).runs[id] == row)
            && (row.status == Failed || row.status == Cancelled || row.status == Partial ==>
                  Step(s, ReleasedForRetry(id)).runs[id] == Row(Queued, None, None))
            && Step(s, SweptExpired(now)).runs[id] ==
               (if row.status == Running && row.expiresAt.Some? && row.expiresAt.value < now
                then Row(Failed, None, None) else row)
  {
  }

  /** The event puts the run back in the queue. */
  predicate Requeues(s: State, e: Event, id: string) {
    id in s.runs && s.runs[id].status != Queued && id in Step(s, e).runs && Step(s, e).runs[id].status == Queued
  }

  // ----- Taking a run from its holder -----

  /** Since winning at `i`, the only lease on the run is this token's, as it last wrote it. */
  ghost predicate HeldSince(events: seq<Event>, i: nat, n: nat, row: Row, token: string, id: string)
    requires n <= |events|
  {
    && row.status != Queued
    && (row.token == None || row.token == Some(token))
    && (row.expiresAt.Some? ==> row.token == Some(token) && WrittenBy(events, i, n, token, id, row.expiresAt.value))
  }

  /** The holder's claim or one of its heartbeats set this expiry. */
  ghost predicate WrittenBy(events: seq<Event>, i: nat, n: nat, token: string, id: string, expiresAt: int)
    requires n <= |events|
  {
    exists k :: i <= k < n && SetsExpiry(events[k], token, id, expiresAt)
  }

  predicate SetsExpiry(e: Event, token: string, id: string, expiresAt: int) {
    (e.WroteClaim? && e.token == token && e.expiresAt == expiresAt) || e == Heartbeat(token, id, expiresAt)
  }

  /**
   * The row of `id` is written only by a win, a heartbeat of its holder, or an update that drops or
   * keeps the lease.
   */
  lemma RowStep(s: State, e: Event, id: string)
    requires id in s.runs && Allowed(s, e)
    ensures id in Step(s, e).runs
    ensures var row, row' := s.runs[id], Step(s, e).runs[id];
            || Wins(s, e, id)
            || (row'.token == None && row'.expiresAt == None)
            || (row'.token == row.token && row'.expiresAt == row.expiresAt)
            || (e.Heartbeat? && e.id == id && row.token == Some(e.token) &&
                 row' == row.(expiresAt := Some(e.expiresAt)))
    ensures Wins(s, e, id) ==> Step(s, e).runs[id] == Row(Running, Some(e.token), Some(e.expiresAt))
  {
  }

  lemma HeldStep(s: State, events: seq<Event>, i: nat, n: nat, token: string, id: string)
    requires i < n < |events| && AllowedRun(s, events) && id in At(s, events, n).runs
    requires HeldSince(events, i, n, At(s, events, n).runs[id], token, id)
    requires !Wins(At(s, events, n), events[n], id) && !Requeues(At(s, events, n), events[n], id)
    ensures id in At(s, events, n + 1).runs
    ensures HeldSince(events, i, n + 1, At(s, events, n + 1).runs[id], token, id)
  {
    var before := At(s, events, n);
    assert Allowed(before, events[n]);
    RowStep(before, events[n], id);
    var row, row' := before.runs[id], Step(before, events[n]).runs[id];
    if row.expiresAt.Some? {
      var k :| i <= k < n && SetsExpiry(events[k], token, id, row.expiresAt.value);
      assert WrittenBy(events, i, n + 1, token, id, row.expiresAt.value);
    }
    if row'.expiresAt.Some? && row'.expiresAt != row.expiresAt {
      assert SetsExpiry(events[n], token, id, row'.expiresAt.value);
    }
  }

  lemma {:induction false} HeldUntil(s: State, events: seq<Event>, i: nat, j: nat, id: string)
    requires i < j <= |events| && AllowedRun(s, events)
    requires Wins(At(s, events, i), events[i], id)
    requires forall k :: i < k < j ==>
            !Wins(At(s, events, k), events[k], id) && !Requeues(At(s, events, k), events[k], id)
    ensures id in At(s, events, j).runs
    ensures HeldSince(events, i, j, At(s, events, j).runs[id], events[i].token, id)
    decreases j
  {
    hide Step, At, Allowed, AllowedRun, Requeues;
    if j == i + 1 {
      Next(s, events, i);
      RowStep(At(s, events, i), events[i], id);
      assert SetsExpiry(events[i], events[i].token, id, events[i].expiresAt);
    } else {
      hide Wins, HeldSince;
      HeldUntil(s, events, i, j - 1, id);
      HeldStep(s, events, i, j - 1, events[i].token, id);
    }
  }

  /**
   * When one attempt wins a run after another, either the run went back to the queue in
   * between, or the first holder's own lease, as it last wrote it, had expired.
   */
  lemma NextWinNeedsExpiryOrRequeue(s: State, events: seq<Event>, i: nat, j: nat, id: string)
    requires i < j < |events| && AllowedRun(s, events)
    requires Wins(At(s, events, i), events[i], id) && Wins(At(s, events, j), events[j], id)
    requires forall k :: i < k < j ==> !Wins(At(s, events, k), events[k], id)
    ensures (exists k :: i < k < j && Requeues(At(s, events, k), events[k], id)) ||
            (var row := At(s, events, j).runs[id];
             && row.status == Running && row.token == Some(events[i].token)
             && row.expiresAt.Some? && row.expiresAt.value < events[j].now
             && WrittenBy(events, i, j, events[i].token, id, row.expiresAt.value))
  {
    if !exists k :: i < k < j && Requeues(At(s, events, k), events[k], id) { HeldUntil(s, events, i, j, id); }
  }

  /**
   * A write that comes after another attempt's win changes nothing while that lease lasts and the
   * run is not requeued.
   */
  lemma LateWriteChangesNothing(s: State, events: seq<Event>, i: nat, j: nat, id: string)
    requires i < j < |events| && AllowedRun(s, events)
    requires Wins(At(s, events, i), events[i], id)
    requires events[j].WroteClaim? && At(s, events, j).read[events[j].token] == id
    requires forall k :: i < k < j ==>
            !Wins(At(s, events, k), events[k], id) && !Requeues(At(s, events, k), events[k], id)
    requires id in At(s, events, j).runs && At(s, events, j).runs[id].expiresAt.Some? ==>
            events[j].now <= At(s, events, j).runs[id].expiresAt.value
    ensures At(s, events, j + 1).runs == At(s, events, j).runs
  {
    HeldUntil(s, events, i, j, id);
    var before := At(s, events, j);
    assert !Claimable(before.runs[id], events[j].now);
    assert before.runs[id := before.runs[id]] == before.runs;
  }

  // ----- The holder is undisturbed -----

  /** An event of another worker, or about another run, while the lease lasts. */
  predicate Foreign(s: State, e: Event, id: string, token: string, expiresAt: int) {
    match e
    case Created(x) => x != id
    case ReadCandidate(_, _, _) => true
    case WroteClaim(t, now, _) => t in s.read && s.read[t] == id ==> now <= expiresAt
    case Heartbeat(t, x, _) => x != id || t != token
    case ClearedLease(t, x) => x != id || t != token
    case Progressed(x, _) => x != id
    case MarkedRunning(_) => true
    case EndedAs(x, _) => x != id
    case ReleasedForRetry(_) => true
    case SweptExpired(now) => now <= expiresAt
  }

  /** No interleaving of other workers' claims, heartbeats and clears touches a lease that has not expired. */
  lemma {:induction false} HolderUndisturbed(s: State, events: seq<Event>, n: nat, id: string, token: string,
      expiresAt: int)
    requires n <= |events| && id in s.runs && s.runs[id] == Row(Running, Some(token), Some(expiresAt))
    requires forall k :: 0 <= k < n ==> Foreign(At(s, events, k), events[k], id, token, expiresAt)
    ensures id in At(s, events, n).runs && At(s, events, n).runs[id] == s.runs[id]
    decreases n
  {
    hide Step, Foreign;
    if n > 0 {
      HolderUndisturbed(s, events, n - 1, id, token, expiresAt);
      ForeignStep(At(s, events, n - 1), events[n - 1], id, token, expiresAt);
    }
  }

  lemma ForeignStep(s: State, e: Event, id: string, token: string, expiresAt: int)
    requires id in s.runs && s.runs[id] == Row(Running, Some(token), Some(expiresAt)) &&
            Foreign(s, e, id, token, expiresAt)
    ensures id in Step(s, e).runs && Step(s, e).runs[id] == s.runs[id]
  {
  }

  // ----- A stale worker -----

  lemma StaleStep(s: State, e: Event, id: string, token: string)
    requires Allowed(s, e) && id in s.runs && s.runs[id].token != Some(token) && token in s.spent
    ensures id in Step(s, e).runs && Step(s, e).runs[id].token != Some(token) && token in Step(s, e).spent
  {
    RowStep(s, e, id);
  }

  /** A token that has had its write never holds the run again once it lost it. */
  lemma {:induction false} StaleNeverHolds(s: State, events: seq<Event>, n: nat, m: nat, id: string, token: string)
    requires n <= m <= |events| && AllowedRun(s, events)
    requires id in At(s, events, n).runs && At(s, events, n).runs[id].token != Some(token) &&
            token in At(s, events, n).spent
    ensures id in At(s, events, m).runs && At(s, events, m).runs[id].token != Some(token) &&
            token in At(s, events, m).spent
    decreases m
  {
    hide Step, Allowed, AllowedRun, At;
    if n < m {
      StaleNeverHolds(s, events, n, m - 1, id, token);
      Next(s, events, m - 1);
      StaleStep(At(s, events, m - 1), events[m - 1], id, token);
    }
  }

  lemma SpentStep(s: State, e: Event, token: string)
    requires token in s.spent || (e.WroteClaim? && e.token == token && token in s.read)
    ensures token in Step(s, e).spent
  {
  }

  lemma {:induction false} SpentStays(s: State, events: seq<Event>, n: nat, m: nat, token: string)
    requires n <= m <= |events| && token in At(s, events, n).spent
    ensures token in At(s, events, m).spent
    decreases m
  {
    hide Step, At;
    if n < m {
      SpentStays(s, events, n, m - 1, token);
      Next(s, events, m - 1);
      SpentStep(At(s, events, m - 1), events[m - 1], token);
    }
  }

  /** Two attempts that won the same run had different tokens; the later win's row carries the later one. */
  lemma LaterWinReplaces(s: State, events: seq<Event>, i: nat, j: nat, id: string)
    requires i < j < |events| && AllowedRun(s, events)
    requires Wins(At(s, events, i), events[i], id) && Wins(At(s, events, j), events[j], id)
    ensures id in At(s, events, j + 1).runs
    ensures At(s, events, j + 1).runs[id].token != Some(events[i].token)
    ensures events[i].token in At(s, events, j + 1).spent
  {
    hide Step, At, AllowedRun;
    var token := events[i].token;
    SpentStep(At(s, events, i), events[i], token);
    Next(s, events, i);
    SpentStays(s, events, i + 1, j, token);
    Next(s, events, j);
    RowStep(At(s, events, j), events[j], id);
    SpentStep(At(s, events, j), events[j], token);
  }

  lemma StrangerStep(s: State, e: Event, id: string, token: string)
    requires id in s.runs && s.runs[id].token != Some(token) && (e.Heartbeat? || e.ClearedLease?) && e.token == token
    ensures id in Step(s, e).runs && Step(s, e).runs[id] == s.runs[id]
  {
  }

  /** In any interleaving, heartbeats and clears of a worker that lost the run never alter a later holder's row. */
  lemma StaleWorkerIsHarmless(s: State, events: seq<Event>, i: nat, j: nat, k: nat, id: string)
    requires i < j < k < |events| && AllowedRun(s, events)
    requires Wins(At(s, events, i), events[i], id) && Wins(At(s, events, j), events[j], id)
    requires (events[k].Heartbeat? || events[k].ClearedLease?) && events[k].token == events[i].token
    ensures id in At(s, events, k).runs && id in At(s, events, k + 1).runs
    ensures At(s, events, k + 1).runs[id] == At(s, events, k).runs[id]
  {
    hide Step, At, Allowed, AllowedRun, Wins;
    Next(s, events, k);
    LaterWinReplaces(s, events, i, j, id);
    StaleNeverHolds(s, events, j + 1, k, id, events[k].token);
    StrangerStep(At(s, events, k), events[k], id, events[k].token);
  }
}
