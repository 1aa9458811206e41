/**
 * Outstanding authorization states of the managed Google connection: `start` publishes a
 * challenge and stores the sealed verifier under the hash of a fresh state, a callback
 * consumes the state at most once and exchanges the code with that verifier (sections 4.2
 * and 4.6 of RFC 7636).
 *
 * SHA-256 is an injective digest, the verifier is sealed for its tenant, and random states
 * never repeat.
 */
module OAuthStates {
  import opened Text
  import opened Sealing

  const OAUTH_STATE_TTL_MS: int := 10 * 60000

  datatype Tenant = Tenant(assistantId: string, organizationId: string, userId: string)

  datatype Digest = Sha256(input: string)

  datatype StateRow = StateRow(tenant: Tenant, verifier: Sealed<Tenant>, expiresAtMs: int)

  type States = map<Digest, StateRow>

  predicate SameUser(a: Tenant, b: Tenant) { a.assistantId == b.assistantId && a.userId == b.userId }

  /** What `start` stores; its delete drops expired rows and the user's earlier ones. */
  function Started(states: States, tenant: Tenant, state: string, verifier: string, now: int): States {
    (map h | h in states && now < states[h].expiresAtMs && !SameUser(states[h].tenant, tenant) :: states[h])
      [Sha256(state) := StateRow(tenant, Sealed(tenant, verifier), now + OAUTH_STATE_TTL_MS)]
  }

  datatype Completion = Ignored | Denied | Exchange(tenant: Tenant, verifier: string)

  /** `complete`, up to the request to the token endpoint. */
  function Completed(states: States, state: string, granted: bool, now: int): Completion {
    if Sha256(state) !in states then Ignored
    else
      var row := states[Sha256(state)];
      if row.expiresAtMs <= now then Ignored
      else if !granted then Denied
      else
        match OpenSealed(row.verifier, row.tenant)
        case None => Denied
        case Some(v) => Exchange(row.tenant, v)
  }

  class OAuthService {
    var states: States

    constructor ()
      ensures states == map[]
    {
      states := map[];
    }

    /** The challenge published in the authorization address. */
    method Start(tenant: Tenant, state: string, verifier: string, now: int) returns (challenge: Digest)
      modifies this
      ensures states == Started(old(states), tenant, state, verifier, now)
      ensures challenge == Sha256(verifier)
    {
      states := map h | h in states && now < states[h].expiresAtMs && !SameUser(states[h].tenant, tenant) :: states[h];
      states := states[Sha256(state) := StateRow(tenant, Sealed(tenant, verifier), now + OAUTH_STATE_TTL_MS)];
      challenge := Sha256(verifier);
    }

    method ConsumeState(state: string, now: int) returns (row: Option<StateRow>)
      modifies this
      ensures states == old(states) - {Sha256(state)}
      ensures row == if Sha256(state) in old(states) && now < old(states)[Sha256(state)].expiresAtMs
                     then Some(old(states)[Sha256(state)]) else None
    {
      var h := Sha256(state);
      if h !in states { return None; }
      row := Some(states[h]);
      states := states - {h};
      if row.value.expiresAtMs <= now { row := None; }
    }

    method Complete(state: string, granted: bool, now: int) returns (c: Completion)
      modifies this
      ensures states == old(states) - {Sha256(state)}
      ensures c == Completed(old(states), state, granted, now)
    {
      var row := ConsumeState(state, now);
      if row.None? { return Ignored; }
      if !granted { return Denied; }
      var v := OpenSealed(row.value.verifier, row.value.tenant);
      if v.None? { return Denied; }
      return Exchange(row.value.tenant, v.value);
    }
  }

  // ----- Interleavings -----

  datatype Event =
    | StartCalled(tenant: Tenant, state: string, verifier: string, now: int)
    | CallbackCalled(state: string, granted: bool, now: int)

  function Step(states: States, e: Event): States {
    match e
    case StartCalled(tenant, state, verifier, now) => Started(states, tenant, state, verifier, now)
    case CallbackCalled(state, _, _) => states - {Sha256(state)}
  }

  /** The table before event `n`. */
  function At(events: seq<Event>, n: nat): States
    requires n <= |events|
  {
    if n == 0 then map[] else Step(At(events, n - 1), events[n - 1])
  }

  function Outcome(events: seq<Event>, n: nat): Completion
    requires n < |events| && events[n].CallbackCalled?
  {
    Completed(At(events, n), events[n].state, events[n].granted, events[n].now)
  }

  /** Random states do not repeat. */
  ghost predicate FreshStates(events: seq<Event>) {
    forall i, j :: 0 <= i < j < |events| && events[i].StartCalled? && events[j].StartCalled? ==>
        events[i].state != events[j].state
  }

  ghost predicate ClockForward(events: seq<Event>) {
    forall i, j :: 0 <= i < j < |events| ==> events[i].now <= events[j].now
  }

  function Expiry(e: Event): int { e.now + OAUTH_STATE_TTL_MS }

  /** The event ends the life of the start: its callback, a newer start of the same user, or a start that sweeps it. */
  predicate Ends(e: Event, start: Event)
    requires start.StartCalled?
  {
    match e
    case CallbackCalled(state, _, _) => state == start.state
    case StartCalled(tenant, _, _, now) => SameUser(tenant, start.tenant) || Expiry(start) <= now
  }

  /** Start `i` is outstanding just before event `n`. */
  ghost predicate Outstanding(events: seq<Event>, i: int, n: nat)
    requires n <= |events|
    ensures Outstanding(events, i, n) ==> 0 <= i < n && events[i].StartCalled?
  {
    0 <= i < n && events[i].StartCalled? && forall m :: i < m < n ==> !Ends(events[m], events[i])
  }

  function RowOf(start: Event): StateRow
    requires start.StartCalled?
  {
    StateRow(start.tenant, Sealed(start.tenant, start.verifier), Expiry(start))
  }

  /** The start's row is in the table. */
  ghost predicate Kept(states: States, start: Event) {
    start.StartCalled? && Sha256(start.state) in states && states[Sha256(start.state)] == RowOf(start)
  }

  /** The row with this hash belongs to an outstanding start. */
  ghost predicate Owned(events: seq<Event>, n: nat, h: Digest)
    requires n <= |events|
  {
    exists i :: Outstanding(events, i, n) && Sha256(events[i].state) == h
  }

  /** The table holds exactly the rows of the outstanding starts. */
  ghost predicate Exact(events: seq<Event>, n: nat)
    requires n <= |events|
  {
    && (forall i :: Outstanding(events, i, n) ==> Kept(At(events, n), events[i]))
    && (forall h :: h in At(events, n) ==> Owned(events, n, h))
  }

  lemma OutstandingNext(events: seq<Event>, i: int, n: nat)
    requires n < |events|
    ensures Outstanding(events, i, n + 1) <==>
            (i == n && events[n].StartCalled?) || (Outstanding(events, i, n) && !Ends(events[n], events[i]))
  {
  }

  /** A start keeps the rows it does not end, and drops the others. */
  lemma StartedRows(states: States, e: Event, start: Event)
    requires e.StartCalled? && start.StartCalled? && e.state != start.state
    ensures Kept(states, start) && !Ends(e, start) ==> Kept(Step(states, e), start)
    ensures Kept(states, start) && Ends(e, start) ==> Sha256(start.state) !in Step(states, e)
    ensures Kept(Step(states, e), e)
  {
  }

  lemma StartExact(events: seq<Event>, n: nat)
    requires n < |events| && events[n].StartCalled? && FreshStates(events) && Exact(events, n)
    ensures Exact(events, n + 1)
  {
    hide Ends, Kept, Outstanding;
    var before, after := At(events, n), Step(At(events, n), events[n]);
    forall i | Outstanding(events, i, n + 1) ensures Kept(after, events[i]) {
      OutstandingNext(events, i, n);
      if i == n { NewRowKept(before, events[n]); } else { StartedRows(before, events[n], events[i]); }
    }
    forall h | h in after ensures Owned(events, n + 1, h) {
      OutstandingNext(events, n, n);
      if h != Sha256(events[n].state) {
        assert Owned(events, n, h);
        var i :| Outstanding(events, i, n) && Sha256(events[i].state) == h;
        OutstandingNext(events, i, n);
        StartedRows(before, events[n], events[i]);
      }
    }
  }

  lemma NewRowKept(states: States, e: Event)
    requires e.StartCalled?
    ensures Kept(Step(states, e), e)
  {
  }

  lemma CallbackExact(events: seq<Event>, n: nat)
    requires n < |events| && events[n].CallbackCalled? && Exact(events, n)
    ensures Exact(events, n + 1)
  {
    hide Outstanding;
    var before, after := At(events, n), Step(At(events, n), events[n]);
    forall i | Outstanding(events, i, n + 1) ensures Kept(after, events[i]) {
      OutstandingNext(events, i, n);
    }
    forall h | h in after ensures Owned(events, n + 1, h) {
      assert Owned(events, n, h);
      var i :| Outstanding(events, i, n) && Sha256(events[i].state) == h;
      OutstandingNext(events, i, n);
    }
  }

  lemma {:induction false} TableExact(events: seq<Event>, n: nat)
    requires n <= |events| && FreshStates(events)
    ensures Exact(events, n)
  {
    if n > 0 {
      hide Exact;
      TableExact(events, n - 1);
      if events[n - 1].StartCalled? { StartExact(events, n - 1); } else { CallbackExact(events, n - 1); }
    }
  }

  /** In every interleaving at most one state is outstanding per assistant and user. */
  lemma OneOutstandingPerUser(events: seq<Event>, n: nat, a: Digest, b: Digest)
    requires n <= |events| && FreshStates(events)
    requires a in At(events, n) && b in At(events, n)
    requires At(events, n)[a].tenant.assistantId == At(events, n)[b].tenant.assistantId
    requires At(events, n)[a].tenant.userId == At(events, n)[b].tenant.userId
    ensures a == b
  {
    hide At;
    TableExact(events, n);
    assert Owned(events, n, a) && Owned(events, n, b);
    var i :| Outstanding(events, i, n) && Sha256(events[i].state) == a;
    var j :| Outstanding(events, j, n) && Sha256(events[j].state) == b;
    assert Kept(At(events, n), events[i]) && Kept(At(events, n), events[j]);
  }

  /** The start whose state this callback carries, still outstanding and unexpired. */
  ghost predicate Redeems(events: seq<Event>, n: nat, i: int)
    requires n < |events|
  {
    && Outstanding(events, i, n) && events[n].CallbackCalled?
    && events[n].state == events[i].state && events[n].now < Expiry(events[i])
  }

  /**
   * A callback reaches the token endpoint exactly when the user granted it and its state is
   * that of an outstanding, unexpired start; the verifier it sends is that start's own, whose
   * challenge was published.
   */
  lemma ExchangeExactly(events: seq<Event>, n: nat)
    requires n < |events| && FreshStates(events) && events[n].CallbackCalled?
    ensures Outcome(events, n).Exchange? <==> events[n].granted && exists i :: Redeems(events, n, i)
    ensures forall i :: Redeems(events, n, i) && events[n].granted ==>
            Outcome(events, n) == Exchange(events[i].tenant, events[i].verifier)
  {
    hide At;
    TableExact(events, n);
    var h := Sha256(events[n].state);
    if h in At(events, n) && events[n].now < At(events, n)[h].expiresAtMs {
      assert Owned(events, n, h);
      var i :| Outstanding(events, i, n) && Sha256(events[i].state) == h;
      assert Kept(At(events, n), events[i]);
      assert Redeems(events, n, i);
    }
    forall i | Redeems(events, n, i) ensures Kept(At(events, n), events[i]) { }
  }

  /** The verifier sent is the one whose S256 challenge the same start published. */
  lemma VerifierMatchesChallenge(events: seq<Event>, n: nat, challenges: seq<Digest>)
    requires n < |events| && FreshStates(events) && events[n].CallbackCalled? && Outcome(events, n).Exchange?
    requires |challenges| == |events|
    requires forall i :: 0 <= i < |events| && events[i].StartCalled? ==> challenges[i] == Sha256(events[i].verifier)
    ensures exists i ::
              && Redeems(events, n, i)
              && challenges[i] == Sha256(Outcome(events, n).verifier) && Outcome(events, n).tenant == events[i].tenant
  {
    ExchangeExactly(events, n);
    var i :| Redeems(events, n, i);
    assert Outcome(events, n) == Exchange(events[i].tenant, events[i].verifier);
  }

  /** Each start leads to at most one exchange: two exchanges never carry the same state. */
  lemma ExchangedOnce(events: seq<Event>, n: nat, m: nat)
    requires n < m < |events| && FreshStates(events)
    requires events[n].CallbackCalled? && events[m].CallbackCalled? && Outcome(events, n).Exchange? &&
            Outcome(events, m).Exchange?
    ensures events[n].state != events[m].state
  {
    ExchangeExactly(events, n);
    ExchangeExactly(events, m);
    var i :| Redeems(events, n, i);
    var j :| Redeems(events, m, j);
  }

  /** And none once a newer start of the same user superseded it, or once it expired. */
  lemma SupersededOrExpiredNeverExchanges(events: seq<Event>, i: nat, n: nat)
    requires i < n < |events| && FreshStates(events) && events[i].StartCalled? && events[n].CallbackCalled? &&
            events[n].state == events[i].state
    requires (exists m ::
                && i < m < n && events[m].StartCalled?
                && events[m].tenant.assistantId == events[i].tenant.assistantId
                && events[m].tenant.userId == events[i].tenant.userId)
             || events[i].now + 600000 <= events[n].now
    ensures !Outcome(events, n).Exchange?
  {
    hide Outcome;
    ExchangeExactly(events, n);
    forall j ensures !Redeems(events, n, j) {
      if m :| i < m < n && events[m].StartCalled? && SameUser(events[m].tenant, events[i].tenant) {
        assert Ends(events[m], events[i]);
      }
    }
  }

  /** With a clock that does not run backwards, the sweep never takes a start that could still be redeemed. */
  lemma LiveStartIsRedeemed(events: seq<Event>, i: nat, n: nat)
    requires i < n < |events| && FreshStates(events) && ClockForward(events)
    requires events[i].StartCalled? && events[n] == CallbackCalled(events[i].state, true, events[n].now) &&
            events[n].now < events[i].now + 600000
    requires forall m :: i < m < n && events[m].StartCalled? ==>
               events[m].tenant.assistantId != events[i].tenant.assistantId ||
               events[m].tenant.userId != events[i].tenant.userId
    requires forall m :: i < m < n && events[m].CallbackCalled? ==> events[m].state != events[i].state
    ensures Outcome(events, n) == Exchange(events[i].tenant, events[i].verifier)
  {
    forall m | i < m < n ensures !Ends(events[m], events[i]) { assert events[m].now <= events[n].now; }
    assert Redeems(events, n, i);
    ExchangeExactly(events, n);
  }
}
