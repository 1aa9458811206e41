/**
 * Request capabilities of the pooled model key vault: minting, resolving, revoking and the
 * lazy pruning of expired requests, against a specification by history that never prunes.
 *
 * A validly signed capability is represented by its claims; the worker's current lease is the
 * answer of the lease table at resolve time.
 */
module PooledCapabilities {
  import opened Text
  import opened VaultCommon

  const TTL_SECONDS: int := 7 * 60
  datatype Lease = Lease(tenant: Tenant, workerStackId: string, leaseGeneration: int, leaseExpiresAtMs: int)

  datatype Claims = Claims(iat: int, exp: int, jti: string, tenant: Tenant, workerStackId: string, leaseGeneration: int)

  datatype ActiveRequest = ActiveRequest(tenant: Tenant, workerStackId: string, leaseGeneration: int,
      expiresAtSeconds: int)

  type Table = map<string, ActiveRequest>

  // ----- Operations on the table -----

  datatype MintRequest = MintRequest(tenant: Tenant, lease: Lease, requestId: string, nowMs: int)

  /** Every check of `mintRequestCapability` that does not look at the table. */
  predicate MintChecks(r: MintRequest) {
    && OpaqueId(r.tenant.organizationId) && OpaqueId(r.tenant.userId) && OpaqueId(r.tenant.assistantId)
    && r.lease.tenant == r.tenant
    && OpaqueId(r.lease.workerStackId) && OpaqueId(r.requestId)
    && SafeInteger(r.lease.leaseGeneration) && r.lease.leaseGeneration >= 1
    && SafeInteger(r.lease.leaseExpiresAtMs) && SafeInteger(r.nowMs) && r.nowMs >= 0
    && r.lease.leaseExpiresAtMs > r.nowMs
  }

  function MintedClaims(r: MintRequest): Claims {
    Claims(Seconds(r.nowMs), Seconds(r.nowMs) + TTL_SECONDS, r.requestId, r.tenant, r.lease.workerStackId,
        r.lease.leaseGeneration)
  }

  function Entry(c: Claims): ActiveRequest { ActiveRequest(c.tenant, c.workerStackId, c.leaseGeneration, c.exp) }

  function Prune(t: Table, nowSeconds: int): Table {
    map id | id in t && nowSeconds < t[id].expiresAtSeconds :: t[id]
  }

  /** The claims put in the capability, if the request is granted, and the table after it. */
  function Mint(t: Table, r: MintRequest): (Table, Option<Claims>) {
    if !MintChecks(r) then (t, None)
    else
      var pruned := Prune(t, Seconds(r.nowMs));
      if r.requestId in pruned then (pruned, None)
      else (pruned[r.requestId := Entry(MintedClaims(r))], Some(MintedClaims(r)))
  }

  datatype Outcome =
    | Granted(tenant: Tenant)
    | Malformed
    | Expired
    | InactiveRequest
    | InactiveLease
    | StaleLeaseGeneration
    | LeaseBindingMismatch

  /** The lease checks, made only for an active request. */
  function LeaseOutcome(c: Claims, lease: Option<Lease>): Outcome {
    match lease
    case None => InactiveLease
    case Some(active) =>
      if active.leaseGeneration != c.leaseGeneration then StaleLeaseGeneration
      else if active.tenant != c.tenant then LeaseBindingMismatch
      else Granted(c.tenant)
  }

  function Resolve(t: Table, c: Claims, lease: Option<Lease>, nowMs: int): (Table, Outcome) {
    if !SafeInteger(nowMs) || nowMs < 0 then (t, Malformed)
    else
      var now := Seconds(nowMs);
      var pruned := Prune(t, now);
      if c.exp <= now || c.iat > now + 5 || c.exp - c.iat > TTL_SECONDS then (pruned, Expired)
      else if c.jti !in pruned || pruned[c.jti] != Entry(c) then (pruned, InactiveRequest)
      else (pruned, LeaseOutcome(c, lease))
  }

  class RequestTable {
    var activeRequests: Table

    constructor ()
      ensures activeRequests == map[]
    {
      activeRequests := map[];
    }

    method PruneExpiredRequests(nowSeconds: int)
      modifies this
      ensures activeRequests == Prune(old(activeRequests), nowSeconds)
    {
      var rest := activeRequests.Keys;
      while rest != {}
        invariant rest <= old(activeRequests).Keys
        invariant forall id :: id in activeRequests <==>
                id in old(activeRequests) && (id in rest || nowSeconds < old(activeRequests)[id].expiresAtSeconds)
        invariant forall id :: id in activeRequests ==> activeRequests[id] == old(activeRequests)[id]
        decreases rest
      {
        var id :| id in rest;
        if activeRequests[id].expiresAtSeconds <= nowSeconds { activeRequests := activeRequests - {id}; }
        rest := rest - {id};
      }
    }

    method MintRequestCapability(r: MintRequest) returns (claims: Option<Claims>)
      modifies this
      ensures (activeRequests, claims) == Mint(old(activeRequests), r)
    {
      if !MintChecks(r) { return None; }
      PruneExpiredRequests(Seconds(r.nowMs));
      if r.requestId in activeRequests { return None; }
      var c := MintedClaims(r);
      activeRequests := activeRequests[c.jti := Entry(c)];
      return Some(c);
    }

    method ResolveWithCapability(c: Claims, lease: Option<Lease>, nowMs: int) returns (outcome: Outcome)
      modifies this
      ensures (activeRequests, outcome) == Resolve(old(activeRequests), c, lease, nowMs)
    {
      if !SafeInteger(nowMs) || nowMs < 0 { return Malformed; }
      var now := Seconds(nowMs);
      PruneExpiredRequests(now);
      if c.exp <= now || c.iat > now + 5 || c.exp - c.iat > TTL_SECONDS { return Expired; }
      if c.jti !in activeRequests || activeRequests[c.jti] != Entry(c) { return InactiveRequest; }
      if lease.None? { return InactiveLease; }
      if lease.value.leaseGeneration != c.leaseGeneration { return StaleLeaseGeneration; }
      if lease.value.tenant != c.tenant { return LeaseBindingMismatch; }
      return Granted(c.tenant);
    }

    method RevokeRequestCapability(id: string) returns (revoked: bool)
      modifies this
      ensures activeRequests == old(activeRequests) - {id}
      ensures revoked <==> id in old(activeRequests)
    {
      revoked := id in activeRequests;
      activeRequests := activeRequests - {id};
    }

    method RevokeAllRequestCapabilities() returns (revoked: nat)
      modifies this
      ensures activeRequests == map[] && revoked == |old(activeRequests)|
    {
      revoked := |activeRequests|;
      activeRequests := map[];
    }
  }

  // ----- The history specification -----

  /** What happened that matters: grants and revocations. Pruning leaves no trace. */
  datatype Record = Minted(claims: Claims) | Revoked(id: string) | RevokedAll

  /** Position of the last grant of `id` that was not revoked since. */
  function Standing(h: seq<Record>, id: string): (r: Option<nat>)
    ensures r.Some? ==> r.value < |h| && h[r.value].Minted? && h[r.value].claims.jti == id
  {
    if h == [] then None
    else
      var n := |h| - 1;
      match h[n]
      case Minted(c) => if c.jti == id then Some(n) else Standing(h[..n], id)
      case Revoked(x) => if x == id then None else Standing(h[..n], id)
      case RevokedAll => None
  }

  predicate Live(h: seq<Record>, id: string, now: int) {
    Standing(h, id).Some? && now < h[Standing(h, id).value].claims.exp
  }

  function SpecMint(h: seq<Record>, r: MintRequest): Option<Claims> {
    if MintChecks(r) && !Live(h, r.requestId, Seconds(r.nowMs)) then Some(MintedClaims(r)) else None
  }

  function SpecResolve(h: seq<Record>, c: Claims, lease: Option<Lease>, nowMs: int): Outcome {
    if !SafeInteger(nowMs) || nowMs < 0 then Malformed
    else
      var now := Seconds(nowMs);
      if c.exp <= now || c.iat > now + 5 || c.exp - c.iat > TTL_SECONDS then Expired
      else if !Live(h, c.jti, now) || Entry(h[Standing(h, c.jti).value].claims) != Entry(c) then InactiveRequest
      else LeaseOutcome(c, lease)
  }

  // ----- Runs -----

  datatype Event =
    | MintAsked(request: MintRequest)
    | ResolveAsked(claims: Claims, lease: Option<Lease>, nowMs: int)
    | RevokeAsked(id: string)
    | RevokeAllAsked
    | Pruned(nowSeconds: int)

  datatype Output = MintAnswer(claims: Option<Claims>) | ResolveAnswer(outcome: Outcome) | Silent

  /** The table with its history and the last second it was pruned at. */
  datatype State = State(table: Table, history: seq<Record>, prunedAt: int)

  function Answer(s: State, e: Event): Output {
    match e
    case MintAsked(r) => MintAnswer(Mint(s.table, r).1)
    case ResolveAsked(c, lease, nowMs) => ResolveAnswer(Resolve(s.table, c, lease, nowMs).1)
    case _ => Silent
  }

  function Recorded(h: seq<Record>, granted: Option<Claims>): seq<Record> {
    if granted.Some? then h + [Minted(granted.value)] else h
  }

  /** The second at which the event prunes, if it does. */
  function PruneTime(e: Event): Option<int> {
    match e
    case MintAsked(r) => if MintChecks(r) then Some(Seconds(r.nowMs)) else None
    case ResolveAsked(_, _, nowMs) => if SafeInteger(nowMs) && nowMs >= 0 then Some(Seconds(nowMs)) else None
    case Pruned(now) => Some(now)
    case _ => None
  }

  function Step(s: State, e: Event): State {
    var prunedAt := if PruneTime(e).Some? then PruneTime(e).value else s.prunedAt;
    match e
    case MintAsked(r) => State(Mint(s.table, r).0, Recorded(s.history, Mint(s.table, r).1), prunedAt)
    case ResolveAsked(c, lease, nowMs) => State(Resolve(s.table, c, lease, nowMs).0, s.history, prunedAt)
    case RevokeAsked(id) => State(s.table - {id}, s.history + [Revoked(id)], prunedAt)
    case RevokeAllAsked => State(map[], s.history + [RevokedAll], prunedAt)
    case Pruned(now) => State(Prune(s.table, now), s.history, prunedAt)
  }

  /** The clock does not run backwards. */
  predicate Timely(s: State, e: Event) { PruneTime(e).Some? ==> s.prunedAt <= PruneTime(e).value }

  /** The table holds exactly the standing grants not yet expired when it was last pruned. */
  ghost predicate Abstracts(s: State) {
    forall id ::
      && (id in s.table <==> Live(s.history, id, s.prunedAt))
      && (id in s.table ==> s.table[id] == Entry(s.history[Standing(s.history, id).value].claims))
  }

  lemma StandingAfterMint(h: seq<Record>, c: Claims, id: string)
    ensures Standing(h + [Minted(c)], id) == if c.jti == id then Some(|h|) else Standing(h, id)
  {
    assert (h + [Minted(c)])[..|h|] == h;
  }

  lemma StandingAfterRevoke(h: seq<Record>, x: string, id: string)
    ensures Standing(h + [Revoked(x)], id) == if x == id then None else Standing(h, id)
    ensures Standing(h + [RevokedAll], id) == None
  {
    assert (h + [Revoked(x)])[..|h|] == h;
  }

  lemma PruneAbstracts(s: State, now: int)
    requires Abstracts(s) && s.prunedAt <= now
    ensures Abstracts(State(Prune(s.table, now), s.history, now))
  {
  }

  lemma MintAbstracts(s: State, r: MintRequest)
    requires Abstracts(s) && Timely(s, MintAsked(r))
    ensures Mint(s.table, r).1 == SpecMint(s.history, r)
    ensures Abstracts(Step(s, MintAsked(r)))
  {
    if MintChecks(r) {
      var now := Seconds(r.nowMs);
      var pruned := State(Prune(s.table, now), s.history, now);
      PruneAbstracts(s, now);
      assert r.requestId in pruned.table <==> Live(s.history, r.requestId, now);
      if r.requestId !in pruned.table {
        var c := MintedClaims(r);
        var s' := Step(s, MintAsked(r));
        forall id
          ensures id in s'.table <==> Live(s'.history, id, now)
          ensures id in s'.table ==> s'.table[id] == Entry(s'.history[Standing(s'.history, id).value].claims)
        {
          StandingAfterMint(s.history, c, id);
          assert id in pruned.table <==> Live(s.history, id, now);
        }
      }
    }
  }

  lemma ResolveAbstracts(s: State, c: Claims, lease: Option<Lease>, nowMs: int)
    requires Abstracts(s) && Timely(s, ResolveAsked(c, lease, nowMs))
    ensures Resolve(s.table, c, lease, nowMs).1 == SpecResolve(s.history, c, lease, nowMs)
    ensures Abstracts(Step(s, ResolveAsked(c, lease, nowMs)))
  {
    if SafeInteger(nowMs) && nowMs >= 0 {
      PruneAbstracts(s, Seconds(nowMs));
      assert c.jti in Prune(s.table, Seconds(nowMs)) <==> Live(s.history, c.jti, Seconds(nowMs));
    }
  }

  lemma RevokeAbstracts(s: State, x: string)
    requires Abstracts(s)
    ensures Abstracts(Step(s, RevokeAsked(x)))
  {
    forall id ensures Standing(s.history + [Revoked(x)], id) == if x == id then None else Standing(s.history, id) {
      StandingAfterRevoke(s.history, x, id);
    }
  }

  lemma RevokeAllAbstracts(s: State)
    ensures Abstracts(Step(s, RevokeAllAsked))
  {
    forall id ensures Standing(s.history + [RevokedAll], id) == None { StandingAfterRevoke(s.history, id, id); }
  }

  lemma StepAbstracts(s: State, e: Event)
    requires Abstracts(s) && Timely(s, e)
    ensures Abstracts(Step(s, e))
  {
    match e
    case MintAsked(r) => MintAbstracts(s, r);
    case ResolveAsked(c, lease, nowMs) => ResolveAbstracts(s, c, lease, nowMs);
    case RevokeAsked(id) => RevokeAbstracts(s, id);
    case RevokeAllAsked => RevokeAllAbstracts(s);
    case Pruned(now) => PruneAbstracts(s, now);
  }

  predicate TimelyRun(s: State, events: seq<Event>)
    decreases events
  {
    events == [] || (Timely(s, events[0]) && TimelyRun(Step(s, events[0]), events[1..]))
  }

  function Run(s: State, events: seq<Event>): State
    decreases events
  {
    if events == [] then s else Run(Step(s, events[0]), events[1..])
  }

  function Answers(s: State, events: seq<Event>): seq<Output>
    decreases events
  {
    if events == [] then [] else Answered(Answer(s, events[0])) + Answers(Step(s, events[0]), events[1..])
  }

  function Answered(o: Output): seq<Output> { if o.Silent? then [] else [o] }

  /** The specification's answers: a function of the history alone. */
  function SpecAnswers(h: seq<Record>, events: seq<Event>): seq<Output>
    decreases events
  {
    if events == [] then []
    else
      match events[0]
      case MintAsked(r) => [MintAnswer(SpecMint(h, r))] + SpecAnswers(Recorded(h, SpecMint(h, r)), events[1..])
      case ResolveAsked(c, lease, nowMs) => [ResolveAnswer(SpecResolve(h, c, lease, nowMs))] +
          SpecAnswers(h, events[1..])
      case RevokeAsked(id) => SpecAnswers(h + [Revoked(id)], events[1..])
      case RevokeAllAsked => SpecAnswers(h + [RevokedAll], events[1..])
      case Pruned(_) => SpecAnswers(h, events[1..])
  }

  /** With a clock that never runs backwards, the pruned table answers every mint and resolve as the history does. */
  lemma {:induction false} TableRefinesHistory(s: State, events: seq<Event>)
    requires Abstracts(s) && TimelyRun(s, events)
    ensures Abstracts(Run(s, events))
    ensures Answers(s, events) == SpecAnswers(s.history, events)
    decreases events
  {
    if events != [] {
      StepAbstracts(s, events[0]);
      match events[0] {
        case MintAsked(r) => MintAbstracts(s, r);
        case ResolveAsked(c, lease, nowMs) => ResolveAbstracts(s, c, lease, nowMs);
        case _ =>
      }
      TableRefinesHistory(Step(s, events[0]), events[1..]);
    }
  }

  function WithoutPrunes(events: seq<Event>): seq<Event> {
    if events == [] then []
    else if events[0].Pruned? then WithoutPrunes(events[1..])
    else [events[0]] + WithoutPrunes(events[1..])
  }

  lemma {:induction false} SpecIgnoresPrunes(h: seq<Record>, events: seq<Event>)
    ensures SpecAnswers(h, events) == SpecAnswers(h, WithoutPrunes(events))
    decreases events
  {
    if events != [] {
      var rest := WithoutPrunes(events[1..]);
      match events[0] {
        case MintAsked(r) => SpecIgnoresPrunes(Recorded(h, SpecMint(h, r)), events[1..]);
        case ResolveAsked(_, _, _) => SpecIgnoresPrunes(h, events[1..]);
        case RevokeAsked(id) => SpecIgnoresPrunes(h + [Revoked(id)], events[1..]);
        case RevokeAllAsked => SpecIgnoresPrunes(h + [RevokedAll], events[1..]);
        case Pruned(_) => SpecIgnoresPrunes(h, events[1..]);
      }
      if !events[0].Pruned? { assert ([events[0]] + rest)[1..] == rest; }
    }
  }

  lemma {:induction false} LessPrunedIsTimely(s: State, s': State, events: seq<Event>)
    requires TimelyRun(s, events) && s'.prunedAt <= s.prunedAt
    ensures TimelyRun(s', WithoutPrunes(events))
    decreases events
  {
    if events != [] {
      var rest := WithoutPrunes(events[1..]);
      if events[0].Pruned? {
        LessPrunedIsTimely(Step(s, events[0]), s', events[1..]);
      } else {
        LessPrunedIsTimely(Step(s, events[0]), Step(s', events[0]), events[1..]);
        assert ([events[0]] + rest)[1..] == rest;
      }
    }
  }

  /** Extra prunes anywhere change no answer to a mint or a resolve. */
  lemma PruningIsInvisible(s: State, events: seq<Event>)
    requires Abstracts(s) && TimelyRun(s, events)
    ensures Answers(s, events) == Answers(s, WithoutPrunes(events))
  {
    LessPrunedIsTimely(s, s, events);
    TableRefinesHistory(s, events);
    TableRefinesHistory(s, WithoutPrunes(events));
    SpecIgnoresPrunes(s.history, events);
  }

  // ----- When a signed capability passes -----

  /** No revocation of `id` after position `k`. */
  ghost predicate NotRevokedSince(h: seq<Record>, k: nat, id: string) {
    forall j :: k < j < |h| ==> h[j] != Revoked(id) && !h[j].RevokedAll?
  }

  /** Grant `k` ended before grant `j` of the same id, unless it was revoked in between. */
  ghost predicate EndsBefore(h: seq<Record>, k: nat, j: nat)
    requires k < j < |h|
  {
    h[k].Minted? && h[j].Minted? && h[j].claims.jti == h[k].claims.jti &&
        NotRevokedSince(h[..j], k, h[k].claims.jti) ==>
      h[k].claims.exp <= h[j].claims.iat
  }

  /**
   * Grants last 420 seconds, were made no later than the last prune, and an id is granted again
   * only once its last grant has ended.
   */
  ghost predicate Orderly(s: State) {
    && (forall k :: 0 <= k < |s.history| && s.history[k].Minted? ==>
          s.history[k].claims.exp == s.history[k].claims.iat + TTL_SECONDS && s.history[k].claims.iat <= s.prunedAt)
    && (forall k, j :: 0 <= k < j < |s.history| ==> EndsBefore(s.history, k, j))
  }

  lemma {:induction false} StandingIsLast(h: seq<Record>, id: string)
    ensures Standing(h, id).Some? ==>
              && NotRevokedSince(h, Standing(h, id).value, id)
              && (forall j :: Standing(h, id).value < j < |h| && h[j].Minted? ==> h[j].claims.jti != id)
    ensures forall k :: 0 <= k < |h| && h[k].Minted? && h[k].claims.jti == id && NotRevokedSince(h, k, id) ==>
            Standing(h, id).Some?
  {
    if h != [] {
      var n := |h| - 1;
      StandingIsLast(h[..n], id);
      forall k | 0 <= k < |h| && h[k].Minted? && h[k].claims.jti == id && NotRevokedSince(h, k, id)
        ensures Standing(h, id).Some?
      {
        if k < n {
          assert h[n] != Revoked(id) && !h[n].RevokedAll?;
          assert h[..n][k].Minted? && NotRevokedSince(h[..n], k, id);
        }
      }
    }
  }

  lemma RegrantWaits(s: State, k: nat, j: nat)
    requires Orderly(s) && k < j < |s.history| && s.history[k].Minted? && s.history[j].Minted?
    requires s.history[j].claims.jti == s.history[k].claims.jti &&
            NotRevokedSince(s.history, k, s.history[k].claims.jti)
    ensures s.history[k].claims.exp <= s.history[j].claims.iat
  {
    assert NotRevokedSince(s.history[..j], k, s.history[k].claims.jti);
    assert EndsBefore(s.history, k, j);
  }

  /** A standing grant is the only unrevoked one of its id that can still be alive. */
  lemma AliveIsStanding(s: State, k: nat, now: int)
    requires Orderly(s) && s.prunedAt <= now && k < |s.history| && s.history[k].Minted?
    requires NotRevokedSince(s.history, k, s.history[k].claims.jti) && now < s.history[k].claims.exp
    ensures Standing(s.history, s.history[k].claims.jti) == Some(k)
  {
    var id := s.history[k].claims.jti;
    StandingIsLast(s.history, id);
    var j := Standing(s.history, id).value;
    if k < j {
      RegrantWaits(s, k, j);
    }
  }

  lemma StepOrderly(s: State, e: Event)
    requires Abstracts(s) && Orderly(s) && Timely(s, e)
    ensures Orderly(Step(s, e))
  {
    var s' := Step(s, e);
    if e.MintAsked? && Mint(s.table, e.request).1.Some? {
      MintAbstracts(s, e.request);
      var c := MintedClaims(e.request);
      forall k | 0 <= k < |s.history| && s.history[k].Minted? && s.history[k].claims.jti == c.jti &&
          NotRevokedSince(s.history, k, c.jti)
        ensures s.history[k].claims.exp <= c.iat
      {
        if c.iat < s.history[k].claims.exp { AliveIsStanding(s, k, c.iat); }
      }
    }
    forall k, j | 0 <= k < j < |s'.history| ensures EndsBefore(s'.history, k, j) {
      assert s'.history[..j] == s.history[..j];
      if j < |s.history| { assert EndsBefore(s.history, k, j); } else { assert s.history[..j] == s.history; }
    }
  }

  lemma {:induction false} RunOrderly(s: State, events: seq<Event>)
    requires Abstracts(s) && Orderly(s) && TimelyRun(s, events)
    ensures Abstracts(Run(s, events)) && Orderly(Run(s, events))
    decreases events
  {
    if events != [] {
      StepAbstracts(s, events[0]);
      StepOrderly(s, events[0]);
      RunOrderly(Step(s, events[0]), events[1..]);
    }
  }

  /** Some grant with the claims' id and entry was not revoked since. */
  ghost predicate MatchesGrant(h: seq<Record>, c: Claims) {
    exists k :: 0 <= k < |h| && h[k].Minted? && h[k].claims.jti == c.jti && Entry(h[k].claims) == Entry(c)
                && NotRevokedSince(h, k, c.jti)
  }

  /** These very claims were granted and not revoked since. */
  ghost predicate StillGranted(h: seq<Record>, c: Claims) {
    exists k :: 0 <= k < |h| && h[k] == Minted(c) && NotRevokedSince(h, k, c.jti)
  }

  /** The history has a live grant with this entry exactly when an unrevoked grant matches and has not ended. */
  lemma LiveIsMatched(s: State, c: Claims, now: int)
    requires Orderly(s) && s.prunedAt <= now
    ensures Live(s.history, c.jti, now) && Entry(s.history[Standing(s.history, c.jti).value].claims) == Entry(c) <==>
            MatchesGrant(s.history, c) && now < c.exp
  {
    hide Orderly, NotRevokedSince;
    var h := s.history;
    StandingIsLast(h, c.jti);
    if MatchesGrant(h, c) && now < c.exp {
      var k :| 0 <= k < |h| && h[k].Minted? && h[k].claims.jti == c.jti && Entry(h[k].claims) == Entry(c)
               && NotRevokedSince(h, k, c.jti);
      AliveIsStanding(s, k, now);
    }
  }

  /** Claims with the full life of a grant match one only by being the claims granted. */
  lemma FullLifeMatchesItself(s: State, c: Claims)
    requires Orderly(s) && c.exp == c.iat + TTL_SECONDS
    ensures MatchesGrant(s.history, c) <==> StillGranted(s.history, c)
    ensures MatchesGrant(s.history, c) ==> c.iat <= s.prunedAt
  {
    var h := s.history;
    if MatchesGrant(h, c) {
      var k :| 0 <= k < |h| && h[k].Minted? && h[k].claims.jti == c.jti && Entry(h[k].claims) == Entry(c)
               && NotRevokedSince(h, k, c.jti);
      assert h[k] == Minted(c);
    }
    if StillGranted(h, c) {
      var k :| 0 <= k < |h| && h[k] == Minted(c) && NotRevokedSince(h, k, c.jti);
      assert h[k].claims == c;
    }
  }

  ghost predicate LeaseMatches(lease: Option<Lease>, c: Claims) {
    lease.Some? && lease.value.leaseGeneration == c.leaseGeneration && lease.value.tenant == c.tenant
  }

  /**
   * After any run, any validly signed capability passes every check exactly when its claims
   * match a grant not revoked since, their times are in range and not over, and the worker's
   * current lease has the same generation and tenant. For claims that run their full 420
   * seconds, as all claims signed here do, the match means that these very claims were granted
   * in this run of the process, and the other time checks never decide.
   */
  lemma CapabilityPassesExactly(start: int, events: seq<Event>, c: Claims, lease: Option<Lease>, nowMs: int)
    requires var s0 := State(map[], [], start);
             TimelyRun(s0, events) && Timely(Run(s0, events), ResolveAsked(c, lease, nowMs))
    ensures var s := Run(State(map[], [], start), events);
            var passes := Resolve(s.table, c, lease, nowMs).1 == Granted(c.tenant);
            var now := Seconds(nowMs);
            && (passes <==>
                  && SafeInteger(nowMs) && nowMs >= 0
                  && MatchesGrant(s.history, c) && now < c.exp
                  && c.iat <= now + 5 && c.exp - c.iat <= TTL_SECONDS
                  && LeaseMatches(lease, c))
            && (c.exp == c.iat + TTL_SECONDS ==>
                  (passes <==>
                     && SafeInteger(nowMs) && nowMs >= 0
                     && StillGranted(s.history, c) && now < c.iat + TTL_SECONDS
                     && LeaseMatches(lease, c)))
  {
    hide Orderly, MatchesGrant, StillGranted, Mint, Standing;
    var s0 := State(map[], [], start);
    EmptyIsOrderly(start);
    RunOrderly(s0, events);
    var s := Run(s0, events);
    ResolveAbstracts(s, c, lease, nowMs);
    if SafeInteger(nowMs) && nowMs >= 0 { LiveIsMatched(s, c, Seconds(nowMs)); }
    if c.exp == c.iat + TTL_SECONDS { FullLifeMatchesItself(s, c); }
  }

  lemma EmptyIsOrderly(start: int)
    ensures var s0 := State(map[], [], start); Abstracts(s0) && Orderly(s0)
  {
  }

  // ----- A mint and its capability -----

  /** The event revokes the id. */
  predicate Revokes(e: Event, id: string) { e == RevokeAsked(id) || e.RevokeAllAsked? }

  /** The claims of a granted request, column by column. */
  function ClaimsOf(r: MintRequest): Claims {
    Claims(
      iat := r.nowMs / 1000, exp := r.nowMs / 1000 + 420, jti := r.requestId,
      tenant := r.tenant, workerStackId := r.lease.workerStackId, leaseGeneration := r.lease.leaseGeneration)
  }

  /** Steps that do not revoke the id keep its grant standing in the history. */
  lemma {:induction false} GrantSurvives(s: State, events: seq<Event>, k: nat, id: string)
    requires k < |s.history| && NotRevokedSince(s.history, k, id)
    requires forall i :: 0 <= i < |events| ==> !Revokes(events[i], id)
    ensures var s' := Run(s, events);
            k < |s'.history| && s'.history[k] == s.history[k] && NotRevokedSince(s'.history, k, id)
    decreases events
  {
    if events != [] {
      var s1 := Step(s, events[0]);
      assert NotRevokedSince(s1.history, k, id) && s1.history[k] == s.history[k];
      GrantSurvives(s1, events[1..], k, id);
    }
  }

  lemma {:induction false} RunConcat(s: State, before: seq<Event>, after: seq<Event>)
    ensures Run(s, before + after) == Run(Run(s, before), after)
    ensures TimelyRun(s, before + after) <==> TimelyRun(s, before) && TimelyRun(Run(s, before), after)
    decreases before
  {
    hide Step, Timely;
    if before == [] {
      assert before + after == after;
    } else {
      assert (before + after)[1..] == before[1..] + after;
      RunConcat(Step(s, before[0]), before[1..], after);
    }
  }

  lemma GrantRecorded(s: State, r: MintRequest)
    requires Answer(s, MintAsked(r)) != MintAnswer(None)
    ensures MintChecks(r) && Answer(s, MintAsked(r)) == MintAnswer(Some(ClaimsOf(r)))
    ensures Step(s, MintAsked(r)).history == s.history + [Minted(ClaimsOf(r))]
  {
  }

  lemma OverIsExpired(t: Table, c: Claims, lease: Option<Lease>, nowMs: int)
    requires SafeInteger(nowMs) && nowMs >= 0 && c.exp <= Seconds(nowMs)
    ensures Resolve(t, c, lease, nowMs).1 == Expired
  {
  }

  /**
   * A granted request's capability works for its lease, and only for its time: after any run, a
   * granted mint and any further events that do not revoke it, resolving the claims that were
   * minted under the lease they were minted for succeeds while 420 whole seconds have not
   * passed, and is answered as expired from then on.
   */
  lemma MintedThenResolved(start: int, before: seq<Event>, r: MintRequest, after: seq<Event>, nowMs: int)
    requires var s := Run(State(map[], [], start), before);
             && TimelyRun(State(map[], [], start), before + [MintAsked(r)] + after)
             && Answer(s, MintAsked(r)) != MintAnswer(None)
    requires forall i :: 0 <= i < |after| ==> !Revokes(after[i], r.requestId)
    requires 0 <= nowMs <= 9007199254740991
    requires Run(State(map[], [], start), before + [MintAsked(r)] + after).prunedAt <= nowMs / 1000
    ensures var s := Run(State(map[], [], start), before);
            var later := Run(State(map[], [], start), before + [MintAsked(r)] + after);
            && Answer(s, MintAsked(r)) == MintAnswer(Some(ClaimsOf(r)))
            && Resolve(later.table, ClaimsOf(r), Some(r.lease), nowMs).1 ==
               if nowMs / 1000 < r.nowMs / 1000 + 420 then Granted(r.tenant) else Expired
  {
    var s0, c := State(map[], [], start), ClaimsOf(r);
    var s := Run(s0, before);
    var minted := Step(s, MintAsked(r));
    var events := before + [MintAsked(r)] + after;
    RunConcat(s0, before + [MintAsked(r)], after);
    RunConcat(s0, before, [MintAsked(r)]);
    assert [MintAsked(r)][1..] == [];
    assert Run(s, [MintAsked(r)]) == Run(minted, []) == minted;
    GrantRecorded(s, r);
    hide Run, TimelyRun, Step, Answer, Resolve, MatchesGrant;
    GrantSurvives(minted, after, |s.history|, c.jti);
    assert StillGranted(Run(s0, events).history, c);
    CapabilityPassesExactly(start, events, c, Some(r.lease), nowMs);
    if c.exp <= nowMs / 1000 { OverIsExpired(Run(s0, events).table, c, Some(r.lease), nowMs); }
  }

  /**
   * When a mint is granted: every id and the lease are in order, the lease is for that tenant and
   * has not run out, and the history has no unended grant of the request.
   */
  lemma MintGrantedExactly(start: int, events: seq<Event>, r: MintRequest)
    requires var s0 := State(map[], [], start);
             TimelyRun(s0, events) && Timely(Run(s0, events), MintAsked(r))
    ensures var s := Run(State(map[], [], start), events);
            Mint(s.table, r).1.Some? <==>
              && OpaqueId(r.tenant.organizationId) && OpaqueId(r.tenant.userId) && OpaqueId(r.tenant.assistantId)
              && OpaqueId(r.lease.workerStackId) && OpaqueId(r.requestId)
              && r.lease.tenant == r.tenant
              && 1 <= r.lease.leaseGeneration <= 9007199254740991
              && 0 <= r.nowMs < r.lease.leaseExpiresAtMs <= 9007199254740991
              && !EndsBetween(s.history, r.requestId, r.nowMs / 1000, None)
  {
    hide Orderly, Abstracts, OpaqueId, NotRevokedSince;
    var s0 := State(map[], [], start);
    EmptyIsOrderly(start);
    RunOrderly(s0, events);
    var s := Run(s0, events);
    MintAbstracts(s, r);
    if MintChecks(r) { UnendedIsLive(s, r.requestId, Seconds(r.nowMs)); }
  }

  lemma UnendedIsLive(s: State, id: string, now: int)
    requires Orderly(s) && s.prunedAt <= now
    ensures Live(s.history, id, now) <==> EndsBetween(s.history, id, now, None)
  {
    hide Orderly, NotRevokedSince;
    var h := s.history;
    StandingIsLast(h, id);
    if Live(h, id, now) { assert EndsIn(h, Standing(h, id).value, id, now, None); }
    if k :| 0 <= k < |h| && EndsIn(h, k, id, now, None) { AliveIsStanding(s, k, now); }
  }

  // ----- What a revocation shows of pruning -----

  /** Record `k` grants the id, was not revoked since, and ends after the first time and not after the second. */
  ghost predicate EndsIn(h: seq<Record>, k: nat, id: string, first: int, second: Option<int>)
    requires k < |h|
  {
    && h[k].Minted? && h[k].claims.jti == id && NotRevokedSince(h, k, id)
    && first < h[k].claims.exp && (second.Some? ==> h[k].claims.exp <= second.value)
  }

  ghost predicate EndsBetween(h: seq<Record>, id: string, first: int, second: Option<int>) {
    exists k :: 0 <= k < |h| && EndsIn(h, k, id, first, second)
  }

  /** The table has an id exactly when an unrevoked grant of it had not ended at the last prune. */
  lemma HeldExactly(s: State, id: string)
    requires Abstracts(s) && Orderly(s)
    ensures id in s.table <==> EndsBetween(s.history, id, s.prunedAt, None)
  {
    hide Orderly, NotRevokedSince;
    var h := s.history;
    StandingIsLast(h, id);
    assert id in s.table <==> Live(h, id, s.prunedAt);
    if Live(h, id, s.prunedAt) { assert EndsIn(h, Standing(h, id).value, id, s.prunedAt, None); }
    if k :| 0 <= k < |h| && EndsIn(h, k, id, s.prunedAt, None) { AliveIsStanding(s, k, s.prunedAt); }
  }

  /**
   * After any run, a revocation reports true exactly when some grant of the id, not revoked
   * since, had not ended when the table was last pruned: expired grants count until then.
   */
  lemma RevokeReportsPruning(start: int, events: seq<Event>, id: string)
    requires TimelyRun(State(map[], [], start), events)
    ensures var s := Run(State(map[], [], start), events);
            id in s.table <==> EndsBetween(s.history, id, s.prunedAt, None)
  {
    hide Orderly, Abstracts;
    EmptyIsOrderly(start);
    RunOrderly(State(map[], [], start), events);
    HeldExactly(Run(State(map[], [], start), events), id);
  }

  /**
   * Two runs with the same history of grants and revocations report differently on revoking an
   * id exactly when an unrevoked grant of it ended between their last prunes; the run that was
   * pruned later is the one that reports false.
   */
  lemma PruningShowsExactly(
    start: int, events: seq<Event>, start': int, events': seq<Event>, id: string)
    requires TimelyRun(State(map[], [], start), events) && TimelyRun(State(map[], [], start'), events')
    requires var s, s' := Run(State(map[], [], start), events), Run(State(map[], [], start'), events');
             s.history == s'.history && s.prunedAt <= s'.prunedAt
    ensures var s, s' := Run(State(map[], [], start), events), Run(State(map[], [], start'), events');
            && ((id in s.table) != (id in s'.table) <==> EndsBetween(s.history, id, s.prunedAt, Some(s'.prunedAt)))
            && (id in s'.table ==> id in s.table)
  {
    hide Abstracts, Run, TimelyRun;
    var s, s' := Run(State(map[], [], start), events), Run(State(map[], [], start'), events');
    EmptyIsOrderly(start);
    EmptyIsOrderly(start');
    RunOrderly(State(map[], [], start), events);
    RunOrderly(State(map[], [], start'), events');
    HeldExactly(s, id);
    HeldExactly(s', id);
    SplitAtPrunes(s, id, s'.prunedAt);
  }

  /** The one grant that can outlast the first prune ends between the prunes or outlasts the second. */
  lemma SplitAtPrunes(s: State, id: string, second: int)
    requires Orderly(s) && s.prunedAt <= second
    ensures var h := s.history;
            && (EndsBetween(h, id, s.prunedAt, None) <==>
                  EndsBetween(h, id, s.prunedAt, Some(second)) || EndsBetween(h, id, second, None))
            && !(EndsBetween(h, id, s.prunedAt, Some(second)) && EndsBetween(h, id, second, None))
  {
    hide Orderly, NotRevokedSince;
    var h := s.history;
    if k :| 0 <= k < |h| && EndsIn(h, k, id, s.prunedAt, None) {
      AliveIsStanding(s, k, s.prunedAt);
      assert EndsIn(h, k, id, s.prunedAt, Some(second)) || EndsIn(h, k, id, second, None);
    }
    if k :| 0 <= k < |h| && EndsIn(h, k, id, s.prunedAt, Some(second)) {
      AliveIsStanding(s, k, s.prunedAt);
      assert EndsIn(h, k, id, s.prunedAt, None);
    }
    if k :| 0 <= k < |h| && EndsIn(h, k, id, second, None) {
      AliveIsStanding(s, k, s.prunedAt);
      assert EndsIn(h, k, id, s.prunedAt, None);
    }
  }

  /**
   * Such runs exist for every request that can be granted: after its mint a revocation reports
   * true, however late it comes, but false once any resolve after the 420 seconds has pruned.
   */
  lemma PruningShowsInRevoke(start: int, r: MintRequest, c: Claims, lease: Option<Lease>, nowMs: int)
    requires MintChecks(r) && start <= Seconds(r.nowMs)
    requires SafeInteger(nowMs) && Seconds(r.nowMs) + TTL_SECONDS <= Seconds(nowMs)
    ensures var s0, minted, resolved := State(map[], [], start), [MintAsked(r)],
            [MintAsked(r), ResolveAsked(c, lease, nowMs)];
            && TimelyRun(s0, minted) && TimelyRun(s0, resolved)
            && Run(s0, minted).history == Run(s0, resolved).history
            && r.requestId in Run(s0, minted).table && r.requestId !in Run(s0, resolved).table
  {
    var s0, e, f := State(map[], [], start), MintAsked(r), ResolveAsked(c, lease, nowMs);
    var s1 := Step(s0, e);
    var s2 := Step(s1, f);
    assert [e, f][1..] == [f] && [e][1..] == [] && [f][1..] == [];
    assert Run(s1, []) == s1 && Run(s2, []) == s2 && Run(s1, [f]) == s2;
    assert s1.table == map[r.requestId := Entry(MintedClaims(r))];
  }
}
