/**
 * Single-use capabilities of the concurrent runtime: a granted request resolves at most once.
 * A validly signed capability is represented by its claims.
 */
module ConcurrentCapabilities {
  import opened Text
  import opened VaultCommon

  const CONCURRENT_TTL_SECONDS: int := 60

  datatype Ticket = Ticket(iat: int, exp: int, jti: string, tenant: Tenant)

  datatype Pending = Pending(tenant: Tenant, provider: string, expiresAtSeconds: int, resolved: bool)

  type Pendings = map<string, Pending>

  datatype Grant = Grant(tenant: Tenant, requestId: string, provider: Option<string>, nowMs: int)

  /** The checks of `mintConcurrentRequestCapability`; `provider` is the canonical provider, if it has one. */
  predicate GrantChecks(g: Grant) {
    && OpaqueId(g.tenant.organizationId) && OpaqueId(g.tenant.userId) && OpaqueId(g.tenant.assistantId)
    && OpaqueId(g.requestId) && g.provider.Some? && SafeInteger(g.nowMs) && g.nowMs >= 0
  }

  function DropExpired(t: Pendings, nowSeconds: int): Pendings {
    map id | id in t && nowSeconds < t[id].expiresAtSeconds :: t[id]
  }

  function Issue(t: Pendings, g: Grant): (Pendings, bool) {
    if !GrantChecks(g) then (t, false)
    else
      var live := DropExpired(t, Seconds(g.nowMs));
      if g.requestId in live then (live, false)
      else (live[g.requestId :=
          Pending(g.tenant, g.provider.value, Seconds(g.nowMs) + CONCURRENT_TTL_SECONDS, false)], true)
  }

  datatype Redemption =
    | Redeemed(tenant: Tenant, provider: string)
    | InvalidProvider
    | MalformedTime
    | TooLate
    | NotActive

  function Redeem(t: Pendings, c: Ticket, provider: Option<string>, nowMs: int): (Pendings, Redemption) {
    if provider.None? then (t, InvalidProvider)
    else if !SafeInteger(nowMs) || nowMs < 0 then (t, MalformedTime)
    else
      var now := Seconds(nowMs);
      var live := DropExpired(t, now);
      if c.exp <= now || c.iat > now + 5 || c.exp - c.iat > CONCURRENT_TTL_SECONDS then (live, TooLate)
      else if c.jti !in live || live[c.jti] != Pending(c.tenant, provider.value, c.exp, false) then (live, NotActive)
      else (live[c.jti := live[c.jti].(resolved := true)], Redeemed(c.tenant, provider.value))
  }

  class PendingTable {
    var requests: Pendings

    constructor ()
      ensures requests == map[]
    {
      requests := map[];
    }

    method PruneExpiredConcurrentRequests(nowSeconds: int)
      modifies this
      ensures requests == DropExpired(old(requests), nowSeconds)
    {
      var rest := requests.Keys;
      while rest != {}
        invariant rest <= old(requests).Keys
        invariant forall id :: id in requests <==>
                id in old(requests) && (id in rest || nowSeconds < old(requests)[id].expiresAtSeconds)
        invariant forall id :: id in requests ==> requests[id] == old(requests)[id]
        decreases rest
      {
        var id :| id in rest;
        if requests[id].expiresAtSeconds <= nowSeconds { requests := requests - {id}; }
        rest := rest - {id};
      }
    }

    method MintConcurrentRequestCapability(g: Grant) returns (granted: bool)
      modifies this
      ensures (requests, granted) == Issue(old(requests), g)
    {
      if !GrantChecks(g) { return false; }
      var now := Seconds(g.nowMs);
      PruneExpiredConcurrentRequests(now);
      if g.requestId in requests { return false; }
      requests := requests[g.requestId := Pending(g.tenant, g.provider.value, now + CONCURRENT_TTL_SECONDS, false)];
      return true;
    }

    method ResolveConcurrentWithCapability(c: Ticket, provider: Option<string>, nowMs: int) returns (r: Redemption)
      modifies this
      ensures (requests, r) == Redeem(old(requests), c, provider, nowMs)
    {
      if provider.None? { return InvalidProvider; }
      if !SafeInteger(nowMs) || nowMs < 0 { return MalformedTime; }
      var now := Seconds(nowMs);
      PruneExpiredConcurrentRequests(now);
      if c.exp <= now || c.iat > now + 5 || c.exp - c.iat > CONCURRENT_TTL_SECONDS { return TooLate; }
      if c.jti !in requests { return NotActive; }
      var p := requests[c.jti];
      if p.expiresAtSeconds != c.exp || p.provider != provider.value || p.resolved || p.tenant != c.tenant {
        return NotActive;
      }
      requests := requests[c.jti := p.(resolved := true)];
      return Redeemed(c.tenant, provider.value);
    }

    method RevokeConcurrentRequestCapability(id: string) returns (revoked: bool)
      modifies this
      ensures requests == old(requests) - {id}
      ensures revoked <==> id in old(requests)
    {
      revoked := id in requests;
      requests := requests - {id};
    }

    method RevokeAllConcurrentRequestCapabilities() returns (revoked: nat)
      modifies this
      ensures requests == map[] && revoked == |old(requests)|
    {
      revoked := |requests|;
      requests := map[];
    }
  }

  /** A granted request can be redeemed, once, by its own ticket for its provider while its sixty seconds last. */
  lemma GrantedThenRedeemedOnce(t: Pendings, g: Grant, nowMs: int)
    requires Issue(t, g).1 && 0 <= nowMs <= 9007199254740991 && g.nowMs / 1000 <= nowMs / 1000
    ensures var c := Ticket(g.nowMs / 1000, g.nowMs / 1000 + 60, g.requestId, g.tenant);
            var (after, r) := Redeem(Issue(t, g).0, c, g.provider, nowMs);
            if nowMs / 1000 < g.nowMs / 1000 + 60
            then r == Redeemed(g.tenant, g.provider.value) && Redeem(after, c, g.provider, nowMs).1 == NotActive
            else r == TooLate
  {
    var issued := Issue(t, g).0;
    assert issued[g.requestId] == Pending(g.tenant, g.provider.value, Seconds(g.nowMs) + CONCURRENT_TTL_SECONDS, false);
  }

  /** When a request is granted: ids and provider are in order and no unexpired entry has its id. */
  lemma GrantedExactly(t: Pendings, g: Grant)
    ensures Issue(t, g).1 <==>
            && OpaqueId(g.tenant.organizationId) && OpaqueId(g.tenant.userId) && OpaqueId(g.tenant.assistantId)
            && OpaqueId(g.requestId) && g.provider.Some? && 0 <= g.nowMs <= 9007199254740991
            && !(g.requestId in t && g.nowMs / 1000 < t[g.requestId].expiresAtSeconds)
  {
    hide OpaqueId;
  }

  // ----- Runs -----

  datatype Action =
    | Issued(grant: Grant)
    | Redeeming(ticket: Ticket, provider: Option<string>, nowMs: int)
    | Withdrawn(id: string)
    | WithdrawnAll
    | Swept(nowSeconds: int)

  function Apply(t: Pendings, a: Action): Pendings {
    match a
    case Issued(g) => Issue(t, g).0
    case Redeeming(c, provider, nowMs) => Redeem(t, c, provider, nowMs).0
    case Withdrawn(id) => t - {id}
    case WithdrawnAll => map[]
    case Swept(now) => DropExpired(t, now)
  }

  function ApplyAll(t: Pendings, actions: seq<Action>): Pendings {
    if actions == [] then t else Apply(ApplyAll(t, actions[..|actions| - 1]), actions[|actions| - 1])
  }

  predicate Grants(t: Pendings, a: Action, id: string) { a.Issued? && a.grant.requestId == id && Issue(t, a.grant).1 }

  predicate Succeeds(t: Pendings, a: Action, id: string) {
    a.Redeeming? && a.ticket.jti == id && Redeem(t, a.ticket, a.provider, a.nowMs).1.Redeemed?
  }

  /** The request could still be redeemed. */
  predicate Open(t: Pendings, id: string) { id in t && !t[id].resolved }

  /** Success needs an open request and closes it; only a grant opens one. */
  lemma OneStep(t: Pendings, a: Action, id: string)
    ensures Succeeds(t, a, id) ==> Open(t, id) && !Open(Apply(t, a), id)
    ensures Open(Apply(t, a), id) ==> Open(t, id) || Grants(t, a, id)
  {
  }

  function Successes(t: Pendings, actions: seq<Action>, id: string): nat {
    if actions == [] then 0
    else
      var n := |actions| - 1;
      Successes(t, actions[..n], id) + (if Succeeds(ApplyAll(t, actions[..n]), actions[n], id) then 1 else 0)
  }

  function GrantCount(t: Pendings, actions: seq<Action>, id: string): nat {
    if actions == [] then 0
    else
      var n := |actions| - 1;
      GrantCount(t, actions[..n], id) + (if Grants(ApplyAll(t, actions[..n]), actions[n], id) then 1 else 0)
  }

  /** On every trace, whatever the clock does, an id is redeemed at most as often as it was granted. */
  lemma {:induction false} NeverMoreSuccessesThanGrants(actions: seq<Action>, id: string)
    ensures Successes(map[], actions, id) +
            (if Open(ApplyAll(map[], actions), id) then 1 else 0) <= GrantCount(map[], actions, id)
  {
    if actions != [] {
      var n := |actions| - 1;
      NeverMoreSuccessesThanGrants(actions[..n], id);
      OneStep(ApplyAll(map[], actions[..n]), actions[n], id);
    }
  }

  /** A closed request stays closed until it is granted again. */
  lemma {:induction false} ClosedUntilGranted(t: Pendings, actions: seq<Action>, i: nat, j: nat, id: string)
    requires i <= j <= |actions| && !Open(ApplyAll(t, actions[..i]), id)
    requires forall k :: i <= k < j ==> !Grants(ApplyAll(t, actions[..k]), actions[k], id)
    ensures !Open(ApplyAll(t, actions[..j]), id)
    decreases j - i
  {
    hide Apply, Grants, Open;
    if i < j {
      ClosedUntilGranted(t, actions, i, j - 1, id);
      assert actions[..j][..j - 1] == actions[..j - 1];
      OneStep(ApplyAll(t, actions[..j - 1]), actions[j - 1], id);
    }
  }

  /** Between two successful redemptions of one request id there is a new grant of it. */
  lemma GrantBetweenSuccesses(t: Pendings, actions: seq<Action>, i: nat, j: nat, id: string)
    requires i < j < |actions|
    requires Succeeds(ApplyAll(t, actions[..i]), actions[i], id) && Succeeds(ApplyAll(t, actions[..j]), actions[j], id)
    ensures exists k :: i < k < j && Grants(ApplyAll(t, actions[..k]), actions[k], id)
  {
    hide Apply, Grants, Open, Succeeds;
    OneStep(ApplyAll(t, actions[..i]), actions[i], id);
    assert actions[..i + 1][..i] == actions[..i];
    OneStep(ApplyAll(t, actions[..j]), actions[j], id);
    if forall k :: i < k < j ==> !Grants(ApplyAll(t, actions[..k]), actions[k], id) {
      ClosedUntilGranted(t, actions, i + 1, j, id);
    }
  }
}
