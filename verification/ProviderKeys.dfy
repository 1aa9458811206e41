/**
 * Provider keys of the pooled vault: a POST checks the table, awaits the validator and only
 * then stores the key, while other POSTs and DELETEs run in between.
 *
 * A stored value is sealed for its tenant and provider.
 */
module ProviderKeys {
  import opened Text
  import opened VaultCommon
  import opened Sealing

  datatype Provider = Anthropic | Fireworks | Gemini | Kimi | Minimax | OpenAI | OpenAICompatible | OpenRouter

  /** Providers a pooled runtime can be set up with from an API key alone. */
  predicate Bootstrap(p: Provider) { p != OpenAICompatible }

  const MAX_KEY_LENGTH: nat := 65536

  datatype Slot = Slot(tenant: Tenant, provider: Provider)

  type Keys = map<Slot, Sealed<Slot>>

  /** `list`, as a set: the providers configured for a tenant. */
  function Configured(keys: Keys, t: Tenant): set<Provider> {
    set slot | slot in keys && slot.tenant == t :: slot.provider
  }

  predicate OthersConfigured(keys: Keys, slot: Slot) {
    exists p :: p in Configured(keys, slot.tenant) && p != slot.provider
  }

  /** The checks of `set`. */
  predicate CanSet(keys: Keys, slot: Slot, value: string) {
    Bootstrap(slot.provider) && !OthersConfigured(keys, slot) && 1 <= Utf16Length(value) <= MAX_KEY_LENGTH
  }

  /** The checks a POST makes before it awaits the validator. */
  predicate PostChecks(keys: Keys, slot: Slot, value: string) {
    Utf16Length(value) >= 1 && Bootstrap(slot.provider) && !OthersConfigured(keys, slot)
  }

  datatype Post = Post(slot: Slot, value: string)

  class Vault {
    var keys: Keys

    constructor ()
      ensures keys == map[]
    {
      keys := map[];
    }

    method Set(slot: Slot, value: string) returns (stored: bool)
      modifies this
      ensures stored <==> CanSet(old(keys), slot, value)
      ensures stored <==>
              && slot.provider != OpenAICompatible
              && (forall other :: other in old(keys) && other.tenant == slot.tenant ==> other == slot)
              && 1 <= Utf16Length(value) <= 65536
      ensures keys == if stored then old(keys)[slot := Sealed(slot, value)] else old(keys)
    {
      CanSetExactly(keys, slot, value);
      if !Bootstrap(slot.provider) { return false; }
      if OthersConfigured(keys, slot) { return false; }
      if Utf16Length(value) < 1 || Utf16Length(value) > MAX_KEY_LENGTH { return false; }
      keys := keys[slot := Sealed(slot, value)];
      return true;
    }

    /** `get`: the stored value, or nothing; the flag is the decryption error. */
    method Get(slot: Slot) returns (value: Option<string>, corrupt: bool)
      ensures slot !in keys ==> value == None && !corrupt
      ensures slot in keys ==> value == OpenSealed(keys[slot], slot) && (corrupt <==> value.None?)
    {
      if slot !in keys { return None, false; }
      value := OpenSealed(keys[slot], slot);
      corrupt := value.None?;
    }

    method Delete(slot: Slot) returns (deleted: bool)
      modifies this
      ensures deleted <==> slot in old(keys)
      ensures keys == old(keys) - {slot}
    {
      deleted := slot in keys;
      keys := keys - {slot};
    }
  }

  /** A key can be stored for any provider but the compatible one, if the tenant has no other, at a length in range. */
  lemma CanSetExactly(keys: Keys, slot: Slot, value: string)
    ensures CanSet(keys, slot, value) <==>
            && slot.provider != OpenAICompatible
            && (forall other :: other in keys && other.tenant == slot.tenant ==> other == slot)
            && 1 <= Utf16Length(value) <= 65536
  {
    forall other | other in keys && other.tenant == slot.tenant
      ensures other.provider in Configured(keys, slot.tenant)
    {
    }
    if OthersConfigured(keys, slot) {
      var p :| p in Configured(keys, slot.tenant) && p != slot.provider;
      assert Slot(slot.tenant, p) in keys;
    }
  }

  /** A POST waits for the validator under the same conditions, but for the upper length limit. */
  lemma PostWaitsExactly(s: State, h: nat, post: Post)
    requires h !in s.waiting
    ensures h in Step(s, PostArrived(h, post)).waiting <==>
            && post.slot.provider != OpenAICompatible
            && (forall other :: other in s.keys && other.tenant == post.slot.tenant ==> other == post.slot)
            && 1 <= Utf16Length(post.value)
  {
    var keys, slot := s.keys, post.slot;
    forall other | other in keys && other.tenant == slot.tenant
      ensures other.provider in Configured(keys, slot.tenant)
    {
    }
    if OthersConfigured(keys, slot) {
      var p :| p in Configured(keys, slot.tenant) && p != slot.provider;
      assert Slot(slot.tenant, p) in keys;
    }
  }

  // ----- Interleaved handlers -----

  /** Keys, the POSTs awaiting their validation, what validators accepted so far, and the writes made. */
  datatype State = State(keys: Keys, waiting: map<nat, Post>, accepted: set<(Provider, string)>, writes: seq<Write>)

  datatype Write = Stored(slot: Slot, value: string) | Deleted(slot: Slot)

  datatype Event =
    | PostArrived(handler: nat, post: Post)
    | ValidatorAnswered(handler: nat, valid: bool)
    | DeleteArrived(slot: Slot)

  predicate Allowed(s: State, e: Event) {
    match e
    case PostArrived(h, _) => h !in s.waiting
    case ValidatorAnswered(h, _) => h in s.waiting
    case DeleteArrived(_) => true
  }

  function Step(s: State, e: Event): State
    requires Allowed(s, e)
  {
    match e
    case PostArrived(h, post) =>
      if PostChecks(s.keys, post.slot, post.value) then s.(waiting := s.waiting[h := post]) else s
    case ValidatorAnswered(h, valid) =>
      var post := s.waiting[h];
      var accepted := if valid then s.accepted + {(post.slot.provider, post.value)} else s.accepted;
      var s' := s.(waiting := s.waiting - {h}, accepted := accepted);
      if valid && CanSet(s.keys, post.slot, post.value)
      then s'.(keys := s.keys[post.slot := Sealed(post.slot, post.value)],
          writes := s.writes + [Stored(post.slot, post.value)])
      else s'
    case DeleteArrived(slot) => s.(keys := s.keys - {slot}, writes := s.writes + [Deleted(slot)])
  }

  /** The value last stored in the slot and not deleted since. */
  function LastValue(writes: seq<Write>, slot: Slot): Option<string> {
    if writes == [] then None
    else
      var n := |writes| - 1;
      if writes[n].slot != slot then LastValue(writes[..n], slot)
      else if writes[n].Stored? then Some(writes[n].value) else None
  }

  /** What `get` answers. */
  function GetValue(keys: Keys, slot: Slot): Option<string> {
    if slot in keys then OpenSealed(keys[slot], slot) else None
  }

  ghost predicate Inv(s: State) {
    && (forall a, b :: a in s.keys && b in s.keys && a.tenant == b.tenant ==> a == b)
    && (forall slot :: slot in s.keys ==>
          s.keys[slot].boundTo == slot && Bootstrap(slot.provider) &&
              (slot.provider, s.keys[slot].secret) in s.accepted)
    && Reflects(s.keys, s.writes)
  }

  lemma LastValueAfter(writes: seq<Write>, w: Write, slot: Slot)
    ensures LastValue(writes + [w], slot) ==
            if w.slot != slot then LastValue(writes, slot) else if w.Stored? then Some(w.value) else None
  {
    assert (writes + [w])[..|writes|] == writes;
  }

  lemma SetKeepsOneProvider(keys: Keys, slot: Slot, value: string)
    requires forall a, b :: a in keys && b in keys && a.tenant == b.tenant ==> a == b
    requires CanSet(keys, slot, value)
    ensures var keys' := keys[slot := Sealed(slot, value)];
            forall a, b :: a in keys' && b in keys' && a.tenant == b.tenant ==> a == b
  {
    forall a | a in keys && a.tenant == slot.tenant ensures a == slot {
      assert a.provider in Configured(keys, slot.tenant);
    }
  }

  lemma StepKeepsInv(s: State, e: Event)
    requires Inv(s) && Allowed(s, e)
    ensures Inv(Step(s, e))
    ensures forall slot: Slot :: slot.tenant != Touched(s, e) ==>
            GetValue(Step(s, e).keys, slot) == GetValue(s.keys, slot)
  {
    match e
    case PostArrived(_, _) =>
    case ValidatorAnswered(h, valid) =>
      var post := s.waiting[h];
      if valid && CanSet(s.keys, post.slot, post.value) { StoreKeepsInv(s, h); }
    case DeleteArrived(x) => DeleteKeepsInv(s, x);
  }

  /** The keys hold exactly what was last written. */
  ghost predicate Reflects(keys: Keys, writes: seq<Write>) {
    forall slot :: && GetValue(keys, slot) == LastValue(writes, slot)
                   && (slot in keys <==> LastValue(writes, slot).Some?)
  }

  lemma StoreReflects(keys: Keys, writes: seq<Write>, slot: Slot, value: string)
    requires Reflects(keys, writes)
    ensures Reflects(keys[slot := Sealed(slot, value)], writes + [Stored(slot, value)])
  {
    hide LastValue;
    forall x: Slot { LastValueAfter(writes, Stored(slot, value), x); }
  }

  lemma DeleteReflects(keys: Keys, writes: seq<Write>, slot: Slot)
    requires Reflects(keys, writes)
    ensures Reflects(keys - {slot}, writes + [Deleted(slot)])
  {
    hide LastValue;
    forall x: Slot { LastValueAfter(writes, Deleted(slot), x); }
  }

  lemma StoreKeepsInv(s: State, h: nat)
    requires Inv(s) && h in s.waiting && CanSet(s.keys, s.waiting[h].slot, s.waiting[h].value)
    ensures Inv(Step(s, ValidatorAnswered(h, true)))
  {
    var post := s.waiting[h];
    hide OthersConfigured, Reflects;
    SetKeepsOneProvider(s.keys, post.slot, post.value);
    StoreReflects(s.keys, s.writes, post.slot, post.value);
  }

  lemma DeleteKeepsInv(s: State, x: Slot)
    requires Inv(s)
    ensures Inv(Step(s, DeleteArrived(x)))
  {
    hide Reflects;
    DeleteReflects(s.keys, s.writes, x);
  }

  /** The tenant an event acts for. */
  function Touched(s: State, e: Event): Tenant
    requires Allowed(s, e)
  {
    match e
    case PostArrived(_, post) => post.slot.tenant
    case ValidatorAnswered(h, _) => s.waiting[h].slot.tenant
    case DeleteArrived(slot) => slot.tenant
  }

  ghost predicate AllowedRun(s: State, events: seq<Event>)
    decreases events
  {
    events == [] || (Allowed(s, events[0]) && AllowedRun(Step(s, events[0]), events[1..]))
  }

  ghost function Run(s: State, events: seq<Event>): State
    requires AllowedRun(s, events)
    decreases events
  {
    if events == [] then s else Run(Step(s, events[0]), events[1..])
  }

  lemma {:induction false} RunKeepsInv(s: State, events: seq<Event>)
    requires Inv(s) && AllowedRun(s, events)
    ensures Inv(Run(s, events))
    decreases events
  {
    if events != [] {
      StepKeepsInv(s, events[0]);
      RunKeepsInv(Step(s, events[0]), events[1..]);
    }
  }

  /**
   * However POSTs and DELETEs interleave around the validator: a tenant never has two
   * configured providers, every stored value was accepted for its provider, and `get`
   * answers the last value stored and not deleted since.
   */
  lemma OneValidatedProviderPerTenant(events: seq<Event>, t: Tenant, slot: Slot)
    requires AllowedRun(State(map[], map[], {}, []), events)
    ensures var s := Run(State(map[], map[], {}, []), events);
            && (forall p, q :: p in Configured(s.keys, t) && q in Configured(s.keys, t) ==> p == q)
            && (slot in s.keys ==>
                  GetValue(s.keys, slot).Some? && (slot.provider, GetValue(s.keys, slot).value) in s.accepted)
            && GetValue(s.keys, slot) == LastValue(s.writes, slot)
  {
    RunKeepsInv(State(map[], map[], {}, []), events);
    var s := Run(State(map[], map[], {}, []), events);
    forall p, q | p in Configured(s.keys, t) && q in Configured(s.keys, t) ensures p == q {
      assert Slot(t, p) in s.keys && Slot(t, q) in s.keys;
    }
  }

  /** An event leaves every other tenant's keys as they were. */
  lemma {:induction false} OtherTenantsUntouched(s: State, events: seq<Event>, slot: Slot)
    requires Inv(s) && AllowedRun(s, events) && NeverTouches(s, events, slot.tenant)
    ensures GetValue(Run(s, events).keys, slot) == GetValue(s.keys, slot)
    decreases events
  {
    if events != [] {
      StepKeepsInv(s, events[0]);
      OtherTenantsUntouched(Step(s, events[0]), events[1..], slot);
    }
  }

  ghost predicate NeverTouches(s: State, events: seq<Event>, t: Tenant)
    requires AllowedRun(s, events)
    decreases events
  {
    events == [] || (Touched(s, events[0]) != t && NeverTouches(Step(s, events[0]), events[1..], t))
  }
}
