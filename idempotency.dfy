/** The idempotency guard: a key-value store where each saved key lives for 3600
    seconds, and a check that rejects a key while its record is alive. */
module Idempotency {
  import opened Wrappers

  const Ttl := 3600
  const Prefix := "idem:"
  const DuplicateError := "Duplicate transaction detected"

  /** A stored value and the instant (in seconds) at which it expires. */
  datatype Stored = Stored(value: string, expiresAt: int)

  /** The store, keyed by the namespaced key. */
  type Store = map<string, Stored>

  /** `idem:${key}`. */
  function StoreKey(key: string): (k: string)
    ensures |k| == |key| + 5 && k[..5] == "idem:" && k[5..] == key
  {
    Prefix + key
  }

  /** The stored value at `now`, as `get` returns it: nothing once expired. */
  function Get(store: Store, k: string, now: int): (v: Option<string>)
    ensures v.Some? <==> k in store && now < store[k].expiresAt
    ensures v.Some? ==> v.value == store[k].value
  {
    if k in store && now < store[k].expiresAt then Some(store[k].value) else None
  }

  /** `if (exists)`: a live record whose value is a non-empty (truthy) string. */
  predicate IsDuplicate(store: Store, key: string, now: int)
  {
    var v := Get(store, StoreKey(key), now);
    v.Some? && v.value != ""
  }

  /** `checkIdempotency(key)` at time `now`. */
  function Check(store: Store, key: string, now: int): (o: Outcome)
    ensures o.Fail? <==> IsDuplicate(store, key, now)
    ensures o.Fail? ==> o.error == "Duplicate transaction detected"
  {
    if IsDuplicate(store, key, now) then Fail(DuplicateError) else Pass
  }

  /** `saveIdempotency(key, result)` at time `now`, with `value` the serialised result:
      `set` with `EX 3600` overwrites the value and restarts the expiry. */
  function Save(store: Store, key: string, value: string, now: int): (s: Store)
    ensures StoreKey(key) in s && s[StoreKey(key)] == Stored(value, now + 3600)
    ensures forall k :: k != StoreKey(key) ==> (k in s <==> k in store) && (k in store ==> s[k] == store[k])
  {
    store[StoreKey(key) := Stored(value, now + Ttl)]
  }

  lemma StoreKeyInjective(a: string, b: string)
    requires a != b
    ensures StoreKey(a) != StoreKey(b)
  {
    assert StoreKey(a)[|Prefix|..] == a;
    assert StoreKey(b)[|Prefix|..] == b;
  }

  /** Within 3600 seconds of a save, a check of the same key fails. */
  lemma SavedKeyIsDuplicate(store: Store, key: string, value: string, saved: int, now: int)
    requires value != ""
    requires saved <= now < saved + 3600
    ensures Check(Save(store, key, value, saved), key, now) == Fail("Duplicate transaction detected")
  {
  }

  /** 3600 seconds after the last save the record is gone and the check passes. */
  lemma ExpiredKeyPasses(store: Store, key: string, value: string, saved: int, now: int)
    requires now >= saved + 3600
    ensures Check(Save(store, key, value, saved), key, now) == Pass
  {
  }

  /** Saving again restarts the 3600 seconds from the later save. */
  lemma ResaveRestartsExpiry(store: Store, key: string, v1: string, v2: string, t1: int, t2: int, now: int)
    requires v2 != ""
    requires t1 <= t2 <= now < t2 + 3600
    ensures Save(Save(store, key, v1, t1), key, v2, t2)[StoreKey(key)] == Stored(v2, t2 + 3600)
    ensures Check(Save(Save(store, key, v1, t1), key, v2, t2), key, now).Fail?
  {
  }

  /** Saving one key leaves the verdict on every other key unchanged. */
  lemma SaveLeavesOtherKeys(store: Store, key: string, other: string, value: string, saved: int, now: int)
    requires other != key
    ensures Check(Save(store, key, value, saved), other, now) == Check(store, other, now)
  {
    StoreKeyInjective(key, other);
  }

  /** Once a key is free at some instant it stays free at every later instant, until
      something is saved under it. */
  lemma FreeKeyStaysFree(store: Store, key: string, now: int, later: int)
    requires Check(store, key, now) == Pass
    requires now <= later
    ensures Check(store, key, later) == Pass
  {
  }

  /** The Redis connection as used by the two functions. */
  class IdempotencyStore {
    var entries: Store

    constructor ()
      ensures entries == map[]
    {
      entries := map[];
    }

    /** `checkIdempotency(key)`; it only reads, so two checks of a fresh key both pass. */
    method CheckIdempotency(key: string, now: int) returns (o: Outcome)
      ensures o.Fail? <==> IsDuplicate(entries, key, now)
      ensures o.Fail? ==> o.error == "Duplicate transaction detected"
    {
      var k := Prefix + key;
      var found := Get(entries, k, now);
      if found.Some? && found.value != "" {
        return Fail(DuplicateError);
      }
      o := Pass;
    }

    /** `saveIdempotency(key, result)`, with `value` the serialised result. */
    method SaveIdempotency(key: string, value: string, now: int)
      modifies this
      ensures entries == Save(old(entries), key, value, now)
    {
      entries := entries[Prefix + key := Stored(value, now + Ttl)];
    }
  }
}
