/**
 * The shared time-bounded cache. Its implementation is not part of this model: it is a
 * key-to-entry map where an entry is visible until its expiry instant and absent after it.
 * Eviction is not modelled: an expired entry simply stops being returned.
 */
module Cache {
  import opened Wrappers
  import opened Networks
  import opened Activity
  import opened Scoring

  /** The three key families the services use (`CacheKeys.networkTx`, `.walletAnalysis`, `.walletScore`). */
  datatype CacheKey =
    | NetworkTx(wallet: string, network: NetworkKey)
    | AnalysisKey(wallet: string)
    | ScoreKey(wallet: string)

  datatype CacheValue =
    | ActivityValue(activity: NetworkActivity)
    | AnalysisValue(analysis: WalletAnalysis)
    | ScoreValue(score: ReputationScore)

  datatype CacheEntry = CacheEntry(value: CacheValue, expiresAt: int)

  type Entries = map<CacheKey, CacheEntry>

  /** Every TTL the services pass: 5 minutes, in milliseconds. */
  const FiveMinutesMs: int := 5 * 60 * 1000

  /** `cache.get(key)` at instant `nowMs`: the stored value while it has not expired. */
  function Lookup(entries: Entries, key: CacheKey, nowMs: int): (r: Option<CacheValue>)
    ensures r.Some? ==> key in entries && r.value == entries[key].value
    ensures r.None? <==> key !in entries || entries[key].expiresAt < nowMs
  {
    if key in entries && nowMs <= entries[key].expiresAt then Some(entries[key].value) else None
  }

  /** `cache.set(key, value, ttl)` at instant `nowMs`. */
  function Put(entries: Entries, key: CacheKey, value: CacheValue, ttlMs: int, nowMs: int): Entries
  {
    entries[key := CacheEntry(value, nowMs + ttlMs)]
  }

  /** A value stored with a non-negative TTL is returned unchanged until the TTL has elapsed. */
  lemma PutThenLookup(entries: Entries, key: CacheKey, value: CacheValue, ttlMs: int, nowMs: int, later: int)
    requires nowMs <= later <= nowMs + ttlMs
    ensures Lookup(Put(entries, key, value, ttlMs, nowMs), key, later) == Some(value)
  {
  }

  /** After the TTL has elapsed the value is gone. */
  lemma PutThenExpire(entries: Entries, key: CacheKey, value: CacheValue, ttlMs: int, nowMs: int, later: int)
    requires later > nowMs + ttlMs
    ensures Lookup(Put(entries, key, value, ttlMs, nowMs), key, later) == None
  {
  }

  /** Entries are independent: storing under one key leaves every other key as it was. */
  lemma PutOtherKey(entries: Entries, key: CacheKey, other: CacheKey, value: CacheValue, ttlMs: int, nowMs: int, at: int)
    requires other != key
    ensures Lookup(Put(entries, key, value, ttlMs, nowMs), other, at) == Lookup(entries, other, at)
  {
  }

  /** Which value family belongs to which key family. */
  predicate Fits(key: CacheKey, value: CacheValue)
  {
    match key
    case NetworkTx(_, _) => value.ActivityValue?
    case AnalysisKey(w) => value.AnalysisValue? && value.analysis.walletAddress == w
    case ScoreKey(w) => value.ScoreValue? && value.score.walletAddress == w
  }

  /** Every key holds a value of its own family: what `cache.get<T>` relies on. */
  ghost predicate WellTyped(entries: Entries)
  {
    forall k :: k in entries ==> Fits(k, entries[k].value)
  }

  lemma PutKeepsWellTyped(entries: Entries, key: CacheKey, value: CacheValue, ttlMs: int, nowMs: int)
    requires WellTyped(entries) && Fits(key, value)
    ensures WellTyped(Put(entries, key, value, ttlMs, nowMs))
  {
  }

  /** The process-wide cache object shared by the analysis and reputation services. */
  class TtlCache {
    var entries: Entries

    constructor ()
      ensures entries == map[]
    {
      entries := map[];
    }

    function Get(key: CacheKey, nowMs: int): Option<CacheValue>
      reads this
    {
      Lookup(entries, key, nowMs)
    }

    method Set(key: CacheKey, value: CacheValue, ttlMs: int, nowMs: int)
      modifies this
      ensures entries == Put(old(entries), key, value, ttlMs, nowMs)
    {
      entries := entries[key := CacheEntry(value, nowMs + ttlMs)];
    }
  }
}
