/**
 * The wallet-analysis service: the per-network fetch with its read-through cache,
 * zero-count short-circuit, two-sided first/last probes and degraded results, and the
 * per-wallet fan-out with its own cache entry.
 *
 * The specification functions below thread the cache's entry map explicitly: each returns
 * the result together with the entries afterwards. The class methods mirror the source step
 * by step and are proved to compute exactly these functions.
 */
module WalletAnalysis {
  import opened Wrappers
  import opened Collections
  import opened Networks
  import opened Upstream
  import opened Activity
  import opened Cache

  const InvalidAddress: string := "Invalid wallet address"

  /** The static category policy: internal transfers only where the network supports them. */
  function Categories(key: NetworkKey): (r: seq<Category>)
    ensures Internal in r <==> SupportsInternal(key)
    ensures External in r && Erc20 in r && Erc721 in r && Erc1155 in r
    ensures Distinct(r)
  {
    if SupportsInternal(key) then [External, Internal, Erc20, Erc721, Erc1155]
    else [External, Erc20, Erc721, Erc1155]
  }

  /** One `getAssetTransfers` probe with `maxCount: 1`. */
  function Probe(client: Client, wallet: string, key: NetworkKey, dir: Direction, order: SortOrder): Result<Option<Transfer>, string>
  {
    client.firstTransfer(wallet, key, dir, order, Categories(key))
  }

  /** The candidate list: the outgoing transfer (if any), then the incoming one (if any). */
  function Candidates(outgoing: Option<Transfer>, incoming: Option<Transfer>): (r: seq<Transfer>)
    ensures |r| <= 2
    ensures r == [] <==> outgoing.None? && incoming.None?
    ensures forall t :: t in r <==> outgoing == Some(t) || incoming == Some(t)
  {
    (if outgoing.Some? then [outgoing.value] else []) + (if incoming.Some? then [incoming.value] else [])
  }

  /** Element 0 after sorting the candidates by ascending block number. */
  function OldestBlock(cands: seq<Transfer>): (b: nat)
    requires cands != []
    ensures exists i :: 0 <= i < |cands| && cands[i].blockNum == b
    ensures forall i :: 0 <= i < |cands| ==> b <= cands[i].blockNum
  {
    if |cands| == 1 then cands[0].blockNum
    else
      var rest := OldestBlock(cands[1..]);
      assert forall i :: 1 <= i < |cands| ==> cands[i] == cands[1..][i - 1];
      if cands[0].blockNum <= rest then cands[0].blockNum else rest
  }

  /** Element 0 after sorting the candidates by descending block number. */
  function NewestBlock(cands: seq<Transfer>): (b: nat)
    requires cands != []
    ensures exists i :: 0 <= i < |cands| && cands[i].blockNum == b
    ensures forall i :: 0 <= i < |cands| ==> cands[i].blockNum <= b
  {
    if |cands| == 1 then cands[0].blockNum
    else
      var rest := NewestBlock(cands[1..]);
      assert forall i :: 1 <= i < |cands| ==> cands[i] == cands[1..][i - 1];
      if cands[0].blockNum >= rest then cands[0].blockNum else rest
  }

  function ChosenBlock(cands: seq<Transfer>, order: SortOrder): nat
    requires cands != []
  {
    if order == Ascending then OldestBlock(cands) else NewestBlock(cands)
  }

  /**
   * One phase of the timestamp lookup: both probes (either failing fails the phase), then
   * the timestamp of the chosen block (failing fails the phase), or null without candidates.
   */
  function ProbeTimestamp(client: Client, wallet: string, key: NetworkKey, order: SortOrder): (r: Result<Option<nat>, string>)
    ensures r.Success? ==> Probe(client, wallet, key, Outgoing, order).Success?
                           && Probe(client, wallet, key, Incoming, order).Success?
    ensures r.Success? ==>
      var cands := Candidates(Probe(client, wallet, key, Outgoing, order).value,
                              Probe(client, wallet, key, Incoming, order).value);
      (r.value.None? <==> cands == [])
      && (r.value.Some? ==> client.blockTimestamp(key, ChosenBlock(cands, order)) == Success(r.value.value))
  {
    var outgoing :- Probe(client, wallet, key, Outgoing, order);
    var incoming :- Probe(client, wallet, key, Incoming, order);
    var cands := Candidates(outgoing, incoming);
    if cands == [] then Success(None)
    else
      var ts :- client.blockTimestamp(key, ChosenBlock(cands, order));
      Success(Some(ts))
  }

  /**
   * The inner `try`: the first phase, then the last phase. A failure in a phase leaves that
   * phase's timestamp (and every later one) null; an earlier timestamp already found stays.
   */
  function Timestamps(client: Client, wallet: string, key: NetworkKey): (Option<nat>, Option<nat>)
  {
    match ProbeTimestamp(client, wallet, key, Ascending)
    case Failure(_) => (None, None)
    case Success(first) =>
      match ProbeTimestamp(client, wallet, key, Descending)
      case Failure(_) => (first, None)
      case Success(last) => (first, last)
  }

  /**
   * A cache miss: the activity and whether it is cached. A failed count degrades to a
   * zero-count record carrying the message, which is not cached.
   */
  function Fetch(client: Client, wallet: string, key: NetworkKey): (r: (NetworkActivity, bool))
    ensures r.0.network == Describe(key).name && r.0.chainId == Describe(key).chainId
    ensures r.1 <==> r.0.error.None?
    ensures r.1 <==> client.transactionCount(wallet, key).Success?
    ensures r.1 ==> r.0.transactionCount == client.transactionCount(wallet, key).value
    ensures !r.1 ==> r.0.transactionCount == 0 && r.0.firstTransaction.None? && r.0.lastTransaction.None?
                     && r.0.error == Some(client.transactionCount(wallet, key).error)
    ensures r.0.transactionCount == 0 ==> r.0.firstTransaction.None? && r.0.lastTransaction.None?
    ensures r.0.transactionCount > 0 ==> (r.0.firstTransaction, r.0.lastTransaction) == Timestamps(client, wallet, key)
  {
    var d := Describe(key);
    match client.transactionCount(wallet, key)
    case Failure(msg) => (NetworkActivity(d.name, d.chainId, 0, None, None, Some(msg)), false)
    case Success(count) =>
      var stamps := if count > 0 then Timestamps(client, wallet, key) else (None, None);
      (NetworkActivity(d.name, d.chainId, count, stamps.0, stamps.1, None), true)
  }

  /** `getNetworkActivity`: read-through cache around `Fetch`. */
  function NetworkStep(entries: Entries, client: Client, wallet: string, key: NetworkKey, nowMs: int): (r: (NetworkActivity, Entries))
    ensures forall k :: k != NetworkTx(wallet, key) ==> SameAt(r.1, entries, k)
    ensures Lookup(entries, NetworkTx(wallet, key), nowMs).Some?
            && Lookup(entries, NetworkTx(wallet, key), nowMs).value.ActivityValue? ==>
            r == (Lookup(entries, NetworkTx(wallet, key), nowMs).value.activity, entries)
    ensures Lookup(entries, NetworkTx(wallet, key), nowMs).None? ==>
            && r.0 == Fetch(client, wallet, key).0
            && (Lookup(r.1, NetworkTx(wallet, key), nowMs) == Some(ActivityValue(r.0))
                <==> client.transactionCount(wallet, key).Success?)
            && (client.transactionCount(wallet, key).Failure? ==> r.1 == entries)
  {
    match Lookup(entries, NetworkTx(wallet, key), nowMs)
    case Some(ActivityValue(a)) => (a, entries)
    case _ =>
      var (a, keep) := Fetch(client, wallet, key);
      (a, if keep then Put(entries, NetworkTx(wallet, key), ActivityValue(a), FiveMinutesMs, nowMs) else entries)
  }

  /** Key `k` is stored identically in both maps (or in neither). */
  predicate SameAt(e1: Entries, e2: Entries, k: CacheKey)
  {
    (k in e1 <==> k in e2) && (k in e1 ==> e1[k] == e2[k])
  }

  /** The fan-out over `nets`, as an order-preserving sequential map. */
  function FetchAll(entries: Entries, client: Client, wallet: string, nets: seq<NetworkKey>, nowMs: int): (r: (seq<NetworkActivity>, Entries))
    ensures |r.0| == |nets|
    ensures forall k: CacheKey :: !(k.NetworkTx? && k.wallet == wallet && k.network in nets) ==> SameAt(r.1, entries, k)
  {
    if nets == [] then ([], entries)
    else
      var (acts, e) := FetchAll(entries, client, wallet, nets[..|nets| - 1], nowMs);
      var (a, e') := NetworkStep(e, client, wallet, nets[|nets| - 1], nowMs);
      assert forall n :: n in nets[..|nets| - 1] ==> n in nets;
      (acts + [a], e')
  }

  /** `analyzeWallet` over the full network list. */
  function AnalyzeWalletSpec(entries: Entries, env: Env, wallet: string, nowMs: int): (r: (Result<WalletAnalysis, string>, Entries))
    ensures !env.isAddress(wallet) ==> r == (Failure(InvalidAddress), entries)
    ensures env.isAddress(wallet) && Lookup(entries, AnalysisKey(wallet), nowMs).Some?
            && Lookup(entries, AnalysisKey(wallet), nowMs).value.AnalysisValue? ==>
            r == (Success(Lookup(entries, AnalysisKey(wallet), nowMs).value.analysis), entries)
    ensures env.isAddress(wallet) ==> r.0.Success?
    ensures env.isAddress(wallet) && Lookup(entries, AnalysisKey(wallet), nowMs).None? ==>
            var a := r.0.value;
            && a.walletAddress == wallet && a.activeNetworks <= |AllNetworks|
            && a.analyzedAt == nowMs && |a.networkActivities| == |AllNetworks|
            && a.networkActivities == FetchAll(entries, env.client, wallet, AllNetworks, nowMs).0
            && a.totalTransactions == TotalTransactions(a.networkActivities)
            && a.activeNetworks == ActiveNetworks(a.networkActivities)
            && a.firstTransactionTimestamp == EarliestTimestamp(a.networkActivities)
            && a.walletAge == WalletAgeDays(nowMs, a.firstTransactionTimestamp)
            && Lookup(r.1, AnalysisKey(wallet), nowMs) == Some(AnalysisValue(a))
  {
    if !env.isAddress(wallet) then (Failure(InvalidAddress), entries)
    else
      match Lookup(entries, AnalysisKey(wallet), nowMs)
      case Some(AnalysisValue(a)) => (Success(a), entries)
      case _ =>
        var (acts, e) := FetchAll(entries, env.client, wallet, AllNetworks, nowMs);
        var a := Analyze(wallet, acts, nowMs);
        (Success(a), Put(e, AnalysisKey(wallet), AnalysisValue(a), FiveMinutesMs, nowMs))
  }

  /** `getQuickStats` over the five main networks; it has no wallet-level cache entry. */
  function QuickStatsSpec(entries: Entries, env: Env, wallet: string, nowMs: int): (r: (Result<QuickStats, string>, Entries))
    ensures !env.isAddress(wallet) ==> r == (Failure(InvalidAddress), entries)
    ensures env.isAddress(wallet) ==> r.0.Success? && r.0.value.walletAddress == wallet
                                      && r.0.value.activeNetworks <= |QuickNetworks|
    ensures env.isAddress(wallet) ==>
            var acts := FetchAll(entries, env.client, wallet, QuickNetworks, nowMs).0;
            && r.0.value.totalTransactions == TotalTransactions(acts)
            && r.0.value.activeNetworks == ActiveNetworks(acts)
            && r.0.value.walletAge == WalletAgeDays(nowMs, EarliestTimestamp(acts))
            && r.1 == FetchAll(entries, env.client, wallet, QuickNetworks, nowMs).1
  {
    if !env.isAddress(wallet) then (Failure(InvalidAddress), entries)
    else
      var (acts, e) := FetchAll(entries, env.client, wallet, QuickNetworks, nowMs);
      (Success(Quick(wallet, acts, nowMs)), e)
  }

  // ---------------------------------------------------------------------------------------
  // Properties of the specification.

  /** A zero count short-circuits: no probe or block answer can influence the result. */
  lemma ZeroCountIgnoresProbes(c1: Client, c2: Client, wallet: string, key: NetworkKey)
    requires c1.transactionCount == c2.transactionCount
    requires c1.transactionCount(wallet, key) == Success(0)
    ensures Fetch(c1, wallet, key) == Fetch(c2, wallet, key)
    ensures Fetch(c1, wallet, key).0.firstTransaction.None? && Fetch(c1, wallet, key).0.lastTransaction.None?
  {
  }

  /** The result of one network step depends on the cache only through that network's key. */
  lemma NetworkStepLocal(e1: Entries, e2: Entries, client: Client, wallet: string, key: NetworkKey, nowMs: int)
    requires SameAt(e1, e2, NetworkTx(wallet, key))
    ensures NetworkStep(e1, client, wallet, key, nowMs).0 == NetworkStep(e2, client, wallet, key, nowMs).0
  {
    assert Lookup(e1, NetworkTx(wallet, key), nowMs) == Lookup(e2, NetworkTx(wallet, key), nowMs);
  }

  /**
   * The fan-out is a map: over distinct networks, element j is what network j alone would
   * give from the initial cache, whatever was fetched before it.
   */
  lemma {:induction false} FetchAllIsMap(entries: Entries, client: Client, wallet: string, nets: seq<NetworkKey>, nowMs: int)
    requires Distinct(nets)
    ensures forall j :: 0 <= j < |nets| ==>
      FetchAll(entries, client, wallet, nets, nowMs).0[j] == NetworkStep(entries, client, wallet, nets[j], nowMs).0
  {
    if nets != [] {
      var n := |nets| - 1;
      var init := nets[..n];
      FetchAllIsMap(entries, client, wallet, init, nowMs);
      var (acts, e) := FetchAll(entries, client, wallet, init, nowMs);
      assert nets[n] !in init;
      NetworkStepLocal(e, entries, client, wallet, nets[n], nowMs);
    }
  }

  /** All cache writes store values of the key's own family. */
  lemma {:induction false} FetchAllWellTyped(entries: Entries, client: Client, wallet: string, nets: seq<NetworkKey>, nowMs: int)
    requires WellTyped(entries)
    ensures WellTyped(FetchAll(entries, client, wallet, nets, nowMs).1)
  {
    if nets != [] {
      FetchAllWellTyped(entries, client, wallet, nets[..|nets| - 1], nowMs);
    }
  }

  /** Under a well-typed cache, a cached analysis served for `wallet` is the analysis of `wallet`. */
  lemma AnalysisServedIsRequested(entries: Entries, env: Env, wallet: string, nowMs: int)
    requires WellTyped(entries)
    ensures env.isAddress(wallet) ==> AnalyzeWalletSpec(entries, env, wallet, nowMs).0.value.walletAddress == wallet
  {
    var key := AnalysisKey(wallet);
    if env.isAddress(wallet) && Lookup(entries, key, nowMs).Some? {
      assert key in entries && Fits(key, entries[key].value);
    }
  }

  lemma AnalyzeWellTyped(entries: Entries, env: Env, wallet: string, nowMs: int)
    requires WellTyped(entries)
    ensures WellTyped(AnalyzeWalletSpec(entries, env, wallet, nowMs).1)
    ensures WellTyped(QuickStatsSpec(entries, env, wallet, nowMs).1)
  {
    FetchAllWellTyped(entries, env.client, wallet, AllNetworks, nowMs);
    FetchAllWellTyped(entries, env.client, wallet, QuickNetworks, nowMs);
  }

  /**
   * Failure containment: a network whose count lookup fails (on a cache miss) contributes
   * nothing to the totals, the active count or the first timestamps.
   */
  lemma FailedNetworkIgnored(entries: Entries, client: Client, wallet: string, nets: seq<NetworkKey>, nowMs: int, j: nat)
    requires Distinct(nets) && j < |nets|
    requires Lookup(entries, NetworkTx(wallet, nets[j]), nowMs).None?
    requires client.transactionCount(wallet, nets[j]).Failure?
    ensures var acts := FetchAll(entries, client, wallet, nets, nowMs).0;
            var rest := acts[..j] + acts[j + 1..];
            acts[j].error.Some?
            && TotalTransactions(acts) == TotalTransactions(rest)
            && ActiveNetworks(acts) == ActiveNetworks(rest)
            && PresentFirsts(acts) == PresentFirsts(rest)
  {
    FetchAllIsMap(entries, client, wallet, nets, nowMs);
    var acts := FetchAll(entries, client, wallet, nets, nowMs).0;
    InactiveContributesNothing(acts, j);
  }

  /**
   * Read-through idempotence: within the TTL a second analysis returns the cached analysis
   * unchanged, whatever the upstream client would now answer, and writes nothing.
   */
  lemma AnalysisCachedWithinTtl(entries: Entries, env: Env, other: Client, wallet: string, nowMs: int, later: int)
    requires env.isAddress(wallet)
    requires Lookup(entries, AnalysisKey(wallet), nowMs).None?
    requires nowMs <= later <= nowMs + FiveMinutesMs
    ensures var (r, e) := AnalyzeWalletSpec(entries, env, wallet, nowMs);
            AnalyzeWalletSpec(e, Env(env.isAddress, other), wallet, later) == (r, e)
  {
  }

  /** The same for one network: a cached activity is served until its TTL elapses. */
  lemma ActivityCachedWithinTtl(entries: Entries, client: Client, other: Client, wallet: string, key: NetworkKey, nowMs: int, later: int)
    requires nowMs <= later <= nowMs + FiveMinutesMs
    requires client.transactionCount(wallet, key).Success?
    ensures var (a, e) := NetworkStep(entries, client, wallet, key, nowMs);
            Lookup(entries, NetworkTx(wallet, key), nowMs).None? ==>
            NetworkStep(e, other, wallet, key, later) == (a, e)
  {
  }

  /**
   * Both fetches see the same per-network records: on an analysis miss, each quick-stats network
   * gets exactly the record the full analysis holds for that network.
   */
  lemma QuickStatsAgreeWithAnalysis(entries: Entries, env: Env, wallet: string, nowMs: int)
    requires env.isAddress(wallet) && Lookup(entries, AnalysisKey(wallet), nowMs).None?
    ensures var quick := FetchAll(entries, env.client, wallet, QuickNetworks, nowMs).0;
            var full := AnalyzeWalletSpec(entries, env, wallet, nowMs).0.value.networkActivities;
            forall i, j :: 0 <= i < |QuickNetworks| && 0 <= j < |AllNetworks| && QuickNetworks[i] == AllNetworks[j] ==>
              quick[i] == full[j]
  {
    AllNetworksComplete();
    QuickNetworksSubset();
    FetchAllIsMap(entries, env.client, wallet, QuickNetworks, nowMs);
    FetchAllIsMap(entries, env.client, wallet, AllNetworks, nowMs);
  }

  /** Two caches from which every network lookup answers the same record. */
  ghost predicate ServesAlike(e1: Entries, e2: Entries, client: Client, nowMs: int)
  {
    forall w: string, n: NetworkKey :: NetworkStep(e1, client, w, n, nowMs).0 == NetworkStep(e2, client, w, n, nowMs).0
  }

  /**
   * A network lookup at the same instant changes no later lookup's answer: it either leaves the
   * key alone or stores exactly the record it then serves.
   */
  lemma StepServesAlike(e: Entries, client: Client, w: string, n: NetworkKey, nowMs: int)
    ensures ServesAlike(NetworkStep(e, client, w, n, nowMs).1, e, client, nowMs)
  {
    var e' := NetworkStep(e, client, w, n, nowMs).1;
    var k := NetworkTx(w, n);
    forall w2: string, n2: NetworkKey
      ensures NetworkStep(e', client, w2, n2, nowMs).0 == NetworkStep(e, client, w2, n2, nowMs).0
    {
      if NetworkTx(w2, n2) != k {
        NetworkStepLocal(e', e, client, w2, n2, nowMs);
      } else if Lookup(e, k, nowMs).None? && client.transactionCount(w, n).Success? {
        assert Lookup(e', k, nowMs) == Some(ActivityValue(NetworkStep(e, client, w, n, nowMs).0));
      }
    }
  }

  /** A whole fan-out at the same instant changes no later lookup's answer either. */
  lemma {:induction false} FetchAllServesAlike(e: Entries, client: Client, w: string, nets: seq<NetworkKey>, nowMs: int)
    ensures ServesAlike(FetchAll(e, client, w, nets, nowMs).1, e, client, nowMs)
  {
    if nets != [] {
      var init := nets[..|nets| - 1];
      FetchAllServesAlike(e, client, w, init, nowMs);
      var e1 := FetchAll(e, client, w, init, nowMs).1;
      StepServesAlike(e1, client, w, nets[|nets| - 1], nowMs);
    }
  }

  /** Caches that serve alike give the same fan-out records. */
  lemma FetchAllFromAlike(e1: Entries, e2: Entries, client: Client, w: string, nets: seq<NetworkKey>, nowMs: int)
    requires Distinct(nets) && ServesAlike(e1, e2, client, nowMs)
    ensures FetchAll(e1, client, w, nets, nowMs).0 == FetchAll(e2, client, w, nets, nowMs).0
  {
    FetchAllIsMap(e1, client, w, nets, nowMs);
    FetchAllIsMap(e2, client, w, nets, nowMs);
  }

  // ---------------------------------------------------------------------------------------
  // The service object.

  class WalletAnalysisService {
    const cache: TtlCache
    const env: Env

    constructor (cache: TtlCache, env: Env)
      ensures this.cache == cache && this.env == env
    {
      this.cache := cache;
      this.env := env;
    }

    /** Index of the candidate that sorts first (the first such one, as a stable sort keeps it). */
    static method SortedFirst(cands: seq<Transfer>, order: SortOrder) returns (block: nat)
      requires cands != []
      ensures block == ChosenBlock(cands, order)
    {
      var best := 0;
      var i := 1;
      while i < |cands|
        invariant 0 <= best < i <= |cands|
        invariant forall j :: 0 <= j < i ==>
          if order == Ascending then cands[best].blockNum <= cands[j].blockNum
          else cands[j].blockNum <= cands[best].blockNum
      {
        if (order == Ascending && cands[i].blockNum < cands[best].blockNum)
          || (order == Descending && cands[i].blockNum > cands[best].blockNum)
        {
          best := i;
        }
        i := i + 1;
      }
      block := cands[best].blockNum;
    }

    /** One phase of the inner `try`: both probes, the candidate list, the chosen block. */
    method ReadPhase(wallet: string, key: NetworkKey, order: SortOrder) returns (r: Result<Option<nat>, string>)
      ensures r == ProbeTimestamp(env.client, wallet, key, order)
    {
      var categories := Categories(key);
      var outgoing := env.client.firstTransfer(wallet, key, Outgoing, order, categories);
      var incoming := env.client.firstTransfer(wallet, key, Incoming, order, categories);
      if outgoing.Failure? {
        return Failure(outgoing.error);
      }
      if incoming.Failure? {
        return Failure(incoming.error);
      }
      var candidates: seq<Transfer> := [];
      if outgoing.value.Some? {
        candidates := candidates + [outgoing.value.value];
      }
      if incoming.value.Some? {
        candidates := candidates + [incoming.value.value];
      }
      assert outgoing == Probe(env.client, wallet, key, Outgoing, order);
      assert incoming == Probe(env.client, wallet, key, Incoming, order);
      assert candidates == Candidates(outgoing.value, incoming.value);
      if |candidates| == 0 {
        return Success(None);
      }
      var block := SortedFirst(candidates, order);
      var data := env.client.blockTimestamp(key, block);
      if data.Failure? {
        return Failure(data.error);
      }
      r := Success(Some(data.value));
    }

    /** `getNetworkActivity`. */
    method GetNetworkActivity(wallet: string, key: NetworkKey, nowMs: int) returns (activity: NetworkActivity)
      modifies cache
      ensures (activity, cache.entries) == NetworkStep(old(cache.entries), env.client, wallet, key, nowMs)
    {
      var cacheKey := NetworkTx(wallet, key);
      var cached := cache.Get(cacheKey, nowMs);
      if cached.Some? && cached.value.ActivityValue? {
        return cached.value.activity;
      }
      var config := Describe(key);
      var txCount := env.client.transactionCount(wallet, key);
      if txCount.Failure? {
        return NetworkActivity(config.name, config.chainId, 0, None, None, Some(txCount.error));
      }
      var firstTxTimestamp: Option<nat> := None;
      var lastTxTimestamp: Option<nat> := None;
      if txCount.value > 0 {
        var first := ReadPhase(wallet, key, Ascending);
        if first.Success? {
          firstTxTimestamp := first.value;
          var last := ReadPhase(wallet, key, Descending);
          if last.Success? {
            lastTxTimestamp := last.value;
          }
        }
      }
      activity := NetworkActivity(config.name, config.chainId, txCount.value, firstTxTimestamp, lastTxTimestamp, None);
      cache.Set(cacheKey, ActivityValue(activity), FiveMinutesMs, nowMs);
    }

    /** `Promise.all(networkKeys.map(...))`, one network after the other, in list order. */
    method FetchActivities(wallet: string, nets: seq<NetworkKey>, nowMs: int) returns (activities: seq<NetworkActivity>)
      modifies cache
      ensures (activities, cache.entries) == FetchAll(old(cache.entries), env.client, wallet, nets, nowMs)
    {
      activities := [];
      var i := 0;
      while i < |nets|
        invariant 0 <= i <= |nets|
        invariant (activities, cache.entries) == FetchAll(old(cache.entries), env.client, wallet, nets[..i], nowMs)
      {
        var a := GetNetworkActivity(wallet, nets[i], nowMs);
        assert nets[..i + 1][..i] == nets[..i];
        activities := activities + [a];
        i := i + 1;
      }
      assert nets[..|nets|] == nets;
    }

    /** `analyzeWallet`. */
    method AnalyzeWallet(wallet: string, nowMs: int) returns (r: Result<WalletAnalysis, string>)
      modifies cache
      ensures (r, cache.entries) == AnalyzeWalletSpec(old(cache.entries), env, wallet, nowMs)
    {
      if !env.isAddress(wallet) {
        return Failure(InvalidAddress);
      }
      var cacheKey := AnalysisKey(wallet);
      var cached := cache.Get(cacheKey, nowMs);
      if cached.Some? && cached.value.AnalysisValue? {
        return Success(cached.value.analysis);
      }
      var activities := FetchActivities(wallet, AllNetworks, nowMs);
      var analysis := Analyze(wallet, activities, nowMs);
      cache.Set(cacheKey, AnalysisValue(analysis), FiveMinutesMs, nowMs);
      r := Success(analysis);
    }

    /** `getQuickStats`. */
    method GetQuickStats(wallet: string, nowMs: int) returns (r: Result<QuickStats, string>)
      modifies cache
      ensures (r, cache.entries) == QuickStatsSpec(old(cache.entries), env, wallet, nowMs)
    {
      if !env.isAddress(wallet) {
        return Failure(InvalidAddress);
      }
      var activities := FetchActivities(wallet, QuickNetworks, nowMs);
      r := Success(Quick(wallet, activities, nowMs));
    }
  }
}
