/**
 * The reputation orchestrator: the cached full score, the quick formula over the five main
 * networks, and the windowed batch of quick checks.
 */
module Reputation {
  import opened Wrappers
  import opened Networks
  import opened Upstream
  import opened Activity
  import opened Scoring
  import opened Cache
  import opened WalletAnalysis

  /** The lighter result of `getQuickReputation`. */
  datatype QuickReputation = QuickReputation(
    walletAddress: string,
    score: int,
    eligible: bool,
    walletAge: int,
    totalTransactions: nat,
    activeNetworks: nat)

  /** One slot of a batch answer: a quick result, or the error record that replaces it. */
  datatype BatchItem =
    | Checked(result: QuickReputation)
    | Failed(walletAddress: string, error: string)
  {
    function Wallet(): string
    {
      if Checked? then result.walletAddress else walletAddress
    }
  }

  const BatchSize: nat := 5
  const NoValidAddresses: string := "No valid wallet addresses provided"
  const FullFailedPrefix: string := "Failed to get reputation score: "
  const QuickFailedPrefix: string := "Failed to get quick reputation: "

  // ---------------------------------------------------------------------------------------
  // The quick formula, written as the source's nested conditionals.

  function QuickAgeScore(age: int): (r: int)
    ensures 15 <= r <= MaxWalletAgeScore
    ensures age >= 365 <==> r == MaxWalletAgeScore
  {
    if age >= 365 then 60 else if age >= 181 then 55 else if age >= 91 then 45
    else if age >= 31 then 35 else if age >= 7 then 20 else 15
  }

  function QuickTransactionScore(tx: int): (r: int)
    ensures 15 <= r <= MaxTransactionScore
    ensures tx >= 500 <==> r == MaxTransactionScore
  {
    if tx >= 500 then 110 else if tx >= 101 then 95 else if tx >= 51 then 80
    else if tx >= 21 then 65 else if tx >= 5 then 55 else 15
  }

  function QuickMultichainBonus(networks: int): (r: int)
    ensures 10 <= r <= MaxMultichainBonus
    ensures networks >= 5 <==> r == MaxMultichainBonus
  {
    if networks >= 5 then 50 else if networks >= 4 then 40 else if networks >= 3 then 35
    else if networks >= 2 then 30 else 10
  }

  /**
   * The quick sub-scores are the full engine's, except the transaction score at exactly
   * 500 transactions, where the quick formula gives 110 and the full one 95.
   */
  lemma QuickAgreesWithFull(age: int, tx: int, networks: int)
    ensures QuickAgeScore(age) == WalletAgeScore(age)
    ensures QuickMultichainBonus(networks) == MultichainBonus(networks)
    ensures QuickTransactionScore(tx) == TransactionScore(tx) <==> tx != 500
    ensures QuickTransactionScore(500) == 110 && TransactionScore(500) == 95
  {
  }

  /** The quick result for already computed quick statistics. */
  function QuickScore(wallet: string, stats: QuickStats): (r: QuickReputation)
    ensures r.eligible <==> r.score >= EligibleThreshold
    ensures r.walletAddress == wallet
    ensures r.walletAge == stats.walletAge && r.totalTransactions == stats.totalTransactions
            && r.activeNetworks == stats.activeNetworks
    ensures stats.totalTransactions != 500 ==>
      r.score == WalletAgeScore(stats.walletAge) + TransactionScore(stats.totalTransactions)
                 + MultichainBonus(stats.activeNetworks)
    ensures stats.totalTransactions == 500 ==>
      r.score == WalletAgeScore(stats.walletAge) + TransactionScore(500) + 15
                 + MultichainBonus(stats.activeNetworks)
  {
    QuickAgreesWithFull(stats.walletAge, stats.totalTransactions, stats.activeNetworks);
    var total := QuickAgeScore(stats.walletAge) + QuickTransactionScore(stats.totalTransactions)
                 + QuickMultichainBonus(stats.activeNetworks);
    QuickReputation(wallet, total, total >= 100, stats.walletAge, stats.totalTransactions, stats.activeNetworks)
  }

  /** Quick and full totals agree on the same figures exactly when the count is not 500. */
  lemma QuickTotalMatchesFull(wallet: string, analysis: Activity.WalletAnalysis)
    ensures var stats := QuickStats(wallet, analysis.walletAge, analysis.totalTransactions, analysis.activeNetworks);
            QuickScore(wallet, stats).score == CalculateScore(analysis).score
            <==> analysis.totalTransactions != 500
  {
  }

  // ---------------------------------------------------------------------------------------
  // Specifications of the three operations, threading the shared cache's entries.

  /** `getReputationScore`. */
  function FullScoreSpec(entries: Entries, env: Env, wallet: string, nowMs: int): (r: (Result<ReputationScore, string>, Entries))
    ensures !env.isAddress(wallet) ==> r == (Failure(InvalidAddress), entries)
    ensures env.isAddress(wallet) && Lookup(entries, ScoreKey(wallet), nowMs).Some?
            && Lookup(entries, ScoreKey(wallet), nowMs).value.ScoreValue? ==>
            r == (Success(Lookup(entries, ScoreKey(wallet), nowMs).value.score), entries)
    ensures env.isAddress(wallet) ==> r.0.Success?
    ensures env.isAddress(wallet) && Lookup(entries, ScoreKey(wallet), nowMs).None? ==>
            && r.0.value == CalculateScore(AnalyzeWalletSpec(entries, env, wallet, nowMs).0.value)
            && Lookup(r.1, ScoreKey(wallet), nowMs) == Some(ScoreValue(r.0.value))
  {
    if !env.isAddress(wallet) then (Failure(InvalidAddress), entries)
    else
      match Lookup(entries, ScoreKey(wallet), nowMs)
      case Some(ScoreValue(s)) => (Success(s), entries)
      case _ =>
        var (analysis, e) := AnalyzeWalletSpec(entries, env, wallet, nowMs);
        match analysis
        case Failure(msg) => (Failure(FullFailedPrefix + msg), e)
        case Success(a) =>
          var s := CalculateScore(a);
          (Success(s), Put(e, ScoreKey(wallet), ScoreValue(s), FiveMinutesMs, nowMs))
  }

  /** A well-typed cache stays well-typed, and the score served is always the requested wallet's. */
  lemma FullScoreWellTyped(entries: Entries, env: Env, wallet: string, nowMs: int)
    requires WellTyped(entries)
    ensures WellTyped(FullScoreSpec(entries, env, wallet, nowMs).1)
    ensures env.isAddress(wallet) ==> FullScoreSpec(entries, env, wallet, nowMs).0.value.walletAddress == wallet
  {
    if env.isAddress(wallet) && Lookup(entries, ScoreKey(wallet), nowMs).None? {
      AnalyzeWellTyped(entries, env, wallet, nowMs);
      var (analysis, e) := AnalyzeWalletSpec(entries, env, wallet, nowMs);
      AnalysisServedIsRequested(entries, env, wallet, nowMs);
      PutKeepsWellTyped(e, ScoreKey(wallet), ScoreValue(CalculateScore(analysis.value)), FiveMinutesMs, nowMs);
    }
  }

  /** `getQuickReputation`. */
  function QuickReputationSpec(entries: Entries, env: Env, wallet: string, nowMs: int): (r: (Result<QuickReputation, string>, Entries))
    ensures !env.isAddress(wallet) ==> r == (Failure(InvalidAddress), entries)
    ensures env.isAddress(wallet) ==> r.0.Success? && r.0.value.walletAddress == wallet
                                      && r.0.value.activeNetworks <= |QuickNetworks|
    ensures env.isAddress(wallet) ==>
            && r.0.value == QuickScore(wallet, QuickStatsSpec(entries, env, wallet, nowMs).0.value)
            && r.1 == QuickStatsSpec(entries, env, wallet, nowMs).1
  {
    if !env.isAddress(wallet) then (Failure(InvalidAddress), entries)
    else
      var (stats, e) := QuickStatsSpec(entries, env, wallet, nowMs);
      match stats
      case Failure(msg) => (Failure(QuickFailedPrefix + msg), e)
      case Success(st) => (Success(QuickScore(wallet, st)), e)
  }

  /** `walletAddresses.filter(isAddress)`. */
  function ValidAddresses(isAddress: string -> bool, wallets: seq<string>): (r: seq<string>)
    ensures |r| <= |wallets|
    ensures forall w :: w in r <==> w in wallets && isAddress(w)
  {
    if wallets == [] then []
    else (if isAddress(wallets[0]) then [wallets[0]] else []) + ValidAddresses(isAddress, wallets[1..])
  }

  /** Filtering distributes over concatenation: relative order is kept. */
  lemma {:induction false} ValidAddressesAppend(isAddress: string -> bool, a: seq<string>, b: seq<string>)
    ensures ValidAddresses(isAddress, a + b) == ValidAddresses(isAddress, a) + ValidAddresses(isAddress, b)
  {
    if a != [] {
      assert (a + b)[1..] == a[1..] + b;
      ValidAddressesAppend(isAddress, a[1..], b);
    } else {
      assert a + b == b;
    }
  }

  /** One wallet of a batch: the quick check, or an error record in its place. */
  function CheckOne(entries: Entries, env: Env, wallet: string, nowMs: int): (r: (BatchItem, Entries))
    ensures r.0.Wallet() == wallet
  {
    var (res, e) := QuickReputationSpec(entries, env, wallet, nowMs);
    (if res.Success? then Checked(res.value) else Failed(wallet, res.error), e)
  }

  /** Checking a list of wallets one after the other, in list order. */
  function CheckAll(entries: Entries, env: Env, wallets: seq<string>, nowMs: int): (r: (seq<BatchItem>, Entries))
    ensures |r.0| == |wallets|
    ensures forall k :: 0 <= k < |wallets| ==> r.0[k].Wallet() == wallets[k]
  {
    if wallets == [] then ([], entries)
    else
      var (items, e) := CheckAll(entries, env, wallets[..|wallets| - 1], nowMs);
      var (item, e') := CheckOne(e, env, wallets[|wallets| - 1], nowMs);
      (items + [item], e')
  }

  /** Checking `a + b` is checking `a`, then checking `b` from the cache `a` left. */
  lemma {:induction false} CheckAllAppend(entries: Entries, env: Env, a: seq<string>, b: seq<string>, nowMs: int)
    ensures var (ia, ea) := CheckAll(entries, env, a, nowMs);
            var (ib, eb) := CheckAll(ea, env, b, nowMs);
            CheckAll(entries, env, a + b, nowMs) == (ia + ib, eb)
  {
    if b == [] {
      assert a + b == a;
      var (ia, ea) := CheckAll(entries, env, a, nowMs);
      assert CheckAll(ea, env, b, nowMs) == ([], ea);
      assert ia + [] == ia;
    } else {
      var b' := b[..|b| - 1];
      var w := b[|b| - 1];
      CheckAllAppend(entries, env, a, b', nowMs);
      assert (a + b)[..|a + b| - 1] == a + b';
      assert (a + b)[|a + b| - 1] == w;
      var (ia, ea) := CheckAll(entries, env, a, nowMs);
      var (ib', eb') := CheckAll(ea, env, b', nowMs);
      var (item, e) := CheckOne(eb', env, w, nowMs);
      assert CheckAll(ea, env, b, nowMs) == (ib' + [item], e);
      assert CheckAll(entries, env, a + b, nowMs) == (ia + ib' + [item], e);
      assert ia + ib' + [item] == ia + (ib' + [item]);
    }
  }

  /** `batchCheckReputation`. */
  function BatchSpec(entries: Entries, env: Env, wallets: seq<string>, nowMs: int): (r: (Result<seq<BatchItem>, string>, Entries))
    ensures r.0.Failure? <==> ValidAddresses(env.isAddress, wallets) == []
    ensures r.0.Failure? ==> r == (Failure(NoValidAddresses), entries)
    ensures r.0.Success? ==>
      var valid := ValidAddresses(env.isAddress, wallets);
      |r.0.value| == |valid| && forall k :: 0 <= k < |valid| ==> r.0.value[k].Wallet() == valid[k]
    ensures r.0.Success? ==>
      var valid := ValidAddresses(env.isAddress, wallets);
      forall k :: 0 <= k < |valid| ==>
        r.0.value[k] == Checked(QuickReputationSpec(entries, env, valid[k], nowMs).0.value)
  {
    var valid := ValidAddresses(env.isAddress, wallets);
    if valid == [] then (Failure(NoValidAddresses), entries)
    else
      var (items, e) := CheckAll(entries, env, valid, nowMs);
      CheckAllIsMap(entries, env, valid, nowMs);
      (Success(items), e)
  }

  /** A quick check at the same instant changes no later network lookup's answer. */
  lemma QuickServesAlike(entries: Entries, env: Env, wallet: string, nowMs: int)
    ensures ServesAlike(QuickReputationSpec(entries, env, wallet, nowMs).1, entries, env.client, nowMs)
  {
    if env.isAddress(wallet) {
      FetchAllServesAlike(entries, env.client, wallet, QuickNetworks, nowMs);
    }
  }

  /** Caches that serve alike give the same quick check. */
  lemma QuickFromAlike(e1: Entries, e2: Entries, env: Env, wallet: string, nowMs: int)
    requires ServesAlike(e1, e2, env.client, nowMs)
    ensures QuickReputationSpec(e1, env, wallet, nowMs).0 == QuickReputationSpec(e2, env, wallet, nowMs).0
  {
    if env.isAddress(wallet) {
      QuickNetworksSubset();
      FetchAllFromAlike(e1, e2, env.client, wallet, QuickNetworks, nowMs);
    }
  }

  /**
   * The sequential batch is a map: slot k is what checking `wallets[k]` alone from the initial
   * cache gives, whatever was checked before it; and the cache it leaves serves alike.
   */
  lemma {:induction false} CheckAllIsMap(entries: Entries, env: Env, wallets: seq<string>, nowMs: int)
    ensures forall k :: 0 <= k < |wallets| ==>
      CheckAll(entries, env, wallets, nowMs).0[k] == CheckOne(entries, env, wallets[k], nowMs).0
    ensures ServesAlike(CheckAll(entries, env, wallets, nowMs).1, entries, env.client, nowMs)
  {
    if wallets != [] {
      var init := wallets[..|wallets| - 1];
      var w := wallets[|wallets| - 1];
      CheckAllIsMap(entries, env, init, nowMs);
      var (items, e) := CheckAll(entries, env, init, nowMs);
      QuickFromAlike(e, entries, env, w, nowMs);
      QuickServesAlike(e, env, w, nowMs);
      assert forall k :: 0 <= k < |init| ==> wallets[k] == init[k];
      var e' := CheckOne(e, env, w, nowMs).1;
      assert ServesAlike(e', entries, env.client, nowMs) by {
        forall w2: string, n2: NetworkKey
          ensures NetworkStep(e', env.client, w2, n2, nowMs).0 == NetworkStep(entries, env.client, w2, n2, nowMs).0
        {
          assert NetworkStep(e', env.client, w2, n2, nowMs).0 == NetworkStep(e, env.client, w2, n2, nowMs).0;
        }
      }
    }
  }

  /** Every wallet that survives the filter is checked successfully: no slot is an error record. */
  lemma {:induction false} CheckAllOfValidSucceeds(entries: Entries, env: Env, wallets: seq<string>, nowMs: int)
    requires forall w :: w in wallets ==> env.isAddress(w)
    ensures forall k :: 0 <= k < |wallets| ==> CheckAll(entries, env, wallets, nowMs).0[k].Checked?
  {
    if wallets != [] {
      var init := wallets[..|wallets| - 1];
      assert forall w :: w in init ==> w in wallets;
      CheckAllOfValidSucceeds(entries, env, init, nowMs);
    }
  }

  lemma BatchHasNoErrorRecords(entries: Entries, env: Env, wallets: seq<string>, nowMs: int)
    ensures var r := BatchSpec(entries, env, wallets, nowMs).0;
            r.Success? ==> forall k :: 0 <= k < |r.value| ==> r.value[k].Checked?
  {
    var valid := ValidAddresses(env.isAddress, wallets);
    CheckAllOfValidSucceeds(entries, env, valid, nowMs);
  }

  // ---------------------------------------------------------------------------------------
  // The service object; it shares the analysis service's cache.

  class ReputationService {
    const analysis: WalletAnalysisService

    constructor (analysis: WalletAnalysisService)
      ensures this.analysis == analysis
    {
      this.analysis := analysis;
    }

    /** `getReputationScore`. */
    method GetReputationScore(wallet: string, nowMs: int) returns (r: Result<ReputationScore, string>)
      modifies analysis.cache
      ensures (r, analysis.cache.entries) == FullScoreSpec(old(analysis.cache.entries), analysis.env, wallet, nowMs)
    {
      if !analysis.env.isAddress(wallet) {
        return Failure(InvalidAddress);
      }
      var cacheKey := ScoreKey(wallet);
      var cached := analysis.cache.Get(cacheKey, nowMs);
      if cached.Some? && cached.value.ScoreValue? {
        return Success(cached.value.score);
      }
      var result := analysis.AnalyzeWallet(wallet, nowMs);
      match result
      case Failure(msg) =>
        r := Failure(FullFailedPrefix + msg);
      case Success(a) =>
        var score := CalculateScore(a);
        analysis.cache.Set(cacheKey, ScoreValue(score), FiveMinutesMs, nowMs);
        r := Success(score);
    }

    /** `getQuickReputation`. */
    method GetQuickReputation(wallet: string, nowMs: int) returns (r: Result<QuickReputation, string>)
      modifies analysis.cache
      ensures (r, analysis.cache.entries) == QuickReputationSpec(old(analysis.cache.entries), analysis.env, wallet, nowMs)
    {
      if !analysis.env.isAddress(wallet) {
        return Failure(InvalidAddress);
      }
      var stats := analysis.GetQuickStats(wallet, nowMs);
      if stats.Failure? {
        match stats
        case Failure(msg) => return Failure(QuickFailedPrefix + msg);
      }
      var s := stats.value;
      var walletAgeScore := QuickAgeScore(s.walletAge);
      var txScore := QuickTransactionScore(s.totalTransactions);
      var multichainBonus := QuickMultichainBonus(s.activeNetworks);
      var totalScore := walletAgeScore + txScore + multichainBonus;
      r := Success(QuickReputation(wallet, totalScore, totalScore >= 100, s.walletAge, s.totalTransactions, s.activeNetworks));
    }

    /** One window: `Promise.all(batch.map(...))`, each failure caught into its own slot. */
    method CheckWindow(batch: seq<string>, nowMs: int) returns (items: seq<BatchItem>)
      modifies analysis.cache
      ensures (items, analysis.cache.entries) == CheckAll(old(analysis.cache.entries), analysis.env, batch, nowMs)
    {
      items := [];
      var j := 0;
      while j < |batch|
        invariant 0 <= j <= |batch|
        invariant (items, analysis.cache.entries) == CheckAll(old(analysis.cache.entries), analysis.env, batch[..j], nowMs)
      {
        var res := GetQuickReputation(batch[j], nowMs);
        var item := if res.Success? then Checked(res.value) else Failed(batch[j], res.error);
        assert batch[..j + 1][..j] == batch[..j];
        items := items + [item];
        j := j + 1;
      }
      assert batch[..|batch|] == batch;
    }

    /** `batchCheckReputation`: consecutive windows of at most `BatchSize` wallets. */
    method BatchCheckReputation(wallets: seq<string>, nowMs: int) returns (r: Result<seq<BatchItem>, string>)
      modifies analysis.cache
      ensures (r, analysis.cache.entries) == BatchSpec(old(analysis.cache.entries), analysis.env, wallets, nowMs)
    {
      var valid := ValidAddresses(analysis.env.isAddress, wallets);
      if |valid| == 0 {
        return Failure(NoValidAddresses);
      }
      var results: seq<BatchItem> := [];
      var i := 0;
      ghost var start := analysis.cache.entries;
      while i < |valid|
        invariant 0 <= i
        invariant (results, analysis.cache.entries) == CheckAll(start, analysis.env, valid[..Min(i, |valid|)], nowMs)
        decreases |valid| - i
      {
        var end := Min(i + BatchSize, |valid|);
        var batch := valid[i..end];
        var batchResults := CheckWindow(batch, nowMs);
        WindowStep(start, analysis.env, valid, i, end, nowMs);
        results := results + batchResults;
        i := i + BatchSize;
      }
      assert valid[..Min(i, |valid|)] == valid;
      r := Success(results);
    }
  }

  /** Appending one window to the wallets already checked. */
  lemma WindowStep(entries: Entries, env: Env, valid: seq<string>, i: nat, end: nat, nowMs: int)
    requires i <= end <= |valid|
    ensures var (ia, ea) := CheckAll(entries, env, valid[..i], nowMs);
            var (ib, eb) := CheckAll(ea, env, valid[i..end], nowMs);
            CheckAll(entries, env, valid[..end], nowMs) == (ia + ib, eb)
  {
    CheckAllAppend(entries, env, valid[..i], valid[i..end], nowMs);
    assert valid[..i] + valid[i..end] == valid[..end];
  }

  function Min(a: int, b: int): int
  {
    if a <= b then a else b
  }
}
