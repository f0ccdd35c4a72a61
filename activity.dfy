/**
 * The records of the wallet analysis (`NetworkActivity`, `WalletAnalysis`, the quick
 * statistics) and the pure reductions that turn per-network activity into one aggregate view.
 */
module Activity {
  import opened Wrappers

  /** Per (wallet, network) result; `error` is set only on a degraded result. */
  datatype NetworkActivity = NetworkActivity(
    network: string,
    chainId: nat,
    transactionCount: nat,
    firstTransaction: Option<nat>,
    lastTransaction: Option<nat>,
    error: Option<string>)

  /** Per-wallet aggregate over one ordered list of network activities. */
  datatype WalletAnalysis = WalletAnalysis(
    walletAddress: string,
    walletAge: int,
    firstTransactionTimestamp: Option<nat>,
    totalTransactions: nat,
    activeNetworks: nat,
    networkActivities: seq<NetworkActivity>,
    analyzedAt: int)

  /** What `getQuickStats` returns. */
  datatype QuickStats = QuickStats(
    walletAddress: string,
    walletAge: int,
    totalTransactions: nat,
    activeNetworks: nat)

  const MillisPerSecond: nat := 1000
  const SecondsPerDay: nat := 24 * 60 * 60

  /** The `reduce` that sums the per-network transaction counts. */
  function TotalTransactions(acts: seq<NetworkActivity>): (r: nat)
    ensures forall i :: 0 <= i < |acts| ==> acts[i].transactionCount <= r
  {
    if acts == [] then 0 else acts[0].transactionCount + TotalTransactions(acts[1..])
  }

  predicate IsActive(a: NetworkActivity) { a.transactionCount > 0 }

  /** `activities.filter(a => a.transactionCount > 0).length`. */
  function ActiveNetworks(acts: seq<NetworkActivity>): (r: nat)
    ensures r <= |acts|
    ensures r == |acts| <==> forall i :: 0 <= i < |acts| ==> IsActive(acts[i])
  {
    if acts == [] then 0 else (if IsActive(acts[0]) then 1 else 0) + ActiveNetworks(acts[1..])
  }

  /** The sum is zero exactly when no network is active. */
  lemma {:induction false} NoActivityIffZeroTotal(acts: seq<NetworkActivity>)
    ensures TotalTransactions(acts) == 0 <==> ActiveNetworks(acts) == 0
  {
    if acts != [] {
      NoActivityIffZeroTotal(acts[1..]);
    }
  }

  /** `filter(a => a.firstTransaction !== null).map(a => a.firstTransaction!)`. */
  function PresentFirsts(acts: seq<NetworkActivity>): (r: seq<nat>)
    ensures |r| <= |acts|
    ensures forall t :: t in r <==> exists i :: 0 <= i < |acts| && acts[i].firstTransaction == Some(t)
  {
    if acts == [] then []
    else
      var rest := PresentFirsts(acts[1..]);
      assert forall i :: 1 <= i < |acts| ==> acts[i] == acts[1..][i - 1];
      if acts[0].firstTransaction.Some? then [acts[0].firstTransaction.value] + rest else rest
  }

  /** Element 0 of a numerically ascending sort: the minimum. */
  function MinOf(s: seq<nat>): (m: nat)
    requires s != []
    ensures m in s
    ensures forall x :: x in s ==> m <= x
  {
    if |s| == 1 then s[0]
    else
      var m := MinOf(s[1..]);
      assert forall x :: x in s ==> x == s[0] || x in s[1..];
      if s[0] <= m then s[0] else m
  }

  /**
   * `...sort((a, b) => a - b)[0] || null`: the smallest present first timestamp, except that an
   * empty list and a smallest timestamp of 0 both give null.
   */
  function EarliestTimestamp(acts: seq<NetworkActivity>): (r: Option<nat>)
    ensures r.Some? ==> 0 < r.value
    ensures r.Some? ==> exists i :: 0 <= i < |acts| && acts[i].firstTransaction == r
    ensures r.Some? ==> forall i :: 0 <= i < |acts| && acts[i].firstTransaction.Some? ==>
      r.value <= acts[i].firstTransaction.value
    ensures r.None? <==> (forall i :: 0 <= i < |acts| ==> acts[i].firstTransaction.None?)
                         || (exists i :: 0 <= i < |acts| && acts[i].firstTransaction == Some(0))
  {
    var firsts := PresentFirsts(acts);
    if firsts == [] then None
    else
      var m := MinOf(firsts);
      if m == 0 then None else Some(m)
  }

  /** `Math.floor((Date.now() / 1000 - first) / 86400)`, or 0 without a first timestamp. */
  function WalletAgeDays(nowMs: int, first: Option<nat>): int
  {
    match first
    case None => 0
    case Some(t) => (nowMs - MillisPerSecond * t) / (MillisPerSecond * SecondsPerDay)
  }

  /** Age is counted in whole elapsed days: a partial day does not count. */
  lemma WholeDays(t: nat, days: int, rest: int)
    requires 0 <= rest < MillisPerSecond * SecondsPerDay
    ensures WalletAgeDays(MillisPerSecond * t + days * MillisPerSecond * SecondsPerDay + rest, Some(t)) == days
  {
    var x := days * 86_400_000 + rest;
    assert MillisPerSecond * t + days * MillisPerSecond * SecondsPerDay + rest - MillisPerSecond * t == x;
    assert x / 86_400_000 == days;
  }

  /** A first transaction not in the future gives a non-negative age. */
  lemma AgeNonNegative(nowMs: int, t: nat)
    requires MillisPerSecond * t <= nowMs
    ensures WalletAgeDays(nowMs, Some(t)) >= 0
  {
  }

  /** The reduction of `analyzeWallet` (the analysis timestamp is the caller's clock). */
  function Analyze(wallet: string, acts: seq<NetworkActivity>, nowMs: int): WalletAnalysis
  {
    var first := EarliestTimestamp(acts);
    WalletAnalysis(wallet, WalletAgeDays(nowMs, first), first, TotalTransactions(acts),
                   ActiveNetworks(acts), acts, nowMs)
  }

  /** The reduction of `getQuickStats`: the same sums and age, without the activity list. */
  function Quick(wallet: string, acts: seq<NetworkActivity>, nowMs: int): QuickStats
  {
    QuickStats(wallet, WalletAgeDays(nowMs, EarliestTimestamp(acts)), TotalTransactions(acts),
               ActiveNetworks(acts))
  }

  /**
   * Failure containment: an activity with no transactions and no first timestamp (what a
   * failed network degrades to) changes none of the aggregate figures.
   */
  lemma {:induction false} InactiveContributesNothing(acts: seq<NetworkActivity>, i: nat)
    requires i < |acts|
    requires acts[i].transactionCount == 0 && acts[i].firstTransaction.None?
    ensures var rest := acts[..i] + acts[i + 1..];
            TotalTransactions(acts) == TotalTransactions(rest)
            && ActiveNetworks(acts) == ActiveNetworks(rest)
            && PresentFirsts(acts) == PresentFirsts(rest)
  {
    if i > 0 {
      InactiveContributesNothing(acts[1..], i - 1);
      assert acts[1..][..i - 1] + acts[1..][i..] == (acts[..i] + acts[i + 1..])[1..];
    } else {
      assert acts[..i] + acts[i + 1..] == acts[1..];
    }
  }
}
