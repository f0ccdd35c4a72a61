/**
 * The scoring engine: three banded lookups, their sum, the eligibility threshold and the
 * tier label. Pure integer arithmetic; every boundary is the code's, as written.
 */
module Scoring {
  import opened Activity

  const EligibleThreshold: int := 100
  const MaxWalletAgeScore: int := 60
  const MaxTransactionScore: int := 110
  const MaxMultichainBonus: int := 50
  const MaxTotalScore: int := 220

  datatype Tier = Suspicious | Beginner | Intermediate | Advanced | Expert {
    /** The label the source returns. */
    function Label(): string
    {
      match this
      case Suspicious => "Suspicious"
      case Beginner => "Beginner"
      case Intermediate => "Intermediate"
      case Advanced => "Advanced"
      case Expert => "Expert"
    }
  }

  datatype ScoreBreakdown = ScoreBreakdown(
    walletAgeScore: int,
    transactionScore: int,
    multichainBonus: int,
    totalScore: int,
    maxScore: int)

  datatype ReputationScore = ReputationScore(
    walletAddress: string,
    score: int,
    breakdown: ScoreBreakdown,
    eligible: bool,
    tier: Tier,
    analysis: WalletAnalysis)

  /** The wallet-age points: 15 for a new wallet, rising with age to the maximum of 60. */
  function WalletAgeScore(walletAgeDays: int): (r: int)
    ensures 15 <= r <= MaxWalletAgeScore
    ensures walletAgeDays < 7 <==> r == 15
    ensures walletAgeDays >= 365 <==> r == MaxWalletAgeScore
  {
    if walletAgeDays < 7 then 15
    else if walletAgeDays < 31 then 20
    else if walletAgeDays < 91 then 35
    else if walletAgeDays < 181 then 45
    else if walletAgeDays < 365 then 55
    else 60
  }

  /** The activity points: 15 below five transactions, rising to the maximum of 110. */
  function TransactionScore(totalTransactions: int): (r: int)
    ensures 15 <= r <= MaxTransactionScore
    ensures totalTransactions < 5 <==> r == 15
    ensures totalTransactions >= 501 <==> r == MaxTransactionScore
  {
    if totalTransactions < 5 then 15
    else if totalTransactions < 21 then 55
    else if totalTransactions < 51 then 65
    else if totalTransactions < 101 then 80
    else if totalTransactions < 501 then 95
    else 110
  }

  /** The multichain points: 10 for at most one active network, 50 from five on. */
  function MultichainBonus(activeNetworks: int): (r: int)
    ensures 10 <= r <= MaxMultichainBonus
    ensures activeNetworks < 2 <==> r == 10
    ensures activeNetworks >= 5 <==> r == MaxMultichainBonus
  {
    if activeNetworks < 2 then 10
    else if activeNetworks == 2 then 30
    else if activeNetworks == 3 then 35
    else if activeNetworks == 4 then 40
    else 50
  }

  /** The tier label; the two upper tiers are exactly the eligible scores. */
  function DetermineTier(score: int): (r: Tier)
    ensures r == Advanced || r == Expert <==> score >= EligibleThreshold
    ensures r == Suspicious <==> score < 50
  {
    if score < 50 then Suspicious
    else if score < 70 then Beginner
    else if score < 100 then Intermediate
    else if score < 110 then Advanced
    else Expert
  }

  function CalculateScore(analysis: WalletAnalysis): (r: ReputationScore)
    ensures r.score == r.breakdown.totalScore
      == r.breakdown.walletAgeScore + r.breakdown.transactionScore + r.breakdown.multichainBonus
    ensures r.breakdown.walletAgeScore == WalletAgeScore(analysis.walletAge)
    ensures r.breakdown.transactionScore == TransactionScore(analysis.totalTransactions)
    ensures r.breakdown.multichainBonus == MultichainBonus(analysis.activeNetworks)
    ensures r.tier == DetermineTier(r.score)
    ensures r.breakdown.maxScore == MaxTotalScore
    ensures 40 <= r.score <= MaxTotalScore
    ensures r.eligible <==> r.score >= EligibleThreshold
    ensures r.eligible <==> r.tier == Advanced || r.tier == Expert
    ensures r.walletAddress == analysis.walletAddress && r.analysis == analysis
  {
    var age := WalletAgeScore(analysis.walletAge);
    var tx := TransactionScore(analysis.totalTransactions);
    var bonus := MultichainBonus(analysis.activeNetworks);
    var total := age + tx + bonus;
    ReputationScore(analysis.walletAddress, total,
                    ScoreBreakdown(age, tx, bonus, total, MaxTotalScore),
                    total >= EligibleThreshold, DetermineTier(total), analysis)
  }

  // ---------------------------------------------------------------------------------------
  // An independent reference: the bands written as a table of lower-inclusive bounds.

  /** From `from` on (until the next band starts) the score is `score`. */
  datatype Band = Band(from: int, score: int)

  /** The score of the last band whose lower bound `x` reaches, or `below` if none. */
  function BandScore(bands: seq<Band>, below: int, x: int): int
  {
    if bands == [] then below
    else if bands[|bands| - 1].from <= x then bands[|bands| - 1].score
    else BandScore(bands[..|bands| - 1], below, x)
  }

  const AgeBands: seq<Band> := [Band(7, 20), Band(31, 35), Band(91, 45), Band(181, 55), Band(365, 60)]
  const TransactionBands: seq<Band> := [Band(5, 55), Band(21, 65), Band(51, 80), Band(101, 95), Band(501, 110)]
  const NetworkBands: seq<Band> := [Band(2, 30), Band(3, 35), Band(4, 40), Band(5, 50)]

  /** Bounds and scores both strictly increase along the table and all exceed `below`. */
  ghost predicate Increasing(bands: seq<Band>, below: int)
  {
    (forall i, j :: 0 <= i < j < |bands| ==> bands[i].from < bands[j].from && bands[i].score < bands[j].score)
    && (forall i :: 0 <= i < |bands| ==> below < bands[i].score)
  }

  /** A banded lookup over an increasing table is monotone and lies in [below, top score]. */
  lemma {:induction false} BandScoreMonotone(bands: seq<Band>, below: int, x: int, y: int)
    requires Increasing(bands, below)
    requires x <= y
    ensures BandScore(bands, below, x) <= BandScore(bands, below, y)
    ensures below <= BandScore(bands, below, x)
    ensures bands != [] ==> BandScore(bands, below, y) <= bands[|bands| - 1].score
  {
    if bands != [] {
      var init := bands[..|bands| - 1];
      assert Increasing(init, below);
      BandScoreMonotone(init, below, x, y);
      if init != [] {
        assert init[|init| - 1] == bands[|bands| - 2];
      }
    }
  }

  /** Unfolding a table at its last band. */
  lemma BandScoreLast(full: seq<Band>, bands: seq<Band>, b: Band, below: int, x: int)
    requires full == bands + [b]
    ensures BandScore(full, below, x) == if b.from <= x then b.score else BandScore(bands, below, x)
  {
    assert full[..|bands|] == bands;
  }

  /** The age lookup is the table of age bands. */
  lemma AgeScoreIsBanded(days: int)
    ensures WalletAgeScore(days) == BandScore(AgeBands, 15, days)
  {
    BandScoreLast([Band(7, 20)], [], Band(7, 20), 15, days);
    BandScoreLast([Band(7, 20), Band(31, 35)], [Band(7, 20)], Band(31, 35), 15, days);
    BandScoreLast([Band(7, 20), Band(31, 35), Band(91, 45)], [Band(7, 20), Band(31, 35)], Band(91, 45), 15, days);
    BandScoreLast([Band(7, 20), Band(31, 35), Band(91, 45), Band(181, 55)], [Band(7, 20), Band(31, 35), Band(91, 45)], Band(181, 55), 15, days);
    BandScoreLast([Band(7, 20), Band(31, 35), Band(91, 45), Band(181, 55), Band(365, 60)], [Band(7, 20), Band(31, 35), Band(91, 45), Band(181, 55)], Band(365, 60), 15, days);
  }

  /** The transaction lookup is the table of transaction bands. */
  lemma TransactionScoreIsBanded(count: int)
    ensures TransactionScore(count) == BandScore(TransactionBands, 15, count)
  {
    BandScoreLast([Band(5, 55)], [], Band(5, 55), 15, count);
    BandScoreLast([Band(5, 55), Band(21, 65)], [Band(5, 55)], Band(21, 65), 15, count);
    BandScoreLast([Band(5, 55), Band(21, 65), Band(51, 80)], [Band(5, 55), Band(21, 65)], Band(51, 80), 15, count);
    BandScoreLast([Band(5, 55), Band(21, 65), Band(51, 80), Band(101, 95)], [Band(5, 55), Band(21, 65), Band(51, 80)], Band(101, 95), 15, count);
    BandScoreLast([Band(5, 55), Band(21, 65), Band(51, 80), Band(101, 95), Band(501, 110)], [Band(5, 55), Band(21, 65), Band(51, 80), Band(101, 95)], Band(501, 110), 15, count);
  }

  /** On whole numbers the equality tests of the bonus are the table of network bands. */
  lemma MultichainBonusIsBanded(networks: int)
    ensures MultichainBonus(networks) == BandScore(NetworkBands, 10, networks)
  {
    BandScoreLast([Band(2, 30)], [], Band(2, 30), 10, networks);
    BandScoreLast([Band(2, 30), Band(3, 35)], [Band(2, 30)], Band(3, 35), 10, networks);
    BandScoreLast([Band(2, 30), Band(3, 35), Band(4, 40)], [Band(2, 30), Band(3, 35)], Band(4, 40), 10, networks);
    BandScoreLast([Band(2, 30), Band(3, 35), Band(4, 40), Band(5, 50)], [Band(2, 30), Band(3, 35), Band(4, 40)], Band(5, 50), 10, networks);
  }

  /**
   * Each sub-score is monotone non-decreasing in its input and bounded by its declared
   * maximum; so a larger activity never lowers the total.
   */
  lemma SubScoresMonotone(x: int, y: int)
    requires x <= y
    ensures 15 <= WalletAgeScore(x) <= WalletAgeScore(y) <= MaxWalletAgeScore
    ensures 15 <= TransactionScore(x) <= TransactionScore(y) <= MaxTransactionScore
    ensures 10 <= MultichainBonus(x) <= MultichainBonus(y) <= MaxMultichainBonus
  {
  }

  /** Tier labels partition the score range at 50, 70, 100 and 110, in increasing order. */
  lemma TierBoundaries(score: int)
    ensures DetermineTier(score) == Suspicious <==> score < 50
    ensures DetermineTier(score) == Beginner <==> 50 <= score < 70
    ensures DetermineTier(score) == Intermediate <==> 70 <= score < 100
    ensures DetermineTier(score) == Advanced <==> 100 <= score < 110
    ensures DetermineTier(score) == Expert <==> 110 <= score
  {
  }

  /** Exact boundary behaviour of the three lookups, as the code has it. */
  lemma Boundaries()
    ensures WalletAgeScore(6) == 15 && WalletAgeScore(7) == 20 && WalletAgeScore(30) == 20
    ensures WalletAgeScore(31) == 35 && WalletAgeScore(90) == 35 && WalletAgeScore(91) == 45
    ensures WalletAgeScore(180) == 45 && WalletAgeScore(181) == 55 && WalletAgeScore(364) == 55
    ensures WalletAgeScore(365) == 60
    ensures TransactionScore(4) == 15 && TransactionScore(5) == 55 && TransactionScore(20) == 55
    ensures TransactionScore(21) == 65 && TransactionScore(50) == 65 && TransactionScore(51) == 80
    ensures TransactionScore(100) == 80 && TransactionScore(101) == 95 && TransactionScore(500) == 95
    ensures TransactionScore(501) == 110
    ensures MultichainBonus(0) == 10 && MultichainBonus(1) == 10 && MultichainBonus(2) == 30
    ensures MultichainBonus(3) == 35 && MultichainBonus(4) == 40 && MultichainBonus(5) == 50
    ensures DetermineTier(99) == Intermediate && DetermineTier(100) == Advanced
    ensures DetermineTier(109) == Advanced && DetermineTier(110) == Expert
  {
  }

  /** A wallet that is more active on every axis never scores lower. */
  lemma ScoreMonotone(a: WalletAnalysis, b: WalletAnalysis)
    requires a.walletAge <= b.walletAge && a.totalTransactions <= b.totalTransactions
    requires a.activeNetworks <= b.activeNetworks
    ensures CalculateScore(a).score <= CalculateScore(b).score
    ensures CalculateScore(a).eligible ==> CalculateScore(b).eligible
  {
    SubScoresMonotone(a.walletAge, b.walletAge);
    SubScoresMonotone(a.totalTransactions, b.totalTransactions);
    SubScoresMonotone(a.activeNetworks, b.activeNetworks);
  }
}
