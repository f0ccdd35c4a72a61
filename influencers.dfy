/**
 * Influencer profiles: the guarded creation of a profile, the lookup by wallet,
 * the sorted listing and the review counters.
 */
module Influencers {
  import opened Wrappers
  import opened Text
  import opened Upstream
  import opened Storage
  import Cache
  import Reputation
  import Scoring

  datatype CreateInfluencerDto = CreateInfluencerDto(
    walletAddress: string,
    name: string,
    bio: string,
    socialLinks: Option<SocialLinks>,
    profileImage: Option<string>)

  /** The errors `createInfluencer` throws, one per guard. */
  datatype InfluencerError =
    | InvalidWalletAddress
    | AlreadyHasProfile
    | ReputationUnavailable(message: string)
    | NotEligible(score: int)
    | NameTooShort
    | BioTooShort

  const MinNameLength := 2
  const MinBioLength := 10

  datatype SortBy = Recent | Popular

  datatype Sentiment = Bullish | Bearish

  /** The profile built from an accepted request. */
  function NewInfluencer(id: string, dto: CreateInfluencerDto, nowMs: int): Influencer
  {
    Influencer(id, ToLower(dto.walletAddress), Trim(dto.name), Trim(dto.bio),
      dto.socialLinks, dto.profileImage, nowMs, 0, 0, 0)
  }

  /** An accepted profile is normalised: it would pass its own content checks again unchanged. */
  lemma NewInfluencerNormalised(id: string, dto: CreateInfluencerDto, nowMs: int)
    requires |Trim(dto.name)| >= MinNameLength && |Trim(dto.bio)| >= MinBioLength
    ensures var x := NewInfluencer(id, dto, nowMs);
      && ToLower(x.walletAddress) == x.walletAddress
      && ToLower(x.walletAddress) == ToLower(dto.walletAddress)
      && Trim(x.name) == x.name && |x.name| >= MinNameLength
      && Trim(x.bio) == x.bio && |x.bio| >= MinBioLength
      && x.totalReviews == 0 && x.bullishCount == 0 && x.bearishCount == 0
      && x.createdAt == nowMs && x.id == id
  {
    ToLowerIdempotent(dto.walletAddress);
    TrimIdempotent(dto.name);
    TrimIdempotent(dto.bio);
  }

  /**
   * What `createInfluencer` answers, given whether the wallet already has a profile:
   * the reputation is fetched (and the cache updated) only once the first two guards pass.
   */
  function CreateInfluencerSpec(entries: Cache.Entries, env: Env, existing: Option<Influencer>,
    dto: CreateInfluencerDto, id: string, nowMs: int): (r: (Result<Influencer, InfluencerError>, Cache.Entries))
    ensures !env.isAddress(dto.walletAddress) ==> r == (Failure(InvalidWalletAddress), entries)
    ensures env.isAddress(dto.walletAddress) && existing.Some? ==> r == (Failure(AlreadyHasProfile), entries)
    ensures env.isAddress(dto.walletAddress) && existing.None? ==>
      r.1 == Reputation.QuickReputationSpec(entries, env, dto.walletAddress, nowMs).1
    ensures r.0.Success? <==>
      env.isAddress(dto.walletAddress) && existing.None?
      && Reputation.QuickReputationSpec(entries, env, dto.walletAddress, nowMs).0.value.eligible
      && |Trim(dto.name)| >= MinNameLength && |Trim(dto.bio)| >= MinBioLength
    ensures r.0.Success? ==> r.0.value == NewInfluencer(id, dto, nowMs)
    ensures r.0 == Failure(InvalidWalletAddress) <==> !env.isAddress(dto.walletAddress)
    ensures r.0 == Failure(AlreadyHasProfile) <==> env.isAddress(dto.walletAddress) && existing.Some?
    ensures var q := Reputation.QuickReputationSpec(entries, env, dto.walletAddress, nowMs).0;
      (r.0.Failure? && r.0.error.ReputationUnavailable?) <==>
        env.isAddress(dto.walletAddress) && existing.None? && q.Failure?
    ensures var q := Reputation.QuickReputationSpec(entries, env, dto.walletAddress, nowMs).0;
      (r.0.Failure? && r.0.error.NotEligible?) <==>
        env.isAddress(dto.walletAddress) && existing.None? && q.Success? && !q.value.eligible
    ensures var q := Reputation.QuickReputationSpec(entries, env, dto.walletAddress, nowMs).0;
      r.0 == Failure(NameTooShort) <==>
        env.isAddress(dto.walletAddress) && existing.None? && q.Success? && q.value.eligible
        && |Trim(dto.name)| < MinNameLength
    ensures var q := Reputation.QuickReputationSpec(entries, env, dto.walletAddress, nowMs).0;
      r.0 == Failure(BioTooShort) <==>
        env.isAddress(dto.walletAddress) && existing.None? && q.Success? && q.value.eligible
        && |Trim(dto.name)| >= MinNameLength && |Trim(dto.bio)| < MinBioLength
    ensures r.0 == Failure(NameTooShort) ==>
      Reputation.QuickReputationSpec(entries, env, dto.walletAddress, nowMs).0.value.eligible
    ensures r.0 == Failure(BioTooShort) ==>
      Reputation.QuickReputationSpec(entries, env, dto.walletAddress, nowMs).0.value.eligible
      && |Trim(dto.name)| >= MinNameLength
    ensures r.0.Failure? && r.0.error.NotEligible? ==>
      r.0.error.score == Reputation.QuickReputationSpec(entries, env, dto.walletAddress, nowMs).0.value.score
      && r.0.error.score < Scoring.EligibleThreshold
  {
    if !env.isAddress(dto.walletAddress) then (Failure(InvalidWalletAddress), entries)
    else if existing.Some? then (Failure(AlreadyHasProfile), entries)
    else
      var (reputation, e) := Reputation.QuickReputationSpec(entries, env, dto.walletAddress, nowMs);
      match reputation
      case Failure(msg) => (Failure(ReputationUnavailable(msg)), e)
      case Success(rep) =>
        if !rep.eligible then (Failure(NotEligible(rep.score)), e)
        else if |Trim(dto.name)| < MinNameLength then (Failure(NameTooShort), e)
        else if |Trim(dto.bio)| < MinBioLength then (Failure(BioTooShort), e)
        else (Success(NewInfluencer(id, dto, nowMs)), e)
  }

  function SortKey(x: Influencer, key: SortBy): int
  {
    match key
    case Recent => x.createdAt
    case Popular => x.totalReviews
  }

  /** `b.key - a.key` as comparator: the key never increases along the listing. */
  predicate SortedDescending(s: seq<Influencer>, key: SortBy)
  {
    forall i, j :: 0 <= i < j < |s| ==> SortKey(s[i], key) >= SortKey(s[j], key)
  }

  /** The first `n` elements are in descending key order. */
  predicate SortedPrefix(s: seq<Influencer>, n: nat, key: SortBy)
    requires n <= |s|
  {
    forall p, q :: 0 <= p < q < n ==> SortKey(s[p], key) >= SortKey(s[q], key)
  }

  /** The fields `updateInfluencerStats` writes (the float `sentimentScore` is not modelled). */
  function StatsPatch(x: Influencer, sentiment: Sentiment): InfluencerPatch
  {
    var totalReviews := x.totalReviews + 1;
    var bullishCount := if sentiment == Bullish then x.bullishCount + 1 else x.bullishCount;
    var bearishCount := if sentiment == Bearish then x.bearishCount + 1 else x.bearishCount;
    NoChanges.(totalReviews := Some(totalReviews), bullishCount := Some(bullishCount),
      bearishCount := Some(bearishCount))
  }

  /** One review counted: the total and exactly the matching sentiment counter go up by one. */
  lemma StatsPatchCounts(x: Influencer, sentiment: Sentiment)
    ensures var y := ApplyPatch(x, StatsPatch(x, sentiment));
      && y.totalReviews == x.totalReviews + 1
      && y.bullishCount + y.bearishCount == x.bullishCount + x.bearishCount + 1
      && (sentiment == Bullish <==> y.bullishCount == x.bullishCount + 1)
      && (sentiment == Bearish <==> y.bearishCount == x.bearishCount + 1)
      && y.(totalReviews := x.totalReviews, bullishCount := x.bullishCount, bearishCount := x.bearishCount) == x
  {
  }

  class InfluencerService {
    const storage: StorageService
    const reputation: Reputation.ReputationService

    constructor (storage: StorageService, reputation: Reputation.ReputationService)
      ensures this.storage == storage && this.reputation == reputation
    {
      this.storage := storage;
      this.reputation := reputation;
    }

    /** `id` stands for the fresh `uuidv4()` and `nowMs` for `Date.now()`. */
    method CreateInfluencer(dto: CreateInfluencerDto, id: string, nowMs: int)
      returns (r: Result<Influencer, InfluencerError>)
      requires storage.Valid()
      requires id !in storage.influencers
      modifies storage, reputation.analysis.cache
      ensures storage.Valid()
      ensures (r, reputation.analysis.cache.entries) == CreateInfluencerSpec(
        old(reputation.analysis.cache.entries), reputation.analysis.env,
        FindByWallet(old(storage.influencerOrder), old(storage.influencers), dto.walletAddress),
        dto, id, nowMs)
      ensures r.Failure? ==>
        storage.influencers == old(storage.influencers) && storage.influencerOrder == old(storage.influencerOrder)
      ensures r.Success? ==>
        storage.influencers == old(storage.influencers)[id := r.value]
        && storage.influencerOrder == old(storage.influencerOrder) + [id]
      ensures r.Success? ==> forall w :: ToLower(w) == ToLower(dto.walletAddress) ==>
        FindByWallet(storage.influencerOrder, storage.influencers, w).Some?
      ensures storage.reviews == old(storage.reviews) && storage.reviewOrder == old(storage.reviewOrder)
      ensures storage.reviewsByInfluencer == old(storage.reviewsByInfluencer)
      ensures storage.reviewsByReviewer == old(storage.reviewsByReviewer)
    {
      var env := reputation.analysis.env;
      if !env.isAddress(dto.walletAddress) {
        return Failure(InvalidWalletAddress);
      }
      var existing := storage.GetInfluencerByWallet(dto.walletAddress);
      if existing.Some? {
        return Failure(AlreadyHasProfile);
      }
      var quick := reputation.GetQuickReputation(dto.walletAddress, nowMs);
      if quick.Failure? {
        match quick
        case Failure(msg) => return Failure(ReputationUnavailable(msg));
      }
      var rep := quick.value;
      if !rep.eligible {
        return Failure(NotEligible(rep.score));
      }
      if |Trim(dto.name)| < MinNameLength {
        return Failure(NameTooShort);
      }
      if |Trim(dto.bio)| < MinBioLength {
        return Failure(BioTooShort);
      }
      var influencer := NewInfluencer(id, dto, nowMs);
      var saved := storage.CreateInfluencer(influencer);
      r := Success(saved);
    }

    method GetInfluencerByWallet(walletAddress: string) returns (r: Option<Influencer>)
      requires storage.Valid()
      ensures !reputation.analysis.env.isAddress(walletAddress) ==> r == None
      ensures reputation.analysis.env.isAddress(walletAddress) ==>
        r == FindByWallet(storage.influencerOrder, storage.influencers, walletAddress)
    {
      if !reputation.analysis.env.isAddress(walletAddress) {
        return None;
      }
      r := storage.GetInfluencerByWallet(walletAddress);
    }

    /** The stored profiles, sorted newest or most reviewed first when asked. */
    method GetAllInfluencers(sortBy: Option<SortBy>) returns (r: seq<Influencer>)
      requires storage.Valid()
      ensures multiset(r) == multiset(storage.GetAllInfluencers())
      ensures sortBy.None? ==> r == storage.GetAllInfluencers()
      ensures sortBy.Some? ==> SortedDescending(r, sortBy.value)
    {
      var influencers := storage.GetAllInfluencers();
      if sortBy.None? {
        return influencers;
      }
      var a := new Influencer[|influencers|](k requires 0 <= k < |influencers| => influencers[k]);
      assert a[..] == influencers;
      SortDescending(a, sortBy.value);
      r := a[..];
    }

    /** `Array.prototype.sort` with comparator `(a, b) => key(b) - key(a)`, as an insertion sort. */
    static method SortDescending(a: array<Influencer>, key: SortBy)
      modifies a
      ensures SortedDescending(a[..], key)
      ensures multiset(a[..]) == multiset(old(a[..]))
    {
      var i := 0;
      while i < a.Length
        invariant 0 <= i <= a.Length
        invariant SortedPrefix(a[..], i, key)
        invariant multiset(a[..]) == multiset(old(a[..]))
      {
        InsertLast(a, i, key);
        i := i + 1;
      }
      assert a[..] == a[..a.Length];
    }

    /** Moves `a[i]` left past every element with a smaller key, so that `a[..i+1]` is sorted. */
    static method InsertLast(a: array<Influencer>, i: nat, key: SortBy)
      requires i < a.Length && SortedPrefix(a[..], i, key)
      modifies a
      ensures SortedPrefix(a[..], i + 1, key)
      ensures multiset(a[..]) == multiset(old(a[..]))
    {
      var j := i;
      while j > 0 && SortKey(a[j - 1], key) < SortKey(a[j], key)
        invariant 0 <= j <= i
        invariant multiset(a[..]) == multiset(old(a[..]))
        invariant forall p, q :: 0 <= p < q <= i && p != j && q != j ==> SortKey(a[p], key) >= SortKey(a[q], key)
        invariant forall q :: j < q <= i ==> SortKey(a[j], key) > SortKey(a[q], key)
        invariant 0 < j < i ==> SortKey(a[j - 1], key) >= SortKey(a[j + 1], key)
      {
        Swap(a, j - 1, j);
        j := j - 1;
      }
    }

    static method Swap(a: array<Influencer>, i: nat, j: nat)
      requires i < a.Length && j < a.Length
      modifies a
      ensures a[..] == old(a[..])[i := old(a[j])][j := old(a[i])]
      ensures multiset(a[..]) == multiset(old(a[..]))
    {
      a[i], a[j] := a[j], a[i];
    }

    method UpdateInfluencerStats(influencerId: string, sentiment: Sentiment) returns (r: Option<Influencer>)
      requires storage.Valid()
      modifies storage
      ensures storage.Valid()
      ensures influencerId !in old(storage.influencers) ==>
        r == None && storage.influencers == old(storage.influencers)
      ensures influencerId in old(storage.influencers) ==>
        var before := old(storage.influencers)[influencerId];
        && r == Some(ApplyPatch(before, StatsPatch(before, sentiment)))
        && storage.influencers == old(storage.influencers)[influencerId := r.value]
        && r.value.totalReviews == before.totalReviews + 1
        && r.value.bullishCount == before.bullishCount + (if sentiment == Bullish then 1 else 0)
        && r.value.bearishCount == before.bearishCount + (if sentiment == Bearish then 1 else 0)
      ensures storage.influencerOrder == old(storage.influencerOrder)
      ensures storage.reviews == old(storage.reviews) && storage.reviewOrder == old(storage.reviewOrder)
      ensures storage.reviewsByInfluencer == old(storage.reviewsByInfluencer)
      ensures storage.reviewsByReviewer == old(storage.reviewsByReviewer)
    {
      var influencer := storage.GetInfluencerById(influencerId);
      if influencer.None? {
        return None;
      }
      var patch := StatsPatch(influencer.value, sentiment);
      StatsPatchCounts(influencer.value, sentiment);
      r := storage.UpdateInfluencer(influencerId, patch);
    }
  }
}
