/**
 * Reviews (comments) on influencer profiles: the guarded creation of a review
 * and the per-reviewer and per-influencer queries.
 */
module Reviews {
  import opened Wrappers
  import opened Text
  import opened Upstream
  import opened Storage
  import Cache
  import Reputation
  import Scoring

  /** The request; its sentiment is not read by the service and is not part of the model. */
  datatype CreateReviewDto = CreateReviewDto(
    influencerId: string,
    reviewerWalletAddress: string,
    comment: Option<string>)

  /** The errors `createReview` throws, one per guard. */
  datatype ReviewError =
    | InvalidReviewerAddress
    | InfluencerNotFound
    | ReputationUnavailable(message: string)
    | NotEligibleToComment(score: int)
    | AlreadyCommented
    | CommentTooShort

  const MinCommentLength := 10

  predicate CommentAccepted(comment: Option<string>)
  {
    comment.Some? && |Trim(comment.value)| >= MinCommentLength
  }

  /** The review built from an accepted request. */
  function NewReview(id: string, dto: CreateReviewDto, nowMs: int): Review
    requires dto.comment.Some?
  {
    Review(id, dto.influencerId, ToLower(dto.reviewerWalletAddress), Some(Trim(dto.comment.value)), nowMs)
  }

  /** An accepted review is normalised, and it is the reviewer's review of that influencer. */
  lemma NewReviewNormalised(id: string, dto: CreateReviewDto, nowMs: int)
    requires CommentAccepted(dto.comment)
    ensures var x := NewReview(id, dto, nowMs);
      && x.id == id && x.influencerId == dto.influencerId && x.createdAt == nowMs
      && ToLower(x.reviewerWalletAddress) == x.reviewerWalletAddress
      && ReviewOf(x, dto.reviewerWalletAddress, dto.influencerId)
      && x.comment.Some? && Trim(x.comment.value) == x.comment.value
      && |x.comment.value| >= MinCommentLength
  {
    var x := NewReview(id, dto, nowMs);
    assert x.reviewerWalletAddress == ToLower(dto.reviewerWalletAddress);
    ToLowerIdempotent(dto.reviewerWalletAddress);
    assert ReviewOf(x, dto.reviewerWalletAddress, dto.influencerId);
    assert x.comment.value == Trim(dto.comment.value);
    TrimIdempotent(dto.comment.value);
  }

  /**
   * What `createReview` answers, given the influencer stored under the requested id
   * and whether the reviewer has already reviewed it.
   */
  function CreateReviewSpec(entries: Cache.Entries, env: Env, influencer: Option<Influencer>,
    alreadyReviewed: bool, dto: CreateReviewDto, id: string, nowMs: int)
    : (r: (Result<Review, ReviewError>, Cache.Entries))
    ensures !env.isAddress(dto.reviewerWalletAddress) ==> r == (Failure(InvalidReviewerAddress), entries)
    ensures env.isAddress(dto.reviewerWalletAddress) && influencer.None? ==> r == (Failure(InfluencerNotFound), entries)
    ensures env.isAddress(dto.reviewerWalletAddress) && influencer.Some? ==>
      r.1 == Reputation.QuickReputationSpec(entries, env, dto.reviewerWalletAddress, nowMs).1
    ensures r.0.Success? <==>
      env.isAddress(dto.reviewerWalletAddress) && influencer.Some?
      && Reputation.QuickReputationSpec(entries, env, dto.reviewerWalletAddress, nowMs).0.value.eligible
      && !alreadyReviewed && CommentAccepted(dto.comment)
    ensures r.0.Success? ==> dto.comment.Some? && r.0.value == NewReview(id, dto, nowMs)
    ensures alreadyReviewed ==> r.0.Failure?
    ensures r.0 == Failure(InvalidReviewerAddress) <==> !env.isAddress(dto.reviewerWalletAddress)
    ensures r.0 == Failure(InfluencerNotFound) <==> env.isAddress(dto.reviewerWalletAddress) && influencer.None?
    ensures var q := Reputation.QuickReputationSpec(entries, env, dto.reviewerWalletAddress, nowMs).0;
      (r.0.Failure? && r.0.error.ReputationUnavailable?) <==>
        env.isAddress(dto.reviewerWalletAddress) && influencer.Some? && q.Failure?
    ensures var q := Reputation.QuickReputationSpec(entries, env, dto.reviewerWalletAddress, nowMs).0;
      (r.0.Failure? && r.0.error.NotEligibleToComment?) <==>
        env.isAddress(dto.reviewerWalletAddress) && influencer.Some? && q.Success? && !q.value.eligible
    ensures var q := Reputation.QuickReputationSpec(entries, env, dto.reviewerWalletAddress, nowMs).0;
      r.0 == Failure(AlreadyCommented) <==>
        env.isAddress(dto.reviewerWalletAddress) && influencer.Some? && q.Success? && q.value.eligible
        && alreadyReviewed
    ensures var q := Reputation.QuickReputationSpec(entries, env, dto.reviewerWalletAddress, nowMs).0;
      r.0 == Failure(CommentTooShort) <==>
        env.isAddress(dto.reviewerWalletAddress) && influencer.Some? && q.Success? && q.value.eligible
        && !alreadyReviewed && !CommentAccepted(dto.comment)
    ensures r.0 == Failure(AlreadyCommented) ==>
      Reputation.QuickReputationSpec(entries, env, dto.reviewerWalletAddress, nowMs).0.value.eligible
    ensures r.0 == Failure(CommentTooShort) ==>
      Reputation.QuickReputationSpec(entries, env, dto.reviewerWalletAddress, nowMs).0.value.eligible
      && !alreadyReviewed
    ensures r.0.Failure? && r.0.error.NotEligibleToComment? ==>
      r.0.error.score < Scoring.EligibleThreshold
  {
    if !env.isAddress(dto.reviewerWalletAddress) then (Failure(InvalidReviewerAddress), entries)
    else if influencer.None? then (Failure(InfluencerNotFound), entries)
    else
      var (reputation, e) := Reputation.QuickReputationSpec(entries, env, dto.reviewerWalletAddress, nowMs);
      match reputation
      case Failure(msg) => (Failure(ReputationUnavailable(msg)), e)
      case Success(rep) =>
        if !rep.eligible then (Failure(NotEligibleToComment(rep.score)), e)
        else if alreadyReviewed then (Failure(AlreadyCommented), e)
        else if !CommentAccepted(dto.comment) then (Failure(CommentTooShort), e)
        else (Success(NewReview(id, dto, nowMs)), e)
  }

  class ReviewService {
    const storage: StorageService
    const reputation: Reputation.ReputationService

    constructor (storage: StorageService, reputation: Reputation.ReputationService)
      ensures this.storage == storage && this.reputation == reputation
    {
      this.storage := storage;
      this.reputation := reputation;
    }

    /** `id` stands for the fresh `uuidv4()` and `nowMs` for `Date.now()`. */
    method CreateReview(dto: CreateReviewDto, id: string, nowMs: int) returns (r: Result<Review, ReviewError>)
      requires storage.Valid()
      requires id !in storage.reviews
      modifies storage, reputation.analysis.cache
      ensures storage.Valid()
      ensures (r, reputation.analysis.cache.entries) == CreateReviewSpec(
        old(reputation.analysis.cache.entries), reputation.analysis.env,
        old(storage.GetInfluencerById(dto.influencerId)),
        old(storage.HasReviewedInfluencer(dto.reviewerWalletAddress, dto.influencerId)),
        dto, id, nowMs)
      ensures r.Failure? ==>
        storage.reviews == old(storage.reviews) && storage.reviewOrder == old(storage.reviewOrder)
        && storage.reviewsByInfluencer == old(storage.reviewsByInfluencer)
        && storage.reviewsByReviewer == old(storage.reviewsByReviewer)
      ensures r.Success? ==>
        storage.reviews == old(storage.reviews)[id := r.value]
        && storage.reviewOrder == old(storage.reviewOrder) + [id]
        && storage.HasReviewedInfluencer(dto.reviewerWalletAddress, dto.influencerId)
      ensures storage.influencers == old(storage.influencers)
      ensures storage.influencerOrder == old(storage.influencerOrder)
    {
      var env := reputation.analysis.env;
      if !env.isAddress(dto.reviewerWalletAddress) {
        return Failure(InvalidReviewerAddress);
      }
      var influencer := storage.GetInfluencerById(dto.influencerId);
      if influencer.None? {
        return Failure(InfluencerNotFound);
      }
      var quick := reputation.GetQuickReputation(dto.reviewerWalletAddress, nowMs);
      if quick.Failure? {
        match quick
        case Failure(msg) => return Failure(ReputationUnavailable(msg));
      }
      var rep := quick.value;
      if !rep.eligible {
        return Failure(NotEligibleToComment(rep.score));
      }
      var hasReviewed := storage.HasReviewedInfluencer(dto.reviewerWalletAddress, dto.influencerId);
      if hasReviewed {
        return Failure(AlreadyCommented);
      }
      if dto.comment.None? || |Trim(dto.comment.value)| < MinCommentLength {
        return Failure(CommentTooShort);
      }
      var review := NewReview(id, dto, nowMs);
      var saved := storage.CreateReview(review);
      // The source then calls `incrementReviewCount`, which no service defines; it changes nothing here.
      storage.StoredReviewIsFound(review);
      ToLowerIdempotent(dto.reviewerWalletAddress);
      r := Success(saved);
    }

    method GetReviewsByReviewer(reviewerWallet: string) returns (r: seq<Review>)
      requires storage.Valid()
      ensures !reputation.analysis.env.isAddress(reviewerWallet) ==> r == []
      ensures reputation.analysis.env.isAddress(reviewerWallet) ==>
        r == storage.ReviewsByReviewer(reviewerWallet)
        && forall x :: x in r <==>
             x in storage.reviews.Values && ToLower(x.reviewerWalletAddress) == ToLower(reviewerWallet)
    {
      if !reputation.analysis.env.isAddress(reviewerWallet) {
        return [];
      }
      r := storage.ReviewsByReviewer(reviewerWallet);
      storage.ReviewsByReviewerExact(reviewerWallet);
    }

    /** `{ totalReviews: reviews.length }`: the number of stored reviews about the influencer. */
    method GetInfluencerReviewCount(influencerId: string) returns (totalReviews: nat)
      requires storage.Valid()
      ensures totalReviews == |StoredFor(storage.reviews, influencerId)|
    {
      var reviews := storage.ReviewsByInfluencer(influencerId);
      storage.ReviewCountIsStoredCount(influencerId);
      totalReviews := |reviews|;
    }

    method HasReviewed(reviewerWallet: string, influencerId: string) returns (b: bool)
      requires storage.Valid()
      ensures !reputation.analysis.env.isAddress(reviewerWallet) ==> !b
      ensures reputation.analysis.env.isAddress(reviewerWallet) ==>
        (b <==> HasStoredReview(storage.reviews, reviewerWallet, influencerId))
    {
      if !reputation.analysis.env.isAddress(reviewerWallet) {
        return false;
      }
      b := storage.HasReviewedInfluencer(reviewerWallet, influencerId);
      storage.HasReviewedExact(reviewerWallet, influencerId);
    }
  }
}
