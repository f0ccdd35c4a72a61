/**
 * The in-memory store: influencer profiles and reviews keyed by id, plus two
 * indexes from influencer id and from lowercased reviewer wallet to the ids
 * of their reviews, in the order the reviews were stored.
 */
module Storage {
  import opened Wrappers
  import opened Collections
  import opened Text

  datatype SocialLinks = SocialLinks(
    twitter: Option<string>,
    telegram: Option<string>,
    discord: Option<string>,
    website: Option<string>)

  /** A profile. The floating-point `sentimentScore` is not part of the model. */
  datatype Influencer = Influencer(
    id: string,
    walletAddress: string,
    name: string,
    bio: string,
    socialLinks: Option<SocialLinks>,
    profileImage: Option<string>,
    createdAt: int,
    totalReviews: int,
    bullishCount: int,
    bearishCount: int)

  /** A `Partial<Influencer>`: `None` is a field the update does not mention. */
  datatype InfluencerPatch = InfluencerPatch(
    id: Option<string>,
    walletAddress: Option<string>,
    name: Option<string>,
    bio: Option<string>,
    socialLinks: Option<Option<SocialLinks>>,
    profileImage: Option<Option<string>>,
    createdAt: Option<int>,
    totalReviews: Option<int>,
    bullishCount: Option<int>,
    bearishCount: Option<int>)

  const NoChanges := InfluencerPatch(None, None, None, None, None, None, None, None, None, None)

  datatype Review = Review(
    id: string,
    influencerId: string,
    reviewerWalletAddress: string,
    comment: Option<string>,
    createdAt: int)

  datatype StorageStats = StorageStats(influencers: nat, reviews: nat)

  function Override<T>(old_: T, given: Option<T>): T
  {
    if given.Some? then given.value else old_
  }

  /** `{ ...x, ...p }`: fields present in the patch win, the others are kept. */
  function ApplyPatch(x: Influencer, p: InfluencerPatch): (r: Influencer)
    ensures (p.id.Some? ==> r.id == p.id.value) && (p.id.None? ==> r.id == x.id)
    ensures (p.walletAddress.Some? ==> r.walletAddress == p.walletAddress.value) && (p.walletAddress.None? ==> r.walletAddress == x.walletAddress)
    ensures (p.name.Some? ==> r.name == p.name.value) && (p.name.None? ==> r.name == x.name)
    ensures (p.bio.Some? ==> r.bio == p.bio.value) && (p.bio.None? ==> r.bio == x.bio)
    ensures (p.socialLinks.Some? ==> r.socialLinks == p.socialLinks.value) && (p.socialLinks.None? ==> r.socialLinks == x.socialLinks)
    ensures (p.profileImage.Some? ==> r.profileImage == p.profileImage.value) && (p.profileImage.None? ==> r.profileImage == x.profileImage)
    ensures (p.createdAt.Some? ==> r.createdAt == p.createdAt.value) && (p.createdAt.None? ==> r.createdAt == x.createdAt)
    ensures (p.totalReviews.Some? ==> r.totalReviews == p.totalReviews.value) && (p.totalReviews.None? ==> r.totalReviews == x.totalReviews)
    ensures (p.bullishCount.Some? ==> r.bullishCount == p.bullishCount.value) && (p.bullishCount.None? ==> r.bullishCount == x.bullishCount)
    ensures (p.bearishCount.Some? ==> r.bearishCount == p.bearishCount.value) && (p.bearishCount.None? ==> r.bearishCount == x.bearishCount)
  {
    Influencer(
      Override(x.id, p.id),
      Override(x.walletAddress, p.walletAddress),
      Override(x.name, p.name),
      Override(x.bio, p.bio),
      Override(x.socialLinks, p.socialLinks),
      Override(x.profileImage, p.profileImage),
      Override(x.createdAt, p.createdAt),
      Override(x.totalReviews, p.totalReviews),
      Override(x.bullishCount, p.bullishCount),
      Override(x.bearishCount, p.bearishCount))
  }

  /** The patch viewed as a complete record when every field is present. */
  lemma PatchWithAllFieldsReplaces(x: Influencer, y: Influencer)
    ensures ApplyPatch(x, Full(y)) == y
  {
  }

  function Full(y: Influencer): InfluencerPatch
  {
    InfluencerPatch(Some(y.id), Some(y.walletAddress), Some(y.name), Some(y.bio),
      Some(y.socialLinks), Some(y.profileImage), Some(y.createdAt),
      Some(y.totalReviews), Some(y.bullishCount), Some(y.bearishCount))
  }

  lemma EmptyPatchKeeps(x: Influencer)
    ensures ApplyPatch(x, NoChanges) == x
  {
  }

  lemma PatchIdempotent(x: Influencer, p: InfluencerPatch)
    ensures ApplyPatch(ApplyPatch(x, p), p) == ApplyPatch(x, p)
  {
  }

  predicate WalletMatches(x: Influencer, wallet: string)
  {
    ToLower(x.walletAddress) == ToLower(wallet)
  }

  /** The first profile in insertion order whose wallet equals `wallet` ignoring case. */
  function FindByWallet(order: seq<string>, m: map<string, Influencer>, wallet: string): (r: Option<Influencer>)
    requires forall id :: id in order ==> id in m
    ensures r.None? <==> forall k :: 0 <= k < |order| ==> !WalletMatches(m[order[k]], wallet)
    ensures r.Some? ==>
      exists k :: 0 <= k < |order| && m[order[k]] == r.value && WalletMatches(r.value, wallet) &&
        forall j :: 0 <= j < k ==> !WalletMatches(m[order[j]], wallet)
  {
    if order == [] then None
    else if WalletMatches(m[order[0]], wallet) then Some(m[order[0]])
    else
      var r := FindByWallet(order[1..], m, wallet);
      assert forall k :: 1 <= k < |order| ==> order[k] == order[1..][k - 1];
      r
  }

  /** The values of `m` listed in the order of `order`. */
  function ValuesInOrder<V>(order: seq<string>, m: map<string, V>): (r: seq<V>)
    requires forall id :: id in order ==> id in m
    ensures |r| == |order|
    ensures forall k :: 0 <= k < |order| ==> r[k] == m[order[k]]
  {
    if order == [] then [] else [m[order[0]]] + ValuesInOrder(order[1..], m)
  }

  function IndexOf(index: map<string, seq<string>>, key: string): seq<string>
  {
    if key in index then index[key] else []
  }

  /** `ids.map(id => reviews.get(id)).filter(defined)`. */
  function ResolveIds(ids: seq<string>, reviews: map<string, Review>): (r: seq<Review>)
    ensures |r| <= |ids|
    ensures forall k :: 0 <= k < |r| ==> r[k] in reviews.Values
  {
    if ids == [] then []
    else
      var init := ids[..|ids| - 1];
      var last := ids[|ids| - 1];
      var rest := ResolveIds(init, reviews);
      if last in reviews then rest + [reviews[last]] else rest
  }

  /** A review is listed iff some listed id is stored with it: the filter drops only missing ids. */
  lemma {:induction false} ResolveIdsMembers(ids: seq<string>, reviews: map<string, Review>, x: Review)
    ensures x in ResolveIds(ids, reviews) <==> exists id :: id in ids && id in reviews && reviews[id] == x
  {
    if ids != [] {
      var init := ids[..|ids| - 1];
      var last := ids[|ids| - 1];
      assert forall id :: id in ids <==> id in init || id == last;
      ResolveIdsMembers(init, reviews, x);
    }
  }

  /** With every id stored, nothing is dropped and the listing follows the ids. */
  lemma {:induction false} ResolveIdsAllPresent(ids: seq<string>, reviews: map<string, Review>)
    requires forall id :: id in ids ==> id in reviews
    ensures |ResolveIds(ids, reviews)| == |ids|
    ensures forall k :: 0 <= k < |ids| ==> ResolveIds(ids, reviews)[k] == reviews[ids[k]]
  {
    if ids != [] {
      var init := ids[..|ids| - 1];
      assert forall id :: id in init ==> id in ids;
      ResolveIdsAllPresent(init, reviews);
    }
  }

  lemma ResolveIdsAppend(ids: seq<string>, id: string, reviews: map<string, Review>)
    requires id in reviews
    ensures ResolveIds(ids + [id], reviews) == ResolveIds(ids, reviews) + [reviews[id]]
  {
    assert (ids + [id])[..|ids|] == ids;
  }

  /** Storing a review under a fresh id does not change what existing ids resolve to. */
  lemma {:induction false} ResolveIdsFresh(ids: seq<string>, reviews: map<string, Review>, id: string, v: Review)
    requires id !in ids
    ensures ResolveIds(ids, reviews[id := v]) == ResolveIds(ids, reviews)
  {
    if ids != [] {
      var init := ids[..|ids| - 1];
      assert id !in init by {
        assert forall x :: x in init ==> x in ids;
      }
      ResolveIdsFresh(init, reviews, id, v);
    }
  }

  /** `reviews.some(review => review.influencerId === influencerId)`. */
  function AnyForInfluencer(rs: seq<Review>, influencerId: string): (r: bool)
    ensures r <==> exists k :: 0 <= k < |rs| && rs[k].influencerId == influencerId
  {
    if rs == [] then false
    else
      assert forall k :: 1 <= k < |rs| ==> rs[k] == rs[1..][k - 1];
      rs[0].influencerId == influencerId || AnyForInfluencer(rs[1..], influencerId)
  }

  /** An insertion order that lists each key of `m` exactly once. */
  ghost predicate OrdersKeys<V>(order: seq<string>, m: map<string, V>)
  {
    Distinct(order) && forall id :: id in order <==> id in m
  }

  lemma OrdersKeysAdd<V>(order: seq<string>, m: map<string, V>, key: string, v: V)
    requires OrdersKeys(order, m) && key !in m
    ensures OrdersKeys(order + [key], m[key := v])
  {
  }

  lemma OrderSize<V>(order: seq<string>, m: map<string, V>)
    requires OrdersKeys(order, m)
    ensures |m| == |order|
  {
    DistinctElements(order);
    assert m.Keys == set x | x in order;
  }

  /** Every stored review is listed, once, under its influencer id, and nothing else is. */
  ghost predicate InfluencerIndexed(index: map<string, seq<string>>, reviews: map<string, Review>)
  {
    (forall key :: key in index ==> Distinct(index[key]))
    && (forall key, id :: key in index && id in index[key] ==> id in reviews && reviews[id].influencerId == key)
    && (forall id :: id in reviews ==> id in IndexOf(index, reviews[id].influencerId))
  }

  /** Every stored review is listed, once, under its lowercased reviewer wallet, and nothing else is. */
  ghost predicate ReviewerIndexed(index: map<string, seq<string>>, reviews: map<string, Review>)
  {
    (forall key :: key in index ==> Distinct(index[key]))
    && (forall key, id :: key in index && id in index[key] ==>
          id in reviews && ToLower(reviews[id].reviewerWalletAddress) == key)
    && (forall id :: id in reviews ==> id in IndexOf(index, ToLower(reviews[id].reviewerWalletAddress)))
  }

  /** Appending a fresh review id to its index list keeps the index exact. */
  lemma InfluencerIndexedAfterCreate(index: map<string, seq<string>>, reviews: map<string, Review>, review: Review)
    requires InfluencerIndexed(index, reviews) && review.id !in reviews
    ensures InfluencerIndexed(
      index[review.influencerId := IndexOf(index, review.influencerId) + [review.id]],
      reviews[review.id := review])
  {
    var key := review.influencerId;
    var list := IndexOf(index, key);
    assert review.id !in list;
    var index' := index[key := list + [review.id]];
    var reviews' := reviews[review.id := review];
    forall k, id | k in index' && id in index'[k]
      ensures id in reviews' && reviews'[id].influencerId == k
    {
      if k == key && id == review.id {
      } else if k == key {
        assert id in list;
      }
    }
  }

  lemma ReviewerIndexedAfterCreate(index: map<string, seq<string>>, reviews: map<string, Review>, review: Review)
    requires ReviewerIndexed(index, reviews) && review.id !in reviews
    ensures ReviewerIndexed(
      index[ToLower(review.reviewerWalletAddress) := IndexOf(index, ToLower(review.reviewerWalletAddress)) + [review.id]],
      reviews[review.id := review])
  {
    var key := ToLower(review.reviewerWalletAddress);
    var list := IndexOf(index, key);
    assert review.id !in list;
    var index' := index[key := list + [review.id]];
    var reviews' := reviews[review.id := review];
    forall k, id | k in index' && id in index'[k]
      ensures id in reviews' && ToLower(reviews'[id].reviewerWalletAddress) == k
    {
      if k == key && id == review.id {
      } else if k == key {
        assert id in list;
      }
    }
  }

  predicate ReviewOf(x: Review, reviewerWallet: string, influencerId: string)
  {
    ToLower(x.reviewerWalletAddress) == ToLower(reviewerWallet) && x.influencerId == influencerId
  }

  /** Some stored review was written by `reviewerWallet` (ignoring case) about `influencerId`. */
  ghost predicate HasStoredReview(reviews: map<string, Review>, reviewerWallet: string, influencerId: string)
  {
    exists x :: x in reviews.Values && ReviewOf(x, reviewerWallet, influencerId)
  }

  /** The review half of the store invariant. */
  ghost predicate ReviewsIndexed(order: seq<string>, reviews: map<string, Review>,
    byInfluencer: map<string, seq<string>>, byReviewer: map<string, seq<string>>)
  {
    OrdersKeys(order, reviews) && InfluencerIndexed(byInfluencer, reviews) && ReviewerIndexed(byReviewer, reviews)
  }

  lemma ReviewsIndexedAfterCreate(order: seq<string>, reviews: map<string, Review>,
    byInfluencer: map<string, seq<string>>, byReviewer: map<string, seq<string>>, review: Review)
    requires ReviewsIndexed(order, reviews, byInfluencer, byReviewer) && review.id !in reviews
    ensures ReviewsIndexed(order + [review.id], reviews[review.id := review],
      byInfluencer[review.influencerId := IndexOf(byInfluencer, review.influencerId) + [review.id]],
      byReviewer[ToLower(review.reviewerWalletAddress) :=
        IndexOf(byReviewer, ToLower(review.reviewerWalletAddress)) + [review.id]])
  {
    InfluencerIndexedAfterCreate(byInfluencer, reviews, review);
    ReviewerIndexedAfterCreate(byReviewer, reviews, review);
    OrdersKeysAdd(order, reviews, review.id, review);
  }

  /** Appending a fresh id, stored with `review`, adds exactly `review` at the end of the listing. */
  lemma ResolveIdsAppendFresh(ids: seq<string>, reviews: map<string, Review>, review: Review)
    requires review.id !in ids
    ensures ResolveIds(ids + [review.id], reviews[review.id := review]) == ResolveIds(ids, reviews) + [review]
  {
    ResolveIdsAppend(ids, review.id, reviews[review.id := review]);
    ResolveIdsFresh(ids, reviews, review.id, review);
  }

  /** The ids stored for one influencer. */
  ghost function StoredFor(reviews: map<string, Review>, influencerId: string): set<string>
  {
    set id | id in reviews && reviews[id].influencerId == influencerId
  }

  /** An influencer's index entry resolves to one review per stored review about them. */
  lemma IndexedCount(index: map<string, seq<string>>, reviews: map<string, Review>, influencerId: string)
    requires InfluencerIndexed(index, reviews)
    ensures |ResolveIds(IndexOf(index, influencerId), reviews)| == |StoredFor(reviews, influencerId)|
  {
    var ids := IndexOf(index, influencerId);
    assert forall id :: id in ids ==> id in reviews && reviews[id].influencerId == influencerId;
    ResolveIdsAllPresent(ids, reviews);
    DistinctElements(ids);
    forall id | id in StoredFor(reviews, influencerId)
      ensures id in ids
    {
      assert id in IndexOf(index, reviews[id].influencerId);
    }
    assert (set id | id in ids) == StoredFor(reviews, influencerId);
  }

  class StorageService {
    var influencers: map<string, Influencer>
    /** The iteration order of the `influencers` Map: first insertion first. */
    var influencerOrder: seq<string>
    var reviews: map<string, Review>
    var reviewOrder: seq<string>
    var reviewsByInfluencer: map<string, seq<string>>
    var reviewsByReviewer: map<string, seq<string>>

    ghost predicate Valid()
      reads this
    {
      ReviewsIndexed(reviewOrder, reviews, reviewsByInfluencer, reviewsByReviewer)
      && OrdersKeys(influencerOrder, influencers)
    }

    constructor()
      ensures Valid()
      ensures influencers == map[] && reviews == map[]
      ensures reviewsByInfluencer == map[] && reviewsByReviewer == map[]
    {
      influencers := map[];
      influencerOrder := [];
      reviews := map[];
      reviewOrder := [];
      reviewsByInfluencer := map[];
      reviewsByReviewer := map[];
    }

    function GetInfluencerById(id: string): (r: Option<Influencer>)
      reads this
      ensures r.Some? <==> id in influencers
      ensures r.Some? ==> r.value in influencers.Values && r.value == influencers[id]
    {
      if id in influencers then Some(influencers[id]) else None
    }

    method CreateInfluencer(influencer: Influencer) returns (r: Influencer)
      requires Valid()
      modifies this
      ensures Valid()
      ensures r == influencer
      ensures influencers == old(influencers)[influencer.id := influencer]
      ensures influencerOrder ==
        if influencer.id in old(influencers) then old(influencerOrder) else old(influencerOrder) + [influencer.id]
      ensures reviews == old(reviews) && reviewOrder == old(reviewOrder)
      ensures reviewsByInfluencer == old(reviewsByInfluencer) && reviewsByReviewer == old(reviewsByReviewer)
      ensures GetInfluencerById(influencer.id) == Some(influencer)
      ensures forall id :: id != influencer.id ==> GetInfluencerById(id) == old(GetInfluencerById(id))
    {
      if influencer.id !in influencers {
        influencerOrder := influencerOrder + [influencer.id];
      }
      influencers := influencers[influencer.id := influencer];
      r := influencer;
    }

    /** The linear scan over the Map's values, in insertion order. */
    method GetInfluencerByWallet(walletAddress: string) returns (r: Option<Influencer>)
      requires Valid()
      ensures r == FindByWallet(influencerOrder, influencers, walletAddress)
    {
      var i := 0;
      while i < |influencerOrder|
        invariant 0 <= i <= |influencerOrder|
        invariant FindByWallet(influencerOrder[i..], influencers, walletAddress)
          == FindByWallet(influencerOrder, influencers, walletAddress)
      {
        var influencer := influencers[influencerOrder[i]];
        if ToLower(influencer.walletAddress) == ToLower(walletAddress) {
          return Some(influencer);
        }
        assert influencerOrder[i..][1..] == influencerOrder[i + 1..];
        i := i + 1;
      }
      return None;
    }

    function GetAllInfluencers(): (r: seq<Influencer>)
      requires Valid()
      reads this
      ensures |r| == |influencers| == |influencerOrder|
      ensures forall k :: 0 <= k < |influencerOrder| ==> r[k] == influencers[influencerOrder[k]]
      ensures forall x :: x in r <==> x in influencers.Values
    {
      OrderSize(influencerOrder, influencers);
      var r := ValuesInOrder(influencerOrder, influencers);
      assert forall x :: x in influencers.Values ==> x in r by {
        forall x | x in influencers.Values
          ensures x in r
        {
          var id :| id in influencers && influencers[id] == x;
          var k :| 0 <= k < |influencerOrder| && influencerOrder[k] == id;
          assert r[k] == x;
        }
      }
      r
    }

    method UpdateInfluencer(id: string, updates: InfluencerPatch) returns (r: Option<Influencer>)
      requires Valid()
      modifies this
      ensures Valid()
      ensures id !in old(influencers) ==> r == None && influencers == old(influencers)
      ensures id in old(influencers) ==>
        r == Some(ApplyPatch(old(influencers)[id], updates)) && influencers == old(influencers)[id := r.value]
      ensures influencerOrder == old(influencerOrder)
      ensures reviews == old(reviews) && reviewOrder == old(reviewOrder)
      ensures reviewsByInfluencer == old(reviewsByInfluencer) && reviewsByReviewer == old(reviewsByReviewer)
    {
      if id !in influencers {
        return None;
      }
      var updated := ApplyPatch(influencers[id], updates);
      influencers := influencers[id := updated];
      r := Some(updated);
    }

    method DeleteInfluencer(id: string) returns (deleted: bool)
      requires Valid()
      modifies this
      ensures Valid()
      ensures deleted == (id in old(influencers))
      ensures influencers == old(influencers) - {id}
      ensures influencerOrder == Without(old(influencerOrder), id)
      ensures GetInfluencerById(id) == None
      ensures reviews == old(reviews) && reviewOrder == old(reviewOrder)
      ensures reviewsByInfluencer == old(reviewsByInfluencer) && reviewsByReviewer == old(reviewsByReviewer)
    {
      deleted := id in influencers;
      influencers := influencers - {id};
      influencerOrder := Without(influencerOrder, id);
    }

    /** The review id must be fresh (the service draws it from `uuidv4`). */
    method CreateReview(review: Review) returns (r: Review)
      requires Valid()
      requires review.id !in reviews
      modifies this
      ensures Valid()
      ensures r == review
      ensures reviews == old(reviews)[review.id := review]
      ensures reviewOrder == old(reviewOrder) + [review.id]
      ensures reviewsByInfluencer == old(reviewsByInfluencer)[review.influencerId :=
        IndexOf(old(reviewsByInfluencer), review.influencerId) + [review.id]]
      ensures reviewsByReviewer == old(reviewsByReviewer)[ToLower(review.reviewerWalletAddress) :=
        IndexOf(old(reviewsByReviewer), ToLower(review.reviewerWalletAddress)) + [review.id]]
      ensures influencers == old(influencers) && influencerOrder == old(influencerOrder)
    {
      ghost var order, stored, byInfluencerIndex, byReviewerIndex := reviewOrder, reviews, reviewsByInfluencer, reviewsByReviewer;
      var owner := ToLower(review.reviewerWalletAddress);
      reviews := reviews[review.id := review];
      reviewOrder := reviewOrder + [review.id];
      reviewsByInfluencer := reviewsByInfluencer[review.influencerId := IndexOf(reviewsByInfluencer, review.influencerId) + [review.id]];
      reviewsByReviewer := reviewsByReviewer[owner := IndexOf(reviewsByReviewer, owner) + [review.id]];
      ReviewsIndexedAfterCreate(order, stored, byInfluencerIndex, byReviewerIndex, review);
      r := review;
    }

    function GetReviewById(id: string): (r: Option<Review>)
      reads this
      ensures r.Some? <==> id in reviews
      ensures r.Some? ==> r.value in reviews.Values && r.value == reviews[id]
    {
      if id in reviews then Some(reviews[id]) else None
    }

    /** The reviews listed under an influencer, in the order they were stored. */
    function ReviewsByInfluencer(influencerId: string): (r: seq<Review>)
      reads this
      ensures |r| <= |IndexOf(reviewsByInfluencer, influencerId)|
      ensures forall k :: 0 <= k < |r| ==> r[k] in reviews.Values
    {
      ResolveIds(IndexOf(reviewsByInfluencer, influencerId), reviews)
    }

    /** The reviews listed under a reviewer wallet; the key is the lowercased wallet. */
    function ReviewsByReviewer(reviewerWallet: string): (r: seq<Review>)
      reads this
      ensures |r| <= |IndexOf(reviewsByReviewer, ToLower(reviewerWallet))|
      ensures forall k :: 0 <= k < |r| ==> r[k] in reviews.Values
    {
      ResolveIds(IndexOf(reviewsByReviewer, ToLower(reviewerWallet)), reviews)
    }

    function HasReviewedInfluencer(reviewerWallet: string, influencerId: string): (r: bool)
      reads this
      ensures r <==> exists k :: 0 <= k < |ReviewsByReviewer(reviewerWallet)|
                               && ReviewsByReviewer(reviewerWallet)[k].influencerId == influencerId
      ensures r ==> exists x :: x in reviews.Values && x.influencerId == influencerId
    {
      AnyForInfluencer(ReviewsByReviewer(reviewerWallet), influencerId)
    }

    /** Under the invariant an influencer's listing holds exactly the stored reviews about them. */
    lemma ReviewsByInfluencerExact(influencerId: string)
      requires Valid()
      ensures forall x :: x in ReviewsByInfluencer(influencerId) <==>
        x in reviews.Values && x.influencerId == influencerId
      ensures |ReviewsByInfluencer(influencerId)| == |StoredFor(reviews, influencerId)|
    {
      ReviewCountIsStoredCount(influencerId);
      var ids := IndexOf(reviewsByInfluencer, influencerId);
      forall x
        ensures x in ReviewsByInfluencer(influencerId) <==> x in reviews.Values && x.influencerId == influencerId
      {
        ResolveIdsMembers(ids, reviews, x);
        if x in reviews.Values && x.influencerId == influencerId {
          var id :| id in reviews && reviews[id] == x;
          assert id in ids;
        }
      }
    }

    /** Under the invariant a reviewer's listing holds exactly the stored reviews whose wallet matches ignoring case. */
    lemma ReviewsByReviewerExact(reviewerWallet: string)
      requires Valid()
      ensures forall x :: x in ReviewsByReviewer(reviewerWallet) <==>
        x in reviews.Values && ToLower(x.reviewerWalletAddress) == ToLower(reviewerWallet)
    {
      var key := ToLower(reviewerWallet);
      var ids := IndexOf(reviewsByReviewer, key);
      forall x
        ensures x in ReviewsByReviewer(reviewerWallet) <==>
          x in reviews.Values && ToLower(x.reviewerWalletAddress) == key
      {
        ResolveIdsMembers(ids, reviews, x);
        if x in reviews.Values && ToLower(x.reviewerWalletAddress) == key {
          var id :| id in reviews && reviews[id] == x;
          assert id in ids;
        }
      }
    }

    /** A stored review is found by `hasReviewedInfluencer` for its own reviewer and influencer. */
    lemma StoredReviewIsFound(review: Review)
      requires Valid()
      requires review.id in reviews && reviews[review.id] == review
      ensures HasReviewedInfluencer(review.reviewerWalletAddress, review.influencerId)
    {
      assert ReviewOf(review, review.reviewerWalletAddress, review.influencerId);
      HasReviewedExact(review.reviewerWalletAddress, review.influencerId);
    }

    /** Under the invariant, `hasReviewedInfluencer` holds iff such a review is stored. */
    lemma HasReviewedExact(reviewerWallet: string, influencerId: string)
      requires Valid()
      ensures HasReviewedInfluencer(reviewerWallet, influencerId) <==>
        HasStoredReview(reviews, reviewerWallet, influencerId)
    {
      var mine := ReviewsByReviewer(reviewerWallet);
      ReviewsByReviewerExact(reviewerWallet);
      if HasStoredReview(reviews, reviewerWallet, influencerId) {
        var x :| x in reviews.Values && ReviewOf(x, reviewerWallet, influencerId);
        var k :| 0 <= k < |mine| && mine[k] == x;
      }
    }

    function GetAllReviews(): (r: seq<Review>)
      requires Valid()
      reads this
      ensures |r| == |reviews| == |reviewOrder|
      ensures forall k :: 0 <= k < |reviewOrder| ==> r[k] == reviews[reviewOrder[k]]
    {
      OrderSize(reviewOrder, reviews);
      ValuesInOrder(reviewOrder, reviews)
    }

    /** The two map sizes, which are the lengths of the two listings. */
    function GetStorageStats(): (r: StorageStats)
      requires Valid()
      reads this
      ensures r.influencers == |GetAllInfluencers()|
      ensures r.reviews == |GetAllReviews()|
    {
      StorageStats(|influencers|, |reviews|)
    }

    /** Under the invariant the influencer index holds exactly the stored reviews of each influencer. */
    lemma ReviewCountIsStoredCount(influencerId: string)
      requires Valid()
      ensures |ReviewsByInfluencer(influencerId)| == |StoredFor(reviews, influencerId)|
    {
      IndexedCount(reviewsByInfluencer, reviews, influencerId);
    }

    /** A lookup by id finds something exactly when the id is listed, and what it finds is in the listing. */
    lemma LookupAgreesWithListing(id: string)
      requires Valid()
      ensures GetInfluencerById(id).Some? <==> id in influencerOrder
      ensures GetInfluencerById(id).Some? ==> GetInfluencerById(id).value in GetAllInfluencers()
      ensures GetReviewById(id).Some? <==> id in reviewOrder
      ensures GetReviewById(id).Some? ==> GetReviewById(id).value in GetAllReviews()
    {
      if id in influencers {
        var k :| 0 <= k < |influencerOrder| && influencerOrder[k] == id;
        assert GetAllInfluencers()[k] == influencers[id];
      }
      if id in reviews {
        var k :| 0 <= k < |reviewOrder| && reviewOrder[k] == id;
        assert GetAllReviews()[k] == reviews[id];
      }
    }

    method ClearAll()
      modifies this
      ensures Valid()
      ensures influencers == map[] && reviews == map[]
      ensures reviewsByInfluencer == map[] && reviewsByReviewer == map[]
      ensures GetAllInfluencers() == [] && GetAllReviews() == []
    {
      influencers := map[];
      influencerOrder := [];
      reviews := map[];
      reviewOrder := [];
      reviewsByInfluencer := map[];
      reviewsByReviewer := map[];
    }
  }
}
