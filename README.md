# Vitrum reputation backend: a Dafny model

The backend decides whether a wallet may create an influencer profile and post reviews.
It does this by scoring the wallet's on-chain history:

- **Wallet analysis.** It asks an Alchemy-style indexer, for each supported network, for the
  wallet's transaction count and its oldest and newest transfers. From these it builds a per-network
  activity record, then the total transaction count, the number of active networks, the earliest
  first transaction and the wallet's age in whole days. Results are cached for five minutes.
- **Scoring.** Three banded sub-scores (wallet age, transaction count, multichain bonus) add up to a
  score between 40 and 220. A wallet is eligible at 100 and above; the score also maps to a tier.
- **Reputation.** A full score goes through the analysis and is cached. A quick score over the five
  main networks uses its own inline formula. A batch check scores valid addresses five at a time.
- **Storage.** An in-memory store keeps influencer profiles and reviews. Reviews are indexed by
  influencer and by lower-cased reviewer wallet.
- **Influencers and reviews.** Creating a profile or a review runs a fixed chain of guards: a valid
  address, no existing profile or review, eligibility by quick score, and minimum trimmed lengths.
  The listing of profiles can be sorted by recency or popularity.

Modules follow the source's structure. `Scoring`, `Activity`, `Networks` and `Text` are pure. The
services that change state are classes:

- `Cache.TtlCache` holds the shared TTL store.
- `WalletAnalysis.WalletAnalysisService`, `Reputation.ReputationService`,
  `Influencers.InfluencerService` and `Reviews.ReviewService` are the services.
- `Storage.StorageService` keeps its maps and insertion orders as fields.

Each method that touches the cache is proved equal to a specification function. The function
threads the cache's entries, for example `WalletAnalysis.AnalyzeWalletSpec` or
`Reputation.BatchSpec`. The properties are then proved about those functions.

`Storage.StorageService` keeps an invariant, `Valid()`. It says that both review indexes list
exactly the stored reviews, with no repeats, and that the insertion order lists exactly the stored
keys. Every mutating method preserves it.

The indexer and `ethers.isAddress` are function-valued parameters (`Upstream.Env`). The current time
(`Date.now()`) and the fresh `uuidv4()` identifier are method parameters.

Where the code and its own comments disagree, the model follows the code:

- An age of exactly 365 days scores 60, not 55.
- The Expert tier starts at 110, while `getScoringFormula` advertises 150.
- The quick formula scores 500 transactions as 110, where the full formula gives 95.
- In `getNetworkActivity`, if the newest-transfer probe fails after the oldest timestamp was found,
  the oldest timestamp is kept and only the newest is null.

## Model

| member | source | states |
|---|---|---|
| Scoring.Boundaries | src/services/scoring.service.ts:39-98 | the exact band edges as written: age 6→15, 7→20, 364→55, 365→60; tx 4→15, 5→55, 500→95, 501→110; networks 1→10 … 5→50; tier 109 Advanced, 110 Expert |
| Scoring.WalletAgeScore | src/services/scoring.service.ts:39-46 | the age points lie between 15 and 60; exactly 15 below seven days and exactly 60 from 365 days on |
| Scoring.TransactionScore | src/services/scoring.service.ts:59-66 | the activity points lie between 15 and 110; exactly 15 below five transactions and exactly 110 from 501 on |
| Scoring.MultichainBonus | src/services/scoring.service.ts:81-87 | the bonus lies between 10 and 50; exactly 10 for at most one active network and exactly 50 from five on |
| Scoring.DetermineTier | src/services/scoring.service.ts:92-98 | the tier is Advanced or Expert iff the score reaches the eligibility threshold of 100, and Suspicious iff it is below 50 |
| Scoring.AgeScoreIsBanded | src/services/scoring.service.ts:39-46 | the age score is the band table (15 below 7 days; 20, 35, 45, 55, 60 from 7, 31, 91, 181, 365 days) |
| Scoring.TransactionScoreIsBanded | src/services/scoring.service.ts:59-66 | the transaction score is the band table (15 below 5; 55, 65, 80, 95, 110 from 5, 21, 51, 101, 501) |
| Scoring.MultichainBonusIsBanded | src/services/scoring.service.ts:81-87 | the multichain bonus is the band table (10 below 2; then 30, 35, 40, 50) |
| Scoring.BandScoreMonotone | src/services/scoring.service.ts:39-87 | a banded score over increasing bands is monotone, bounded below by the base score and above by the last band |
| Scoring.SubScoresMonotone | src/services/scoring.service.ts:22-26 | each sub-score is monotone and stays within its floor and its documented maximum (60, 110, 50) |
| Scoring.TierBoundaries | src/services/scoring.service.ts:92-98 | each tier holds exactly on its score range: <50, 50-69, 70-99, 100-109, ≥110 |
| Scoring.CalculateScore | src/services/scoring.service.ts:103-138 | the breakdown's three sub-scores are the age, transaction and network lookups of the analysis' own figures, the tier is the tier of the total, the total is their sum, lies in 40..220, maxScore is 220, eligible iff score ≥ 100 iff tier is Advanced or Expert, address and analysis are carried over |
| Scoring.ScoreMonotone | src/services/scoring.service.ts:103-138 | a wallet that is at least as old, busy and widespread scores at least as much, and stays eligible |
| Networks.AllNetworksComplete | src/config/alchemy.ts:7-38 | the supported-network table has six distinct entries covering every network |
| Networks.ChainIdsDistinct | src/config/alchemy.ts:7-38 | no two supported networks share a chain id |
| Networks.QuickNetworksSubset | src/services/wallet-analysis.service.ts:254 | the quick-stats networks are the five supported networks other than Polygon zkEVM |
| Text.ToLower | src/services/storage.service.ts:27-29 | lower-casing keeps the length, maps each letter to lower case and leaves no capital letter |
| Text.Trim | src/services/influencer.service.ts:33-39 | the result is a contiguous slice of the input with only whitespace cut off either end, and it neither starts nor ends with whitespace |
| Text.TrimAllWhitespace | src/services/review.service.ts:44-46 | a comment made only of whitespace trims to the empty string |
| Collections.Without | src/services/storage.service.ts:47-49 | removing a key from the insertion order drops exactly that key, keeps distinctness and, for a stored key, leaves the other keys in their order (the order with that one slot cut out) |
| Activity.TotalTransactions | src/services/wallet-analysis.service.ts:210-213 | the total is at least every network's count |
| Activity.ActiveNetworks | src/services/wallet-analysis.service.ts:227 | the active count is at most the number of networks, and equal to it iff every network is active |
| Activity.NoActivityIffZeroTotal | src/services/wallet-analysis.service.ts:210-227 | the total is zero iff no network is active |
| Activity.EarliestTimestamp | src/services/wallet-analysis.service.ts:216-219 | the earliest first transaction is one of the present ones and no later than any of them; absent iff none is present |
| Activity.WholeDays | src/services/wallet-analysis.service.ts:222-224 | the age is the number of whole days elapsed since the first transaction |
| Activity.AgeNonNegative | src/services/wallet-analysis.service.ts:222-224 | the age is never negative once the first transaction is in the past |
| Activity.InactiveContributesNothing | src/services/wallet-analysis.service.ts:210-227 | an inactive network changes none of the aggregates |
| Cache.Lookup | src/services/wallet-analysis.service.ts:37-42 | a hit returns the stored value; there is a miss iff the key is absent or expired |
| Cache.PutThenLookup | src/services/reputation.service.ts:18-35 | a value set with a TTL is returned by every lookup until it expires |
| Cache.PutThenExpire | src/services/reputation.service.ts:18-35 | after the TTL a lookup misses |
| Cache.PutOtherKey | src/services/wallet-analysis.service.ts:160-171 | setting one key leaves every other key's lookup unchanged |
| Cache.PutKeepsWellTyped | src/services/wallet-analysis.service.ts:160-171 | storing a value under its own key keeps the cache well typed |
| WalletAnalysis.Categories | src/services/wallet-analysis.service.ts:58-72 | the transfer categories are distinct, always include external and token transfers, and include internal iff the network supports it |
| WalletAnalysis.Candidates | src/services/wallet-analysis.service.ts:76-154 | the candidate transfers are exactly the outgoing and incoming results that exist |
| WalletAnalysis.OldestBlock | src/services/wallet-analysis.service.ts:76-114 | the chosen first block is the smallest candidate block |
| WalletAnalysis.NewestBlock | src/services/wallet-analysis.service.ts:117-154 | the chosen last block is the largest candidate block |
| WalletAnalysis.ProbeTimestamp | src/services/wallet-analysis.service.ts:76-154 | a probe succeeds only if both directions succeed; it has no timestamp iff there are no candidates, else the chosen block's timestamp |
| WalletAnalysis.Fetch | src/services/wallet-analysis.service.ts:44-183 | the record carries the network's name and chain id; it has no error iff the count succeeded; a failure gives count 0, no timestamps and the message; count 0 gives no timestamps |
| WalletAnalysis.ZeroCountIgnoresProbes | src/services/wallet-analysis.service.ts:49-55 | a zero count skips the transfer probes: the record does not depend on them |
| WalletAnalysis.NetworkStep | src/services/wallet-analysis.service.ts:33-184 | a hit returns the cached record and writes nothing; a miss returns the fetched record and caches it iff its transaction count succeeded (a degraded record is not cached); only its own key changes |
| WalletAnalysis.NetworkStepLocal | src/services/wallet-analysis.service.ts:37-42 | a network's record depends only on the cache entry for that wallet and network |
| WalletAnalysis.FetchAll | src/services/wallet-analysis.service.ts:203-207 | one record per network; only that wallet's network keys change |
| WalletAnalysis.FetchAllIsMap | src/services/wallet-analysis.service.ts:203-207 | fetching all networks gives, at each position, that network's own record, as independent calls would |
| WalletAnalysis.FetchAllWellTyped | src/services/wallet-analysis.service.ts:160-171 | fetching keeps the cache well typed |
| WalletAnalysis.FailedNetworkIgnored | src/services/wallet-analysis.service.ts:172-183 | a network whose count fails carries an error and does not change the total, the active count or the earliest timestamp |
| WalletAnalysis.AnalyzeWalletSpec | src/services/wallet-analysis.service.ts:189-243 | an invalid address fails and leaves the cache unchanged; a cache hit is returned as is; otherwise the analysis holds the fetched records of all networks, its total, active count, earliest timestamp and age are the reductions of those records, and it is stored and returned |
| WalletAnalysis.AnalysisServedIsRequested | src/services/wallet-analysis.service.ts:189-243 | with a well-typed cache, the analysis returned is always about the requested wallet |
| WalletAnalysis.AnalyzeWellTyped | src/services/wallet-analysis.service.ts:189-280 | analysis and quick stats keep the cache well typed |
| WalletAnalysis.AnalysisCachedWithinTtl | src/services/wallet-analysis.service.ts:189-243 | within five minutes a second analysis returns the same result without consulting the indexer |
| WalletAnalysis.ActivityCachedWithinTtl | src/services/wallet-analysis.service.ts:37-42 | within five minutes a network record is served from the cache |
| WalletAnalysis.QuickStatsSpec | src/services/wallet-analysis.service.ts:248-280 | an invalid address fails with the cache unchanged; otherwise stats for that wallet whose total, active count and age are the reductions of the five main networks' records |
| WalletAnalysis.QuickStatsAgreeWithAnalysis | src/services/wallet-analysis.service.ts:203-207 | on an analysis miss, each quick-stats network gets exactly the record the full analysis holds for that network |
| WalletAnalysis.StepServesAlike | src/services/wallet-analysis.service.ts:37-42 | a network lookup changes no later lookup's answer at the same instant: it leaves the key alone or stores exactly what it serves |
| WalletAnalysis.FetchAllServesAlike | src/services/wallet-analysis.service.ts:203-207 | a whole fan-out changes no later lookup's answer at the same instant |
| WalletAnalysis.FetchAllFromAlike | src/services/wallet-analysis.service.ts:203-207 | caches that answer every lookup alike give the same fan-out records |
| WalletAnalysis.WalletAnalysisService.SortedFirst | src/services/wallet-analysis.service.ts:106-111 | the block picked by sorting the candidates is the oldest or newest, as the order asks |
| WalletAnalysis.WalletAnalysisService.ReadPhase | src/services/wallet-analysis.service.ts:76-154 | the probe result equals the probe specification |
| WalletAnalysis.WalletAnalysisService.GetNetworkActivity | src/services/wallet-analysis.service.ts:33-184 | the record returned and the new cache entries equal `NetworkStep` of the old entries |
| WalletAnalysis.WalletAnalysisService.FetchActivities | src/services/wallet-analysis.service.ts:203-207 | the records returned and the new cache entries equal `FetchAll` of the old entries |
| WalletAnalysis.WalletAnalysisService.AnalyzeWallet | src/services/wallet-analysis.service.ts:189-243 | the result and the new cache entries equal `AnalyzeWalletSpec` of the old entries |
| WalletAnalysis.WalletAnalysisService.GetQuickStats | src/services/wallet-analysis.service.ts:248-280 | the result and the new cache entries equal `QuickStatsSpec` of the old entries |
| Reputation.QuickAgreesWithFull | src/services/reputation.service.ts:53-55 | the quick age and network formulas equal the full ones; the quick transaction formula differs exactly at 500, which it scores 110 instead of 95 |
| Reputation.QuickAgeScore | src/services/reputation.service.ts:53 | the quick age points lie between 15 and 60, and are 60 exactly from 365 days on |
| Reputation.QuickTransactionScore | src/services/reputation.service.ts:54 | the quick activity points lie between 15 and 110, and are 110 exactly from 500 transactions on |
| Reputation.QuickMultichainBonus | src/services/reputation.service.ts:55 | the quick bonus lies between 10 and 50, and is 50 exactly from five active networks on |
| Reputation.QuickScore | src/services/reputation.service.ts:53-66 | eligible iff score ≥ 100; the stats are carried over; the score is the full sub-score sum except at 500 transactions |
| Reputation.QuickTotalMatchesFull | src/services/reputation.service.ts:53-57 | the quick total equals the full total for the same figures iff the transaction count is not 500 |
| Reputation.FullScoreSpec | src/services/reputation.service.ts:11-39 | an invalid address fails with the cache unchanged; a cached score is returned; otherwise the score is the score of the wallet's analysis, and it is cached |
| Reputation.FullScoreWellTyped | src/services/reputation.service.ts:18-35 | the full score keeps the cache well typed and is about the requested wallet |
| Reputation.QuickReputationSpec | src/services/reputation.service.ts:44-70 | an invalid address fails with the cache unchanged; otherwise the quick formula applied to the wallet's quick stats |
| Reputation.ValidAddresses | src/services/reputation.service.ts:77-79 | the valid addresses are exactly the inputs that are addresses |
| Reputation.ValidAddressesAppend | src/services/reputation.service.ts:77-79 | filtering distributes over concatenation |
| Reputation.CheckOne | src/services/reputation.service.ts:92-101 | a batch record is about the wallet it checked |
| Reputation.CheckAll | src/services/reputation.service.ts:86-104 | one record per wallet, in order |
| Reputation.CheckAllAppend | src/services/reputation.service.ts:86-104 | checking in windows is the same as checking the whole list |
| Reputation.WindowStep | src/services/reputation.service.ts:86-104 | each window of five extends the records of the windows before it |
| Reputation.CheckAllOfValidSucceeds | src/services/reputation.service.ts:92-101 | every valid address gets a score record, never an error record |
| Reputation.BatchSpec | src/services/reputation.service.ts:75-107 | the batch fails iff no address is valid, with the cache unchanged; otherwise slot k is the quick check of the k-th valid address, as if it were checked alone from the initial cache |
| Reputation.QuickServesAlike | src/services/reputation.service.ts:44-70 | a quick check changes no later network lookup's answer at the same instant |
| Reputation.QuickFromAlike | src/services/reputation.service.ts:44-70 | caches that answer every lookup alike give the same quick check |
| Reputation.CheckAllIsMap | src/services/reputation.service.ts:86-104 | slot k of the sequential batch is checking the k-th wallet alone from the initial cache |
| Reputation.BatchHasNoErrorRecords | src/services/reputation.service.ts:75-107 | a successful batch holds only score records |
| Reputation.ReputationService.GetReputationScore | src/services/reputation.service.ts:11-39 | the result and the new cache entries equal `FullScoreSpec` of the old entries |
| Reputation.ReputationService.GetQuickReputation | src/services/reputation.service.ts:44-70 | the result and the new cache entries equal `QuickReputationSpec` of the old entries |
| Reputation.ReputationService.CheckWindow | src/services/reputation.service.ts:91-102 | the records of one window and the new cache entries equal `CheckAll` of the old entries over that window |
| Reputation.ReputationService.BatchCheckReputation | src/services/reputation.service.ts:75-107 | the result and the new cache entries equal `BatchSpec` of the old entries |
| Storage.ApplyPatch | src/services/storage.service.ts:38-45 | for each of the ten fields, a given value replaces the stored one and an omitted one is kept |
| Storage.FindByWallet | src/services/storage.service.ts:25-32 | there is no result iff no profile's lower-cased wallet matches; otherwise the first match in insertion order |
| Storage.ValuesInOrder | src/services/storage.service.ts:34-36 | the values in insertion order, one per key |
| Storage.ResolveIdsMembers | src/services/storage.service.ts:73-85 | a listed review is exactly a stored review whose id is in the index |
| Storage.ResolveIdsAllPresent | src/services/storage.service.ts:73-85 | when every id is stored, the listing has one review per id, in index order |
| Storage.ResolveIdsAppendFresh | src/services/storage.service.ts:53-67 | adding a fresh review extends its index listing by that review |
| Storage.InfluencerIndexedAfterCreate | src/services/storage.service.ts:57-60 | appending a new review to its influencer's index keeps the index exact |
| Storage.ReviewerIndexedAfterCreate | src/services/storage.service.ts:62-65 | appending a new review to its lower-cased reviewer's index keeps the index exact |
| Storage.ReviewsIndexedAfterCreate | src/services/storage.service.ts:53-67 | creating a review keeps both indexes and the insertion order exact |
| Storage.OrdersKeysAdd | src/services/storage.service.ts:16-19 | appending a new key keeps the insertion order exact |
| Storage.OrderSize | src/services/storage.service.ts:98-103 | an exact insertion order has as many entries as the map |
| Storage.AnyForInfluencer | src/services/storage.service.ts:87-90 | true iff some review in the list is about the influencer |
| Storage.StorageService.GetInfluencerByWallet | src/services/storage.service.ts:25-32 | the loop returns the first profile in insertion order whose wallet matches case-insensitively |
| Storage.StorageService.GetInfluencerById | src/services/storage.service.ts:21-23 | a profile is found iff its id is stored, and it is the stored profile |
| Storage.StorageService.GetReviewById | src/services/storage.service.ts:69-71 | a review is found iff its id is stored, and it is the stored review |
| Storage.StorageService.ReviewsByInfluencer | src/services/storage.service.ts:73-78 | at most one review per indexed id, each of them a stored review |
| Storage.StorageService.ReviewsByReviewer | src/services/storage.service.ts:80-85 | at most one review per id indexed under the lower-cased wallet, each of them a stored review |
| Storage.StorageService.HasReviewedInfluencer | src/services/storage.service.ts:87-90 | true iff the reviewer's listing holds a review of that influencer; then a stored review about that influencer exists |
| Storage.StorageService.GetAllInfluencers | src/services/storage.service.ts:34-36 | every stored profile once, in insertion order |
| Storage.StorageService.ReviewsByInfluencerExact | src/services/storage.service.ts:73-78 | the listing for an influencer is exactly its stored reviews, one entry per stored review |
| Storage.StorageService.ReviewsByReviewerExact | src/services/storage.service.ts:80-85 | the listing for a reviewer is exactly the stored reviews whose wallet matches case-insensitively |
| Storage.StorageService.HasReviewedExact | src/services/storage.service.ts:87-90 | true iff a stored review by that wallet (case-insensitively) is about that influencer |
| Storage.StorageService.StoredReviewIsFound | src/services/storage.service.ts:53-90 | a stored review is reported by the has-reviewed check |
| Storage.StorageService.LookupAgreesWithListing | src/services/storage.service.ts:21-23 | a lookup of a profile or a review by id succeeds iff the id is listed, and what it returns is in the listing |
| Storage.StorageService.GetAllReviews | src/services/storage.service.ts:92-94 | every stored review once, in insertion order |
| Storage.StorageService.GetStorageStats | src/services/storage.service.ts:98-103 | the counts equal the lengths of the two listings |
| Storage.StorageService.ReviewCountIsStoredCount | src/services/storage.service.ts:73-78 | an influencer's review listing is as long as the number of its stored reviews |
| Storage.StorageService.CreateInfluencer | src/services/storage.service.ts:16-19 | the profile is stored under its id; a new id is listed last and an existing id keeps its place; other ids and all reviews are unchanged |
| Storage.StorageService.UpdateInfluencer | src/services/storage.service.ts:38-45 | an unknown id gives nothing and changes nothing; otherwise the patched profile is stored and returned |
| Storage.StorageService.DeleteInfluencer | src/services/storage.service.ts:47-49 | reports whether the id was stored, removes it from the map and the order, and leaves the reviews alone |
| Storage.StorageService.CreateReview | src/services/storage.service.ts:53-67 | the review is stored, listed last and appended to both indexes; the invariant is kept |
| Storage.StorageService.ClearAll | src/services/storage.service.ts:105-110 | every map is empty and both listings are empty |
| Influencers.NewInfluencerNormalised | src/services/influencer.service.ts:42-54 | a new profile has a lower-cased wallet, trimmed name and bio of the minimum lengths, and zero counters |
| Influencers.CreateInfluencerSpec | src/services/influencer.service.ts:12-57 | the guards in order: invalid address, existing profile, reputation error, not eligible (score below 100), name, bio; each error is returned iff its own guard fails and every earlier guard passes; success iff all pass, and the new profile is then the normalised record |
| Influencers.InfluencerService.CreateInfluencer | src/services/influencer.service.ts:12-57 | follows the specification with the profile found by wallet; a failure leaves storage unchanged; success stores the profile, after which every case variant of the wallet finds a profile |
| Influencers.InfluencerService.GetInfluencerByWallet | src/services/influencer.service.ts:69-74 | nothing for an invalid address; otherwise the storage lookup |
| Influencers.InfluencerService.GetAllInfluencers | src/services/influencer.service.ts:79-92 | a permutation of the stored profiles; unsorted it is their insertion order; sorted it is descending by creation time or by review count |
| Influencers.InfluencerService.SortDescending | src/services/influencer.service.ts:83-86 | the array ends sorted descending by the key and is a permutation of its input |
| Influencers.InfluencerService.UpdateInfluencerStats | src/services/influencer.service.ts:97-115 | nothing for an unknown id; otherwise one more review and one more bullish or bearish vote, as the sentiment says |
| Reviews.NewReviewNormalised | src/services/review.service.ts:49-55 | a new review has a lower-cased reviewer and a trimmed comment of at least ten characters, and it counts as that reviewer's review of that influencer |
| Reviews.CreateReviewSpec | src/services/review.service.ts:14-64 | the guards in order: invalid reviewer, unknown influencer, reputation error, not eligible, already commented, comment too short; each error is returned iff its own guard fails and every earlier guard passes; success iff all pass; a repeat review always fails |
| Reviews.ReviewService.CreateReview | src/services/review.service.ts:14-64 | follows the specification with the stored influencer and the has-reviewed check; a failure changes no review; success stores the review, after which the reviewer counts as having reviewed |
| Reviews.ReviewService.GetReviewsByReviewer | src/services/review.service.ts:83-88 | nothing for an invalid address; otherwise exactly the stored reviews by that wallet |
| Reviews.ReviewService.GetInfluencerReviewCount | src/services/review.service.ts:93-99 | the count is the number of stored reviews about the influencer |
| Reviews.ReviewService.HasReviewed | src/services/review.service.ts:104-109 | false for an invalid address; otherwise true iff a stored review by that wallet is about that influencer |

## Left out

- The cache utility (`utils/cache`) is not part of this model. It is modelled as a map with lazy expiry; eviction, clearing and its statistics are left out.
- Floating point: `sentimentScore` in `updateInfluencerStats` and the `bullish` sort order of `getAllInfluencers` use float arithmetic. Both are left out; the counters and the other two sort orders are modelled.
- Text.ToLower: only ASCII letters are lower-cased. JavaScript's `toLowerCase` also folds non-ASCII letters.
- Concurrency: `Promise.all` over the networks and within a batch window is modelled as a left-to-right sequence of calls.
- The indexer calls, `ethers.isAddress`, `Date.now()` and `uuidv4()` are parameters. Each call uses one `nowMs`, where the source may read the clock more than once.
- Logging (`console.log` / `console.error`) is left out.
- `getScoringFormula` returns a constant description and is left out. Its tier ranges (Advanced 100-149, Expert 150-220) disagree with `determineTier`, which the model follows.
- `getInfluencerById` and `getReviewById` in the influencer and review services only forward to storage, where `Storage.StorageService.LookupAgreesWithListing` states them (storage.service.ts:21-23 and 69-71).
- `getReviewsByInfluencer` in the review service only forwards to storage; `Storage.StorageService.ReviewsByInfluencerExact` states it.
- A review's `sentiment` field exists in the review model but is never set by the service, so it is not part of the model.
- Storage.StorageService.CreateReview requires a fresh id, as a `uuidv4()` would be. The source overwrites a stored id, and the review indexes would then list it twice.
- Influencers.InfluencerService.CreateInfluencer requires the id it is given to be unused, standing for a fresh `uuidv4()`.
- Reviews.ReviewService.CreateReview requires the id it is given to be unused, standing for a fresh `uuidv4()`.
- Reviews.ReviewService.CreateReview: the source awaits `influencerService.incrementReviewCount` (review.service.ts:61), which `InfluencerService` does not define. As written, the call throws a `TypeError` after `storageService.createReview` has stored the review, so every accepted review is stored and the request is then rejected. The model returns the stored review instead and updates no counter.
- Influencers.InfluencerService.GetAllInfluencers: its contract does not state that the sort is stable, which JavaScript's sort is. The model's insertion sort moves an element only past strictly smaller keys, so equal keys keep their order, but no lemma proves it.
- Reputation.FullScoreSpec and WalletAnalysis.AnalyzeWalletSpec: an exception escaping the analysis (the outer catch) cannot occur in the model; per-network failures are each caught where the source catches them.
- The vote service, the routes, the database configuration and the scripts are outside the modelled core.
