# scam2market, verified

This project models the stateful cores of scam2market in Dafny 4.11 and proves what the program relies
on. `dafny verify dfyconfig.toml` checks all of it. Each component has a specification on values, the
program's own objects and loops as classes and methods proved to follow that specification exactly, and
laws about the specification: about single calls, about whole runs and about every reachable state.

| component | files | main results |
|---|---|---|
| event-time feature engine | `FeatureSignals`, `FeatureRanges`, `FeatureMeanings`, `FeatureBaselines`, `FeatureWindows`, `FeatureLaws`, `FeatureBuilding`, `FeatureIndex`, `FeatureRuns`, `FeatureTheorems`, `FeatureSources`, `FeatureFinality`, `FeatureReports`, `FeatureWatermarks`, `FeatureTraces`, `FeatureEngine`, `FeatureStores` | the incremental index agrees with a batch recomputation; arrival order is irrelevant; a checkpoint restores the whole state; a window is final exactly once the watermark that the log determines has reached its end; what every feature says of the signals; the store ends up with every history |
| campaign and alert engine | `CampaignPolicy`, `CampaignRules`, `CampaignStores`, `CampaignLaws`, `CampaignRuns`, `CampaignAlerts`, `CampaignTables`, `CampaignNotices`, `CampaignNews`, `CampaignClosings`, `CampaignEngines` | one repository simulates the other, exactly unless evidence is torn; exactly which notifications and campaign events are sent over every run; which evidence is taken up; what campaign and alert records say of their evidence; unique event ids |
| disclosures and claims | `Chunker`, `ChunkLaws`, `Disclosures`, `DisclosureLaws`, `DisclosureRows`, `ClaimVerifier`, `CandidateLaws`, `Lookahead`, `HindsightLaws` | fewest chunks, from which the paragraphs can be read again; version chains; as-of reads; every verdict with its risk, evidence and exact condition; exactly which stores are free of lookahead, and live ones are, up to narrative summaries |
| risk fusion | `Fusion`, `FusionBands`, `FusionLaws` | the trace replays; severity bands, stages and confidence; order-respecting scores; exactly when threat context matters |
| delivery and rate limiting | `TokenBucket`, `TokenBucketLaws`, `RowClaims`, `Notifications`, `NotificationRuns`, `NotificationClaims`, `NotificationRows`, `Outbox`, `OutboxRuns`, `OutboxClaims`, `OutboxRows` | safety under any interleaving of workers and crashes; exactly what can be sent or published again; what every row tells of its history; exactly which requests are accepted; invisible expiry |
| smaller cores | `Clustering`, `ClusteringLaws`, `Calibration`, `CalibrationLaws`, `CalibrationRanks`, `SourceQuality`, `SourceQualityLaws`, `SourceQualityRecords` | coherent, order-free narratives and which of them a post joins; the AUC counts pairs told apart; accounting for sequences; book recovery as a function of history |

`Foundations` holds the option and result types, a stable sort with its laws and the order on strings.

## How the program is read

- Times are integers (microseconds, as Python's `datetime` keeps them; the rate limiter's clock is a real).
  Scores, prices, weights and sums are reals, so rounding and overflow of floats play no part.
- Identities that the program derives by hashing (`uuid5`, SHA-256) are modelled by what they are derived
  from, and keys joined with colons by tuples, so two things have the same identity only if they were
  derived from the same data.
- A locked transaction is one atomic step. What the outside does (the answers of the advisory lock, rows
  locked by others, sends and publishes that succeed or fail, crashes, the clock) is a parameter, and the
  run theorems hold for every choice of it.
- A Python dictionary whose order of insertion matters is modelled with that order. `or` between a value
  and a default follows Python's truth values where they matter: an empty key, a zero score, a last
  sequence of zero.
- `FeatureWindows.Config.extract` stands for the arithmetic from a window's inputs to its features. The
  engine is built with `FeatureSignals.Raw`, which spells it out, and the laws hold for any such arithmetic.

## What does not hold, and when

- The fusion watermark is not monotone: of two readings in a run the second is lower exactly when a required
  source that was idle at the first is awake at the second, behind the first (`WatermarkFallsIff`). One signal
  can do that (`WatermarkCanFall`, exactly as `SignalLowersIff` says), and so can several of which none does, with
  no watermark in between (`WatermarkCanFallUnseen`).
- A window does not hold every time that is filed under it: a time before the epoch that is off a whole second and
  lies in the last second before a multiple of the interval is filed under the window after it, and only such times
  lie outside their window (`WindowHoldsIff`).
- The table of transitions has one entry that no score leads to: early seeding never goes straight to post-event.
  Its other entries are exactly the transitions that some score makes (`TableIsReached`).
- The two campaign repositories part on evidence that comes after the merge gap and yet is no newer than
  what the active campaign has applied, and only then (`InStepIffNotTorn`, `StoresCanPart`). Fusion sets the
  cutoff to the event time, where this cannot happen.
- PUBLISHED is not final in the outbox: it can be left exactly while an unpublished claim of the row is
  outstanding (`PublishedIsFinalIff`, `PublishedCanBeLeft`). A message can be published, for the
  first time or again, exactly while a dispatcher is about to, or it has attempts left and is not PUBLISHED for
  good (`CanBePublishedIff`).
- A matched threat context can lower a score, exactly when the score before it is under HIGH, the market score
  is at least 0.35, and the floored score is above HIGH - 0.01 (`MatchedLowersIff`, `MatchedCanLower`).
- A notification whose worker crashed with its claim stays PROCESSING for good: it can be settled exactly
  while a claim of it is held (`CanSettleIff`, `ClaimsCanBeLost`).
- A notification can be sent, and accepted, more than once, because sending and finalising share one `try`
  (`SentTwice`). After any run it can be accepted, for the first time or again, exactly while its row waits, or
  a claim of it is yet to send or, failing, leaves another attempt (`CanBeAcceptedIff`); it is accepted at most
  once more than finalisations of it were lost (`DeliveryIsSafe`).
- The sequence accounting fails over a history exactly when in it a negative number has followed a last sequence
  of zero (`BalancedIff`, `NegativesUnbalance`).
- In memory only the last version of a disclosure is CURRENT exactly if the last change arrived so
  (`OnlyLastIsCurrentInMemoryIff`, `MemoryCanHaveNoCurrent`); in the relational store it always is.
- A store is free of lookahead exactly when it hides nothing and has no ties (`NoLookaheadIff`, where
  identities name documents). A document without an availability stamp can hide, after the alert, a version
  that was available at it (`UnstampedLookahead`); the ingestion service stamps every document. Two documents
  that share a source policy, a document key and a version but not a source are kept under two keys and read
  as one, by order of arrival (`TiedLookahead`); versioned ingestion gives every version one document.
- The in-memory campaign repository raises exactly on an event id offered before whose scope and asset no
  evidence has opened a campaign for (`MemoryFailsIff`, `MemoryCanFail`).
- `Retry-After: 1` is sound over every run of requests exactly for refill rates of at least one token a second
  (`RetryAfterOneSecond`, `RejectedTwice`).

## Model

| member | source | states |
|---|---|---|
| `FeatureSignals.EarlierStartPrecedes` | src/scam2market/features/engine.py:35-38 | no instant of a window is earlier than the start of an earlier window of the same interval, so rebuilding from the window on is enough for authors |
| `FeatureSignals.VolumeIgnoresArrival` | src/scam2market/features/engine.py:480-487 | the volume of a window is the same for every order of its signals |
| `FeatureRanges.ConcentrationIsAShare` | src/scam2market/features/engine.py:47-51 | concentration is the share of a most frequent value, in [0, 1], and 1 exactly when all values are the same |
| `FeatureRanges.PressureIsBalanced` | src/scam2market/features/engine.py:349-359 | buy/sell pressure is antisymmetric, in [-1, 1], 1 exactly without sells and positive exactly when buys exceed sells |
| `FeatureRanges.SocialFeaturesKeepRange` | src/scam2market/features/engine.py:361-381 | author and link concentration, the new-author ratio and the repost ratio of every window are in [0, 1] |
| `FeatureRanges.MarketFeaturesKeepRange` | src/scam2market/features/engine.py:398-407 | for non-negative quantities pressure is in [-1, 1], freshness is not negative and baseline confidence is in [0, 1] |
| `FeatureRanges.QualityInRange` | src/scam2market/features/engine.py:413-423 | the data quality score is in [0, 1] and full exactly for fresh, undegraded sources without gaps |
| `FeatureBaselines.WindowHoldsIff` | src/scam2market/features/engine.py:35-38 | the window of a time starts at a multiple of the interval and holds the time, except exactly for the times before the epoch that truncation takes into the next window |
| `FeatureMeanings.MarketIsTold` | src/scam2market/features/engine.py:303-359 | trade count, volume and pressure are told by totals over the window's signals: notional of its trades or else the volume of its candles, and (buys - sells) against (buys + sells) |
| `FeatureMeanings.BooksAreTold` | src/scam2market/features/engine.py:296-348 | spread, depth and imbalance are the means over the valid books, and a window with books is valid exactly if one of them is |
| `FeatureMeanings.PriceIsTold` | src/scam2market/features/engine.py:303-306 | the return takes the first price to the last, of the trades or without any of the candles, and is zero without two prices or from a price of zero |
| `FeatureMeanings.PostsAreTold` | src/scam2market/features/engine.py:361-377 | mentions and authors are counted, reposts and replies are their share of the posts, and tags are counted by the minute, of an interval of one at least |
| `FeatureMeanings.AuthorsAreTold` | src/scam2market/features/engine.py:378-381 | the new-author ratio is the share of the distinct authors first seen in the window or later |
| `FeatureMeanings.SharesAreTold` | src/scam2market/features/engine.py:361-369 | author and link concentration are the share of the most frequent author and link |
| `FeatureMeanings.TimesAreTold` | src/scam2market/features/engine.py:398-412 | freshness is the time from the last signal of a side to the end of the window, and the social lead that from the first social signal to the first market one |
| `FeatureMeanings.GapsAreTold` | src/scam2market/features/engine.py:382-387 | the gap count is the highest one reported, truncated, and baseline confidence a twentieth for every earlier window up to one |
| `FeatureBaselines.VolumesAreRelative` | src/scam2market/features/engine.py:320-341 | relative volume times the baseline is the volume, where the baseline is the mean of the positive stated ones, else of the positive trailing ones, else the volume itself |
| `FeatureBaselines.VarianceIs` | src/scam2market/features/engine.py:307-312 | with n > 1 returns, n^2 times the squared volatility is n times the sum of their squares less the square of their sum; with fewer it is zero |
| `FeatureBaselines.ReturnsOneMore` | src/scam2market/features/engine.py:307-311 | a further price adds its relative change from the price before it, unless that was zero |
| `FeatureBaselines.QualityCosts` | src/scam2market/features/engine.py:413-423 | a degraded source costs a quarter and a gap a tenth, up to five, and nothing takes the score below zero |
| `FeatureBaselines.StalenessCosts` | src/scam2market/features/engine.py:413-423 | a minute staler costs a tenth, of whichever source, up to ten minutes in all |
| `FeatureLaws.SettleChangesNoWatermark` | src/scam2market/features/engine.py:183-214 | the write hidden in reading the watermarks changes no watermark of any asset and leaves nothing more to write |
| `FeatureLaws.WatermarkIsLeast` | src/scam2market/features/engine.py:209-214 | the fusion watermark exists exactly when every required domain has one and none is listed twice, and is the least of them |
| `FeatureLaws.WatermarkLagsNewest` | src/scam2market/features/engine.py:183-214 | no fusion watermark is above the newest event time of the asset less the allowed lateness, idle domains included |
| `FeatureLaws.HistoryShape` | src/scam2market/features/engine.py:237-252 | a well-formed history reads PROVISIONAL* (FINAL CORRECTED*)? with an explicit turning point |
| `FeatureLaws.BuildKeepsHistories` | src/scam2market/features/engine.py:232-283 | building a revision keeps every history numbered from 1, in shape, each CORRECTED revision superseding its predecessor |
| `FeatureBuilding.BuildEachReturns` | src/scam2market/features/engine.py:232-283 | what a chain of builds returns is exactly what it appended to the histories of the windows named, and unless forced is FINAL only behind the watermark |
| `FeatureIndex.RebuiltMembers` | src/scam2market/features/engine.py:113-128 | the windows rebuilt are the signal's own and exactly the later ones of the same scope, asset and interval |
| `FeatureIndex.PlaceEachFreshens` | src/scam2market/features/engine.py:109-136 | once the signal is in all its windows no window is left that differs from a recomputation from the index, although only those windows and later ones were rebuilt |
| `FeatureRuns.IngestReturns` | src/scam2market/features/engine.py:82-137 | an ingest returns exactly the revisions it appends, all of the signal's asset, FINAL only behind the watermark |
| `FeatureRuns.OtherAssetsUntouched` | src/scam2market/features/engine.py:82-137 | windows of other scopes and assets keep their histories |
| `FeatureRuns.IngestLeavesNoneOverdue` | src/scam2market/features/engine.py:219-230 | after an ingest no window is provisional with its end at or before the watermark |
| `FeatureRuns.IngestFreshens` | src/scam2market/features/engine.py:109-137 | an ingest keeps every window's latest revision equal to a recomputation from the incrementally kept index |
| `FeatureTheorems.RunsAreSound` | src/scam2market/features/engine.py:82-283 | every run of arrivals, duplicates and watermark queries keeps all of: settled flags, no overdue window, valid histories, fresh revisions |
| `FeatureTheorems.QueryKeepsSound` | src/scam2market/features/engine.py:183-214 | in a reachable state reading the watermarks writes nothing |
| `FeatureTheorems.HistoriesReadInOrder` | src/scam2market/features/engine.py:237-252 | in every reachable state every window's revisions are numbered 1..n and read PROVISIONAL* (FINAL CORRECTED*)? |
| `FeatureTheorems.NoReachableWindowIsOverdue` | src/scam2market/features/engine.py:219-230 | no reachable state holds a provisional window whose end the current watermark has passed |
| `FeatureTheorems.FinalOnlyBehindLateness` | src/scam2market/features/engine.py:219-252 | a FINAL revision is made only when the window end is at or before the watermark, hence at or before the newest event less the lateness |
| `FeatureSources.BooksTellLog` | src/scam2market/features/engine.py:82-108 | in every reachable state the maxima and flags of a source are told by what the log holds of it: its latest time, its last quality report, and whether it lags the newest event of its asset by the idle limit |
| `FeatureSources.WatermarkIsOfLog` | src/scam2market/features/engine.py:183-217 | in every reachable state the fusion watermark is w exactly when no domain is required twice and w is the least of what the log gives each required source: the lateness behind its own latest event, or behind the newest of the asset if it lags or says it is idle, and none if it was never heard of or says it is degraded |
| `FeatureSources.RevisionsRecordFlags` | src/scam2market/features/engine.py:388-396 | every revision an ingest makes records the flags of both sources as the log tells them then |
| `FeatureFinality.FinalIffReached` | src/scam2market/features/engine.py:219-252 | over every run a window has a FINAL revision exactly when at some point the run held it with the watermark at or past its start plus its interval |
| `FeatureFinality.ProvisionalEndsLater` | src/scam2market/features/engine.py:219-230 | in every reachable state with a watermark a window whose latest revision is PROVISIONAL ends after the watermark |
| `FeatureFinality.FinalAtEighty` | src/scam2market/features/engine.py:219-252 | a trade at 10 s, a trade at 200 s and a post at 200 s take the watermark to 80 s, and the window of the first minute then has a FINAL revision |
| `FeatureTheorems.ReplayRestores` | src/scam2market/features/engine.py:139-155 | for every run, ingesting its log into an empty engine gives the very same state |
| `FeatureTheorems.RunsMatchLog` | src/scam2market/features/engine.py:82-137 | windows, maxima, author first-seen times and seen ids are those that the log of accepted signals determines |
| `FeatureTheorems.IndexIsBatch` | src/scam2market/features/engine.py:318-344 | what the index says of a window (events, trailing volumes of the last 20 earlier windows, new authors, history count) is a batch computation from the whole log |
| `FeatureTheorems.LatestIsBatch` | src/scam2market/features/engine.py:285-477 | in every reachable state the latest revision of every window equals a fresh recomputation from all signals held, under the flags it recorded |
| `FeatureReports.LatestReports` | src/scam2market/features/engine.py:232-477 | in every reachable state the latest revision lists the ids of the log's signals of its window, each once and in order of time, with the first and last time; its features say of just these signals what the rows above state; and the volumes they are measured against are those of the twenty latest earlier windows |
| `FeatureReports.MaskCarries` | src/scam2market/features/engine.py:430-477 | features carry what was computed, and the social ones are withheld exactly from a source that is not active or is degraded |
| `FeatureTheorems.ArrivalOrderIsIrrelevant` | src/scam2market/features/engine.py:82-137 | two runs of the same signals in any order, with any duplicates and queries, end with the same windows, the same lineages and agreeing features |
| `FeatureWatermarks.WatermarkFallsIff` | src/scam2market/features/engine.py:183-214 | of two readings of a fusion watermark in a run, whatever came between, the second is lower exactly when a required source idle at the first is awake at the second and what it has heard of last is behind the first |
| `FeatureWatermarks.WatermarkCanFall` | src/scam2market/features/engine.py:193-203 | a post at 0 s and a trade at 1000 s take the watermark to 880 s, and a post from 500 s then takes it to 380 s |
| `FeatureWatermarks.WatermarkCanFallUnseen` | src/scam2market/features/engine.py:193-203 | after the first two of these, two quality reports on the idle source take the watermark from 880 s to none and back to 380 s, so it falls although no signal lowers it |
| `FeatureTraces.ForceIsRedundant` | src/scam2market/features/engine.py:129-135 | forcing finality on a window whose last revision is final changes nothing |
| `FeatureEngine.FeatureWindowEngine.Create` | src/scam2market/features/engine.py:55-80 | construction fails exactly when there are no intervals or one is not positive, else starts empty |
| `FeatureEngine.FeatureWindowEngine.Watermarks` | src/scam2market/features/engine.py:183-214 | reports each required domain's watermark and the fusion one, and writes exactly the idle marks |
| `FeatureEngine.FeatureWindowEngine.BuildRevision` | src/scam2market/features/engine.py:232-283 | appends the one next revision the state determines and returns it |
| `FeatureEngine.FeatureWindowEngine.FinalizeEligible` | src/scam2market/features/engine.py:219-230 | finalises, in insertion order, exactly the provisional windows the watermark has passed |
| `FeatureEngine.FeatureWindowEngine.IngestSignal` | src/scam2market/features/engine.py:82-137 | takes the engine from its state to the one, and returns the snapshots, that the ingest step prescribes |
| `FeatureEngine.FeatureWindowEngine.RestoreState` | src/scam2market/features/engine.py:145-155 | fails on a used engine, a wrong version or malformed signals, and otherwise replays the log |
| `FeatureEngine.CheckpointRoundTrip` | src/scam2market/features/engine.py:139-155 | exporting any reachable engine and restoring into a new one copies the whole state |
| `FeatureStores.SqlFeatureRepository.Persist` | src/scam2market/ingestion/repositories.py:306-400 | a snapshot is refused exactly when its window is at that revision or a later one, and otherwise becomes current and is stored |
| `FeatureStores.FeatureWindowService.Process` | src/scam2market/features/engine.py:504-508 | ingests the signal and persists what the ingest returned, in order |
| `FeatureStores.AnyDeliveryKeepsNewest` | src/scam2market/ingestion/repositories.py:306-347 | for any delivery of snapshots, late, repeated or out of order, the row is at the highest revision delivered and the stored revisions rise strictly to it |
| `FeatureStores.EmittedIsHistory` | src/scam2market/features/engine.py:82-137 | over a whole run the snapshots returned for a window are its revision history |
| `FeatureStores.EngineFillsStore` | src/scam2market/ingestion/repositories.py:306-400 | fed by the engine the store refuses nothing: it holds every window's whole history and its row the latest revision |
| `FeatureStores.RedeliveryChangesNothing` | src/scam2market/ingestion/repositories.py:328-329 | persisting anything again that was delivered before changes nothing |
| `CampaignPolicy.AssessSucceeds` | src/scam2market/campaigns/policy.py:23-67 | the stage machine never raises: every proposed transition is in its table |
| `CampaignPolicy.OnlySeedingFades` | src/scam2market/campaigns/policy.py:69-116 | only EARLY_SOCIAL_SEEDING to NORMAL goes backwards, and only on a normal severity with social activity under 0.20 |
| `CampaignPolicy.AlertsAreDistinct` | src/scam2market/campaigns/policy.py:150-226 | a score triggers at most one alert of a kind and just those whose condition holds |
| `CampaignRules.EnteredIff` | src/scam2market/campaigns/policy.py:69-116 | for every stage the exact scores on which a campaign enters it from another, with every threshold; on all others it stays |
| `CampaignRules.ConfidenceIsLargest` | src/scam2market/campaigns/policy.py:118-134 | the confidence in a stage is the largest of the risks that speak for it, a missing one counting zero |
| `CampaignRules.TriggeredIff` | src/scam2market/campaigns/policy.py:150-226 | an alert is triggered exactly on the condition of its kind and with the severity of its kind |
| `CampaignRules.TableIsReached` | src/scam2market/campaigns/policy.py:23-50 | the table of transitions holds exactly those that some score makes, and one that none does |
| `CampaignStores.ActiveRow` | src/scam2market/campaigns/repository.py:88-96 | the row found is the active one of the scope and asset, and none is found only if there is none |
| `CampaignLaws.SoundAgrees` | src/scam2market/campaigns/repository.py:283-330 | deciding suppression after writing the row (relational) or before copying the record (in memory) raises the same alerts and events |
| `CampaignLaws.StepKeepsStores` | src/scam2market/campaigns/repository.py:57-266 | one piece of evidence that is not torn keeps the two repositories in step: active campaigns, alerts, evidence, histories and events |
| `CampaignLaws.InStepIffNotTorn` | src/scam2market/campaigns/repository.py:371-391 | new evidence keeps them in step exactly when it is not both past the merge gap and stale for the active campaign |
| `CampaignLaws.MemorySimulatesTables` | src/scam2market/campaigns/repository.py:371-518 | when every evidence cutoff is the event time the in-memory repository simulates the relational one through every run, campaign.closed events apart |
| `CampaignLaws.CutoffsStayLast` | src/scam2market/campaigns/repository.py:432-435 | in such runs a campaign's applied cutoff is its last evidence time |
| `CampaignLaws.StoresCanPart` | src/scam2market/campaigns/repository.py:97-112 | with cutoffs that are not event times the two can part on the second piece of evidence |
| `CampaignRuns.RepeatsChangeNothing` | src/scam2market/campaigns/repository.py:377-381 | evidence offered before, applied or stale, never changes the state again |
| `CampaignRuns.CampaignsTell` | src/scam2market/campaigns/repository.py:397-453 | in every reachable state a campaign's version counts the evidence applied, its severity is their worst, its stage is the machine run over them, and their evaluation orders strictly increase |
| `CampaignRuns.TablesNeverFail` | src/scam2market/campaigns/repository.py:81-86 | with its lock held the relational repository never raises, as stored evidence always has its campaign |
| `CampaignRuns.MemoryFailsIff` | src/scam2market/campaigns/repository.py:375-381 | after any run the in-memory repository raises exactly when the event id was offered before and no evidence that was the first under its id was of the same scope and asset |
| `CampaignRuns.MemoryNeverFails` | src/scam2market/campaigns/repository.py:375-381 | so it never raises when event ids determine scope and asset |
| `CampaignRuns.MemoryCanFail` | src/scam2market/campaigns/repository.py:377-381 | the only event id so far, offered again for a second asset, raises in memory |
| `CampaignRuns.OutboxIdsAreUnique` | src/scam2market/campaigns/repository.py:563-606 | no topic and event id enters the relational outbox twice over any run, campaign.closed events included |
| `CampaignRuns.MemoryOutboxIdsAreUnique` | src/scam2market/campaigns/repository.py:371-518 | nor does one enter the in-memory outbox twice, over any run, on time or not |
| `CampaignRuns.RaisingPaces` | src/scam2market/campaigns/repository.py:480-507 | severity only climbs, a refresh comes at least a cooldown after the last notification, and a suppressed alert changes neither severity nor notification time |
| `CampaignNotices.RaisedAsDue` | src/scam2market/campaigns/repository.py:480-507 | an alert raised again at t after notifying at n sends an event exactly when it is more severe than ever before (alert.severity_changed) or t - n is the cooldown or more (alert.refreshed); the first raise always sends alert.created |
| `CampaignNotices.SuppressedIff` | src/scam2market/campaigns/repository.py:307-330 | of an alert that is there already nothing is sent exactly if it is active, the raise is no more severe and less than the cooldown has passed; one that was acknowledged is reactivated and told of as changed, in both repositories |
| `CampaignNotices.NotificationsAreDue` | src/scam2market/campaigns/repository.py:461-517 | over every run, on time or not, the events, the notification time and the history notes of an alert are the fold of that rule over the times and severities with which the applied evidence raised it, and nothing else |
| `CampaignNotices.RowNotificationsAreDue` | src/scam2market/campaigns/repository.py:268-356 | and so they are in the relational repository |
| `CampaignNews.SupersedesIff` | src/scam2market/campaigns/repository.py:529-560 | evidence supersedes other evidence exactly when it is higher in the first in which they differ of cutoff, feature revision, fusion revision and enrichment |
| `CampaignNews.TakenUpIff` | src/scam2market/campaigns/repository.py:371-420 | over every run evidence is taken up exactly if its id is new and its series has no campaign or one whose last evidence is more than the merge gap before, and it opens one, or it supersedes everything the campaign has taken up |
| `CampaignNews.TakenUpInOrder` | src/scam2market/campaigns/repository.py:418-420 | what a campaign has taken up supersedes all it took up before |
| `CampaignNews.NewsIsDue` | src/scam2market/campaigns/repository.py:387-458 | over every run the events about a campaign are its opening and one for each change of stage of the machine run over what it took up, and its stage history holds just those changes |
| `CampaignNews.UpdateTells` | src/scam2market/campaigns/repository.py:371-518 | a call answers with the campaign as it then is, the alerts raised as they then are and the events it added; repeated evidence raises nothing and evidence not taken up is answered as stale |
| `CampaignClosings.RowNewsIsDue` | src/scam2market/campaigns/repository.py:97-240 | the relational repository adds the closing of a campaign, once, by evidence past the merge gap, and its stage history holds every stage |
| `CampaignRuns.AlertRateIsBounded` | src/scam2market/campaigns/repository.py:461-517 | with cooldown S > 0 an alert notifies at most 4 + (last - first)/S times over any run whose cutoffs are event times |
| `CampaignAlerts.AlertsTell` | src/scam2market/campaigns/repository.py:461-517 | in every reachable state there is an alert exactly for the campaigns and kinds that applied evidence raised; it counts the raises, spans their times and has the worst of their severities |
| `CampaignAlerts.SoundingRaisesOnce` | src/scam2market/campaigns/repository.py:461-507 | going through the triggers raises each alert once, from the record it had before, and leaves all others alone |
| `CampaignTables.CampaignRowsTell` | src/scam2market/campaigns/repository.py:57-266 | in every reachable state of the relational repository every row, active or closed, summarises the evidence applied to it: its version counts them and the closing, its severity is their worst, its stage is the machine run over them, and their evaluation orders strictly increase |
| `CampaignTables.AlertRowsTell` | src/scam2market/campaigns/repository.py:268-356 | the alert rows count, span and grade what has raised them, over every run |
| `CampaignEngines.InMemoryCampaignRepository.Apply` | src/scam2market/campaigns/repository.py:371-518 | the whole new state and the result are those of the in-memory step |
| `CampaignEngines.InMemoryCampaignRepository.RaiseEach` | src/scam2market/campaigns/repository.py:461-517 | the loop over triggers leaves the alerts, records, history and events of raising them one after the other |
| `CampaignEngines.SqlCampaignRepository.Acquire` | src/scam2market/campaigns/repository.py:63-77 | the lock is acquired exactly when one of the first retries + 1 attempts gets it, and trying stops there |
| `CampaignEngines.SqlCampaignRepository.Apply` | src/scam2market/campaigns/repository.py:57-266 | the whole new state and result are those of the relational step, or unchanged with a timeout when the lock is never got |
| `CampaignEngines.SqlCampaignRepository.Upsert` | src/scam2market/campaigns/repository.py:268-356 | creates, escalates, refreshes or suppresses one alert row and records its history |
| `Chunker.CutIntoChunks` | src/scam2market/verification/service.py:110-122 | the one-pass loop yields the greedy grouping of the stripped non-empty paragraphs |
| `Chunker.ChunksKeepTheText` | src/scam2market/verification/service.py:110-122 | joining the chunks with newlines gives the paragraphs joined; a chunk over the limit is one paragraph; only a blank body has none |
| `Chunker.GreedyIsAhead` | src/scam2market/verification/service.py:114-121 | no order-preserving division within the limit has fewer groups or, at as many, a shorter last one |
| `Chunker.ChunksAreFewest` | src/scam2market/verification/service.py:110-122 | when all paragraphs fit, all chunks do and no order-preserving grouping within the limit uses fewer |
| `ChunkLaws.ChunksSplitBack` | src/scam2market/verification/service.py:110-122 | the paragraphs of the chunks, one chunk after the other, are those of the body |
| `ChunkLaws.BreakParts` | src/scam2market/verification/service.py:110-111 | a line break parts a text into two whose paragraphs follow one another, whatever stands on either side of it |
| `ChunkLaws.LineIsParagraph` | src/scam2market/verification/service.py:110-111 | text without a line break is one paragraph, stripped, unless it is blank |
| `ChunkLaws.StripIs` | src/scam2market/verification/service.py:110-111 | stripping takes the white space off both ends, all of it, and nothing else |
| `Disclosures.InMemoryVerificationRepository.PersistDisclosure` | src/scam2market/verification/repository.py:465-472 | stores under the carried version exactly when that key is free |
| `Disclosures.InMemoryVerificationRepository.Retire` | src/scam2market/verification/repository.py:519-526 | rewrites exactly the entries of the identified disclosure as SUPERSEDED |
| `Disclosures.InMemoryVerificationRepository.PersistVersioned` | src/scam2market/verification/repository.py:474-528 | stores the next version with its link, identity and timestamps and retires the last, or nothing when the content is unchanged |
| `Disclosures.InMemoryVerificationRepository.GroupUp` | src/scam2market/verification/repository.py:536-546 | files every document under its source and key in order of insertion |
| `Disclosures.InMemoryVerificationRepository.FindCandidates` | src/scam2market/verification/repository.py:528-591 | lists the relevant chunks of each document's best available version and all later ones, ordered by publication |
| `DisclosureLaws.RunHoldsChains` | src/scam2market/verification/repository.py:474-528 | after every run of versioned arrivals the store holds for each document exactly the chain of its content changes, and nothing else |
| `DisclosureLaws.VersionsAreSound` | src/scam2market/verification/repository.py:490-528 | versions are 1..n, adjacent contents differ, each links to its predecessor, all but the last are SUPERSEDED |
| `DisclosureLaws.LastStatusIsAsItCame` | src/scam2market/verification/repository.py:505-518 | in memory the last version keeps the status it arrived with |
| `DisclosureRows.RowsAreMemory` | src/scam2market/verification/repository.py:131-191 | the relational store runs as the in-memory one would if every document arrived CURRENT |
| `DisclosureRows.OnlyLastIsCurrent` | src/scam2market/verification/repository.py:161-191 | in the relational store exactly the last version of every document is CURRENT, however it arrived |
| `DisclosureRows.OnlyLastIsCurrentInMemoryIff` | src/scam2market/verification/repository.py:505-528 | in memory that is so exactly when the last change arrived CURRENT |
| `DisclosureRows.MemoryCanHaveNoCurrent` | src/scam2market/verification/repository.py:505-528 | a document that arrives SUPERSEDED has no CURRENT version in memory and one in the relational store |
| `DisclosureLaws.AsOfReadsThePast` | src/scam2market/verification/repository.py:549-562 | on a clock that does not run back, the version selected as available at a time is the one that was last, and CURRENT, after all arrivals by then |
| `DisclosureRows.RowsReadThePast` | src/scam2market/verification/repository.py:131-191 | in the relational store that holds whatever statuses documents arrive with |
| `ClaimVerifier.VerdictIff` | src/scam2market/verification/service.py:202-242 | each outcome with the exact condition for it, and the risk: 1.0 when opposed, 0.15 when backed, 0.75 when only followed, 0.90 when complete with candidates, 0.50 otherwise; the legitimate-event score is the highest reliability of timely support and zero otherwise |
| `CandidateLaws.EvidenceIsMatching` | src/scam2market/verification/service.py:203-227 | whatever the verdict its evidence is exactly the candidates similar and reliable enough, each as often as it is one: support in time, then conflict in time, then what came later |
| `CandidateLaws.ItemTells` | src/scam2market/verification/service.py:495-533 | an item scores the similarity weighed by reliability, held to [0, 1], and tells its relation and whether it was there in time |
| `CandidateLaws.SummaryIsGravest` | src/scam2market/verification/service.py:319-331 | a summary has the gravest outcome, the greatest risk and the greatest legitimate-event score of its claims |
| `CandidateLaws.SelectedIsChosen` | src/scam2market/verification/repository.py:549-562 | what is selected is the entries later than the alert and, of each document, the first of the highest version among those in time |
| `CandidateLaws.CandidatesAreChunks` | src/scam2market/verification/repository.py:563-590 | the candidates are exactly the chunks of the chosen documents of the asset, or of none, published from lookback before to future after the alert, each with the times, version and reliability of its document |
| `CandidateLaws.CandidatesAreSorted` | src/scam2market/verification/repository.py:591 | and come by time of publication, then by identity |
| `CandidateLaws.GroupNames` | src/scam2market/verification/repository.py:536-548 | a document is filed under its logical key, else its source policy, else its source, and under its document key or else its source document; an empty key is none |
| `ClaimVerifier.BuildEvidence` | src/scam2market/verification/service.py:495-533 | one item for each disclosure and relation, made of its first candidate in the ranking, ranked 1..n |
| `ClaimVerifier.EvidenceIsTheClosest` | src/scam2market/verification/service.py:500-533 | the item kept is of a candidate at least as similar to the claim as any other of that disclosure and relation |
| `ClaimVerifier.SelectedIff` | src/scam2market/verification/repository.py:549-562 | selected is exactly what came later and, of what is eligible, the best version of each document |
| `ClaimVerifier.CandidatesHold` | src/scam2market/verification/repository.py:563-591 | the candidates are exactly the chunks of the selected relevant documents |
| `Lookahead.NoLookahead` | src/scam2market/verification/service.py:195-242 | stores that agree on what was available by the alert and hide nothing of it give the same legitimate-event score, and the same result and risk when either is CONFLICTING or SUPPORTED_BEFORE_ALERT |
| `Lookahead.KnownAloneCountsIff` | src/scam2market/verification/repository.py:549-591 | a store offers by the alert exactly the candidates of what was available by then, and judges every claim so, exactly when no document that was not available is chosen over one with text that was |
| `Lookahead.NoLookaheadIff` | src/scam2market/verification/repository.py:549-591 | the stores that agree in hindsight with every store of the same available documents that hides none are exactly those that hide none and in which no two different ones tie for the highest available version; for a dictionary, comparing with dictionaries is enough |
| `Lookahead.StampedHidesNothing` | src/scam2market/verification/repository.py:549-575 | a store whose documents all carry the availability that ingestion stamps hides nothing at any alert |
| `HindsightLaws.LaterArrivalsChangeNothing` | src/scam2market/verification/service.py:195-242 | two live histories that agree up to the alert, whatever they bring after it, give every claim the same verdict in hindsight |
| `HindsightLaws.LiveStoresAreSound` | src/scam2market/verification/service.py:58-80 | stores filled by live ingestion hide nothing, have no ties, and so are free of lookahead |
| `HindsightLaws.UnstampedLookahead` | src/scam2market/verification/repository.py:549-575 | without an availability stamp a document retrieved before and observed after the alert hides the version available at it |
| `HindsightLaws.TiedLookahead` | src/scam2market/verification/repository.py:552-558 | two stamped first versions of one notice from two feeds have two keys and one group, and their order decides the legitimate-event score |
| `HindsightLaws.SummaryDecides` | src/scam2market/verification/service.py:536-544 | a summary is CONFLICTING exactly when a claim is, and SUPPORTED_BEFORE_ALERT exactly when all are |
| `HindsightLaws.SummaryHasNoLookahead` | src/scam2market/verification/service.py:319-338 | claims that are the same in hindsight have summaries with the same score and the same decisive outcomes |
| `Fusion.Fuse` | src/scam2market/intelligence/fusion.py:202-518 | the score, severity, confidence and profile are those of the stages, the trace replays to the score, each adjustment and decision taking it from the stage it names to the next with the direction of the change, contributions sum to the weighted mean and effective weights to 1; it fails only on present inputs of no total weight |
| `Fusion.Explain` | src/scam2market/intelligence/fusion.py:229-263 | the components read the inputs, their contributions add up to the weighted mean, and dividing by no weight fails |
| `Fusion.Adjust` | src/scam2market/intelligence/fusion.py:301-360 | the adjustments replay from the clamped weighted mean to the score after threat uplift |
| `Fusion.Decide` | src/scam2market/intelligence/fusion.py:361-418 | the policy decisions replay from there to the fusion score, and one not applied changes nothing |
| `Fusion.Grade` | src/scam2market/intelligence/fusion.py:430-459 | the severity is demoted where corroboration, confidence or market evidence is missing, without touching the score |
| `FusionBands.SeverityIff` | src/scam2market/intelligence/fusion.py:428-452 | for ordered thresholds: NORMAL exactly under watch; WATCH exactly from watch on and under high or without a market score; CRITICAL exactly from critical on with market 0.65, a corroborating 0.55 and confidence 0.4; HIGH otherwise |
| `FusionBands.BandIff` | src/scam2market/intelligence/fusion.py:520-527 | the severity of a single score by its bands, as market and social anomalies are graded |
| `FusionBands.WeightedIsMean` | src/scam2market/intelligence/fusion.py:220-227 | the weighted score times the weight of the components there are is their weighted sum; it is zero without weight |
| `FusionBands.CalibratedIs` | src/scam2market/intelligence/fusion.py:301-317 | a calibrator is used exactly from a baseline confidence of 0.5 on, and on and into [0, 1] |
| `FusionBands.LegitimacyDiscounts` | src/scam2market/intelligence/fusion.py:326-337 | a legitimate event takes off 35% of the score in proportion to its own score held to [0, 1] |
| `FusionBands.MatchLifts` | src/scam2market/intelligence/fusion.py:338-360 | a match lifts the score by the cap times its score and confidence, to one at most, and nothing else does |
| `FusionBands.ScoreIsHeld` | src/scam2market/intelligence/fusion.py:361-418 | the fused score is the lifted one or the watch floor of market and coordination of 0.65; or 0.01 under HIGH, if that is lower, where market evidence of 0.35 is missing or only a match would make it HIGH |
| `FusionBands.HighIff` | src/scam2market/intelligence/fusion.py:361-459 | HIGH or above takes exactly market evidence of 0.35 and a score before threat context of HIGH |
| `FusionBands.ConfidenceIs` | src/scam2market/intelligence/fusion.py:294-300 | seven times the confidence is the number of inputs there are, times 0.4 and 0.35 of the baseline and 0.25 of the data quality, less 15% for threat context unavailable or stale |
| `FusionBands.SocialRiskIs` | src/scam2market/intelligence/fusion.py:416-426 | social risk is 30% social and 70% coordination, the one there is if one is missing, and none without both |
| `FusionBands.ProfileTells` | src/scam2market/intelligence/fusion.py:453-466 | the profile names the enrichment there is, and each raises the revision by one |
| `FusionLaws.RaisingNeverLowers` | src/scam2market/intelligence/fusion.py:202-459 | raising any present component never lowers the score or the severity, for ordered calibrators and weights of zero too |
| `FusionLaws.LegitimacyNeverRaises` | src/scam2market/intelligence/fusion.py:327-339 | raising the legitimate-event score never raises the score or the severity |
| `FusionLaws.ThreatNeverDecidesHigh` | src/scam2market/intelligence/fusion.py:405-418 | with ordered thresholds a MATCHED threat context gives HIGH or above exactly when the same inputs without it do |
| `FusionLaws.MatchedLowersIff` | src/scam2market/intelligence/fusion.py:361-418 | a MATCHED context lowers the score exactly when the score before it is under HIGH, the market score is at least 0.35, and the score before it, with the floor for corroborated evidence, is above HIGH - 0.01 |
| `FusionLaws.MatchedCanLower` | src/scam2market/intelligence/fusion.py:405-418 | with default settings a score of 0.595 is lowered to 0.59 |
| `FusionLaws.ScoreInRange` | src/scam2market/intelligence/fusion.py:294-418 | score and confidence lie in [0, 1] when the HIGH threshold is at least 0.01 |
| `FusionLaws.MarketEvidenceIsNeeded` | src/scam2market/intelligence/fusion.py:380-459 | HIGH or above needs a market score of 0.35, CRITICAL one of 0.65 with corroboration and confidence |
| `FusionLaws.EnrichmentSupersedes` | src/scam2market/intelligence/fusion.py:460-474 | scoring a revision again with enrichment it lacked comes strictly later in the order in which campaigns apply evidence, and with no more never does |
| `TokenBucket.RateLimiter.Request` | src/scam2market/security/rate_limiter.py:12-28 | one run of the script leaves the bucket and gives the answer of the take step |
| `TokenBucket.LivesUntilFull` | src/scam2market/security/rate_limiter.py:47-49 | the time to live is at least the time an empty bucket takes to fill, for all accepted settings |
| `TokenBucket.ExpiryIsInvisible` | src/scam2market/security/rate_limiter.py:19-27 | on one clock no request is answered differently because the key expired |
| `TokenBucket.RateIsBounded` | src/scam2market/security/rate_limiter.py:21-25 | in any stretch of requests at most capacity + refill * elapsed are accepted |
| `TokenBucketLaws.AcceptedIff` | src/scam2market/security/rate_limiter.py:19-25 | on a clock that does not run back, a request is accepted exactly when for every request before it those accepted since and it are no more than the capacity and what has dripped in since |
| `TokenBucketLaws.RemainingIsWhatRemains` | src/scam2market/security/rate_limiter.py:24-27 | of further requests at the same instant exactly as many are accepted as the answer says remain |
| `TokenBucketLaws.LifeIsTwiceFilling` | src/scam2market/security/rate_limiter.py:47-49 | the time to live is the whole seconds of twice the time to fill, or one second if that is less |
| `TokenBucket.PatienceIsRewarded` | src/scam2market/security/rate_limiter.py:21-25 | a client that waits for a token to drip in is always let through |
| `TokenBucket.RetryAfterOneSecond` | src/scam2market/security/rate_limiter.py:66-72 | in every run of requests one repeated a second after a rejection is accepted, exactly when a second refills a token |
| `TokenBucket.RejectedTwice` | src/scam2market/security/rate_limiter.py:66-72 | when it does not, a burst of the whole capacity leaves a bucket that rejects at once and again a second later |
| `RowClaims.PickQualifies` | src/scam2market/notifications/service.py:85-108 | rows claimed qualify, are not locked, are claimed once and are no more than the limit |
| `RowClaims.PassedOver` | src/scam2market/notifications/service.py:99-103 | a qualifying free row is passed over only for a full batch of rows due no later |
| `RowClaims.PickedInOrder` | src/scam2market/notifications/service.py:99-103 | rows are claimed in the order of their keys |
| `Notifications.NotificationService.Enqueue` | src/scam2market/notifications/service.py:35-73 | adds one row for each matching channel that has none for the event |
| `Notifications.NotificationService.ClaimDue` | src/scam2market/notifications/service.py:85-108 | claims exactly the due unlocked rows that come first, counting an attempt |
| `Notifications.NotificationService.Finalize` | src/scam2market/notifications/service.py:110-132 | settles a row only while it is PROCESSING, as DELIVERED, RETRY with backoff or FAILED, and leaves no trace if it raises before its commit |
| `Notifications.NotificationService.DeliverOne` | src/scam2market/notifications/service.py:77-82 | sends and finalises in one try: if either raises, the delivery is finalised again as a failure |
| `Notifications.NotificationService.DeliverDue` | src/scam2market/notifications/service.py:75-83 | claims what is due and delivers one after the other until an error in recording a failure escapes |
| `NotificationRuns.RunsAreSound` | src/scam2market/notifications/service.py:85-132 | under any interleaving of workers, sends and finalisations that succeed or raise, and crashes, every row and every claim agree with the history |
| `NotificationRuns.DeliveryIsSafe` | src/scam2market/notifications/service.py:85-132 | at most one unfinalised claim and 5 attempts; sent at most once for each; DELIVERED only after an accepted send and marked so at most once; accepted at most once more than finalisations of it were lost; FAILED no sooner than 150 s after the first failure |
| `NotificationRuns.SettledStays` | src/scam2market/notifications/service.py:118-132 | DELIVERED and FAILED are never left; nor is a PROCESSING row without a claim ever touched again |
| `NotificationClaims.CanSettleIff` | src/scam2market/notifications/service.py:75-132 | a PROCESSING row can still be settled exactly while a worker holds a claim of it |
| `NotificationClaims.CanBeAcceptedIff` | src/scam2market/notifications/service.py:75-132 | after any run a notification can be accepted, for the first time or again, exactly while its row is PENDING or RETRY, or is PROCESSING with a claim that is yet to send or whose failure leaves another attempt |
| `NotificationClaims.ClaimsCanBeLost` | src/scam2market/notifications/service.py:75-108 | a run in which a worker crashes with its claim and the row stays PROCESSING for good |
| `NotificationClaims.SentTwice` | src/scam2market/notifications/service.py:77-82 | a run in which an accepted send whose finalisation raises is sent and accepted again |
| `NotificationClaims.DeliverDueIsARun` | src/scam2market/notifications/service.py:75-83 | one call leaves the rows that a run of claiming, sending, finalising and losing claims leaves |
| `NotificationRuns.QueuedOnce` | src/scam2market/notifications/service.py:54-61 | a channel never has two rows for an event |
| `NotificationRuns.DueIsClaimed` | src/scam2market/notifications/service.py:85-108 | a due free row is claimed unless the batch was filled with rows due no later |
| `NotificationRows.RowTells` | src/scam2market/notifications/service.py:85-132 | in every reachable state, on any clocks, a row tells its own history: how often it was claimed, when it arrived and with what code, the first 2000 characters of its last error unless it arrived, when it is next due, 10 s after its first failure and twice as long after each further one, and as its status what came last, a fifth failure being FAILED |
| `NotificationRows.BatchBreaksOff` | src/scam2market/notifications/service.py:75-83 | a batch ends with the error of the first delivery whose failure could not be recorded, and well exactly without one |
| `NotificationRows.BackoffDoubles` | src/scam2market/notifications/service.py:132 | waiting starts at 5 s, doubles with each attempt and is never more than 900 s |
| `NotificationRows.ClaimedInOrder` | src/scam2market/notifications/service.py:99-103 | rows are claimed in the order in which they were due |
| `Outbox.SqlOutboxRepository.ClaimPending` | src/scam2market/ingestion/repositories.py:506-539 | claims the first claimable unlocked rows by creation, stamping the claim and counting an attempt |
| `Outbox.SqlOutboxRepository.MarkPublished` | src/scam2market/ingestion/repositories.py:541-551 | records the publishing whatever the row's status, unless it raises before its commit |
| `Outbox.SqlOutboxRepository.MarkFailed` | src/scam2market/ingestion/repositories.py:553-559 | records the failure whatever the row's status, unless it raises before its commit |
| `Outbox.OutboxDispatcher.DispatchOne` | src/scam2market/streaming/outbox.py:36-43 | publishes one message, records in its row how that went, and reports an error in recording it |
| `Outbox.OutboxDispatcher.DispatchBatch` | src/scam2market/streaming/outbox.py:34-44 | publishes what it claims one by one and counts the successes; an error in marking a row escapes and abandons the rest |
| `Outbox.BatchSettles` | src/scam2market/streaming/outbox.py:34-44 | a batch leaves each claimed row PUBLISHED or FAILED as its publishing went, up to the first whose marking raises; the rest stays PROCESSING, no other row changes, and the count is of the successes before that |
| `OutboxRuns.RunsAreSound` | src/scam2market/ingestion/repositories.py:506-559 | every step of any interleaving keeps claims, attempts and publishings in agreement |
| `OutboxRuns.OutboxIsSafe` | src/scam2market/ingestion/repositories.py:506-559 | a row is claimed at most 10 times, published at most once for each claim, and PUBLISHED only after a publish |
| `OutboxRuns.NothingIsStuck` | src/scam2market/ingestion/repositories.py:513-539 | an unpublished row with attempts left is claimable at once, or exactly once its claim is over five minutes old, and a dispatcher that then claims it gets it |
| `OutboxRuns.PublishedIsLeftBy` | src/scam2market/ingestion/repositories.py:553-559 | only marking failed by an unpublished claim of the row takes it out of PUBLISHED |
| `OutboxRuns.PublishedIsFinalIff` | src/scam2market/ingestion/repositories.py:541-559 | PUBLISHED can be left exactly when a claim of the row that has not been published is outstanding |
| `OutboxRuns.PublishedCanBeLeft` | src/scam2market/ingestion/repositories.py:541-559 | a run in which a slow dispatcher takes a row out of PUBLISHED |
| `OutboxRows.RowTells` | src/scam2market/ingestion/repositories.py:506-559 | in every reachable state a row tells its own history: how often and when last it was claimed, when last published, the first 2000 characters of the error it was last marked with, or that publishing failed, unless it was published since, and as its status what came last |
| `OutboxRows.RowsAreAdded` | src/scam2market/ingestion/repositories.py:506-559 | the rows are those added, in order, and keep topic, event and time of creation |
| `OutboxRows.ClaimedInOrder` | src/scam2market/ingestion/repositories.py:522-530 | rows are claimed oldest first |
| `OutboxRows.OpenIsClaimed` | src/scam2market/ingestion/repositories.py:506-539 | a row is claimed only if it is free, is PENDING, FAILED or PROCESSING for more than five minutes and was claimed fewer than ten times, and such a row is claimed unless the batch is full of rows no younger; a claim is stamped and counted |
| `OutboxClaims.CanBePublishedIff` | src/scam2market/ingestion/repositories.py:506-559 | in every reachable state a row can be published, for the first time or again, exactly while a dispatcher is about to publish it, or it has attempts left and is not PUBLISHED for good |
| `OutboxClaims.DispatchIsARun` | src/scam2market/streaming/outbox.py:34-44 | one batch leaves the rows that a run of claiming, publishing, marking and losing claims leaves |
| `Clustering.FindClusters` | src/scam2market/narratives/clustering.py:40-79 | the loops over posts and groups yield the greedy grouping, materialised and ordered |
| `Clustering.ClustersPartition` | src/scam2market/narratives/clustering.py:48-79 | the groups hold the posts given, each once |
| `Clustering.ChosenFits` | src/scam2market/narratives/clustering.py:52-71 | a post joins a fitting group none of the fitting ones is closer than, and starts its own exactly when none fits |
| `ClusteringLaws.JoinsIff` | src/scam2market/narratives/clustering.py:52-71 | a post joins exactly the group that, of those with a close enough centroid and no member too far, is closest, has the lesser first id among those as close, and is the oldest among those; it starts its own exactly if there is none |
| `ClusteringLaws.NarrativesGrowInTime` | src/scam2market/narratives/clustering.py:48-71 | however the posts came, members follow in time, and so do narratives by their first members |
| `ClusteringLaws.ListedByName` | src/scam2market/narratives/clustering.py:79 | narratives are listed by the text of their identity |
| `ClusteringLaws.ReportsInFull` | src/scam2market/narratives/clustering.py:90-135 | members are listed by id, the span ends with the last of them, and each author is counted once |
| `Clustering.GroupsAreCoherent` | src/scam2market/narratives/clustering.py:52-71 | each member reached the threshold against the centroid of those before it, and the minimum against each of them |
| `Clustering.MembersAreSimilar` | src/scam2market/narratives/clustering.py:55-63 | any two posts of a narrative have at least the minimum exemplar similarity |
| `Clustering.ArrivalIsIrrelevant` | src/scam2market/narratives/clustering.py:48-79 | posts with distinct ids give the same narratives in whatever order they come |
| `Clustering.ReportsItsMembers` | src/scam2market/narratives/clustering.py:81-135 | a narrative's first post is its earliest, its times span its posts, and it lists their ids |
| `Calibration.Measure` | src/scam2market/model_governance/calibration.py:64-100 | fails exactly on empty or unequal inputs, and otherwise gives the counts, Brier score, calibration error and AUC |
| `CalibrationLaws.OneBin` | src/scam2market/model_governance/calibration.py:83-92 | every probability falls in exactly one bin |
| `CalibrationLaws.EceIsBounded` | src/scam2market/model_governance/calibration.py:71-92 | the square of the expected calibration error is at most the Brier score, whatever the values and bins |
| `CalibrationLaws.FlippingReverses` | src/scam2market/model_governance/calibration.py:133-143 | flipping all labels turns the AUC into one minus it |
| `CalibrationLaws.AucInRange` | src/scam2market/model_governance/calibration.py:133-143 | the AUC lies in [0, 1] |
| `CalibrationRanks.AucCountsPairs` | src/scam2market/model_governance/calibration.py:133-143 | the AUC times the number of pairs of a positive and a negative is the number of those with the positive higher and half of those level; it is 0.5 without such pairs |
| `CalibrationRanks.PerfectIff` | src/scam2market/model_governance/calibration.py:133-143 | the AUC is 1 exactly when there are both outcomes and every positive is above every negative |
| `CalibrationRanks.RaisingAPositive` | src/scam2market/model_governance/calibration.py:133-143 | raising the score of a positive never lowers the AUC |
| `CalibrationRanks.BrierCountsMisses` | src/scam2market/model_governance/calibration.py:70-73 | the Brier score times the number of observations is the sum of the squared distances from what came, and zero exactly when every prediction is certain and right |
| `CalibrationRanks.EceCountsBias` | src/scam2market/model_governance/calibration.py:81-92 | the calibration error times the number of observations is the sum over the bins of the distance of its predictions' sum from its positives, and zero exactly when every bin has none |
| `CalibrationLaws.MappingKeepsAuc` | src/scam2market/model_governance/calibration.py:133-143 | any strictly increasing map of the scores leaves the AUC as it was |
| `SourceQualities.SourceQuality.Observe` | src/scam2market/ingestion/quality.py:50-91 | updates the record field by field to what the observation makes of it |
| `SourceQualities.SourceQualityTracker.Observe` | src/scam2market/ingestion/quality.py:40-92 | updates the one record of the source and asset, made on first sight, and no other |
| `SourceQualityLaws.SequencesBalance` | src/scam2market/ingestion/quality.py:52-60 | over any history of non-negative sequences last - first = (sequenced - 1 - out of order) + gaps, and last is the highest seen |
| `SourceQualityLaws.BalancedIff` | src/scam2market/ingestion/quality.py:52-60 | over any history the sequences are accounted for exactly when no negative number has ever followed a last sequence of zero: a broken balance is never restored |
| `SourceQualityLaws.NegativesUnbalance` | src/scam2market/ingestion/quality.py:59-60 | zero followed by -5 makes -5 the last sequence |
| `SourceQualityLaws.BookTellsHistory` | src/scam2market/ingestion/quality.py:66-88 | the order-book state is a function of the history: the last fault and the clean book updates since |
| `SourceQualityLaws.DegradedIff` | src/scam2market/ingestion/quality.py:89-92 | a source is degraded exactly when its last event was late, had a gap or left the book invalid |
| `SourceQualityRecords.RecordTells` | src/scam2market/ingestion/quality.py:61-65 | over any history the event time is the latest of all, the arrival that of the last observation, the source active once heard of and idle as long as the last thing heard is that it went idle |
| `SourceQualityRecords.ReturnsAreCounted` | src/scam2market/ingestion/quality.py:52-60 | as long as no event has dropped the last sequence below zero, it is the highest and those out of order are the ones not above all before them |

## Left out

- Floating point and `round`: all arithmetic is on reals, so the laws are those of the metrics and scores before rounding.
- The volatility feature is represented by its square, as no square root is needed to compare it.
- Features masked by or computed from source flags: the recomputation and confluence results take the flags a revision recorded, because the program does not rebuild earlier windows when flags change.
- `FeatureEngine.FeatureWindowEngine.IngestSignal`: excludes an engine made without required domains, which can only fail, on the minimum of nothing, at the first reading of the watermarks.
- Parsing and validating JSON checkpoints, and the `latest` query.
- `FeatureStores.FeatureWindowService.Process`: leaves out the state cache and the published feature events, which copy the snapshots it persists.
- `FeatureStores.SqlFeatureRepository.Persist`: leaves out the asset baseline row and the lineage row; a unique violation by a concurrent writer, which the program turns into a refusal.
- Texts of reasons, reason codes, payloads, fingerprints and wall-clock stamps of campaign events.
- `CampaignLaws.MemorySimulatesTables`: campaign.closed events are compared away, because only the relational repository sends them, and so are the results of repeated evidence, which name the campaign it was stored under in one and the current one in the other.
- Acknowledging an alert by hand between evaluations: no run does it; `CampaignNotices.SuppressedIff` says what the next raise makes of such an alert.
- Waiting between attempts for the campaign lock; the attempts and their number are modelled.
- Text similarity, negation, amounts and conflict tests of claims, extraction of claims and explanations: the verifier is proved for any similarity and any conflict test.
- The limit of 500 rows and the source-policy join in the relational candidate query, source coverage beyond its `complete` flag, and the vector index.
- `HindsightLaws.LaterArrivalsChangeNothing`: speaks of live versioned arrivals, whose timestamps are the clock's; for arrivals with kept timestamps there is `Lookahead.NoLookahead`.
- Range validation of fusion results by the schema: `FusionLaws.ScoreInRange` says when the score is in range.
- Missing-output lists, stage signals, scoring services and score persistence around the fusion engine.
- `TokenBucketLaws.AcceptedIff`: takes the clocks of the requests not to run back; `TokenBucket.RateLimiter.Request` says what one request does at any time.
- Redis storing numbers as text, an unavailable Redis and the fail-closed setting of the rate limiter.
- Matching subscriptions to events, building and sending payloads: sends are nondeterministic outcomes.
- `NotificationRuns.DeliveryIsSafe`: takes the clocks of the workers to agree, so that steps happen in the order of their times.
- Centroids, vectors and cosine similarity: `Clustering` is proved for any similarity and centroid, with symmetry where it is needed; labels, summaries and per-post similarities of a narrative.
- `Calibration.Measure`: leaves out the log loss, which needs logarithms.
- Platt scaling and promotion checks: transcendental arithmetic, or comparisons that a reading shows.
- The circuit breaker, authentication, API routes, dashboards, migrations, connectors, Kafka, PostgreSQL, Neo4j, Qdrant, SMTP and replay scheduling.
