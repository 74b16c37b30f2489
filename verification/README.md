# Verified model of the Brawl Stars playbook crawler

The repository crawls player profiles and battle logs, stores them in PostgreSQL, and answers win
rate queries over them.  This project models the parts in which many workers share state and in
which counts have to come out right, and proves what they promise:

- **The crawl queue** (`CrawlQueue`, `Worker`, `Crawler`, `Leases`, `LeaseSafety`, `Waiting`,
  `Retries`).  `crawl_targets` is a work queue with generations and ten-minute leases.
  `CrawlQueue.CrawlTargets` is the table object with the queries of `crawl.go`, `sampling.go` and
  `EnqueueDiscoveredPlayer`.  `Worker.Step` is RunOnce as a state machine in which any number of
  workers, the clock, cancellation and discoveries interleave; every theorem about it quantifies
  over all event sequences, with API replies, database faults, lost commits and random draws chosen
  freely.  `Crawler.CrawlWorker` is RunOnce as sequential code with everybody else acting between
  its steps and battle log entries, proved to be a run of that machine; its battle loop runs
  `Ingestion.BattleIngestor` on the same queue.
- **Reservoir sampling** (`Population`, `NoCap`, `Rejections`, `Reservoir`, `Uniformity`,
  `Consecutive`).  The bound on active players per trophy bucket under interleaving, exactly when a
  rejection is honoured, and uniformity of the sample, counted over all draw sequences of the real
  machine and for every schedule of everything else.
- **The scheduler and the pacer** (`Scheduler`, `Pacer`).
- **Battle ingestion** (`Fingerprint`, `Tags`, `Ingestion`, `Confluence`, `Completion`, `Dedup`,
  `BattleLog`, `Discovery`, `Ceiling`).  `IngestBattle` is a sequence of single statements without a
  transaction. `Ingestion.BattleIngestor` executes it with loops and faults; `Confluence` proves
  that any statement-level interleaving of partial and complete ingestions of one battle leaves what
  one ingestion leaves.
- **Analytics** (`Analytics`, `Queries`, `AnalyticsLaws`, `FairPlay`, `TeamOrder`).  The two
  queries, what their totals owe each other, rounding, and zero-sum results over every database
  filled by ingestions whose logs agree or that ran to their ends one by one.

`Collections` and `Domain` hold shared definitions.  What an operation does is stated twice: by the
function that the proofs use, and in the columns of the tables, without naming that function, so
that the two have to agree (`CrawlQueue.SamplingColumns`, `Retries`, `Tags`, `Queries`).

## Where the code differs from its comments

The model follows the code, and the difference is stated as a theorem.

- At the active-target ceiling the worker sets the discovery budget to 0
  (`internal/crawler/worker.go:200`), which the ingestor reads as unlimited
  (`internal/ingestion/battle_ingestor.go:244`): discovery is not disabled, its limit is lifted.
  A complete ingestion then enqueues nobody if and only if every participant is queued already or is
  the discoverer, and at most the configured number if and only if at most so many are new
  (`Ceiling.CeilingLiftsLimit`); for every limit and every queue some entry exceeds it
  (`Ceiling.CeilingExceedsLimit`).
- A classification that reports an error is handled as "kept active", but one whose commit failed
  still hands its verdict on (`internal/storage/queries/sampling.go:118`,
  `internal/crawler/worker.go:172-181`): the player ends inactive, if his crawl's finalization takes effect,
  exactly when the verdict was to reject and the transaction got as far as its commit (`Rejections.ErrorDeactivatesIff`), in a run from the
  start even without ever having been classified (`Rejections.LostCommitDeactivates`).
- A rejection is honoured exactly when the battle log is stored and the final commit is applied to a
  claim that is still the current one, whatever others do in between
  (`Rejections.RejectionHonouredIff`).  So the bucket cap holds up to outstanding rejections, and a run
  from the start ends with nobody in flight and the cap exceeded (`Rejections.CapExceeded`).
- `RunN` processes "exactly total" targets in all clean runs if and only if there is one worker
  (`Scheduler.ExactIffAlone`); otherwise total + workers - 1 is reached (`Scheduler.RunNOvershoots`).
- "ratePerMin requests per minute" holds for all arrivals exactly when the rate divides the
  nanoseconds of a minute (`Pacer.RateKeptIffItDivides`).
- The fingerprint ignores team order while team rows are keyed by it: logs that list the teams the
  other way round flip stored results exactly when the result was decisive
  (`Completion.SwappedTeamOrder`).  Re-collection repairs a broken-off battle always when the log lists
  the teams as stored (`TeamOrder.SameOrderRepairs`), and otherwise if and only if equally many rows of
  either team were stored (`TeamOrder.SwappedRepairsIff`): after broken-off attempts at one log, if and
  only if they stored nobody or everybody (`TeamOrder.AttemptsThenSwapped`).  If it does not, nothing
  ever does (`TeamOrder.LopsidedForGood`).
- In modes with teams a brawler id of 0 is stored as it is, so an entry with such a member is
  ingested completely only if a brawler 0 exists or another log has stored a row for him (`Completion.CompletesIff`).

## Model

| member | source | states |
|---|---|---|
| Pacer.Limiter.constructor | internal/ratelimit/limiter.go:20-24 | a fresh pacer is the slot allocation for no calls, with the interval cut to whole nanoseconds |
| Pacer.Limiter.Wait | internal/ratelimit/limiter.go:28-50 | a call is granted the next slot of the schedule; a cancelled call errs but its slot stays spent |
| Pacer.ClosedForm | internal/ratelimit/limiter.go:28-39 | the k-th slot is the maximum over j <= k of now_j + (k - j) * interval |
| Pacer.LeastSchedule | internal/ratelimit/limiter.go:26-39 | the slots keep the interval and precede no call, and are pointwise least among all schedules that do |
| Pacer.MinuteBound | internal/ratelimit/limiter.go:10-12 | any half-open minute holds at most ceil(minute / interval) slots |
| Pacer.RateBound | internal/ratelimit/limiter.go:19-24 | at most ratePerMin + 1 a minute as long as ratePerMin fits into its own interval |
| Pacer.RateKeptIffItDivides | internal/ratelimit/limiter.go:19-24 | the documented limit holds for all arrival patterns if and only if ratePerMin divides the minute |
| CrawlQueue.CrawlTargets.ClaimNextTarget | internal/storage/queries/crawl.go:28-81 | returns nothing iff every active, due and unleased row is locked, else the unlocked one of least priority and then earliest next_crawl_at, leased for ten minutes under the next generation, and changes nothing else |
| CrawlQueue.CrawlTargets.FinalizeCrawl | internal/storage/queries/crawl.go:96-114 | writes the outcome iff the generation is the row's current one, and reports which |
| CrawlQueue.CrawlTargets.OwnershipValid | internal/storage/queries/crawl.go:119-137 | true iff the generation is current and its lease is set and not past; a missing row is an error |
| CrawlQueue.DepthCountsClaims | internal/storage/queries/crawl.go:141-153 | the queue depth is the number of claims that drain the queue: no drain at a frozen clock is longer, and one leaves nothing to claim iff it is that long |
| CrawlQueue.CrawlTargets.EnqueueDiscoveredPlayer | internal/storage/queries/players.go:130-150 | inserts a fresh row or leaves the existing one, and reports which |
| CrawlQueue.CrawlTargets.ClassifyAndSampleTarget | internal/storage/queries/sampling.go:33-119 | classifies once, counts, then keeps, keeps and evicts one idle member, or rejects; sampledOut iff rejected |
| CrawlQueue.SamplingColumns | internal/storage/queries/sampling.go:56-118 | in columns: rejects iff the cap is positive, exceeded and the draw at least cap / seen; evicts iff kept with cap other active members and an idle one; every other column stays |
| CrawlQueue.CrawlTargets.UpdateCrawlProfile | internal/storage/queries/sampling.go:125-137 | refreshes priority and trophies, never the bucket |
| CrawlQueue.DrainOrder | internal/storage/queries/crawl.go:39-72 | claims at a frozen clock return eligible rows once each with nondecreasing priority and, within a priority, nondecreasing next_crawl_at; each lowers the depth by one, and the queue is empty iff all were returned |
| Worker.BackoffRange | internal/crawler/worker.go:362-369 | a retry delay lies between the base interval and seven days |
| Worker.BackoffDoubles | internal/crawler/worker.go:359-369 | the delay starts at the base and doubles with every failure up to seven days |
| Domain.Buckets | internal/domain/buckets.go:24-39 | the bucket boundaries |
| Domain.Priorities | internal/domain/priority.go:9-24 | the priority of each bucket |
| Retries.WaysOut | internal/crawler/worker.go:105-222 | which of a worker's steps lead to a finalization and which end the crawl without one, and that these leave every row as it is |
| Retries.FinalizationWrites | internal/crawler/worker.go:267-322 | from the row as claimed to the row as finalized, amid everybody else: not found waits a day and deactivates, throttled waits five minutes, any other failure counts and waits twice as long as the failure before up to seven days, a stored log waits the interval of the priority handed on; all other columns stay |
| Retries.ProfileWritten | internal/storage/queries/sampling.go:56-137 | an applied classification or profile update writes the fresh priority and trophies, the bucket only the first time; an error hands on the priority of the claim |
| Retries.CompleteCrawl | internal/crawler/worker.go:87-258 | a crawl without failures, with everybody else between all of its steps, schedules the player by the trophies his profile showed and samples him out iff this first classification rejected him |
| Crawler.CrawlWorker.RunOnce | internal/crawler/worker.go:87-258 | every execution among arbitrary others is a run of the machine that leaves nothing in flight; what it returns is decided by the first thing that fails, a shutdown only after a cancellation; it ends in exactly one finalization, for the player and status it reports, or in none; success or sampled_out means that every entry was ingested completely, that the new battles and targets are reported as counted, and that the targets are distinct, new to the queue, never the player, and within the budget the ceiling allowed |
| Crawler.CrawlWorker.CheckOwnership | internal/crawler/worker.go:138-150 | goes on iff the database answers and the lease is still held |
| Crawler.CrawlWorker.HandleReply | internal/crawler/worker.go:105-136 | 401 and 403 halt, a cancelled context shuts down without a finalization, 404, 429 and other errors finalize their outcome |
| Crawler.CrawlWorker.ClassifyOrUpdate | internal/crawler/worker.go:161-191 | the sampling verdict and priority handed on are those of the machine, for every fault of the transaction |
| Crawler.CrawlWorker.DiscoveryLimit | internal/crawler/worker.go:193-204 | the configured limit, or 0 when a ceiling is set and the count of active targets was read and has reached it |
| Crawler.CrawlWorker.StoreEntry | internal/crawler/worker.go:206-221 | after the others' writes, an entry succeeds iff it is ingestible, its statements are carried out and no foreign key fails; it is new iff its fingerprint was not stored, and its discoveries are accounted for |
| Crawler.CrawlWorker.StoreBattles | internal/crawler/worker.go:206-222 | succeeds iff every entry's ingestion completes on the tables of its turn; the tables, the count of new battles and the discoveries are then those of the whole log |
| BattleLog.LogIsStored | internal/crawler/worker.go:206-222 | whatever others write in between, after the loop every entry's battle and a row for each of its participants are stored |
| BattleLog.NewIff | internal/crawler/worker.go:218-220 | an entry counts as new iff its battle was not stored before, no other worker stored it since, and no earlier entry has the same time, event and multiset of participants |
| BattleLog.RowsAreNewBattles | internal/crawler/worker.go:218-220 | the battles table grows by exactly the new battles counted and the rows others inserted |
| BattleLog.CountsDifferentBattles | internal/ingestion/battle_ingestor.go:108-122 | from an empty table, IngestBattle's isNew is that of the id-allocating insert, and the count is the number of different battles |
| Crawler.CrawlWorker.FinalizeApiError | internal/crawler/worker.go:267-306 | finalizes not_found, rate_limited or error with the failure count, activity and delay of each |
| Crawler.CrawlWorker.FinalizeTransientError | internal/crawler/worker.go:311-322 | finalizes an error with one more failure and the backoff of the failures before it |
| Leases.StepKeeps | internal/storage/queries/crawl.go:28-114 | every step of every worker keeps the lease invariant |
| LeaseSafety.NoLostUpdates | internal/storage/queries/crawl.go:96-108 | in every reachable state a row is the serial replay of its committed history, and its counters count distinct generations issued and finalized |
| LeaseSafety.LeasesExclude | internal/storage/queries/crawl.go:59-65 | at most one worker holds an unexpired claim on a player, its finalization takes effect, every other claim's changes nothing |
| LeaseSafety.GenerationsOnce | internal/storage/queries/crawl.go:58-72 | each generation is issued and finalized at most once, and crawl_count stays below the generation while a lease is set |
| LeaseSafety.CountersDoNotWrap | db/migrations/000004_crawl_lease.up.sql:1-8 | the 32-bit generation and failure columns are bounded by the five-minute delays passed since discovery |
| Waiting.NoTargetLost | internal/crawler/worker.go:346-369 | in every run that commits nothing for an active row, it is claimable once seven days have passed |
| Waiting.LeaseEnds | internal/storage/queries/crawl.go:39-65 | in every run without a new claim of a row, its lease is over after ten minutes |
| Waiting.PostponedOnce | internal/storage/queries/crawl.go:96-108 | over two stretches of seven days without a claim, a row active at the ends of both is claimable at one of them: the holder of the last claim can restart the wait, but only once |
| Waiting.SevenDaysRestarted | internal/crawler/worker.go:228-239 | in a run from the start an active row is unclaimed for seven days and still not claimable, because its old holder finalized it on the sixth |
| LeaseSafety.AbandonedClaimLeavesRow | internal/crawler/worker.go:80-86 | a shutdown, halt or lost lease leaves status, failures, activity, schedule and crawl count as at the claim, and its generation is never finalized |
| LeaseSafety.DeactivationPermanence | internal/storage/queries/crawl.go:43-45 | an inactive row becomes active in some continuation iff a worker still holds its current generation and can end it active; otherwise it is never claimed again |
| LeaseSafety.IdleDeactivationIsPermanent | internal/storage/queries/sampling.go:95-109 | rows deactivated by a finalize, or evicted without a lease, stay inactive in every continuation |
| Population.ClassifyPopulation | internal/storage/queries/sampling.go:56-118 | one classification never lifts a bucket above cap or its former size unless it rejects, and touches no other bucket |
| Population.PopulationBound | internal/storage/queries/sampling.go:78-118 | with prompt crawls and fewer than cap others leased, active(bucket) <= cap + outstanding rejections in every reachable state |
| NoCap.ClassificationKeepsAll | internal/storage/queries/sampling.go:31-80 | without a positive cap a classification turns nobody over and hands on no rejection |
| NoCap.SamplingIsOff | internal/storage/queries/sampling.go:31-80 | in every run without a positive cap nobody is ever evicted, rejected or finalized as sampled out |
| Rejections.RejectionHonouredIff | internal/crawler/worker.go:206-245 | with everybody else acting in between, a rejected player who is active before the commit ends inactive iff his battle log is stored and the final commit is applied to a claim still current; otherwise the rejection stays outstanding |
| Rejections.CapExceeded | internal/crawler/worker.go:206-222 | a run from the start with cap 1 ends with two active players of the bucket and nobody in flight |
| Rejections.ErrorDeactivatesIff | internal/crawler/worker.go:167-181 | whatever fault the classification reports and whatever others do afterwards, a finalization that takes effect leaves the player inactive iff the verdict was to reject and the transaction reached its commit; among reported errors, iff the commit was lost |
| Rejections.LostCommitDeactivates | internal/storage/queries/sampling.go:115-119 | a run from the start deactivates a player whose classification was rolled back |
| Reservoir.EqualWays | internal/storage/queries/sampling.go:78-118 | every cap-subset of n players is reached by equally many draw sequences |
| Reservoir.ReservoirIsUniform | internal/storage/queries/sampling.go:78-118 | each of the C(n, cap) subsets has the same share of all draw sequences and nothing else results |
| Uniformity.UndisturbedRun | internal/storage/queries/sampling.go:78-118 | events that neither classify into a bucket nor turn its players over leave its members and its active set alone, over any run |
| Uniformity.SchedulesAreReservoir | internal/storage/queries/sampling.go:33-119 | for every schedule of all other events that finalizes each rejection before the next classification, the active populations over all draws are exactly the reservoir's samples |
| Uniformity.SamplingIsUniform | internal/storage/queries/sampling.go:33-119 | under every such schedule, after n >= cap classifications exactly cap players are active and every cap-subset is equally likely |
| Consecutive.ConsecutiveCrawlsAreUniform | internal/crawler/worker.go:167-245 | such schedules exist: crawls one after the other, with each player's own trophies and any pauses and delays within the lease, sample uniformly |
| Scheduler.WorkerPool.CheckContext | internal/crawler/scheduler.go:130-134 | a worker leaves a cancelled pool, and otherwise crawls |
| Scheduler.WorkerPool.HandleReport | internal/crawler/scheduler.go:135-162 | each report of RunOnce updates the shared countdown, halt flag, cancellation and the worker's loop as stated |
| Scheduler.WorkerPool.FinishWait | internal/crawler/scheduler.go:145-151 | a worker waiting on an empty queue retries, or leaves when cancelled |
| Scheduler.RunNCount | internal/crawler/scheduler.go:114-169 | over all interleavings at most total + workers - 1 targets, and at least total unless a worker erred or the caller interrupted |
| Scheduler.RunNOvershoots | internal/crawler/scheduler.go:110-113 | for every total and worker count some complete run reaches total + workers - 1 |
| Scheduler.ExactIffAlone | internal/crawler/scheduler.go:110-169 | all clean runs process exactly total iff there is one worker |
| Scheduler.CancelledIff | internal/crawler/scheduler.go:114-169 | the pool counts what its workers report, and is cancelled iff the caller interrupted it, some RunOnce halted, or the quota is used up; any other error ends only its own worker |
| Scheduler.HaltIff | internal/crawler/scheduler.go:19-108 | the halt error is returned iff some RunOnce returned it, and then every worker's next check ends it |
| Fingerprint.SortStrings | internal/ingestion/fingerprint.go:27-42 | leaves the tags in ascending order, a permutation of what they were |
| Fingerprint.ComputeFingerprint | internal/ingestion/fingerprint.go:27-42 | hashes the canonical preimage of time, event and sorted normalized tags |
| Fingerprint.SortedCanonical | internal/ingestion/fingerprint.go:27-42 | two tag lists sort alike iff they are permutations of each other |
| Fingerprint.PreimageExact | internal/ingestion/fingerprint.go:20-42 | two keys collide iff time, event and multiset of normalized tags agree |
| Tags.NormalizesAlike | internal/ingestion/fingerprint.go:28-31 | two tags normalize alike iff they differ in nothing but a leading '#' and case |
| Tags.NormalForm | internal/apiclient/client.go:116-120 | normalizing drops one '#' and changes letters to upper case, nothing else |
| Tags.NormalizesOnce | internal/apiclient/client.go:116-120 | normalizing twice is normalizing once iff no second '#' follows the first |
| Tags.HashedString | internal/ingestion/fingerprint.go:20-42 | the string that is hashed, for one battle |
| Tags.OneFingerprint | internal/ingestion/battle_ingestor.go:49-76 | two entries get one fingerprint iff time and event agree and the same players took part, each as often |
| Tags.SameIngestion | internal/ingestion/battle_ingestor.go:49-217 | entries that differ only in how their tags are written have the same fingerprint and statements |
| Tags.DiscovererFound | internal/ingestion/battle_ingestor.go:277-317 | the discoverer is found on the first team that lists him however it writes his tag; it gets his result, the others the opposite of a victory or defeat, and all get none if no team lists him |
| Tags.EverybodyCollected | internal/ingestion/battle_ingestor.go:261-272 | every participant's tag is collected, and an entry is ingestible iff its time is readable and somebody took part |
| Ingestion.CollectParticipantTags | internal/ingestion/battle_ingestor.go:261-272 | all raw tags, teams before players |
| Ingestion.ResolveTeamResults | internal/ingestion/battle_ingestor.go:277-306 | the discoverer's first team gets his result, the others the opposite, all of them nothing when he is on none |
| Ingestion.BattleIngestor.DiscoverPlayer | internal/ingestion/battle_ingestor.go:240-257 | enqueues at most a new tag, never the discoverer, within the budget, and counts only insertions |
| Ingestion.BattleIngestor.IngestBattle | internal/ingestion/battle_ingestor.go:49-234 | for every pattern of faults the loops carry out exactly the specified statement sequence up to the first failure; isNew iff the fingerprint was not stored, and the tags found are the rows added to the crawl queue |
| Confluence.SettledMeans | internal/storage/queries/battles.go:101-139 | repeating a statement changes nothing iff its row is there, for a team with that very result |
| Confluence.InterleavingIsOneRun | internal/ingestion/battle_ingestor.go:108-217 | any statement-level interleaving of runs of one sequence leaves what a single run leaves after as many statements as the furthest run |
| Confluence.RetriesRepair | internal/ingestion/battle_ingestor.go:139-180 | once one of any number of broken-off, interleaved attempts completes, every table is as after one undisturbed ingestion |
| Confluence.RepairAfterFailure | internal/ingestion/battle_ingestor.go:104-226 | a failed ingestion followed by a complete one equals the complete one, and complete ingestion is idempotent |
| Confluence.PerspectiveResolves | internal/ingestion/battle_ingestor.go:277-317 | from whoever's log, the two teams get the same results |
| Confluence.PerspectiveConfluence | internal/ingestion/battle_ingestor.go:95-226 | logs of any participants, in any order and interleaving, leave the same events, teams, results, participants, brawlers and battles as any one of them |
| Completion.CompleteIngestion | internal/ingestion/battle_ingestor.go:108-217 | a complete ingestion leaves the battle, every team with its resolved result, and a row for every participant |
| Completion.StoredMember | internal/ingestion/battle_ingestor.go:139-180 | a first ingestion stores a team member's own data, team, star flag and trophy bucket |
| Completion.StoredPlayer | internal/ingestion/battle_ingestor.go:182-217 | without teams there is no team and no star, and brawler 0 leaves all brawler columns empty |
| Completion.StoredBattle | internal/ingestion/battle_ingestor.go:108-122 | a new battle is stored as its first discoverer saw it, unknown duration as none |
| Completion.StoredBrawler | internal/storage/queries/brawlers.go:51-74 | a missing brawler is stored inactive under its own name or BRAWLER_ and its number, an existing one left alone |
| Completion.OthersUntouched | internal/storage/queries/battles.go:39-139 | ingesting one battle changes no row of another |
| Completion.Grows | internal/storage/queries/battles.go:117-139 | battles, participants and brawlers are never changed or removed by later statements |
| Completion.CompletesIff | internal/storage/queries/brawlers.go:51-74 | with a willing database an entry completes iff every team member has a brawler, a brawler 0 exists, or his row is already there |
| Completion.RepeatCompletes | internal/storage/queries/battles.go:117-139 | once every member has a row, any log of the battle is ingested completely |
| Completion.SwappedTeamOrder | internal/storage/queries/battles.go:101-115 | a log from either team that lists the teams the other way round shares the fingerprint, completes, keeps the participants and flips the results, harmless iff the result is not decisive |
| Dedup.BattleStore.InsertBattle | internal/storage/queries/battles.go:39-83 | inserts once per fingerprint and returns the stored id, burning an id on conflict |
| Dedup.DeduplicationIsExact | internal/ingestion/fingerprint.go:20-42 | over any run an insert is new iff no earlier one was the same battle, and ids are equal iff battles are |
| Dedup.NewCountsBattles | internal/storage/queries/battles.go:30-39 | the number of new results is the number of distinct battles |
| Discovery.DiscoveryAccounting | internal/ingestion/battle_ingestor.go:236-257 | over any calls, with other workers between their statements, the inserted targets are distinct, never the discoverer, absent before, counted exactly and within a positive budget; the returned lists miss only those of failed calls |
| Discovery.Undisturbed | internal/ingestion/battle_ingestor.go:139-217 | with nobody in between, a call amid others is the ingestor's own |
| Ceiling.CeilingLiftsLimit | internal/crawler/worker.go:193-204 | a complete ingestion at the ceiling enqueues exactly the newcomers, nobody iff there are none and at most the configured number iff at most so many are new; below it, as many of them as the budget allows |
| Ceiling.CeilingExceedsLimit | internal/ingestion/battle_ingestor.go:244-246 | for every limit and every queue some entry completes at the ceiling and enqueues more than the limit |
| Analytics.BrawlerWinRates | internal/analytics/winrate.go:123-234 | errs iff the mode is ineligible; otherwise the rates of the filtered slots grouped by brawler, above the threshold and in order, with each group's counts and rounded ratios |
| Analytics.MapList | internal/analytics/maps.go:34-105 | errs iff the mode is ineligible; otherwise computes every map with a scored battle, listed once, by descending battles, with its counts |
| Analytics.AnswerExists | internal/analytics/winrate.go:183-202 | grouping, threshold and order always admit an answer |
| Queries.AnswerMeans | internal/analytics/winrate.go:156-202 | in columns: the answer lists the brawlers counted in enough different battles of the mode, type, map and bucket, each once, with distinct battles, victories, defeats and draws, by exact win ratio, undecided ones last, then by battles |
| Queries.RatesMean | internal/analytics/winrate.go:205-227 | slots are wins, losses and draws; win percentages are of decided slots and pick rates of all counted rows, rounded half up, and absent without a denominator |
| Queries.TotalMeans | internal/analytics/winrate.go:156-178 | the totals count the different battles and the rows that match mode, type, map, bucket, attribution and a scored team |
| Queries.MapListMeans | internal/analytics/maps.go:52-84 | in columns: exactly the named maps with a scored battle of the mode and type, with their distinct battles and the brawlers with ten of them |
| Queries.NoAnswerModes | internal/analytics/winrate.go:11-24 | the modes without answers |
| Queries.OtherModesDoNotMatter | internal/analytics/winrate.go:156-178 | databases that agree on the battles of a mode have the same win rate answers for it |
| Queries.OtherModesDoNotMatterToMaps | internal/analytics/maps.go:52-84 | and the same map lists |
| Queries.ModesAddUp | internal/analytics/winrate.go:156-178 | over all modes the slots add up |
| AnalyticsLaws.RunSound | db/migrations/000001_init_core.up.sql:191-205 | no statement sequence breaks a foreign key |
| AnalyticsLaws.TotalsConserved | internal/analytics/winrate.go:156-218 | without a threshold the brawlers' slots add up to TotalSlots, wins to winning rows, losses to losing rows |
| AnalyticsLaws.QueuesAddUp | internal/analytics/winrate.go:60-74 | the competitive slots are the ranked ones and the soloRanked ones without overlap, under any bucket and map filter |
| AnalyticsLaws.BucketsAddUp | internal/analytics/winrate.go:123-154 | over all trophy buckets the slots of the bucket-filtered queries add up to the unfiltered ones, but for the rows without a bucket |
| AnalyticsLaws.MapsAddUp | internal/analytics/winrate.go:123-154 | over all maps the slots of the map-filtered queries add up to the unfiltered ones |
| AnalyticsLaws.ZeroSum | internal/analytics/winrate.go:183-202 | over battles that are two-sided or have no teams the wins of all brawlers equal their losses for any mode, map and type filter |
| AnalyticsLaws.QueriesAgree | internal/analytics/maps.go:28-84 | a map's qualifying brawlers are those the win rate query lists at ten battles; its battles are at least the sample, equal iff every scored battle has an attributed participant on a scored team |
| AnalyticsLaws.SampledMapsAreListed | internal/analytics/maps.go:74-84 | a named map with any sample battle is listed |
| AnalyticsLaws.WinPctOrder | internal/analytics/winrate.go:197-222 | rounded percentages follow the exact order of the ratios, with nulls last |
| AnalyticsLaws.RatesFaithful | internal/analytics/winrate.go:197-226 | every listed percentage and pick rate lies between 0 and 1 and within half a unit of the exact ratio |
| AnalyticsLaws.PickRatesSumToOne | internal/analytics/winrate.go:223-226 | the pick rates of k brawlers add up to 1 within k half-units |
| FairPlay.RepeatedIngestion | internal/ingestion/battle_ingestor.go:139-180 | re-ingesting a fully stored battle from any log, even a contradicting one, keeps it two-sided with opposite results, or without teams |
| FairPlay.TruthfulLogsAgree | internal/ingestion/battle_ingestor.go:277-306 | logs of any participants that report their own true results agree on the teams' results |
| FairPlay.ZeroSumAnalytics | internal/analytics/winrate.go:156-218 | from any database before its first battle, over logs interleaved statement by statement and broken off anywhere that agree battle by battle, with one attempt at each stored two-team battle completed, wins equal losses and slots add up to the total |
| FairPlay.ZeroSumOneByOne | internal/analytics/winrate.go:156-218 | the same for complete ingestions one after the other, whatever the logs say about results and team order |
| TeamOrder.SameOrderRepairs | internal/ingestion/battle_ingestor.go:139-144 | a complete log that lists the teams as stored makes any partly stored two-team battle two-sided |
| TeamOrder.SwappedRepairsIff | internal/ingestion/battle_ingestor.go:139-180 | a complete log that lists them the other way round does so iff equally many rows of either team were stored |
| TeamOrder.AttemptsThenSwapped | internal/ingestion/battle_ingestor.go:139-180 | after any interleaved and broken-off attempts at one log, iff these had stored nobody or everybody |
| TeamOrder.LopsidedForGood | internal/storage/queries/battles.go:117-139 | where it does not, no statements of any logs ever make the battle two-sided |
| TeamOrder.BrokenOffThenSwapped | internal/ingestion/battle_ingestor.go:139-180 | an attempt at any two-team battle that breaks off after its first player, followed by a complete swapped log, leaves it lopsided for good |

## Left out

- Transactions are atomic steps on one clock: clock skew between Go and the database, and races
  between the statements inside the eviction transaction under READ COMMITTED, are not modelled.
- A claim is one step that may take any claimable row in the machine, which covers every way locked
  rows can be skipped; only the table's method returns the first unlocked one.
- SHA-256 is taken as injective: a fingerprint is represented by the string that is hashed.
- The battle time is its formatted token, with parsing reduced to success or failure; tags are
  upper-cased as ASCII.
- Ratios and draws are exact: float64 rounding, the digits PostgreSQL keeps in numeric division, and
  out-of-range conversions to a Duration are not modelled.
- Raw JSON, patch ids, player and brawler snapshots, the `players` table and column widths.
- Ingestion.BattleIngestor.IngestBattle: a statement either happens or not; one that happens and is
  reported as failed is covered because it only lengthens the prefix that was carried out.
- Discovery.DiscoveryAccounting: an enqueue that the database applied but reported as failed counts as
  somebody else's, as it does for the ingestor's own counter.
- Events and teams have surrogate ids in the database; here they are named by their unique keys, and
  only battle ids are modelled (`Dedup`, tied to the ingestor's table by
  `BattleLog.CountsDifferentBattles`).
- FairPlay.ZeroSumAnalytics: a stored two-team battle of which no attempt was completed can be
  unbalanced; a complete ingestion repairs it when the logs agree on team order
  (`Confluence.RetriesRepair`), and under the condition of `TeamOrder.SwappedRepairsIff` when they do not.
- Crawler.CrawlWorker.StoreBattles: other workers write between two entries; what they write between
  the statements of one entry is the subject of `Confluence` and of `Discovery.DiscoveryAccounting`.
- Waiting.NoTargetLost: bounds when a row becomes claimable, not when it is claimed; nothing in
  the code guarantees that low priorities are ever served.
- HTTP, JSON decoding, configuration, logging, statistics tickers, the REST API and the CLI.
- Retired and active brawlers are inserted as placeholders here; `UpsertBrawler` refreshing their
  names is left out, since names do not enter any count.
