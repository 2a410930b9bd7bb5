# KidBoost learning engine in Dafny

KidBoost is an offline-first learning app for young children. This project
models its engine:

- **Spaced repetition.** The SM-2 scheduler steps one item's record per review.
  The daily plan generator draws a ten-activity session from four template
  pools.
- **The local database.** Progress records are kept locally and queued for sync.
  The sync queue drains them to the server in one deduplicated batch. Sync-down
  fetches a child's server records into the local table.
- **The parent dashboard.** It summarises a child's progress into retention
  rates, an efficiency score, the weakest items and a review calendar.
- **The app store.** Its reducers manage the roster of children, the selected
  child, the progress map, sessions, stars, usage minutes and trophies.
- **The bedtime check.**

How the source's values are represented:

- **Numbers.** The ease factor is kept in integer hundredths (2.5 is 250, the
  floor 1.3 is 130), so the SM-2 arithmetic is exact.
- **Dates and clock readings.** Calendar dates are whole day numbers. Clock
  readings are milliseconds.
- **Keys.** Progress is filed under a `(childId, itemId)` pair rather than the
  source's `${childId}_${itemId}` string. `Store.GeneratedKeysUnambiguous` and
  `Store.ArbitraryKeysCollide` show when the two agree.
- **Parameters.** Everything the source reads from the outside world is a
  parameter:
  - the clock, the local date and hour;
  - the orders the random shuffles produce;
  - whether the device is online;
  - whether the server accepts an upsert or returns rows;
  - which queue deletes fail.
- **Classes.** The stateful parts are classes: `Db.Outbox` holds the local
  table, the queue and the server table. `Store.AppStore` holds the store state.
  Each source operation that loops is a method with loop invariants, proved
  against a specification function. The lemmas then state the properties of
  those functions.

| file | models |
|---|---|
| `types.dfy` | the records of `types.ts` |
| `numbers.dfy` | decimal text of numbers; `Number()` on digit strings |
| `safety.dfy` | `isBedtime` (`lib/safety.ts`) |
| `sm2.dfy` | `getInitialProgress`, `calculateSM2` (`lib/sm2.ts`) |
| `constants.dfy` | `TROPHIES`, the `ACTIVITY_TEMPLATES` keys, `getRandomActivity` (`constants.ts`) |
| `plan.dfy` | `generateDailyPlan` (`lib/sm2.ts`) |
| `db.dfy` | `saveProgressLocal`, `processSyncQueue`, `syncDown`, `getLocalProgressMap` (`lib/db.ts`) |
| `analytics.dfy` | `analyzeProgress` (`lib/analytics.ts`) |
| `store.dfy` | the store reducers (`store.ts`) |

## Model

| member | source | states |
|---|---|---|
| `Numbers.DecimalText` | store.ts:135 | the text of a clock reading is a non-empty digit string, of two or more digits from 10 on |
| `Numbers.ParseNumber` | lib/safety.ts:8-9 | models `Number()` on digit strings only: a digit piece is a number, the empty piece is 0, and every other piece is treated as NaN |
| `Numbers.LeadingZero` | lib/safety.ts:8-9 | a leading zero does not change the number a digit piece denotes |
| `Numbers.PaddedText` | lib/safety.ts:8-12 | a number written with any count of leading zeros, as "07", reads as that number |
| `Numbers.ParseDecimalText` | store.ts:135 | reading back the text of a number gives the number |
| `Numbers.DecimalTextInjective` | store.ts:135 | distinct numbers have distinct texts |
| `Safety.SplitColon` | lib/safety.ts:8-9 | `split(':')` yields at least one piece |
| `Safety.SplitAtColon` | lib/safety.ts:8-9 | splitting `a:b` where `a` has no colon gives `a` followed by the pieces of `b` |
| `Safety.SplitNoColon` | lib/safety.ts:8-9 | a string without colons is a single piece |
| `Safety.MinutesOf` | lib/safety.ts:8-12 | a readable time is a non-negative number of minutes |
| `Safety.ClockReading` | lib/safety.ts:8-12 | `H:M` with digit strings H and M reads as H * 60 + M minutes |
| `Safety.BedtimeWindows` | lib/safety.ts:14-20 | same-day window: the clock must lie in [start, end); otherwise the clock must be at or after the start or before the end; equal times mean bedtime all day |
| `Safety.SwapComplements` | lib/safety.ts:14-20 | exchanging two distinct readable times gives the complementary window |
| `Safety.UnreadableTimes` | lib/safety.ts:3-20 | an empty time is never bedtime. An unreadable start leaves only "before the end". Two unreadable times are never bedtime |
| `Safety.DefaultBedtime` | lib/safety.ts:2-20 | the default window 20:00 to 07:00 is bedtime exactly from 20:00 until 07:00 |
| `Safety.DefaultStart` | store.ts:146 | "20:00" reads as 1200 minutes |
| `Safety.DefaultEnd` | store.ts:147 | "07:00" reads as 420 minutes |
| `SM2.InitialProgress` | lib/sm2.ts:6-18 | a fresh record has interval 0, ease 2.5, no reps, streak or history, is NOVICE and due today, under its own key and well formed |
| `SM2.CeilDiv` | lib/sm2.ts:36 | `Math.ceil(a / b)`: the least integer c with a <= c * b |
| `SM2.CalculateSM2` | lib/sm2.ts:20-72 | the key is kept; the review is appended to the history and today becomes the last review; ease stays at least 1.3; due date = today + interval; mastery follows interval and reps |
| `SM2.SuccessfulReview` | lib/sm2.ts:29-39 | quality >= 3: the interval becomes 1, then 6, then ceil(interval * ease); reps and streak rise by one |
| `SM2.FailedReview` | lib/sm2.ts:40-45 | quality < 3 resets the interval to 1 and reps and streak to 0 |
| `SM2.EaseSteps` | lib/sm2.ts:47-53 | the ease changes by the SM-2 formula clamped at 1.3: +0.10, 0, -0.14, -0.32, -0.54, -0.80 for qualities 5 down to 0 while that stays at or above 1.3, never more than -0.80 |
| `SM2.GrowthOnSuccess` | lib/sm2.ts:36 | with ease >= 1.3, ceil(interval * ease) exceeds any positive interval |
| `SM2.StepKeepsWellFormed` | lib/sm2.ts:20-72 | a well-formed record stays well formed. The new interval is at least one day. A success from reps >= 2 lengthens the interval |
| `SM2.MasteryClasses` | lib/sm2.ts:60-66 | RAPID exactly when interval > 21; FLUENT exactly when 8..21 with reps >= 3; NOVICE otherwise |
| `SM2.FreshItemScenario` | lib/sm2.ts:6-72 | from a fresh item, three successes at quality 5 give intervals 1, 6, 17 and ease 2.7; a failure resets the interval to 1 |
| `Constants.GetRandomActivity` | constants.ts:922-924 | always FLASH_ANIMALS, whatever the age |
| `Constants.TrophyTableComplete` | constants.ts:5-51 | the trophy table lists every trophy exactly once |
| `Constants.TrophyConditionsNest` | constants.ts:5-51 | 7-day streak implies 3-day streak; 500 stars imply 100, and 100 imply the first star; NIGHT_OWL depends only on hour >= 18 |
| `Plan.Shuffled` | lib/sm2.ts:124 | a shuffled pool has the pool's size and elements, and no repeats when the pool has none |
| `Plan.Take` | lib/sm2.ts:125 | `slice(0, n)` is the prefix of length min(n, size) |
| `Plan.Block` | lib/sm2.ts:125-127 | a block has one activity per pick, the i-th tagged with i and using the i-th pick |
| `Plan.PushBlock` | lib/sm2.ts:125-127 | the block's `forEach` appends exactly that block to the plan |
| `Plan.GenerateDailyPlan` | lib/sm2.ts:77-263 | the plan built step by step is the `DailyPlan` specification, for any progress map |
| `Plan.PoolSizes` | lib/sm2.ts:102-256 | pool sizes are 9/14, 16/34, 16/30 and 9/16 below/from age 5 |
| `Plan.PoolsGrowWithAge` | lib/sm2.ts:114-122 | a younger child's pool is a prefix of an older child's |
| `Plan.PhotoPoolDistinct` | lib/sm2.ts:102-122 | the photographic pool has no repeated template and no BREATHE |
| `Plan.CogPoolDistinct` | lib/sm2.ts:131-173 | the cognitive pool has no repeated template and no BREATHE |
| `Plan.FastPoolDistinct` | lib/sm2.ts:183-223 | the fast pool has no repeated template and no BREATHE |
| `Plan.CreativePoolDistinct` | lib/sm2.ts:233-256 | the creative pool has no repeated template and no BREATHE |
| `Plan.AssembleStructure` | lib/sm2.ts:98-260 | from long-enough orders without repeats: 10 activities in block order; distinct ids; distinct templates within each block; BREATHE only first |
| `Plan.PlanLayout` | lib/sm2.ts:89-262 | a plan is BREATHE, 2 photo, 3 cognitive, 3 fast, 1 creative, all ids carrying the one clock reading and pairwise distinct |
| `Plan.PlanTemplates` | lib/sm2.ts:102-260 | each activity's template comes from its block's pool for the child's age; no block repeats a template; BREATHE only as warm-up |
| `Plan.AssembleDrawsFrom` | lib/sm2.ts:124-260 | templates drawn from shuffled pools belong to those pools |
| `Plan.PlanFacts` | lib/sm2.ts:102-258 | the shuffled pools are long enough, repeat nothing and hold no BREATHE |
| `Db.Upserted` | lib/db.ts:33 | `bulkPut` keeps every record under its own key |
| `Db.LastWith` | lib/db.ts:78-82 | the last record of a batch with a given key, or none when no record has it |
| `Db.UpsertedLookup` | lib/db.ts:33 | after a bulk put a key holds the last record written to it, else what it held |
| `Db.UpsertedAppend` | lib/db.ts:33 | putting a and then b is putting a + b |
| `Db.UpsertedOverlay` | lib/db.ts:78-86 | upserting a batch is overlaying its deduplicated map, later records winning |
| `Db.UpsertIdempotent` | lib/db.ts:84-86 | upserting the same batch twice equals upserting it once |
| `Db.PendingIds` | lib/db.ts:53 | the query returns exactly the pending jobs, in ascending id order |
| `Db.KindIds` | lib/db.ts:65-72 | the ids of one job kind, and nothing else |
| `Db.DrainedJobs` | lib/db.ts:49-109 | a drain only removes jobs or flips their status; it adds no job |
| `Db.OthersStillQueued` | lib/db.ts:57-101 | before the second loop, each non-progress job is still queued as its pending self marked processing |
| `Db.DrainSteps` | lib/db.ts:56-108 | marking, the batch step and the delete loop compose to `DrainedJobs` |
| `Db.DrainStepsAt` | lib/db.ts:56-108 | the same, for one job id |
| `Db.NothingClaimed` | lib/db.ts:53-54 | with no pending job a drain changes neither queue nor server |
| `Db.DrainKeepsIds` | lib/db.ts:49-109 | a drain keeps job ids below the next id, marks nothing failed, and keeps server records under their keys |
| `Db.MergeKeyConsistent` | lib/db.ts:125-127 | writing fetched rows over the local table keeps records under their keys |
| `Db.RefusedBatchKeepsJobs` | lib/db.ts:92-108 | a refused upsert keeps every progress job queued as it was (processing when its batch was empty), deletes other claimed jobs unless their delete fails, and leaves the server unchanged |
| `Db.RefusedBatchReplays` | lib/db.ts:50-108 | after a refused upsert, whichever other deletes fail, the next drain sends the same batch; a refused drain followed by an accepted one leaves the server as one accepted drain does |
| `Db.FailedBatchRetries` | lib/db.ts:92-97 | a refused upsert with the other deletes failing leaves queue and server exactly as before |
| `Db.StoredBatchClearsQueue` | lib/db.ts:75-91 | an accepted batch removes every claimed progress job, leaves unclaimed jobs alone, and stores each key's last record |
| `Db.QueuedLast` | lib/db.ts:36-41 | a newly queued progress job's payload ends the next batch |
| `Db.Fetched` | lib/db.ts:114-123 | the fetched rows of a key-consistent server table are key consistent |
| `Db.SeparateJobs` | lib/db.ts:60-72 | the loop yields the progress jobs' ids and payloads and the other ids, in claim order |
| `Db.Dedupe` | lib/db.ts:78-82 | the deduplication map keeps the last record per key |
| `Db.Outbox.constructor` | lib/db.ts:14-27 | an empty, valid database whose first id is 1 |
| `Db.Outbox.ProcessSyncQueue` | lib/db.ts:49-109 | offline: nothing changes; online: the queue becomes `DrainedJobs` and the server `DrainedRemote`; the local table is untouched |
| `Db.Outbox.SendBatch` | lib/db.ts:74-98 | an accepted batch upserts its records and deletes its jobs; a refused batch restores those jobs as they were before the claim |
| `Db.Outbox.DeleteOtherJobs` | lib/db.ts:100-108 | each other job is deleted, or put back to pending when its delete fails |
| `Db.Outbox.SaveProgressLocal` | lib/db.ts:31-47 | records go to the local table; one pending job holding them is queued under the next id; the queue is drained when online |
| `Db.Outbox.SyncDown` | lib/db.ts:111-130 | offline: no timestamp and no change. Online: returns the clock reading. A successful non-empty fetch is written over the local table |
| `Db.Outbox.GetLocalProgressMap` | lib/db.ts:132-139 | exactly the child's local records, each under its key |
| `Db.SavedRecordsReachServer` | lib/db.ts:31-109 | saved online with the upsert accepted: the server then holds, for every saved key, the record the local table holds |
| `Db.FullSyncDownMirrors` | lib/db.ts:111-127 | a full sync-down leaves each of the child's server records in the local table |
| `Analytics.OfChild` | lib/analytics.ts:21 | exactly the child's records: each of them kept as often as it occurs in the input, and no other record |
| `Analytics.InsertByEase` | lib/analytics.ts:101 | insertion adds exactly the new item |
| `Analytics.InsertBounded` | lib/analytics.ts:101 | inserting below a bound keeps every ease below it |
| `Analytics.InsertKeepsSorted` | lib/analytics.ts:101 | inserting into an ascending list keeps it ascending |
| `Analytics.SortByEase` | lib/analytics.ts:101 | the sort is ascending by ease and a permutation of its input |
| `Analytics.AnalyzeProgress` | lib/analytics.ts:20-104 | the loop computes exactly the specified totals, retentions, efficiency, five weakest and calendar of the child's records |
| `Analytics.ScanStep` | lib/analytics.ts:59-82 | one review raises each window count it falls in and its day's tally by one |
| `Analytics.ScanHistory` | lib/analytics.ts:59-82 | the history loop continues the window counts and day tallies over the item's reviews |
| `Analytics.RoundHalfUpRange` | lib/analytics.ts:96-98 | rounding a ratio in [0, 100] stays in [0, 100] and within one half of it |
| `Analytics.RetentionIsRoundedPercentage` | lib/analytics.ts:96-97 | retention is the success percentage rounded to nearest, in [0, 100], and 100 with no reviews |
| `Analytics.WindowCounts` | lib/analytics.ts:61-74 | successes <= reviews; 7-day counts <= 14-day counts <= all reviews |
| `Analytics.MasteredAtMostTotal` | lib/analytics.ts:36-39 | mastered items never exceed the items |
| `Analytics.EfficiencyRange` | lib/analytics.ts:90-93 | efficiency is in [0, 100]: 0 at average ease <= 1.3, 100 at >= 3.0, 71 with no items |
| `Analytics.EfficiencyMonotone` | lib/analytics.ts:92-93 | a higher ease total never lowers efficiency |
| `Analytics.TakeOfSorted` | lib/analytics.ts:101 | the first n of an ascending list are no greater than any element left out |
| `Analytics.WeakestAreLowest` | lib/analytics.ts:101 | the report shows min(5, n) weak items, ascending, none easier than any left out |
| `Analytics.WeakListEntries` | lib/analytics.ts:42-56 | each weak entry comes from a struggling record and carries its remediation |
| `Analytics.WeakListComplete` | lib/analytics.ts:42-56 | every struggling record of the child is in the weak list |
| `Analytics.RemediationChoice` | lib/analytics.ts:45-48 | abacus exactly for ids with a digit; colour matching exactly for '#' ids without digits; flash cards only for ids of at most three characters |
| `Analytics.TallyCounts` | lib/analytics.ts:76-82 | the calendar has exactly the days with reviews, each with its count and quality sum |
| `Analytics.TallyTotal` | lib/analytics.ts:76-82 | the day counts add up to the number of reviews: each review is counted on exactly one day |
| `Analytics.CalendarAverages` | lib/analytics.ts:85-88 | a day's average is its quality sum over its positive count |
| `Analytics.SummaryBounds` | lib/analytics.ts:95-101 | retentions and efficiency in [0, 100]; mastered <= total; at most five weak items |
| `Store.Replaced` | store.ts:274-276 | the roster keeps its size and ids; entries with the child's id become the child, and every other entry is unchanged |
| `Store.Patched` | store.ts:163-165 | the roster keeps its size; entries with the id become the patched entry, and entries of other ids are unchanged |
| `Store.Without` | store.ts:175 | exactly the children of other ids remain, each as often as in the roster and in roster order |
| `Store.Unlocks` | store.ts:260-266 | exactly the listed trophies the child lacks and has earned, without repeats |
| `Store.ChangedItems` | store.ts:239-245 | one record per result, each under its (child, item) key |
| `Store.ScoredStep` | store.ts:239-245 | one more result appends its record, computed from the map as left so far, and stores it under its key |
| `Store.ReviewStep` | store.ts:239-245 | the same at position i of the results |
| `Store.ReviewAll` | store.ts:236-245 | the loop yields exactly the specified changed records and updated map, key consistent |
| `Store.AppStore.constructor` | store.ts:20-33 | nobody signed in, no child, empty progress, sync mark 0, idle session |
| `Store.AppStore.CheckSessionExpiry` | store.ts:59-78 | an expired session becomes idle; nothing else changes |
| `Store.AppStore.AddChild` | store.ts:131-159 | with a parent signed in, the new child with defaults is appended; otherwise nothing changes |
| `Store.AppStore.UpdateChild` | store.ts:161-170 | the patch is spread over roster entries and the current child with that id; an id-keeping patch keeps them in step |
| `Store.AppStore.DeleteChild` | store.ts:172-178 | the child leaves the roster and is deselected; the current child stays in step with the roster |
| `Store.AppStore.SetChild` | store.ts:181-198 | selects the child and leaves parent mode. For a child: syncs down from the sync mark, advances the mark, and loads the child's local records when there are any |
| `Store.AppStore.LoadChild` | store.ts:185-196 | the sync-down continuation: local table, sync mark and progress map as `setChild` leaves them |
| `Store.AppStore.RefreshProgress` | store.ts:192-195 | the child's local records replace the map when non-empty |
| `Store.AppStore.StartSession` | store.ts:202-217 | with a child selected, opens a session on that child's daily plan, started now |
| `Store.AppStore.CompleteActivity` | store.ts:219-230 | moves to the next index and records the current activity's id, or `undefined` past the end |
| `Store.AppStore.SubmitActivityResults` | store.ts:232-251 | with a child: the map gets the SM-2 records; the database stores them and queues one job for them, drained when online |
| `Store.AppStore.CheckTrophies` | store.ts:253-285 | returns the child's new unlocks in table order and adds them to the child and its roster entry |
| `Store.AppStore.QuitSession` | store.ts:287-296 | the session becomes idle; nothing else changes |
| `Store.AppStore.AddStars` | store.ts:298-326 | stars are added to the child and its roster entry, and to a running session's tally |
| `Store.AppStore.IncrementUsage` | store.ts:328-354 | minutes are added to today's usage, restarting from 0 on a new day, in the child and its roster entry |
| `Store.PatchKeepsInStep` | store.ts:161-170 | a patch keeping the id keeps current child and roster entry equal |
| `Store.SessionLifetime` | store.ts:59-78 | a session started at t expires exactly after t + 4 h, stays expired, and the idle session never expires |
| `Store.CompletingInOrder` | store.ts:219-230 | k completions of a fresh session record the first k ids in order; one past the end records `undefined` |
| `Store.ChildIdsDistinct` | store.ts:135 | distinct clock readings give distinct child ids |
| `Store.NewChildDefaults` | store.ts:134-151 | a new child has a name, non-zero age and limit, co-play exactly under 4, nothing earned, and bedtime 20:00 to 07:00 |
| `Store.UnlocksSnoc` | store.ts:260-266 | scanning one more trophy appends it exactly when it is unlocked |
| `Store.UnlocksNone` | store.ts:260-266 | trophies held or not earned unlock nothing |
| `Store.NewChildTrophies` | store.ts:253-285 | a new child unlocks only NIGHT_OWL, and only from 18:00 |
| `Store.TrophiesUnlockOnce` | store.ts:260-272 | unlocked trophies never repeat, and an immediate second check unlocks nothing |
| `Store.CountersAccumulate` | store.ts:298-345 | stars add up; same-day usage adds up; a new day counts only the new minutes |
| `Store.PatchesCompose` | store.ts:164 | spreading p then q is spreading their merge; spreading p twice is spreading it once |
| `Store.ReplacedTwice` | store.ts:274-276 | replacing twice keeps the later child, and the child is found on the roster after |
| `Store.WithoutAbsent` | store.ts:175 | deleting a child not on the roster changes nothing |
| `Store.WithoutIdempotent` | store.ts:175 | deleting twice is deleting once |
| `Store.ScoredHistory` | store.ts:239-245 | each key of the child holds its old history followed by this call's reviews of that item, in order |
| `Store.HistoryUpdate` | store.ts:243 | storing a record whose history extends the stored one affects only that key's history |
| `Store.ScoredKeys` | store.ts:239-245 | reviewed items of the child are present afterwards; every other key keeps its record or absence |
| `Store.ScoredWellFormed` | store.ts:239-245 | reviews keep every record of the map well formed |
| `Store.FirstSyncLoadsServer` | store.ts:187-195 | a first successful sync loads a non-empty map holding every server record of the child |
| `Store.SameWritesKeepAgreement` | store.ts:243-248 | the store map and the local table agree on a key after the same writes if they did before |
| `Store.GeneratedKeysUnambiguous` | store.ts:240 | for generated child ids the string key determines child and item |
| `Store.ArbitraryKeysCollide` | store.ts:240 | for arbitrary ids two different pairs share a string key |

## Left out

- Floating point. The ease is exact in hundredths. Calendar averages and the
  session-hours test use exact reals. Rounding is exact rational rounding,
  halves up, as `Math.round` does for the non-negative values involved.
- Dates and time zones. `new Date()`, `toISOString()` and date parsing are
  modelled by day numbers: a date string is the UTC day, and a review date is
  that day's midnight. `lastUsageDate` is likewise a day number.
- Clock, hour and randomness. `Date.now()`, the local hour and minute, and the
  orders `sort(() => 0.5 - Math.random())` produces are parameters. One clock
  reading serves every id of a plan, where the source reads the clock once per
  activity. The shuffle is any permutation; its distribution is not modelled.
- Template content. The title, type, duration and config of each template are
  left out. A template is its key, which also stands in for `findTemplateKey`.
- Plan.PlanTemplates: states distinct templates within each block, not across
  blocks. The source promises neither.
- Analytics.SortByEase: states ascending and a permutation, not that equal eases
  keep their input order, which the stable built-in sort preserves.
- Analytics.AnalyzeProgress: takes the map's values as a sequence in the
  caller's order, since `Object.values` enumeration order is not modelled. The
  averaging loop over the calendar is written as a map comprehension.
- Numbers.ParseNumber: models `Number()` on digit strings only (the empty string
  is 0). Strings with signs, surrounding spaces, decimals or exponents, which
  `Number()` reads as numbers, are treated as NaN. The default bedtime strings
  "20:00" and "07:00" are digit strings.
- Analytics.RemediationChoice: `|s|` counts Unicode scalar values, while `length` in the
  source counts UTF-16 code units. The remediation test `itemId.length > 3`
  therefore differs for ids with characters outside the Basic Multilingual
  Plane: an id of two astral emoji is "Memory Grid" in the source and flash
  cards in the model.
- Asynchrony. Every `await` and `.then` runs to completion inside the calling
  operation. `setChild`'s continuation runs as `LoadChild` then
  `RefreshProgress`. The unawaited `saveProgressLocal` and `processSyncQueue`
  calls also complete before the reducer returns. Interleavings of concurrent
  drains and store updates are not modelled.
- Infrastructure. Dexie and Supabase internals, the Zustand `persist`
  middleware (localStorage) and the browser online/offline listeners of
  `initializeSync` are not modelled. Failures of local `bulkPut`, `bulkDelete`
  and `add` are not modelled: only the server upsert, the fetch and the per-job
  queue deletes can fail.
- Other store operations: `setSyncStatus`, `initializeSync`, `login`,
  `verifyOtp`, `logout`, `updateUserConsent` and `toggleParentMode` are
  authentication, UI or listener plumbing and are not modelled.
- Db.DrainedJobs: when the pending progress jobs carry no records, they stay
  marked processing, as in the source. The model states this and does not
  correct it.
- Store.AppStore.UpdateChild: a patch is a set of present fields. Spreading an
  explicit `undefined` value over a field is not modelled.
- Store.AppStore.AddStars: `earnedStars || 0` is modelled as `earnedStars`,
  which is always a number in the model.
- Store.AppStore.SetChild: `syncDown`'s `updatedAt > since` filter is applied
  to the server table inside the model, not as a remote query.
- Store.AppStore.CheckTrophies: the trophy conditions are modelled as the fixed
  table's conditions, with the hour passed in.
