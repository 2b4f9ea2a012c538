# Verified model of rustEnrich

rustEnrich is a service that looks up indicators (IP addresses, URLs, file hashes) at two reputation
providers, under provider quotas, with a persistent cache and with concurrent identical lookups shared.
This project models its stateful core and proves what that core promises.

- **Durable quota engine.** `QuotaSpec` gives the rules for one quota row as functions on values;
  `QuotaState` is the row as the code changes it, and `Storage` the storage object, both proved against
  those rules. `QuotaFields` reads the rules off the stored fields: what a report, a grant, a refusal and a
  query make of each of them. `QuotaEngine` is the whole engine as a state machine: two quota groups, a storage gate, a
  durable and a volatile half, a wall clock that may jump either way, feedback submitted between any two
  steps, and commits that fail, land, or land unreported. `QuotaInvariant` shows what every step keeps
  and `QuotaTheorems` what holds over every run. `QuotaDelay` is about waiting, `QuotaWaiting` about
  waiting while a report is still to be saved, `FeedbackAlgebra` about merging reports, `ProviderHeaders`
  about where reports come from, and `ProviderWindow` runs the engine against a provider's own accounting.
- **Shared lookups.** `SharedLookup` interleaves the steps of any number of callers and lookups over one
  table, cache, permits and gate; `SharedLookupProofs` and `SharedLookupTheorems` prove single flight,
  one result, no second fetch, reserved sends, permit bounds and freedom from deadlock, and
  `SharedLookupAnswers` what callers are told and where their reports come from. `Enrichment` is
  the object with the locked stretches of the code and its attempt loop. `PaidSends` runs the service
  and the quota engine together and traces every request to a reservation the engine granted.
- **Persistent cache.** `CacheTable` has freshness, cleanup, insertion and eviction; `Cache` the state
  machine over clock rollbacks and restarts; `CacheStore` the object.
- **Batches.** `Domain`, `DomainProofs` and `Validation` cover request validation and `RequestErrors` every
  error by path and code, `Batch` the collapse of duplicate lookups, `Serialization` the two writers,
  `Projection` the response, and `ResponseText` reading it back.

How it is modelled:

- Times are whole milliseconds as integers; the UTC day is the floor of time over 86 400 000. All
  timestamps come from representable dates, for which 64-bit saturation cannot occur
  (`Time.OffsetsDoNotSaturate`). The AbuseIPDB and VirusTotal quota groups are identified with their providers.
- A run is a sequence of events; everything the environment decides (wall times, commit fates,
  cancellations, faults, new configuration at a restart) is in the events. An event that is not enabled
  changes nothing.
- Histories (`grants`, `submitted`, `dispatched`, `puts`, `ledger`, `paid`, `sends`) are never read by a decision; they
  are there to state properties. A table is the sequence of its rows in the order its index gives.
- The feedback generation is a 64-bit counter that wraps. The model keeps the count and compares it
  modulo 2^64. Retention of feedback is proved for processes that submit fewer than 2^64 reports, and
  `QuotaTheorems.WrapLosesFeedback` is a run that shows the bound is needed.
- The clock-rollback refusal of `reserve` promises only that the clock will catch up; exactness of delays
  is about the others.
- `retry_after` answers as if a waiting report were applied now, while a reservation applies it when it is
  made. With nothing waiting, or once the report has been applied, the answer is exact. With a report
  waiting it can be too long or too short, and `QuotaWaiting.RetryAfterExactIff` says exactly when. It is too
  long when the provider's window opens last and of row and report the one whose window ends later does not
  hold the allowance at zero. It is too short when at the stated opening the report, by then applied to a row
  whose own window or day has ended, leaves nothing. Reports with neither count nor reset, of the window
  already known, or first to be told, are always exact.
- Merging is idempotent exactly on well-formed reports. Coalescing any number of reports is conservative
  exactly without a stale taint: a count without a reset time, merged with only reports of ended windows, is
  dropped.

## Model

| member | source | states |
|---|---|---|
| Time.DayBoundary | src/storage.rs:934-942 | The next UTC midnight is exactly the first instant of a later day. |
| Time.DelayIsLeast | src/storage.rs:927-933 | The rounded delay is the least number of whole seconds after which the instant has come. |
| Time.OffsetsDoNotSaturate | src/storage.rs:817-818 | On representable dates the saturating one-minute offsets are plain ones. |
| QuotaSpec.RecentIsSuffix | src/storage.rs:868-890 | Of ordered timestamps, the ones inside the minute are exactly those after an aged prefix. |
| QuotaSpec.ReserveTxError | src/storage.rs:512-571 | A reservation fails on data exactly for a day ahead of the clock or a waiting count too large for its column. |
| QuotaSpec.PacedKept | src/storage.rs:734-819 | Day change, expiry and feedback keep it that exhaustion without a known reset has a cooldown. |
| QuotaSpec.InsertKeepsOrder | src/storage.rs:538-546 | A new reservation timestamp keeps the window's order. |
| QuotaState.QuotaState.Read | src/storage.rs:714-732 | The object starts as the stored row. |
| QuotaState.QuotaState.ExpireFeedback | src/storage.rs:751-763 | In-place expiry is the specified change of the row. |
| QuotaState.QuotaState.AdvanceDay | src/storage.rs:734-749 | In-place day change is the specified one, and refuses a backward day without touching the row. |
| QuotaState.QuotaState.EnsureUnknownCooldown | src/storage.rs:810-819 | The paced-probe cooldown is set exactly when specified. |
| QuotaState.QuotaState.ApplyFeedback | src/storage.rs:765-808 | In-place feedback is the specified change, failing exactly on an oversized count in an open window. |
| QuotaState.QuotaState.Spend | src/storage.rs:524-532 | A granted reservation's change of the row. |
| QuotaState.QuotaDecision | src/storage.rs:840-895 | Accumulating waits condition by condition gives refusal exactly while a condition blocks, and the wait for the last known one. |
| QuotaFields.SavedFields | src/storage.rs:751-819 | A saved report's effect on every field: count, window, cooldown with its mark, day and use. |
| QuotaFields.SavedReportLowers | src/storage.rs:790-801 | A report of an open window lowers a known count to its own and never raises it. |
| QuotaFields.PreparedFields | src/storage.rs:512-522 | What a reservation finds in every field after day change, waiting report and purge. |
| QuotaFields.ReserveMeaning | src/storage.rs:523-570 | A reservation is granted exactly without a cooldown ahead and with room in day, minute and count; refused, it leaves the row and states a delay exactly when every end is known. |
| QuotaFields.SpendFields | src/storage.rs:524-546 | A grant uses one of the day, lowers a known count by one, records its time and paces exhaustion. |
| QuotaFields.GrantLowersCount | src/storage.rs:514-531 | A reservation that applies a waiting report leaves the count of the two, less one. |
| QuotaFields.RetryAfterMeaning | src/storage.rs:592-602 | The query states a delay exactly when a reservation would be refused or the clock is behind, and every end is known. |
| QuotaFields.UnknownCooldownIsNotPromised | src/storage.rs:848-893 | A cooldown of unknown end is refused without a delay, whatever else is known. |
| FeedbackAlgebra.MergeFields | src/storage.rs:905-922 | Field by field: the later cooldown with its mark, the smaller count, the later reset. |
| FeedbackAlgebra.MergeCommutes | src/storage.rs:905-922 | Merging is commutative. |
| FeedbackAlgebra.MergeAssociates | src/storage.rs:905-922 | Merging is associative. |
| FeedbackAlgebra.MergeIdempotentIff | src/storage.rs:905-922 | A report merged with itself is itself exactly when an unknown reset comes with a cooldown. |
| FeedbackAlgebra.MergeKeepsCooldowns | src/storage.rs:906-912 | The merged cooldown is the later one. |
| FeedbackAlgebra.MergeAllSplits | src/storage.rs:615-630 | Waiting reports can be grouped anyhow: the merge of two batches is the merge of their merges. |
| FeedbackAlgebra.BatchesCommute | src/storage.rs:615-630 | Two batches arriving in either order wait as the same report. |
| FeedbackAlgebra.DuplicatesAreAbsorbed | src/storage.rs:615-630 | Well-formed reports that arrive again, with any others in between, leave what waits unchanged. |
| FeedbackAlgebra.ApplyIdempotent | src/storage.rs:765-808 | Applying a report again at the same time changes nothing. |
| FeedbackAlgebra.CoalescingConservativeIff | src/storage.rs:765-808 | Coalescing any number of reports never leaves more allowance than applying them in turn, on any row, exactly when no count without reset meets only ended windows. |
| ProviderHeaders.HeaderFields | src/enrichment.rs:558-608 | Every field of a header report, from the headers of the provider that sends them. |
| ProviderHeaders.HeadersWellFormedIff | src/enrichment.rs:558-608 | Reports from headers fit storage, and are well formed except for an unknown 429 in the last representable minute. |
| ProviderHeaders.TooManyRequestsCools | src/enrichment.rs:586-607 | A 429 always starts a cooldown covering every wait it names, or a minute if it names none. |
| ProviderHeaders.RetryAfterIsHonoured | src/enrichment.rs:581-600 | After a Retry-After report is saved, every reservation before the named time is refused. |
| QuotaDelay.MinuteClearsExactly | src/storage.rs:868-886 | The minute window opens exactly when enough of its oldest timestamps have aged out, also after the cap was reduced. |
| QuotaDelay.BlockedUntilClearTime | src/storage.rs:840-895 | A settled row refuses at every instant before its clear time and grants from then on. |
| QuotaDelay.ReserveDelayIsExact | src/storage.rs:523-570 | A stated delay is the exact wait, rounded up: refused at every instant before, granted then. |
| QuotaDelay.EarlyTriesDoNotMoveOpening | src/storage.rs:485-571 | Any number of early tries are all refused and leave the promised instant where it was. |
| QuotaDelay.RetryAfterIsExact | src/storage.rs:575-605 | With nothing waiting, `retry_after` is exact too, even with the clock behind the high-water mark. |
| QuotaDelay.UnknownExhaustionIsPaced | src/storage.rs:810-819 | Exhaustion without a window is refused for a minute with no promised delay, and then no longer blocks. |
| QuotaDelay.NoPermanentLockout | src/storage.rs:751-819 | A computable time from which every reservation is granted exists for every paced row, whatever the limits. |
| QuotaWaiting.RefusedWhileHeld | src/storage.rs:512-570 | With a report waiting, a reservation is refused exactly until the other conditions clear and while row or report holds the allowance at zero. |
| QuotaWaiting.RetryAfterExactIff | src/storage.rs:592-600 | With a report waiting, the stated delay is the exact wait if and only if it neither overstates nor understates, conditions on the row, the report and the stated opening. |
| QuotaWaiting.UnderstatesByReport | src/storage.rs:790-808 | On a paced row only the report's own count can hold the allowance past the stated opening. |
| QuotaWaiting.UsualReportsAreExact | src/storage.rs:592-600 | Reports without count and reset, of the window already known, or first to be told, keep the answer exact. |
| QuotaWaiting.ExactOnceApplied | src/storage.rs:592-600 | Once the report has been saved or applied, the stated delay is exact without condition. |
| QuotaWaiting.EngineRetryAfterExactIff | src/storage.rs:575-605 | The same condition in every reachable state of the engine with its waiting report. |
| QuotaWaiting.CanOverstate | src/storage.rs:595-600 | A row and waiting report for which the answer is 20 s and a reservation after 10 s is granted. |
| QuotaWaiting.CanUnderstate | src/storage.rs:595-600 | A report of zero without a window outlives the row's: the answer is 10 s, and then no end is known. |
| QuotaWaiting.CanUnderstateAcrossDays | src/storage.rs:743-748 | A new day drops the row's count, and the waiting one then blocks the promised instant. |
| QuotaInvariant.EffectKeepsDurable | src/storage.rs:510-547 | Any transaction keeps window, day counter and caps faithful to the full history, though old timestamps are purged. |
| QuotaInvariant.EffectCovers | src/storage.rs:515-547 | After a transaction the row covers what row and waiting report covered, and a grant means the cooldown has passed. |
| QuotaInvariant.SubmitCovers | src/storage.rs:615-630 | Submitting keeps every earlier cooldown covered as well as the new one. |
| QuotaInvariant.ClearKeepsRetention | src/storage.rs:658-675 | The clear after a commit drops no report that the commit did not save. |
| QuotaInvariant.StepKeepsAccount | src/storage.rs:485-571 | Every step of the engine keeps the accounting invariant. |
| QuotaInvariant.StepKeepsRetention | src/storage.rs:607-675 | Every step keeps the retention invariant while the generation has not wrapped. |
| QuotaTheorems.RunKeepsAccount | src/storage.rs:485-571 | The accounting invariant holds in every run, with no assumption on clock, commits or restarts. |
| QuotaTheorems.CapsHoldInEveryRun | src/storage.rs:485-571 | In every run each reservation is within the minute and the day cap in force when it was granted. |
| QuotaTheorems.NoWindowOverfull | src/storage.rs:868-886 | Under caps of at most n, no sixty seconds contain more than n reservations. |
| QuotaTheorems.ReservationsAreFinal | src/storage.rs:548-559 | Committed reservations are never taken back by any later event. |
| QuotaTheorems.DispatchesAreDistinctReservations | src/storage.rs:548-569 | Each Ok stands for its own committed reservation. |
| QuotaTheorems.BackwardDayUnreachable | src/storage.rs:734-742 | The stored day is never ahead of a transaction's clock, so only an oversized waiting count can fail a reservation. |
| QuotaTheorems.RunKeepsRetention | src/storage.rs:607-675 | The retention invariant holds in every run of a process submitting fewer than 2^64 reports. |
| QuotaTheorems.FeedbackIsNeverLost | src/storage.rs:607-675 | In every run each submitted cooldown still ahead is stored or waiting. |
| QuotaTheorems.DispatchRespectsCooldowns | src/storage.rs:548-569 | No reservation returns Ok at a time before a cooldown submitted up to its final check. |
| QuotaTheorems.ClearDropsUnsavedIff | src/storage.rs:666-673 | A newer report is dropped exactly after a multiple of 2^64 submissions. |
| QuotaTheorems.WrapLosesFeedback | src/storage.rs:613-617 | A run of 2^64 submissions during one save loses a cooldown. |
| QuotaTheorems.RunHoldsWindow | src/storage.rs:765-808 | While a known window is open, the local allowance never rises under feedback, reservations, day changes and restarts. |
| QuotaTheorems.EngineDelayIsExact | src/storage.rs:523-570 | Delays stated in any reachable state are exact. |
| QuotaTheorems.CommitFates | src/storage.rs:543-548 | A transaction becomes durable whole, reported or not, or leaves no trace. |
| QuotaTheorems.FinishDispatchesIff | src/storage.rs:549-569 | A granted reservation is dispatched exactly in time and with nothing waiting. |
| QuotaTheorems.ReservationRuns | src/storage.rs:485-571 | An uncontended reservation commits the specified row with the waiting report applied, and is reported Ok exactly when granted. |
| QuotaTheorems.BehindTheMarkNothingRuns | src/storage.rs:501-509 | While the wall clock is behind the mark nothing is committed or dispatched. |
| QuotaTheorems.SavedReportIsDurable | src/storage.rs:632-653 | A completed save puts the waiting report into the row, leaves nothing waiting, and outlives a restart. |
| QuotaTheorems.RestartKeepsDurable | src/storage.rs:264-284 | A restart keeps the durable rows, drops what waits, takes the new limits, and starts the clock no earlier than the mark. |
| QuotaTheorems.OneTransactionAtATime | src/storage.rs:489-501 | While a transaction is open no other begins and the clock mark stays. |
| QuotaTheorems.ObservedClock | src/storage.rs:326-331 | The clock mark follows the wall clock up and never down. |
| QuotaTheorems.WaitingNeverLocksOut | src/storage.rs:512-571 | With a report waiting, one reservation puts it into the row, and any late enough one after it goes through. |
| QuotaTheorems.EngineNeverLocksOut | src/storage.rs:485-571 | From every reachable idle state with nothing waiting, a late enough reservation goes through. |
| ProviderWindow.ReserveConservative | src/storage.rs:512-532 | A reservation that first applies a waiting report still leaves a positive count within what is free. |
| ProviderWindow.StepConservative | src/storage.rs:485-675 | Every step of the engine keeps that, whatever waits, merges, fails to be saved or is lost in a restart. |
| ProviderWindow.RunConservative | src/storage.rs:790-808 | Over every run of the engine in the window, a positive local count never exceeds what the provider still has less the reservations it has not counted. |
| ProviderWindow.KnownWindowNeverOverspent | src/storage.rs:529-531 | While the window's count is known, no reservation, even one that applies the first header, exceeds the provider's allowance. |
| ProviderWindow.FirstHeaderIff | src/storage.rs:796-802 | The room left for a first header suffices exactly when it covers what the header does not reflect. |
| Storage.Storage.Create | src/storage.rs:236-262 | A new database is the engine's initial state. |
| Storage.Storage.Reopen | src/storage.rs:264-281 | Reopening keeps the durable half, drops waiting feedback and reloads the high-water mark. |
| Storage.Storage.Submit | src/storage.rs:613-631 | The first stretch of `feedback` is the engine's submission. |
| Storage.Storage.BeginReserve | src/storage.rs:490-509 | The snapshot of `reserve`, with the refusal while the wall clock is behind. |
| Storage.Storage.ComputeReservation | src/storage.rs:510-547 | The row changes, purge, decision and spending are the specified transaction. |
| Storage.Storage.CommitReservation | src/storage.rs:510-548 | A commit's three fates are the engine's steps. |
| Storage.Storage.CommitSave | src/storage.rs:643-652 | The transaction of `feedback` is the engine's step. |
| Storage.Storage.ClearPending | src/storage.rs:658-675 | The clear is the engine's step. |
| Storage.Storage.FinalCheck | src/storage.rs:552-569 | Ok exactly for a granted, timely reservation with nothing waiting. |
| Storage.Storage.Reserve | src/storage.rs:485-571 | The whole call is four engine steps, and is Ok exactly when it dispatches. |
| Storage.Storage.SaveFeedback | src/storage.rs:607-656 | The whole `feedback` call is its engine steps. |
| Storage.Storage.RetryAfterQuery | src/storage.rs:575-605 | `retry_after` changes nothing and gives the specified answer. |
| SharedLookupProofs.RunKeepsInv | src/enrichment.rs:197-407 | Table, permits, gate, callers and ledger keep their invariants in every interleaving. |
| SharedLookupProofs.PublishKeepsInv | src/enrichment.rs:273-277 | Publishing fills the cell and empties the table entry together. |
| SharedLookupTheorems.OneFlightPerKey | src/enrichment.rs:235-278 | Unpublished lookups have distinct keys, are bounded in number, and are exactly the table's entries, in both directions. |
| SharedLookupTheorems.ResultsAreFinal | src/enrichment.rs:264-277 | A published result never changes and its lookup never re-enters the table. |
| SharedLookupTheorems.JoinersShareOutcome | src/enrichment.rs:175-191 | Owner and joiners of a lookup are given the same published outcome; a joiner's is no cache hit. |
| SharedLookupTheorems.SendsAreReserved | src/enrichment.rs:342-405 | Every send has its own committed reservation made for its own lookup, and a lookup sends at most twice. |
| SharedLookupTheorems.LedgerOnlyGrows | src/enrichment.rs:357-374 | Reservations are never refunded. |
| SharedLookupTheorems.CachedKeySendsNothing | src/enrichment.rs:291-302 | Without faults, once a key is cached no lookup sends for it again, whoever registered when. |
| SharedLookupTheorems.NoRefetchInEveryRun | src/enrichment.rs:209-302 | The same after any faultless run from the start. |
| SharedLookupTheorems.AttemptsWithinPermits | src/enrichment.rs:345-356 | Holders of each provider's and of the global permits never exceed their number. |
| SharedLookupTheorems.StagesOnlyDescend | src/enrichment.rs:342-407 | Whatever happens to a lookup takes it strictly closer to its end. |
| SharedLookupTheorems.SomeLookupUnblocked | src/enrichment.rs:343-358 | While any lookup is live, some lookup waits for nothing, visits of the storage while sending included. |
| SharedLookupTheorems.EveryLookupCanFinish | src/enrichment.rs:235-278 | From every reachable state all lookups can still publish and empty the table. |
| SharedLookupAnswers.PresentKeyIsJoined | src/enrichment.rs:237-247 | A caller whose key is in the table waits on that lookup as a joiner, and no lookup is added. |
| SharedLookupAnswers.AbsentKeyIsOwned | src/enrichment.rs:248-281 | A caller whose key is absent owns a new lookup exactly with room and nothing cancelled, and is told which of the two failed. |
| SharedLookupAnswers.JoinedLookupIsLive | src/enrichment.rs:238-247 | A joined entry is a live lookup of the caller's own key. |
| SharedLookupAnswers.EveryWaiterCanBeAnswered | src/enrichment.rs:175-192 | From every reachable state all lookups can publish and every waiting caller be given its own lookup's outcome. |
| SharedLookupAnswers.ReadAnswers | src/enrichment.rs:209-234 | A caller that finds its key cached is answered with that report as a hit; a miss or a fault goes on. |
| SharedLookupAnswers.RecheckAnswers | src/enrichment.rs:292-302 | So does a lookup that finds its key cached before fetching. |
| SharedLookupAnswers.ResponseDecides | src/enrichment.rs:387-403 | A response ends the attempt with its report or failure, or once in a backoff; a 429 asks for its delay. |
| SharedLookupAnswers.StoringPublishes | src/enrichment.rs:309-332 | A fetched report is published whether or not it could be cached, and cached if it could. |
| SharedLookupAnswers.PublishingTells | src/enrichment.rs:275-278 | Publishing hands out exactly the result that was reached. |
| SharedLookupAnswers.FetchedReportIsPublished | src/enrichment.rs:303-332 | Over any run a fetched report is what its lookup publishes, unless its task is cut short. |
| SharedLookupAnswers.RefusalsAreTold | src/enrichment.rs:357-377 | Each reservation reply stands for its own failure, and only a granted, timely one sends. |
| SharedLookupAnswers.GivingUpTells | src/enrichment.rs:189-193 | A caller past its deadline is told so, and nobody else is affected. |
| SharedLookupAnswers.PermitOrder | src/enrichment.rs:343-356 | Global capacity is held only on top of the provider's, and neither asleep or while storing. |
| SharedLookupAnswers.StepsWait | src/enrichment.rs:345-357 | What needs the gate waits while it is taken, and what needs a permit while none is left. |
| SharedLookupAnswers.TakingTakesOne | src/enrichment.rs:345-356 | Taking a permit takes exactly one, of the lookup's provider or of the global ones. |
| SharedLookupAnswers.ReportsAreGenuine | src/enrichment.rs:209-332 | In every run each report given out was fetched from upstream for the caller's own key. |
| PaidSends.LeavingTellsTheTruth | src/storage.rs:548-569 | A lookup may send exactly if its reservation was dispatched, and is told the right failure otherwise. |
| PaidSends.StepKeepsInv | src/enrichment.rs:342-405 | Every step of service and engine together keeps each ledger entry a distinct committed reservation, and each send a dispatched one. |
| PaidSends.LeavingKeepsSends | src/storage.rs:552-569 | The reservation that a finished transaction dispatches has not been sent on before. |
| PaidSends.SendsAreDispatchedGrants | src/enrichment.rs:357-387 | Every request a lookup sent used its own reservation, granted by the engine within both caps and reported Ok. |
| PaidSends.SendsNeverShareAReservation | src/enrichment.rs:357-387 | Over every process on the database, no two requests used the same reservation. |
| Enrichment.Enrichment.Subscribe | src/enrichment.rs:233-280 | The locked stretch joins, refuses or registers as the protocol's step does. |
| Enrichment.Enrichment.PublishAndRemove | src/enrichment.rs:273-277 | The locked end of a task is the protocol's publish. |
| Enrichment.AttemptIsItsSteps | src/enrichment.rs:343-387 | An attempt is a run of the protocol's steps, storage visits for feedback and delay included. |
| Enrichment.Enrichment.Attempt | src/enrichment.rs:343-387 | It takes those steps, and every way out has returned both permits; it sent only on a granted, timely reservation. |
| Enrichment.Enrichment.HandleHead | src/enrichment.rs:448-460 | Feedback is saved under the storage gate with both permits held, and its failure changes nothing. |
| Enrichment.Enrichment.HandleResponse | src/enrichment.rs:499-519 | A 429 asks for its delay under the gate; every way on drops both permits. |
| Enrichment.Enrichment.Fetch | src/enrichment.rs:335-407 | The loop is a run of at most two attempts, holds nothing between them, and ends with a report or a failure. |
| CacheTable.CleanupSelectsStale | src/storage.rs:436-446 | The cleanup condition is exactly the negation of freshness, a zero lifetime included. |
| CacheTable.FreshByLifetime | src/storage.rs:333-342 | Freshness by the configured lifetimes, that of absences first. |
| CacheTable.CleanupNeedsEffectiveClock | src/storage.rs:326-331 | Against a clock behind the wall the two would differ. |
| CacheTable.DeleteStaleSound | src/storage.rs:436-446 | Bounded cleanup removes only stale rows and stops short only when none is left. |
| CacheTable.CleanupTakesFirstExpiring | src/storage.rs:436-446 | Bounded cleanup leaves no stale row that expires before one it deletes. |
| CacheTable.EvictionIsFifo | src/storage.rs:448-471 | Every evicted row was fetched before every kept one, ties going by key and provider. |
| CacheTable.SurvivesIff | src/storage.rs:448-471 | A row survives eviction exactly when it fits with every row fetched after it. |
| CacheTable.SurvivorsAreLongestFit | src/storage.rs:448-471 | One-at-a-time eviction keeps the longest suffix that fits both limits. |
| CacheTable.Evict | src/storage.rs:448-471 | Chunked eviction with running totals equals it, ends, and never meets its empty-chunk error. |
| Cache.StartupReconciles | src/storage.rs:283-286 | After start-up every row is fresh and both limits hold. |
| Cache.StepOnlyRemoves | src/storage.rs:344-483 | A step never changes a row, and adds none but a new insertion. |
| Cache.HitIsLatestAndFresh | src/storage.rs:351-377 | In every run a hit is the latest insertion of its provider, key and kind, before both its expiries. |
| Cache.ReadsAreNeverCorrupt | src/storage.rs:371-376 | The data errors of a read cannot arise from what the cache stores. |
| Cache.GetReturnsExactlyFresh | src/storage.rs:353-377 | A read hits exactly when a fresh row of its identity and kind is stored. |
| Cache.CleanupKeepsHits | src/storage.rs:436-446 | Cleanup takes away nothing a read at that instant would return. |
| Cache.ExpiredRowsStayGone | src/storage.rs:362-369 | A row missed for expiry never comes back, across rollbacks, longer lifetimes and restarts. |
| Cache.HitWithinLifetime | src/storage.rs:357-371 | A hit is younger than the lifetime configured for its status and kind. |
| Cache.ReadsAreReadOnly | src/storage.rs:362-369 | A read deletes nothing but the over-age row it finds, and a hit can be had again. |
| Cache.PutInsertsIff | src/storage.rs:390-427 | An insertion happens exactly for a fresh, error-free, dated report that fits, and writes what was given. |
| Cache.CleanupIsBounded | src/storage.rs:473-483 | A cleanup takes at most 500 rows, all stale, and fewer only if it leaves none. |
| Cache.InsertionEvictsOldest | src/storage.rs:421-428 | A fresh row lost to an insertion, or the new row itself, was fetched before every row kept. |
| Cache.StartupEvictsOldest | src/storage.rs:284-286 | A fresh row lost at start-up was fetched before every row kept. |
| Cache.RowSurvivesIff | src/storage.rs:421-432 | The new row, and every other, survives an insertion exactly when it fits with the rows fetched after it. |
| Cache.StartupSurvivesIff | src/storage.rs:284-286 | A fresh row survives start-up exactly when it fits with the fresh rows fetched after it. |
| CacheStore.CacheStore.CacheGet | src/storage.rs:344-379 | A read is the machine's step and answer. |
| CacheStore.CacheStore.DeleteExpired | src/storage.rs:436-446 | The statement deletes the specified rows and counts them. |
| CacheStore.CacheStore.InsertRow | src/storage.rs:421-431 | The transaction of an insertion, and whether its row survived. |
| CacheStore.CacheStore.CachePut | src/storage.rs:381-434 | An insertion is the machine's step, reports an expiry exactly when its row is stored, and errs exactly without a fetch time or without a reported commit. |
| CacheStore.CacheStore.CleanupExpired | src/storage.rs:473-483 | Periodic cleanup is the machine's step. |
| CacheStore.CacheStore.Initialize | src/storage.rs:283-286 | The start-up loop ends with every row fresh and both limits held. |
| Batch.Deduplicate | src/http.rs:309-327 | Pairs are the first slots of each identity in order, and each slot points to the pair of its own identity. |
| Batch.FirstsAreExactlyFirst | src/http.rs:314-325 | The slots kept are, in order and once each, exactly those whose identity no earlier slot has. |
| Batch.PairsAreDistinct | src/http.rs:314-325 | No identity is looked up twice. |
| Batch.Scatter | src/http.rs:335-343 | Results are spread by position. |
| Batch.SameLookupIff | src/http.rs:314-319 | Slots share a lookup exactly when provider, kind, algorithm and lookup value agree. |
| Batch.LookupBatch | src/http.rs:309-343 | For lookups that depend on those four, the slot of each indicator and provider gets the result of looking up just that one, with as many lookups as there are different ones. |
| Serialization.LimitedWriter.Write | src/serialization.rs:18-25 | A buffer is taken whole exactly when it fits. |
| Serialization.LimitedWriter.Serialize | src/serialization.rs:18-25 | Serializing succeeds exactly when all of it fits, however it is cut; the limit always holds. |
| Serialization.CountingWriter.Write | src/serialization.rs:32-39 | Counting is exact up to the machine word. |
| Serialization.CountingWriter.Serialize | src/serialization.rs:32-39 | The count is the total size, however it is cut. |
| Projection.RawCostsSevenMore | src/http.rs:491-494 | An included raw report costs exactly its size and seven bytes. |
| Projection.EnvelopeCost | src/http.rs:486-494 | The response with raw reports is larger than without by exactly their sizes and seven bytes each. |
| Projection.IncludedWithinBudget | src/http.rs:448-462 | The included reports take exactly what left the budget. |
| Projection.ChooseRaw | src/http.rs:447-464 | A report is included exactly when it fits the budget left. |
| Projection.Collect | src/http.rs:443-485 | The first pass makes the greedy choice for each slot in order and fails exactly when outcomes are missing. |
| Projection.Project | src/http.rs:430-506 | The output is the intended response within 1 MiB plus the raw budget; only missing outcomes or the envelope check can fail. |
| ResponseText.AsciiIsInjective | src/http.rs:486-504 | Different structural texts stay different. |
| ResponseText.EntryReadsBack | src/http.rs:453-481 | From an entry's text, after its fields, its raw report or the reason for none is read back. |
| ResponseText.PlannedEntryReadsBack | src/http.rs:448-466 | So the choice made for every slot can be read from the text. |
| ResponseText.JoinedPartAt | src/http.rs:496-504 | Each part of a list can be cut out again, with single commas between. |
| ResponseText.ItemAt | src/http.rs:482-485 | Each item has its own head and the entries of its own slots, in order. |
| ResponseText.ItemReadsBack | src/http.rs:482-485 | An item is its head and its entries. |
| ResponseText.ResponseReadsBack | src/http.rs:486-504 | The response is its request's id and its items. |
| DomainProofs.UnescapeReversesEscape | src/domain.rs:198-200 | An escaped field name can be read back. |
| DomainProofs.PathsAreDistinct | src/domain.rs:198-200 | Different places in a request never share an error path, at any depth and under any parents. |
| DomainProofs.NoneMeansError | src/domain.rs:340-419 | An item without an indicator always has an error. |
| DomainProofs.NoItemErrorsIff | src/domain.rs:340-419 | An item has no error exactly when it is valid. |
| DomainProofs.NoProvidersErrorsIff | src/domain.rs:268-310 | A provider list has no error exactly when it names known providers once each. |
| DomainProofs.AcceptsExactlyValid | src/domain.rs:221-338 | A request is accepted exactly when wholly valid; otherwise the first hundred errors are told in request order. |
| DomainProofs.AcceptedMeaning | src/domain.rs:239-338 | Acceptance gives one indicator per submitted item in order, the named providers, and the raw choice. |
| DomainProofs.AcceptedDefaults | src/domain.rs:233-237 | Fields left out take their defaults. |
| RequestErrors.WordsAreLiteral | src/domain.rs:28-62 | The names of providers, kinds and fields, and that no other text is one. |
| RequestErrors.DecimalReadsBack | src/domain.rs:251-253 | An index in a path is its decimal digits without leading zeros. |
| RequestErrors.ErrorsAreDeserved | src/domain.rs:221-338 | The errors of a request are exactly those its fields, items and providers deserve, each by path and code. |
| RequestErrors.ToldErrorsAreDeserved | src/domain.rs:202-210 | A refused request is told only such errors, and all of them below a hundred. |
| RequestErrors.FieldsInOrder | src/domain.rs:239-309 | Errors of earlier fields come before those of later ones. |
| RequestErrors.ItemsInOrder | src/domain.rs:250-256 | Errors of earlier items come before those of later ones. |
| RequestErrors.AcceptedIndicatorIs | src/domain.rs:350-390 | An accepted indicator is what the check made of the item's value under the kind its type names. |
| RequestErrors.DefaultsOfAccepted | src/domain.rs:233-238 | Without a choice, the enabled providers are asked, AbuseIPDB first, and no raw reports are given. |
| RequestErrors.ChoicesOfAccepted | src/domain.rs:268-318 | The providers are the named ones in order, and the raw choice is the one made. |
| Validation.Details.Add | src/domain.rs:202-210 | The list keeps the first hundred errors raised. |
| Validation.ValidateItem | src/domain.rs:340-419 | The pass over an item raises exactly its errors and returns its indicator. |
| Validation.ValidateItems | src/domain.rs:250-256 | The pass over the items raises their errors in order and collects their indicators. |
| Validation.ValidateProviders | src/domain.rs:272-306 | The pass over the providers raises their errors in order and collects each first mention. |
| Validation.ValidateRequest | src/domain.rs:221-338 | The pass over the request gives the specified verdict. |

## Left out

- SQLite, the connection pool, file locking, pragmas and migrations: a transaction is one atomic change with a commit fate.
- Storage timeouts other than at the final check of a reservation, and the availability flag: a timeout is a commit fate, a fault or a cancellation.
- Feedback waiting at a crash: the code keeps it in memory only, so retention is about one process.
- Storage.Storage.Reserve: the whole call runs uninterrupted; interleavings are covered by the engine's events, which its stretches are proved to take.
- Enrichment.Enrichment.Attempt: permits and gate are free when asked for; waiting for them is covered by the protocol's events.
- Enrichment.Enrichment.Fetch: the same.
- ProviderWindow.RunConservative: assumes the key is used by this service alone and that the first header applied misses at most the configured number of reservations.
- The rule for when a retry has enough time left: whether a retry happens is part of an event.
- Answers for disabled providers and unsupported kinds, shutdown draining, and task tracking: single branches without shared state.
- Transport, response decoding, and classification of TLS and network errors: an attempt meets an abstract outcome.
- Parsing of header numbers and dates, of JSON text and of indicator text: their results are inputs. A parsed request is refused if any object repeats a key.
- Static error messages, logging, authentication, HTTP routing, and configuration parsing beyond the bounds it guarantees.
- Cache key derivation: a key is the number its digest spells; the identity it is derived from is used in `Batch` only.
- Payload encoding: a stored payload is the outcome itself, with its size given.
