# Verified models of the trading platform's stateful core

This project models, in Dafny 4.11, the parts of the platform whose behaviour is hard to see from one function
body, and proves what they promise for all inputs, runs and interleavings. `dafny verify dfyconfig.toml` checks
everything; no part of it needs the services, the databases or Redis.

| files | what they model |
|---|---|
| `LockKeys`, `SignalScan`, `ScanService` | overlapping signal scans contending for Redis locks, as a step machine with a clock, lost replies, late commands and killed workers, and the worker's code as runs of that machine |
| `Calendar`, `CorporateActions` | trading days and the day-by-day reference accounting of a corporate action |
| `PageText`, `PageLocator`, `PageStore` | text normalisation, metadata location and storage of financial report pages |
| `CivilDates`, `ImportMonths`, `Checkpoints`, `ProviderAudit` | month windows of the dataset import, its checkpoints and run binding, and the monthly comparison of two providers |
| `QuoteStore`, `QuoteSync` | quote batches with provenance, and their chunked synchronisation |
| `Accounts`, `AccountService` | portfolio synchronisation, end-of-day snapshots, reconciliation and T+1 release |
| `RiskAgent`, `Aggregator`, `Orchestrator` | the AI pipeline from agents to a signal |
| `Ordering`, `SourceUsage` | the source-usage context of the research API |
| `ReviewRegister`, `ReviewService` | idempotent review appends under concurrency |
| `SnapshotStore` | report snapshots as files and rows |
| `EvidenceItems`, `EvidenceStore` | research evidence: the checks of the three normalisers, and its batches |
| `Common` | options, results and ideal digests |

Functions and lemmas state what is pure in the source; its loops are methods with invariants, and its services are
classes whose methods change tables, files or counters and are proved against those functions.

## Where the code does less than one might expect

- Mutual exclusion of scans rests on timing alone: it fails exactly when an owner outlives its lock's TTL
  (`SignalScan.SecondOwnerIffOverrun`), which the shipped limits allow (`SignalScan.OverrunExample`): the soft time limit
  equals the TTL, but the local worker's solo pool does not enforce it, and elsewhere a task may swallow it as an
  ordinary error.
- An event whose record date equals its credit or payment date passes `validate_event`, yet the reference never
  credits it (`CorporateActions.ValidEventIsCreditedUnlessSameDay`, `CorporateActions.SameDayExample`).
- The import windows start at the first of the lower bound's month; they cover the range only if the lower bound is a
  month start (`ImportMonths.CoversRangeIffMonthStart`).
- An empty quote request can end in a failure status with nothing rejected (`QuoteStore.SuccessIffAllAccepted`,
  `QuoteStore.EmptyRequestExample`); a negative batch size makes no chunk, so the totals of `sync_all` do not add up
  (`QuoteSync.Service.SyncAll`).
- Redistributing weights counts an agent that is listed twice as two losses (`Aggregator.RedistributionConserves`); the
  aggregator defines `_adjust_weights_for_degraded` but nothing in the repository calls it.
- Quotes are dropped after seven days while their provenance stays. A later write at the same code and time is then
  refused (`QuoteStore.RefusedIffOrphaned`); a clock that moves on rules that out (`QuoteStore.LaterIsNotOrphaned`).
- An empty fetch error message lets the provider audit compare samples and still fails its summary
  (`ProviderAudit.AuditStock`).
- A snapshot row whose commit succeeded but whose answer was lost is left without the file that was just written for it
  (`SnapshotStore.Store.PersistObserved`, `SnapshotStore.LostAnswerExample`).
- `PortfolioSyncService` reads prices with `cache.get`, which the worker's `CacheManager` does not define. The lookup is
  therefore any function that may raise; a raising lookup for an open position undoes the whole synchronisation
  (`AccountService.Ledger.SyncAll`).
- A month can be certified on the first import and `review_required` on an identical second one
  (`Checkpoints.LateStartExample`; `Checkpoints.ReplayOverHistory` says exactly when a certified month stays certified).
- One research item with an over-long stock code or document id, even a rejected one, loses its whole batch
  (`EvidenceStore.MisfitLosesBatch`, `EvidenceItems.FitsIff`).
- A `fetch_failed` evidence batch stores no rejections although its result reports all items as rejected
  (`EvidenceStore.Store.PersistBatch`).

## Main results

| topic | results |
|---|---|
| scan locks | `SignalScan.MutualExclusion` and its exact failure `SignalScan.SecondOwnerIffOverrun`, `SignalScan.DeletesOnlyItsOwnLock`, `SignalScan.LingeringLockFrees`, `SignalScan.CountersAddUp`, `SignalScan.OfferedIffConfident`, with `ScanService.SignalScanService.ScanOne` as the link to the code |
| quotes | `QuoteStore.Store.PersistBatch` with `QuoteStore.AcceptedIff`, `QuoteStore.RefusedIffOrphaned`, `QuoteSync.Service.SyncAll` |
| research evidence | `EvidenceStore.Store.PersistBatch`, `EvidenceStore.InsertAllRepresents`, `EvidenceStore.MisfitLosesBatch`, `EvidenceItems.NormalizedMeetsConstraints` |
| report snapshots | `SnapshotStore.Store.PersistObserved`, `SnapshotStore.Store.WriteSnapshotAtomically` |
| report pages | `PageText.NormalizeNormalForm`, `PageLocator.LocateMetadata`, `PageStore.LocateReport` |
| dataset import | `ImportMonths.WindowsPartition`, `ImportMonths.CoversRangeIffMonthStart`, `Checkpoints.CheckpointHistory`, `Checkpoints.ReplayOverHistory`, `ProviderAudit.PassIff` |
| accounts | `Accounts.StepEffect`, `Accounts.CashNeverChanges`, `Accounts.TotalsAfterAnyRun`, `Accounts.ReconcileAfter` |
| source usage | `SourceUsage.LoadSourceUsageContext`, `SourceUsage.OrderIndependent` |
| reviews | `ReviewRegister.OneImmutableRow`, `ReviewRegister.RepeatIffSameReview`, `ReviewRegister.StaleRepeatRefused` |
| corporate actions | `CorporateActions.RecordedClosedForm`, `CorporateActions.ValidEventIsCreditedUnlessSameDay` |
| AI signals | `Orchestrator.FailClosed`, `Orchestrator.BuyIff`, `Aggregator.CompositeMonotone`, `Aggregator.RedistributionConserves` |

The other rows of the table under "Model" support these. Those that speak of single fields say what the functions the
main results are stated with mean. In particular `Aggregator.WeightIsInfluence`,
`Aggregator.SentimentDominatesHeat`, `Aggregator.ScoreAgainstGrowth`, `Aggregator.ShorttermOrder` and the `Accepted…`
lemmas of `EvidenceItems` compare or collect single coefficients and checks.

## Assumptions

- Database transactions are atomic, and a failure is an input: the models take, per call, where the database, the
  disk, Redis or a provider fails. A commit that takes effect while its answer is lost is modelled for snapshots and
  reviews, and likewise a lost reply of Redis; elsewhere a failed commit changes nothing. Identifiers that the source draws as UUIDs are fresh numbers.
- Account operations read a strictly increasing clock, and record times within a mode are distinct, so "latest" is
  unambiguous. `SnapshotStore` calls follow one another.
- In `Checkpoints.ReplayOverHistory` nothing but the import writes or removes certified rows of a month, and the calendar
  and the comparison of rows are inputs of each call.
- SHA-256 digests are represented by what was digested, so they are deterministic and free of collisions.
- Numbers are exact: prices, money, scores and confidences are reals, quantities and counters integers.

## Model

| member | source | states |
|---|---|---|
| LockKeys.LockKeyIdentifies | worker/services/signal_scan.py:26-28 | two tasks use the same lock key exactly when stock code and strategy number agree, whatever characters the code contains |
| LockKeys.MissingStrategy | worker/services/signal_scan.py:26-28 | without a strategy id the key is that of strategy 0, written out |
| LockKeys.LastColonSplits | worker/services/signal_scan.py:26-28 | the last colon of a key separates code from strategy: concatenations with colon-free tails are equal only part by part |
| LockKeys.RenderedRoundTrip | worker/services/signal_scan.py:26-28 | the decimal rendering of a strategy id, negative ones included, reads back as that id |
| SignalScan.MutualExclusion | worker/services/signal_scan.py:113-163 | in every interleaving of any number of scans in which owners stay within their lock's TTL, two tasks between acquire and release work on different (code, strategy) pairs, lost replies, lost or late commands and killed workers included |
| SignalScan.DeletesOnlyItsOwnLock | worker/services/cache.py:48-53 | under the same timing assumption every DEL that takes effect while a lock is stored under its key removes the deleter's own lock, though it carries no owner token |
| SignalScan.WithinTtlIsTimely | worker/services/signal_scan.py:113-163 | the timing assumption on owners implies that every DEL arrives before its task's TTL ended, which is all that exclusion needs |
| SignalScan.RunsKeepLockInv | worker/services/signal_scan.py:113-163 | every run keeps task shapes and lock expiries consistent, and, when deletes are timely, each owner's lock stored under its key |
| SignalScan.LocksAreNotRefreshed | worker/services/cache.py:40-46 | once granted, a task's lock keeps its expiry for the rest of the run: NX never extends a stored lock, and the task's only SET is spent |
| SignalScan.LingeringLockFrees | worker/services/cache.py:40-53 | a lock left behind by a lost reply, a lost delete or a killed worker is free no later than its TTL after it was granted |
| SignalScan.SecondOwnerIffOverrun | worker/services/signal_scan.py:113-163 | next to an owner, while deletes have been timely, a waiting task's SET succeeds exactly when the owner has outlived its TTL and no live lock stands under the key: the exact condition under which exclusion fails |
| SignalScan.OverrunBreaksExclusion | worker/services/signal_scan.py:113-163 | once a second task is granted the key of an owner about to release, both own it, and the overdue delete removes the newcomer's lock |
| SignalScan.OverrunExample | worker/celery_app.py:138-139 | a concrete run with the shipped TTL of 300 seconds and an analysis that long in which two tasks own one lock; the soft limit of 300 seconds on the first cited line is not enforced by the solo pool of scripts/start-local.ps1:186, and in other pools a task may swallow it (worker/services/signal_scan.py:152) while the others run on to the hard limit of 600 |
| SignalScan.CountersAddUp | worker/services/signal_scan.py:61-102 | in every reachable state the finished outcomes are exactly skipped_locked + skipped_cached + skipped_hold + recommendations_created + errors, recommendations <= actionable <= generated <= scanned, and at most `concurrency` tasks are inside the semaphore |
| SignalScan.RunsKeepCounters | worker/services/signal_scan.py:113-163 | every counter of every scan is the number of its tasks that passed the statement that increments it |
| SignalScan.LocalMovesCounters | worker/services/signal_scan.py:113-163 | one step of a task moves each counter of its scan exactly when it changes the property the counter counts |
| SignalScan.OfferedIffConfident | worker/services/signal_scan.py:131-145 | in every run a task is offered for publication exactly when an earlier event of the run gave it an action other than HOLD with at least the confidence its scan asks for, and is held exactly when one gave it HOLD or less; only offered tasks reach publishing or a recommendation |
| ScanService.CacheManager.SetLock | worker/services/cache.py:40-46 | SET NX EX: when it takes effect (never for a TTL that is not positive) and the new keys, and that the reply is True exactly when it did and was not lost; it raises exactly when no client can be built |
| ScanService.CacheManager.ReleaseLock | worker/services/cache.py:48-53 | the key is deleted whoever holds it, a failing command is swallowed, and the call raises exactly when no client can be built |
| ScanService.SignalScanService.ScanOne | worker/services/signal_scan.py:113-163 | from any state of the machine with the cache's store in which the task may enter, each sequential execution is a run of the machine by that task alone; it ends finished with its permit returned, machine and service agree on counters and store; and by the inputs alone: which of the eight counters rises, by one, the verdict, and the store, for every answer of cache, analysis, publication and network |
| ScanService.PlayOneMore | worker/services/signal_scan.py:113-163 | such a run extends by any event that is enabled in its last state |
| ScanService.Step | worker/services/signal_scan.py:113-163 | one more event changes store, task, counters and free permits by the acting task's own part of the machine's step, and nothing else of the scan |
| Calendar.BuildTradingDays | backend/app/backtest/calendar.py:19-59 | the three sources of trading days (certified list, bar dates, weekdays): which one applies, the error cases, and that the result is the increasing list of exactly those days within the range |
| Calendar.NextTradingDay | backend/app/backtest/calendar.py:12-16 | the first listed day after the current one, or none when there is none |
| Calendar.IncreasingDetermined | backend/app/backtest/calendar.py:30-51 | a strictly increasing list is determined by the set of its days |
| Calendar.WeekdayByDate | backend/app/backtest/calendar.py:8-9 | counted from the ordinal of Monday, 1 January 2024, the days taken for weekdays are the first five of each week |
| CorporateActions.ReferenceDailyStates | backend/app/backtest/corporate_action_validation.py:34-74 | the daily loop records, on each day, quantity, cash, income, cost and value as the books after that day say, or fails as they do |
| CorporateActions.BooksClosedForm | backend/app/backtest/corporate_action_validation.py:47-57 | closed form of the loop: with record date before both due dates, quantity and cash gain the entitlement exactly once and exactly from their own due dates on |
| CorporateActions.RecordedClosedForm | backend/app/backtest/corporate_action_validation.py:58-73 | the recorded row of every day in closed form over the event's amounts: quantity, cash and income, average cost, market value, assets and profit, total cost unchanged |
| CorporateActions.PaidFromDueDateOn | backend/app/backtest/corporate_action_validation.py:49-57 | over increasing trading days an entitlement is paid by a day exactly when its due date is listed and not later than that day |
| CorporateActions.FailureStays | backend/app/backtest/corporate_action_validation.py:27-31 | once a day fails (fractional shares, missing close) every longer history fails with the same error |
| CorporateActions.ValidEventIsCreditedUnlessSameDay | backend/app/backtest/corporate_actions.py:79-90 | every event the processor validates whose record, credit and payment dates are trading days is credited by the reference, except when record date and due date coincide: the exact condition among such events |
| CorporateActions.SameDayExample | backend/app/backtest/corporate_action_validation.py:49-57 | a validated event with equal record and credit date whose shares the reference never credits, because credits are applied before capture |
| CorporateActions.EntitlementsAgree | backend/app/backtest/corporate_actions.py:92-107 | the processor's computation (half-even integrality test, truncation) and the reference's agree on every valid event and non-negative quantity, succeed together, and give exactly the promised amounts per ten shares |
| CorporateActions.EntitledIff | backend/app/backtest/corporate_actions.py:92-107 | an entitlement of n shares exists exactly when ten times n is the held quantity times the shares per ten: never for a fraction |
| CorporateActions.ValidIff | backend/app/backtest/corporate_actions.py:79-90 | an event passes exactly with a verified status, a named source with reference, a hash of 64 characters and dates in order |
| PageText.NormalizeKeepsVisible | worker/services/financial_report_page_locator.py:45-48 | normalisation keeps every non-whitespace character, in order, and adds none |
| PageText.NormalizeNormalForm | worker/services/financial_report_page_locator.py:45-48 | the output has no blank line, no edge whitespace and no run of blanks, and a text is unchanged exactly when it already has that form |
| PageText.NormalizeIdempotent | worker/services/financial_report_page_locator.py:45-48 | normalising twice is normalising once |
| PageText.TrimExact | backend/alembic/versions/023_financial_report_snapshot_location.py:206-218 | `btrim` removes spaces, and only those, at the two ends |
| PageText.LinesApart | worker/services/financial_report_page_locator.py:45-48 | each line end, written in any of the three ways, separates two lines that are normalised apart; an empty one disappears |
| PageText.WordsApart | worker/services/financial_report_page_locator.py:45-48 | within a line blanks between two visible characters become one space, and both sides are normalised apart |
| PageText.EdgesGo | worker/services/financial_report_page_locator.py:45-48 | white space at the ends of a line goes |
| PageText.WordStays | worker/services/financial_report_page_locator.py:45-48 | what has no blank in it and no white space at its ends stays: with the three rules before, this determines the result for every text whose lines have no white space but blanks next to a blank |
| PageText.StripExact | worker/services/financial_report_page_locator.py:45-48 | stripping splits a text into white space, what remains, and white space, and what remains neither begins nor ends with any |
| PageLocator.LocateMetadata | worker/services/financial_report_page_locator.py:108-161 | field by field the first 100 matches in page and offset order, judged by the total; each row gives page, offsets, the matched text cut to 500 characters, the hash of at most 80 characters on either side, and the value: a date in ISO form, prefix and unit, or a heading after the scope it names, consolidated exactly for a consolidated heading; every field has a row |
| PageLocator.Candidates | worker/services/financial_report_page_locator.py:111-136 | the early exits and the cap yield the first min(100, total) matches, and `truncated` holds exactly when there are more |
| PageLocator.HitsOrdered | worker/services/financial_report_page_locator.py:113-116 | matches are listed in page order and, within a page, in offset order without overlap |
| PageLocator.HitsComplete | worker/services/financial_report_page_locator.py:113-116 | the matches considered are all those in pages with text, and no others |
| PageLocator.RowsByTotal | worker/services/financial_report_page_locator.py:137-160 | the total decides: one located row iff it is 1, the truncation reason iff it exceeds 100, one unresolved row iff it is 0 |
| PageLocator.NormalizedValueShape | worker/services/financial_report_page_locator.py:96-105 | every normalised value has 1 to 128 characters, not all blank, and a scope only for statement headings |
| PageLocator.PeriodReadsBack | worker/services/financial_report_page_locator.py:97-98 | a report period is in ISO form and reads back as the year, month and day that were matched |
| PageLocator.RowsMeetConstraints | backend/alembic/versions/023_financial_report_snapshot_location.py:203-231 | every row of a field meets the location CHECK constraints and the page trigger |
| PageLocator.AllRowsMeetConstraints | backend/alembic/versions/023_financial_report_snapshot_location.py:336-353 | so does every row the locator emits for a document |
| PageStore.ExtractPages | worker/services/financial_report_page_locator.py:51-93 | one page per raw page with the right status, hash, count and reason, each meeting the page CHECK; extraction errors become failed pages |
| PageStore.RunOf | worker/services/financial_report_page_locator.py:247-254 | the inserted run is `success` exactly when every page has text, and the run CHECKs, the reason's length included, refuse it only for times out of order or a page count beyond the column |
| PageStore.PageLocationStore.InsertRun | worker/services/financial_report_page_locator.py:257-322 | one transaction: all rows of the run or none, exactly when keys, CHECKs and triggers (observed snapshot, derived-research review) admit them, and all constraints of the three tables hold afterwards |
| PageStore.PageLocationStore.Persist | worker/services/financial_report_page_locator.py:233-330 | existing run, no text, stored or refused: which case applies, the returned counts, and that nothing changes unless rows were inserted |
| PageStore.PipelineAdmissible | worker/services/financial_report_page_locator.py:51-161 | whatever the pages, the locator's rows are admissible together with them |
| PageStore.LocateReport | worker/services/financial_report_page_locator.py:233-330 | extraction, location and storage end to end: with fresh identifiers and a working database a report is stored exactly when it has a text page and no accepted run yet, its snapshot and review satisfy the run trigger, its times are in order and its page count fits the column, so no page or location row can be refused; then run, pages and locations are in their tables as produced and earlier rows untouched, otherwise nothing changes |
| PageStore.StoredRuns | backend/alembic/versions/023_financial_report_snapshot_location.py:93-130 | every stored run meets its table's constraints over its columns, and no snapshot has two accepted runs |
| PageStore.StoredPages | backend/alembic/versions/023_financial_report_snapshot_location.py:135-166 | every stored page belongs to a stored run and meets its CHECK over its columns |
| PageStore.StoredLocations | backend/alembic/versions/023_financial_report_snapshot_location.py:203-231 | every stored location meets its CHECKs over its columns and points to a page with text of its own run |
| CivilDates.OrdinalOrder | backend/scripts/import_sprint13_dataset.py:51-62 | calendar order is the order of day ordinals |
| CivilDates.PreviousDayOrdinal | backend/scripts/import_sprint13_dataset.py:60-62 | `d - timedelta(days=1)` is the day with the preceding ordinal |
| CivilDates.LastOfMonth | backend/scripts/import_sprint13_dataset.py:60-62 | the day before the first of the next month is the last day of the month, across year ends and leap years |
| ImportMonths.Months | backend/scripts/import_sprint13_dataset.py:51-57 | the loop terminates with the consecutive first-of-month dates from the lower bound's month to the last one not after the upper bound |
| ImportMonths.WindowsAreConsecutive | backend/scripts/import_sprint13_dataset.py:51-62 | each window [m, month_end(m)] ends the day before the next begins, and the last one ends on the upper bound |
| ImportMonths.InWindowIff | backend/scripts/import_sprint13_dataset.py:60-62 | a window contains exactly the dates of its month up to the upper bound |
| ImportMonths.WindowsPartition | backend/scripts/import_sprint13_dataset.py:51-62 | a date lies in some window exactly when it lies between the first of the lower bound's month and the upper bound, and then in exactly one |
| ImportMonths.CoversRangeIffMonthStart | backend/scripts/import_sprint13_dataset.py:51-62 | the windows cover exactly the date range if and only if the lower bound is the first of a month |
| Checkpoints.Retry | backend/app/data/dataset_expansion.py:285-302 | the first successful attempt counts, after waits that double; exhaustion reports the limit and the last error; a limit below one is refused |
| Checkpoints.ImportRun.BindRun | backend/scripts/import_sprint13_dataset.py:102-138 | creates the run, re-opens one with the same definition and clears its failure, or refuses and changes nothing |
| Checkpoints.MismatchesExact | backend/app/data/dataset_expansion.py:265-275 | a refusal lists exactly the fields of the definition that differ |
| Checkpoints.ImportRun.Checkpoint | backend/scripts/import_sprint13_dataset.py:141-192 | the upsert: batch kept when the report has none, attempts added, last attempt moved only by attempts, the rest overwritten |
| Checkpoints.ImportRun.ProcessMonth | backend/scripts/import_sprint13_dataset.py:585-727 | for every behaviour of provider, writer and database: raises exactly when a transaction does not commit, and a normal return's status is the stored one and not `running` |
| Checkpoints.CheckpointHistory | backend/scripts/import_sprint13_dataset.py:141-192 | over any history of calls for any keys: attempt_count is the sum of the attempts all normal returns reported, batch_id the last non-null one, and the row is `running` exactly while the last started call has not returned normally |
| Checkpoints.StatusIff | backend/app/data/dataset_expansion.py:216-244 | what each status of a month means: certified exactly when the provider answered and either the stored rows match and cover the calendar, or nothing was stored and the writer certified the fetched rows; fetch_failed exactly when all attempts failed; likewise review_required and write_failed |
| Checkpoints.ReportedCounts | backend/scripts/import_sprint13_dataset.py:617-727 | what a month reports: the attempts up to the first answer or the third failure, and fetched and certified rows, batch and reason by provider, stored rows and writer |
| Checkpoints.CertifiedReplay | backend/scripts/import_sprint13_dataset.py:617-661 | replaying a certified month keeps batch, verdict and row count and adds the attempts of the new fetch |
| Checkpoints.ReplayOverHistory | backend/scripts/import_sprint13_dataset.py:617-661 | a replay of a month certified at any earlier point of a history in which each call finds what earlier ones stored: `certified` exactly when the provider answers, the rows still match and are as many as the month's trading days; otherwise exactly when it is review_required, validation_failed or fetch_failed; the stored rows never change in number |
| Checkpoints.StoredOnce | backend/app/data/certified_store_writer.py:65-80 | over any such history a month's rows are stored at most once |
| Checkpoints.CertifiedIsStored | backend/scripts/import_sprint13_dataset.py:617-727 | a certified checkpoint has rows in the store |
| Checkpoints.LateStartExample | backend/app/data/certified_store_writer.py:126-152 | the writer checks the calendar between the first and last row only: a month whose rows start late is certified by one run and review_required by an identical second one |
| Checkpoints.BindingNeverChanges | backend/alembic/versions/014_dataset_expansion_integrity.py:52-68 | over any sequence of bindings and completions a run keeps the definition it was first bound to |
| Checkpoints.Rebind | backend/scripts/import_sprint13_dataset.py:102-138 | the table's own bind and complete calls move its run as the step function of that history does, and refuse exactly a different definition |
| ProviderAudit.ProviderComparison | backend/scripts/import_sprint13_dataset.py:277-298 | PASS exactly when open, high, low and close are each at most 0.01 apart, else FAIL |
| ProviderAudit.SampleDays | backend/scripts/import_sprint13_dataset.py:307-313 | the sampling loop takes the middle shared day of each month that has one |
| ProviderAudit.SampleIsMiddle | backend/scripts/import_sprint13_dataset.py:308-313 | a month's sample has as many of the month's shared days before it as after it, or one more |
| ProviderAudit.SamplesComplete | backend/scripts/import_sprint13_dataset.py:309-313 | at most one sample per month, and as many as months exactly when every month has a shared day |
| ProviderAudit.PassIff | backend/app/data/dataset_expansion.py:315-341 | the four conditions of the summary come down to one: every month is sampled and the providers agree on its sample |
| ProviderAudit.AuditStock | backend/scripts/import_sprint13_dataset.py:301-379 | the audit of a stock passes exactly when there was no fetch error and the providers agree on a shared day of every month; a fetch error yields one REVIEW row |
| ProviderAudit.SummaryFields | backend/app/data/dataset_expansion.py:315-341 | the counts of a summary, and that the missing months are those of which no day was compared |
| QuoteStore.Store.PersistBatch | worker/services/quote_store.py:64-186 | by its inputs and the tables it finds: which outcome a call has and exactly when it raises; the two row tables on every path, either those of before or with exactly the missing rows added, nothing lost, also after a lost final update; every column of the batch row, with its reason; quotes, provenance and batches stay consistent, also after retention has dropped quotes |
| QuoteStore.Store.InsertQuotesAndProvenance | worker/services/quote_store.py:212-305 | one transaction: all new rows with their provenance, or both tables unchanged; it fails exactly on a database fault or an orphaned provenance row in the way |
| QuoteStore.Store.FinalizeBatch | worker/services/quote_store.py:307-335 | closing a batch leaves every batch that was not abandoned finished, with counters that count its provenance rows |
| QuoteStore.Screen | worker/services/quote_store.py:90-120 | the initial status and the rows worth writing, from the metadata, the request and the quotes |
| QuoteStore.ValidRowsExact | worker/services/quote_store.py:99-106 | the rows kept are exactly the requested codes with a valid quote, each once |
| QuoteStore.WrittenCodes | worker/services/quote_store.py:228-303 | a successful write accepts, once each, exactly the codes whose quote was not stored, and every stored quote keeps its provenance |
| QuoteStore.RefusedIffOrphaned | worker/services/quote_store.py:277-303 | a write is refused exactly when provenance stands under one of its keys without its quote, which retention can leave behind |
| QuoteStore.LaterIsNotOrphaned | worker/services/quote_store.py:277-303 | at a receive time no provenance row carries yet, nothing orphaned is in the way |
| QuoteStore.Store.Retain | backend/alembic/versions/001_initial_schema.py:211-217 | the retention policy drops any set of quotes, no provenance, and keeps the tables consistent |
| QuoteStore.Recorded | backend/alembic/versions/015_realtime_quote_provenance.py:49-70 | the provenance rows a write adds are the new batch's, one per accepted code, and no other batch gains or loses any |
| QuoteStore.AllAccepted | worker/services/quote_store.py:164-186 | accepted codes are distinct, requested and offered with a valid quote, accepted + rejected = deduplicated request, and nothing is rejected exactly when every requested code was accepted |
| QuoteStore.AcceptedIff | worker/services/quote_store.py:98-180 | in a batch that is written and does not fail a code is accepted exactly when it is requested, not stored at that time, and offered with a positive price whose high and low, where both count, are not swapped; without a database fault it fails exactly for such a code whose provenance was left without its quote |
| QuoteStore.StartsIff | worker/services/quote_store.py:81-121 | exactly when a batch starts, over the metadata's fields and the quotes': a safe source, no supplied failure and, unless nothing is requested, one such quote; and exactly when it is `fetch_failed` |
| QuoteStore.StatusIff | worker/services/quote_store.py:103-180 | so the final status follows from the initial one and the outcome of the write |
| QuoteStore.StoredAsGiven | worker/services/quote_store.py:204-318 | what a write adds are quotes as they were given for requested codes, each with the batch's provenance; nothing stored before changes |
| QuoteStore.SuccessIffAllAccepted | worker/services/quote_store.py:174-186 | `success` iff nothing was rejected holds exactly when the request is not empty or the metadata lets the batch start and its commit goes through |
| QuoteStore.EmptyRequestExample | worker/services/quote_store.py:108-136 | every call with an empty request and metadata that supplies `fetch_failed` returns `fetch_failed` with nothing accepted and nothing rejected, whatever the tables, quotes and faults |
| QuoteSync.ChunksPartition | worker/services/quote_sync.py:57-58 | the chunks concatenate back to the code list |
| QuoteSync.ChunkCount | worker/services/quote_sync.py:57-58 | there are ceil(n / batch_size) chunks, none empty or longer than batch_size |
| QuoteSync.Service.SyncChunk | worker/services/quote_sync.py:59-103 | a fetch error becomes a `fetch_failed` batch, a result is the outcome of persisting what was fetched, the call raises exactly when persisting does, no stored quote is lost, accepted codes are stored with quotes fetched for them, and the cache gains exactly the accepted codes' entries whose SET does not fail |
| QuoteSync.Service.SyncAll | worker/services/quote_sync.py:42-127 | every requested code is counted once, as synced or failed, exactly for a positive batch size or no codes; it raises exactly for a zero step or when some chunk raises; no stored quote is lost and all accepted ones are stored as they were fetched; the cache is that of `Cached`, for the chunks before the first raising one when it raises |
| QuoteSync.CachedIsLastAccepted | worker/services/quote_sync.py:90-106 | a cache entry after a run is that of the last batch that accepted its code, if one did and the cache takes it, and otherwise what it was; no entry is lost |
| Accounts.StepEffect | worker/services/portfolio_sync.py:96-205 | one synchronisation, snapshot, reconciliation or release keeps every mode's latest cash and does what it is for in every mode: exact totals, or drifts of at most 1 |
| Accounts.CashNeverChanges | worker/services/maintenance_ops.py:29-172 | no sequence of the four operations, with an increasing clock, changes the latest cash of any mode |
| Accounts.RowsKeepCash | worker/services/maintenance_ops.py:29-172 | account rows are never removed and keep their cash and mode; snapshots and releases change none of the old rows |
| Accounts.SyncPositions | worker/services/portfolio_sync.py:96-142 | over all modes exactly the open positions with a price are marked to it, value = cost + profit, and no quantity changes |
| Accounts.SyncedRow | worker/services/portfolio_sync.py:151-199 | a synchronisation rewrites each mode's newest row: time, totals of its open positions as marked, their number and share, nothing else |
| Accounts.SnapshotCarries | worker/services/maintenance_ops.py:29-97 | a snapshot is the newest row of its mode and carries cash, frozen cash and profits over from the row before, NULL becoming 0 |
| Accounts.RatioIsShare | worker/services/portfolio_sync.py:180-190 | the recorded ratio is the positions' share of the total whenever there is a total |
| Accounts.IssueOf | worker/services/maintenance_ops.py:137-155 | an issue is critical exactly when one of the two drifts exceeds 1000 |
| Accounts.DriftedIff | worker/services/maintenance_ops.py:129-152 | a row has drifted exactly when its total or its market value is more than 1 away, up or down, from what cash and positions give; the issue states both distances and is critical exactly above 1000 |
| Accounts.ReconciledRow | worker/services/maintenance_ops.py:153-167 | a reconciliation sets total, market value and time of each drifted newest row, and leaves the others as they are |
| Accounts.OpenCountExact | worker/services/portfolio_sync.py:168-184 | the position count is the number of a mode's positions with a positive quantity |
| Accounts.OpenValueBySum | worker/services/portfolio_sync.py:168-184 | the value of a mode's positions is the sum of the market values its open positions have |
| Accounts.TotalsAfterAnyRun | worker/services/maintenance_ops.py:61-90 | wherever in a run a synchronisation or snapshot comes, it leaves total_assets = cash + sum of open position values |
| Accounts.ReconcileAfter | worker/services/maintenance_ops.py:100-172 | right after a reconciliation, synchronisation or snapshot a reconciliation reports nothing and changes nothing |
| Accounts.QuietReconcile | worker/services/maintenance_ops.py:137-164 | books whose drifts are at most 1 are left alone |
| Accounts.ReleaseEffect | worker/services/portfolio_sync.py:61-94 | T+1 release: a row changes exactly when it is targeted, open and has less available than it holds, and then only to have all of it available; a second release changes nothing |
| Accounts.ReleaseKeepsTotals | worker/services/portfolio_sync.py:61-94 | a release changes no value: exact totals stay exact and quiet books quiet |
| Accounts.LatestRewritten | worker/services/portfolio_sync.py:151-205 | rewriting the latest row with a newer time keeps it the latest and leaves the other modes' latest rows alone |
| AccountService.Ledger.SyncAll | worker/services/portfolio_sync.py:43-59 | one transaction over the three modes; it fails, changing nothing, exactly when the lookup of some open position raises; its statistics give, per mode, the positions priced and found and whether there was a row, and their sums |
| AccountService.SyncOneMode | worker/services/portfolio_sync.py:96-149 | the loop over one mode's positions marks exactly those with a price and refuses as soon as a lookup raises |
| AccountService.Ledger.TakeEodSnapshot | worker/services/maintenance_ops.py:29-97 | appends one snapshot row for each mode that has a row, and counts them |
| AccountService.Ledger.ReconcileAccounts | worker/services/maintenance_ops.py:100-172 | reports exactly the drifted modes of the books it found, repairs exactly those, and is critical iff one of them is |
| AccountService.Ledger.ReleaseAvailableQuantity | worker/services/portfolio_sync.py:61-94 | performs the release of the model and returns the number of rows that changed |
| RiskAgent.RunSafe | backend/app/ai/base_agent.py:55-132 | whatever an agent does there is a result, a success exactly for an answer in time; a timeout and an exception are told apart and stand for the neutral result |
| RiskAgent.Evaluate | backend/app/ai/risk_agent.py:26-112 | the rule cascade computes the score, level and pass flag of the factors present, and one issue per factor |
| RiskAgent.FactorsByFields | backend/app/ai/risk_agent.py:26-80 | each risk factor over the fields of the context, with its threshold and side; what is missing or zero is no risk |
| RiskAgent.UsableCountExact | backend/app/ai/risk_agent.py:26-80 | agents count that answered in time and did not call their answer degraded |
| RiskAgent.RiskScoreProperties | backend/app/ai/risk_agent.py:29-90 | the score stays in [0, 100], never rises when a factor is added, is 100 exactly without factors, and an ST stock is EXTREME |
| RiskAgent.FactorsByLevel | backend/app/ai/risk_agent.py:73-90 | how the factors make up the score, for ST stocks and others, and which levels they give |
| RiskAgent.NearLimitRange | backend/app/ai/risk_agent.py:57-63 | the near-limit test without division: the limit is above the price and less than 2% of the price away |
| RiskAgent.AddedRiskNeverHelps | backend/app/ai/risk_agent.py:43-72 | fewer usable agents, a rising trend output or an ST flag never raise the score of a context |
| Aggregator.CompositeInRange | backend/app/ai/aggregator.py:100-100 | with agent numbers in range the composite is in [0, 1] |
| Aggregator.CompositeMonotone | backend/app/ai/aggregator.py:241-279 | the composite rises with every agent's view, measure and confidence and with the risk score |
| Aggregator.WeightIsInfluence | backend/app/ai/aggregator.py:16-29 | replacing one agent's result moves the composite by exactly that agent's documented weight times the change of its score |
| Aggregator.TrendDominatesStrength | backend/app/ai/aggregator.py:241-248 | at equal confidence a rising trend outscores a falling one whatever the strengths; without confidence a trend counts half |
| Aggregator.ScoreAgainstGrowth | backend/app/ai/aggregator.py:250-257 | 43 points of overall score outweigh any growth outlook, 42 do not |
| Aggregator.SentimentDominatesHeat | backend/app/ai/aggregator.py:259-266 | a better sentiment outscores a worse one whatever the heat |
| Aggregator.ShorttermOrder | backend/app/ai/aggregator.py:268-276 | BUY outscores everything else and HOLD outscores AVOID whatever the confidences; exactly when SELL outscores HOLD |
| Aggregator.NeutralScores | backend/app/ai/aggregator.py:241-279 | what a missing, degraded or empty output scores with each agent |
| Aggregator.PstdevTest | backend/app/ai/aggregator.py:197-200 | the test `pstdev > 0.25` holds exactly when its square-root-free form does |
| Aggregator.CalibrateConfidence | backend/app/ai/aggregator.py:182-211 | the loop and the penalties compute the calibrated confidence |
| Aggregator.CalibratedBounds | backend/app/ai/aggregator.py:182-211 | calibrated confidence lies in [0, composite], and bounds on how far the penalties take it down |
| Aggregator.DegradedTakeEight | backend/app/ai/aggregator.py:182-211 | each degraded agent takes 8 points of a score off, down to half of it |
| Aggregator.ConfidencesOfAll | backend/app/ai/aggregator.py:190-200 | the confidences compared are those of the healthy LLM agents |
| Aggregator.FindDegradedAgents | backend/app/ai/aggregator.py:225-239 | lists, in weight order, exactly the agents that are missing, degraded or unsuccessful |
| Aggregator.ActionIff | backend/app/ai/aggregator.py:57-116 | BUY and SELL exactly when all five agents succeeded undegraded, risk is not EXTREME and the scores pass; only BUY depends on the calibrated confidence |
| Aggregator.HealthyByFields | backend/app/ai/aggregator.py:225-239 | healthy means that every agent is there, succeeded, and does not call its answer degraded |
| Aggregator.SignalFields | backend/app/ai/aggregator.py:57-142 | confidence, raw score, level and degraded agents of a signal: extreme risk comes before degraded agents, and these before any score |
| Aggregator.ConfidenceInRange | backend/app/ai/aggregator.py:144-180 | a signal's confidence is in [0, 1] and never exceeds its raw confidence |
| Aggregator.RedistributionConserves | backend/app/ai/aggregator.py:281-294 | redistributed weights still total 1 exactly when some agent is left and none is listed twice |
| Aggregator.AdjustWeights | backend/app/ai/aggregator.py:281-294 | the redistribution itself, which no code of the repository calls: zero for degraded agents, an equal share of the lost weight for the others, unchanged weights for an empty list |
| Aggregator.Aggregate | backend/app/ai/aggregator.py:37-142 | the early returns and the threshold cascade produce the signal the lemmas are about |
| Orchestrator.Run | backend/app/ai/orchestrator.py:48-132 | agents, risk rules and aggregation composed as the run composes them, blocked contexts included |
| Orchestrator.ResultsByInputs | backend/app/ai/orchestrator.py:48-132 | which answer goes to which agent's result, what the risk rules see of the trend and of the number of healthy agents, and that a context that is not ready yields no success |
| Orchestrator.FailClosed | backend/app/ai/orchestrator.py:48-180 | a context that is not ready, any LLM agent that timed out, failed or answered degraded, or an ST stock ends in HOLD whatever the other outputs and the settings |
| Orchestrator.BuyIff | backend/app/ai/orchestrator.py:48-132 | exactly when a run ends in BUY |
| Orchestrator.BuyNeedsModerateRisk | backend/app/ai/aggregator.py:57-116 | with the shipped thresholds no run buys on HIGH risk either: the score cap and the two penalties keep the confidence below the minimum |
| SourceUsage.LoadSourceUsageContext | backend/app/api/research.py:230-322 | the context of every provider and source is the one described by the set of its rows: distinct sorted terms and reviews, newest review per usage, and `rejected` iff the newest review of some document and usage is a rejection |
| SourceUsage.OrderIndependent | backend/app/api/research.py:230-322 | any two row orders, with or without repetitions, give the same contexts |
| SourceUsage.IdsOnce | backend/app/api/research.py:245-283 | each terms id and each review id is listed once |
| SourceUsage.ListedInOrder | backend/app/api/research.py:285-300 | reviews run from the newest to the oldest, terms by url and from the oldest, with ids settling ties |
| SourceUsage.FirstOfTermsIsNewest | backend/app/api/research.py:299-307 | the first review met per document and usage in the sorted history is the newest by (reviewed_at, review_id) |
| Ordering.SortedDetermined | backend/app/api/research.py:284-298 | two strictly sorted lists with the same elements are equal, which is why the order of the rows does not matter |
| Ordering.SortedSorts | backend/app/api/research.py:284-298 | sorting distinct comparable records keeps them and orders them strictly |
| ReviewRegister.OneImmutableRow | backend/alembic/versions/039_financial_location_review_audit.py:62-65 | in every interleaving of posts there is at most one row per principal and key, and rows are never changed, moved or removed |
| ReviewRegister.SameKeySameRow | backend/app/api/research.py:1336-1367 | two successful requests under one key got the same row, even while they overlapped, and at most one of them was told it was created |
| ReviewRegister.RepeatIffSamePayload | backend/app/api/research.py:1336-1365 | once a row is stored under a key, an answered request under that key succeeds with that first row exactly when its payload hashes alike, is refused otherwise, and never adds a row |
| ReviewRegister.RepeatIffSameReview | backend/app/api/research.py:1336-1365 | over every run: once a row created by one request stands in its slot, a later request there that is answered other than by failure repeats that row exactly when evidence, location, conclusion, stripped reason and the checked versions agree, and conflicts otherwise |
| ReviewRegister.SameSlotIff | backend/app/api/research.py:1264-1267 | two requests share a slot exactly when principal and stripped key are the same |
| ReviewRegister.CheckedAsAsked | backend/app/api/research.py:1291-1295 | what is hashed for a request are its fields and the versions found when it was checked |
| ReviewRegister.StaleRepeatRefused | backend/app/api/research.py:1271-1294 | over every run: a request checked while a row stands under its key is, after its location disappeared, not found, and after document or locator changed answered with a failure or a conflict, never with a row |
| ReviewRegister.AskedStays | backend/app/api/research.py:1271-1367 | what a request asks for is settled when it is checked, and its answer is final, whatever happens later |
| ReviewRegister.WhitespaceDoesNotMatter | backend/app/api/research.py:50-75 | white space around key and reason changes neither the slot nor the request hash |
| ReviewRegister.StepKeeps | backend/app/api/research.py:1259-1367 | each step of a request keeps the register's invariant: one row per slot, pending inserts apart, every answer backed by a row |
| ReviewService.ReviewTable.Append | backend/app/api/research.py:1422-1489 | a request run without interruption answers and changes the table as the step machine does; over the request's fields: which answer it gets, the row it stores, and that the table gains at most that row |
| SnapshotStore.ValidatePdfResponse | worker/services/financial_report_snapshot_store.py:38-51 | succeeds exactly for a PDF of the expected hash and length, and tells the two kinds of failure apart |
| SnapshotStore.Store.WriteSnapshotAtomically | worker/services/financial_report_snapshot_store.py:54-78 | for any directory: succeeds exactly for a plain key when an existing target holds the same bytes, or a missing one is written without a fault; after every file operation the target is as before or newly complete, other targets are untouched, and a failure leaves the targets of before |
| SnapshotStore.Store.InsertSnapshot | worker/services/financial_report_snapshot_store.py:268-313 | the CHECKs, the insert trigger and the unique index decide what is stored, the exact success condition, and that an observed row in the way is returned instead |
| SnapshotStore.Store.PersistObserved | worker/services/financial_report_snapshot_store.py:175-221 | succeeds exactly when the response is the expected PDF, its place is writable, CHECKs and trigger admit the row and the database answers; the stored rows on every path, and `inserted` exactly when the evidence had no observed row; every failure restores the target files; success leaves the evidence's observed row backed by its file; files and rows keep agreeing except for exactly the inputs of `LosesFile` |
| SnapshotStore.PlaceableIff | worker/services/financial_report_snapshot_store.py:38-78 | exactly when a response finds its place, over its bytes, the candidate's hash, length and name, the directory and the disk |
| SnapshotStore.RecordableIff | backend/alembic/versions/023_financial_report_snapshot_location.py:48-66 | exactly when trigger and CHECKs admit the row of a valid document |
| SnapshotStore.KeyLengthExact | backend/alembic/versions/023_financial_report_snapshot_location.py:54-56 | the length the key's CHECK sees: the document's part without its leading spaces, and 69 characters more |
| SnapshotStore.StoredRows | backend/alembic/versions/023_financial_report_snapshot_location.py:48-70 | every stored row meets the table's constraints over its columns, and no evidence has two observed rows |
| SnapshotStore.LostAnswerExample | worker/services/financial_report_snapshot_store.py:206-211 | a first snapshot whose insert commits but loses its answer: the call fails, its row stays, its file is gone |
| SnapshotStore.Store.PersistFailure | worker/services/financial_report_snapshot_store.py:223-266 | a failed attempt is recorded, as the one stated row with its reason stripped and cut to 2000 characters, exactly when its status is a failure, its reason has visible text, byte counts are positive, the trigger admits it and the database answers; no file and no observed row is touched |
| SnapshotStore.Store.ValidateExistingSnapshot | worker/services/financial_report_snapshot_store.py:156-173 | whatever happened to the directory, an existing snapshot is confirmed exactly when its file is present with its hash and length |
| SnapshotStore.TakenBack | worker/services/financial_report_snapshot_store.py:205-211 | taking the new file back restores the targets and agreement, except for a row committed without its caller knowing |
| EvidenceItems.NormalizeItem | worker/services/research_evidence_store.py:313-647 | the checks run in order and every error is collected; the row is observed exactly when none fails; stock, id, batch, kind and precision are the item's, hash and size if it is observed, and the detail then is the item's: domain the host of its link, alias, title and provider time of news; title and the year it names of a report |
| EvidenceItems.NormalizedMeetsConstraints | backend/alembic/versions/020_news_evidence_details.py:19-42 | every row of every kind meets the CHECKs of migration 018 on status and size, every report and news detail the NOT NULL and CHECK constraints of migrations 019 and 020 (with the normaliser's one word where 019 admits several), and a rejected row lists exactly the checks that failed |
| EvidenceItems.FitsIff | backend/alembic/versions/018_research_evidence_observation.py:58-104 | a row fits its columns exactly when its stock code, a document id given as text and, if observed, its size do; no check on the item ensures that, and rejecting it does not help |
| EvidenceItems.AcceptedAnnouncement | worker/services/research_evidence_store.py:313-389 | an announcement is accepted exactly when it was asked for, is dated to the day, lies in the fixed document domain, and its provider vouches for it with hash and size |
| EvidenceItems.AcceptedReport | worker/services/research_evidence_store.py:391-520 | a report is accepted exactly when it is as good as an announcement, is of the annual category and kind, its label is the year its title names before the annual-report suffix, and scope, currency, unit, opinion, period end and revision are left open |
| EvidenceItems.TitleYearIff | worker/services/research_evidence_store.py:405-408 | a title names a year exactly when its visible characters end in four digits and the annual-report suffix |
| EvidenceItems.AcceptedNews | worker/services/research_evidence_store.py:522-608 | a news item is accepted exactly when it links over http or https, not to the feed, to the host it names as publisher and domain, is identified by that link, has its own title, the provider's time and an alias, claims no publication time, leaves its association to review, and came with hash and size |
| EvidenceItems.NewsDocumentIsItsLink | worker/services/research_evidence_store.py:542-562 | two accepted news items have the same document id exactly when they link to the same page |
| EvidenceItems.ErrorsExact | worker/services/research_evidence_store.py:313-647 | the collected errors are exactly those of the failed checks |
| EvidenceStore.InsertAllRepresents | worker/services/research_evidence_store.py:671-767 | a write keeps the unique key and the CHECK, removes nothing, and represents each accepted item by exactly one evidence row, with exactly one detail for news and reports |
| EvidenceStore.RepresentedStays | worker/services/research_evidence_store.py:671-767 | later batches keep an accepted item's evidence row and detail |
| EvidenceStore.ReplayAddsNothing | worker/services/research_evidence_store.py:671-767 | inserting accepted items again, in any order and number, changes no table |
| EvidenceStore.Store.InsertEvidence | worker/services/research_evidence_store.py:671-767 | all rows of a batch in one transaction, or none: exactly when the database fails or some row does not fit its columns |
| EvidenceStore.Store.PersistBatch | worker/services/research_evidence_store.py:122-267 | the course, status, reason and both counts of every batch by its inputs, exactly when a call raises, and the exact tables on every path; evidence only grows, every new row and detail tells of one of the items, an accepted item has its row with its detail, a rejected one a row without; result and stored row agree except that rejections differ exactly for a valid source supplied as `fetch_failed` with items |
| EvidenceStore.ItemsStored | worker/services/research_evidence_store.py:671-767 | a write adds only rows that tell of the items and details of the items their rows stand for, by provider, document id and hash; if all rows fit, none of the items is missing |
| EvidenceStore.CourseByFields | worker/services/research_evidence_store.py:150-267 | the outcome over the metadata's fields, the rows and the database: a source that is not exactly the fixed one, with every mark its kind calls for, is refused without looking at its items |
| EvidenceStore.MisfitLosesBatch | worker/services/research_evidence_store.py:246-258 | one item whose row does not fit, a rejected one included, turns the whole batch into `write_failed` with nothing accepted |
| EvidenceStore.AcceptedAreAcceptable | worker/services/research_evidence_store.py:216-238 | the accepted count is the number of items that meet every check |

## Left out

- Release gates, readiness and identity reviews of the dataset import, and the review rows `audit_stock` writes: copies of results already modelled.
- `validate_existing_rows`, `CertifiedStoreWriter`, `BacktestEngine`, `StrategyVersionService` and `OperationJobService`: their outcomes are inputs where a model needs them.
- HTTP handling, SQL text, Redis pub/sub payloads, logging, environment variables, PDF parsing, LLM calls and prompts, the front end and read-only endpoints.
- Regular expressions and NFKC: match lists and compatibility-normalised text are inputs of the page models, and the matches are required to be non-empty, ordered and inside the page.
- Task cancellation by asyncio, and closing the `CacheManager`.
- Float rounding, Decimal context precision, rounding to 4 decimals in signals, and column widths other than those of the evidence rows and of the parse run's page count.
- Malformed numbers in agent outputs and risk contexts: the source raises, the models take numbers.
- Wall-clock text: in `SourceUsage` identifiers, URLs and times are numbers in the order their text sorts; a row order is a list, and the order of dictionary keys in the answer is not modelled.
- Concurrent `persist_observed` calls, a failing `unlink`, and Windows path rules in `write_snapshot_atomically`, where only `/` separates; a temporary file may remain after a failed write, and nothing more is claimed.
- The year 9999 limit of Python dates in `months` and `month_end`.
- EvidenceItems.NormalizeItem: letter-case conversion of codes and domains, `urlparse`, and the parsing of dates, times and numbers are inputs; years in titles are ASCII digits; the requested codes are given without repetitions; the joined error text is the list of errors.
- EvidenceStore.InsertAllRepresents: does not say that a detail's kind matches the evidence row's, because the unique key omits the evidence type and an announcement may own the key.
- QuoteStore.Store.PersistBatch: does not state that `partial` accepted something, because every insert may conflict; batch columns that are copied from the metadata (endpoint, hashes, versions, times other than receipt) are left out.
- Accounts.ReleaseEffect: does not bound available + frozen by total, which the source does not do either.
- PageStore.RunOf: of the INTEGER columns only the page count is bounded; character counts and match offsets are not.
- Checkpoints.ImportRun.ProcessMonth: error texts are short constants, and error types of the writer's exceptions are one constant, because only their presence matters to the checkpoint.
- ReviewRegister.StepKeeps: the label, snapshot and page columns copied into a review row are left out; the row keeps its slot and request hash.
