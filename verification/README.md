# A verified model of the sync protocol and the query engine

This project models, in Dafny, the two parts of the service whose correctness cannot be read off
any single function, and proves what they promise.

**The durable sync and refresh protocol.** Connections carry request generations and one coalesced
job; workers claim jobs under lease tokens, may crash or stall between any two transactions, and
may run on after their lease was taken away; refresh targets move from queued through dispatching
and syncing to an end, and a refresh run is derived from its targets.

- `Lines` holds the database rows of one connection and every transaction on them as a function.
- `Lanes` adds the workers of a connection: a program counter with locals for each claim, one step
  for each transaction and each provider call, steps of different workers interleaving freely.
- `Fleet` is the whole service: all connections, the runs and the requests mapped to them, the
  transaction cache and a clock that never goes back. A run of the service (`IsRun`) is any finite
  sequence of its actions.
- `LaneInvariant`, `LaneSteps`, `LaneEffects` and `FleetInvariant` prove the invariant kept by every
  action; `Reach`, `Fencing`, `Freshness`, `RefreshSafety`, `Requests`, `Refreshes` and `Retries` prove
  what holds over every run, in terms of the actions of the run; `Scenarios` holds two concrete runs
  that end where the documentation says none can.
- `Spelled` says in plain values what each transaction writes, states by name and times in seconds, and
  `Effects` proves it of every action of every run, so that what a step does rests on more than the
  function that computes it.
- `Database` is a class with the tables as fields and the transactions as methods, each proved to
  leave exactly what its function in `Lines` says and to keep the tables valid; `Refinement` proves that
  the steps of `Fleet` and the methods of `Database` do the same to the tables, and that in every
  state of every run the tables are valid and the workers meet what the methods ask of them.
- `Worker` is one turn of a worker that nobody interrupts, as a method over the database.
- `Reconcile` (the apply of provider pages to the cache), `PageLoop` (the page loop of one attempt),
  `Provider` (what is asked of the provider) and `DemoGateway` (the demo banks, which meet it).

**The query engine over the cache.** Fast forms are proved equal to simple ones: `Paging` and
`Merging` (keyset pagination and the joining of pages in the dashboard), `Alerts` (one memoised scan
for all limit rules), `Prefilter` (one filter for many keywords), `Folding` (decomposing, ordering,
case-folding and collapsing of texts), `Matching` (literal text in LIKE patterns and full-text
phrases), `Trigrams` (the trigger-maintained index), `Summaries` (sums per card, over all cards, for
saved aggregates and in the dashboard), `Agreement` (when saved aggregates and limit rules with the
same keyword agree), `Base64` and `Cursors` (signed cursors). `Ordering` and `Wrappers` are shared
helpers.

## What the model assumes

- Every `async with session` block that commits is one atomic step: SQLite has one writer at a time.
  The two reads of the clock in the recovery of expired leases are one reading.
- Times are whole seconds and dates whole days, as integers. Generations, counts and cents are
  unbounded, as Python's integers are.
- The provider is a snapshot function over cursors (`Provider.PageOk`): the added, then modified, then
  removed rows of a page take the snapshot at the requested cursor to the snapshot at the next one; a
  transaction never changes account, and no account belongs to two logins (`Reach.Sound`). The pages of
  the demo banks are such patches (`DemoGateway.DemoKeepsContract`), and the demo banks are sound
  exactly if no account belongs to two of their logins (`DemoGateway.DemoIsSound`).
- Connection, job, run and claim identifiers are numbers; claim tokens are fresh. The tables of jobs
  and targets are cut by connection id, and a target is named by its run.
- Unicode comes as tables: full compatibility decomposition, combining class, full case folding and
  white space of each character. Canonical ordering, normalising, folding and collapsing are computed
  from them. Of the tables only `Folding.TablesOk` is used (what is decomposed or folded stays so, a
  decomposed character folds to decomposed ones, white space is no mark, capitals fold away), of the
  tokenizer only that it keeps normalised characters apart (`Agreement.TokenizerOk`). The signature of
  a cursor is a parameter.

## What turned out otherwise than documented

- A request can be lost. `docs/features/refresh-transactions/PRD.md` (RT-QUEUE-003) says a webhook
  received during a running sync is never lost. `_finish_without_sync` and a failure that is not
  retried end the job without looking at the requested generation. `Requests.LosesExactly` says
  exactly which steps lose a request, `Requests.NoRequestLostSilently` exactly when one is lost, and
  `Scenarios.WebhookRequestCanBeLost` gives a run.
- The per-card pager leaves out the rows without a date once its cursor stands on a dated row.
  `Paging.CardPagerCoversExactly` says when it shows everything: no row lacks a date, or fewer rows
  have one than a page holds. `Paging.UndatedRowIsMissed` gives a table of two rows.
- A repeated request key whose mapping has expired but is not cleaned up yet runs into the unique
  index. `Refreshes.KeyIsRefusedExactly` says when, and `Scenarios.RepeatedKeyIsRefused` gives a run.
- The net of a saved aggregate and the total of an all-time rule with the same keyword can differ. The
  aggregate searches the columns as they were sent, the rule only the search text made of them.
  `Agreement.DisagreesExactly` says for which rows, `Agreement.AgreeExactly` for which tables the sums
  agree whatever the amounts are, `Agreement.SavedNetIsAlertTotal` gives a check of the columns that
  plain ASCII always passes, and `Agreement.MarksDisagree` gives a row: two combining marks sent out
  of canonical order, and a keyword that ends after the first. The aggregate also cuts a keyword that
  case folding made longer than 100 characters, and the rule does not
  (`Agreement.LongKeywordsDisagree`).
- A second apply of the same pages reports nothing added or removed only if no id is both put and
  removed in the batch (`Reconcile.SecondPassCountsNothing`).

## Model

| member | source | states |
|---|---|---|
| Freshness.SyncIsFresh | backend/app/services/transaction_refresh_service.py:379-412 | over every run: the commit that ends a target rests on page requests all made after the target was created and, if the refresh was accepted, after the accepted call came back |
| Freshness.Stamped | backend/app/services/sync_worker.py:89-153 | in every state of every run, what a connection remembers about creations, claims, refresh calls and first page requests names the actions that really did them |
| Freshness.HeldCommit | backend/app/services/sync_service.py:80-129 | a claim whose generation covers a target was made after the target existed, even when requests were coalesced |
| Fencing.CacheAgreesWithProvider | backend/app/services/sync_service.py:202-279 | in every state of every run the rows cached for an active connection are the provider's snapshot at its cursor cut to its cards, and no other row is cached |
| Fencing.CachedRowsShowTheProviders | backend/app/services/sync_service.py:371-394 | in every state of every run each cached row of an active connection has the provider row's dates, amount, pending flag and text, and its currency or USD; and every row the provider has there for its cards is cached |
| FleetInvariant.CommitKeepsCache | backend/app/services/sync_service.py:253-277 | a commit moves the cache of its connection to the cursor it writes and leaves every other connection's rows alone |
| FleetInvariant.DisconnectKeepsCache | backend/app/services/connection_service.py:385-417 | a disconnect removes exactly the rows of the connection's cards |
| Provider.ChainMovesCache | backend/app/services/sync_service.py:317-355 | applying an unbroken chain of pages to a cache that shows the snapshot at its start leaves one that shows the snapshot at its end |
| Provider.VisiblePage | backend/app/services/sync_service.py:357-413 | patching the snapshot and hiding foreign accounts is the same as applying the page to the visible rows |
| Fencing.StaleWorkerWritesNothing | backend/app/services/sync_worker.py:276-324 | a worker whose token no longer holds the job changes no row of any table |
| Fencing.LostForever | backend/app/services/sync_worker.py:299-314 | a claim that lost its job never holds it again, over any run |
| Fencing.CommitsFormAChain | backend/app/services/sync_service.py:236-277 | each commit of a connection starts at the cursor the commit before it wrote |
| Fencing.LaneProgress | backend/app/services/sync_service.py:243-264 | the cursor moves only in a commit that passes the fence, and generations never fall |
| Fencing.GenerationsNeverFall | backend/app/models.py:130-137 | over any run the completed generation never falls and never passes the requested one |
| Fencing.CommitInsideLease | backend/app/services/sync_service.py:236-246 | a commit happens strictly within one lease length after the lease was last granted |
| Fencing.ExpiredNeverCommits | backend/app/services/sync_worker.py:405-421 | a worker whose lease ran out at any time never commits again, even if nobody took the job from it yet |
| LaneEffects.FencedOut | backend/app/services/sync_worker.py:255-274 | without the lease no worker step changes the rows of its connection |
| LaneEffects.LostForGood | backend/app/services/sync_worker.py:392-427 | no step of any worker gives a lost claim back |
| RefreshSafety.DispatchesAreSafe | backend/app/services/transaction_refresh_service.py:249-303 | over any run with crashes and recoveries, two dispatches on a connection are for different runs and at least 900 seconds apart, so a target is dispatched at most once |
| RefreshSafety.NoDispatchAfterRefusal | backend/app/services/transaction_refresh_service.py:305-340 | once a holder has stored the provider's refusal of refreshes, no dispatch on the connection follows, over any run |
| RefreshSafety.UnsupportedExactly | backend/app/services/transaction_refresh_service.py:305-340 | a connection counts as unsupported exactly when a holder stored the provider's refusal before |
| RefreshSafety.OneCallPerTarget | backend/app/services/sync_worker.py:179-253 | over any run the provider's refresh is called at most once for a target, by stale workers as well |
| RefreshSafety.TargetsTellTheTruth | backend/app/services/transaction_refresh_service.py:379-412 | a target's state tells what happened: updated and no changes only after an accepted call and by whether rows changed, automatic updates only if support was withdrawn, cooldown with a true next time |
| Effects.CommitEnds | backend/app/services/transaction_refresh_service.py:379-412 | over any run a commit ends exactly the syncing targets its claim covers, updated, without changes, in cooldown, automatic only, unknown or failed, each if and only if outcome and counts say so |
| Effects.CommitWrites | backend/app/services/sync_worker.py:128-153 | a commit goes through exactly with job, lease, active connection and unmoved cursor, and then writes cursor, generation, job, due time and targets as spelled out |
| Effects.FailureWrites | backend/app/services/sync_worker.py:326-390 | a holder's failure puts its job back if and only if it is transient and one of the first four attempts, for 30, 120, 480 or 1800 seconds; otherwise job and target under way fail; a stale worker writes nothing |
| Effects.PrepareWrites | backend/app/services/transaction_refresh_service.py:249-303 | the first check that applies decides, gone, unsupported, within 900 seconds, unreadable; the provider is called exactly when none applies |
| Effects.RecordWrites | backend/app/services/transaction_refresh_service.py:305-340 | what a holder records is what the provider answered to its own call, and whether a sync follows |
| Effects.CarriesTheAnswer | backend/app/services/sync_worker.py:179-253 | a worker about to record made the call itself and carries its answer |
| Effects.ReserveWrites | backend/app/services/transaction_refresh_service.py:209-247 | the queued target that the job covers is reserved and its run is running, or there is none and nothing changes |
| Effects.RecoveryWrites | backend/app/services/sync_worker.py:429-461 | exactly the jobs whose lease ran out are due again now, and their target is queued again unless the provider may have been called |
| Effects.RequestWrites | backend/app/services/sync_service.py:80-129 | a request raises the generation of the job under way, or queues a new job due now with no attempts |
| Effects.ClaimWrites | backend/app/services/sync_worker.py:276-324 | a claim takes a queued and due job for one lease length, counts the attempt and remembers the generation |
| Effects.HeartbeatWrites | backend/app/services/sync_worker.py:392-421 | a heartbeat renews a lease that is held and not over, and writes nothing otherwise |
| Effects.FinishWrites | backend/app/services/sync_worker.py:255-274 | the holder's job succeeds as it stands, and a stale worker writes nothing |
| Effects.StepsLead | backend/app/services/sync_worker.py:99-177 | where each step that writes nothing leads: the failures of reading the connection, every answer of a page call, the limit of 200 calls, unexpected errors and crashes |
| Effects.ConnectionsComeAndGo | backend/app/services/connection_service.py:332-417 | a disconnect clears cards, cursor and the cached rows on these cards; a new connection starts with a job due now |
| Effects.CreationWrites | backend/app/services/transaction_refresh_service.py:139-170 | a created run is queued, kept and mapped for 604800 seconds, with a new target and request on exactly the owner's active connections |
| Effects.OtherAnswersWrite | backend/app/services/transaction_refresh_service.py:90-137 | a request that creates no run writes at most its mapping to the run under way, for 604800 seconds |
| Effects.CleanupWrites | backend/app/services/transaction_refresh_service.py:460-477 | a cleanup takes only expired runs that are over, the earliest first and all of them up to a hundred, with their mappings and targets and nothing else |
| LaneSteps.DispatchKeeps | backend/app/services/transaction_refresh_service.py:294-303 | entering the dispatch keeps everything known about the connection, the call being logged before it is made |
| LaneSteps.RecoverKeeps | backend/app/services/transaction_refresh_service.py:342-359 | recovery puts a reserved target back and turns an unanswered dispatch into an unknown outcome, keeping the invariant |
| LaneSteps.StepKeeps | backend/app/services/sync_worker.py:89-177 | every step of a worker, a stale worker or a request keeps the invariant of its connection |
| LaneSteps.CommitKeeps | backend/app/services/sync_worker.py:128-153 | the commit keeps the invariant: job, generations, target and logs move together |
| LaneSteps.TargetKeeps | backend/app/services/transaction_refresh_service.py:149-170 | a new target with its freshly requested generation keeps the invariant |
| FleetInvariant.NextKeeps | backend/app/services/sync_worker.py:89-177 | every action of the service keeps the invariant of the whole service |
| Reach.Reached | backend/app/services/sync_worker.py:89-177 | the invariant holds in every state of every run |
| Requests.AtMostOneActiveJob | backend/app/models.py:374-380 | a connection never has two active jobs, and the active one aims at exactly the requested generation, which is not completed yet |
| Requests.NoRequestLostSilently | backend/app/services/sync_service.py:80-129 | something requested is neither completed nor covered by an active job if and only if one of the two dropping steps dropped it and nothing was requested since |
| Requests.LosesExactly | backend/app/services/sync_worker.py:255-274 | an action loses a request if and only if the holder finishes without a sync or fails for good; a lost request stays lost exactly until the next one |
| Requests.SuccessCompletesAll | backend/app/services/sync_worker.py:135-157 | a sync leaves its job ended if and only if everything requested is completed |
| Requests.CommitLosesNothing | backend/app/services/sync_worker.py:135-153 | a commit completes the claimed generation and puts the job back exactly when more was requested |
| Scenarios.WebhookRequestCanBeLost | backend/app/services/sync_worker.py:99-102 | a run in which a request made while a worker prepares a refresh is left without a job |
| Refreshes.RunFollowsTargets | backend/app/services/transaction_refresh_service.py:433-458 | in every state a run has targets, is queued or running exactly while one of them is queued, refreshing or syncing, and ends succeeded, failed or partial exactly as all, none or some ended updated, without changes, automatic only or in cooldown |
| Refreshes.VerdictMeans | backend/app/services/transaction_refresh_service.py:443-453 | comparing counts decides exactly whether all, none or some targets are acceptable |
| Refreshes.FinishedStays | backend/app/services/transaction_refresh_service.py:433-458 | a run that is over never changes while it is retained, and neither does any target of it |
| Refreshes.FinishedTargetStays | backend/app/services/transaction_refresh_service.py:414-431 | a finished target never changes while its run is retained, even if the run goes on |
| Refreshes.IndexesNeverFire | backend/app/models.py:536-541 | there is never more than one active run per owner and one active target per connection |
| Refreshes.RepeatGetsTheSameRun | backend/app/services/transaction_refresh_service.py:90-108 | a request answered with a run keeps being mapped to it while the run is retained, and is answered with it exactly until the mapping expires, 604800 seconds after it was made |
| Refreshes.CreatorGetsItsRunBack | backend/app/services/transaction_refresh_service.py:139-156 | for seven days after a request created a run, the same key gets that run back, whatever happens in between |
| Refreshes.OneCreationPerActivePeriod | backend/app/services/transaction_refresh_service.py:110-137 | while a run of the owner is active, no request creates another |
| Refreshes.AnswerIs | backend/app/services/transaction_refresh_service.py:68-137 | each of the five answers to a request, if and only if its conditions hold |
| Refreshes.CreationsAreApart | backend/app/services/transaction_refresh_service.py:68-181 | between two creations for one owner the first run came to its end |
| Refreshes.NewRunSnapshotsConnections | backend/app/services/transaction_refresh_service.py:158-170 | a new run has one queued target for every active connection of its owner, with the generation just requested there |
| Refreshes.KeyIsRefusedExactly | backend/app/services/transaction_refresh_service.py:90-156 | the unique index on owner and key refuses a request exactly when its mapping expired, was not cleaned up, and there is work it could have had |
| Scenarios.RepeatedKeyIsRefused | backend/app/services/transaction_refresh_service.py:139-156 | a run in which a key creates a refresh, the refresh ends, and seven days later the same key is refused |
| Refreshes.RetainedUntilExpired | backend/app/services/transaction_refresh_service.py:460-477 | cleanup never removes a run before it expires |
| FleetInvariant.WorkKeepsRun | backend/app/services/transaction_refresh_service.py:433-458 | a worker's step leaves every run in agreement with its targets |
| LaneEffects.StepSettles | backend/app/services/transaction_refresh_service.py:209-431 | a worker's step never adds, removes or changes finished targets, and notes exactly the run whose target ended |
| Retries.RetryBudget | backend/app/services/sync_worker.py:345-363 | over any run transient failures of the first four attempts put a job back at most four times and make it wait at most 2430 seconds in all |
| Retries.IncreasingDelays | backend/app/services/sync_worker.py:39 | attempt numbers that increase use each backoff entry at most once |
| Retries.LogCounts | backend/app/services/sync_worker.py:299-314 | counting put-backs and waits along a run gives the logged attempt numbers and their delays |
| Database.Database.EnqueueSync | backend/app/services/sync_service.py:80-129 | advances the generation and folds the request into the active job or queues one; refuses an inactive connection |
| Database.Database.LinkConnection | backend/app/services/connection_service.py:332-360 | a new connection starts with its cards, no cursor and its first job |
| Database.Database.ActiveJobFor | backend/app/services/sync_service.py:67-77 | finds the active job of a connection |
| Database.Database.ClaimNext | backend/app/services/sync_worker.py:276-324 | claims the earliest due job and only that, with the generation it had; nothing is due when it returns none |
| Database.Database.FirstDue | backend/app/services/sync_worker.py:284-294 | the job that is due earliest, or none when none is due |
| Database.Database.Heartbeat | backend/app/services/sync_worker.py:405-421 | renews a lease exactly when the token still holds and the lease has not run out |
| Database.Database.RecoverTargetFor | backend/app/services/transaction_refresh_service.py:342-359 | the target an abandoned job worked on goes back to where a retry is safe |
| Database.Database.RecoverExpired | backend/app/services/sync_worker.py:429-461 | every expired job goes back to the queue after its target was recovered, and nothing else changes |
| Database.Database.DeriveRun | backend/app/services/transaction_refresh_service.py:433-458 | counting targets gives the derived state, and a run with active targets is left alone |
| Database.Database.ReserveTargetForJob | backend/app/services/transaction_refresh_service.py:209-247 | the holder reserves the covered queued target and starts its run, or nothing changes |
| Database.Database.PrepareReservedTarget | backend/app/services/transaction_refresh_service.py:249-303 | what each check of a reserved target leads to, in the order of the checks |
| Database.Database.RecordDispatchOutcome | backend/app/services/transaction_refresh_service.py:305-340 | the outcome is stored once, only by the holder, and ends the target only for the listed error codes |
| Database.Database.FinishWithoutSync | backend/app/services/sync_worker.py:255-274 | the holder's job succeeds as it stands |
| Database.Database.CompleteTargetForSync | backend/app/services/transaction_refresh_service.py:379-412 | the syncing target that the generation covers ends with the counts of the sync |
| Database.Database.Synchronize | backend/app/services/sync_worker.py:107-153 | apply, cursor, generation, target, run and job move in one transaction, or nothing does |
| Database.Database.RecordFailure | backend/app/services/sync_worker.py:326-390 | a retryable failure puts the job back with its delay, any other fails it and its target |
| Database.Database.MarkTargetFailedFor | backend/app/services/transaction_refresh_service.py:414-431 | the active target of the connection fails, or asks for a reconnect |
| Database.Database.CreateOrCoalesce | backend/app/services/transaction_refresh_service.py:68-181 | answers a request by its mapping, by the active run, by a new run or by a refusal, stores exactly that, and keeps the tables valid |
| Database.Database.SnapshotConnections | backend/app/services/transaction_refresh_service.py:158-170 | enqueues a sync and adds a target on each of the connections, none of which has one under way |
| Database.Database.Disconnect | backend/app/services/connection_service.py:385-417 | removes the rows of the connection's cards and its cursor, and refuses an inactive connection |
| Database.Database.CleanupExpired | backend/app/services/transaction_refresh_service.py:460-477 | deletes the oldest expired runs that are over, at most a hundred, with their mappings and targets |
| Refinement.WorkRefines | backend/app/services/sync_worker.py:89-177 | a worker's step does to the tables what its transaction does |
| Refinement.ActionRefines | backend/app/services/sync_worker.py:429-461 | every other action does to the tables what its transaction does |
| Refinement.AnswersAgree | backend/app/services/transaction_refresh_service.py:68-181 | a request is answered in the step machine as on the tables |
| Refinement.TablesAlwaysFit | backend/app/models.py:446-560 | in every state of every run the tables are valid: unique active targets and runs, targets and mappings of runs that are there with their owner |
| Refinement.WorkersMayCall | backend/app/services/sync_worker.py:179-253 | a worker about to prepare or record, stale or not, meets what these methods ask: while it holds its job, its target is under way |
| Worker.RunOnce | backend/app/services/sync_worker.py:89-177 | works exactly when a job is due, and changes one connection only: if refresh and provider let it, the claimed generation is completed, the cache is the attempt's apply, every covered target ends by the provider's answer and the counts, and the job goes on exactly if more was requested; otherwise cursor, generations and cache stay, and the job succeeds, is put back or fails by what stood in the way; inside the lease no job is left running under its token |
| Worker.ProcessRefreshTarget | backend/app/services/sync_worker.py:179-253 | which outcome the covered queued target tells in every case, that only it and the memory of the call change, and exactly when a sync is to follow |
| Worker.SyncConnection | backend/app/services/sync_service.py:202-279 | reports counts exactly when the connection is active, readable, collected and in time; then generation, cursor, cache, covered target and job move as one, and else none of them |
| Reconcile.TransactionCache.Apply | backend/app/services/sync_service.py:317-355 | the loop over pages folds every page and reports the counts; rows are conserved; and what is left of any transaction is the last row put for it, field by field, or nothing after a removal, or what was there |
| Reconcile.TransactionCache.UpsertRow | backend/app/services/sync_service.py:357-405 | a row of a known card is stored with each of its fields, and USD where no currency is sent; a re-delivered added row is not counted |
| Reconcile.TransactionCache.RemoveRows | backend/app/services/sync_service.py:407-413 | deletes the named rows and counts those that were there |
| Reconcile.ApplyConservesRows | backend/app/services/sync_service.py:317-355 | rows after = rows before + added + modified rows not cached before - removed |
| Reconcile.ApplySettles | backend/app/services/sync_service.py:317-413 | a batch leaves the last row it put for a transaction unless it was removed in or after that page, and leaves alone what it does not name |
| Reconcile.ModifiedAreCounted | backend/app/services/sync_service.py:340-349 | the modified count is the number of modified rows on known cards, each time they are sent |
| Reconcile.ApplyIsIdempotent | backend/app/services/sync_service.py:317-413 | applying the same pages twice leaves the rows of one apply |
| Reconcile.PagesArePatch | backend/app/services/sync_service.py:317-413 | a batch of pages has one net effect on any table |
| Reconcile.SecondPassCountsNothing | backend/app/services/sync_service.py:317-413 | a second pass reports nothing added and nothing removed if and only if no id is both put and removed in the batch |
| PageLoop.CollectPages | backend/app/services/sync_service.py:281-314 | the loop with its local variables computes the attempt |
| PageLoop.CollectShape | backend/app/services/sync_service.py:281-314 | the pages form one unbroken run since the last mutation, all but the last with more to come, in at most 200 calls; a failure is the limit, the refusal of the last call, or that it was not answered |
| PageLoop.CollectedIsChain | backend/app/services/sync_service.py:281-314 | the collected pages take the snapshot at the attempt's cursor to the one at the returned cursor |
| DemoGateway.CursorRoundTrip | backend/app/services/demo_gateway.py:330-337 | a demo cursor gives its offset back |
| DemoGateway.DemoReturnsTheRest | backend/app/services/demo_gateway.py:327-340 | against the demo bank an attempt returns exactly the rows after the offset if they fit in 200 pages, and fails with the limit otherwise |
| DemoGateway.RepeatBringsNothing | backend/app/services/demo_gateway.py:327-340 | a repeated sync brings one empty page and stays at its cursor |
| DemoGateway.DemoKeepsContract | backend/app/services/demo_gateway.py:327-340 | every page of a demo bank is a patch from snapshot to snapshot |
| DemoGateway.DemoIsSound | backend/app/services/demo_gateway.py:320-340 | the demo banks are a provider as the protocol needs one if and only if no account belongs to two of their logins |
| Paging.PagesShowEverythingOnce | backend/app/services/search_service.py:400-439 | on an unchanged table following the cursors shows the matches newest first, each once, rows without a date last, in as few pages as possible |
| Paging.PagesAreFull | backend/app/services/search_service.py:380-439 | every page but the last holds as many rows as asked for, at least one and at most fifty |
| Paging.PageCountIsCeil | backend/app/services/search_service.py:387 | the number of pages is ceil(n / limit), and at least one |
| Paging.PagesOverChangesAreOrdered | backend/app/services/search_service.py:400-439 | whatever is inserted or deleted between the requests, what is shown is strictly ordered, and a row that was there all along is shown |
| Paging.NoIdTwice | backend/app/services/search_service.py:400-439 | no id is shown twice as long as no row changes its key |
| Paging.FetchAllTransactions | backend/app/services/search_service.py:380-439 | the statement, narrowed and cut step by step, gives the page after the cursor |
| Paging.RestAfterPage | backend/app/services/search_service.py:400-416 | the cursor condition cuts off exactly what was shown |
| Paging.CardPagesShow | backend/app/services/search_service.py:484-513 | what the per-card pager shows: the sorted list, or only its dated rows |
| Paging.CardPagerCoversExactly | backend/app/services/search_service.py:500-506 | the per-card pager shows every row if and only if no row lacks a date or fewer have one than a page holds |
| Paging.UndatedRowIsMissed | backend/app/services/search_service.py:500-506 | one dated and one undated row in pages of one: the per-card pager never shows the undated one, the other pager shows both |
| Merging.UniqueRows | frontend/src/dashboard/DashboardPage.tsx:66-73 | the filter with its set keeps the first row of every id |
| Merging.DisplayIsJoin | frontend/src/dashboard/DashboardPage.tsx:203-229 | however pages arrive, what is shown is all pages joined with every id at its first place |
| Merging.DashboardShowsPages | frontend/src/dashboard/DashboardPage.tsx:203-229 | what is displayed is exactly what the pages showed if and only if no id came twice |
| Merging.DashboardOverChanges | frontend/src/dashboard/DashboardPage.tsx:203-229 | over changing tables, as long as no row changes its key, the dashboard displays all that the pages showed, in strict order, with every row that stayed |
| Merging.DashboardShowsTheSortedList | frontend/src/dashboard/DashboardPage.tsx:261-270 | loading all pages of an unchanged list displays the sorted list itself |
| Alerts.EvaluateActiveAlerts | backend/app/services/limitation_service.py:223-419 | the one-pass evaluation over what the batched filter of its prepared rules lets through reports a rule on a card it watches exactly if the number of its rows, or the sum of their amounts, reaches the threshold; each alert tells numbers and sums of these rows and of the pending ones; once each, by card position and rule id |
| Alerts.TallyTells | backend/app/services/limitation_service.py:359-371 | a tally is the number of rows that count, of the pending ones among them, and the sums of both |
| Alerts.WindowHolds | backend/app/services/limitation_service.py:265-293 | a rolling window of n days holds exactly n days and ends today; a fixed one holds its days; without a date only all time matches |
| Alerts.FetchedAre | backend/app/services/limitation_service.py:313-323 | fetching keeps every row that passes as often as it is there, and no other |
| Alerts.FilterServesRules | backend/app/services/limitation_service.py:313-323 | the filter made of the prepared rules' queries lets every row through that counts for a prepared rule |
| Alerts.CountMatches | backend/app/services/limitation_service.py:295-371 | the memoised scan counts for every rule and card what a scan of its own would count |
| Alerts.Prepare | backend/app/services/limitation_service.py:244-293 | the prepared rules are exactly those with a threshold and an active card, with their windows |
| Alerts.Collect | backend/app/services/limitation_service.py:373-408 | every prepared rule and card over its threshold gives one alert |
| Alerts.MatchesMeans | backend/app/services/limitation_service.py:338-358 | the cached test agrees with the rule's own, whatever amount or pending flag the row has |
| Alerts.ResultIsDetermined | backend/app/services/limitation_service.py:410-411 | the result does not depend on the order of rows or of sets |
| Folding.SearchTextIsNormal | backend/app/services/sync_service.py:175-180 | the search text of a row is in canonical order, and decomposing or folding it again changes nothing |
| Folding.PieceIsSearchable | backend/app/services/sync_service.py:175-180 | a piece of a column that reads as a keyword, character by character, is in the row's search text as that keyword |
| Prefilter.BatchedFilterLosesNothing | backend/app/services/limitation_service.py:529-558 | the filter made for all keywords accepts every row whose search text contains one of them |
| Prefilter.PrefixNormalizes | backend/app/services/limitation_service.py:535-540 | normalising the shared prefix again gives a prefix of every keyword that is long enough for the index |
| Prefilter.ExpressionAsks | backend/app/services/limitation_service.py:533-544 | the batched expression asks for exactly one phrase, the shared prefix, if it has three characters, and otherwise for all |
| Prefilter.CommonPrefixIsLongest | backend/app/services/limitation_service.py:535-537 | the shared prefix is the longest there is |
| Prefilter.NormalizedIsWellFormed | backend/app/services/search_service.py:52-71 | a normalised query is trimmed, single-spaced and searched for in exactly one way |
| Prefilter.OuterSpaceIsFree | backend/app/services/search_service.py:55-56 | white space around a query changes nothing, however long it is |
| Agreement.AsciiQueries | backend/app/services/search_service.py:55-57 | a tidy ASCII query becomes its first hundred characters in small letters |
| Prefilter.SearchIsContainment | backend/app/services/search_service.py:74-87 | a search finds a row exactly when a column, or for short queries the search text, contains the query |
| Matching.LikeIsContainment | backend/app/services/search_service.py:68-71 | after the three escapes the pattern matches exactly the texts that contain the query |
| Matching.EscapeIsCharwise | backend/app/services/search_service.py:68-70 | the three replacements one after the other escape every character once |
| Matching.QuoteParsesBack | backend/app/services/search_service.py:62-66 | doubling quotes makes the phrase read back as the query |
| Matching.JoinParsesBack | backend/app/services/limitation_service.py:541-544 | phrases joined by OR read back as those phrases, even if they contain OR |
| Trigrams.IndexFollowsTable | backend/alembic/versions/0002_transaction_search.py:37-89 | after any inserts, updates and deletes the posting lists are those of a rebuild |
| Trigrams.SearchIndex.Insert | backend/alembic/versions/0002_transaction_search.py:37-50 | the insert trigger keeps the index equal to a rebuild |
| Trigrams.SearchIndex.Delete | backend/alembic/versions/0002_transaction_search.py:52-67 | the delete trigger keeps the index equal to a rebuild |
| Trigrams.SearchIndex.Update | backend/alembic/versions/0002_transaction_search.py:65-89 | the update trigger keeps the index equal to a rebuild |
| Trigrams.PhraseIsContainment | backend/app/services/search_service.py:74-86 | a phrase of three characters or more matches on the posting lists exactly when a column contains it |
| Summaries.NetIsPurchasesMinusRefunds | backend/app/services/transaction_summary.py:21-44 | the five sums fit together: net is purchases minus refunds |
| Summaries.SummarySays | backend/app/services/transaction_summary.py:21-44 | a summary counts the USD rows and the pending ones among them, and adds up the amounts above zero, below zero and all |
| Summaries.Search | backend/app/services/search_service.py:290-343 | the grouped search returns a group for every listed card with the number of its matches and the numbers and sums of the USD rows among them; total and reduced sums are those of the global search |
| Summaries.GlobalMatchesAre | backend/app/services/search_service.py:461-472 | the global search selects exactly the matching rows on active cards of active connections of the owner |
| Summaries.GroupsReduceToWhole | frontend/src/dashboard/DashboardPage.tsx:75-94 | what the dashboard adds up from the groups is the summary of all matches at once |
| Summaries.CardCounted | backend/app/services/search_service.py:391-398 | match counts by card add up to the count of all |
| Summaries.EvaluateSavedAggregates | backend/app/services/aggregate_service.py:135-189 | every definition on exactly the active cards it targets, once, with the numbers and sums of the USD rows found there, by card position and then definition position |
| Agreement.NormalizingAgain | backend/app/services/aggregate_service.py:160 | normalising a stored keyword again changes nothing if and only if it is not longer than a query may be |
| Agreement.FoundExactly | backend/app/services/search_service.py:74-87 | a search finds a stored row exactly if its search text contains the query, or the query is long enough for the index and a column as it was sent contains it |
| Agreement.DisagreesExactly | backend/app/services/aggregate_service.py:160-172 | a row counts for the saved aggregate but not for the rule exactly if a column as it was sent has the keyword and the search text has not; never the other way round |
| Agreement.SavedNetIsAlertTotal | backend/app/services/aggregate_service.py:160-172 | the saved net is the total of an all-time rule if every character of the columns that the tokenizer takes for one of the keyword is that one in the search text |
| Agreement.AsciiIsAligned | backend/app/services/search_service.py:84-87 | columns in plain ASCII meet that condition for every keyword |
| Agreement.AgreeExactly | backend/app/services/limitation_service.py:359-371 | saved net and rule total agree whatever the amounts are if and only if no USD row of the card counts for the aggregate alone |
| Agreement.ReportsAgree | backend/app/services/aggregate_service.py:173-189 | then the net of the evaluated aggregate is the total of the alert |
| Agreement.MarksDisagree | backend/app/services/sync_service.py:175-180 | a stored row that the aggregate counts and the rule does not |
| Agreement.LongKeywordsDisagree | backend/app/services/search_service.py:52-59 | for a keyword that folding makes longer than a query may be there always is such a row |
| Base64.Base64RoundTrip | backend/app/services/search_service.py:240-245 | every byte string comes back from unpadded base64url, which never holds the separator |
| Cursors.CursorComesBackForItsScopeOnly | backend/app/services/search_service.py:156-233 | a cursor gives back its date and id under its own scope and codec and is refused under any other |
| Cursors.PayloadComesBack | backend/app/services/search_service.py:162-165 | the JSON payload reads back whatever characters it holds |
| Cursors.StringComesBack | backend/app/services/search_service.py:198-201 | an escaped JSON string reads back and ends where it should |

## Left out

- Eventual completion of targets and runs: the code does not guarantee it. An unexpected error after a dispatch is requeued without recovering its target, and an owner-action code outside the listed set leaves a target syncing without a sync; the model has these paths and proves safety only.
- The unfenced `synchronize` path without a lease token and the `IntegrityError` fallback of `enqueue_sync`: the worker does not reach them under serial writers.
- Audit rows, `last_error_code`, `started_at`, `finished_at` and provider request ids: they steer nothing.
- Ties between jobs with the same due time are broken by creation time in the source and arbitrarily here.
- Database.Database.ClaimNext: reads and claims in one step, where the source reads a candidate and then updates it under a guard in one transaction.
- A disconnect whose token cannot be decrypted is refused before anything changes; that check is not modelled.
- Owners are strings; the missing-owner error of a refresh request is not modelled.
- Database.Database.LinkConnection: starts from a login that was exchanged and belongs to a supported bank; the one-connection-per-institution check, the slot cap and the tombstone of a wrong institution are not modelled.
- Database.Database.PrepareReservedTarget and RecordDispatchOutcome: the state of the target is not checked by the source, and neither here; that the caller's target is under way is asked of the caller, and `Refinement.WorkersMayCall` proves it of every worker.
- `enqueue_stale_connections`, the scheduler and the drain loops: they only repeat the modelled steps, which may happen at any time.
- Worker.RunOnce: the turn nobody interrupts; heartbeats, crashes, unexpected exceptions and other workers are in the step machine of `Lanes`, where a worker is a program counter that may stop or be overtaken between any two steps.
- Provider calls, decryption, clocks and token generation are parameters of the steps. Plaid, webhook verification, AES-GCM, Argon2 and HMAC themselves are not part of this model.
- The Unicode tables themselves are parameters; `to_cents` rounding happens before rows enter the model.
- Full-text ranking, the tokenizer's handling of characters beyond one code point, and SQLite's storage of posting lists.
- Base64.Base64RoundTrip: text that is not base64url is refused, where the library skips foreign characters; that only concerns cursors nobody issued.
- Cursors.PayloadComesBack: only payloads in the form the codecs write are read; other JSON under a valid signature and lone surrogates do not occur.
- Alerts.EvaluateActiveAlerts: the cards arrive sorted; sorting them by bank, display order and name is left out, as are the fields that are only copied into an alert.
- `update_rule`, `update_aggregate` and the other editing of definitions: single assignments behind validation.
- `transactions_for_bank` and the demo fixtures: the demo bank is modelled over any list of rows.
- HTTP routes, serializers, React components and browser storage, migrations other than 0002.
