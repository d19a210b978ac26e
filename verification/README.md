# llm-d-async: a verified model of its queues, quotas and gates

llm-d-async takes inference requests from producers, queues them in PostgreSQL or Redis, and
lets dispatchers send them within their deadlines. This project models the parts of it that
keep requests from being lost, recorded twice or admitted beyond a limit, and proves what they
promise for every input and every run.

Each protocol is modelled twice over the same functions. A state machine takes one statement,
script or section under a mutex per step; a step that is not possible changes nothing, so a
theorem about `Run` holds for every interleaving, with crashes and with calls that fail before
or after they took effect. Beside it, classes whose methods update their fields in place, with
the loops of the source, are proved equal to those functions.

| files | what they model |
|---|---|
| `sql_tables`, `sql_fencing`, `sql_ack` | the SQL tables, every statement on them, epochs, and batched acknowledgement |
| `sql_local`, `sql_mirror` | a dispatcher's in-memory view and how it stays in step with the tables |
| `sql_store`, `sql_cycle`, `sql_consumer` | the store and the consumer as they are written, with the rebalance |
| `sql_refinement`, `sql_sections`, `sql_cycle_run` | each section of the consumer, and a whole rebalance or close, as a run of the protocol |
| `quota`, `quota_store`, `admission`, `admit_batcher`, `quota_admission` | quota holders counted in the database, the admission batcher, and both together |
| `claims`, `claim_flow` | the Redis claim scripts, retries, redelivery and both ways of acknowledging |
| `delivery`, `delivery_route` | durable result delivery with leases and tombstones |
| `lane`, `scheduler`, `scheduler_class` | the tier-priority scheduler |
| `leased_rate`, `queue_score`, `retry_ladder` | the leased token bucket, the queue score and the retry delay |
| `gates`, `gate_floor` | gate trees, and many requests at them at once |
| `ordering`, `calls` | ordered reads with a limit, and how a call to a store ends |

What turned out not to hold, with the exact condition or a run that shows it:

- The batched acknowledgement keeps only the highest attempt of a request. It agrees with
  acknowledging one at a time exactly when no completion names an attempt newer than the one
  the table would accept (`SqlAck.BatchIsOneByOne`); completions of real dispatches always meet this.
- A retired quota holder is documented as deleted once nothing names it
  (pkg/sqlflow/quota.go:20-23). The code marks it for deletion exactly when something named it
  at the moment it was retired (`Quotas.RetiredIsDeletedIffNamed`). A holder retired while idle by
  failed renewals is reached (`Quotas.RetiredIdleIsReached`) and no later run marks it
  (`Quotas.RetiredIdleLingers`): the heartbeat renews it for as long as the process lives
  (`Quotas.RetiredIdleIsRenewed`), and it goes only when its store shuts down or its lease has run
  out (`Quotas.RetiredIdleEnds`).
- A quota can be exceeded by the grants of holders whose lease ran out, and by no more
  (`Quotas.LimitHolds`, `Quotas.LapseExceedsLimit`).
- A generation can be published more than once when its lease lapses while a retry is parked
  (`Claims.RetryDeliversTwice`). It is published at most once per entry into pending, its
  submission and each retry that re-enters (`Claims.PublishedOncePerEntry`), and no run loses one.
- With the three-step acknowledgement one claim token can publish a result twice
  (`Claims.SteppedAckTwice`), with the atomic one it cannot. It publishes at most once in every run
  in which no acknowledgement passes the fence after an earlier one of its token pushed or still may
  (`Claims.SteppedAckOnce`), and after any that does a further push publishes again
  (`Claims.RefencedAckTwice`).
- With both paths in use, a generation is published at most once per entry, once more per push by a
  token that had pushed already, and once more per token that pushed and never dropped its claim
  (`Claims.PublishedPerEntryRepeatAndLostDrop`); such a token's claim can lapse and publish again
  (`Claims.LostDropDeliversTwice`).
- A source waiting in a lane can be passed over without bound if sources that drain and rejoin
  are not counted (`Lanes.StarvedWithoutBound`, from a lane `Lanes.PairIsReached` reaches); counting
  them, `Lanes.BypassBound` bounds it.
- The expiry of a token bucket's key changes no run when a full bucket holds at most what 1001
  milliseconds refill, at every rate it uses (`LeasedRate.ExpiryGrantsNothing`); for every other rate
  there is a run it gains for (`LeasedRate.LongBurstGains`).

## Model

| member | source | states |
|---|---|---|
| SqlFencing.SubmittedOnceRecordedOnce | producer-sql/sqlqueue/store.go:188-511 | After any sequence of statements, however often a request was submitted: all its submissions but at most one were recorded, it is a row exactly when one was not, and there is exactly one result row, kept or since handed out, for each record |
| SqlFencing.OneOwnerPerEpoch | producer-sql/sqlqueue/store.go:667-723 | In the whole history a partition's epoch was granted to one owner only, and no row carries an epoch above its partition's |
| SqlFencing.RecordedFromLatestDispatch | producer-sql/sqlqueue/store.go:479-484 | What an acknowledgement records comes from the request's latest dispatch, issued by the acknowledging owner in the current epoch of a partition it owns |
| SqlFencing.RunKeeps | producer-sql/sqlqueue/store.go:188-741 | Conservation, stamps, drawn attempts and lease grants are kept by every statement |
| SqlAck.BatchIsOneByOne | producer-sql/sqlqueue/store.go:441-511 | The batched acknowledgement leaves the same tables and flags as acknowledging in order one at a time if and only if no completion is newer than one the tables accept |
| SqlAck.IssuedCompletionsBatch | producer-sql/sqlqueue/store.go:441-511 | In every run, completions of dispatches that were issued meet that condition, so batching them changes nothing |
| SqlAck.NewerIsLost | producer-sql/sqlqueue/store.go:449-467 | A newer completion of the same request makes the batch lose one that would have been accepted |
| SqlMirror.NothingStranded | producer-sql/sqlqueue/consumer.go:62-158 | In every run each row stamped with the current epoch of a partition the dispatcher owns is tracked with that attempt, kept as an orphan with it, about to be booked, or a reconciliation is due |
| SqlMirror.CountsTrackedRequests | producer-sql/sqlqueue/consumer.go:153-158 | A lease's in-flight counter never exceeds the requests tracked for that partition and epoch, and equals them unless an acquisition committed without its reply arriving |
| SqlMirror.EveryRunConserves | producer-sql/sqlqueue/consumer.go:62-344 | With crashes, takeovers, drains and lost replies, each submission is one row or was recorded once, with one result row for it |
| SqlMirror.ReconcileUndispatches | producer-sql/sqlqueue/consumer.go:318-344 | The steps of a reconciliation nobody interleaves with amount to returning to pending exactly the stamped rows the dispatcher does not track |
| SqlMirror.ReconcileRecovers | producer-sql/sqlqueue/consumer.go:318-344 | After such a reconciliation a row is pending again if and only if it was not tracked, and otherwise unchanged |
| SqlMirror.ReconcileLeavesNothing | producer-sql/sqlqueue/consumer.go:318-344 | However a reconciliation interleaves with workers and other dispatchers, once its leftovers were returned every row of the dispatcher is tracked or an orphan, so clearing the flag strands nothing |
| SqlMirror.RunKeepsSystem | producer-sql/sqlqueue/consumer.go:62-408 | The invariant between every dispatcher's view and the tables is kept by every run |
| SqlSections.PollIsRun | producer-sql/sqlqueue/consumer.go:62-84 | A poll's effect on tables and bookkeeping is that of the protocol's dispatch, the workers' bookkeeping meanwhile, and its row by row bookings |
| SqlSections.FailedPollIsRun | producer-sql/sqlqueue/consumer.go:62-73 | So is a poll whose call failed or lost its reply, which asks for reconciliation |
| SqlSections.GapIsRun | producer-sql/sqlqueue/consumer.go:86-151 | The bookkeeping of the workers between two sections, settling what was written and abandoning what was not, is a run of the protocol at any stage of the cycle |
| SqlSections.OrphansIsRun | producer-sql/sqlqueue/consumer.go:295-316 | Returning the orphans, however the call ends, is a run of the protocol |
| SqlSections.ReconcileReadIsRun | producer-sql/sqlqueue/consumer.go:318-336 | So is a reconciliation up to its write, with the workers between its read and the comparison |
| SqlSections.ReconcileWriteIsRun | producer-sql/sqlqueue/consumer.go:337-344 | So is its write, after the workers before it, and the clearing of the flag, in whatever tables others left |
| SqlSections.BeatIsRun | producer-sql/sqlqueue/store.go:657-665 | So is the renewal of the leases and the sync with its reply |
| SqlSections.FailedBeatIsRun | producer-sql/sqlqueue/store.go:657-665 | So is a renewal that failed or lost its reply |
| SqlSections.ResetIsRun | producer-sql/sqlqueue/consumer.go:346-363 | So is the reset of stale stamps |
| SqlSections.ReleaseIsRun | producer-sql/sqlqueue/consumer.go:261-280 | So is giving up what has drained |
| SqlSections.FlagIsRun | producer-sql/sqlqueue/consumer.go:210-250 | So is flagging partitions as draining or not |
| SqlSections.TakeOverIsRun | producer-sql/sqlqueue/consumer.go:226-236 | So is acquiring partitions and adopting them |
| SqlSections.QuitIsRun | producer-sql/sqlqueue/consumer.go:286-291 | So is leaving |
| SqlCycleRun.RebalanceIsRun | producer-sql/sqlqueue/consumer.go:166-259 | A whole rebalance is one run of the protocol: with any steps of other dispatchers, producers and its own workers before each of its calls, however these end, the tables and the view it leaves are those of a system the protocol reaches |
| SqlCycleRun.RebalanceKeepsStep | producer-sql/sqlqueue/consumer.go:166-259 | So from a system in step it leaves its view in step with the tables: no row stranded, counters within the tracked requests, leases known |
| SqlCycleRun.CloseIsRun | producer-sql/sqlqueue/consumer.go:282-293 | A close is one run too, with any steps of others between its two calls |
| SqlCycleRun.CloseKeepsStep | producer-sql/sqlqueue/consumer.go:282-293 | And leaves its view in step with the tables |
| SqlLocal.BookCounts | producer-sql/sqlqueue/consumer.go:70-82 | Booking a dispatched row keeps every lease's counter within its tracked requests |
| SqlLocal.AbandonCounts | producer-sql/sqlqueue/consumer.go:127-139 | So does handing an attempt to the orphans |
| SqlLocal.SyncCounts | producer-sql/sqlqueue/consumer.go:367-381 | So does replacing the leases by the heartbeat's reply |
| SqlLocal.AdoptCounts | producer-sql/sqlqueue/consumer.go:226-236 | So does adopting acquired partitions, whose epochs are new |
| SqlStore.Store.Enqueue | producer-sql/sqlqueue/store.go:188-227 | Inserts all requests, or none when one repeats a key in the submission or in the table |
| SqlStore.SubmissionOrder | producer-sql/sqlqueue/store.go:188-209 | Requests of one submission with equal deadlines come out of any later dispatch in the order they were given, whatever statements ran in between, while neither is recorded |
| SqlStore.RankStays | producer-sql/sqlqueue/store.go:188-511 | In every sequence of statements a row leaves the table only by being recorded, and until then keeps the deadline and creation that order it |
| SqlStore.Store.Dispatch | producer-sql/sqlqueue/store.go:229-262 | Stamps up to the limit of pending, due rows in the owner's non-draining partitions with fresh attempts, skipping rows others hold: the earliest by deadline and creation, listed in that order |
| SqlStore.Store.Ack | producer-sql/sqlqueue/store.go:441-511 | Leaves the tables and returns the flags of the batched acknowledgement |
| SqlStore.Store.Undispatch | producer-sql/sqlqueue/store.go:322-362 | Returns exactly the rows whose current attempt is named and whose partition the owner holds |
| SqlStore.Store.AcquirePartitions | producer-sql/sqlqueue/store.go:667-686 | Takes as many free or lapsed partitions as the limit allows, longest lapsed first, each under an epoch one higher |
| SqlStore.UniqueStamps | producer-sql/sqlqueue/store.go:798-809 | Keeps the first occurrence of each stamp, in order |
| SqlStore.Dedupe | producer-sql/sqlqueue/store.go:449-467 | Keeps one completion per request, the one of the highest attempt |
| SqlCycle.SharesCover | producer-sql/sqlqueue/consumer.go:202-205 | Members that each hold their share hold all 64 partitions, and one less each would not do |
| SqlConsumer.DrainCandidates | producer-sql/sqlqueue/consumer.go:396-408 | Picks exactly n active partitions, none more loaded than one left out |
| SqlConsumer.Consumer.Poll | producer-sql/sqlqueue/consumer.go:62-84 | Books every dispatched row after whatever its workers booked since the call; on any error, committed or not, asks for reconciliation |
| SqlConsumer.Consumer.Ack | producer-sql/sqlqueue/consumer.go:86-97 | Forgets the completions whether recorded or fenced, and nothing when the call failed |
| SqlConsumer.Consumer.Retry | producer-sql/sqlqueue/consumer.go:99-106 | Parks the attempt if it still stands, and forgets it unless the call failed |
| SqlConsumer.Consumer.Defer | producer-sql/sqlqueue/consumer.go:117-125 | Returns the stamps to pending and forgets them; on failure keeps them as orphans |
| SqlConsumer.Consumer.Abandon | producer-sql/sqlqueue/consumer.go:127-139 | Moves each attempt still tracked to the orphans |
| SqlConsumer.Consumer.DoneStamps | producer-sql/sqlqueue/consumer.go:141-151 | Forgets each attempt unless a newer one replaced it |
| SqlConsumer.Consumer.UntrackLocked | producer-sql/sqlqueue/consumer.go:153-158 | Forgets a request and takes it off its lease's counter if the epoch still matches, never below zero |
| SqlConsumer.Consumer.UndispatchOrphans | producer-sql/sqlqueue/consumer.go:295-316 | Returns the orphans to pending and forgets those that did not change meanwhile |
| SqlConsumer.Consumer.ReconcileInFlight | producer-sql/sqlqueue/consumer.go:318-344 | When due, returns to pending what the tables have in flight and the view does not track; stays due on error |
| SqlConsumer.Consumer.SyncLeases | producer-sql/sqlqueue/consumer.go:367-381 | Replaces the leases by the heartbeat's reply, keeping the state of those whose epoch lived on |
| SqlConsumer.Consumer.ResetStale | producer-sql/sqlqueue/consumer.go:346-363 | Resets the stale stamps in its scope, skipping rows others hold; with no partition in scope it makes no call |
| SqlConsumer.Consumer.Tidy | producer-sql/sqlqueue/consumer.go:346-363 | Resets stale stamps, of the partitions acquired lately or on every tenth beat of all, then gives up what has drained: the tables and the view it leaves, however the two calls end |
| SqlConsumer.Consumer.LowestDraining | producer-sql/sqlqueue/consumer.go:211-213 | As many draining partitions as are needed and there are, the lowest |
| SqlConsumer.Consumer.Flag | producer-sql/sqlqueue/consumer.go:213-222 | Flags partitions in the tables and in the view; with none it makes no call |
| SqlConsumer.Consumer.ReleaseDrained | producer-sql/sqlqueue/consumer.go:261-280 | Gives up exactly the draining partitions that are idle or overdue |
| SqlConsumer.Consumer.AcquireMore | producer-sql/sqlqueue/consumer.go:226-236 | Takes as many free or lapsed partitions as are needed and there are, and adopts them under their new epochs |
| SqlConsumer.Consumer.Extend | producer-sql/sqlqueue/consumer.go:226-239 | Acquires and adopts, then resets the stale stamps of exactly the partitions acquired |
| SqlConsumer.Consumer.Grow | producer-sql/sqlqueue/consumer.go:210-239 | Reaches the share when enough partitions were draining, never passes it, and keeps every partition it had; what each failing call leaves |
| SqlConsumer.Consumer.Shrink | producer-sql/sqlqueue/consumer.go:240-257 | Drains exactly the surplus, least loaded first, and gives up what is idle; what each failing call leaves |
| SqlConsumer.Consumer.Heartbeat | producer-sql/sqlqueue/store.go:631-665 | Membership, expiry, count and renewal, statement by statement with others in between: what each failure leaves, and on success how many members were counted and the leases synced with the reply |
| SqlConsumer.Consumer.Balance | producer-sql/sqlqueue/consumer.go:185-257 | From the heartbeat on: the target is the share by the members it counted, and the move toward it starts from the leases it synced, less what had drained, weighed by the loads its workers left meanwhile |
| SqlConsumer.Consumer.Rebalance | producer-sql/sqlqueue/consumer.go:166-259 | Whatever others and the workers do before each of its calls and however the calls end, the tables and the view are those its sections leave one after another. An error-free one ends at or under the share by the members its heartbeat counted in the tables as it found them, none when stopping; above the share it drains exactly the surplus, none more loaded than one that stays. It errs only when a call did |
| SqlConsumer.Consumer.Close | producer-sql/sqlqueue/consumer.go:282-293 | Returns the orphans, and unless the leave call failed before it took effect owns no partition afterwards; the leases are dropped from the view when its reply arrived |
| Quotas.KnownNamesEverything | pkg/sqlflow/quota.go:50-61 | In every run a holder's count equals its running statements, grants handed out, and releases queued or being sent |
| Quotas.DeletingForever | pkg/sqlflow/quota.go:232-259 | Once a holder is marked deleting nothing names it, then or in any later state |
| Quotas.DeletionFreesNothing | pkg/sqlflow/quota.go:113-130 | Whenever a row may be deleted, by settlement or on shutdown, no statement, grant or release names its holder |
| Quotas.LimitHolds | pkg/sqlflow/quota.go:152-172 | Over all dispatchers the slots of a key in use never exceed the highest limit asked for it plus those of holders whose lease ran out |
| Quotas.LapseExceedsLimit | pkg/sqlflow/quota.go:312-314 | A grant held under a lapsed lease lets a second one through a limit of one |
| Quotas.LapsedHolderIsReached | pkg/sqlflow/quota.go:312-314 | The state that counterexample starts from is reached by a run |
| Quotas.RetiredIsDeletedIffNamed | pkg/sqlflow/quota.go:315-325 | A retired holder nothing names is marked for deletion if and only if something named it when it was retired |
| Quotas.RetiredIdleIsReached | pkg/sqlflow/quota.go:315-325 | A holder retired while nothing names it is reached by a run: its renewals failed |
| Quotas.RetiredIdleLingers | pkg/sqlflow/quota.go:315-325 | From there no run marks it for deletion |
| Quotas.RetiredIdleIsRenewed | pkg/sqlflow/quota.go:261-295 | For every n, the heartbeat renewing it at each tick leaves its row live at time n |
| Quotas.RetiredIdleEnds | pkg/sqlflow/quota.go:261-329 | In every run it is forgotten, or its row deleted, only after its store shut down or its lease ran out |
| Quotas.ExecuteLimits | producer-sql/sqlqueue/migrate/migrations/0001_initial_schema.sql:131-157 | An acquire statement keeps the slots that count within the highest limit asked |
| Quotas.GrantsAllItCan | producer-sql/sqlqueue/migrate/migrations/0001_initial_schema.sql:131-157 | An acquire statement counts exactly what it grants, and stops short of what was asked only at the limit |
| Quotas.StaysBacked | producer-sql/sqlqueue/quota.go:55-68 | While a holder's lease runs, its rows count every slot granted and not yet given back, through every step |
| QuotaStores.QuotaStore.CountCurrent | pkg/sqlflow/quota.go:213-221 | Adds one to the current holder's count, if there is one |
| QuotaStores.QuotaStore.Begin | pkg/sqlflow/quota.go:184-211 | Counts a statement against the current holder, or against one newly registered, whose row is then the last; fails only when registering does |
| QuotaStores.QuotaStore.AcquireSlots | pkg/sqlflow/quota.go:152-172 | Grants as many slots as are free of the limit in the rows it is called with, or, when its holder had lapsed and it registers again, in the rows others left by then; the holder returned counts exactly those on top of what it counted, no other count changes, and none on an error |
| QuotaStores.QuotaStore.Retire | pkg/sqlflow/quota.go:223-230 | The holder takes no new statements |
| QuotaStores.QuotaStore.Settle | pkg/sqlflow/quota.go:232-245 | Takes n off the count and deletes the row once the holder is retired and nothing names it |
| QuotaStores.QuotaStore.DeleteHolder | pkg/sqlflow/quota.go:247-259 | Deletes the row, and forgets the holder only when the call succeeded |
| QuotaStores.QuotaStore.Renew | pkg/sqlflow/quota.go:300-329 | Extends a live lease; retires and forgets a lapsed holder, and retires one when the call failed and by the local clock a lease's time has passed since the last renewal began |
| QuotaStores.QuotaStore.ReleaseSlot | pkg/sqlflow/quota.go:331-345 | Queues one release for the holder and key |
| QuotaStores.QuotaStore.FlushReleases | pkg/sqlflow/quota.go:347-380 | Sends batch after batch, with what is queued meanwhile, until none is left, whichever calls fail; each holder's count drops by exactly what was sent for it |
| QuotaStores.QuotaStore.SendPending | pkg/sqlflow/quota.go:352-379 | One batch, holder by holder: each holder and its row are settled for exactly its releases |
| QuotaStores.QuotaStore.Close | pkg/sqlflow/quota.go:113-130 | On shutdown exactly the holders nothing names are deleted, the current one among them; a call that failed leaves its holder for the lease to end |
| QuotaStores.FlushIsRun | pkg/sqlflow/quota.go:347-380 | What a flush does to a holder and its row is a run of the protocol |
| Admission.WaiterHasFlush | pkg/sqlflow/quota.go:422-448 | In every run a caller without an answer is in the line of a running flush for its key |
| Admission.OneStatementPerKey | pkg/sqlflow/quota.go:390-398 | At most one flush, so one statement, runs per key |
| Admission.OneAnswerOneRelease | pkg/sqlflow/quota.go:132-144 | Each caller gets one reply or one callback, never both or two; a slot granted to one that gave up is released exactly once, and no slot twice |
| Admission.FirstArrivalsAreGranted | pkg/sqlflow/quota.go:463-470 | A statement's batch is in order of arrival and grants exactly its first places |
| Admission.AnsweredInOrder | pkg/sqlflow/quota.go:390-472 | Callers of one key are answered in order of arrival, across statements |
| QuotaAdmission.GrantsHaveCallers | pkg/sqlflow/quota.go:132-172 | Batcher and holders together: in every run, with other dispatchers' holders in between, the slots a holder of the dispatcher has granted for a key are exactly the places its statements granted that are unanswered or whose callers have not given theirs back |
| QuotaAdmission.AbandonedGrantIsReleased | pkg/sqlflow/quota.go:132-144 | A grant that reaches a caller after it gave up is given back by exactly one release, under the holder that granted it |
| QuotaAdmission.UsedGrantIsReleased | pkg/sqlflow/quota.go:141-144 | So is the slot of a caller that used it, once, however often it releases |
| QuotaAdmission.CallersWithinLimit | pkg/sqlflow/quota.go:132-172 | In every run the slots of a key in the hands of a dispatcher's callers never exceed the highest limit asked for it plus the use under lapsed holders |
| AdmitBatchers.AdmitBatcher.Admit | pkg/sqlflow/quota.go:422-436 | A caller joins its key's queue last; a flush starts only when the key has none; a closed store admits only to running queues |
| AdmitBatchers.AdmitBatcher.Take | pkg/sqlflow/quota.go:450-460 | A flush takes everyone waiting, and ends and closes its queue when nobody is |
| AdmitBatchers.AdmitBatcher.Serve | pkg/sqlflow/quota.go:463-470 | Answers each caller by its place, through the channel or the callback |
| Claims.NothingIsLost | pkg/redis/claim.go:63-173 | In every interleaving of claims, releases, redeliveries, renewals, retries and both acknowledgements, the claim, owner and lease keys agree and each submitted generation is waiting, claimed or has a published result |
| Claims.AtomicAckOnce | pkg/redis/claim.go:95-112 | With the atomic acknowledgement each claim token publishes at most once |
| Claims.OwnerIsLatest | pkg/redis/claim.go:75-173 | Whoever passes the owner check made the latest claim of the generation and holds the member that claim took |
| Claims.ReleaseRestores | pkg/redis/claim.go:252-263 | A release in any run puts back exactly the claimed member at its own score and frees only that claim |
| Claims.ClaimThenRelease | pkg/redis/claim.go:63-84 | Claiming an unclaimed request and releasing it leaves every key as it was |
| Claims.SteppedAckTwice | pkg/redis/claim.go:312-349 | From a request pushed once whose claim is not dropped yet, a retried acknowledgement publishes it a second time under the same token |
| Claims.PushedAndHeldIsReached | pkg/redis/claim.go:312-349 | The state that counterexample starts from is reached by a run |
| Claims.SteppedAckOnce | pkg/redis/claim.go:312-349 | In every run in which no acknowledgement passes the fence while an earlier one of its token has pushed, or passed its fence and may still push, each token pushes at most once |
| Claims.RefencedAckTwice | pkg/redis/claim.go:312-349 | From any state in which one does, pushing publishes a second time under its token |
| Claims.RetryDeliversTwice | pkg/redis/sortedset_impl.go:1198-1294 | After a lease lapsed while its retry was parked, one generation is published twice, each time by its latest owner: delivery is at least once |
| Claims.PublishedOncePerEntry | pkg/redis/claim.go:63-173 | In every run a generation is published atomically at most once for its submission and once for each retry of it that re-entered pending, whatever lapses, is redelivered or taken over |
| Claims.PublishedPerEntryRepeatAndLostDrop | pkg/redis/claim.go:265-349 | With both paths in use, in every run the publications of a generation are at most its entries into pending, plus its pushes by tokens that had pushed already, plus the tokens that pushed and never dropped their claim |
| Claims.LostDropDeliversTwice | pkg/redis/claim.go:303-311 | From any reachable state with a pushed claim not dropped, once its lease lapsed it is redelivered and published again under another token |
| Claims.EntriesBoundLoad | pkg/redis/claim.go:63-173 | From any reachable state, the members waiting, the claim and the publications of a generation grow by no more than its entries into pending |
| Claims.ParkedAndLapsedIsReached | pkg/redis/sortedset_impl.go:1198-1294 | The state that counterexample starts from is reached by a run |
| Claims.ClaimThenAck | pkg/redis/claim.go:63-112 | Claiming an unclaimed request and acknowledging it takes it out of every key and publishes once |
| Claims.ClaimedStays | pkg/redis/claim.go:75-158 | A claim ends only by putting its request back or by a published result, while requests that do not parse are removed and retries come and go (pkg/redis/sortedset_impl.go:831-841, 1198-1294, 1431-1480) |
| ClaimFlow.Flow.ClaimRequest | pkg/redis/claim.go:219-249 | Claims under the computed lease; keeps a handle if and only if the claim was won and the reply arrived, so a claim whose reply was lost stands without one |
| ClaimFlow.Flow.ReleaseClaim | pkg/redis/claim.go:251-263 | Releases under the token; the handle goes unless the call failed |
| ClaimFlow.Flow.AckResult | pkg/redis/claim.go:265-349 | What either way of acknowledging leaves and reports, however its calls end and whatever others do between the three steps |
| ClaimFlow.TwoWaysAgree | pkg/redis/claim.go:312-349 | With no call failing and nobody in between, the three steps leave and report what the one script does |
| ClaimFlow.Flow.ReclaimExpired | pkg/redis/claim.go:364-408 | Redelivers the claims that lapsed first, as many as a batch holds, and counts them, reading each request before its script; the first call that fails ends it, and others may act before every call |
| ClaimFlow.RedeliverDrops | pkg/redis/claim.go:140-158 | Redelivery frees exactly the lapsed claims of its batch |
| ClaimFlow.RedeliverRestores | pkg/redis/claim.go:383-397 | Each redelivered request is back at its own score, and nothing else in pending changes |
| ClaimFlow.RedeliveredInEveryRun | pkg/redis/claim.go:364-408 | After any run, redelivering lapsed claims frees exactly those, puts each request back at its own score, leaves the rest of pending alone, and is itself a run |
| ClaimFlow.RedeliverIsRun | pkg/redis/claim.go:364-408 | A redelivery pass is the protocol's redelivery steps, one for each claim |
| ClaimFlow.PassIsRun | pkg/redis/claim.go:364-408 | However the calls of such a pass end and whatever steps others take before its reads and its scripts, it leaves the keys of a run of the protocol |
| ClaimFlow.QuietPassRedelivers | pkg/redis/claim.go:364-408 | Left alone, a pass redelivers its whole batch and counts every claim of it |
| ClaimFlow.Flow.HeartbeatClaims | pkg/redis/claim.go:447-473 | Renews exactly the claims whose handle is still the owner and whose call took effect, and forgets a handle exactly when its call found another owner or none |
| Delivery.ResultsAreKept | producer/redis_result_delivery.go:49-164 | In every run each pushed record is waiting, claimed, or its generation was acknowledged; unparsable records are never dropped |
| Delivery.NotHandedOutAgain | producer/redis_result_delivery.go:98-164 | With a clock that does not go back, a generation acknowledged at a time is handed out again only after the tombstone retention |
| Delivery.AckIsFenced | producer/redis_result_delivery.go:139-164 | An acknowledgement is recorded if and only if its owner holds the unexpired claim, and an owner that was done cannot record again |
| Delivery.AgainShrinks | producer/redis_result_delivery.go:69-121 | A pass that asks for another leaves strictly fewer records pending or claimed |
| Delivery.RequeueOrder | producer/redis_result_delivery.go:52-62 | Expired claims come out first, in order of expiry, ahead of the older pending records, whose order stays |
| DeliveryRoute.RangeByScore | producer/redis_result_delivery.go:52-66 | The lowest entries scored up to now, in order, as many as the limit allows |
| DeliveryRoute.ResultRoute.RequeueExpired | producer/redis_result_delivery.go:52-62 | The loop over expired claims puts them back as specified |
| DeliveryRoute.ResultRoute.ScanPending | producer/redis_result_delivery.go:69-121 | The scan claims the first deliverable record from the end of the list and drops buried and duplicate ones before it |
| DeliveryRoute.ResultRoute.ReceiveOnce | producer/redis_result_delivery.go:49-122 | One run of the receive script |
| DeliveryRoute.ResultRoute.ReceiveResult | producer/redis_result_delivery.go:178-248 | Without new pushes the loop ends after at most as many passes as records and one; every pass before the last asked for another, and the last decides the reply |
| DeliveryRoute.ResultRoute.RenewResult | producer/redis_result_delivery.go:124-134 | Extends the lease of its unexpired holder only |
| DeliveryRoute.ResultRoute.AckResult | producer/redis_result_delivery.go:139-164 | Drops the holder's claim and leaves a tombstone; repeats inside its life succeed, others are fenced |
| Lanes.PushValid | pkg/async/mergepolicy/tierpriority/tier_priority_policy.go:168-175 | Pushing keeps keys, queues, cursor and size consistent |
| Lanes.PopValid | pkg/async/mergepolicy/tierpriority/tier_priority_policy.go:177-201 | So does popping, across in-place key removal and cursor wrap |
| Lanes.PushQueues | pkg/async/mergepolicy/tierpriority/tier_priority_policy.go:168-175 | Pushing appends to its source's queue and touches no other |
| Lanes.PopQueues | pkg/async/mergepolicy/tierpriority/tier_priority_policy.go:177-201 | Popping takes the head of the served source's queue and touches no other |
| Lanes.BypassBound | pkg/async/mergepolicy/tierpriority/tier_priority_policy.go:168-201 | While a source waits, the lane is popped at most as often as its cyclic distance from the cursor plus the sources that join |
| Lanes.StarvedWithoutBound | pkg/async/mergepolicy/tierpriority/tier_priority_policy.go:186-199 | For every n a run serves n others while a source one place from the cursor waits |
| Lanes.PairIsReached | pkg/async/mergepolicy/tierpriority/tier_priority_policy.go:168-201 | The lane those runs start from is reached from an empty one |
| Scheduling.NothingLostOrReordered | pkg/async/mergepolicy/tierpriority/tier_priority_policy.go:267-318 | In every run, what came out for a source of a lane is a prefix of what went in and the rest is queued; the buffered total is the sum of the lanes and no lane exceeds its cap |
| Scheduling.PopServesLowestLane | pkg/async/mergepolicy/tierpriority/tier_priority_policy.go:295-318 | A pop takes the oldest message of a source in the lowest non-empty lane, and fails only when nothing is buffered |
| SchedulerClass.Bucket.Push | pkg/async/mergepolicy/tierpriority/tier_priority_policy.go:168-175 | The in-place push is the lane's |
| SchedulerClass.Bucket.Pop | pkg/async/mergepolicy/tierpriority/tier_priority_policy.go:177-201 | The in-place pop is the lane's, and fails only on an empty lane |
| SchedulerClass.Scheduler.Push | pkg/async/mergepolicy/tierpriority/tier_priority_policy.go:227-287 | Adds to the lane of the request's classification and tier, or reports that it is full or the scheduler closed |
| SchedulerClass.Scheduler.Pop | pkg/async/mergepolicy/tierpriority/tier_priority_policy.go:295-318 | The loop over the lanes finds the specified message |
| LeasedRate.AdmissionsAreBounded | pkg/redis/leased_rate_gate.go:249-279 | Over any stretch of a run without expiry, with rates at most R and capacities at most C, admissions are at most C plus R times the elapsed bucket time, even if the clock steps back |
| LeasedRate.AdmissionsFromFirstUse | pkg/redis/leased_rate_gate.go:249-279 | The same bound from the evaluation that first stores the bucket |
| LeasedRate.PacedRunIsAdmitted | pkg/redis/leased_rate_gate.go:249-270 | Nobody who keeps to the rate is refused: a run whose evaluations are each a token apart is admitted in full |
| LeasedRate.ClockFollows | pkg/redis/leased_rate_gate.go:256-263 | The bucket's clock never runs ahead of the latest server time seen |
| LeasedRate.ExpiryGrantsNothing | pkg/redis/leased_rate_gate.go:272-279 | With a forward clock, and rates that refill a full bucket within the shortest life of its key (capacity at most 1.001 times the rate), every run admits the same with and without the key expiring; a rate of at least one with a burst of at most a second is a case of it |
| LeasedRate.LongBurstGains | pkg/redis/leased_rate_gate.go:272-279 | For every rate whose full bucket holds more than that, a run that uses it admits more for the expiry than without |
| LeasedRate.DrainedIsReached | pkg/redis/leased_rate_gate.go:249-270 | The drained bucket from which expiry gains is reached from none stored |
| LeasedRate.EarliestExpiry | pkg/redis/leased_rate_gate.go:272-279 | For a drained bucket, losing its state at the earliest its key can expire changes nothing if and only if the same condition holds |
| LeasedRate.Bucket.TryAcquire | pkg/redis/leased_rate_gate.go:213-280 | The script's steps: unusable commands leave the bucket alone, a backward clock does not refill |
| Gates.AllOrNothing | pipeline/gate.go:85-108 | For every gate tree a verdict other than continue, or an error, leaves all slot counts and the release list as found; a continue appends exactly the releases that undo what it took |
| Gates.ContinueThenRelease | pipeline/gate.go:63-70 | Releasing after a continue gives back every slot taken |
| Gates.ParkedHoldsNothing | pkg/asyncworker/worker.go:184-263 | After any number of wait verdicts, whatever others do meanwhile, a parked worker holds no slot and no release |
| Gates.LimitKept | pkg/async/inference/flowcontrol/local_concurrency_gate.go:67-117 | However gates are combined, one application never takes a local gate past its limit |
| GateFloor.InFlightWithinLimit | pkg/async/inference/flowcontrol/local_concurrency_gate.go:67-117 | Over every interleaving of requests taking and giving back slots, the slots held are exactly what the requests still have to release, and a gate never has more in flight than its limit |
| GateFloor.ApplyIsRun | pipeline/gate.go:85-108 | What a gate tree does for one request, with its rollback, is a sequence of such moves within its limits |
| Gates.CompositeIsLeast | pkg/async/inference/flowcontrol/composite_gate.go:43-56 | A composite's budget is the least of its gates' budgets, and at most full |
| Gates.BudgetTellsAdmission | pkg/async/inference/flowcontrol/local_concurrency_gate.go:52-63 | A classifying local gate's budget lies in [0,1] and is positive if and only if it would let the next request on |
| Gates.Gating.ApplyGate | pkg/async/inference/flowcontrol/tier_priority_gate.go:32-64 | The gates' in-place effect and verdict, including the tier gate's and the wait-on-refuse gate's rewriting |
| Gates.Gating.ApplyQuotaGate | pkg/async/inference/flowcontrol/quota_gate.go:66-101 | A quota gate classifies the request, takes a slot only in concurrency mode, and refuses only in blocking mode |
| Gates.Gating.ApplyChain | pipeline/gate.go:85-108 | The loop over the gates with its rollback is the specified chain |
| Gates.Gating.RollBack | pipeline/gate.go:96-103 | Running the releases from the last back undoes exactly what was taken since the snapshot |
| QueueScore.ScoreOrders | api/internal_api.go:103-124 | Scores order exactly by deadline, then by clamped sequence |
| QueueScore.ScoreIsExact | api/internal_api.go:108-116 | For deadlines below 2^32 the scaled score is below 2^53, the precision of binary64 in section 3.6 of IEEE 754-2019 |
| QueueScore.SubmitScoreAgrees | producer/redis_sortedset_producer.go:46-69 | The score the submit scripts write is the one the dispatcher computes |
| QueueScore.BacklogsAgree | pkg/redis/sortedset_impl.go:654-661 | For every queue content, counting scores below the second after a window equals counting deadlines within it, as the SQL backlog does (producer-sql/sqlqueue/store.go:580-601) |
| RetryLadder.DelayFits | pkg/asyncworker/worker.go:534-578 | For any jitter and any Retry-After (section 10.2.3 of RFC 9110) the delay is positive and strictly less than the seconds left |
| RetryLadder.DelayHonours | pkg/asyncworker/worker.go:550-561 | The delay keeps the backoff's floor and honours Retry-After up to half the time left; otherwise it stays under the backoff's level |
| RetryLadder.BackoffFits | pkg/asyncworker/worker.go:708-726 | So is the backoff alone |
| RetryLadder.RetryCosts | pkg/sqlflow/flow.go:673-676 | A retry costs at least a whole second, and one parked at once is due by the deadline |
| RetryLadder.AttemptsEnd | pkg/sqlflow/flow.go:655-686 | Whole seconds to the deadline strictly decrease with each failed attempt whose retry was parked, so there are at most as many attempts as seconds and retries that could not be parked |

## Left out

- Payload bodies, the cancelled flag and the hash that picks a request's partition: a row carries its partition as given, and one queue is modelled.
- JSON and envelopes: a request is its ID, token, deadline, sequence and an opaque body; IDs are taken to hold no NUL, so a claim key names one generation.
- Claims.AtomicAckOnce: per claim token, not per generation; `Claims.RetryDeliversTwice` shows why.
- SqlMirror.ReconcileUndispatches: for a reconciliation nobody interleaves with; `SqlMirror.ReconcileLeavesNothing` holds of every interleaving.
- SqlMirror.ReconcileRecovers: for a reconciliation nobody interleaves with, as above.
- SqlCycleRun.RebalanceIsRun: when a worker's outcome call lands while a call of the cycle is out, its bookkeeping follows that call's section instead of falling within it.
- QuotaStores.QuotaStore.FlushReleases: the releases queued meanwhile come in a given, finite number of batches, the last of them empty.
- QuotaStores.QuotaStore.Close: the waiting for running statements and the closed flag are not modelled; the flag is in `admit_batcher`.
- Gates.LimitKept: one application; over runs of many requests it is `GateFloor.InFlightWithinLimit`.
- Gates.Gating.ApplyGate: a blocking local gate that finds no slot ends with an error here, where the source waits until one is free or its context ends; taking one later is a move in `gate_floor`.
- SchedulerClass.Scheduler.Push: reports a full lane, where the source blocks until there is room.
- SchedulerClass.Scheduler.Pop: reports that nothing is buffered, where the source waits for a message.
- ClaimFlow.RedeliverRestores: for a pass left alone; when others act between its read and its script the score may be an older request's, and `ClaimFlow.PassIsRun` is what holds.
- QuotaStores.QuotaStore.AcquireSlots: other goroutines of the same store do not register a holder between its two rounds; that interleaving is in the runs of `quota`.
- QuotaAdmission.CallersWithinLimit: one dispatcher's batcher; the holders of the others take any steps.
- DeliveryRoute.ResultRoute.ReceiveResult: returns when nothing is there, where the source sleeps and polls again.
- Quotas.LimitHolds: the database clock does not go back; rate-limit admissions of the quota tables are not modelled, only concurrency slots.
- LeasedRate.AdmissionsAreBounded: tokens are reals, so binary64 rounding and the text form the script stores are not modelled.
- Gates.AllOrNothing: a release list is given; rate admissions and leased-rate tokens are not undone by the source and are not counted as slots.
- Gates.ParkedHoldsNothing: the worker's deadlines, cancellation checks and wait timers are not modelled.
- QueueScore.ScoreOrders: scores are scaled to whole numbers; beyond 2^53 rounding is not modelled.
- Redis Cluster slot arithmetic: only its effect, the atomic or the three-step acknowledgement, is modelled.
- The GCP Pub/Sub and Redis pub/sub flows, HTTP client, metrics, configuration, hot reload and fan-in: I/O and wiring around these protocols.
- Reader counting in the scheduler.
