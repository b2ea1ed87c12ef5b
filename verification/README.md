# EmitLane, modelled and proved in Dafny

EmitLane moves events from a PostgreSQL outbox through Relays to Kafka and from Kafka
through a PostgreSQL Inbox into handlers. This project models that path and proves what it
promises. `dafny verify dfyconfig.toml` checks everything.

## What is modelled

* **The tables** (`Tables`, `Store`). Every SQL statement is a function from the database
  before to the database after, and a method of a class that updates the tables in place.
  The methods are proved to have the functions' effect, and the functions are pinned by laws
  told in the columns alone: when each statement takes effect and what it changes
  (`OutboxLaws`, `Membership`, `Producers`), and what validation lets through (`Validation`).
* **Ordered delivery** (`Protocol`). A state machine over the tables, the Relays' event
  handlers and the broker's logs. Its labels are producer inserts, reconciliation, release,
  claims, attempts, broker appends, acknowledgements, results, operator retries, replays,
  cleanup, presence, the clock and crashes. A label whose guard fails changes nothing, so
  every sequence of labels is a run.
* **Its steps** (`StepLaws`), **invariants and theorems** (`Consistency`, `Windows`, `Order`, `Necessity`,
  `Guarantees`, `Lifecycle`, `Progress`, `Convergence`).
* **Selection and ownership** (`Selection`, `Ownership`): bounded ordered scans, and
  rendezvous hashing over any hash function.
* **The Relay's event handler** (`Handler`): `handle` and `onPublishFailure` as written, over
  the store object, with every path shown to be a path of handler labels.
* **The Inbox and the consumer group** (`Inbox`, `InboxStore`, `Consumer`), the laws of the
  Inbox statements (`InboxLaws`), one worker as an
  object whose methods are paths of the group's steps (`Worker`), the order
  in which a group's effects commit (`Pipeline`), and the whole path from enqueue to effect
  (`EndToEnd`).
* **The integrity verifier** (`Integrity`), what it reports for which rows (`Findings`), and its
  agreement with the protocol (`Soundness`).
* **The soak audit** (`Audit`) and its agreement with the protocol (`Soak`).
* **The Relay scheduler** (`Scheduler`) and **both backoffs** (`Backoff`).

Each SQL statement or short transaction is one atomic step at the time shown by one
monotone database clock; PostgreSQL's transaction-start `NOW()` is abstracted to that
instant. Durations are nanoseconds and are rounded up to whole milliseconds where the
source does so. Configuration is fixed per Relay instance id and may differ between
instances. Event ids are never reused. Rows locked by others are an arbitrary set that a
claim skips.

## Assumptions about time

`Order` names the two assumptions that the code cannot enforce by itself.

* *Timely*: the broker accepts an attempt's record strictly before begin + publish timeout
  + safety margin, and not after the publish call has returned.
* *Exclusive*: within one epoch an event is not reclaimed while an earlier handler of it is
  live.

Neither is built into a step: a request once sent may land at any later time and any number
of times, also after its publish call failed or its process died. Nondecreasing logs need
all of it. `Necessity` has a run that puts sequences 1, 2, 1 on the broker for each part
given up: a reclaim inside an epoch, a record accepted at the very instant its window ends
(a new epoch may claim at that instant), and a record accepted inside its window but after
its publish call failed. All other results say in their hypotheses what they assume; most
assume nothing about time, among them the order in which sequences first appear on the
broker and the order of effects end to end.

## Where the code falls short of its own promise

`Config.Validate` asks for an ordering lease longer than publish timeout + safety margin.
The claim compares the lease with that sum rounded up to whole milliseconds. A Relay whose
lease lies between the two values passes validation and can never claim ordered work.
`Progress.NeverStuckIffLeaseCoversWindow` gives the exact condition and
`Progress.ValidConfigCanBeStuck` a configuration that is valid and stuck.

## Model

| member | source | states |
|---|---|---|
| Order.OrderedLogsNeverRegress | storage/postgres/ordered_delivery.go:129-202 | in every reachable state of a timely and exclusive run, with crashes, takeovers, retries and duplicates, each stream's broker log is nondecreasing in sequence |
| Order.AdvanceIsSafe | storage/postgres/ordered_delivery.go:170-202 | when the cursor advances, no other attempt at that sequence can still land on the broker |
| Order.StepOrders | storage/postgres/ordered_delivery.go:51-202 | every timely and exclusive step keeps one live handler per event and epoch, keeps cursors at records that may still land, and keeps logs in order |
| Order.EpochsPublishInTurn | storage/postgres/ordering.go:95-143 | under timely appends alone, every record of an earlier epoch was accepted before a later epoch of the partition claimed anything |
| Necessity.EveryAssumptionIsNeeded | broker/kafka/publisher.go:41-49 | each of three rules allows whatever the assumptions allow and gives up exactly one part of them: exclusive claims, the strict end of the window, or the return of the publish call; under each, with valid configurations, a run ends with a decreasing log |
| Windows.EpochWindowsNeverOverlap | storage/postgres/ordering.go:89-145 | with no timing assumption and any valid configurations, a later epoch claims and begins at or after the window end of every attempt begun under an earlier epoch of the partition |
| Windows.StepSeparates | storage/postgres/ordering.go:89-145 | every step keeps attempt windows inside the lease while their epoch lasts and behind the clock or the barrier afterwards |
| Windows.ReconcileRowKeeps | storage/postgres/ordering.go:95-143 | one reconciliation of a row keeps its shape, never lowers epoch or barrier, and covers every window of the epoch it ends |
| Windows.ReleaseRowKeeps | storage/postgres/ordering.go:222-245 | a shutdown release covers every window of the epoch it ends, from the persisted publish timeout |
| Windows.EpochsAndBarriersNeverGoBack | storage/postgres/ordering.go:95-143 | along every run each partition's epoch and handoff barrier only grow |
| Tables.ReleaseBarrier | storage/postgres/ordering.go:208-218 | the barrier is no earlier than the existing one and than now plus publish window plus margin |
| Consistency.StepKeeps | storage/postgres/ordered_delivery.go:51-261 | every step, with records landing at any time after they were sent, keeps rows, cursors, history, handlers and logs consistent: inflight and dead rows at the cursor, delivered rows below it, each log showing start, start + 1, ... in order |
| Consistency.AdvanceEffect | storage/postgres/ordered_delivery.go:170-202 | an effective ordered delivery moves the cursor of the handler's own stream past its own sequence and marks its own event delivered, in one step |
| Consistency.EnqueueAdmits | outbox/writer.go:69-259 | an accepted ordered insert is a pending row at or beyond the cursor of a stream that keeps its start and cursor, at a position no row holds |
| Consistency.AdmitHistory | outbox/writer.go:226-259 | an admitted position was never held by another event, not even one whose row was removed |
| Consistency.CleanupKeeps | storage/postgres/store.go:559-582 | after retention every enqueued event is still a row, or was acknowledged by the broker and its position passed, and rows, cursors, handlers and logs stay consistent |
| Consistency.ReplayKeeps | storage/postgres/admin.go:344-427 | a replay keeps rows, cursors, history, handlers and logs consistent, also when its source is an ordered event |
| Guarantees.FirstOccurrencesAreConsecutive | storage/postgres/ordered_delivery.go:51-82 | with no timing assumption, however late a record lands, a stream's sequences first reach the broker as start, start + 1, ..., up to the cursor or one before it |
| Guarantees.BusyEventsSitAtTheCursor | storage/postgres/ordered_delivery.go:51-82 | an ordered event that is inflight or dead sits exactly at its stream's cursor |
| Guarantees.AttemptsWaitForPredecessors | relay/relay.go:442-555 | an attempt at n can begin only when each of start .. n - 1 was acknowledged by the broker and durably delivered |
| Guarantees.NothingCommittedIsLost | storage/postgres/store.go:559-582 | every enqueued id is still a row or was acknowledged by the broker before it was removed |
| Guarantees.NoSequenceIsReused | outbox/writer.go:226-265 | all records of one stream position carry one event id, and no other id was ever enqueued at that position |
| Guarantees.ProgressIsPermanent | storage/postgres/ordered_delivery.go:170-202 | a delivery once recorded for a stream position is never forgotten or rewritten by any run |
| Guarantees.PublishCallsAreBounded | storage/postgres/ordered_delivery.go:129-143 | across owners, crashes and reclaims, begun attempts of one event are at most the attempt limit times one more than its operator retries |
| Guarantees.AttemptsAreBounded | storage/postgres/ordered_delivery.go:129-143 | along any run, the steps that began an attempt of one event number at most the attempt limit times one more than the steps that revived it |
| StepLaws.HistoryCounts | storage/postgres/ordered_delivery.go:129-143 | the history counts exactly the attempts that began and the revivals that took effect along a run |
| StepLaws.ClaimsDispatch | relay/relay.go:431-440 | each claimed event gets a new handler of the caller that knows its place, its partition's epoch and the attempts so far |
| StepLaws.StoppedHandlersDoNothing | relay/relay.go:442-567 | a handler whose process died takes no further step of its own |
| StepLaws.ReturnedHandlersDoNothing | relay/relay.go:442-567 | nor does one that has returned |
| StepLaws.ReclaimIff | storage/postgres/ordered_delivery.go:51-113 | the exclusiveness assumption is broken exactly by an ordered claim of an event that a live handler of the same epoch still works on |
| Guarantees.SpentHandlersNeverPublish | relay/relay.go:454-471 | a handler whose claim found the attempt budget spent never begins an attempt and never puts a record on the broker, whatever happens |
| Guarantees.SpentHandlersOnlyBury | relay/relay.go:454-457 | such a handler can only bury its event or give up: under its fence the event becomes dead and the cursor stays, and each of its other steps changes nothing |
| Guarantees.BeginCounts | storage/postgres/store.go:331-345 | an attempt begins only below the limit and counts exactly one attempt on its own row |
| Lifecycle.ChangesHaveCauses | relay/relay.go:442-700 | along any run a row becomes inflight only by a claim while it is due and nobody leases it, delivered only by its holder after an acknowledged publish, dead only by its holder after a permanent failure or with no attempts left, and pending only by its holder after another failure or by an operator; it disappears only when delivered and past its retention |
| Lifecycle.ExpiredRowsGo | storage/postgres/store.go:559-582 | a cleanup step removes every row of its batch whose retention is over |
| Lifecycle.NewRowsWait | outbox/writer.go:69-224 | rows appear only by inserts and replays, waiting and with no attempt counted |
| Handler.Handle | relay/relay.go:442-567 | whatever the hooks, the store calls, the broker and a shutdown do, also when a store call takes effect and then reports an error, the handler takes a path of its own protocol steps that ends returned with the store's database; by that database, exactly when the attempt began, was acknowledged and its fence holds the row is delivered and an ordered cursor moves by one, exactly when its failure was final or its budget was spent the row is dead, exactly when another attempt remains it waits out the jittered backoff, and otherwise it stays inflight with at most one more attempt counted |
| Handler.PathDiscipline | relay/relay.go:442-567 | on every path an attempt begins first, a record lands only right after that, a result comes last and once, an event is marked delivered only right after an acknowledgement and retried only right after a failure that is not permanent, and a spent handler only buries or gives up |
| Handler.OnPublishFailure | relay/relay.go:599-644 | a failed publish is left inflight on a shutdown that was not a deadline or when its result cannot be recorded, buried if permanent or out of attempts, and otherwise retried after the jittered backoff of its attempt |
| Progress.NeverStuckIffLeaseCoversWindow | relay/config.go:144-149 | from every reachable unpaused state whose stream waits for a retained event that is not dead, one Relay alone has a timely and exclusive continuation that advances the cursor or buries the event, if and only if its ordering lease covers the rounded publish window; its claims ask for no more than its batch size and its free handlers, and no row is locked by anyone else, so whatever is ahead in claim order is claimed first |
| Progress.ValidConfigCanBeStuck | relay/config.go:144-149 | a configuration that passes validation and a reachable state from which its Relay can never move the stream |
| Progress.TakesOver | storage/postgres/ordering.go:110-143 | from any consistent, unpaused state, however the partitions are held and whatever else is due, a Relay whose lease covers its window can finish alone within its batch size and concurrency |
| Progress.TakesTurns | storage/postgres/ordered_delivery.go:51-113 | a Relay that holds every partition and claims one unlocked row at a time in claim order settles each row for good, and so reaches the expected event |
| Progress.ShortLeaseNeverFinishes | storage/postgres/ordered_delivery.go:51-82 | with a lease shorter than the rounded window, no run of that Relay's own steps moves the stream, however much it claims and whatever others have locked |
| Convergence.TwoRoundsConverge | storage/postgres/ordering.go:89-145 | with a fixed member set and leases of non-members lapsed, after two full rounds in any order and mixed with any other activity, every partition is owned by its desired owner |
| Convergence.EpochStandsIffRenewalsArePrompt | storage/postgres/ordering.go:109-122 | once the desired owner holds a partition, its epoch stays the same if and only if each of its reconciliations precedes the end of the lease left by the previous one, and then owner and barrier stay too |
| Ownership.DesiredOwner | internal/ordering/ordering.go:28-39 | the search returns a member, and for non-empty ids the unique winner of the member set, whatever the order and repetition of the list |
| Ownership.RemovalMovesOnlyItsOwn | internal/ordering/ordering.go:28-39 | removing a member changes the owner of its own partitions only |
| Ownership.AdditionMovesOnlyToIt | internal/ordering/ordering.go:28-39 | adding a member moves partitions to that member only |
| Selection.SplitScanEqualsSingleScan | storage/postgres/store.go:217-268 | the first k of pending and the first k of expired rows, merged and cut to k, are the first k of all eligible rows in the same order |
| Selection.TopIsTheEarliest | storage/postgres/store.go:226-250 | a bounded scan returns all rows or exactly k, each before every row it leaves behind |
| Types.IntervalMS | storage/postgres/store.go:50-59 | the least number of whole milliseconds that covers a duration, zero for non-positive ones |
| Selection.TopIff | storage/postgres/store.go:226-250 | a row is among the first k exactly when fewer than k rows come before it |
| OutboxLaws.OrderedClaimTakesIff | storage/postgres/ordered_delivery.go:51-113 | an ordered claim takes a row exactly when it is unlocked, due, unleased or lapsed, at its cursor, in a partition the owner holds long enough past its barrier, fewer than the limit of such rows come before it, and the Relay is listed as capable and running or takes its own lapsed row |
| OutboxLaws.UnorderedClaimTakesIff | storage/postgres/store.go:217-268 | an unordered claim takes a row exactly when it is unlocked, due, unleased or lapsed, and fewer than the limit of such rows come before it by availability, creation and id |
| OutboxLaws.ClaimsLeaveBusyRowsAlone | storage/postgres/store.go:226-250 | no claim by anyone changes a row whose lease still runs, a settled row, a row not yet due, a locked row, or anything while paused |
| OutboxLaws.LeaseTakes | storage/postgres/store.go:251-268 | a claim makes its rows inflight for the caller until now plus the lease, and changes nothing else |
| OutboxLaws.OrderedAttemptBeginsIff | storage/postgres/ordered_delivery.go:116-152 | an ordered attempt is counted exactly while the row is the caller's, its lease runs, attempts remain, and its partition is held in this epoch, past the barrier, for the whole window |
| OutboxLaws.OrderedDeliveryIff | storage/postgres/ordered_delivery.go:155-212 | an ordered delivery takes effect exactly while the event's own lease runs, for its holder, in its epoch, at its cursor; then row and cursor move together and nothing else does |
| OutboxLaws.OrderedRetryIff | storage/postgres/ordered_delivery.go:215-238 | an ordered retry takes effect exactly for the holder in its epoch and makes the row wait until now plus the delay |
| OutboxLaws.OrderedBurialIff | storage/postgres/ordered_delivery.go:240-261 | an ordered burial takes effect exactly for the holder in its epoch |
| OutboxLaws.UnorderedAttemptBeginsIff | storage/postgres/store.go:331-345 | an unordered attempt is counted exactly for the row's holder while attempts remain |
| OutboxLaws.UnorderedResultsIff | storage/postgres/store.go:348-413 | an unordered delivery, retry or burial takes effect exactly for the row's holder |
| OutboxLaws.RevivalIff | storage/postgres/store.go:416-435 | an operator retry revives exactly a dead row, due now and with no attempts counted |
| OutboxLaws.ReplayIff | storage/postgres/admin.go:344-427 | a replay adds one fresh unordered row exactly for a settled source, and for an ordered one only if asked |
| OutboxLaws.CleanupRemovesIff | storage/postgres/store.go:559-582 | retention removes a row exactly when it is in the batch and was delivered longer ago than the retention |
| Membership.StoppedRelaysGainNothing | storage/postgres/ordering.go:177-206 | from its stop until it registers or shows itself again, a Relay is the desired owner of no partition for any staleness bound, and no run acquires or renews a partition for it |
| Membership.StoppedRelaysLetGo | storage/postgres/ordering.go:95-108 | a reconciliation by a stopped Relay gives up everything it still holds |
| Membership.LastRelayTakesOver | storage/postgres/ordering.go:109-143 | when every other Relay is stopped, stale or not capable, one reconciliation by a fresh capable Relay acquires every free or lapsed partition, renews its own, and leaves running leases of others |
| Membership.MemberIff | storage/postgres/ordering.go:177-206 | a Relay is a member exactly while capable, not stopped, and seen within the staleness bound |
| Membership.ReconcileRowCases | storage/postgres/ordering.go:95-143 | the row each of the seven cases leaves: given up behind a barrier, extended, taken free, taken lapsed behind a barrier, or left alone |
| Membership.ReleaseRowCases | storage/postgres/ordering.go:222-245 | a shutdown frees exactly the owner's rows, each behind a barrier from its own persisted publish time |
| Membership.ReleaseFreesAll | storage/postgres/ordering.go:222-245 | a shutdown does so to every row it owns and touches nothing else |
| OutboxLaws.PresenceSteps | storage/postgres/presence.go:15-60 | registering lists a Relay afresh, a heartbeat revives it with what it can do, stopping marks it, and none concerns another Relay |
| Producers.EnqueueAnswers | outbox/writer.go:69-259 | when an insert is accepted and when it meets each of its errors |
| Producers.EnqueueAdds | outbox/writer.go:91-224 | an accepted insert adds one waiting row as the producer described it; a new stream begins at the start asked for or at 1, and a known stream stays as it is |
| Producers.NewStreamsTakeAnyOrder | outbox/writer.go:91-93 | two different sequences of a new stream without a start are both accepted, whichever comes first, and the stream starts at 1 |
| Producers.StreamsStartAsAsked | outbox/writer.go:91-93 | in every run a stream nobody asked a start for starts at 1, and any other starts where everyone who asked wanted it |
| Validation.OrderedEventsTake | outbox/event.go:56-116 | from a valid ordered event, exactly which values each field may take while the others stand |
| Validation.UnorderedEventsTake | outbox/event.go:56-116 | the same for an unordered event |
| Validation.SettingsTake | relay/config.go:65-151 | from valid settings, exactly which values each setting may take while the others stand |
| Store.FirstRows | storage/postgres/store.go:226-268 | selecting the least row k times yields the first k rows in claim order |
| Store.MergedRows | storage/postgres/store.go:217-268 | two bounded scans, merged and cut, yield the split selection |
| Store.Validate | outbox/event.go:56-116 | the checks made in order accept exactly the valid events |
| Protocol.Validate | relay/config.go:65-151 | the checks made in order accept exactly the valid settings, among them a publish timeout below the event lease and an ordering lease above publish timeout plus margin |
| Store.Store.Enqueue | outbox/writer.go:69-224 | the insert accepts or rejects exactly as specified, for every error case, and changes the tables only when it accepts; an accepted ordered insert finds its stream as it was, or starts it where asked and else at 1, never past its own sequence |
| Store.Store.ClaimOrdered | storage/postgres/ordered_delivery.go:20-113 | leases exactly the first due events at their cursors under the caller's partition lease and barrier, skipping locked rows and rows the claim trigger refuses; every row it takes was waiting or its lease had run out, and every other row stays |
| Store.Store.Claim | storage/postgres/store.go:195-327 | leases exactly the rows of the split scan; every row it takes was due and waiting or its lease had run out, and every other row stays |
| Store.Store.BeginOrderedAttempt | storage/postgres/ordered_delivery.go:116-152 | counts an attempt only under event lease, budget, epoch, partition lease and barrier, and otherwise changes nothing |
| Store.Store.MarkOrderedDelivered | storage/postgres/ordered_delivery.go:155-212 | advances the cursor and settles the event together under the fence, the event's own running lease included, or does neither |
| Store.Store.MarkOrderedRetry | storage/postgres/ordered_delivery.go:215-238 | returns the event to pending with its delay under the fence, or changes nothing |
| Store.Store.MarkOrderedDead | storage/postgres/ordered_delivery.go:240-261 | buries the event under the fence, or changes nothing |
| Store.Store.BeginAttempt | storage/postgres/store.go:331-345 | counts an unordered attempt for the lease owner within the budget, or changes nothing |
| Store.Store.MarkDelivered | storage/postgres/store.go:348-368 | settles an unordered event as delivered for its lease owner, or changes nothing |
| Store.Store.MarkRetry | storage/postgres/store.go:371-391 | returns an unordered event to pending with its delay for its lease owner, or changes nothing |
| Store.Store.MarkDead | storage/postgres/store.go:394-413 | buries an unordered event for its lease owner, or changes nothing |
| Store.Store.Reconcile | storage/postgres/ordering.go:30-175 | the loop over the partition rows leaves each as one reconciliation would, counts acquired, renewed and released rows, and refuses a wrong number of rows |
| Store.Store.ReconcileOne | storage/postgres/ordering.go:95-143 | one row is released, renewed, acquired or kept, and no other row changes |
| Store.EpochsCountHandoffs | storage/postgres/ordering.go:95-143 | the epochs of a pass grow in total by exactly its acquisitions and releases |
| Store.Store.Members | storage/postgres/ordering.go:177-206 | lists exactly the capable, running Relays with a fresh heartbeat |
| Store.Store.Release | storage/postgres/ordering.go:222-245 | gives up exactly the owner's partitions, each behind its barrier |
| Store.Store.RetryDead | storage/postgres/store.go:416-435 | revives a dead event with its attempts reset, and nothing else |
| Store.Store.Replay | storage/postgres/admin.go:344-427 | clones a settled event without ordering columns, refusing ordered sources unless asked for an unordered clone |
| Store.Store.CleanupDelivered | storage/postgres/store.go:559-582 | removes and counts as many unlocked delivered rows past their retention as the limit allows, none delivered after one it leaves, and nothing else |
| Inbox.EffectsCommitExactlyOnce | storage/postgres/inbox.go:29-180 | over any run of claims, expiries, reclaims, renewals, stale handlers, operator retries and unmanaged calls, at most one transaction commits for a row, and one has exactly when the row is processed |
| Inbox.ProcessedIsFinal | storage/postgres/inbox.go:29-180 | no run leaves the processed state or adds an effect to it |
| Inbox.OnlyTheLatestClaimCommits | storage/postgres/inbox.go:133-148 | a commit that takes effect comes from the latest claim on its row, which was not processed before |
| Inbox.StepKeeps | storage/postgres/inbox.go:29-246 | every step keeps row shapes, unique source coordinates, tokens of the latest claim, and one effect per processed row |
| InboxStore.InboxStore.Claim | storage/postgres/inbox.go:29-107 | insert, coordinate check, lease and inspection answer exactly as specified; a conflict leaves no trace |
| InboxStore.InboxStore.Renew | storage/postgres/inbox.go:118-131 | extends the lease under the token, or changes nothing |
| InboxStore.InboxStore.MarkProcessed | storage/postgres/inbox.go:133-148 | marks processed under the token, or changes nothing |
| InboxStore.InboxStore.MarkRetry | storage/postgres/inbox.go:150-166 | schedules a retry under the token, or changes nothing |
| InboxStore.InboxStore.MarkDead | storage/postgres/inbox.go:168-180 | buries the row under the token, or changes nothing |
| InboxStore.InboxStore.RetryDead | storage/postgres/inbox.go:194-246 | revives a dead row, and changes nothing otherwise |
| InboxStore.InboxStore.Process | inbox/processor.go:84-146 | marker and callback are kept together or rolled back together; a processed row is a duplicate and an active one a conflict |
| InboxLaws.ClaimAnswers | storage/postgres/inbox.go:29-107 | exactly when a claim is invalid, conflicting, granted, already processed, dead or waiting, with the attempt it counts and the time to look again |
| InboxLaws.ClaimLeases | storage/postgres/inbox.go:29-107 | a granted claim leases its own row under the new token and counts one attempt; any other answer changes nothing |
| InboxLaws.RunningLeasesAreRespected | storage/postgres/inbox.go:66-82 | a claim of a row whose lease runs changes nothing, whoever makes it |
| InboxLaws.RenewsIff | storage/postgres/inbox.go:118-131 | a lease is extended exactly under the live token and for a positive time |
| InboxLaws.ProcessesIff | storage/postgres/inbox.go:133-148 | a row becomes processed exactly under the live token |
| InboxLaws.RetriesIff | storage/postgres/inbox.go:150-166 | a retry is scheduled exactly under the live token and for a delay that is not negative |
| InboxLaws.BuriesIff | storage/postgres/inbox.go:168-180 | a row is buried exactly under the live token |
| InboxLaws.RevivesIff | storage/postgres/inbox.go:194-246 | exactly a dead row is revived |
| InboxLaws.UnmanagedAnswers | inbox/processor.go:84-146 | exactly when an unmanaged call runs its callback for good, is a duplicate, conflicts with a managed claim, or fails without a trace |
| InboxLaws.EventsCanStillBeProcessed | storage/postgres/inbox.go:29-148 | from any state, an event neither processed nor dead is claimed and its effect commits once its delay and its lease are over |
| InboxLaws.ResultSteps | storage/postgres/inbox.go:118-246 | under a live token renewal, retry and burial take effect, and a buried event can be revived |
| Consumer.CommittedRecordsAreProcessed | consumer/runtime.go:155-332 | every record below a committed offset resolves to an event this consumer processed with exactly one committed effect, through rewinds, pauses, failed or ambiguous commits, rebalances, crashes and late commits by former owners |
| EndToEnd.EffectsCommitInSequence | consumer/runtime.go:155-332 | with no timing assumption, for a consumer whose rows are claimed only through its group and never by unmanaged calls, if the effect of one sequence of a stream has committed, the effect of every earlier sequence has committed, exactly once each; the consumer's log is any interleaving that carries the stream's broker log in one partition, and other events may lie anywhere |
| Pipeline.EffectsFollowTheLog | consumer/runtime.go:184-190 | for a consumer whose rows are claimed only through its group, an event all of whose records lie in one partition is processed only after every event that appears there before it |
| Pipeline.StepOrders | consumer/runtime.go:155-332 | every step keeps claims backed by a record with everything before it processed, and keeps the processed events of each partition downward closed in first-appearance order |
| Consumer.StepKeeps | consumer/runtime.go:155-332 | every step keeps everything below committed offsets and fetch positions processed, except the record a worker holds |
| Consumer.PollTakesIff | consumer/runtime.go:155-183 | an idle worker polls exactly the first record from its position on, of a partition it owns and has not paused |
| Consumer.GroupSteps | consumer/runtime.go:409-505 | a partition is fetched from its committed offset when assigned, forgotten when lost, fetched on when resumed; a crash forgets everything |
| Worker.Worker.Process | consumer/runtime.go:211-332 | processing a polled record is a path of the group's steps for this worker that ends with the store's rows and the committed offsets, also when a call takes effect and then reports an error; it resolves exactly when the record is readable, its claim is heard, its offset commit works, and its event was processed before or is free, handled and committed now; otherwise the answer names the reason and the time to look again, case by case |
| Worker.Worker.Round | consumer/runtime.go:155-194 | one round of the worker's loop is a path of the group's steps; it resolves exactly under the conditions of processing, and then its offset is committed and its partition fetched on; otherwise the partition is rewound and paused with that reason and time |
| Worker.WorkersCommitWhatIsProcessed | consumer/runtime.go:155-332 | whatever the worker's methods lead to is reachable, so everything below the offsets they leave committed was processed with exactly one effect |
| Worker.Worker.Handle | consumer/runtime.go:263-332 | the handler transaction of a claimed record is a path of the group's steps; it resolves exactly when nothing fails and the token still holds, its event is then processed and its offset committed, and each failure is answered with its own reason and resume time |
| Worker.Worker.TransitionFailure | consumer/runtime.go:334-362 | a failure buries the row if permanent or out of attempts and schedules a retry otherwise, falls back to waiting out the lease when that is not reported done, and is a path of the group's steps |
| Worker.Worker.Hold | consumer/runtime.go:184-190 | an unresolved record rewinds its partition and blocks it under the new reason |
| Worker.Worker.ResumeDue | consumer/runtime.go:409-432 | resumes exactly the partitions whose wait is over or whose event is no longer dead, as resume steps of the group; paused partitions and gauges stay equal to the blocked ones |
| Worker.DueIff | consumer/runtime.go:409-432 | a timed wait ends exactly at its time, a wait for a dead event exactly when an operator has revived it, and an unreadable record is waited for forever |
| Worker.Worker.Release | consumer/runtime.go:489-505 | forgets exactly the lost partitions, as loss steps of the group, keeping gauges equal to the blocked ones |
| Soundness.NoViolationIsReachable | integrity/verifier.go:238-644 | on reachable outbox and Inbox states, whatever rows the scans return, the four table checks in their order add no violation |
| Soundness.ClassifiersAgree | storage/postgres/ordering_admin.go:23-57 | on reachable states the SQL CASE over rows of every status and the verifier's classification of active rows agree, idle read as ready |
| Soundness.NothingDeliveredAhead | cmd/emitlane-soak/runner.go:565-577 | at and beyond a cursor every row is active, so ignoring the status changes nothing |
| Integrity.EventsPassIff | integrity/verifier.go:468-561 | the event check adds no violation exactly when every row's ordering columns are absent, or complete, well placed and on the right side of the cursor |
| Integrity.StreamsPassIff | integrity/verifier.go:563-644 | the stream check adds no violation exactly when every stream is well placed, in range and has at most one expected row |
| Integrity.PartitionsPassIff | integrity/verifier.go:382-430 | the partition check adds no violation exactly when every id, epoch and lease is well formed |
| Integrity.SeedPassesIff | integrity/verifier.go:431-446 | the seed check adds no violation exactly when the ids seen are 0 to 63 |
| Integrity.InboxPassesIff | integrity/verifier.go:238-334 | the Inbox check adds no violation exactly when every row's status, attempts, lease, timestamp and source are well formed |
| Integrity.CheckEvents | integrity/verifier.go:494-555 | the loop adds to the report what each row deserves, in order |
| Integrity.CheckStreams | integrity/verifier.go:581-640 | the loop adds to the report what each stream deserves, and each counter counts the streams in its state |
| Integrity.CheckPartitions | integrity/verifier.go:369-446 | the loop and the seed pass add to the report what the rows and the ids seen deserve |
| Integrity.CheckInbox | integrity/verifier.go:251-333 | the loop adds to the report what each row deserves |
| Findings.EventFindings | integrity/verifier.go:494-555 | each finding of the event check is added once for every row that earns it, code by code and with its severity |
| Findings.StreamFindings | integrity/verifier.go:581-640 | the same for the stream check, warnings included |
| Findings.PartitionFindings | integrity/verifier.go:369-430 | the same for the partition check, warnings included |
| Findings.SeedFindings | integrity/verifier.go:431-446 | a wrong number of partition ids is reported once, and each missing id once |
| Findings.InboxFindings | integrity/verifier.go:251-333 | the same for the Inbox check, warnings included |
| Findings.TallyCounts | integrity/types.go:177-193 | the summary counts exactly the findings of each severity |
| Integrity.Accumulator.Add | integrity/types.go:177-193 | counts cover every finding, the list keeps the first ones, and truncation is flagged exactly when one is dropped |
| Integrity.Accumulator.Finish | integrity/types.go:195-205 | a report is clean, and its exit code zero, exactly when no violation was ever added |
| Audit.AuditIsSoundAndComplete | cmd/emitlane-soak/verifier.go:72-116 | for positive sequences unique per event id, no regression and no skip is counted exactly when each stream's sequences first appear as 1, 2, 3, ... |
| Audit.CountsAreExact | cmd/emitlane-soak/verifier.go:72-116 | for any records, the counts are the numbers of records, distinct events, unreadable records, records after a later sequence of their stream, and records that leave sequences out |
| Audit.Verifier.ObserveRecord | cmd/emitlane-soak/verifier.go:72-116 | one record updates observations, last sequences and counts as specified |
| Audit.Verifier.Scan | cmd/emitlane-soak/audit.go:55-103 | a scan is the fold of its records |
| Audit.Verifier.AuditClone | cmd/emitlane-soak/verifier.go:120-131 | a clone keeps the expectations and has observed nothing |
| Audit.Verifier.AdoptAudit | cmd/emitlane-soak/verifier.go:133-145 | adopting replaces every live observation by the audit's |
| Audit.Verifier.Committed | cmd/emitlane-soak/verifier.go:41-53 | a committed event is expected and counted once, as ordered or unordered |
| Audit.Verifier.TakeSnapshot | cmd/emitlane-soak/verifier.go:167-207 | lost events are exactly the expected ones never observed, and unexpected ones count as errors |
| Soak.EveryRunAuditsClean | cmd/emitlane-soak/verifier.go:72-116 | with no timing assumption, in every run whose producers asked no stream to start anywhere but at 1, a scan of the broker in any interleaving and over all topics without a slash counts no regression and no skip |
| Soak.PassedEventsAreObserved | cmd/emitlane-soak/verifier.go:167-207 | an ordered event the cursor has passed is observed by the scan |
| Scheduler.Scheduler.Run | relay/relay.go:249-364 | after cancellation the loop returns with no active handler, having dispatched every event any claim returned |
| Scheduler.Scheduler.Iterate | relay/relay.go:284-363 | each iteration receives every completion, dispatches exactly what the claim brings into the room left, and only when that is nothing waits, where one more completion or a notification takes its effect; running plus buffered completions stay equal to active handlers, never above the concurrency |
| Scheduler.Scheduler.Refill | relay/relay.go:302-335 | claims within the free capacity and dispatches everything claimed, even when a claim errs; the favoured class gets all the room it can use and the favour alternates; probing, pausing and idle backoff change exactly as the claim's answer calls for |
| Scheduler.Scheduler.Finish | relay/relay.go:431-440 | a completion always finds room in the channel |
| Scheduler.ClaimAvailable | relay/relay.go:377-429 | asks the preferred class, then the other for what room is left, returns everything both answered even if the second errs, and reports ordered work absent exactly when the ordered class was asked and gave nothing |
| Scheduler.NothingOfferedIff | relay/relay.go:377-429 | a claim with room comes back empty exactly when claiming is paused or the pause state cannot be read, when the class asked first fails, or when neither class gives anything |
| Scheduler.OfferedFillsTheRoom | relay/relay.go:377-429 | when every class answers, the claim fills the room as far as there are events, the favoured class first |
| Backoff.RetryCap | consumer/retry.go:8-23 | the doubling loop computes min(max, base * 2^(attempt - 1)) without leaving 64 bits |
| Backoff.BackoffsAgree | relay/retry.go:38-61 | the Relay's branch form computes the same value, so both backoffs agree |
| Backoff.DelaysNeverShrink | relay/retry.go:38-61 | delays before jitter never shrink from one attempt to the next |
| Backoff.RelayJitterStaysBelowCap | relay/retry.go:17-36 | full jitter stays between zero and the cap, and the cap below the maximum |
| Backoff.ConsumerJitterStaysBelowCap | consumer/retry.go:23-31 | proportional jitter stays between zero and the cap, and vanishes when it is off |
| Backoff.JitterIsExact | relay/retry.go:17-36 | both delays are the share of the cap their sample picks, truncated to whole nanoseconds |

## Left out

- The FNV-1a values of the partition and ownership hashes: both hashes are parameters, with range 0 to 63 for the partition hash.
- PostgreSQL isolation details, microsecond timestamps and transaction-start time: statements are atomic at one instant of one clock.
- Wrap-around of 64-bit sequences, epochs and attempt counts: integers are unbounded, except in `Backoff`.
- Store.Validate: id syntax, schema version, content type and header names are not modelled, and the topic length counts characters, not bytes.
- Protocol.Validate: settings that no protocol step reads are not modelled.
- Store.Store.Replay: one event at a time; the filter, limits and audit rows of a batch replay are not modelled.
- Handler.Handle: one handler runs without interleaving and its calls are scripted; interleavings are runs of `Protocol`, and a record that lands after the handler returned is a step of its own there.
- Worker.Worker.Process: the outcome of each call is scripted and one record runs without interleaving; interleavings are runs of `Consumer`.
- Worker.Worker.Handle: lease renewals are scripted by their outcome; a renewal that moves the lease is a background step of `Consumer`.
- InboxStore.InboxStore.RetryDead: the audit row and the validation of its actor and reason are not modelled.
- Scheduler.Scheduler.Run: timers, wake-ups and handler completions are scripted turns; backpressure metrics are not modelled.
- Scheduler.Scheduler.Iterate: the length of each wait is not modelled, only what ends it.
- Integrity.Accumulator.Finish: the sorting of the listed findings and their texts are not modelled.
- Soak.EveryRunAuditsClean: the audit names a stream by topic, slash and key, so two streams could share a name if a topic held a slash; Kafka forbids that, and such topics are excluded.
- Audit.Verifier.TakeSnapshot: latencies and diagnostics are not modelled.
- The resolution of an event id from record headers: whether and to what a record resolves is a parameter.
- The schema, runtime-control and presence checks of the verifier: they read catalogs or add warnings only.
- Kafka and PostgreSQL clients, notifications, the admin server, command-line tools, telemetry and payload encoding: no protocol state.
- Floating-point rounding of the jitter factors: factors are exact reals.
- An attempt bound for the Inbox: a reclaim after lease expiry counts an attempt without checking the limit, so none is intended.
