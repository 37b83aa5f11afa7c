# EventPulse, modelled and proved

EventPulse takes product-analytics events over HTTP, puts them on a Redis stream, and lets worker processes move them
into Postgres, count them and queue webhooks for them. Almost every hop may be repeated, lost half way, or overtaken by
another process; the promise is that nothing accepted is lost and nothing is stored twice. This project states those
promises about a model of the Go and TypeScript code and proves them with Dafny. `dafny verify dfyconfig.toml` checks
all of it.

## How the model is built

Each core has three layers.

- **Values and functions** say what one statement, command or call does: `Events` (tables and `ON CONFLICT DO NOTHING`),
  `Queue` (the stream and its consumer group), `Webhooks` (delivery rows), `SlidingWindow` (the Lua script), `Breaker`,
  `Funnel`, `Retention`, `Batcher`.
- **Classes** have the source's fields and the source's control flow: `Queue.StreamConsumer`, `Queue.StreamPublisher`,
  `EventStore.Postgres`, `Worker.WorkerLoop`, `Ingest.Handler`, `Dispatcher.DeliveryStore`, `Dispatcher.Loop`,
  `SubLimiter.Limiter`, `Breaker.CircuitBreaker`, `RateLimit.Limiter`, `Batcher.AutoBatcher`. Every method is proved to
  do what its function says, for every fate of every request it sends.
- **Machines** interleave the single steps. In `Pipeline` every delivery of a stream message is a process of its own
  with its own program counter, so a run may contain any number of workers in any order and lose any of them between
  any two statements. In `Webhooks` the same holds of every claimed row, in `Breaker` of every goroutine. The code of a
  worker, a handler, a dispatcher or an SDK send is proved to be one schedule of its machine, so whatever holds of every
  run of the machine holds of it.

A request to Redis or Postgres has one of three fates (`Options.Outcome`): it took effect and the reply arrived, it took
effect and the reply was lost, or it had no effect. The caller sees an error in the last two cases and cannot tell them
apart. Some statements have no choice: `Events.Refusals` says which events and which payloads Postgres never accepts, and
such a statement always fails.

| module | source | content |
|---|---|---|
| `Events`, `EventStore` | internal/events/store.go, migrations | rows, unique indexes, counters, statements |
| `Queue` | internal/queue | stream, pending list, delivery counts |
| `Pipeline`, `PipelineInvariant`, `PipelineSteps`, `PipelineWorkerSteps`, `PipelineTheorems` | all of the ingest path | the machine, its invariant, one preservation lemma per step, the results |
| `Worker`, `Ingest`, `Sdk` | internal/worker/worker.go, internal/events/handler.go, sdk/src/batcher.ts | the code as schedules of the machine |
| `Rounds`, `Progress` | internal/worker, internal/queue | read and reclaim rounds as runs of the machine, and which messages can leave the stream |
| `Runs` | internal/worker, internal/queue, internal/events | runs of the code that show what can go wrong |
| `Webhooks`, `Dispatcher`, `SubLimiter` | internal/webhooks | lease, retries, spacing |
| `SlidingWindow`, `Breaker`, `RateLimit` | internal/ratelimit | script against history, breaker, limiter |
| `Funnel`, `Retention` | internal/analytics | queries and what they mean |
| `Batcher` | sdk/src | queue, in-flight flush, retries |
| `Options`, `Sets`, `Numbers` | | shared datatypes, facts about finite sets, powers of two and rates |

## Main results

- Nothing acknowledged is lost and nothing is stored twice, in any interleaving with any failures: `PipelineWorkerSteps.RunInv`,
  `PipelineTheorems.NoLoss`, `RowsAreFinal`, `RowsHoldEvents`, `EndToEnd`, `Confluence`, `SideTablesWanted`,
  `CounterSandwich`. Which requests are accepted, exactly: `Ingest.Handler.HandleIngest`, `HandleBatchIngest`.
- Which messages leave the stream, exactly: `Progress.LeavesExactly`, with `Progress.RefusedStaysOut` for what never gets
  in anywhere and `Progress.EverythingElseLeaves` for the rounds that get the rest out.
- When reported delivery counts are right, exactly, and what follows: `Queue.ReportExact`,
  `PipelineTheorems.HandledAtMostTwice`, `DeadLettersAreDue`.
- From the bodies on the wire to a row: `Sdk.SentMeansOk`, `Sdk.SentIsStoredOnce`, `Batcher.Conservation`,
  `Batcher.DeliveryAccounts`.
- Webhook leases: `Webhooks.TerminalRowsFinal`, `WriteIsSafeExactlyOnPending`, `AtMostFivePosts`, and which batches keep
  their lease, exactly: `Dispatcher.BatchFitsExactly`. How far apart retries are: `Webhooks.NextPostWaits`, `PostsApart`.
  When eviction shows, exactly, and which calls are allowed: `SubLimiter.EvictionInvisible`, `AllowedExactly`.
- The rate limiter against its full history: `SlidingWindow.ScriptMatchesHistory`, `CountsExactlyWithoutOverlap`, what
  late scripts cost, exactly: `DelayedBoundExactly`, and behind the breaker: `RateLimit.AllowedBound`.
- The breaker under interleaving: `Breaker.FailuresBounded` with `BoundIsMet`, and how long it blocks, exactly:
  `Breaker.BlocksExactlyWhenSettled`.
- What the analytics queries mean: `Funnel.CountedMeans`, `Funnel.CountedByRows`, `Funnel.AddedEventDisturbs`,
  `Retention.MatrixConserves`, `Retention.CountedOnce`, `Retention.RowsFromTable`.

The other rows of the table below are the methods that tie the code to these functions and machines, and the lemmas the
results stand on.

## Where the code and its documentation differ

The model follows the code.

- The comments and the README say the rate limiter's breaker trips after three *consecutive* failures. A success while
  closed does not reset the count: `Breaker.SuccessDoesNotReset`; `Breaker.TripsAtThirdFailure` is what does hold.
- Ten seconds of blocking do not follow from a trip when operations interleave, because `openedAt` is stored after the
  CAS: `Breaker.OpensBeforeStamp`. `Breaker.BlocksExactlyWhenSettled` is the exact condition, for any trip time.
- Webhook rows are meant to be final once delivered. A dispatcher that outlives its claim writes over another's result:
  `Webhooks.LateWriteReopens`. With results written in time, or with one dispatcher, they are final:
  `Webhooks.TerminalRowsFinal`. `Webhooks.WriteIsSafeExactlyOnPending` says which guard the updates would need, and
  `Dispatcher.BatchFitsExactly` which batches are written in time. The comment at internal/webhooks/dispatcher.go:45-47
  sizes the claim window for one delivery, but a batch is handled in sequence: `Dispatcher.DefaultsDoNotFit` is a round of
  the default fifty rows and ten seconds that outlives its lease of fifty seconds.
- The worker treats a failed store as transient and relies on the dead letter at the third delivery
  (internal/worker/worker.go:133-139). An event that Postgres never accepts, such as one with U+0000 in its name, user or
  properties, passes `Validate` (internal/events/event.go:36-74) and is answered with 202, but its dead letter is refused
  as well (`raw_payload` is JSONB), so it is never acknowledged, stored or dead-lettered: `Runs.AcceptedEventIsLost`. A
  hundred such messages stop the reclaim for every later one, because XAUTOCLAIM starts at 0-0 each time and examines at
  most ten times COUNT entries: `Runs.HundredBlock`. `Progress.LeavesExactly` is the exact condition.
- The source's README.md:145 dead-letters an event after three failed validations. The worker validates nothing; it
  dead-letters bytes that do not decode at once, and any other message at its third delivery, so a message is handled at
  most twice: `PipelineTheorems.HandledAtMostTwice`. Delivery counts may be under-reported (`Queue.ReportExact` says
  exactly when they are right, `Runs.CountCanBeWrong` is a run in which one is not), never over-reported.
- Dead letters are meant to carry a project ID. Published events are marshalled with the member `ProjectID`, and the
  worker looks for `project_id`. `PipelineTheorems.DeadLetterProjects` says exactly which dead letters name a project,
  and `Runs.PublishedEventLosesProject` dead-letters any accepted event that the table takes without one.
- A user with a valid chain of funnel steps inside the window need not be counted, and one more event can remove a user
  from a step: `Funnel.ChainNeedNotCount`. `Funnel.CountedMeans` says who is counted, and `Funnel.AddedEventDisturbs`
  which added events change a user's chain.
- A flushed SDK batch can exceed `maxQueueSize`, by any amount: `Batcher.AnySizeOccurs`. It does exactly when more
  events than the limit were queued since the last batch was taken (`Batcher.BatchExceedsLimitExactly`), which needs the
  queue to have filled up during a flush (`Batcher.OversizeNeedsFlight`). A batch above a hundred events is refused by
  the server and lost whole: `Sdk.OversizedIsLost`.
- Two limiter calls in one nanosecond share one sorted-set member, and the script then counts them once:
  `SlidingWindow.EqualMembersSlipThrough`. `SlidingWindow.CountsExactlyWithoutOverlap` is the exact condition. The
  limiter results ask only that no two admitted calls share a member.
- The limiter's window is measured on the callers' clock readings, and a script may run after one with a later reading.
  With scripts at most d late, intervals up to the window less d are safe and no longer ones:
  `SlidingWindow.DelayedBoundExactly`, `RateLimit.AllowedBound`. The other results about the script are for scripts that
  run when their clock is read.
- The API reference bounds deduplication to 24 hours; the unique index has no time limit.

## Assumptions

- Event IDs are fresh when they are drawn. An SDK idempotency key is fresh when its event is tracked, and no other
  producer sends a tracked key afterwards.
- Redis and Postgres do not lose what they have acknowledged. A stream has one consumer group, created before it is read
  from, and nothing trims the stream.
- Every payload on the stream that decodes to an event was put there by the ingest handler; any other bytes may appear.
- What Postgres refuses depends on the event or payload alone (`Events.Refusals`), as with U+0000 or a `project_id` that is
  not a UUID.
- Webhook subscriptions are fixed during a run of `Pipeline`. In the code they come and go, and deleting one deletes its
  delivery rows, so the result about webhook pairs is about a run without such a change. `Webhooks` has `Remove`.
- XAUTOCLAIM hands over the first ten idle entries among the first hundred pending ones, as Redis documents for COUNT 10.
  A round of a worker is atomic in `Rounds`, any number of workers may have rounds at one instant, and a handling under way
  before the first round counts as lost there; `Pipeline` itself interleaves single statements.
- All machines read one clock that does not run backwards (limiter, dispatcher). Limiter calls take effect in the order in
  which their scripts run.
- The retention query's offsets reach `cohorts - 1` when the database session is in UTC; the model keeps the two dates
  apart and states the bound for both.

## Model

| member | source | states |
|---|---|---|
| PipelineTheorems.NoLoss | internal/worker/worker.go:106-205 | in every run each published message is exactly one of undelivered, pending, acked; for an acked one there is a row with its ID or its project and nonempty key, or a dead letter with its payload |
| PipelineTheorems.RowsAreFinal | internal/events/store.go:18-21 | over any continuation of any run stored rows never change or vanish, and IDs and (project, key) stay unique |
| PipelineTheorems.RowsHoldEvents | internal/events/store.go:18-22 | in every run each stored row holds, column by column, a published event with its ID: project, name, properties, user and key with NULL for empty, timestamp and receivedAt each in its own column |
| PipelineTheorems.EndToEnd | sdk/src/batcher.ts:70-90 | an event tracked by the SDK has at most one row, which carries the tracked event: name without the white space around it, user, properties, and its own time or else the time of receipt; exactly one as soon as any message of it was acked on the store path; a successful send has put it on the stream |
| PipelineTheorems.StoredClassesArePublished | internal/events/handler.go:128-140 | stored classes are always published ones, and all of them once every message is acked on the store path |
| PipelineTheorems.SideTablesWanted | internal/worker/worker.go:141-156 | webhook pairs are those of published events with active subscriptions of their project whose filter matches, and daily active users those of published events with a user on the UTC day of their timestamp; each message acked on the store path has put its share there unless one of its own statements was missed |
| PipelineTheorems.Confluence | internal/worker/worker.go:133-160 | two drained runs that published the same events agree on stored classes, webhook pairs and daily active users, however they were scheduled |
| PipelineTheorems.CounterSandwich | internal/events/store.go:32-44 | a daily counter is at most the deliveries of messages with its project, name and UTC day, and at least such messages acked on the store path with no upsert missed |
| PipelineTheorems.DeadLettersAreDue | internal/worker/worker.go:94-100 | a reported count never exceeds the true one, so the retry-limit dead letter is only written for a message delivered at least three times |
| PipelineTheorems.HandledAtMostTwice | internal/worker/worker.go:88-101 | a message whose own counts were told right enters handleMessage at most twice |
| PipelineTheorems.DeadLetterProjects | internal/worker/worker.go:182-197 | in every run the project of a dead letter is that of its project_id member if its payload does not decode, and none otherwise |
| Progress.LeavesExactly | internal/worker/worker.go:58-205 | after any run some rounds of the workers get a message off the stream if and only if it has left already, or a table takes it and it is handed over: by a reclaim, with fewer than a hundred refused messages before it, or at its first delivery, if it settles there |
| Progress.RefusedStaysOut | internal/worker/worker.go:133-139 | in every run a message that neither table takes is not acked, not dead-lettered, and has no row |
| Progress.EverythingElseLeaves | internal/worker/worker.go:88-205 | after any run one sequence of rounds acks exactly the messages that can leave, each then with a row or a dead letter of its own |
| Progress.StaysBlocked | internal/queue/consumer.go:74-82 | no rounds, with anything else in between, ack a message that cannot leave |
| Progress.BehindHundred | internal/queue/consumer.go:75-82 | behind a hundred pending entries no entry is examined by XAUTOCLAIM |
| Progress.ToldExactly | internal/queue/consumer.go:96-112 | a batch that takes every pending entry of its range is told the true counts |
| Rounds.ReclaimRound | internal/worker/worker.go:88-101 | one reclaim with any fates: only its batch is touched, each entry counted once more, and what settles with all statements answered is acked |
| Rounds.ReadRound | internal/worker/worker.go:58-86 | one read with any fates: up to ten new entries become pending, those that settle at once may be acked, older ones are untouched |
| Rounds.BatchSettles | internal/worker/worker.go:82-100 | a batch acks only messages that settle, and each of them whose statements are all answered |
| Rounds.FirstTen | internal/queue/consumer.go:75-82 | a pending entry among those examined that has been idle for 30 seconds and is not handed over comes after ten that are |
| Runs.AcceptedEventIsLost | internal/events/event.go:36-74 | with a server that refuses U+0000, an event that carries it and was answered with 202 is never acked, stored or dead-lettered in any continuation |
| Runs.HundredBlock | internal/queue/consumer.go:75-82 | a hundred such events, then any other: with the first replies lost, no rounds ever get the other one off the stream |
| Runs.PublishedEventLosesProject | internal/worker/worker.go:182-197 | for any accepted event whose dead letter is not refused, rounds whose only dead letter is that event at its third delivery, with no project |
| Runs.CountCanBeWrong | internal/queue/consumer.go:133-152 | rounds after which the next reclaim tells a message delivered twice the count zero |
| PipelineWorkerSteps.RunInv | internal/worker/worker.go:58-205 | the invariant behind these results holds in every run, over every interleaving and crash |
| PipelineWorkerSteps.ExecKeeps | internal/worker/worker.go:58-205 | every run grows every history (stream, log, rows, dead letters, pairs, acks) and preserves the invariant |
| PipelineWorkerSteps.StepKeeps | internal/worker/worker.go:133-160 | each single statement of handleMessage and deadLetter preserves the invariant, whatever becomes of it |
| PipelineSteps.XAddKeeps | internal/queue/stream.go:36-41 | one XADD, confirmed or not, preserves the invariant |
| PipelineSteps.WriteKeeps | internal/events/handler.go:134-140 | the direct write, committed or not, preserves the invariant |
| PipelineSteps.ReplyKeeps | internal/events/handler.go:144-145 | a 202 that reaches the SDK is sent only when every event of the send is on the stream |
| PipelineSteps.TrackKeeps | sdk/src/batcher.ts:71-76 | tracking fresh keys preserves the tie between issued events and tracked items |
| PipelineTheorems.StoredAs | internal/events/store.go:18-21 | a stored message is represented by a row of its class |
| Pipeline.TrimSpaceMeans | internal/events/handler.go:224-239 | a trimmed name is the name with nothing but white space cut off at both ends, and has none left there |
| Pipeline.BuildAllMeans | internal/events/handler.go:224-239 | every built event has its item's trimmed name, user, properties and key, the drawn ID, the time of receipt, and its own timestamp or else that time |
| Events.Insert | internal/events/store.go:18-21 | after the INSERT the event conflicts, earlier rows are as before, and the unique indexes still hold |
| Events.InsertMeans | internal/events/store.go:18-22 | without a conflict one row is added, which holds every column of the event as bound, with NULL for an empty user or key; with one nothing changes |
| Events.InsertAllConflicts | internal/events/store.go:71-83 | after a batch insert no event of the batch can be inserted again |
| Events.FirstOfBatchWins | internal/events/store.go:71-83 | in a batch insert an event that conflicts with no row and no earlier event of the batch gets its own row |
| Events.InsertAllOrigin | internal/events/store.go:71-83 | every row a batch insert adds holds, column by column, one of its events |
| Events.InsertAllKeeps | migrations/000001_init.up.sql:36-38 | a batch insert changes no row and keeps IDs and (project, key) unique |
| Events.CountKeyMeans | internal/worker/worker.go:147-150 | the counter an event bumps is that of its project, its name and the UTC day of its timestamp |
| Events.ActiveMeans | internal/worker/worker.go:152-156 | an event marks exactly its user, if it has one, in its project on the UTC day of its timestamp |
| Events.PairsMean | internal/webhooks/store.go:70-85 | an event is enqueued for exactly the active subscriptions of its project that have no filter or its name as filter |
| Events.ConflictsMean | migrations/000001_init.up.sql:36-38 | an INSERT conflicts if and only if some row has the event's ID, or its project and its nonempty key |
| EventStore.Postgres.Store | internal/events/store.go:12-28 | when the statement applies to an event without a conflict, its row has every column as the source binds it, each of the two times in its own; without an error the event is in the table for good |
| EventStore.Postgres.BatchStore | internal/events/store.go:64-100 | all rows become visible or none; without an error every event of the batch is in the table, and each that conflicts with nothing before it under its own row |
| EventStore.Postgres.UpsertDailyCount | internal/events/store.go:32-44 | of all counters exactly that of the event's project, name and UTC day grows by one when the upsert takes effect |
| EventStore.Postgres.UpsertDailyActiveUser | internal/events/store.go:48-62 | exactly the row of the event's project, UTC day and user is added; anonymous events change nothing and never fail |
| EventStore.Postgres.EnqueueDeliveries | internal/webhooks/store.go:70-85 | exactly the pairs of the active subscriptions of the event's project that match its name are added |
| EventStore.Postgres.InsertDeadLetter | internal/worker/worker.go:192-200 | the row is appended when the statement takes effect; without an error it is there |
| Queue.StreamPublisher.Publish | internal/queue/stream.go:30-43 | the event is appended when the XADD takes effect; without an error it is on the stream |
| Queue.StreamPublisher.PublishBatch | internal/queue/stream.go:45-69 | exactly the events whose own XADD took effect are appended, in order; any failure is reported |
| Queue.StreamConsumer.Read | internal/queue/consumer.go:47-70 | the first ten undelivered entries, or all of them, in order move to the pending list and are returned with count zero |
| Queue.StreamConsumer.Reclaim | internal/queue/consumer.go:74-113 | the claimed entries are redelivered once each and carry the counts XPENDING reports, zero when the query fails |
| Queue.StreamConsumer.DeliveryCounts | internal/queue/consumer.go:133-152 | the map's value at every ID is the report of the range query |
| Queue.StreamConsumer.WithCounts | internal/queue/consumer.go:102-112 | one message per claimed entry, in order, with its payload and count |
| Queue.StreamConsumer.Ack | internal/queue/consumer.go:125-130 | the entry leaves the pending list when the XACK takes effect; without an error a delivered entry is acked |
| Queue.ReportNeverOver | internal/queue/consumer.go:133-152 | no report exceeds the count in the pending list |
| Queue.ReportExact | internal/queue/consumer.go:137-143 | all reports on a batch are exact if and only if no other pending entry lies between its first and last ID |
| Queue.DeliverInv | internal/queue/consumer.go:48-54 | delivering keeps each entry exactly one of undelivered, pending, acked, with true counts |
| Queue.RedeliverInv | internal/queue/consumer.go:75-82 | so does claiming a pending entry |
| Queue.RangeComplete | internal/queue/consumer.go:137-143 | the range query omits a pending ID only after as many smaller ones as were asked for |
| Worker.WorkerLoop.HandleMessage | internal/worker/worker.go:106-165 | tables and stream end as the specification of one handling says, for every fate of every statement |
| Worker.WorkerLoop.DeadLetterMessage | internal/worker/worker.go:167-205 | the message is acked only behind its dead-letter row |
| Worker.DeadHandlingMeans | internal/worker/worker.go:167-205 | at count three, and at once for bytes that are no event, a handling adds one dead letter with payload, count, reason and project, and acks only behind it |
| Worker.LiveHandlingMeans | internal/worker/worker.go:133-165 | any other handling inserts the row, and past a reported success each side statement does its own part, whatever becomes of the others, and the message is acked; without that success nothing else happens |
| Worker.WorkerLoop.HandleAll | internal/worker/worker.go:82-100 | handling a batch is a schedule of the machine, one flight after the other |
| Worker.WorkerLoop.ReadAndHandle | internal/worker/worker.go:58-86 | a read round is a schedule of the machine |
| Worker.WorkerLoop.ReclaimAndProcess | internal/worker/worker.go:88-101 | a reclaim round (claim, count query, dead-letter or handle) is a schedule of the machine |
| Worker.ScriptRuns | internal/worker/worker.go:106-205 | an uninterrupted flight of the machine does to tables and stream what one handling does |
| Worker.StillWaiting | internal/worker/worker.go:82-84 | handling some messages of a batch leaves the later ones as they were read |
| Worker.TakesDeliver | internal/queue/consumer.go:47-70 | a batch read is single deliveries, and the messages await handling if the reply arrives |
| Worker.ClaimsRedeliver | internal/queue/consumer.go:74-82 | a batch claim is single redeliveries |
| Worker.QueriesTell | internal/queue/consumer.go:96-112 | after the count query each claimed flight waits with the reported count |
| Ingest.Handler.HandleIngest | internal/events/handler.go:91-146 | the event built under the header's key, or the body's without one, is refused as invalid if and only if it is, as violating its schema if and only if it is valid and does, answered with an internal error if and only if it passes and the XADD reports one, and queued otherwise; publish, then direct write, is a schedule of the machine, and a refusal changes nothing |
| Ingest.Handler.HandleBatchIngest | internal/events/handler.go:148-222 | empty and more than a hundred events are refused; of the rest, exactly the batches with an invalid event as invalid, valid ones with a violation as such, passing ones with a failed XADD with an internal error, and all others are queued, each event of them; a refusal changes nothing, and otherwise the handler is a schedule of the machine |
| Ingest.Handler.BuildAndValidate | internal/events/handler.go:177-190 | all events are built in order, and there are field errors exactly when some event is invalid |
| Ingest.IngestRuns | internal/events/handler.go:203-214 | an uninterrupted handler appends the events whose XADD took effect, writes rows only if all were confirmed, and confirms its send only by a 202 that arrives |
| Webhooks.NextBackoff | internal/webhooks/model.go:45-54 | the doubling loop computes one second times two to the attempts before, capped at one hour |
| Webhooks.WriteResultMeans | internal/webhooks/dispatcher.go:127-156 | the write of an attempt changes its own row only: delivered in the status alone; after a failure one more attempt, failed at the fifth, and before that pending and due exactly 1, 2, 4 or 8 seconds later |
| Webhooks.BackoffGrows | internal/webhooks/model.go:45-54 | the wait is a second at first, doubles with every attempt, and stops at an hour |
| Webhooks.DueExactly | internal/webhooks/store.go:94-103 | a pending row may be claimed from its due time on and not before |
| Webhooks.RunInv | internal/webhooks/store.go:91-163 | in every timely or exclusive run each claim that may write still finds its row as it left it |
| Webhooks.LeaseHolds | internal/webhooks/store.go:91-132 | in a timely run no two unexpired claims hold one delivery; with one dispatcher no two claims do |
| Webhooks.AttemptsBounded | internal/webhooks/dispatcher.go:143-156 | in every run attempts never exceed five, pending rows have some left and failed ones none; in a timely or exclusive run failed is exactly five attempts |
| Webhooks.TerminalRowsFinal | internal/webhooks/store.go:135-163 | delivered and failed rows never change again in a timely or exclusive run |
| Webhooks.LateWriteReopens | internal/webhooks/store.go:148-163 | a run with two dispatchers, leases of fifty seconds and a late write in which a delivered row becomes pending again |
| Webhooks.WriteIsSafeExactlyOnPending | internal/webhooks/store.go:135-163 | in any state a claim's result leaves terminal rows alone, whatever it is, if and only if its row is pending or gone |
| Webhooks.AtMostFivePosts | internal/webhooks/dispatcher.go:93-161 | with one dispatcher a delivery is POSTed at most five times plus once per POST of its own whose result was lost |
| Webhooks.NextPostWaits | internal/webhooks/dispatcher.go:150-156 | in every exclusive run a delivery is POSTed again after a recorded attempt only if that attempt failed and was not the fifth, and no sooner than 1, 2, 4 or 8 seconds after the record of the first to fourth failure |
| Webhooks.PostsApart | internal/webhooks/dispatcher.go:93-161 | so in every exclusive run two POSTs of one delivery with a recorded failure in between are at least that far apart |
| Webhooks.AttemptsUseBudget | internal/webhooks/dispatcher.go:127-156 | each unskipped attempt whose write takes effect lowers the attempts left over all pending rows |
| Webhooks.ApplyKeeps | internal/webhooks/store.go:91-163 | every step keeps the lease invariant and every terminal row |
| Dispatcher.DeliveryStore.EnqueueDeliveries | internal/webhooks/store.go:70-85 | one pending row per matching subscription without one, old rows untouched, and the number inserted |
| Dispatcher.DeliveryStore.ClaimDueDeliveries | internal/webhooks/store.go:91-132 | the chosen due rows get the new lease and are returned in order with their subscriptions and attempts; an error returns none |
| Dispatcher.TakeAllMeans | internal/webhooks/store.go:94-113 | a claim moves the due time of exactly the chosen rows to the end of the lease and changes nothing else |
| Dispatcher.DeliveryStore.MarkDelivered | internal/webhooks/store.go:135-144 | only the named row's status changes; without an error an existing row is delivered |
| Dispatcher.DeliveryStore.RescheduleOrFail | internal/webhooks/store.go:148-163 | only the named row changes; when the statement applies it has the given attempts and due time and is failed or pending as told |
| Dispatcher.Loop.Attempt | internal/webhooks/dispatcher.go:93-161 | a skip or a lost write leaves the row; a delivery changes its status alone; a failed POST or decryption adds an attempt and makes the row failed at the fifth and otherwise due 1, 2, 4 or 8 seconds after the attempt ends; one POST is made exactly when the attempt is not skipped and the secret decrypts; no other row changes |
| Dispatcher.Loop.ProcessBatch | internal/webhooks/dispatcher.go:75-91 | a round is this run of the machine, with the same rows and POSTs; it is exclusive and ends with no claim in memory, whatever became of the claiming statement |
| Dispatcher.AttemptRuns | internal/webhooks/dispatcher.go:93-161 | an attempt is a schedule of the machine that touches only its own claim and row, and is timely exactly when its write falls before its lease |
| Dispatcher.AttemptMeans | internal/webhooks/dispatcher.go:93-161 | the same of the specification that the machine's schedule follows |
| Dispatcher.RoundIsTimelyExactly | internal/webhooks/dispatcher.go:75-91 | a round is timely if and only if each of its writes falls before now plus the claim window |
| Dispatcher.BatchFitsExactly | internal/webhooks/dispatcher.go:44-91 | with pauses and calls within bounds, every round of every run with batch size n writes in time if and only if n pauses and n calls sum to less than the claim window |
| Dispatcher.ShortRoundInTime | internal/webhooks/dispatcher.go:75-91 | with each pause and each call within its bound, the clock after k attempts is at most k pauses and k calls on, so the writes of a batch that fits come before the lease ends |
| Dispatcher.DefaultsDoNotFit | internal/config/config.go:52-53 | with the default batch size and timeout a round that writes after its lease |
| Dispatcher.GrabsTake | internal/webhooks/store.go:94-113 | a batch claim is single claims, no row twice |
| Dispatcher.RoundsAdd | internal/webhooks/dispatcher.go:61-73 | exclusive rounds make an exclusive run and timely rounds a timely one |
| SubLimiter.Limiter.Allow | internal/webhooks/dispatcher.go:198-216 | the answer and the evicting loop's resulting map |
| SubLimiter.EvictionInvisible | internal/webhooks/dispatcher.go:196-216 | eviction changes no answer if and only if the interval is at most ten minutes plus one nanosecond |
| SubLimiter.AllowedApart | internal/webhooks/dispatcher.go:198-216 | two allowed attempts on one subscription are at least the interval apart |
| SubLimiter.AllowedExactly | internal/webhooks/dispatcher.go:198-216 | while eviction is invisible, a call is allowed if and only if every earlier allowed call on its subscription is at least the interval old |
| SubLimiter.WitnessDiffers | internal/webhooks/dispatcher.go:209-214 | for any longer interval a call sequence whose answers differ |
| SlidingWindow.ScriptMatchesHistory | internal/ratelimit/ratelimit.go:18-38 | without overlapping members the script admits a request if and only if fewer than limit were admitted in the window over the whole history |
| SlidingWindow.CountsExactlyWithoutOverlap | internal/ratelimit/ratelimit.go:25-37 | for every sequence in clock order the script's counts are the admitted requests of the window if and only if no request is admitted while an admitted one with its member is in the window |
| SlidingWindow.DistinctMembersSuffice | internal/ratelimit/ratelimit.go:96-99 | requests with members of their own never overlap |
| SlidingWindow.WindowBound | internal/ratelimit/ratelimit.go:18-38 | every interval of the window's length holds admissions of at most limit members, and without overlap at most limit admissions |
| SlidingWindow.DelayedBoundExactly | internal/ratelimit/ratelimit.go:95-104 | for scripts that run at most d after their clock was read, every interval of a given length holds at most limit admissions if and only if it is no longer than the window less d |
| SlidingWindow.DelayedBound | internal/ratelimit/ratelimit.go:18-38 | the bound for every limit, and after every prefix of the requests |
| SlidingWindow.FoundAreLive | internal/ratelimit/ratelimit.go:25-27 | whatever the members, after trimming and expiry the set is exactly the members admitted in the window |
| SlidingWindow.MembersCount | internal/ratelimit/ratelimit.go:27-28 | admitted requests have as many members as there are requests if and only if the members are distinct |
| SlidingWindow.RejectionDelay | internal/ratelimit/ratelimit.go:117-127 | a rejection reports an admission of the window, without overlap the oldest; the delay is the wait for it to leave, rounded up to whole seconds, at least one and at most the window's length |
| SlidingWindow.NothingBeforeOldestLeaves | internal/ratelimit/ratelimit.go:27-33 | after a rejection no request is admitted before the reported entry leaves the window, whatever the members |
| SlidingWindow.AdmittedAfterDelay | internal/ratelimit/ratelimit.go:117-127 | a request made after the delay is admitted unless another was admitted in between |
| SlidingWindow.EqualMembersSlipThrough | internal/ratelimit/ratelimit.go:96-99 | three requests with one member admitted under a limit of two |
| Breaker.MovesAreLegal | internal/ratelimit/circuit_breaker.go:8-16 | no atomic operation moves the state other than closed to open, open to half-open, half-open to closed or open |
| Breaker.FailuresBounded | internal/ratelimit/circuit_breaker.go:76-98 | in every interleaving failures is at most two plus the goroutines between an Add of three or more and their Store(0), so at most two at rest |
| Breaker.BoundIsMet | internal/ratelimit/circuit_breaker.go:85-97 | for every k a run with k such goroutines and the counter at two plus k |
| Breaker.BlocksExactlyWhenSettled | internal/ratelimit/circuit_breaker.go:42-98 | for every time t, an open breaker blocks every schedule before t + 10 s if and only if openedAt has caught up with t and no goroutine is past the age check or about to store an earlier time |
| Breaker.OpensBeforeStamp | internal/ratelimit/circuit_breaker.go:85-90 | a run in which a call is let through right after a trip |
| Breaker.CallRuns | internal/ratelimit/circuit_breaker.go:42-98 | a call nobody interrupts is the sequential call |
| Breaker.TripsAtThirdFailure | internal/ratelimit/circuit_breaker.go:76-98 | a closed breaker stays closed if and only if fewer than three failures were recorded since it closed, successes or not |
| Breaker.SuccessDoesNotReset | internal/ratelimit/circuit_breaker.go:63-71 | two failures, a success and a failure trip it |
| Breaker.RefusesForTenSeconds | internal/ratelimit/circuit_breaker.go:42-58 | an open breaker refuses every whole call for ten seconds and stays open |
| Breaker.CircuitBreaker.AllowNow | internal/ratelimit/circuit_breaker.go:42-58 | refused exactly when open for less than ten seconds; an open breaker that lets a call through is half-open |
| Breaker.CircuitBreaker.RecordSuccess | internal/ratelimit/circuit_breaker.go:63-71 | half-open closes and clears the count, other states are unchanged |
| Breaker.CircuitBreaker.RecordFailure | internal/ratelimit/circuit_breaker.go:76-98 | half-open opens at once, the third failure trips a closed breaker, both at the given time with the count cleared; a lost trip only clears the count |
| RateLimit.RepliesFollowHistory | internal/ratelimit/ratelimit.go:86-130 | an answered call is allowed exactly when fewer than limit calls of its key were admitted in the window, counting those whose reply was lost; otherwise it is told, rounded up to whole seconds, the wait until the oldest of them leaves the window |
| RateLimit.AllowedBound | internal/ratelimit/ratelimit.go:86-130 | under FailClosed, with scripts at most d late, every interval as long as the window less d holds at most limit allowed calls per key through any mix of errors, lost replies and trips |
| RateLimit.VerdictMeans | internal/ratelimit/ratelimit.go:86-130 | every verdict from what happened: a refusal by an open breaker younger than ten seconds, a script error and an answered script; under FailOpen every verdict is allowed or limited, and limited only on an answered rejection |
| RateLimit.ThreeErrorsTrip | internal/ratelimit/ratelimit.go:101-111 | of three failed calls in a row on a closed breaker one trips it, at the time it failed, and on one without failures the third |
| RateLimit.AdmittedAreLive | internal/ratelimit/ratelimit.go:101-104 | the visits admitted on a key in an interval are as many as the requests its script admitted there |
| RateLimit.WindowsFollow | internal/ratelimit/ratelimit.go:101-104 | each key's set is the script's over the requests that reached that key |
| RateLimit.NoScriptAfterTrip | internal/ratelimit/ratelimit.go:87-93 | a trip happens on a Redis error, and until ten seconds after it no script is sent, nothing changes, and the answer is the fail mode's |
| RateLimit.DecimalInjective | internal/ratelimit/ratelimit.go:96-99 | different nanosecond readings make different members |
| RateLimit.Redis.RunScript | internal/ratelimit/ratelimit.go:18-38 | the in-place script on one key does what the script's specification says |
| RateLimit.Limiter.Allow | internal/ratelimit/ratelimit.go:86-130 | breaker, script, fail mode and Retry-After leave the state as specified; limited only on a script that answered, and an error is told only under FailClosed |
| Funnel.CountedMeans | internal/analytics/funnel.go:88-105 | a user is counted at a step if and only if the greedy chain from the first entry reaches it with every gap inside the window |
| Funnel.CountedByRows | internal/analytics/funnel.go:82-105 | the same in stored rows: a user is counted at step i if and only if the project has one event of the user per step, the first of the entry step, then each time the first later one, within the window |
| Funnel.CountedHasChain | internal/analytics/funnel.go:95-105 | a counted user's timestamp is the end of that chain |
| Funnel.ChainIsCounted | internal/analytics/funnel.go:95-105 | and every such chain is counted, at its own timestamp |
| Funnel.GreedyIsEarliest | internal/analytics/funnel.go:97-101 | each chosen timestamp is at or before the same place of every chain of the user |
| Funnel.WindowMonotone | internal/analytics/funnel.go:95-105 | a longer window loses no user, moves no timestamp and lowers no count |
| Funnel.ChainNeedNotCount | internal/analytics/funnel.go:88-105 | a user with a valid chain who is not counted, and is counted without the earlier event |
| Funnel.AddedEventDisturbs | internal/analytics/funnel.go:88-105 | an added event leaves a user's greedy chain as it is if and only if it is not an earlier entry and does not fall strictly between two links as a match of the next step |
| Funnel.UndisturbedStaysCounted | internal/analytics/funnel.go:88-105 | a counted user stays counted, at the same timestamp, unless the added event disturbs the chain |
| Funnel.SecondStep | internal/analytics/funnel.go:88-105 | a user reaches the second step if and only if some second-step event lies within the window after the first entry |
| Funnel.DroppedAndLast | internal/analytics/funnel.go:127-142 | counts never increase, and the dropped values plus the last count are the first count |
| Funnel.OverallIsProduct | internal/analytics/funnel.go:144-147 | over the reals the overall rate is the product of the step rates when no count is zero |
| Funnel.PrefixFunnel | internal/analytics/funnel.go:94-104 | the first k steps are those of the k-step funnel |
| Funnel.RunQuery | internal/analytics/funnel.go:86-125 | the joined counts are the numbers of users in each step |
| Funnel.Funnel | internal/analytics/funnel.go:74-154 | every step reports its users, those lost before the next, and its rate |
| Retention.QueryRowsExact | internal/analytics/retention.go:51-80 | the ordered rows are exactly the nonempty groups, each once, dates descending and offsets ascending |
| Retention.Conservation | internal/analytics/retention.go:64-76 | all retained counts together are the project's active-user rows in the observed window |
| Retention.MatrixConserves | internal/analytics/retention.go:48-137 | all bucket counts of the matrix together are the project's active-user rows dated within the last `cohorts` days up to the process's date, as far as the session's |
| Retention.RowsAreCohorts | internal/analytics/retention.go:93-135 | every returned row starts with its whole cohort at offset 0 and rate 1, has strictly growing offsets within the window and no bucket above the cohort |
| Retention.RowsFromTable | internal/analytics/retention.go:48-80 | a returned row has as its size the users whose earliest date in the window is the cohort's, and in each bucket the number of their rows that many days later, with the rate |
| Retention.CountedOnce | internal/analytics/retention.go:64-76 | every active-user row of the window counts in exactly one bucket: in the row of its user's earliest date there, at the days since |
| Retention.BucketSize | internal/analytics/retention.go:64-76 | a group has at most its cohort's users, and all of them at offset 0 |
| Retention.GroupRows | internal/analytics/retention.go:88-135 | the grouping loop loses and reorders nothing: spreading the result gives the rows back, one row per cohort in strictly descending date |
| Retention.Retention | internal/analytics/retention.go:48-137 | every row is the cohort of its date and has the shape of one, the bucket counts sum to the active-user rows of the window, and each of those counts in a bucket of its user's cohort |
| Batcher.Conservation | sdk/src/batcher.ts:33-55 | in every state the events ever queued are the flushed batches in order and then the queue, at most one batch is unsettled, and each settled one is accounted for in full |
| Batcher.DeliveryAccounts | sdk/src/batcher.ts:70-90 | all of a batch is sent or none; all if and only if a 2xx comes within the allowed POSTs after network errors and 5xx only; the wait told is that of a last 429; the sleeps are 1, 2, 4, ... seconds |
| Batcher.LastAttemptMeans | sdk/src/retry.ts:29-46 | the loop ends at the first response that is not retryable, or at the last attempt allowed, and nowhere else |
| Batcher.ClassifyMeans | sdk/src/batcher.ts:107-121 | 2xx succeeds, 429 backs off by its positive Retry-After or 60, network errors and 5xx are retryable, nothing else is |
| Batcher.KeysStayInOneBatch | sdk/src/batcher.ts:44-55 | with fresh keys no key is in two batches, so only retries resend it |
| Batcher.QueueStaysBelowLimit | sdk/src/batcher.ts:33-38 | after an enqueue the queue is below its limit unless a flush is in flight |
| Batcher.BatchExceedsLimitExactly | sdk/src/batcher.ts:44-47 | over every run a batch is the events queued since the last one was taken, so it exceeds the limit if and only if more than the limit were |
| Batcher.OversizeNeedsFlight | sdk/src/batcher.ts:33-47 | a batch above the limit had filled the queue while the flush before it was in flight |
| Batcher.AnySizeOccurs | sdk/src/batcher.ts:44-47 | whatever the limit, for every size a run that flushes a batch of that size |
| Batcher.ClientErrorLosesBatch | sdk/src/batcher.ts:119-121 | a batch refused with a client error is lost at that POST |
| Sdk.OversizedIsLost | internal/events/handler.go:172-175 | nothing of a batch above a hundred events is published or reported sent, and the first 400 ends its send |
| Sdk.PostRuns | internal/events/handler.go:203-221 | one POST confirms its send exactly when every XADD was confirmed and the 202 arrives |
| Sdk.SentMeansOk | sdk/src/batcher.ts:78-90 | the SDK reports a batch as sent if and only if the machine's send is ok |
| Sdk.OnlyTroubleIsRetried | sdk/src/batcher.ts:92-121 | a POST is repeated only if it never reached a handler, a response got lost, or an XADD failed, and then up to the limit; the limiter's refusal ends the send and its wait is reported |
| Sdk.SentIsStoredOnce | sdk/src/batcher.ts:70-90 | for the bodies that a send puts on the wire: after one reported as successful, in every continuation each event of the batch is on the stream under its own idempotency key and has at most one row, which carries its name, user and properties, and exactly one as soon as a message of it is acked on the store path |
| Batcher.AutoBatcher.Add | sdk/src/batcher.ts:33-38 | the event joins the queue; if that fills it and no flush is in flight, the whole queue becomes the batch in flight |
| Batcher.AutoBatcher.StartFlush | sdk/src/batcher.ts:44-55 | the whole queue becomes the batch in flight, or callers share the one there is |
| Batcher.AutoBatcher.OnTimer | sdk/src/batcher.ts:28-30 | a tick flushes a nonempty queue if no flush is in flight and the timer has not been stopped |
| Batcher.AutoBatcher.Stop | sdk/src/batcher.ts:63-68 | later ticks do nothing; the queue stays as it is |
| Batcher.AutoBatcher.FinishFlush | sdk/src/batcher.ts:50-52 | the flush settles with its batch's result; every body it added to the wire carries that batch |
| Batcher.AutoBatcher.SendBatch | sdk/src/batcher.ts:58-61 | an empty batch sends nothing; another is sent past the queue |
| Batcher.AutoBatcher.Send | sdk/src/batcher.ts:70-90 | as many bodies as POSTs are added to the wire, each with the batch's events in order: event, user, properties and idempotency key |
| Batcher.AutoBatcher.WithRetry | sdk/src/retry.ts:29-46 | the number of POSTs, the final result and the total delay |
| Batcher.AutoBatcher.PostBatch | sdk/src/batcher.ts:92-121 | 2xx succeeds, 429 yields its positive Retry-After or 60, 5xx and network errors are retryable, the rest is fatal |

## Left out

- HTTP routing, authentication, health, configuration, telemetry, tracing, migrations runner, seeding: plumbing.
- AES-GCM, HMAC, URL and address checks, the HTTP client: decryption and delivery are opaque outcomes.
- The web interface, server-sent events and the broadcast after a publish.
- The schema cache and validation rules: a request's validity is an opaque predicate on its events.
- JSON encoding: a payload either is an event or bytes that do not decode. Malformed requests are rejected before the
  model starts.
- A 4xx that validation gives a batch is one refusal here, whatever its body.
- `PendingCount`, `pendingCount`, statistics endpoints and subscription listing: single reads.
- Idle times in the pipeline machine: any pending message may be claimed at any time, which includes every run the
  thirty-second idle limit allows. `Queue.StreamConsumer.Reclaim` and the rounds of `Rounds` have the limit.
- Cancelled contexts: `Read` turns an error into an empty result when the worker is shutting down; the worker does
  nothing with either.
- Handlers and SDK sends in `Sdk` run one after the other; the machine's own results hold for any interleaving.
- A row scan that fails half way through a claimed batch is treated as a lost reply of the claiming statement.
- Which due rows Postgres locks: any choice the statement allows. Which pending entries Redis hands over is any choice in
  `Worker`, and Redis's own in `Rounds`.
- `claimWindow` in the machine: a lease may be of any length. `Dispatcher.Loop` uses the source's.
- Integer widths: counters and attempts are unbounded. `weeks * 7` in `ParseFunnelWindow` can wrap; the window is a
  parameter here. The breaker's `Int32` counter cannot overflow while fewer than 2^31 goroutines run, by the bound above.
- A worker without a webhook enqueuer, which the source allows and cmd never builds, and the `last_error` text of a delivery
  row, which decides nothing.
- Floating point: rates are reals and Retry-After is an exact ceiling, which the source's division is for delays below
  2^53 milliseconds.
- A rate-limit window below one millisecond, which the source truncates to zero; a window of at least one is required.
- Redis key prefixes and the textual form of dates: keys are compared by what they are formatted from.
- Batcher.AutoBatcher: promises are split into their start and their end, and a send's POSTs happen at its end, so the
  order of POSTs relative to events queued meanwhile is not modelled.
