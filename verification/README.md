# A verified model of the notification service

The service accepts notifications over an API, stores each as a row in a table, publishes copies of them to topics by
channel and priority, and delivers them through workers that retry with exponential backoff and give up to a dead-letter
topic. A scheduler publishes rows whose time has come, a WebSocket hub broadcasts status changes, and a listing pages
through the table. This project models these parts in Dafny and proves what they promise, in every run and for every
interleaving of their steps.

`dafny verify dfyconfig.toml` checks everything.

## The parts

- `Domain` and `Backoff`: values, limits, topic names; retry delays in exact reals, rounded down to nanoseconds, and
  the retry-after header cut to whole seconds.
- `Template`, `TemplateOrder`, `Limits`: template substitution in a random map order; when the order cannot be seen, when
  a second substitution changes nothing, and when the substituted text still fits its channel.
- `Protocol`: the pipeline as a step machine. Its state is the row table, one append-only log per topic, one consumer per
  topic with a committed offset and a volatile position, the running API calls, the running scheduler passes and the clock.
  Every call of the repository, the queue, a limiter or the notifier is a step of its own that succeeds or fails; any two steps
  may be interleaved; consumers crash and start again at their committed offset; calls and passes die at any point.
- `Safety`, `Pipeline`, `Guarantees`: the invariant of the machine under crashes and redelivery, and what follows from it.
- `Ledger`, `RetryCounter`, `Admission`: counting Sends and limiter admissions.
- `Copies`, `Draining`, `Emptying`, `Losses`, `PublishOnce`, `Idempotency`, `Fate`: runs without redelivery, where every copy
  has one place, the work left decreases, and a row's status agrees with what became of its copy.
- `RowWrites`, `Overwriting`, `Scheduling`, `Republishing`: what calls and passes write to a row; when the status of batch and
  scheduled rows agrees with their fate; when a scheduled notification is published once, and when it cannot be published again.
- `QuietCancel`, `CancelHolds`: exactly when a cancelled notification stays cancelled.
- `Drive`, `Runtime`, `Service`: the worker, the consumer loop, the API calls and the scheduler pass as classes whose
  methods make their calls one after the other; the record at hand is passed along for the machine's history. Each is proved
  to do what its machine steps do (`Drive` composes them), and each composition is proved to be a run of the machine.
- `Outcomes`: what each of these operations comes to, said of rows, records and the environment's answers alone. The methods
  of `Runtime` and `Service` promise it beside the machine's steps.
- `Provenance`: every stored row carries the request that asked for it, so that what holds of keys holds of requests.
- `RetryTiming`: the clock of the retry consumer, which sleeps on the head of its queue.
- `Hub`: the WebSocket hub, whose broadcast uses an inner map that it looked up under an earlier lock.
- `Listing`, `Paging`: the query builder, and the pages of a listing taken together.
- `Exceptions`, `ScheduleExceptions`: concrete runs that show what is not promised.

"Without redelivery" means that no consumer crashed with a record fetched and not yet committed (`redelivered` is false).

## What the code promises less of than it may seem

- The repository's README (line 197) calls manual offset commits an at-least-once guarantee. The consumer also commits after a
  handler returned an error, so a failed limiter wait or a failed publish to the retry or dead-letter topic loses the copy.
  `LostExactlyOnHandlerError` proves that this is the only way, and `CopiesCanBeLost` gives a run.
- A notification whose copy is already published can be cancelled and is delivered all the same, because the write of
  `processing` is not guarded (`CancelledMayBeDelivered`). `CancelHoldsExactly` says exactly when cancelling does hold.
- Rows of a batch, and scheduled rows, are marked queued after they are published, so that write may come after `delivered`
  and stay (`DeliveredMayEndQueued`, `ScheduledMayEndQueued`). `FateUnlessOverwritten` proves for every row with one copy
  that this late write is the only way for status and fate to part; rows that `Create` made without a schedule never
  suffer it (`FateAgreement`). A row marked queued late can be cancelled again, so it may end cancelled.
- A scheduled row may be published twice. `SerialSchedulerPublishesOnce` gives conditions under which it is not, and
  `OverlapMayGoTwice`, `FailedMarkMayGoTwice`, `KilledMarkMayGoTwice` and `LateCheckMayGoTwice` show that each is needed.
  `PublishedForGood` says exactly in which states no further publication can come.
- Pages may repeat one row and miss another when a page ends between two rows of one creation time
  (`PagesCoverExactly`, `TiesMayRepeat`).
- `CreateBatch` ignores schedules and template variables; the model does the same.
- An offset of the listing is a 64-bit product and may wrap around (`PageIsExactUnlessWrapped`, `HugePageComesRoundAgain`).

## Model

| member | source | states |
|---|---|---|
| Guarantees.CommittedIsSettled | internal/adapters/kafka/consumer.go:39-121 | In every reachable state, with crashes, each record below a committed offset has an outcome, and a true one: a Send of it succeeded, a copy one attempt further is on the retry topic or on the dead-letter topic, its body did not parse, or its handler returned an error |
| Guarantees.NothingIsLost | internal/worker/worker.go:110-180 | Under any interleaving and any crashes, a published copy has an uncommitted record, or an accepted Send, or a dead letter, unless a handler returned an error for one of its committed records |
| Losses.LostExactlyOnHandlerError | internal/adapters/kafka/consumer.go:63-75 | Without redelivery, a copy is nowhere in the pipeline and was never accepted if and only if a handler returned an error for one of its records |
| Exceptions.CopiesCanBeLost | internal/adapters/kafka/consumer.go:63-70 | A concrete run after which a published copy is neither uncommitted, nor accepted, nor dead-lettered: commit follows a handler error |
| Safety.ConsumerStays | internal/adapters/kafka/consumer.go:39-121 | What a consumer relies on (its offsets, the outcomes below them, the times it waited for, its record) survives whatever other processes do to the stores |
| Pipeline.InvStep | internal/worker/worker.go:57-197 | Every step of every process keeps the global invariant, and no step removes a row, a record, an event or an outcome |
| Guarantees.RoutingAndCounters | internal/worker/worker.go:149-180 | Retry records carry a counter in 1 .. maxRetries - 1, dead letters one of at least maxRetries, and work records stand on the topic of their own channel and priority; each belongs to a stored row |
| Guarantees.NoNilLimiter | internal/worker/worker.go:182-197 | No retry ever looks up a limiter that is not in the table |
| Domain.TopicNamesDistinct | internal/adapters/kafka/producer.go:16-32 | The eleven topic names are distinct, so routing by name is routing by topic |
| Guarantees.OneRowPerKey | migrations/000001_create_notifications.up.sql:20-21 | A non-empty idempotency key names at most one row, whatever calls and failures |
| Guarantees.NotBeforeSchedule | internal/worker/scheduler.go:28-52 | No copy of a scheduled notification is appended to any topic, or sent, before its time, over creation, scheduler passes, retries and redelivery |
| Guarantees.RetryHonoursBackoff | internal/adapters/kafka/consumer.go:88-97 | A Send from the retry topic comes after the retry-after of every record up to its own, so less than one second short of the exponential delay after each was published |
| RetryCounter.RowCountsFailedSends | internal/adapters/postgres/repository.go:195-202 | The row's retry_count never exceeds the failed Sends of its notification, and equals them, crashes and redelivery included, when no write of the row failed, no handler crashed between a failed Send of it and the count, and none is there now |
| Admission.WorkSendsBounded | internal/worker/worker.go:62-84 | If a channel's shared limiter admits at most B callers in any window of a given width, the channel's three priority consumers make at most B + 3 Sends in any such window |
| Admission.RetrySendsBounded | internal/worker/worker.go:182-197 | The retry consumer waits twice for each record, so it makes at most B / 2 + 1 Sends for a channel in any such window |
| Copies.CopiesAreConserved | internal/worker/worker.go:110-180 | Without redelivery every published copy is in exactly one slot (a topic's unread record, a handler, or the dead-letter topic), or was accepted once and is in none, or was dropped and is in none; no slot holds a copy that was not published |
| Copies.AttemptsBeforeDeadLetter | internal/worker/worker.go:149-180 | A copy is dead-lettered after exactly max(1, maxRetries - counter) Sends, all failed; it is never sent more often, and accepted at most once |
| Draining.PipelineDrains | internal/worker/worker.go:110-180 | Without redelivery and new publishes, the handler calls that return number at most the sum of max(1, maxRetries - counter) over the copies in the pipeline, and after that many no copy is left in a topic or a handler |
| Draining.NeverStuck | internal/adapters/kafka/consumer.go:79-121 | While any such work is left, some consumer can fetch, or can go on after enough time |
| Emptying.PipelineCanEmpty | internal/adapters/kafka/consumer.go:39-121 | From every reachable state without redelivery there is a run by the consumers and the clock alone that leaves no copy on a topic or with a handler |
| PublishOnce.ReachablePublish | internal/core/service/notification.go:73-131 | In every reachable state, with crashes, a row without a schedule has at most one published copy, and none while the call that owns it has still to publish it |
| Idempotency.KeyDeliversOnce | internal/core/service/notification.go:38-140 | All calls that carry one non-empty key and no schedule make at most one row; without redelivery it has at most one live copy at any time, at most one accepted Send and at most max(1, maxRetries) Sends |
| Provenance.RequestsWithOneKey | internal/core/service/notification.go:38-140 | Of all requests that carry one non-empty key, taken in by any calls at any time, at most one has its row, and without a schedule and redelivery that one is accepted at most once and sent at most max(1, maxRetries) times |
| Provenance.RowsWereAskedFor | internal/core/service/notification.go:38-114 | In every run each row carries the request that asked for its id: recipient, key, schedule, channel and priority by their names, and its resolved content, or, in a batch, its content as it was and no schedule |
| Fate.FateAgreement | internal/worker/worker.go:118-168 | For a row made by Create without a schedule, with its writes succeeding: once its copy has left the pipeline without an error, the row says delivered exactly when a Send succeeded and failed exactly when the copy is dead-lettered |
| Fate.FateIsFinal | internal/worker/worker.go:118-168 | From then on no run without redelivery, with any Cancel calls, changes the status again |
| Overwriting.FateUnlessOverwritten | internal/core/service/notification.go:122-131 | For every row with one copy and no failed write, of a batch or scheduled or neither, once the copy has left the pipeline without an error: the row says what became of it if and only if queued or pending was never written over that; otherwise it is queued or has been cancelled since, or is pending after the rollback of a Create call that did not leave it to the scheduler |
| Overwriting.AgreementIsFinal | internal/worker/scheduler.go:41-50 | Once such a row agrees, and no call or pass has still a step to take for it, no run without redelivery changes its status |
| Fate.DeliveredMeansAccepted | internal/worker/worker.go:136-139 | A row never says delivered before a Send succeeded and its copy left the pipeline |
| Fate.CancelTooLate | internal/core/service/notification.go:150-161 | After the first write of processing, either half of Cancel answers "not cancellable" and changes nothing |
| Fate.NeverQueuedForNothing | internal/core/service/notification.go:73-86 | A failed publish takes the status back: a row that was not published and will not be is pending or cancelled |
| CancelHolds.CancelHoldsExactly | internal/adapters/postgres/repository.go:116-127 | A cancelled row stays cancelled in every continuation, crashes included, with nothing published, appended or sent for it, if and only if no record of it is uncommitted or unread, no scheduler pass has it still to publish or mark, and no Create or CreateBatch call has still a step to take for it |
| CancelHolds.RecordBreaks | internal/worker/worker.go:118-139 | From every reachable state with an uncommitted record of a notification, some continuation sends it |
| QuietCancel.QuietlyCancelledStaysCancelled | internal/adapters/postgres/repository.go:116-127 | The direction that guarantees: under those three conditions it stays cancelled in every run |
| Exceptions.CancelledMayBeDelivered | internal/worker/worker.go:118-139 | A concrete run in which Cancel has succeeded and the row ends up delivered |
| Exceptions.DeliveredMayEndQueued | internal/core/service/notification.go:123-132 | A concrete run in which a row of a batch is delivered, then marked queued, with nothing left to do |
| Scheduling.PublishedOnceInTurn | internal/worker/scheduler.go:28-52 | A notification that Create left to the scheduler has at most one copy after every run in which no pass fetches it while another still lists it, and the mark after its publication neither fails nor is cut off |
| Scheduling.SerialSchedulerPublishesOnce | internal/worker/scheduler.go:11-26 | So it is when passes run one after another and none is killed, if none of its writes failed |
| Scheduling.SerialSchedulerSendsOnce | internal/worker/scheduler.go:28-52 | And without redelivery it is then accepted at most once, and sent at most max(1, maxRetries) times |
| Republishing.PublishedForGood | internal/worker/scheduler.go:28-52 | A notification that Create left to the scheduler is published in no continuation, with any passes, failures and crashes, if and only if its row is not pending and no pass has it still to publish |
| ScheduleExceptions.OverlapMayGoTwice | internal/worker/scheduler.go:28-52 | A concrete run in which two passes at once publish one row |
| ScheduleExceptions.FailedMarkMayGoTwice | internal/worker/scheduler.go:47-50 | A concrete run with passes in series in which a mark fails and the next pass publishes the row again |
| ScheduleExceptions.KilledMarkMayGoTwice | internal/worker/scheduler.go:41-50 | A concrete run with one pass at a time in which the first is killed before its mark |
| ScheduleExceptions.LateCheckMayGoTwice | internal/core/service/notification.go:65-78 | A concrete run without failures in which Create finds the row due after a pass has fetched it, and both publish it |
| ScheduleExceptions.ScheduledMayEndQueued | internal/worker/scheduler.go:41-50 | A concrete run in which a scheduled row is delivered, then marked queued |
| Drive.TurnsAreRuns | internal/adapters/kafka/consumer.go:39-121 | Any number of turns of a consumer's loop (fetch, wait, handle, commit), with any answers of the environment, is a run of the machine |
| Drive.ServeIsRun | internal/core/service/notification.go:38-161 | An API call served to its end is a run of the machine |
| Drive.SweepIsRun | internal/worker/scheduler.go:28-52 | A scheduler pass is a run of the machine |
| Drive.LoopNeverPanics | internal/worker/worker.go:182-197 | From any reachable state, a consumer's loop never ends in a nil limiter's panic |
| Outcomes.HandlerOutcome | internal/worker/worker.go:110-180 | For every sequence of answers, what a handler's call writes to its row, appends to which topic with which counter and retry-after, and how many calls it makes; all other rows and topics stay |
| Runtime.Worker.ProcessNotification | internal/worker/worker.go:110-147 | Promises that outcome, leaves the history as the machine's handler does, and reports an error exactly when the record's outcome is one |
| Runtime.Worker.HandleFailure | internal/worker/worker.go:149-180 | The same from the failed Send on: count, then either failed and dead letter or a delayed retry |
| Runtime.Worker.ProcessRetry | internal/worker/worker.go:189-196 | The retry handler: limiter by channel, one wait more, then the handler's outcome, and a panic exactly for an unknown channel |
| Outcomes.TurnClock | internal/adapters/kafka/consumer.go:88-97 | A turn of the loop moves the clock to a retry record's time, if that is still to come, and otherwise by nothing |
| Outcomes.TurnOutcome | internal/adapters/kafka/consumer.go:39-121 | A turn takes its consumer one record further: an unreadable record is skipped, the retry topic waits on the limiter once more, then comes the handler's outcome, and the commit is the last call whatever that was; an unknown channel on the retry topic ends the loop |
| Runtime.TopicConsumer.Consume | internal/adapters/kafka/consumer.go:39-121 | The loop leaves stores, position and committed offset as that many turns of the machine's consumer do |
| Outcomes.BatchInsertableIsFree | migrations/000001_create_notifications.up.sql:20-21 | Rows can be inserted together exactly when their ids are new and different and no non-empty key is held by a row or by two of them; empty keys never stand in the way |
| Runtime.Backend.Insert | internal/adapters/postgres/repository.go:25-45 | With the store answering, succeeds exactly when the id is new and the key is empty or not in use, and adds that one pending row |
| Runtime.Backend.InsertAll | internal/adapters/postgres/repository.go:47-75 | With the store answering, succeeds exactly under the condition of BatchInsertableIsFree, and adds one pending row for each notice; otherwise nothing is stored |
| Runtime.Backend.CancelRow | internal/adapters/postgres/repository.go:116-127 | The guarded update: changes the row exactly when it is pending or queued, and says so |
| Outcomes.AcceptedExactly | internal/core/domain/notification.go:111-143 | A request is accepted exactly when channel and priority have one of their names, recipient and content are not empty, and the content has at most 160, 100000 or 4096 bytes by channel; otherwise the first problem is the error |
| Outcomes.CreateOutcome | internal/core/service/notification.go:59-95 | For every sequence of answers, the error, the stored row and its status, and the record of a Create call: scheduled rows wait, a failed publish is rolled back |
| Service.NotificationService.Create | internal/core/service/notification.go:38-95 | A success adds one row that carries the request with the resolved content, pending until its schedule, or else queued with exactly that notice on its work topic; a refused request changes nothing, and every other answer comes to CreateOutcome |
| Outcomes.BatchOutcome | internal/core/service/notification.go:116-131 | After a successful insert each row is tried in turn whatever happens to the others: one record on its work topic if and only if its own publish succeeds, queued if its mark does, pending otherwise |
| Service.NotificationService.CreateBatch | internal/core/service/notification.go:97-140 | Refuses an unacceptable batch with the first problem, in the order in which they are looked for, and nothing changed; otherwise the rows carry their requests, and it comes to BatchOutcome |
| Service.NotificationService.CancelById | internal/core/service/notification.go:150-161 | With both calls answering, succeeds exactly for a row that is pending or queued, which is then cancelled, and nothing else changed; not found exactly without a row, otherwise not cancellable, with everything unchanged |
| Runtime.Backend.GetDueScheduled | internal/adapters/postgres/repository.go:204-215 | Returns every pending row whose schedule has been reached, and no other, once and by schedule |
| Outcomes.SweepOutcome | internal/worker/scheduler.go:41-51 | A pass tries every message it fetched, whatever happens to the others: published or not by its own answer, and then marked or not |
| Service.Scheduler.ProcessDueNotifications | internal/worker/scheduler.go:28-52 | Fetches the due rows and comes to SweepOutcome for them, as the machine's scheduler pass does |
| Backoff.DelayInRange | internal/worker/worker.go:200-204 | For every jitter the delay of attempt a lies in [base * 2^(a-1), base * 2^(a-1) + base) |
| Backoff.JitterCounts | internal/worker/worker.go:200-204 | The delay exceeds the smallest one by at least k exactly when jitter times base does |
| Backoff.LaterAttemptWaitsLonger | internal/worker/worker.go:200-204 | A later attempt always waits strictly longer, whatever the jitters |
| Backoff.DelayFitsInt64 | internal/worker/worker.go:200-204 | When base * 2^(maxRetries-1) fits a signed 64-bit number, so does every delay asked for |
| Backoff.TotalDelayBounds | internal/worker/worker.go:158-179 | The n delays of a copy add up to at least base * (2^n - 1), and to less than that plus n * base |
| Backoff.HeaderKeepsBackoff | internal/adapters/kafka/producer.go:95-100 | The header cut to seconds is less than a second earlier than the minimal delay asks, and never later than the delay's upper end |
| RetryTiming.ConsumeWithDelay | internal/adapters/kafka/consumer.go:79-121 | Each record is handled no earlier than any arrival and any retry-after up to it, and the consumer never idles: some record up to it was ready so late that only busy time lies between |
| RetryTiming.HeadOfLineCostsNothing | internal/adapters/kafka/consumer.go:88-97 | With records in publication order and delays of at most D, each is handled by max(its arrival, its publication + D) plus the consumer's busy time, although the consumer sleeps on the head of the queue |
| RetryTiming.ConsumeInstantly | internal/adapters/kafka/consumer.go:88-97 | With exact timers and handling that takes no time, by max(its arrival, its publication + D) itself |
| RetryTiming.DelaysAreCapped | internal/worker/worker.go:170-179 | In every reachable state each retry record's retry-after is at most the greatest delay after its publication |
| RetryTiming.RetryTopicIsOrderly | internal/adapters/kafka/producer.go:89-114 | In every reachable state the retry topic is in publication order with capped delays, as the timing theorem asks |
| RetryTiming.RetriesComeInTime | internal/adapters/kafka/consumer.go:79-121 | So the consumer of the pipeline's own retry topic handles each record by max(its arrival, its publication + the greatest delay), plus its busy time |
| Template.ResolveTemplate | internal/core/domain/template.go:5-10 | The loop over the map computes one ReplaceAll for each variable in some order of the keys |
| Template.WellFormedTemplate | internal/core/domain/template.go:5-10 | On brace-free text and placeholders, with brace-free keys and values, every order gives the one simultaneous substitution that leaves unknown names alone |
| Template.WellFormedIdempotent | internal/core/domain/template.go:5-10 | There, resolving twice is resolving once |
| TemplateOrder.OrderNeverShows | internal/core/domain/template.go:5-10 | With brace-free keys and values, no content whatever shows the order if and only if no value occurs inside another variable's name |
| TemplateOrder.ResolvingTwice | internal/core/domain/template.go:5-10 | With brace-free keys and values, resolving twice is resolving once on every content if and only if no value occurs inside any name |
| TemplateOrder.NestedTextShowsOrder | internal/core/domain/template.go:5-10 | The nested text `{{{{a}}}}` with a = b and b = c has two results |
| Template.ResolvedFits | internal/core/domain/template.go:5-10 | If no value is longer than its placeholder, no order of substitutions lengthens any content |
| Limits.LimitSurvives | internal/core/domain/notification.go:111-143 | With brace-free keys and values, every content within a limit resolves to one within it if and only if no value is longer than its placeholder, except where the placeholder is itself over the limit |
| Limits.StoredContentFits | internal/core/service/notification.go:39-57 | Under that condition the content that Create stores meets the limit of its channel, although the limit is checked before the substitution |
| Hub.WSHub.Subscribe | internal/adapters/rest/websocket.go:39-46 | Adds one connection to the inner map of its id, makes that map if need be, and touches no other inner map, in the table or out of it |
| Hub.WSHub.Unsubscribe | internal/adapters/rest/websocket.go:48-57 | Removes one connection, and the id's key if its inner map is then empty |
| Hub.WSHub.Broadcast | internal/adapters/rest/websocket.go:59-79 | With any operations in the lock gap: writes once to each connection in the inner map that it holds, or to none when that map was dropped meanwhile; drops exactly those whose write failed |
| Hub.ReachedExactly | internal/adapters/rest/websocket.go:59-79 | Nobody is written to that does not hold the id at the second lock, by its last operation on it; given one that holds it throughout, all who hold it then are, those that came in the gap too |
| Hub.WSHub.ListenPostgres | internal/adapters/rest/websocket.go:110-144 | The event loop over any events and any operations between and during broadcasts writes once to each connection that an update's broadcast reaches, to none for a payload that does not parse, and goes on |
| Hub.HearingIsRelational | internal/adapters/rest/websocket.go:126-143 | What is heard leaves the pairs of its operations, without those that an update was written to in vain |
| Hub.OperationsAreRelational | internal/adapters/rest/websocket.go:39-57 | The nested maps refine a relation of ids and connections: each operation adds or removes one pair |
| Hub.BroadcastIsRelational | internal/adapters/rest/websocket.go:72-78 | A broadcast removes from that relation exactly the pairs it wrote to in vain |
| Hub.HeldThroughoutIsReached | internal/adapters/rest/websocket.go:59-79 | A connection held for the id from before the first lock to the end is written to, whatever the gap brings |
| Hub.OthersAreNotReached | internal/adapters/rest/websocket.go:59-79 | A connection that never was registered for the id is not written to |
| Hub.LateJoinerIsMissed | internal/adapters/rest/websocket.go:59-72 | A connection that joins after the inner map was dropped in the gap is registered and misses the update |
| Hub.HubLeaksNothing | internal/adapters/rest/websocket.go:97-107 | In every interleaving an id's key is present only while some subscription to it has not been undone, and the inner maps hold such subscriptions only |
| Hub.EmptyAfterAllLeave | internal/adapters/rest/websocket.go:97-107 | After all readers have exited the hub is empty, without even an empty inner map |
| Listing.BuildQueries | internal/adapters/postgres/repository.go:129-182 | For every combination of filters the numbered placeholders line up with the arguments, and both queries select exactly the rows that meet all given filters |
| Listing.List | internal/adapters/postgres/repository.go:129-193 | Returns the slice of the filtered rows for the page as the second query finds them, and their number as the first does; refused for a negative offset |
| Paging.PagesCoverExactly | internal/adapters/postgres/repository.go:172-182 | On a fixed snapshot, with any order among rows of one time at each call, the pages 1 .. ceil(total / size) add up to the filtered rows newest first, none missed and none repeated, if and only if no page ends between two filtered rows of the same creation time |
| Paging.PagesCoverTheListing | internal/adapters/postgres/repository.go:172-182 | So they always do when the filtered rows have distinct creation times |
| Listing.PageIsExactUnlessWrapped | internal/adapters/postgres/repository.go:172-180 | A page is its exact slice if and only if the 64-bit offset does not wrap around, or wraps to beyond the last row |
| Listing.HugePageComesRoundAgain | internal/adapters/postgres/repository.go:172-180 | A concrete page number whose offset wraps around to the first page |
| Paging.TiesMayRepeat | internal/adapters/postgres/repository.go:180-182 | Two rows of one creation time, one a page: the pages need not add up to the listing |

## Assumptions

- A publish that returns an error enqueued nothing, and encoding keeps id, channel, priority, content and retry counter.
- There is one monotone clock. A topic is one first-in-first-out partition with one consumer; nothing is rebalanced.
- The batch insert is all or nothing, and single-row updates are atomic.
- A limiter's contract (a bound on admissions in any window) is a hypothesis of the admission theorems.
- What a failed call, a jitter, the order of a map, the order of equal rows or the next interleaved step may be is chosen
  freely, and every theorem holds for all choices.
- Subscribe and Unsubscribe need the hub's write lock, so they can only come between the two read locks of a broadcast; there is
  one broadcaster.
- Fresh identifiers are never reused. Strings are sequences of bytes, as in Go.

## Left out

- HTTP handlers beyond parsing a request's channel and priority, JSON, middleware, webhook transport, tracing, metrics and logging: input and output.
- The internals of Kafka, Postgres and the rate limiter: their contracts stand for them.
- The randomness of identifiers, and `updated_at` and `max_retries`, which no decision reads.
- Rounding of the floating-point delay: delays are exact reals, rounded down.
- Several worker processes: `Admission` is about one, and each topic has one consumer.
- Runtime.Worker.ProcessNotification: runs one call alone; interleavings with other processes are in `Protocol`, and `Drive` shows that each such call is one of its runs.
- Runtime.TopicConsumer.Consume: stops after a given number of turns or when there is nothing to fetch, where the source blocks until its context ends.
- Service.Scheduler.ProcessDueNotifications: the ticker around the pass is not modelled.
- Fate.FateAgreement: is about rows that Create made without a schedule, since for batch and scheduled rows the code keeps it only as `Overwriting` says.
- RetryTiming.ConsumeWithDelay: follows the clock of the loop only; what the loop does to stores and offsets is in `Runtime`.
- Hub.WSHub.Broadcast: the operations in the lock gap and the failing writes are parameters; locks themselves and the closing of connections are not modelled.
- Listing.BuildQueries: the query text is a list of clauses with numbered placeholders, not a string of SQL.
- `GetByID` and `GetByBatchID` as API calls, priority weights, response mapping: one-branch facts.
