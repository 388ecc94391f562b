# Order pipeline: a verified model

A Dafny model of the order pipeline: the checkout transaction, the outbox relay, the message broker and its
consumers, the job workers, the numbered status log with its event stream, the two idempotency layers, the retry loop
and the cursor pages. Each component is modelled as the program runs it - classes and loops where the code updates
things in place, functions where it computes - and the components that run concurrently are also modelled as machines
whose every interleaving, crash and restart is a run.

`dafny verify dfyconfig.toml` checks everything.

| files | what they hold |
|---|---|
| Prelude, Numbers, Json, Tables | options and sums; doubles and int4; JSON values and the reordering a jsonb column does; the database tables |
| Contract | the `order.placed` message: printing, parsing, round trips |
| Checkout, CheckoutLaws, Orders | one checkout, statement by statement, what it means, and the service call around it |
| Interleaving, InterleavingLaws, InterleavingRuns, Deadlock | many checkouts under row locks: serializability, the books, every request accounted for, and exactly which requests can deadlock |
| Outbox, Inbox | the relay's claim-publish-mark loop and the consumer's transaction |
| Delivery, DeliveryLaws, DeliveryEvents, DeliveryRelay, DeliveryCopies, DeliveryRecovery | the whole pipeline with crashes between any two steps: exactly-once result, events that tell of their orders, relay accounting, conservation of messages, no order stuck |
| DeliveryRuns, ConsumerRuns | the relay program and the attached consumer refine the pipeline: each of their runs is a run of it |
| Consumer, ConsumerLaws, Reopen | the handler chain of one attached consumer, and the loop that reopens it |
| JobWorker, JobWorkerLaws, JobQueue | workers sharing a queue with SKIP LOCKED, and one worker's loop |
| StatusLog, Sse | the bounded status log and its replay over server-sent events (section 9.2 of the WHATWG HTML Standard) |
| Interceptor, InterceptorLaws, TwoLayers | the in-memory idempotency layer, alone and over the database layer |
| Retry, Snapshot, DemoRetry | the retry loop, and read-modify-write callers under snapshot isolation |
| Base64Url, Pagination | base64url (section 5 of RFC 4648) and cursor pages |

Results that go against the obvious reading of the code, each with the exact condition or a run that shows it:

- A job's attempts are not bounded by `JOB_MAX_ATTEMPTS` but by `JOB_MAX_ATTEMPTS - 1` plus the number of workers,
  and that is reached (`JobWorkerLaws.BoundIsTight`).
- The comment over `sweep` says insertion order is expiry order. It is, unless a handler outlives its record
  (`InterceptorLaws.FinishKeepsOrderIff`, `InterceptorLaws.LateFinishIsReplayed`).
- The event stream can drop entries the replay query found (`Sse.GapFreeIff`, `Sse.EarlyLiveEventHidesReplay`).
- A key that is blank after trimming is remembered by the in-memory layer only (`TwoLayers.BlankKeyNamesTwoOrders`).
- Lines are locked in request order, so two requests can deadlock: exactly when their lines cross
  (`Deadlock.CanDeadlockIff`). Being unsorted is not enough, and sorted requests never do.
- With more callers than attempts the retry loop may give up, and only then (`Snapshot.EnoughAttemptsIff`).
- Event ids are distinct only for order ids up to 2^53 (`DeliveryRelay.EventIdsDistinctIff`).
- `deleteDemoRows` breaks "marked if and only if applied" (`Inbox.DeleteDemoRowsBreaksIff`).

## Model

| member | source | states |
|---|---|---|
| Checkout.Store.Checkout | src/checkout.ts:41-153 | The program, changing the tables statement by statement and putting them back on a throw, gives the answer and leaves the tables of the serial specification; ids drawn are never drawn again |
| Checkout.Store.Transaction | src/checkout.ts:55-152 | The statements inside the transaction, composed, are the serial run; only a created order leaves its writes |
| Checkout.Store.Claim | src/checkout.ts:58-79 | Claiming the key: inserts it, or answers reuse, in flight or the stored order, as the statement specification says |
| Checkout.Store.Take | src/checkout.ts:85-95 | One line: takes the stock and returns the price, or answers unknown product or out of stock, also for a product already taken by an earlier line |
| Checkout.Store.TakeAll | src/checkout.ts:81-98 | The line loop leaves exactly the writes of running every line's statement, or stops with the first failing line's answer |
| Checkout.Store.Pay | src/checkout.ts:100-108 | Debits the buyer by the total or refuses, changing nothing |
| Checkout.Store.WriteRows | src/checkout.ts:110-151 | Order, items, job, outbox row, key binding and crash switch: all of them or the failure, with ids drawn in order |
| Checkout.AbortedLeavesNoTrace | src/checkout.ts:55-152 | From any point of the program, a checkout that does not end in a new order leaves every table as it was |
| CheckoutLaws.RunMeansVerdict | src/checkout.ts:51-152 | The answer of every checkout on every state of the tables, and the exact tables it leaves: which line fails and how, with repeated products counted together, the exact total, the balance test, duplicate lines, the crash switch |
| CheckoutLaws.SellsOrNothing | src/checkout.ts:84-151 | A checkout either sells every line at its price, stock and balance sufficing, or changes nothing |
| CheckoutLaws.CheckoutConserves | src/checkout.ts:84-122 | Stock plus units ordered and balance plus order totals are conserved per product and per buyer; stock and balance stay within their columns; totals are exact |
| CheckoutLaws.RunningTotalStep | src/checkout.ts:82-97 | The running total kept in doubles is exact up to 2^53 and beyond that can no longer pass the integer column, at every addition |
| CheckoutLaws.CostIsTotal | src/checkout.ts:95-98 | The total charged is the sum of unit price times quantity over the items recorded |
| CheckoutLaws.SaleStores | src/checkout.ts:110-145 | A checkout that answers with a new order has stored the request's buyer and lines at the prices charged, one receipt job for that order, and one outbox row whose event carries the order's id, buyer, exact total, status "paid" and time |
| Orders.Service.Create | src/orders/orders.service.ts:52-104 | An unknown buyer is refused before anything; otherwise the trimmed key and, with a key, the fingerprint go to checkout, and each outcome becomes its answer; the tables are those checkout leaves |
| Orders.ServerErrorIff | src/orders/orders.service.ts:76-103 | With every key row bound, a known buyer gets a server error in exactly these cases: a request validation would have stopped, a quantity or a total too large for its column, or a product named twice in an order that could be paid |
| Orders.UnknownBuyerIff | src/orders/orders.service.ts:53-61 | The answer is unknown-buyer if and only if the buyer is not in the table |
| Orders.KeyReuseIff | src/orders/orders.service.ts:78-83 | It is idempotency-key-reuse if and only if the trimmed header names a key remembered with another fingerprint, from a known buyer's valid request |
| Orders.UnknownProductIff | src/orders/orders.service.ts:84-90 | It is unknown-product if and only if, of a request not settled by buyer, shape or key, the first line that fails names no product |
| Orders.InsufficientStockIff | src/orders/orders.service.ts:91-96 | It is insufficient-stock if and only if that line names a product, its stock short by what earlier lines took |
| Orders.InsufficientFundsIff | src/orders/orders.service.ts:97-100 | It is insufficient-funds if and only if every line can be served and the buyer's balance is less than their price |
| Orders.PlacedIff | src/orders/orders.service.ts:63-76 | It is a 201 for order o if and only if the trimmed key is remembered for o with this fingerprint, or o is the new order and every line is served, paid for and named once |
| Orders.PlacedMeansStored | src/orders/orders.service.ts:63-76 | A 201 that is not a replay has stored the buyer's order with the request's lines and bound the trimmed key to it with the fingerprint; any other answer leaves every table as it was |
| Orders.RepeatIsReplay | src/orders/orders.service.ts:63-75 | The same keyed request again gets the same order and changes nothing |
| Tables.TrimIdempotent | src/orders/orders.service.ts:64-71 | Trimming in the service and again in checkout is trimming once |
| Tables.TrimMeans | src/orders/orders.service.ts:64 | Trimming takes off exactly the white space at both ends |
| Interleaving.Serializable | src/checkout.ts:55-152 | After any statement-level interleaving under row locks, with deadlock victims and lost connections, the committed tables are those of a serial run of the finished checkouts in finishing order, and each got the answer that serial run gives it |
| InterleavingRuns.EveryRequestAccounted | src/checkout.ts:55-152 | In every run and for every request: the times it began are the times it is running, was aborted, or has an entry in the log, one each |
| InterleavingRuns.CommitCreatesOrder | src/checkout.ts:110-151 | In every run a checkout that commits, with a key or without, is answered with a new order of its buyer, lines and exact total, stored and staying so in every continuation |
| InterleavingRuns.OrdersAreCommits | src/checkout.ts:151 | As many checkouts are answered with a new order as commit |
| InterleavingRuns.RefusalIsAnswered | src/checkout.ts:58-108 | A statement that refuses ends its checkout with exactly that answer in the log and no change to the tables |
| InterleavingRuns.RunsUnlessBlocked | src/checkout.ts:84-105 | In every reachable state a transaction can take its next step if and only if nobody holds what the statement wants, or it fails without; it can commit exactly after its last statement |
| InterleavingRuns.EveryRequestCanFinish | src/checkout.ts:55-152 | On an idle database every request has a run that ends with the answer and the tables of the serial checkout |
| InterleavingLaws.BooksBalance | src/checkout.ts:58-149 | In every reachable state: conservation, exact totals, fresh order ids, every key row bound to an existing order, a 201 for a key names that key's order, one creator per key, and the in-flight answer never given |
| Deadlock.CanDeadlockIff | src/checkout.ts:84-105 | Two requests with known products and stock enough for either can end up stuck on each other, whatever else runs, if and only if they share no key and some line of each wants a product the other has taken by then while neither has taken one of the other's |
| Deadlock.CircleMeansCrossed | src/checkout.ts:58-105 | However two transactions come to block each other, they wait for rows, their requests cross at the lines they stand at, and they share no key |
| Deadlock.SortedNeverDeadlocks | src/checkout.ts:84-90 | In every run, in every group of transactions whose requests list products in ascending order, one wants nothing another of the group holds |
| Deadlock.NotCrossed | src/checkout.ts:84-90 | Sorted requests do not cross, and neither do requests that begin with the same product, sorted or not |
| Deadlock.UnsortedCanDeadlock | src/checkout.ts:84-90 | Two requests naming two products in opposite order reach a state in which nobody can execute or commit |
| Contract.EventIdInjective | src/broker/order-placed.ts:28 | Event ids are equal exactly when the order ids they spell are |
| Contract.RoundTrip | src/broker/order-placed.ts:20-77 | Every valid event, printed, reordered in any way a jsonb column may and parsed, is that event |
| Contract.ParsePrintParse | src/broker/order-placed.ts:41-77 | Whatever body was accepted, with coerced numbers and the defaulted status, parsing what is printed from it gives the same event |
| Contract.AcceptedIffValid | src/broker/order-placed.ts:48-76 | The events parsing can return are exactly the valid ones |
| Contract.ParsesIffSays | src/broker/order-placed.ts:41-77 | For every body: parsing yields e if and only if the body is an object of type order.placed whose fields say e, numbers as Number() reads them and a missing status read as paid, and e has a non-empty id and time, positive ids and a total of at least 0; every other body is refused |
| Outbox.BatchIsOldest | src/outbox/relay.ts:40-46 | The claimed batch is as long as the limit and the table allow, in (created_at, id) order, and every claimable row left out is younger than every row taken |
| Outbox.BatchInOrder | src/outbox/relay.ts:44 | In plain terms: a claimed row has a smaller (created_at, id) than every row claimed after it and every claimable row left behind |
| Outbox.ClaimTakes | src/outbox/relay.ts:37-46 | Row by row: a claim takes only unpublished rows of the aggregate asked for that nobody else has locked, and leaves such a row behind only when it has taken as many older ones as the limit |
| Outbox.Relay.Claim | src/outbox/relay.ts:37-54 | The claim returns that batch and adds one attempt to each of its rows and nothing else |
| Outbox.Relay.PublishAll | src/outbox/relay.ts:56-65 | The publish loop, row by row, for every mixture of unparseable payloads, lost and unconfirmed publishes and the crash switch |
| Outbox.Relay.RelayOutbox | src/outbox/relay.ts:31-66 | One run: rows handed over before the first failure are marked and their messages sent, at most one more message went out, and the count or the failure is returned |
| Outbox.PublishWhole | src/outbox/relay.ts:56-65 | The loop equals that one-line summary |
| Outbox.Relay.Purge | src/outbox/relay.ts:69-71 | Exactly the rows published more than seven days ago go; no unpublished row does |
| Outbox.ConfirmedRunIsTick | src/outbox/relay.ts:20-66 | Over rows a checkout wrote, with every publish confirmed, a run parses every payload, sends every event and returns the batch size |
| Outbox.TickMovesOldest | src/outbox/relay.ts:36-65 | Such a run moves exactly the oldest unpublished rows to published with one more attempt and leaves the rest alone |
| Outbox.TicksDrain | src/outbox/relay.ts:36-65 | n runs leave exactly the backlog less n times the limit |
| Outbox.DrainedInTime | src/outbox/relay.ts:36-65 | Repeated runs reach zero unpublished rows |
| Inbox.Store.ApplyOrderPlaced | src/broker/effects.ts:66-87 | The transaction counts the delivery, marks and inserts the effect once, answers applied or skipped, and on a database error changes nothing |
| Inbox.ApplyKeepsMarkIffEffect | src/broker/effects.ts:68-85 | An event has a mark if and only if it has its effect, once; a redelivery adds no effect, a first delivery exactly one |
| Inbox.ExactlyOnceResult | src/broker/effects.ts:61-87 | For every sequence of deliveries the effects are those of the first delivery of each event, in order |
| Inbox.DeleteDemoRowsBreaksIff | src/broker/effects.ts:49-52 | Deleting demo rows keeps mark-iff-effect if and only if no demo event had been applied |
| Inbox.DeletesOnlyDemoRows | src/broker/effects.ts:49-52 | Deleting takes every demo delivery and effect, no other, and no mark |
| DeliveryLaws.ExactlyOnce | src/outbox/relay.ts:37-64 | In every run of checkouts, committing in any order of their ids, of relays, broker and consumers, with a crash between any two steps: each order's event is an unpublished row, in the broker, or has its effect; no order has two effects and none lacks an order; with nothing unpublished or in the broker, effects equal orders |
| DeliveryLaws.StepKeeps | src/broker/consume-order-placed.ts:38-55 | Every single step - checkout, claim, publish, confirm, mark, crash, purge, delivery, apply, also after the channel closed, ack, reject, nack, channel close, dead-lettering - keeps the invariant behind that |
| DeliveryEvents.EventTellsOrder | src/checkout.ts:124-145 | In every run the event of every order, which is what its outbox row holds, carries the order's id, buyer, exact total and time, and status "paid" |
| DeliveryEvents.OrdersAreSales | src/checkout.ts:110-151 | In every run there are exactly as many orders as purchases a serial checkout would grant, and each has its event |
| DeliveryEvents.BuyIsCheckout | src/checkout.ts:55-152 | A purchase leaves the tables of the checkout and touches nothing else of the pipeline |
| DeliveryEvents.DeliveriesCounted | src/broker/effects.ts:66-72 | In every run every consumer transaction, redelivered or late, leaves one delivery row, and nothing else does |
| DeliveryEvents.PurgeRemovesOld | src/outbox/relay.ts:69-71 | Maintenance removes exactly the rows published more than seven days before |
| DeliveryRuns.RelayRunIsMachineRun | src/outbox/relay.ts:31-66 | From every state, whatever the rows hold, the broker answers and the crash switch says: what one call of relayOutbox does to the table and hands to the broker is what some run of the machine's relay steps does, nothing else moving |
| ConsumerRuns.AttachmentRunIsMachineRun | src/broker/consume-order-placed.ts:13-71 | Every run of an attachment by itself - bad bodies, database errors, crashBeforeAck, the channel closing at any point, also inside a transaction - is a run of the machine, ending with its inbox, with the rejected bodies dead-lettered, the unanswered ones held, and after a close everything neither acked nor rejected queued again |
| DeliveryCopies.MessagesConserved | src/broker/consume-order-placed.ts:44-57 | In every run and for every body: copies that entered the broker are copies acked plus copies queued, unacked or dead-lettered; closing channels, nacks and redelivery lose and add none |
| DeliveryCopies.DeadAreRejected | src/broker/consume-order-placed.ts:50-57 | In every run and for every body: dead letters are exactly the copies rejected or given up by the broker, and the queue is what entered plus what nacks and closing channels returned less what was taken |
| DeliveryCopies.RejectedAtMostOnce | src/broker/consume-order-placed.ts:50-53 | Rejections and acks of a body together never exceed the copies that entered: a rejected copy never comes round again |
| DeliveryCopies.LateApplyIsAStep | src/broker/consume-order-placed.ts:44-49 | In every run, a message once in the queue can be committed by a handler at any later time, its channel closed and the message redelivered or not: the machine has that step in every later state |
| DeliveryCopies.PrefetchHolds | src/broker/consume-order-placed.ts:76 | In every run no consumer holds more than 50 messages it has not answered |
| DeliveryCopies.AckedIsApplied | src/broker/consume-order-placed.ts:44-49 | In every reachable state an ack goes out only for a message whose event has been applied |
| DeliveryCopies.OrdersAreNotDeadLettered | src/broker/consume-order-placed.ts:50-57 | In every run in which the broker's delivery limit is not reached, no order's event is dead-lettered: failing databases and dying consumers only send it back to the queue |
| DeliveryRecovery.NoOrderIsStuck | src/outbox/relay.ts:25-30 | In every reachable state, whatever has crashed, an order whose event is not dead-lettered is at most four steps from its effect |
| DeliveryRecovery.ApplyTakesEffect | src/broker/consume-order-placed.ts:44-49 | In every reachable state, applying a message that carries an order's event gives the order its effect and lets that message be acked |
| DeliveryRelay.RelayAccounts | src/outbox/relay.ts:50-63 | For any number of relays and crashes: a surviving row was published at most as often as its attempts say, and published_at is set only after a confirmed publish of that row |
| DeliveryRelay.PublishedOnce | src/outbox/relay.ts:61-71 | From any reachable state on: published_at once set never changes, and a row unpublished now is removed only after its publish was confirmed |
| DeliveryRelay.MarkedIffConfirmed | src/outbox/relay.ts:57-64 | In every run in which no relay dies between a confirmation and its mark - anywhere else it may die, and publishes may fail - once no relay is at work a row has published_at if and only if its publish was confirmed |
| DeliveryRelay.CheckoutRowsParse | src/outbox/relay.ts:20-23 | In every reachable state, every row a relay holds parses back to the event it was written with, so no checkout-written row makes it throw |
| DeliveryRelay.RealCodecFaithful | src/broker/order-placed.ts:20-77 | The printing and parsing the machine assumes are those of the contract |
| DeliveryRelay.EventIdsDistinctIff | src/checkout.ts:135 | Order ids 1..n give distinct event ids if and only if n is at most 2^53 |
| DeliveryRelay.BeyondSafeIdsAnEffectIsLost | src/checkout.ts:135 | The order after 2^53 is taken for a redelivery of the one before and has no effect |
| Numbers.NumberInjectiveIff | src/checkout.ts:135-136 | Number(id) keeps 1..n apart if and only if n is at most 2^53 |
| Consumer.Attachment.OnMessage | src/broker/consume-order-placed.ts:36-39 | A delivered message goes to the end of the chain |
| Consumer.Attachment.BeginHandler | src/broker/consume-order-placed.ts:39-52 | The next handler: skipped after settling, replaced by fail after a throw, otherwise counted and rejected if unparseable |
| Consumer.Attachment.ApplyEnds | src/broker/consume-order-placed.ts:44-57 | The transaction commits, or the message is nacked and the attachment fails with the inbox unchanged |
| Consumer.Attachment.ResumeHandler | src/broker/consume-order-placed.ts:45-63 | Hangs under crashBeforeAck, otherwise acks, counts and settles when enough |
| Consumer.Attachment.OnClose | src/broker/consume-order-placed.ts:22-33 | A closed channel fails the attachment unless it has settled |
| ConsumerLaws.ConsumerAccounts | src/broker/consume-order-placed.ts:19-66 | Over every run: acked + rejected and delivered agree to within one; the i-th answer is for the i-th delivery; an ack only after mark and effect are committed; reject only for unparseable bodies; with stopAfter >= 1 never more settled than that |
| ConsumerLaws.OpenChannelAnswersAll | src/broker/consume-order-placed.ts:42-63 | On an open channel every message whose handler has run was answered exactly once, the counters count the answers, and the attachment failed if and only if a message was nacked |
| ConsumerLaws.NothingAfterSettling | src/broker/consume-order-placed.ts:21-40 | In every run, after settling no handler begins and nothing more is answered or counted |
| ConsumerLaws.CrashNeverAcks | src/broker/consume-order-placed.ts:46-48 | Under crashBeforeAck nothing is ever acked and a hung handler stays |
| ConsumerLaws.VerdictIff | src/broker/consume-order-placed.ts:20-66 | In every run attach has resolved if and only if enough messages are settled, and has rejected if and only if before that the channel closed, a message was nacked, or a handler came up behind one that could not answer |
| ConsumerLaws.BadBodyIsRejected | src/broker/consume-order-placed.ts:50-53 | From every reachable state whose next handler can run: a refused body is rejected and counted, nothing applied |
| ConsumerLaws.GoodBodyIsApplied | src/broker/consume-order-placed.ts:43-49 | And any other body is applied, then acked and counted; under crashBeforeAck applied and left unanswered |
| ConsumerLaws.DatabaseErrorRequeues | src/broker/consume-order-placed.ts:54-57 | When the database fails the message is nacked back to the queue, nothing is applied and the attachment has failed |
| ConsumerLaws.LateApplyIsNotAnswered | src/broker/consume-order-placed.ts:32-57 | A message whose channel closes while it is being applied is applied all the same and never answered |
| ConsumerLaws.ClosedChannelIsSilent | src/broker/consume-order-placed.ts:32-57 | After the channel has closed nothing is delivered, answered or counted as settled, in any run |
| ConsumerLaws.DeliveriesWait | src/broker/consume-order-placed.ts:36-39 | The chain is exactly the bodies delivered, in order of delivery |
| ConsumerLaws.RowPerApplication | src/broker/effects.ts:66-68 | In every run of an attachment every transaction, its own or another consumer's, leaves one delivery row, and nothing else does |
| Reopen.Background.BeginRound | src/broker/consume-order-placed.ts:151-156 | The head of the loop: done once stopped, otherwise attach to the connection there is or open one |
| Reopen.Background.OpenEnds | src/broker/consume-order-placed.ts:153-163 | An opened connection is attached to, or taken down if the consumer was stopped meanwhile; a failed one leads to another round |
| Reopen.Background.Close | src/broker/consume-order-placed.ts:177-181 | Stops the loop and takes over the current connection for closing |
| Reopen.OneConnection | src/broker/consume-order-placed.ts:136-186 | In every run of the reopen loop at most one connection is open; it ends only when stopped, never attaches after that, and leaves nothing open |
| Reopen.ComesBack | src/broker/consume-order-placed.ts:151-176 | From every reachable state that is not stopped, at most five steps with an open that succeeds lead to a new attachment |
| Reopen.FailedOpenIsRepeated | src/broker/consume-order-placed.ts:151-176 | After a failed open the loop waits and opens again |
| Reopen.GoesDown | src/broker/consume-order-placed.ts:177-184 | From every reachable state close() ends the loop with nothing left open in at most four steps |
| JobWorker.StepKeeps | src/job-worker.ts:25-64 | Every step of every worker keeps the locks, the open claims and the per-job accounts |
| JobWorkerLaws.AttemptBound | src/job-worker.ts:44-53 | With at most W workers at a time, attempts plus claims not settled never exceed 4 + W; processed is 0 or 1; claims never exceed 4 + W plus deaths |
| JobWorkerLaws.BoundIsTight | src/job-worker.ts:44-53 | For every W >= 1 some run brings a job to exactly 4 + W attempts |
| JobWorkerLaws.ProcessedIsFinal | src/job-worker.ts:37-51 | From any reachable state on, a processed job never changes again |
| JobWorkerLaws.ReturnMeansCleared | src/job-worker.ts:57-62 | A worker that looks returns if and only if no job of its kind is pending, and then none is held by anyone and each is processed or out of attempts; otherwise it goes on |
| JobWorkerLaws.ClearedForGood | src/job-worker.ts:57-62 | That stays so in every run in which no job of the kind is enqueued |
| JobWorkerLaws.NobodyIsStuck | src/job-worker.ts:25-64 | In every reachable state every worker can take its next step, but for one whose failed attempt waits for the worker that holds the row, and that one can |
| JobWorkerLaws.ClaimsInOrder | src/job-worker.ts:6-17 | Jobs are claimed in order of id: a pending one that is passed over is held by another worker |
| JobWorkerLaws.FreeJobCanBeProcessed | src/job-worker.ts:26-43 | The first free job, claimed by an idle worker and not failing, is processed and counted as that worker's, and nothing else changes |
| JobWorkerLaws.IdleWorkerReturns | src/job-worker.ts:57-62 | A worker that finds nothing left returns with what it has done |
| JobWorkerLaws.DeathFreesJob | src/job-worker.ts:26-43 | In every reachable state a worker that dies before its commit leaves its job free for the others, no attempt counted |
| JobWorkerLaws.DoneIsProcessed | src/job-worker.ts:41-62 | When all workers have returned, the sum of their results is the number of processed jobs, less the work of dead workers and commits nobody heard of |
| JobWorkerLaws.ClaimsRunOut | src/job-worker.ts:26-56 | Every run makes at most 4 + W claims per job plus one per death |
| JobQueue.Queue.ClaimJob | src/job-worker.ts:6-17 | Claims the pending job with the smallest id, or nothing if none is pending |
| JobQueue.Queue.RunWorker | src/job-worker.ts:19-65 | A worker alone terminates, leaves every job of its kind as its outcome says and the others alone, and returns how many it processed |
| JobQueue.OutcomeMeans | src/job-worker.ts:37-53 | A job ends processed if and only if some attempt it has left does not throw; its attempts are the failures before that, or all of them |
| StatusLog.OrderEvents.Insert | src/orders/order-events.service.ts:39-71 | The transaction inserts under the next number of the order and trims its window |
| StatusLog.OrderEvents.Publish | src/orders/order-events.service.ts:38-72 | Stores, then emits exactly the stored event |
| StatusLog.PublishKeepsWindow | src/orders/order-events.service.ts:43-66 | One publish takes the number after all ever used, moves the window by one and leaves other orders' rows |
| StatusLog.StoredIsWindow | src/orders/order-events.service.ts:38-66 | For every sequence of publishes the stored entries of every order are exactly the last min(n, 100) of 1..n with their statuses |
| StatusLog.SinceIsSuffixIff | src/orders/order-events.service.ts:74-89 | since(k) is the unbounded log's suffix after k if and only if n <= 100 or k >= n - 100 |
| Sse.Connection.Write | src/orders/orders.controller.ts:77-81 | Writes an event exactly when its id exceeds the last one seen |
| Sse.Connection.Serve | src/orders/orders.controller.ts:76-87 | Early live events, the replay loop and later live events are merged in arrival order |
| Sse.WrittenAreRecords | src/orders/orders.controller.ts:76-87 | For any arrivals in any order: ids written are strictly increasing and above Last-Event-ID, and are exactly the arrivals that exceed all before them |
| Sse.OnlyGenuine | src/orders/orders.controller.ts:83-87 | Everything written is a genuine entry of the order's log |
| Sse.GapFreeIff | src/orders/orders.controller.ts:76-87 | With live events in id order, a connection misses nothing after Last-Event-ID if and only if the early live events follow on from it, or there are none that count, and the window reaches back far enough |
| Sse.EarlyLiveEventHidesReplay | src/orders/orders.controller.ts:76-87 | The run in which an event arriving during the replay query hides an older entry |
| Sse.SessionIsOneStream | src/orders/orders.controller.ts:72-81 | Across any number of reconnects with Last-Event-ID the client reads what one endless connection would write |
| Interceptor.Interceptor.Sweep | src/common/idempotency/idempotency.interceptor.ts:82-88 | Deletes from the front up to the first live record |
| Interceptor.Interceptor.Handle | src/common/idempotency/idempotency.interceptor.ts:27-71 | Passes through without a key or for other methods; otherwise sweeps, then answers reuse, in flight or replay, or starts a handler under a new record |
| Interceptor.Interceptor.Complete | src/common/idempotency/idempotency.interceptor.ts:71-76 | A present key's record becomes the finished one in its place, nothing else moving; a key that has gone comes back last |
| Interceptor.SweepIsFull | src/common/idempotency/idempotency.interceptor.ts:79-88 | In a map in expiry order, stopping at the first live record deletes exactly the expired ones |
| Interceptor.FoundRunsSweepFully | src/common/idempotency/idempotency.interceptor.ts:45-88 | In every run in which each handler that answers finds its own record: map order is expiry order, the sweep is a full sweep, and a key starts at most one handler per time-to-live window |
| Interceptor.TimelyRunsSweepFully | src/common/idempotency/idempotency.interceptor.ts:45-88 | In particular in every run whose handlers answer before their records expire |
| InterceptorLaws.FinishKeepsOrderIff | src/common/idempotency/idempotency.interceptor.ts:72-75 | After any run in which every earlier answer found its own record, the next answer, on time or late, keeps the map in expiry order if and only if it finds its record too or nothing stands before its place |
| InterceptorLaws.LateFinishIsReplayed | src/common/idempotency/idempotency.interceptor.ts:72-88 | A run in which a late answer lands behind a live record, is never swept and is replayed after its time |
| InterceptorLaws.RecordAnswersUntilExpiry | src/common/idempotency/idempotency.interceptor.ts:49-67 | In every run whose answers find their records: until it expires a record answers every request for its key the same way: 422 to another body, replay when finished, 409 when its handler failed |
| InterceptorLaws.EndedRequestIsRemembered | src/common/idempotency/idempotency.interceptor.ts:47-76 | In every run whose answers find their records: once a request's handler has answered in time, the same request gets that answer again for the rest of the 24 hours; once it has failed, 409 for as long; another body gets 422 either way |
| InterceptorLaws.SecondRequestWaits | src/common/idempotency/idempotency.interceptor.ts:49-62 | And while the handler is at work, 409, or 422 with another body |
| InterceptorLaws.ExpiredKeyStarts | src/common/idempotency/idempotency.interceptor.ts:47-69 | In every run whose answers find their records: the first request after expiry starts a new handler |
| TwoLayers.SameKeySameOrder | src/orders/orders.service.ts:63-75 | Across expiry, restarts and failing or late handlers, any two 201 answers whose headers come to the same key name the same order, the one in the key's row, whichever layer gave them |
| TwoLayers.SameTrimmedKeySameOrder | src/orders/orders.service.ts:64-71 | In particular any two 201 answers whose headers are the same once trimmed and not blank |
| TwoLayers.RepeatedInTime | src/common/idempotency/idempotency.interceptor.ts:63-76 | A repeat in time is answered from memory with the same order; the database keeps its one order |
| TwoLayers.RepeatedAfterRestart | src/checkout.ts:58-79 | In every reachable state, repeating the keyed request of any earlier 201 after a restart gets its order again, from the key row, and leaves the tables alone |
| TwoLayers.LostKeyComesBack | src/common/idempotency/idempotency.interceptor.ts:47-77 | A request whose handler is lost holds its key for the rest of the 24 hours and no longer: then the same request starts a handler again |
| TwoLayers.OrdersAreSales | src/checkout.ts:110-151 | In every run there are as many new orders as checkouts a serial run grants, with or without a key, whatever is replayed, lost or restarted in between |
| TwoLayers.InFlightUnreachable | src/checkout.ts:74-76 | In every reachable state every key row has its order, so the in-flight throw is never taken |
| TwoLayers.BlankKeyNamesTwoOrders | src/orders/orders.service.ts:64-71 | A key that trims to nothing names two orders across a restart |
| Retry.RetryableIff | src/retry.ts:1-10 | An error is retryable if and only if the code that decides, the driver's if it has one, else the error's own, is a serialization failure or a deadlock |
| Retry.WithSerializationRetry | src/retry.ts:12-37 | Calls fn up to the first success or non-retryable error or the limit, returns or rethrows what that call gave, retries one less than calls, waits 10 * (2^retries - 1) ms in all; a limit below 1 throws undefined |
| Retry.SucceedsIff | src/retry.ts:20-24 | Succeeds if and only if some attempt within the limit succeeds after only retryable failures |
| Retry.ThrowsIff | src/retry.ts:25-29 | Gives up on a retryable error if and only if every attempt up to the limit failed so |
| Snapshot.NoLostUpdate | src/demo-retry.ts:10-29 | For n callers in every interleaving: the balance is the start plus the successes; a caller's failures are at most the commits by others; nobody gives up when n is at most the attempt limit; all done means balance + n |
| Snapshot.EveryCallerSucceeds | src/demo-retry.ts:10-29 | With n callers, at least n attempts and no other errors: every run has at most n * (2 * (n - 1) + 3) steps, and where it cannot go on every caller is done and the balance is start + n |
| Snapshot.RunsEnd | src/retry.ts:20-36 | That bound holds for every run, other errors and giving up included |
| Snapshot.EnoughAttemptsIff | src/retry.ts:20-36 | Some run makes a caller give up if and only if there are more callers than attempts |
| DemoRetry.Demo.ReadBalance | src/demo-retry.ts:12-22 | The read takes the caller's snapshot and counts it in |
| DemoRetry.Demo.WriteBalance | src/demo-retry.ts:23-26 | The write takes the row lock when the row is as in the snapshot, and otherwise fails and counts one attempt |
| DemoRetry.Demo.CommitBalance | src/demo-retry.ts:11-28 | The commit adds one to the balance read and releases the row |
| DemoRetry.DemoSucceeds | src/demo-retry.ts:16-56 | With the barrier, whenever both callers are done there was at least one retry and the balance has grown by two |
| DemoRetry.DemoEnds | src/demo-retry.ts:10-56 | The barrier holds nobody up: with at least two attempts every run has at most ten steps, and where it cannot go on both callers are done, at least one retried, and the balance has grown by two |
| Base64Url.DecodeEncode | src/common/pagination/pagination.ts:3-9 | base64url without padding round-trips every byte sequence |
| Pagination.CursorRoundTrip | src/common/pagination/pagination.ts:3-20 | decodeCursor(encodeCursor(id)) is id for every id |
| Pagination.RefusedIff | src/common/pagination/pagination.ts:7-28 | A page is refused if and only if a cursor is given, not empty, that does not decode to an object with an integer id; one that does is where the page starts |
| Pagination.PageIs | src/common/pagination/pagination.ts:22-35 | A page is the first items after the start, and carries a cursor exactly when something is left |
| Pagination.WalkCovers | src/common/pagination/pagination.ts:22-35 | Following cursors to the end gives exactly the items after the start of the table as last seen, whatever was appended in between |
| Pagination.WholeWalk | src/common/pagination/pagination.ts:22-35 | From no cursor the walk ends, every page but the last is full, and the pages concatenate to the whole list |
| Pagination.GrowingWalk | src/common/pagination/pagination.ts:22-35 | With higher ids appended between pages the walk reads every starting item and every appended one, once each |

## Left out

- NestJS wiring, HTTP, the socket.io gateway, problem+json bodies, DTO validation, env schema and health checks.
- PostgreSQL, TypeORM and amqplib internals: modelled by what a step does (atomic commit and rollback, a row lock until commit, ON CONFLICT, confirm, unacked messages returned when a channel closes).
- Broker topology: the queue, binding and dead-letter queue exist, dead-lettering loses nothing, and the delivery limit is a step that may happen to any ready message.
- JSON text: message bodies are JSON values (or not JSON), and what JSON.parse makes of a cursor's text is a parameter known only to read `{"id":n}` right; UTF-8 decoding is part of it. Number coercion of non-numbers in a message is an arbitrary function.
- SHA-256: a fingerprint is an opaque string; nothing depends on collisions.
- Database errors a checkout can meet besides the ones named (integer range, duplicate line, connection loss) and product or buyer ids that are not bigints; ids are natural numbers.
- Concurrent transactions at READ COMMITTED see whole committed rows; the `findOne` that tells unknown product from out of stock is read together with its UPDATE.
- `deleteDemoRows` is not a step of the pipeline machine, which is what its invariant needs; it is modelled by itself.
- Status updates of an order and the read-back after checkout are not steps of the pipeline or of the two-layer machine; a request that fails outside checkout is one whose handler is lost.
- Demo messages published by other programs enter the pipeline machine only as bodies the contract refuses.
- ConsumerRuns.AttachmentRunIsMachineRun: the attachment by itself, over JSON messages the queue held when it began; steps of others in between are the machine's own.
- Fairness and wall-clock liveness beyond the measures proved; timers only let time pass.
- `runBoundedConsumer`: its timeout and closing are the channel-closing steps of an attachment; opening a connection is one atomic step of the reopen loop.
- DemoRetry.DemoSucceeds: the demo with two callers; the law for any number of callers, Snapshot.NoLostUpdate, is about the same steps without the barrier.
- JobQueue.Queue.RunWorker: the method has the queue to itself; several workers are the machine of JobWorker. A transaction that fails before its claim changes nothing and is not a step, and the worker id written to the row is not kept.
- Live events of other processes do not reach a stream; a fractional Last-Event-ID, which the query refuses, is not modelled; event numbers are unbounded although the column is a 32-bit integer.
- Interceptor.FoundRunsSweepFully: needs every answer to find its own record; the first one that does not is InterceptorLaws.FinishKeepsOrderIff, which says exactly when it breaks the order.
- DeliveryLaws.ExactlyOnce: needs order ids up to 2^53, as every law of the pipeline machine does; DeliveryRelay.EventIdsDistinctIff shows why.
- Pagination.EncodeCursor: ids are printed in plain decimal, which is what JSON.stringify does below 10^21.
- src/store/store.service.ts, other demos, seeds, migrations, scripts, backup and restore.
