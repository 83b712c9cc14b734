# Observability demo: scheduler, generator, consumer and smoke gate

A Dafny model of the order-processing demo and of the gate that watches it.
`dafny verify dfyconfig.toml` checks everything.

**The producer scheduler.** `send_orders` admits generated orders on a timer,
keeps at most `max_in_flight` deliveries pending and at most one per category
key, takes finished deliveries in any order, retries each send up to three
times, and on shutdown or on a panic of a task stops admitting and drains.
`Scheduler` is that protocol as a step system: one event per branch of the
select loop, per action of a delivery task and per step of the drain, each with
the time it happens at. Which step comes next, what each attempt is answered,
when a task panics and when the shutdown comes are all free, so a theorem about
`ValidRun` is about every interleaving. `Invariants` and `Preservation` hold what
every step keeps; `Theorems`, `Accounting`, `Drain` and `SerialRun` state the
properties of whole runs, and `Pace` when the requested rate is reached.
`Sender.OrderSender` is the same code in its own form: fields updated in place,
one method per select branch, a loop and a drain loop, all refining the step
system; what the outside decides there, the client's replies and what each turn
of the loop finds ready, is input (`Turns`). `Ticker` is the interval with skipped ticks.

**The generator and its arithmetic.** `Orders` is `order_at` and the outcome
rules, `OrderIds` the printing and parsing of order ids, `Pipeline` the stage
delays, `Counting` the counting over windows of indices that they need.

**Sending and consuming.** `Deliveries` and `Publishing` are one delivery: its
record, its attempt loop and what it leaves in the counters. `Metrics` is
`DemoMetrics` with a history of updates; `Consumer` is the poll loop over it and
`ConsumerCounts` what its counters mean; `PublishedCounts` joins the producer's
counters to the scheduler's.

**The gate.** `CheckServices` and `Smoke` are the two shell scripts with the
answers of docker, curl and jq as inputs.

Lemmas whose statement would invite automatic induction carry
`{:induction false}`: every induction is written out.

Where code and documentation differ, the model follows the code. The header of
`check-services.sh` (line 18) reserves status 2 for a service that is still
starting. The code gives 2 only to a one-shot service that is created or running
and to a running long-running service that is unhealthy; a long-running service
that is only created fails with 1 at line 101. `CheckServices.StatusTwo` is the
exact condition and `CheckServices.CreatedFails` the case. Also, under `set -eu`
a docker or jq command that fails with status 2 ends the script with 2, which the
smoke run reads as still starting: `CheckServices.ExitTwo`.

## Model

| member | source | states |
|---|---|---|
| SerialRun.SerialEquivalence | crates/observability-demo-app/src/producer.rs:63-100 | for every returned run, at any limit and interleaving, panics included: a returned run of limit one with the same deliveries exists iff no delivery before the last panicked (so whenever the call succeeds), and every such run has the same result, report and counters and, key by key, the same attempts and answers |
| SerialRun.SerialRunReturns | crates/observability-demo-app/src/producer.rs:63-100 | the one-at-a-time schedule of joined deliveries is a valid run at any limit unless an early one panicked; it returns with these deliveries and logs them end to end |
| SerialRun.LimitOne | crates/observability-demo-app/src/producer.rs:63-100 | in every state of every run of limit one, panics included, the orders before the last are over without a panic and the whole log is the logs of the deliveries end to end |
| Accounting.PerKeyOrder | crates/observability-demo-app/src/main.rs:1095-1102 | in every reachable state the sends of a key are grouped by order in increasing index, all attempts of an order carry its one record, and the record goes to the configured topic with the scheduling key as its key |
| Theorems.SlidingWindow | crates/observability-demo-app/src/producer.rs:67-88 | when order j is admitted all orders up to j-5 are joined; the join of order j comes at a position from j-(min(max_in_flight,5)-1) to j+4, and exactly at j when the limit is one |
| Theorems.KeySet | crates/observability-demo-app/src/producer.rs:56-88 | while the loop runs the active keys are exactly the categories of the pending deliveries, one to one; at most min(max_in_flight,5) are pending, during the drain too |
| Theorems.FiveIsEnough | docs/operator-guide.md:26 | limits above five add no concurrency: a run is valid with such a limit iff it is valid with limit five, with the same final state |
| Theorems.AdmissionSequence | crates/observability-demo-app/src/producer.rs:59-88 | the orders sent are order_at(0), order_at(1), ... with none skipped or repeated, stamp k is k capped at the largest i64, and stamps never fall |
| Theorems.NoCatchUp | crates/observability-demo-app/src/producer.rs:49-51 | admissions use strictly later period-aligned timer slots; with an exact timer none falls before its slot or at a slot already passed, so between two admissions all but one of the intervening orders have a whole period |
| Theorems.RateBound | crates/observability-demo-app/src/producer.rs:49-88 | at most t/period + 1 orders are admitted by time t, however long the guard blocked |
| Theorems.AchievedRateBound | crates/observability-demo-app/src/producer.rs:23-27 | the achieved rate never exceeds the requested rate plus one order over the elapsed time |
| Theorems.AchievedRateExact | crates/observability-demo-app/src/producer.rs:23-27 | for every elapsed time above zero the rate times the elapsed seconds is the number of acknowledged orders |
| Pace.FullPace | crates/observability-demo-app/src/producer.rs:64-89 | the converse: if the loop never lets time pass while it could join nor beyond the slot while it could admit, and every delivery is finished within min(max_in_flight,5) periods of its admission, order k is admitted at exactly k periods and while the loop runs at least t/period orders are admitted by time t |
| Pace.EagerProgress | crates/observability-demo-app/src/producer.rs:64-89 | a loop held to these two conditions always has a step other than shutdown or panic to take |
| Ticker.NextSlotExact | crates/observability-demo-app/src/producer.rs:50-51 | for every tolerance: a tick at most that late waits for exactly one period after its slot, a later one for the least period-aligned time strictly after now |
| Ticker.NextSlotAligned | crates/observability-demo-app/src/producer.rs:50-51 | the next slot is aligned, at least a period later, and lies after now unless the tick was within the tolerance |
| Accounting.Conservation | crates/observability-demo-app/src/producer.rs:67-78 | at every step admitted = acknowledged + failed + panicked + pending, and the join list has each joined delivery once |
| Accounting.ResultExact | crates/observability-demo-app/src/producer.rs:92-100 | the call returns Ok iff no task panicked; then acknowledged + failed = admitted; in either case every task was joined once |
| Accounting.RetryAccounting | crates/observability-demo-app/src/main.rs:1102-1133 | after the drain no order made more than three attempts and each that ended made one; errors lie between 3*failed and 3*failed + 2*acknowledged (+2 per panic), attempts account for errors and acknowledgements, and the produced counters sum to acknowledged |
| Accounting.RetryAccountingExact | crates/observability-demo-app/src/main.rs:1119-1133 | without panics send errors are exactly attempts minus acknowledged |
| Accounting.LogAccounting | crates/observability-demo-app/src/main.rs:1119-1133 | at every step the log of attempts holds as many sends as the deliveries made attempts, as many failed answers as counted send errors, as many successes as the produced counters sum to, and as many successes of each amount as acknowledged orders of it |
| Accounting.BoundedLabels | crates/observability-demo-app/src/metrics.rs:204-218 | in any run the produced family has at most the 80 generated series, each with the number of acknowledged orders of that category, region and payment method |
| Accounting.AllLabelsAppear | crates/observability-demo-app/src/metrics.rs:204-218 | once any 120 consecutive orders are acknowledged it has exactly those 80 |
| Drain.GuardOrPending | crates/observability-demo-app/src/producer.rs:67-81 | in the loop the guard is open iff the limit is not reached and order index-5 is no longer pending, the only pending order that can hold the next key; with nothing pending it is open |
| Drain.Progress | crates/observability-demo-app/src/producer.rs:65-98 | no reachable state before the return is stuck, without help from a shutdown or a panic |
| Drain.DrainTheorem | crates/observability-demo-app/src/producer.rs:91-100 | once the loop is left nothing more is admitted, every continuation has at most 36 steps, it can go on until it returns, and on return the joins made since are exactly the deliveries that were pending, each once |
| Drain.DrainStep | crates/observability-demo-app/src/producer.rs:92-98 | every step after the loop lowers the sum of the remaining steps of the pending deliveries |
| Drain.JoinsExtend | crates/observability-demo-app/src/producer.rs:92-98 | later steps only extend the join list |
| Preservation.Reachable | crates/observability-demo-app/src/producer.rs:49-98 | every reachable state satisfies all invariants: shape, window, accounts, labels, join order, logs and pacing |
| Sender.OrderSender.constructor | crates/observability-demo-app/src/producer.rs:49-61 | the locals at the start of the loop are the initial state of the step system |
| Sender.OrderSender.OnTick | crates/observability-demo-app/src/producer.rs:80-89 | the admission branch performs exactly one admission step on the fields |
| Sender.OrderSender.OnJoin | crates/observability-demo-app/src/producer.rs:67-78 | the join branch performs one join step; it leaves the loop exactly when the delivery panicked |
| Sender.OrderSender.Select | crates/observability-demo-app/src/producer.rs:64-90 | one pass of the biased select takes the first ready branch in source order and performs that step and no other |
| Sender.OrderSender.OnDrainJoin | crates/observability-demo-app/src/producer.rs:93-98 | one turn of the drain loop performs one drain-join step |
| Sender.OrderSender.DrainAll | crates/observability-demo-app/src/producer.rs:92-100 | the drain loop terminates for every behaviour of the deliveries, admits nothing and returns the result of the run |
| Sender.OrderSender.Loop | crates/observability-demo-app/src/producer.rs:63-91 | over any list of turns: each turn is the step the client and the select decide, the loop is left at the first shutdown or found panic and at no other turn, and the number of admitted orders is exactly the number of turns that had nothing in the way of an admission |
| Sender.SendOrders | crates/observability-demo-app/src/producer.rs:41-101 | the whole call, for every client and list of turns: it admits one order per turn with nothing in the way, and returns Ok iff the client acknowledges or rejects each of them, with the exact numbers of orders it acknowledges and rejects |
| Sender.OrderSender.TakeTurn | crates/observability-demo-app/src/producer.rs:63-91 | one turn of the loop, a task or a poll of the select, performs the step that is due and no other |
| Sender.OrderSender.MoveTask | crates/observability-demo-app/src/main.rs:1119-1133 | the task of a pending delivery makes the attempt, takes the answer or panics as the client has it for this attempt of this order |
| Turns.TurnAdmits | crates/observability-demo-app/src/producer.rs:80-88 | a turn raises the index by one iff it is a poll without shutdown, finished delivery found or reporting tick, with the timer due, fewer than the limit pending and the next key free; otherwise it leaves it |
| Turns.TurnJoins | crates/observability-demo-app/src/producer.rs:67-78 | a finished delivery that a poll finds is joined in that turn, and no other |
| Turns.TurnLeaves | crates/observability-demo-app/src/producer.rs:65-78 | a turn leaves the loop iff it finds a shutdown, or a delivery that panicked |
| Turns.TurnMoves | crates/observability-demo-app/src/main.rs:1119-1133 | a task turn changes exactly the delivery it names, if that is still under way |
| Turns.TrailAdmits | crates/observability-demo-app/src/producer.rs:63-90 | over a whole loop the index rises by the number of admitting turns |
| Turns.OutcomeDecided | crates/observability-demo-app/src/main.rs:1119-1133 | a delivery that is over was acknowledged iff one of the first three replies acknowledges after rejections only, and failed iff all three reject |
| Turns.ResultDecided | crates/observability-demo-app/src/producer.rs:91-100 | however the deliveries were interleaved, the report and the result depend only on the client and on the number of admitted orders |
| Publishing.SendWithRetry | crates/observability-demo-app/src/main.rs:1119-1133 | up to three attempts with one record, stopping at the first success; true iff one of the three answers would be a success; one error counted per failed attempt |
| Publishing.PublishOrder | crates/observability-demo-app/src/main.rs:1082-1114 | the attempts of the order's record in sequence and, iff it was acknowledged, one produced update with its label and amount: what a finished delivery of the step system logs and counts |
| Publishing.AcknowledgedExactly | crates/observability-demo-app/src/main.rs:1123-1132 | a complete list of answers ends in success iff one of the first three answers is a success |
| PublishedCounts.CountersAgree | crates/observability-demo-app/src/metrics.rs:183-221 | at every step of every run, whatever the interleaving, the error and produced families are those that making the deliveries' updates one delivery after the other leaves in `DemoMetrics`, and the observed amounts are as a multiset those of the acknowledged orders |
| Deliveries.HeadersRoundTrip | crates/observability-demo-app/src/pipeline.rs:43-75 | the consumer reads back the region, tier and trace headers the producer attached, unless an earlier trace header has the same name |
| Deliveries.AbsentHeader | crates/observability-demo-app/src/pipeline.rs:66-75 | a name that no header has reads as absent |
| Deliveries.DeliveryLogExact | crates/observability-demo-app/src/main.rs:1123-1132 | the log of a delivery is attempt 1 and its answer, attempt 2 and its answer, ... with the one record, and an unanswered attempt last |
| Deliveries.RetryBounds | crates/observability-demo-app/src/main.rs:1119-1133 | over any list of joined deliveries, errors and attempts are bounded by the outcomes |
| Orders.KeysEqual | crates/observability-demo-app/src/lib.rs:66-87 | two orders share a key iff their indices are equal modulo five, so any five consecutive orders have distinct keys |
| Orders.PeriodExact | crates/observability-demo-app/src/lib.rs:85-113 | the periods of all fields but the id are exactly the multiples of 71,400 |
| Orders.CategoryValues | crates/observability-demo-app/src/lib.rs:66-92 | category and quantity of every order by name and number: books 1, electronics 2, grocery 3, toys 4, garden 5 |
| Orders.RegionValues | crates/observability-demo-app/src/lib.rs:67-89 | every order carries a region with that region's own warehouse, two orders at a time |
| Orders.PaymentValues | crates/observability-demo-app/src/lib.rs:76-90 | the payment method of every order by name, changing every three orders |
| Orders.TierValues | crates/observability-demo-app/src/lib.rs:78-91 | the customer tier of every order by name, changing every seven orders, and the fixed currency |
| Orders.AmountValues | crates/observability-demo-app/src/lib.rs:93-100 | every seventeenth amount is zero, any other is in cents 99 more than 100 times the index modulo 200 |
| Orders.OutcomeOfCents | crates/observability-demo-app/src/lib.rs:119-144 | any order with an amount in cents is anomalous iff it is zero, fraud_rejected iff paid by crypto with more than 150 dollars |
| Orders.GeneratorCoverage | crates/observability-demo-app/src/lib.rs:85-113 | any 120 consecutive orders carry exactly the 80 labels, and no order carries another |
| Orders.OutcomeCounts | crates/observability-demo-app/src/lib.rs:91-144 | any 10,200 consecutive orders are 600 anomalous, 608 fraud_rejected and 8,992 fulfilled |
| Orders.OutcomeByIndex | crates/observability-demo-app/src/lib.rs:119-144 | the outcome of a generated order as residues of its index |
| OrderIds.OrderIdRoundTrip | crates/observability-demo-app/src/main.rs:1321-1325 | stripping the prefix and parsing gives back every u64 index; anything larger would read as 0 |
| OrderIds.OrderIdInjective | crates/observability-demo-app/src/lib.rs:102 | ids are equal iff the indices are |
| OrderIds.ParseDigitsExact | crates/observability-demo-app/src/main.rs:1321-1325 | the digit loop accepts exactly the digit strings whose value fits a u64, and gives that value |
| OrderIds.ParseU64Exact | crates/observability-demo-app/src/main.rs:1321-1325 | the parser gives v iff the text is an optional plus and a non-empty digit string of value v below 2^64 |
| OrderIds.OrderIndexExact | crates/observability-demo-app/src/main.rs:1321-1325 | the consumer reads a positive index v off an id iff the id is the prefix and such a text of value v |
| OrderIds.IdOrderExact | crates/observability-demo-app/src/lib.rs:102 | for i < j the ids sort in index order iff i is at most j cut to the digits of i |
| OrderIds.IdOrderBelowTenDigits | crates/observability-demo-app/src/lib.rs:102 | below 10^10 text order is index order |
| OrderIds.IdOrderBreaksAtTenBillion | crates/observability-demo-app/src/lib.rs:102 | at 10^10 it is not |
| Pipeline.SlowBySlot | crates/observability-demo-app/src/pipeline.rs:92-108 | for f in [0,1] an order is slow iff its index modulo 10,000 is below 10,000 f; for f at or below 0 none is, at or above 1 all are |
| Pipeline.SlowDensity | crates/observability-demo-app/src/pipeline.rs:92-108 | for f in [0,1] any 10,000 consecutive indices hold the least whole number of slow ones that is at least 10,000 f; outside it 0 or 10,000 |
| Pipeline.SlowMonotone | crates/observability-demo-app/src/pipeline.rs:102-107 | raising the fraction keeps every slow order slow |
| Pipeline.AllStagesOrNone | crates/observability-demo-app/src/main.rs:1315-1333 | through the id round trip all four stages of order i are delayed or none is, and the total is the base work plus 120 ms or plus nothing |
| Pipeline.OrderDelayExact | crates/observability-demo-app/src/pipeline.rs:92-120 | the four stages of any order sleep the four base works plus 120 ms iff its id reads as a slow index |
| Metrics.DemoMetrics.RecordProduced | crates/observability-demo-app/src/metrics.rs:204-221 | the families stay the replay of all updates so far, extended by this one |
| Metrics.DemoMetrics.RecordError | crates/observability-demo-app/src/metrics.rs:183-189 | the same for one error of a bounded kind |
| Metrics.DemoMetrics.RecordStage | crates/observability-demo-app/src/metrics.rs:223-230 | the same for one stage observation |
| Metrics.DemoMetrics.RecordProcessed | crates/observability-demo-app/src/metrics.rs:232-242 | the same for one processed order |
| Metrics.ObservedAsCounted | crates/observability-demo-app/src/metrics.rs:204-242 | at any time the amount and produce-latency histograms hold as many observations as the produced family counts, the processing-latency histogram as many as the processed family |
| Counters.BumpTotal | crates/observability-demo-app/src/metrics.rs:212-218 | creating or incrementing any one label raises the family's total by one |
| Consumer.ProcessOrder | crates/observability-demo-app/src/pipeline.rs:111-120 | the four stages are recorded in order, the time slept is the sum of their delays, the outcome is the order's class |
| Consumer.ProcessDecodedOrder | crates/observability-demo-app/src/main.rs:1301-1340 | a decoded order leaves four stage updates and one processed update, delayed by the index in its id |
| Consumer.ProcessRecord | crates/observability-demo-app/src/main.rs:1275-1299 | a record leaves the updates of its decoding result, one error of the right kind or those of its order, and is slept for only in the second case |
| Consumer.RunConsume | crates/observability-demo-app/src/main.rs:1224-1232 | after any batches the updates and the time slept are those of all polled records in order |
| Consumer.AllUpdatesConcat | crates/observability-demo-app/src/main.rs:1224-1232 | batch boundaries do not matter to the metrics |
| Consumer.FlattenConcat | crates/observability-demo-app/src/main.rs:1224-1232 | the records of several batches are those of each, one batch after the other |
| ConsumerCounts.ConsumerAccounting | crates/observability-demo-app/src/main.rs:1281-1340 | records = processed + missing_value + deserialize, each the number of records of that kind, and the count of each of the four named stages equals processed |
| ConsumerCounts.ChainAlways | crates/observability-demo-app/src/main.rs:1326-1340 | between any two updates validate >= enrich >= fraud_check >= fulfill >= processed, with a spread of at most one |
| ConsumerCounts.ProcessedExact | crates/observability-demo-app/src/metrics.rs:232-242 | each processed counter is the number of records that decode to an order of its category, region and outcome, and exists iff there is one |
| ConsumerCounts.SleepExact | crates/observability-demo-app/src/main.rs:1315-1333 | the total time slept is the base work per decoded record plus 120 ms per slow one |
| ConsumerCounts.OutcomesCounted | crates/observability-demo-app/src/main.rs:1334-1340 | the processed counters of each outcome, over all labels, are the number of records classified so |
| ConsumerCounts.ConsumedOutcomes | crates/observability-demo-app/src/lib.rs:85-144 | any 10,200 consecutive generated orders, whatever their stamps, are counted as 600, 608 and 8,992 |
| CheckServices.Run | demo/observability/check-services.sh:80-119 | a line is written iff what it says of the service it names is so; every service is named once per container out of its expected state, or once per mention if it is missing; the exit status is the fold of the lines |
| CheckServices.CheckContainer | demo/observability/check-services.sh:86-105 | a container is silent iff in its expected state, FAILED iff no waiting can mend it, PENDING otherwise |
| CheckServices.Report | demo/observability/check-services.sh:52-61 | the fold keeps: 1 iff some line is FAILED, 2 iff there are lines and all are PENDING, 0 iff there are none |
| CheckServices.LineExact | demo/observability/check-services.sh:80-117 | there is a FAILED (PENDING) line iff some container is broken or an expected one is missing (some container is unsettled) |
| CheckServices.LinesTell | demo/observability/check-services.sh:80-117 | the lines are exactly those whose verdict and text hold of a container of the service they name, or report an expected service without container |
| CheckServices.LinesCounted | demo/observability/check-services.sh:80-117 | how many lines name a service: its containers out of state, plus its mentions among the expected if it has no container |
| CheckServices.StatusZero | demo/observability/check-services.sh:4-18 | status 0 iff every one-shot container exited with 0, every other runs, unrestarted and healthy if checked, and every expected service has a container |
| CheckServices.StatusOne | demo/observability/check-services.sh:52-61 | status 1 iff an expected service has no container or some container gives a FAILED text |
| CheckServices.StatusTwo | demo/observability/check-services.sh:86-105 | status 2 iff neither is so and some container gives a PENDING text |
| CheckServices.CreatedFails | demo/observability/check-services.sh:101-102 | a long-running service that is still in state created already gives status 1, a one-shot one status 2 |
| CheckServices.StatusOrderless | demo/observability/check-services.sh:80-119 | the status depends only on which containers and expected names there are, not on order or repetition |
| CheckServices.LinesPermuted | demo/observability/check-services.sh:80-117 | permuting containers and expected services permutes the lines |
| CheckServices.ExitZero | demo/observability/check-services.sh:20-24 | even when commands can fail and end the script, exit status 0 means that everything was seen as expected |
| CheckServices.ExitTwo | demo/observability/check-services.sh:20-24 | exit status 2 means either the status 2 of the verdict or a command that failed with 2 |
| Smoke.Run | demo/observability/smoke.sh:9-81 | the polling loop: which targets are still pending, which `ok` lines were printed and in which order, which of success, service failure, unknown target or time-out ends the run and in which pass, and what a time-out message names |
| Smoke.CheckPending | demo/observability/smoke.sh:57-65 | one pass keeps exactly the failing targets, in order, and prints one line for each other |
| Smoke.DefaultTargetsKnown | demo/observability/smoke.sh:5-15 | the known targets are exactly the ten default ones |
| Smoke.OneEnding | demo/observability/smoke.sh:54-81 | whatever the outside answers exactly one of success, service failure and time-out happens |
| Smoke.SmokeExact | demo/observability/smoke.sh:40-81 | a run succeeds iff at some pass all targets have passed and the closing service check is 0, with no service check before it other than 0 or 2 |
| Smoke.PendingShrinks | demo/observability/smoke.sh:57-65 | the pending list only shrinks and keeps its order, over any number of passes |
| Smoke.ExactlyOnce | demo/observability/smoke.sh:57-64 | on success every initial target has exactly one `ok` line |
| Smoke.SuccessMeansHealthy | demo/observability/smoke.sh:37-72 | with the service gate behind it, success means that a service check made after the last target passed saw every service as expected and no earlier one saw a broken or missing service; at worst a check ended itself by a command failing with status 2 |

## Left out

- Integer width of the scheduler: the order index is an unbounded natural number, so the u64 overflow after 2^64 admissions is not modelled; the stamp's cap at the largest i64 and the u64 range of the id parser are.
- Floating point: amounts, rates and the slow-order fraction are exact reals; rounding, NaN and infinities are not modelled.
- The runtime's timer: the interval starts at time 0 and a tick later than a parameter `tolerance` skips to the next aligned slot; theorems hold for every tolerance, and the ideal timer is tolerance 0.
- Task granularity: handing a record to the client, and receiving an answer together with the counter update after it, are one step each; a panic can strike before an attempt or while one is outstanding.
- The reporting tick of the loop only logs; it appears in `Sender.OrderSender.Select` as a branch that does nothing.
- Sender.OrderSender.Loop: takes a given list of turns, because a method must terminate; a loop that is never shut down is covered by its finite beginnings, and the step system has no such bound. In `Sender.SendOrders` the shutdown comes after the last turn if it has not come before.
- The Kafka client, broker, schema registry and protobuf codec: an attempt is answered by a parameter, a record carries the order itself, decoding is a parameter that yields an order or fails; a serializer that fails is not modelled.
- Kafka headers hold text; values that are not UTF-8, which the consumer treats as absent, are not modelled. Trace propagation is a parameter.
- Latency histograms are represented by how many observations they hold; measured times are not modelled.
- A poll that returns an error ends the consumer after the batches before it; commits, offsets and rebalancing are not part of the model.
- The streams topology, its state store and the stream counters.
- Command-line and environment validation, signal handling, logs, tracing spans and the HTTP routes.
- CheckServices.Run: the exit codes, digests and commands printed on a line are not modelled; service names match exactly (the script's `grep` reads a name as a pattern) and the fields of a container are never empty. Of a run that a failing command ends, only the exit status is modelled, not which command failed nor the lines it had printed.
- Smoke.Run: each target check and each service check answers from a parameter; the deadline is the number of passes that start before it.
- The other shell scripts and all deployment configuration.
