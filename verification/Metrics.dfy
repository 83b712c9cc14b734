// The demo's metric families as maps from labels to counts, and the stream of
// updates that fills them.
module Metrics {
  import opened Counters
  import opened Orders

  datatype ErrorKind = MissingValue | Deserialize | ProducerSend

  function ErrorLabel(kind: ErrorKind): string {
    match kind
    case MissingValue => "missing_value"
    case Deserialize => "deserialize"
    case ProducerSend => "producer_send"
  }

  datatype ProcessedLabel = ProcessedLabel(category: string, region: string, outcome: Outcome)

  datatype Update =
    | Failed(kind: ErrorKind)
    | Produced(produced: ProducedLabel, dollars: real)
    | Staged(stage: string)
    | Processed(processed: ProcessedLabel)

  /**
   * The value of every family. The amounts are represented by what was observed,
   * the latencies by how often: measured times are not part of this model.
   */
  datatype Counts = Counts(
    errors: map<string, nat>,
    produced: map<ProducedLabel, nat>,
    dollars: seq<real>,
    produceLatencies: nat,
    stages: map<string, nat>,
    processed: map<ProcessedLabel, nat>,
    processingLatencies: nat)
  {
    function Add(u: Update): Counts {
      match u
      case Failed(kind) => this.(errors := Bump(errors, ErrorLabel(kind)))
      case Produced(tag, value) => 
        this.(produced := Bump(produced, tag), dollars := dollars + [value], produceLatencies := produceLatencies + 1)
      case Staged(stage) => this.(stages := Bump(stages, stage))
      case Processed(tag) =>
        this.(processed := Bump(processed, tag), processingLatencies := processingLatencies + 1)
    }
  }

  const NO_COUNTS: Counts := Counts(map[], map[], [], 0, map[], map[], 0)

  function Replay(us: seq<Update>): Counts {
    if us == [] then NO_COUNTS else Replay(us[..|us| - 1]).Add(us[|us| - 1])
  }

  lemma {:induction false} ReplayPush(us: seq<Update>, u: Update)
    ensures Replay(us + [u]) == Replay(us).Add(u)
  {
    assert (us + [u])[..|us|] == us;
  }

  /** Each histogram beside a counter family has as many observations as the family counts. */
  lemma {:induction false} ObservedAsCounted(us: seq<Update>)
    ensures var c := Replay(us);
            && |c.dollars| == c.produceLatencies == Total(c.produced)
            && c.processingLatencies == Total(c.processed)
  {
    if us != [] {
      var init, u := us[..|us| - 1], us[|us| - 1];
      ObservedAsCounted(init);
      match u
      case Produced(tag, _) => BumpTotal(Replay(init).produced, tag);
      case Processed(tag) => BumpTotal(Replay(init).processed, tag);
      case _ =>
    }
  }

  class DemoMetrics {
    var pipelineErrors: map<string, nat>
    var ordersProduced: map<ProducedLabel, nat>
    var orderValueDollars: seq<real>
    var produceLatency: nat
    var stageObservations: map<string, nat>
    var ordersProcessed: map<ProcessedLabel, nat>
    var orderProcessingLatency: nat
    ghost var updates: seq<Update>

    function Snapshot(): Counts
      reads this
    {
      Counts(pipelineErrors, ordersProduced, orderValueDollars, produceLatency,
             stageObservations, ordersProcessed, orderProcessingLatency)
    }

    /** The families are what the updates so far add up to. */
    ghost predicate Valid()
      reads this
    {
      Snapshot() == Replay(updates)
    }

    constructor ()
      ensures Valid() && updates == []
    {
      pipelineErrors, ordersProduced, orderValueDollars := map[], map[], [];
      stageObservations, ordersProcessed, updates := map[], map[], [];
      produceLatency, orderProcessingLatency := 0, 0;
    }

    method RecordError(kind: ErrorKind)
      requires Valid()
      modifies this
      ensures Valid() && updates == old(updates) + [Failed(kind)]
      ensures pipelineErrors == Bump(old(pipelineErrors), ErrorLabel(kind))
      ensures unchanged(`ordersProduced) && unchanged(`orderValueDollars) && unchanged(`produceLatency)
      ensures unchanged(`stageObservations) && unchanged(`ordersProcessed) && unchanged(`orderProcessingLatency)
    {
      pipelineErrors := Bump(pipelineErrors, ErrorLabel(kind));
      ReplayPush(updates, Failed(kind));
      updates := updates + [Failed(kind)];
    }

    lemma ProducedFields(tag: ProducedLabel, dollars: real)
      ensures var c := Snapshot();
              c.Add(Produced(tag, dollars))
              == Counts(pipelineErrors, Bump(ordersProduced, tag), orderValueDollars + [dollars], produceLatency + 1,
                        stageObservations, ordersProcessed, orderProcessingLatency)
    {
    }

    method RecordProduced(category: string, region: string, paymentMethod: string, dollars: real)
      requires Valid()
      modifies this
      ensures Valid() && updates == old(updates) + [Produced(ProducedLabel(category, region, paymentMethod), dollars)]
      ensures ordersProduced == Bump(old(ordersProduced), ProducedLabel(category, region, paymentMethod))
      ensures orderValueDollars == old(orderValueDollars) + [dollars] && produceLatency == old(produceLatency) + 1
      ensures unchanged(`pipelineErrors) && unchanged(`stageObservations)
      ensures unchanged(`ordersProcessed) && unchanged(`orderProcessingLatency)
    {
      var tag := ProducedLabel(category, region, paymentMethod);
      ProducedFields(tag, dollars);
      ordersProduced := Bump(ordersProduced, tag);
      orderValueDollars := orderValueDollars + [dollars];
      produceLatency := produceLatency + 1;
      ReplayPush(updates, Produced(tag, dollars));
      updates := updates + [Produced(tag, dollars)];
    }

    method RecordStage(stage: string)
      requires Valid()
      modifies this
      ensures Valid() && updates == old(updates) + [Staged(stage)]
      ensures stageObservations == Bump(old(stageObservations), stage)
      ensures unchanged(`pipelineErrors) && unchanged(`ordersProduced) && unchanged(`orderValueDollars)
      ensures unchanged(`produceLatency) && unchanged(`ordersProcessed) && unchanged(`orderProcessingLatency)
    {
      stageObservations := Bump(stageObservations, stage);
      ReplayPush(updates, Staged(stage));
      updates := updates + [Staged(stage)];
    }

    method RecordProcessed(category: string, region: string, outcome: Outcome)
      requires Valid()
      modifies this
      ensures Valid() && updates == old(updates) + [Processed(ProcessedLabel(category, region, outcome))]
      ensures ordersProcessed == Bump(old(ordersProcessed), ProcessedLabel(category, region, outcome))
      ensures orderProcessingLatency == old(orderProcessingLatency) + 1
      ensures unchanged(`pipelineErrors) && unchanged(`ordersProduced) && unchanged(`orderValueDollars)
      ensures unchanged(`produceLatency) && unchanged(`stageObservations)
    {
      var tag := ProcessedLabel(category, region, outcome);
      ordersProcessed := Bump(ordersProcessed, tag);
      orderProcessingLatency := orderProcessingLatency + 1;
      ReplayPush(updates, Processed(tag));
      updates := updates + [Processed(tag)];
    }
  }
}
