// The traced consumer: every polled record ends in exactly one counter.
module Consumer {
  import opened Metrics
  import opened Orders
  import opened Pipeline
  import opened Wrappers
  import OrderIds

  type Bytes = seq<bv8>

  /** A polled record; only its value matters here. */
  datatype Record = Record(value: Option<Bytes>)

  /** The schema codec is a parameter: it either decodes an order or fails. */
  type Codec = Bytes -> Result<Order, string>

  function DecodeOrder(value: Option<Bytes>, decode: Codec): Result<Order, ErrorKind> {
    match value
    case None => Failure(MissingValue)
    case Some(bytes) =>
      match decode(bytes)
      case Success(order) => Success(order)
      case Failure(_) => Failure(Deserialize)
  }

  // ----- what one record does to the metrics -----

  function StageUpdates(n: nat): seq<Update>
    requires n <= |STAGES|
  {
    if n == 0 then [] else StageUpdates(n - 1) + [Staged(STAGES[n - 1])]
  }

  function RecordUpdates(decoded: Result<Order, ErrorKind>): seq<Update> {
    match decoded
    case Failure(kind) => [Failed(kind)]
    case Success(order) =>
      StageUpdates(|STAGES|) + [Processed(ProcessedLabel(order.category, order.region, ClassifyOutcome(order)))]
  }

  function AllUpdates(records: seq<Record>, decode: Codec): seq<Update> {
    if records == [] then []
    else
      var n := |records| - 1;
      AllUpdates(records[..n], decode) + UpdatesOf(records[n], decode)
  }

  function UpdatesOf(record: Record, decode: Codec): seq<Update> {
    RecordUpdates(DecodeOrder(record.value, decode))
  }

  function Flatten(batches: seq<seq<Record>>): seq<Record> {
    if batches == [] then [] else Flatten(batches[..|batches| - 1]) + batches[|batches| - 1]
  }

  /** The records of all batches, in the order polled. */
  lemma {:induction false} FlattenConcat(a: seq<seq<Record>>, b: seq<seq<Record>>)
    ensures Flatten(a + b) == Flatten(a) + Flatten(b)
    ensures forall batch :: Flatten([batch]) == batch
  {
    assert forall batch: seq<Record> :: [batch][..0] == [];
    if b == [] {
      assert a + b == a;
    } else {
      var n := |b| - 1;
      FlattenConcat(a, b[..n]);
      assert (a + b)[..|a + b| - 1] == a + b[..n];
      Associative(Flatten(a), Flatten(b[..n]), b[n]);
    }
  }

  lemma {:induction false} AllUpdatesConcat(a: seq<Record>, b: seq<Record>, decode: Codec)
    ensures AllUpdates(a + b, decode) == AllUpdates(a, decode) + AllUpdates(b, decode)
  {
    if b == [] {
      assert a + b == a;
    } else {
      var n := |b| - 1;
      AllUpdatesConcat(a, b[..n], decode);
      assert (a + b)[..|a + b| - 1] == a + b[..n] && (a + b)[|a + b| - 1] == b[n];
      Associative(AllUpdates(a, decode), AllUpdates(b[..n], decode), UpdatesOf(b[n], decode));
    }
  }

  lemma AllUpdatesPush(records: seq<Record>, r: nat, decode: Codec)
    requires r < |records|
    ensures AllUpdates(records[..r + 1], decode)
         == AllUpdates(records[..r], decode) + UpdatesOf(records[r], decode)
  {
    assert records[..r + 1][..r] == records[..r];
  }

  lemma FlattenPush(batches: seq<seq<Record>>, b: nat, decode: Codec)
    requires b < |batches|
    ensures AllUpdates(Flatten(batches[..b + 1]), decode)
         == AllUpdates(Flatten(batches[..b]), decode) + AllUpdates(batches[b], decode)
  {
    assert batches[..b + 1][..b] == batches[..b];
    AllUpdatesConcat(Flatten(batches[..b]), batches[b], decode);
  }

  // ----- how long the consumer sleeps -----

  /** The sleep of one record; only a decoded order is processed. */
  function SleepOf(record: Record, decode: Codec, work: StageWork, f: real): nat {
    match DecodeOrder(record.value, decode)
    case Success(order) => OrderDelay(order, work, f)
    case Failure(_) => 0
  }

  function Sleep(records: seq<Record>, decode: Codec, work: StageWork, f: real): nat {
    if records == [] then 0
    else Sleep(records[..|records| - 1], decode, work, f) + SleepOf(records[|records| - 1], decode, work, f)
  }

  lemma {:induction false} SleepConcat(a: seq<Record>, b: seq<Record>, decode: Codec, work: StageWork, f: real)
    ensures Sleep(a + b, decode, work, f) == Sleep(a, decode, work, f) + Sleep(b, decode, work, f)
  {
    if b == [] {
      assert a + b == a;
    } else {
      SleepConcat(a, b[..|b| - 1], decode, work, f);
      assert (a + b)[..|a + b| - 1] == a + b[..|b| - 1];
    }
  }

  lemma {:induction false} SleepPush(records: seq<Record>, r: nat, decode: Codec, work: StageWork, f: real)
    requires r < |records|
    ensures Sleep(records[..r + 1], decode, work, f)
         == Sleep(records[..r], decode, work, f) + SleepOf(records[r], decode, work, f)
  {
    assert records[..r + 1][..r] == records[..r];
  }

  lemma {:induction false} FlattenSleep(batches: seq<seq<Record>>, b: nat, decode: Codec, work: StageWork, f: real)
    requires b < |batches|
    ensures Sleep(Flatten(batches[..b + 1]), decode, work, f)
         == Sleep(Flatten(batches[..b]), decode, work, f) + Sleep(batches[b], decode, work, f)
  {
    assert batches[..b + 1][..b] == batches[..b];
    SleepConcat(Flatten(batches[..b]), batches[b], decode, work, f);
  }

  // ----- the code -----

  /** The stages in order; `slept` is the time they take. */
  method ProcessOrder(metrics: DemoMetrics, order: Order, work: StageWork, orderIndex: nat, slowFraction: real)
    returns (outcome: Outcome, slept: nat)
    requires metrics.Valid() && orderIndex == OrderIds.OrderIndex(order.orderId)
    modifies metrics
    ensures metrics.Valid() && metrics.updates == old(metrics.updates) + StageUpdates(|STAGES|)
    ensures outcome == ClassifyOutcome(order) && slept == OrderDelay(order, work, slowFraction)
  {
    slept := 0;
    for k := 0 to |STAGES|
      invariant metrics.Valid() && metrics.updates == old(metrics.updates) + StageUpdates(k)
      invariant slept == DelayUpTo(order, work, slowFraction, k)
    {
      slept := slept + StageDelay(STAGES[k], work, orderIndex, slowFraction);
      metrics.RecordStage(STAGES[k]);
    }
    outcome := ClassifyOutcome(order);
  }

  method ProcessDecodedOrder(metrics: DemoMetrics, order: Order, work: StageWork, slowFraction: real) returns (slept: nat)
    requires metrics.Valid()
    modifies metrics
    ensures metrics.Valid() && metrics.updates == old(metrics.updates) + RecordUpdates(Success(order))
    ensures slept == OrderDelay(order, work, slowFraction)
  {
    var outcome;
    outcome, slept := ProcessOrder(metrics, order, work, OrderIds.OrderIndex(order.orderId), slowFraction);
    metrics.RecordProcessed(order.category, order.region, outcome);
  }

  method ProcessRecord(metrics: DemoMetrics, record: Record, decode: Codec, work: StageWork, slowFraction: real)
    returns (slept: nat)
    requires metrics.Valid()
    modifies metrics
    ensures metrics.Valid()
    ensures metrics.updates == old(metrics.updates) + UpdatesOf(record, decode)
    ensures slept == SleepOf(record, decode, work, slowFraction)
  {
    slept := 0;
    match DecodeOrder(record.value, decode) {
      case Success(order) =>
        slept := ProcessDecodedOrder(metrics, order, work, slowFraction);
      case Failure(kind) =>
        metrics.RecordError(kind);
    }
  }

  method ProcessBatch(metrics: DemoMetrics, batch: seq<Record>, decode: Codec, work: StageWork, slowFraction: real)
    returns (slept: nat)
    requires metrics.Valid()
    modifies metrics
    ensures metrics.Valid() && metrics.updates == old(metrics.updates) + AllUpdates(batch, decode)
    ensures slept == Sleep(batch, decode, work, slowFraction)
  {
    ghost var before := metrics.updates;
    slept := 0;
    for r := 0 to |batch|
      invariant metrics.Valid() && metrics.updates == before + AllUpdates(batch[..r], decode)
      invariant slept == Sleep(batch[..r], decode, work, slowFraction)
    {
      var one := ProcessRecord(metrics, batch[r], decode, work, slowFraction);
      slept := slept + one;
      AllUpdatesPush(batch, r, decode);
      SleepPush(batch, r, decode, work, slowFraction);
      Associative(before, AllUpdates(batch[..r], decode), UpdatesOf(batch[r], decode));
    }
    assert batch[..|batch|] == batch;
  }

  /** The poll loop up to its shutdown: a batch that was polled is processed to the end. */
  method RunConsume(metrics: DemoMetrics, batches: seq<seq<Record>>, decode: Codec, work: StageWork, slowFraction: real)
    returns (slept: nat)
    requires metrics.Valid()
    modifies metrics
    ensures metrics.Valid() && metrics.updates == old(metrics.updates) + AllUpdates(Flatten(batches), decode)
    ensures slept == Sleep(Flatten(batches), decode, work, slowFraction)
  {
    ghost var before := metrics.updates;
    slept := 0;
    for b := 0 to |batches|
      invariant metrics.Valid()
      invariant metrics.updates == before + AllUpdates(Flatten(batches[..b]), decode)
      invariant slept == Sleep(Flatten(batches[..b]), decode, work, slowFraction)
    {
      var one := ProcessBatch(metrics, batches[b], decode, work, slowFraction);
      slept := slept + one;
      FlattenPush(batches, b, decode);
      FlattenSleep(batches, b, decode, work, slowFraction);
      Associative(before, AllUpdates(Flatten(batches[..b]), decode), AllUpdates(batches[b], decode));
    }
    assert batches[..|batches|] == batches;
  }
}
