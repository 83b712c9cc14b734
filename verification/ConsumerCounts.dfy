// What the consumer's counters say about the records it has polled.
module ConsumerCounts {
  import opened Arithmetic
  import opened Consumer
  import opened Counters
  import opened Counting
  import opened Metrics
  import opened Orders
  import opened Pipeline
  import opened Wrappers
  import OrderIds

  /** How many records are of one kind. */
  function Tallied(records: seq<Record>, kind: Record -> bool): nat {
    if records == [] then 0 else Tallied(records[..|records| - 1], kind) + One(kind(records[|records| - 1]))
  }

  predicate IsMissing(r: Record) { r.value.None? }
  predicate IsDecodable(r: Record, decode: Codec) { r.value.Some? && decode(r.value.value).Success? }
  predicate IsUndecodable(r: Record, decode: Codec) { r.value.Some? && decode(r.value.value).Failure? }

  function StageCount(c: Counts, k: nat): nat
    requires k < |STAGES|
  {
    Get(c.stages, STAGES[k])
  }

  /** Between two records the four stage counts and the processed total agree. */
  ghost predicate Balanced(c: Counts) {
    && StageCount(c, 0) == StageCount(c, 1) == StageCount(c, 2) == StageCount(c, 3) == Total(c.processed)
  }

  /** At any moment they fall from stage to stage, by at most one in all. */
  ghost predicate Chain(c: Counts) {
    && StageCount(c, 0) >= StageCount(c, 1) >= StageCount(c, 2) >= StageCount(c, 3) >= Total(c.processed)
    && StageCount(c, 0) <= Total(c.processed) + 1
  }

  lemma AddStage(c: Counts, k: nat)
    requires k < |STAGES|
    ensures var d := c.Add(Staged(STAGES[k]));
            && d.processed == c.processed && d.errors == c.errors
            && forall j :: 0 <= j < |STAGES| ==> StageCount(d, j) == StageCount(c, j) + (if j == k then 1 else 0)
  {
    StageNames();
  }

  lemma {:induction false} ReplayConcat(us: seq<Update>, vs: seq<Update>, u: Update)
    ensures Replay(us + (vs + [u])) == Replay(us + vs).Add(u)
  {
    assert us + (vs + [u]) == us + vs + [u];
    ReplayPush(us + vs, u);
  }

  /** The first `n` stages of one more record on top of balanced counts. */
  lemma {:induction false} SomeStages(us: seq<Update>, n: nat)
    requires n <= |STAGES| && Balanced(Replay(us))
    ensures var c, d := Replay(us), Replay(us + StageUpdates(n));
            && d.processed == c.processed && d.errors == c.errors
            && forall j :: 0 <= j < |STAGES| ==> StageCount(d, j) == StageCount(c, j) + (if j < n then 1 else 0)
  {
    if n == 0 {
      assert us + [] == us;
    } else {
      SomeStages(us, n - 1);
      ReplayConcat(us, StageUpdates(n - 1), Staged(STAGES[n - 1]));
      AddStage(Replay(us + StageUpdates(n - 1)), n - 1);
    }
  }

  lemma {:induction false} OneOrder(us: seq<Update>, order: Order)
    requires Balanced(Replay(us))
    ensures var c, d := Replay(us), Replay(us + RecordUpdates(Success(order)));
            && Balanced(d) && d.errors == c.errors && Total(d.processed) == Total(c.processed) + 1
  {
    var tag := ProcessedLabel(order.category, order.region, ClassifyOutcome(order));
    SomeStages(us, |STAGES|);
    ReplayConcat(us, StageUpdates(|STAGES|), Processed(tag));
    BumpTotal(Replay(us).processed, tag);
  }

  lemma {:induction false} OneError(us: seq<Update>, kind: ErrorKind)
    requires Balanced(Replay(us))
    ensures var c, d := Replay(us), Replay(us + RecordUpdates(Failure(kind)));
            && Balanced(d) && d.processed == c.processed && d.errors == Bump(c.errors, ErrorLabel(kind))
  {
    ReplayPush(us, Failed(kind));
  }

  lemma ErrorLabelsDiffer()
    ensures ErrorLabel(MissingValue) != ErrorLabel(Deserialize)
  {
    assert ErrorLabel(MissingValue)[0] == 'm' && ErrorLabel(Deserialize)[0] == 'd';
  }

  /** One more record of whatever kind. */
  lemma {:induction false} OneRecord(us: seq<Update>, r: Record, decode: Codec)
    requires Balanced(Replay(us))
    ensures var c, d := Replay(us), Replay(us + UpdatesOf(r, decode));
            && Balanced(d)
            && Total(d.processed) == Total(c.processed) + One(IsDecodable(r, decode))
            && Get(d.errors, ErrorLabel(MissingValue)) == Get(c.errors, ErrorLabel(MissingValue)) + One(IsMissing(r))
            && Get(d.errors, ErrorLabel(Deserialize)) == Get(c.errors, ErrorLabel(Deserialize)) + One(IsUndecodable(r, decode))
  {
    ErrorLabelsDiffer();
    match DecodeOrder(r.value, decode)
    case Success(order) => OneOrder(us, order);
    case Failure(kind) => OneError(us, kind);
  }

  /** What the counters hold after `records`, started from nothing. */
  ghost predicate Accounted(c: Counts, records: seq<Record>, decode: Codec) {
    && Balanced(c)
    && Total(c.processed) == Tallied(records, r => IsDecodable(r, decode))
    && Get(c.errors, ErrorLabel(MissingValue)) == Tallied(records, r => IsMissing(r))
    && Get(c.errors, ErrorLabel(Deserialize)) == Tallied(records, r => IsUndecodable(r, decode))
  }

  lemma {:induction false} CountersKeep(records: seq<Record>, decode: Codec)
    ensures Accounted(Replay(AllUpdates(records, decode)), records, decode)
  {
    if records == [] {
      assert Balanced(NO_COUNTS);
    } else {
      var n := |records| - 1;
      CountersKeep(records[..n], decode);
      OneRecord(AllUpdates(records[..n], decode), records[n], decode);
    }
  }

  lemma {:induction false} ThreeKinds(records: seq<Record>, decode: Codec)
    ensures |records| == Tallied(records, r => IsDecodable(r, decode)) + Tallied(records, r => IsMissing(r))
                       + Tallied(records, r => IsUndecodable(r, decode))
  {
    if records != [] {
      ThreeKinds(records[..|records| - 1], decode);
    }
  }

  /**
   * After any sequence of polled records each of them is in exactly one of
   * processed, missing_value and deserialize, and every stage has been
   * observed once per processed order.
   */
  lemma {:induction false} ConsumerAccounting(records: seq<Record>, decode: Codec)
    ensures var c := Replay(AllUpdates(records, decode));
            && Total(c.processed) == Tallied(records, r => IsDecodable(r, decode))
            && Get(c.errors, "missing_value") == Tallied(records, r => IsMissing(r))
            && Get(c.errors, "deserialize") == Tallied(records, r => IsUndecodable(r, decode))
            && |records| == Total(c.processed) + Get(c.errors, "missing_value") + Get(c.errors, "deserialize")
            && Get(c.stages, "validate") == Get(c.stages, "enrich") == Get(c.stages, "fraud_check")
               == Get(c.stages, "fulfill") == Total(c.processed)
  {
    CountersKeep(records, decode);
    ThreeKinds(records, decode);
    StageNames();
    BalancedNames(Replay(AllUpdates(records, decode)));
  }

  lemma BalancedNames(c: Counts)
    requires Balanced(c)
    ensures Get(c.stages, "validate") == Get(c.stages, "enrich") == Get(c.stages, "fraud_check")
            == Get(c.stages, "fulfill") == Total(c.processed)
  {
    StageNames();
    assert StageCount(c, 0) == StageCount(c, 1) == StageCount(c, 2) == StageCount(c, 3) == Total(c.processed);
  }

  /** Midway through the updates of one record. */
  lemma {:induction false} MidRecord(us: seq<Update>, decoded: Result<Order, ErrorKind>, vs: seq<Update>)
    requires Balanced(Replay(us)) && vs <= RecordUpdates(decoded) && vs != RecordUpdates(decoded)
    ensures Chain(Replay(us + vs))
  {
    match decoded
    case Failure(_) =>
      assert us + vs == us;
    case Success(order) =>
      MidOrder(order, vs);
      SomeStages(us, |vs|);
      ChainAt(Replay(us), Replay(us + vs), |vs|);
  }

  lemma {:induction false} MidOrder(order: Order, vs: seq<Update>)
    requires vs <= RecordUpdates(Success(order)) && vs != RecordUpdates(Success(order))
    ensures |vs| <= |STAGES| && vs == StageUpdates(|vs|)
  {
    var stages := StageUpdates(|STAGES|);
    StagePrefix(|STAGES|, 0);
    assert |vs| <= |stages|;
    assert vs == stages[..|vs|];
    StagePrefix(|STAGES|, |vs|);
  }

  lemma ChainAt(c: Counts, d: Counts, n: nat)
    requires Balanced(c) && d.processed == c.processed
    requires forall j :: 0 <= j < |STAGES| ==> StageCount(d, j) == StageCount(c, j) + (if j < n then 1 else 0)
    ensures Chain(d)
  {
  }

  lemma {:induction false} StagePrefix(n: nat, k: nat)
    requires k <= n <= |STAGES|
    ensures |StageUpdates(n)| == n && StageUpdates(n)[..k] == StageUpdates(k)
  {
    if n != 0 {
      StagePrefix(n - 1, if k < n then k else n - 1);
      if k < n {
        assert StageUpdates(n)[..k] == StageUpdates(n - 1)[..k];
      } else {
        assert StageUpdates(n)[..n] == StageUpdates(n);
      }
    }
  }

  lemma {:induction false} ChainKeeps(records: seq<Record>, decode: Codec, us: seq<Update>)
    requires us <= AllUpdates(records, decode)
    ensures Chain(Replay(us))
  {
    CountersKeep(records, decode);
    if us != AllUpdates(records, decode) {
      var n := |records| - 1;
      var before := AllUpdates(records[..n], decode);
      if |us| <= |before| {
        assert us <= before;
        ChainKeeps(records[..n], decode, us);
      } else {
        CountersKeep(records[..n], decode);
        var vs := us[|before|..];
        assert us == before + vs;
        MidRecord(before, DecodeOrder(records[n].value, decode), vs);
      }
    }
  }

  /** At every moment, between any two metric updates, the counts fall from stage to stage, by one at most. */
  lemma {:induction false} ChainAlways(records: seq<Record>, decode: Codec, us: seq<Update>)
    requires us <= AllUpdates(records, decode)
    ensures var c := Replay(us);
            && Get(c.stages, "validate") >= Get(c.stages, "enrich") >= Get(c.stages, "fraud_check")
               >= Get(c.stages, "fulfill") >= Total(c.processed)
            && Get(c.stages, "validate") <= Total(c.processed) + 1
  {
    ChainKeeps(records, decode, us);
    ChainNames(Replay(us));
  }

  lemma ChainNames(c: Counts)
    requires Chain(c)
    ensures Get(c.stages, "validate") >= Get(c.stages, "enrich") >= Get(c.stages, "fraud_check")
            >= Get(c.stages, "fulfill") >= Total(c.processed)
    ensures Get(c.stages, "validate") <= Total(c.processed) + 1
  {
    StageNames();
    assert StageCount(c, 0) >= StageCount(c, 1) >= StageCount(c, 2) >= StageCount(c, 3) >= Total(c.processed);
  }

  // ----- labels -----

  /** The record decodes to an order of the category, region and outcome the label names. */
  predicate HasLabel(r: Record, decode: Codec, tag: ProcessedLabel) {
    && IsDecodable(r, decode)
    && var order := decode(r.value.value).value;
       order.category == tag.category && order.region == tag.region && ClassifyOutcome(order) == tag.outcome
  }

  lemma {:induction false} OneProcessed(us: seq<Update>, order: Order)
    requires Balanced(Replay(us))
    ensures Replay(us + RecordUpdates(Success(order))).processed
         == Bump(Replay(us).processed, ProcessedLabel(order.category, order.region, ClassifyOutcome(order)))
  {
    SomeStages(us, |STAGES|);
    ReplayConcat(us, StageUpdates(|STAGES|), Processed(ProcessedLabel(order.category, order.region, ClassifyOutcome(order))));
  }

  lemma {:induction false} OneLabel(us: seq<Update>, r: Record, decode: Codec, tag: ProcessedLabel)
    requires Balanced(Replay(us))
    ensures var m, n := Replay(us).processed, Replay(us + UpdatesOf(r, decode)).processed;
            && Get(n, tag) == Get(m, tag) + One(HasLabel(r, decode, tag))
            && (tag in n <==> tag in m || HasLabel(r, decode, tag))
  {
    match DecodeOrder(r.value, decode)
    case Success(order) => OneProcessed(us, order);
    case Failure(kind) => OneError(us, kind);
  }

  /**
   * Every processed counter holds the number of records that decode to an order
   * of its category, region and outcome, and there is none without such a record.
   */
  lemma {:induction false} ProcessedExact(records: seq<Record>, decode: Codec, tag: ProcessedLabel)
    ensures var m := Replay(AllUpdates(records, decode)).processed;
            && Get(m, tag) == Tallied(records, r => HasLabel(r, decode, tag))
            && (tag in m <==> Tallied(records, r => HasLabel(r, decode, tag)) > 0)
  {
    if records != [] {
      var n := |records| - 1;
      ProcessedExact(records[..n], decode, tag);
      CountersKeep(records[..n], decode);
      OneLabel(AllUpdates(records[..n], decode), records[n], decode, tag);
    }
  }

  // ----- outcomes -----

  /** The processed orders with a given outcome, over all labels. */
  ghost function OutcomeTotal(m: map<ProcessedLabel, nat>, o: Outcome): nat {
    Total(map tag | tag in m && tag.outcome == o :: m[tag])
  }

  lemma NoOutcomes(o: Outcome)
    ensures OutcomeTotal(map[], o) == 0
  {
    var none: map<ProcessedLabel, nat> := map[];
    var m := map tag | tag in none && tag.outcome == o :: none[tag];
    assert m.Keys == {};
    assert m == map[];
  }

  /** The outcome totals after one more record. */
  lemma {:induction false} OneOutcome(us: seq<Update>, r: Record, decode: Codec, o: Outcome)
    requires Balanced(Replay(us))
    ensures OutcomeTotal(Replay(us + UpdatesOf(r, decode)).processed, o)
         == OutcomeTotal(Replay(us).processed, o) + One(HasResult(r, decode, o))
  {
    match DecodeOrder(r.value, decode)
    case Success(order) =>
      var tag := ProcessedLabel(order.category, order.region, ClassifyOutcome(order));
      OneProcessed(us, order);
      OutcomeBump(Replay(us).processed, tag, o);
    case Failure(kind) =>
      OneError(us, kind);
  }

  lemma OutcomeBump(m: map<ProcessedLabel, nat>, tag: ProcessedLabel, o: Outcome)
    ensures OutcomeTotal(Bump(m, tag), o) == OutcomeTotal(m, o) + (if tag.outcome == o then 1 else 0)
  {
    var before := map t | t in m && t.outcome == o :: m[t];
    var after := map t | t in Bump(m, tag) && t.outcome == o :: Bump(m, tag)[t];
    if tag.outcome == o {
      assert after == Bump(before, tag);
      BumpTotal(before, tag);
    } else {
      assert after == before;
    }
  }

  predicate HasResult(r: Record, decode: Codec, o: Outcome) {
    IsDecodable(r, decode) && ClassifyOutcome(decode(r.value.value).value) == o
  }

  lemma {:induction false} OutcomesCounted(records: seq<Record>, decode: Codec, o: Outcome)
    ensures OutcomeTotal(Replay(AllUpdates(records, decode)).processed, o) == Tallied(records, r => HasResult(r, decode, o))
  {
    if records == [] {
      NoOutcomes(o);
    } else {
      var n := |records| - 1;
      OutcomesCounted(records[..n], decode, o);
      CountersKeep(records[..n], decode);
      OneOutcome(AllUpdates(records[..n], decode), records[n], decode, o);
    }
  }

  /** The records hold the generated orders `lo, lo + 1, ...`, whatever their stamps. */
  ghost predicate Carries(records: seq<Record>, decode: Codec, lo: nat) {
    forall k :: 0 <= k < |records| ==> CarriesAt(records[k], decode, lo + k)
  }

  predicate IsGenerated(order: Order, i: nat) {
    order == OrderAt(i).(tsMs := order.tsMs)
  }

  lemma StampIrrelevant(order: Order, i: nat)
    requires IsGenerated(order, i)
    ensures ClassifyOutcome(order) == ClassifyOutcome(OrderAt(i))
  {
  }

  ghost predicate CarriesAt(r: Record, decode: Codec, i: nat) {
    IsDecodable(r, decode) && IsGenerated(decode(r.value.value).value, i)
  }

  lemma OneGenerated(r: Record, decode: Codec, i: nat, o: Outcome)
    requires CarriesAt(r, decode, i)
    ensures HasResult(r, decode, o) == HasOutcome(o)(i)
  {
    StampIrrelevant(decode(r.value.value).value, i);
  }

  lemma CarriesPrefix(records: seq<Record>, decode: Codec, lo: nat)
    requires records != [] && Carries(records, decode, lo)
    ensures Carries(records[..|records| - 1], decode, lo)
    ensures CarriesAt(records[|records| - 1], decode, lo + |records| - 1)
  {
  }

  lemma {:induction false} OutcomesOfGenerated(records: seq<Record>, decode: Codec, lo: nat, o: Outcome)
    requires Carries(records, decode, lo)
    ensures Tallied(records, r => HasResult(r, decode, o)) == Count(HasOutcome(o), lo, |records|)
  {
    if records != [] {
      var n := |records| - 1;
      CarriesPrefix(records, decode, lo);
      OutcomesOfGenerated(records[..n], decode, lo, o);
      OneGenerated(records[n], decode, lo + n, o);
    }
  }

  /** From generator to dashboard: any 10,200 consecutive orders show up as 600, 608 and 8,992. */
  lemma {:induction false} ConsumedOutcomes(records: seq<Record>, decode: Codec, lo: nat)
    requires Carries(records, decode, lo) && |records| == OUTCOME_PERIOD
    ensures var processed := Replay(AllUpdates(records, decode)).processed;
            && OutcomeTotal(processed, Anomalous) == 600
            && OutcomeTotal(processed, FraudRejected) == 608
            && OutcomeTotal(processed, Fulfilled) == 8992
  {
    OutcomesCounted(records, decode, Anomalous);
    OutcomesCounted(records, decode, FraudRejected);
    OutcomesCounted(records, decode, Fulfilled);
    OutcomesOfGenerated(records, decode, lo, Anomalous);
    OutcomesOfGenerated(records, decode, lo, FraudRejected);
    OutcomesOfGenerated(records, decode, lo, Fulfilled);
    OutcomeCounts(lo, |records|);
  }

  // ----- sleep -----

  /** The record decodes to an order whose id says it is slow. */
  predicate IsSlow(r: Record, decode: Codec, f: real) {
    IsDecodable(r, decode) && InjectLatency(OrderIds.OrderIndex(decode(r.value.value).value.orderId), f)
  }

  lemma OneSleep(r: Record, decode: Codec, work: StageWork, f: real)
    ensures SleepOf(r, decode, work, f)
         == One(IsDecodable(r, decode)) * (work.validate + work.enrich + work.fraudCheck + work.fulfill)
            + One(IsSlow(r, decode, f)) * 120_000_000
  {
    if IsDecodable(r, decode) {
      OrderDelayExact(decode(r.value.value).value, work, f);
    }
  }

  lemma Distribute(a: nat, b: nat, x: nat)
    ensures (a + b) * x == a * x + b * x
  {
  }

  /** All in all: the base work per decoded order, and 120 ms per slow one. */
  lemma {:induction false} SleepExact(records: seq<Record>, decode: Codec, work: StageWork, f: real)
    ensures Sleep(records, decode, work, f)
         == Tallied(records, r => IsDecodable(r, decode)) * (work.validate + work.enrich + work.fraudCheck + work.fulfill)
            + Tallied(records, r => IsSlow(r, decode, f)) * 120_000_000
  {
    if records != [] {
      var n := |records| - 1;
      SleepExact(records[..n], decode, work, f);
      OneSleep(records[n], decode, work, f);
      Distribute(Tallied(records[..n], r => IsDecodable(r, decode)), One(IsDecodable(records[n], decode)),
                 work.validate + work.enrich + work.fraudCheck + work.fulfill);
    }
  }
}
