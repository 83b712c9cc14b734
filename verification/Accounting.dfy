// Conservation, retries, metric labels and per-key order over whole runs.
module Accounting {
  import opened Arithmetic
  import opened Counters
  import opened Deliveries
  import opened Invariants
  import opened Orders
  import opened Preservation
  import opened Scheduler
  import opened Wrappers

  // ----- conservation and the result -----

  /** What the call returns once it has returned. */
  function CallResult(s: State): Result<SendReport, ()> {
    if s.taskError then Failure(()) else Success(s.report)
  }

  function Panicked(s: State): nat {
    Tally(s.deliveries, CrashJoined)
  }

  /** Every admitted order is acknowledged, failed, panicked or pending, at every step. */
  lemma Conservation(c: Config, es: seq<Event>)
    requires ValidRun(c, es)
    ensures var s := Final(c, es);
            && s.index == s.report.acknowledged + s.report.failed + Panicked(s) + PendingCount(s)
            && |s.joins| == s.report.acknowledged + s.report.failed + Panicked(s)
            && (forall p, q :: 0 <= p < q < |s.joins| ==> s.joins[p] != s.joins[q])
            && (forall i :: 0 <= i < |s.deliveries| ==> (i in s.joins <==> s.deliveries[i].joined))
  {
    Reachable(c, es);
    ConservationState(c, Final(c, es));
  }

  lemma ConservationState(c: Config, s: State)
    requires ConfigOk(c) && Shape(c, s) && Accounts(s) && JoinOrder(c, s)
    ensures s.index == s.report.acknowledged + s.report.failed + Panicked(s) + PendingCount(s)
    ensures |s.joins| == s.report.acknowledged + s.report.failed + Panicked(s)
    ensures forall i :: 0 <= i < |s.deliveries| ==> (i in s.joins <==> s.deliveries[i].joined)
  {
    JoinedThreeWays(s.deliveries);
    PendingOrJoined(s.deliveries);
  }

  /** The call succeeds exactly when no task panicked, and then its report covers every admitted order. */
  lemma ResultExact(c: Config, es: seq<Event>)
    requires ValidRun(c, es) && Final(c, es).phase.Returned?
    ensures var s := Final(c, es);
            && (CallResult(s).Success? <==> forall i :: 0 <= i < |s.deliveries| ==> !s.deliveries[i].stage.Crashed?)
            && (CallResult(s).Success? ==> s.report.acknowledged + s.report.failed == s.index)
            && |s.joins| == s.index
  {
    Reachable(c, es);
    ResultState(c, Final(c, es));
  }

  lemma ResultState(c: Config, s: State)
    requires ConfigOk(c) && Shape(c, s) && Accounts(s) && JoinOrder(c, s) && s.phase.Returned?
    ensures CallResult(s).Success? <==> forall i :: 0 <= i < |s.deliveries| ==> !s.deliveries[i].stage.Crashed?
    ensures CallResult(s).Success? ==> s.report.acknowledged + s.report.failed == s.index
    ensures |s.joins| == s.index
  {
    ConservationState(c, s);
    SomePending(s.deliveries);
    SomeCrash(s.deliveries);
  }

  lemma {:induction false} SomeCrash(ds: seq<Delivery>)
    requires forall i :: 0 <= i < |ds| ==> ds[i].joined
    ensures Tally(ds, CrashJoined) > 0 <==> exists i :: 0 <= i < |ds| && ds[i].stage.Crashed?
  {
    if ds != [] {
      var n := |ds| - 1;
      SomeCrash(ds[..n]);
      if i :| 0 <= i < |ds| && ds[i].stage.Crashed? {
        if i < n { assert ds[..n][i].stage.Crashed?; }
      }
      if Tally(ds[..n], CrashJoined) > 0 {
        var i :| 0 <= i < n && ds[..n][i].stage.Crashed?;
        assert ds[i].stage.Crashed?;
      }
    }
  }

  // ----- retries -----

  /**
   * At every step the log holds as many sends as the deliveries made attempts,
   * a failed answer for every send error, a success for every acknowledgement,
   * and the amounts of exactly the acknowledged orders.
   */
  lemma LogAccounting(c: Config, es: seq<Event>)
    requires ValidRun(c, es)
    ensures var s := Final(c, es);
            && Entries(s.log, IsSent) == Tally(s.deliveries, Attempts)
            && Entries(s.log, IsFailure) == s.sendErrors
            && Entries(s.log, IsSuccess) == Total(s.produced)
            && forall x: real :: Entries(s.log, Observes(x)) == Tally(s.deliveries, AckOf(x))
  {
    Reachable(c, es);
    LogAccountingState(Final(c, es));
  }

  lemma LogAccountingState(s: State)
    requires Accounts(s) && LogTallies(s)
    ensures Entries(s.log, IsSent) == Tally(s.deliveries, Attempts)
    ensures Entries(s.log, IsFailure) == s.sendErrors && Entries(s.log, IsSuccess) == Total(s.produced)
    ensures forall x: real :: Entries(s.log, Observes(x)) == Tally(s.deliveries, AckOf(x))
  {
    forall x: real
      ensures Entries(s.log, Observes(x)) == Tally(s.deliveries, AckOf(x))
    {
      assert LogTally(s, Observes(x), AckOf(x));
    }
  }

  /**
   * After the drain every order that did not panic made one to three attempts,
   * send errors are the attempts that were answered but not acknowledged, and
   * the produced counters add up to the acknowledged orders.
   */
  lemma RetryAccounting(c: Config, es: seq<Event>)
    requires ValidRun(c, es) && Final(c, es).phase.Returned?
    ensures var s := Final(c, es);
            var attempts := Tally(s.deliveries, Attempts);
            && (forall i :: 0 <= i < |s.deliveries| ==>
                  Attempts(s.deliveries[i]) <= 3 && (s.deliveries[i].stage.Done? ==> Attempts(s.deliveries[i]) >= 1))
            && 3 * s.report.failed <= s.sendErrors <= 3 * s.report.failed + 2 * s.report.acknowledged + 2 * Panicked(s)
            && s.sendErrors + s.report.acknowledged <= attempts <= s.sendErrors + s.report.acknowledged + Panicked(s)
            && Total(s.produced) == s.report.acknowledged
  {
    Reachable(c, es);
    RetryState(c, Final(c, es));
  }

  lemma RetryState(c: Config, s: State)
    requires Shape(c, s) && Accounts(s) && s.phase.Returned?
    ensures forall i :: 0 <= i < |s.deliveries| ==>
              Attempts(s.deliveries[i]) <= 3 && (s.deliveries[i].stage.Done? ==> Attempts(s.deliveries[i]) >= 1)
    ensures 3 * s.report.failed <= s.sendErrors <= 3 * s.report.failed + 2 * s.report.acknowledged + 2 * Panicked(s)
    ensures var attempts := Tally(s.deliveries, Attempts);
            s.sendErrors + s.report.acknowledged <= attempts <= s.sendErrors + s.report.acknowledged + Panicked(s)
    ensures Total(s.produced) == s.report.acknowledged
  {
    RetryBounds(s.deliveries);
    forall i | 0 <= i < |s.deliveries|
      ensures Attempts(s.deliveries[i]) <= 3 && (s.deliveries[i].stage.Done? ==> Attempts(s.deliveries[i]) >= 1)
    {
      assert DeliveryOk(s.deliveries[i]);
    }
  }

  /** Without panics the accounts close exactly. */
  lemma RetryAccountingExact(c: Config, es: seq<Event>)
    requires ValidRun(c, es) && Final(c, es).phase.Returned? && CallResult(Final(c, es)).Success?
    ensures var s := Final(c, es);
            && s.sendErrors == Tally(s.deliveries, Attempts) - s.report.acknowledged
            && 3 * s.report.failed <= s.sendErrors <= 3 * s.report.failed + 2 * s.report.acknowledged
  {
    Reachable(c, es);
    RetryState(c, Final(c, es));
    assert Panicked(Final(c, es)) == 0;
  }

  // ----- labels -----

  /** The produced family never holds more than the 80 generated labels ... */
  lemma BoundedLabels(c: Config, es: seq<Event>)
    requires ValidRun(c, es)
    ensures var s := Final(c, es);
            && s.produced.Keys <= AllLabels() && |s.produced.Keys| <= 80
            && forall tag :: Get(s.produced, tag) == Tally(s.deliveries, AckedWith(tag))
  {
    Reachable(c, es);
    var s := Final(c, es);
    LabelsAreGenerated(c, s);
    forall tag
      ensures Get(s.produced, tag) == Tally(s.deliveries, AckedWith(tag))
    {
      LabelTallyIs(s.deliveries, tag);
    }
  }

  /** Acknowledged, with the category, region and payment method the label names. */
  function AckedWith(tag: ProducedLabel): Delivery -> nat {
    (d: Delivery) =>
      One(d.stage == Done(true) && d.order.category == tag.category && d.order.region == tag.region
          && d.order.paymentMethod == tag.paymentMethod)
  }

  lemma {:induction false} LabelTallyIs(ds: seq<Delivery>, tag: ProducedLabel)
    ensures LabelTally(ds, tag) == Tally(ds, AckedWith(tag))
  {
    if ds != [] {
      LabelTallyIs(ds[..|ds| - 1], tag);
    }
  }

  lemma LabelsAreGenerated(c: Config, s: State)
    requires Shape(c, s) && Labels(s)
    ensures s.produced.Keys <= AllLabels() && |s.produced.Keys| <= 80
  {
    GeneratorCoverage(0);
    forall tag | tag in s.produced
      ensures tag in AllLabels()
    {
      LabelTallyPositive(s.deliveries, tag);
      var i :| 0 <= i < |s.deliveries| && LabelWeight(s.deliveries[i], tag) == 1;
      assert Genuine(c, i, s.deliveries[i]);
      assert LabelOf(OrderAt(i)) == tag;
    }
    SubsetSize(s.produced.Keys, AllLabels());
  }

  lemma SubsetSize<T>(a: set<T>, b: set<T>)
    requires a <= b
    ensures |a| <= |b|
  {
    assert b == a + (b - a);
  }

  /** ... and holds all of them once any 120 consecutive orders are acknowledged. */
  lemma AllLabelsAppear(c: Config, es: seq<Event>, lo: nat)
    requires ValidRun(c, es) && AcknowledgedFrom(Final(c, es), lo, 120)
    ensures Final(c, es).produced.Keys == AllLabels() && |Final(c, es).produced.Keys| == 80
  {
    Reachable(c, es);
    AllLabelsState(c, Final(c, es), lo);
  }

  ghost predicate AcknowledgedFrom(s: State, lo: nat, n: nat) {
    lo + n <= |s.deliveries| && forall i :: lo <= i < lo + n ==> s.deliveries[i].stage == Done(true)
  }

  lemma TagAppears(c: Config, s: State, lo: nat, tag: ProducedLabel)
    requires Shape(c, s) && Labels(s) && AcknowledgedFrom(s, lo, 120) && tag in AllLabels()
    ensures tag in s.produced
  {
    var k: nat :| k < 80 && LabelAt(k) == tag;
    var i := LabelOccurs(lo, k);
    LabelAppears(c, s, i);
  }

  lemma AllLabelsState(c: Config, s: State, lo: nat)
    requires Shape(c, s) && Labels(s) && AcknowledgedFrom(s, lo, 120)
    ensures s.produced.Keys == AllLabels() && |s.produced.Keys| == 80
  {
    LabelsAreGenerated(c, s);
    LabelCardinality();
    forall tag | tag in AllLabels()
      ensures tag in s.produced.Keys
    {
      TagAppears(c, s, lo, tag);
    }
  }

  lemma LabelAppears(c: Config, s: State, i: nat)
    requires Shape(c, s) && Labels(s) && i < s.index && s.deliveries[i].stage == Done(true)
    ensures LabelOf(OrderAt(i)) in s.produced
  {
    var tag := LabelOf(OrderAt(i));
    assert Genuine(c, i, s.deliveries[i]);
    assert LabelWeight(s.deliveries[i], tag) == 1;
    LabelTallyPositive(s.deliveries, tag);
  }

  // ----- per-key order -----

  /**
   * Everything the producer sends for one key is, in every reachable state, the
   * logs of the orders of that key one after the other in index order; the
   * attempts of an order all carry its one record, keyed by its category.
   */
  lemma PerKeyOrder(c: Config, es: seq<Event>)
    requires ValidRun(c, es)
    ensures var s := Final(c, es);
            && (forall key :: ByKey(s.log, key) == KeyLog(s.deliveries, key))
            && s.index == |s.deliveries| && (forall p :: 0 <= p < |s.log| ==> s.log[p].index < |s.deliveries|)
            && (forall p, q :: 0 <= p < q < |s.log| && Key(s.log[p].index) == Key(s.log[q].index) ==>
                  s.log[p].index <= s.log[q].index)
            && (forall p :: 0 <= p < |s.log| && s.log[p].Sent? ==>
                  && s.log[p].record == s.deliveries[s.log[p].index].record
                  && s.log[p].record.topic == c.topic
                  && s.log[p].record.key == Some(Key(s.log[p].index))
                  && s.log[p].record.value == Some(Stamped(s.log[p].index)))
  {
    Reachable(c, es);
    PerKeyState(c, Final(c, es));
  }

  lemma PerKeyState(c: Config, s: State)
    requires Shape(c, s) && Logs(s)
    ensures forall p :: 0 <= p < |s.log| && s.log[p].Sent? ==>
              && s.log[p].record == s.deliveries[s.log[p].index].record
              && s.log[p].record.topic == c.topic
              && s.log[p].record.key == Some(Key(s.log[p].index))
              && s.log[p].record.value == Some(Stamped(s.log[p].index))
  {
    forall p | 0 <= p < |s.log| && s.log[p].Sent?
      ensures s.log[p].record.topic == c.topic
      ensures s.log[p].record.key == Some(Key(s.log[p].index)) && s.log[p].record.value == Some(Stamped(s.log[p].index))
    {
      var i := s.log[p].index;
      assert Genuine(c, i, s.deliveries[i]);
    }
  }
}
