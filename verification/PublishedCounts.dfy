// The metrics as the scheduler counts them and as the publishing code updates them agree.
module PublishedCounts {
  import opened Accounting
  import opened Counters
  import opened Deliveries
  import opened Invariants
  import opened Metrics
  import opened Orders
  import opened Preservation
  import opened Publishing
  import opened Scheduler
  import opened Wrappers

  /** The updates a delivery has made so far. */
  function UpdatesMade(d: Delivery): seq<Update> {
    SendErrors(d.results) + (if d.stage == Done(true) then [Produced(LabelOf(d.order), d.order.amount)] else [])
  }

  /** ... and those of all deliveries, one delivery after the other. */
  function Published(ds: seq<Delivery>): seq<Update> {
    if ds == [] then [] else Published(ds[..|ds| - 1]) + UpdatesMade(ds[|ds| - 1])
  }

  /** The updates of a finished delivery are those its publishing call makes. */
  lemma FinishedUpdates(d: Delivery)
    requires DeliveryOk(d) && d.stage.Done?
    ensures UpdatesMade(d) == PublishUpdates(d.order, d.results)
  {
  }

  function SendErrorCount(c: Counts): nat {
    Get(c.errors, "producer_send")
  }

  lemma {:induction false} OneMoreError(us: seq<Update>, vs: seq<Update>)
    ensures var c, d := Replay(us + vs), Replay(us + (vs + [Failed(ProducerSend)]));
            && SendErrorCount(d) == SendErrorCount(c) + 1
            && d.produced == c.produced && d.dollars == c.dollars
  {
    Associative(us, vs, [Failed(ProducerSend)]);
    ReplayPush(us + vs, Failed(ProducerSend));
  }

  /** Failed attempts touch nothing but their own error counter. */
  lemma {:induction false} OnlyErrors(us: seq<Update>, results: seq<bool>)
    ensures var c, d := Replay(us), Replay(us + SendErrors(results));
            && SendErrorCount(d) == SendErrorCount(c) + |SendErrors(results)|
            && d.produced == c.produced && d.dollars == c.dollars
  {
    if results == [] {
      assert us + [] == us;
    } else {
      var init := results[..|results| - 1];
      OnlyErrors(us, init);
      OneMoreError(us, SendErrors(init));
      assert results[|results| - 1] ==> SendErrors(results) == SendErrors(init);
    }
  }

  lemma {:induction false} AllFailedErrors(results: seq<bool>)
    requires AllFailed(results)
    ensures |SendErrors(results)| == |results|
  {
    if results != [] {
      AllFailedErrors(results[..|results| - 1]);
    }
  }

  lemma ErrorsOfDelivery(d: Delivery)
    requires DeliveryOk(d)
    ensures |SendErrors(d.results)| == Errors(d)
  {
    if d.stage.Done? {
      AllFailedErrors(d.results[..|d.results| - 1]);
    } else {
      AllFailedErrors(d.results);
    }
  }

  /** One delivery's updates on top of `us`. */
  lemma {:induction false} OnePublished(us: seq<Update>, d: Delivery)
    requires DeliveryOk(d)
    ensures var c, e := Replay(us), Replay(us + UpdatesMade(d));
            && SendErrorCount(e) == SendErrorCount(c) + Errors(d)
            && e.dollars == c.dollars + (if d.stage == Done(true) then [d.order.amount] else [])
            && e.produced == if d.stage == Done(true) then Bump(c.produced, LabelOf(d.order)) else c.produced
  {
    OnlyErrors(us, d.results);
    ErrorsOfDelivery(d);
    var errors := us + SendErrors(d.results);
    if d.stage == Done(true) {
      var u := Produced(LabelOf(d.order), d.order.amount);
      assert us + UpdatesMade(d) == errors + [u];
      ReplayPush(errors, u);
    } else {
      assert us + UpdatesMade(d) == errors;
    }
  }

  ghost predicate CountsMatch(c: Counts, ds: seq<Delivery>) {
    && SendErrorCount(c) == Tally(ds, Errors)
    && (forall x: real :: multiset(c.dollars)[x] == Tally(ds, AckOf(x)))
    && forall tag :: Get(c.produced, tag) == LabelTally(ds, tag) && (tag in c.produced <==> LabelTally(ds, tag) > 0)
  }

  /** What one more delivery adds to the counts. */
  ghost predicate Adds(c: Counts, d: Delivery, e: Counts) {
    && SendErrorCount(e) == SendErrorCount(c) + Errors(d)
    && e.dollars == c.dollars + (if d.stage == Done(true) then [d.order.amount] else [])
    && e.produced == if d.stage == Done(true) then Bump(c.produced, LabelOf(d.order)) else c.produced
  }

  lemma AddsAmount(c: Counts, d: Delivery, e: Counts, x: real)
    requires Adds(c, d, e)
    ensures multiset(e.dollars)[x] == multiset(c.dollars)[x] + AckOf(x)(d)
  {
  }

  lemma {:induction false} AddsLabel(c: Counts, ds: seq<Delivery>, d: Delivery, e: Counts, tag: ProducedLabel)
    requires Adds(c, d, e)
    requires Get(c.produced, tag) == LabelTally(ds, tag) && (tag in c.produced <==> LabelTally(ds, tag) > 0)
    ensures Get(e.produced, tag) == LabelTally(ds + [d], tag) && (tag in e.produced <==> LabelTally(ds + [d], tag) > 0)
  {
    LabelTallyPush(ds, d, tag);
  }

  lemma MatchesPush(c: Counts, ds: seq<Delivery>, d: Delivery, e: Counts)
    requires CountsMatch(c, ds) && Adds(c, d, e)
    ensures CountsMatch(e, ds + [d])
  {
    TallyPush(ds, d, Errors);
    forall x: real
      ensures multiset(e.dollars)[x] == Tally(ds + [d], AckOf(x))
    {
      AddsAmount(c, d, e, x);
      TallyPush(ds, d, AckOf(x));
    }
    forall tag
      ensures Get(e.produced, tag) == LabelTally(ds + [d], tag) && (tag in e.produced <==> LabelTally(ds + [d], tag) > 0)
    {
      AddsLabel(c, ds, d, e, tag);
    }
  }

  lemma {:induction false} PublishedMatches(ds: seq<Delivery>)
    requires forall i :: 0 <= i < |ds| ==> DeliveryOk(ds[i])
    ensures CountsMatch(Replay(Published(ds)), ds)
  {
    if ds != [] {
      var n := |ds| - 1;
      PublishedMatches(ds[..n]);
      OnePublished(Published(ds[..n]), ds[n]);
      MatchesPush(Replay(Published(ds[..n])), ds[..n], ds[n], Replay(Published(ds)));
      assert ds[..n] + [ds[n]] == ds;
    }
  }

  /**
   * However the deliveries of a run are interleaved, at every step its error and
   * produced counters are those of making the deliveries' updates one delivery
   * after the other, and so are the amounts its log says were acknowledged.
   */
  lemma CountersAgree(c: Config, es: seq<Event>)
    requires ValidRun(c, es)
    ensures var s := Final(c, es);
            var m := Replay(Published(s.deliveries));
            && m.produced == s.produced && SendErrorCount(m) == s.sendErrors
            && forall x: real :: multiset(m.dollars)[x] == Entries(s.log, Observes(x)) == Tally(s.deliveries, AckOf(x))
  {
    Reachable(c, es);
    CountersState(c, Final(c, es));
  }

  lemma CountersState(c: Config, s: State)
    requires Shape(c, s) && Accounts(s) && Labels(s) && LogTallies(s)
    ensures var m := Replay(Published(s.deliveries));
            && m.produced == s.produced && SendErrorCount(m) == s.sendErrors
            && forall x: real :: multiset(m.dollars)[x] == Entries(s.log, Observes(x)) == Tally(s.deliveries, AckOf(x))
  {
    PublishedMatches(s.deliveries);
    SameCounters(s, Replay(Published(s.deliveries)));
    LogAccountingState(s);
  }

  lemma SameCounters(s: State, m: Counts)
    requires Accounts(s) && Labels(s) && CountsMatch(m, s.deliveries)
    ensures m.produced == s.produced && SendErrorCount(m) == s.sendErrors
  {
    assert m.produced.Keys == s.produced.Keys;
    forall tag | tag in s.produced
      ensures m.produced[tag] == s.produced[tag]
    {
      assert Get(m.produced, tag) == Get(s.produced, tag);
    }
  }
}
