// One delivery: the record built for an order and the attempts to send it.
module Deliveries {
  import opened Arithmetic
  import opened Orders
  import opened Wrappers

  const MAX_ATTEMPTS: nat := 3

  datatype Header = Header(key: string, value: Option<string>)

  /** The value is the encoded order; the codec itself is not part of this model. */
  datatype ProducerRecord = ProducerRecord(topic: string, key: Option<string>, value: Option<Order>, headers: seq<Header>)

  type Trace = seq<(string, string)>

  function OrderHeaders(trace: Trace, order: Order): seq<Header> {
    seq(|trace|, i requires 0 <= i < |trace| => Header(trace[i].0, Some(trace[i].1)))
    + [Header("x-demo-region", Some(order.region)), Header("x-demo-tier", Some(order.customerTier))]
  }

  function BuildRecord(topic: string, trace: Trace, order: Order): ProducerRecord {
    ProducerRecord(topic, Some(order.category), Some(order), OrderHeaders(trace, order))
  }

  /** The consumer's reading of a header: the first one of that name. */
  function HeaderValue(headers: seq<Header>, name: string): Option<string> {
    if headers == [] then None
    else if headers[0].key == name then headers[0].value
    else HeaderValue(headers[1..], name)
  }

  lemma {:induction false} FirstHeader(headers: seq<Header>, name: string, k: nat)
    requires k < |headers| && headers[k].key == name
    requires forall j :: 0 <= j < k ==> headers[j].key != name
    ensures HeaderValue(headers, name) == headers[k].value
  {
    if k != 0 {
      FirstHeader(headers[1..], name, k - 1);
    }
  }

  /** An absent name has no value. */
  lemma {:induction false} AbsentHeader(headers: seq<Header>, name: string)
    ensures (forall j :: 0 <= j < |headers| ==> headers[j].key != name) ==> HeaderValue(headers, name) == None
  {
    if headers != [] {
      AbsentHeader(headers[1..], name);
    }
  }

  /**
   * The consumer reads back the region and tier the producer attached, as long
   * as no trace header before them carries their name.
   */
  lemma HeadersRoundTrip(topic: string, trace: Trace, order: Order)
    ensures var headers := BuildRecord(topic, trace, order).headers;
            && ((forall j :: 0 <= j < |trace| ==> trace[j].0 != "x-demo-region") ==>
                  HeaderValue(headers, "x-demo-region") == Some(order.region))
            && ((forall j :: 0 <= j < |trace| ==> trace[j].0 != "x-demo-tier") ==>
                  HeaderValue(headers, "x-demo-tier") == Some(order.customerTier))
            && forall k :: 0 <= k < |trace| && (forall j :: 0 <= j < k ==> trace[j].0 != trace[k].0) ==>
                 HeaderValue(headers, trace[k].0) == Some(trace[k].1)
  {
    var headers := BuildRecord(topic, trace, order).headers;
    var n := |trace|;
    assert "x-demo-region"[7] == 'r' && "x-demo-tier"[7] == 't';
    assert forall j :: 0 <= j < n ==> headers[j].key == trace[j].0;
    if forall j :: 0 <= j < n ==> trace[j].0 != "x-demo-region" {
      FirstHeader(headers, "x-demo-region", n);
    }
    if forall j :: 0 <= j < n ==> trace[j].0 != "x-demo-tier" {
      FirstHeader(headers, "x-demo-tier", n + 1);
    }
    forall k | 0 <= k < n && (forall j :: 0 <= j < k ==> trace[j].0 != trace[k].0)
      ensures HeaderValue(headers, trace[k].0) == Some(trace[k].1)
    {
      FirstHeader(headers, trace[k].0, k);
    }
  }

  /** What a delivery does to the outside: hands a record to the client, gets an answer. */
  datatype LogEntry =
    | Sent(index: nat, attempt: nat, record: ProducerRecord)
    | Answered(index: nat, attempt: nat, ok: bool)

  /** Where a delivery stands. `results` are the answers received so far. */
  datatype Stage = Ready | Waiting | Done(success: bool) | Crashed(sent: bool)

  datatype Delivery = Delivery(
    order: Order,
    trace: Trace,
    record: ProducerRecord,
    results: seq<bool>,
    stage: Stage,
    joined: bool)
  {
    predicate Live() { stage.Ready? || stage.Waiting? }

    /** The loop `for attempt in 1..=3` after one more answer. */
    function Answer(ok: bool): Delivery {
      this.(results := results + [ok],
            stage := if ok then Done(true) else if |results| + 1 == MAX_ATTEMPTS then Done(false) else Ready)
    }
  }

  /** A delivery before its first attempt, with the one record all its attempts send. */
  function NewDelivery(topic: string, trace: Trace, order: Order): Delivery {
    Delivery(order, trace, BuildRecord(topic, trace, order), [], Ready, false)
  }

  ghost predicate AllFailed(results: seq<bool>) {
    forall k :: 0 <= k < |results| ==> !results[k]
  }

  /** The answers a finished delivery has seen: it stops at the first success and at three failures. */
  ghost predicate Complete(results: seq<bool>) {
    && 1 <= |results| <= MAX_ATTEMPTS
    && AllFailed(results[..|results| - 1])
    && (|results| < MAX_ATTEMPTS ==> results[|results| - 1])
  }

  ghost predicate DeliveryOk(d: Delivery) {
    match d.stage
    case Done(ok) => Complete(d.results) && ok == d.results[|d.results| - 1]
    case Crashed(_) => |d.results| < MAX_ATTEMPTS && AllFailed(d.results)
    case _ => !d.joined && |d.results| < MAX_ATTEMPTS && AllFailed(d.results)
  }

  lemma AnswerOk(d: Delivery, ok: bool)
    requires d.stage.Waiting? && DeliveryOk(d)
    ensures DeliveryOk(d.Answer(ok))
  {
    assert (d.results + [ok])[..|d.results|] == d.results;
  }

  // ----- the log of one delivery -----

  /** The attempts answered by `results`, one after the other. */
  function AttemptLog(i: nat, record: ProducerRecord, results: seq<bool>): seq<LogEntry> {
    if results == [] then []
    else
      var n := |results|;
      AttemptLog(i, record, results[..n - 1]) + [Sent(i, n, record), Answered(i, n, results[n - 1])]
  }

  function DeliveryLog(i: nat, d: Delivery): seq<LogEntry> {
    AttemptLog(i, d.record, d.results)
    + (if d.stage == Waiting || d.stage == Crashed(true) then [Sent(i, |d.results| + 1, d.record)] else [])
  }

  /**
   * The log of a delivery, entry by entry: attempt `k + 1` is sent with the one
   * record and then answered, and an attempt without an answer comes last.
   */
  lemma {:induction false} DeliveryLogExact(i: nat, d: Delivery, k: nat)
    ensures var log, n := DeliveryLog(i, d), |d.results|;
            && |log| == 2 * n + (if d.stage == Waiting || d.stage == Crashed(true) then 1 else 0)
            && (k < n ==> log[2 * k] == Sent(i, k + 1, d.record) && log[2 * k + 1] == Answered(i, k + 1, d.results[k]))
            && (k == n && |log| > 2 * n ==> log[2 * n] == Sent(i, n + 1, d.record))
  {
    AttemptLogExact(i, d.record, d.results, k);
  }

  lemma {:induction false} AttemptLogExact(i: nat, record: ProducerRecord, results: seq<bool>, k: nat)
    ensures var log := AttemptLog(i, record, results);
            && |log| == 2 * |results|
            && (k < |results| ==> log[2 * k] == Sent(i, k + 1, record) && log[2 * k + 1] == Answered(i, k + 1, results[k]))
  {
    if results != [] {
      AttemptLogExact(i, record, results[..|results| - 1], k);
    }
  }

  lemma AnswerLog(i: nat, d: Delivery, ok: bool)
    requires d.stage.Waiting?
    ensures DeliveryLog(i, d.Answer(ok)) == DeliveryLog(i, d) + [Answered(i, |d.results| + 1, ok)]
  {
    assert (d.results + [ok])[..|d.results|] == d.results;
  }

  // ----- tallies over deliveries -----

  function Tally(ds: seq<Delivery>, f: Delivery -> nat): nat {
    if ds == [] then 0 else Tally(ds[..|ds| - 1], f) + f(ds[|ds| - 1])
  }

  lemma {:induction false} TallyPush(ds: seq<Delivery>, d: Delivery, f: Delivery -> nat)
    ensures Tally(ds + [d], f) == Tally(ds, f) + f(d)
  {
    assert (ds + [d])[..|ds|] == ds;
  }

  lemma {:induction false} TallyUpdate(ds: seq<Delivery>, i: nat, d: Delivery, f: Delivery -> nat)
    requires i < |ds|
    ensures Tally(ds[i := d], f) + f(ds[i]) == Tally(ds, f) + f(d)
  {
    var n := |ds| - 1;
    if i < n {
      TallyUpdate(ds[..n], i, d, f);
      assert ds[i := d][..n] == ds[..n][i := d];
    } else {
      assert ds[i := d][..n] == ds[..n];
    }
  }

  function Pending(d: Delivery): nat { if d.joined then 0 else 1 }
  function Joined(d: Delivery): nat { if d.joined then 1 else 0 }
  function Acknowledged(d: Delivery): nat { if d.stage == Done(true) then 1 else 0 }
  function AckJoined(d: Delivery): nat { if d.joined && d.stage == Done(true) then 1 else 0 }
  function FailJoined(d: Delivery): nat { if d.joined && d.stage == Done(false) then 1 else 0 }
  function CrashJoined(d: Delivery): nat { if d.joined && d.stage.Crashed? then 1 else 0 }
  function Attempts(d: Delivery): nat {
    |d.results| + (if d.stage == Waiting || d.stage == Crashed(true) then 1 else 0)
  }
  function Errors(d: Delivery): nat {
    if d.stage == Done(true) && |d.results| > 0 then |d.results| - 1 else |d.results|
  }

  // ----- a log in numbers -----

  function Entries(log: seq<LogEntry>, kind: LogEntry -> bool): nat {
    if log == [] then 0 else Entries(log[..|log| - 1], kind) + One(kind(log[|log| - 1]))
  }

  predicate IsSent(e: LogEntry) { e.Sent? }
  predicate IsSuccess(e: LogEntry) { e.Answered? && e.ok }
  predicate IsFailure(e: LogEntry) { e.Answered? && !e.ok }

  /** Acknowledgements of orders of the amount `x`. */
  function Observes(x: real): LogEntry -> bool {
    (e: LogEntry) => IsSuccess(e) && OrderAt(e.index).amount == x
  }

  lemma {:induction false} EntriesPush(log: seq<LogEntry>, e: LogEntry, kind: LogEntry -> bool)
    ensures Entries(log + [e], kind) == Entries(log, kind) + One(kind(e))
  {
    assert (log + [e])[..|log|] == log;
  }

  /** Acknowledged deliveries of the amount `x`. */
  function AckOf(x: real): Delivery -> nat {
    (d: Delivery) => One(d.stage == Done(true) && d.order.amount == x)
  }

  /** How many acknowledged deliveries carry the tag. */
  function LabelTally(ds: seq<Delivery>, tag: ProducedLabel): nat {
    if ds == [] then 0
    else LabelTally(ds[..|ds| - 1], tag) + LabelWeight(ds[|ds| - 1], tag)
  }

  function LabelWeight(d: Delivery, tag: ProducedLabel): nat {
    if d.stage == Done(true) && LabelOf(d.order) == tag then 1 else 0
  }

  lemma {:induction false} LabelTallyUpdate(ds: seq<Delivery>, i: nat, d: Delivery, tag: ProducedLabel)
    requires i < |ds|
    ensures LabelTally(ds[i := d], tag) + LabelWeight(ds[i], tag) == LabelTally(ds, tag) + LabelWeight(d, tag)
  {
    var n := |ds| - 1;
    if i < n {
      LabelTallyUpdate(ds[..n], i, d, tag);
      assert ds[i := d][..n] == ds[..n][i := d];
    } else {
      assert ds[i := d][..n] == ds[..n];
    }
  }

  lemma {:induction false} LabelTallyPush(ds: seq<Delivery>, d: Delivery, tag: ProducedLabel)
    ensures LabelTally(ds + [d], tag) == LabelTally(ds, tag) + LabelWeight(d, tag)
  {
    assert (ds + [d])[..|ds|] == ds;
  }

  lemma {:induction false} LabelTallyPositive(ds: seq<Delivery>, tag: ProducedLabel)
    ensures LabelTally(ds, tag) > 0 <==> exists i :: 0 <= i < |ds| && LabelWeight(ds[i], tag) == 1
  {
    if ds != [] {
      var n := |ds| - 1;
      LabelTallyPositive(ds[..n], tag);
      if i :| 0 <= i < |ds| && LabelWeight(ds[i], tag) == 1 {
        if i < n { assert LabelWeight(ds[..n][i], tag) == 1; }
      }
      if LabelTally(ds, tag) > 0 {
        if LabelWeight(ds[n], tag) == 0 {
          var i :| 0 <= i < n && LabelWeight(ds[..n][i], tag) == 1;
          assert LabelWeight(ds[i], tag) == 1;
        }
      }
    }
  }

  /** Pending deliveries confined to the last `w` are at most `w`. */
  lemma {:induction false} PendingBound(ds: seq<Delivery>, w: nat)
    requires forall i :: 0 <= i < |ds| && !ds[i].joined ==> i + w >= |ds|
    ensures Tally(ds, Pending) <= w
  {
    if ds != [] {
      var n := |ds| - 1;
      if w == 0 {
        assert ds[n].joined;
        PendingBound(ds[..n], 0);
      } else {
        PendingBound(ds[..n], w - 1);
      }
    }
  }

  lemma {:induction false} PendingOrJoined(ds: seq<Delivery>)
    ensures Tally(ds, Pending) + Tally(ds, Joined) == |ds|
  {
    if ds != [] {
      PendingOrJoined(ds[..|ds| - 1]);
    }
  }

  lemma {:induction false} SomePending(ds: seq<Delivery>)
    ensures Tally(ds, Pending) > 0 <==> exists i :: 0 <= i < |ds| && !ds[i].joined
  {
    if ds != [] {
      var n := |ds| - 1;
      SomePending(ds[..n]);
      if i :| 0 <= i < |ds| && !ds[i].joined {
        if i < n { assert !ds[..n][i].joined; }
      }
      if Tally(ds[..n], Pending) > 0 {
        var i :| 0 <= i < n && !ds[..n][i].joined;
        assert !ds[i].joined;
      }
    }
  }

  /** Joined deliveries ended in exactly one of three ways. */
  lemma {:induction false} JoinedThreeWays(ds: seq<Delivery>)
    requires forall i :: 0 <= i < |ds| ==> DeliveryOk(ds[i])
    ensures Tally(ds, Joined) == Tally(ds, AckJoined) + Tally(ds, FailJoined) + Tally(ds, CrashJoined)
  {
    if ds != [] {
      JoinedThreeWays(ds[..|ds| - 1]);
    }
  }

  /** Once everything is joined: how attempts, errors and outcomes relate. */
  lemma {:induction false} RetryBounds(ds: seq<Delivery>)
    requires forall i :: 0 <= i < |ds| ==> DeliveryOk(ds[i]) && ds[i].joined
    ensures var acked, failed, crashed := Tally(ds, AckJoined), Tally(ds, FailJoined), Tally(ds, CrashJoined);
            && Tally(ds, Acknowledged) == acked
            && 3 * failed <= Tally(ds, Errors) <= 3 * failed + 2 * acked + 2 * crashed
            && Tally(ds, Errors) + acked <= Tally(ds, Attempts) <= Tally(ds, Errors) + acked + crashed
  {
    if ds != [] {
      RetryBounds(ds[..|ds| - 1]);
    }
  }
}
