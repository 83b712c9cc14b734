// Sending one order: the attempt loop and the counters around it.
module Publishing {
  import opened Deliveries
  import opened Metrics
  import opened Orders

  /** The error updates of `results`, one per failed attempt. */
  function SendErrors(results: seq<bool>): seq<Update> {
    if results == [] then []
    else SendErrors(results[..|results| - 1]) + (if results[|results| - 1] then [] else [Failed(ProducerSend)])
  }

  /** `results` are the answers `answers` gives to attempts 1, 2, ... */
  ghost predicate AnsweredBy(results: seq<bool>, answers: nat -> bool) {
    forall k :: 0 <= k < |results| ==> results[k] == answers(k + 1)
  }

  lemma PushAnswer(results: seq<bool>, answers: nat -> bool)
    requires |results| < MAX_ATTEMPTS && AllFailed(results) && AnsweredBy(results, answers)
    ensures var ok := answers(|results| + 1);
            var rs := results + [ok];
            && AnsweredBy(rs, answers)
            && (ok ==> Complete(rs))
            && (!ok ==> AllFailed(rs))
            && SendErrors(rs) == SendErrors(results) + (if ok then [] else [Failed(ProducerSend)])
            && forall i: nat, record :: AttemptLog(i, record, rs)
                == AttemptLog(i, record, results) + [Sent(i, |rs|, record), Answered(i, |rs|, ok)]
  {
    var rs := results + [answers(|results| + 1)];
    assert rs[..|rs| - 1] == results;
  }

  /** One success among the three answers is what an acknowledged order needs. */
  lemma AcknowledgedExactly(results: seq<bool>, answers: nat -> bool)
    requires Complete(results) && AnsweredBy(results, answers)
    ensures results[|results| - 1] <==> answers(1) || answers(2) || answers(3)
  {
    var n := |results|;
    assert forall k :: 0 <= k < n - 1 ==> results[..n - 1][k] == results[k];
    if results[n - 1] {
      assert answers(n) && (n == 1 || n == 2 || n == 3);
    } else {
      assert !results[0] && !results[1] && !results[2];
    }
  }

  /**
   * Up to three attempts with the same record, stopping at the first success.
   * `answers` is what the client replies to each attempt.
   */
  method SendWithRetry(metrics: DemoMetrics, i: nat, record: ProducerRecord, answers: nat -> bool)
    returns (ok: bool, sent: seq<LogEntry>, results: seq<bool>)
    requires metrics.Valid()
    modifies metrics
    ensures metrics.Valid()
    ensures Complete(results) && AnsweredBy(results, answers)
    ensures ok <==> answers(1) || answers(2) || answers(3)
    ensures ok == results[|results| - 1]
    ensures sent == AttemptLog(i, record, results)
    ensures metrics.updates == old(metrics.updates) + SendErrors(results)
  {
    sent, results := [], [];
    for attempt := 1 to MAX_ATTEMPTS + 1
      invariant metrics.Valid()
      invariant |results| == attempt - 1 && AllFailed(results) && AnsweredBy(results, answers)
      invariant sent == AttemptLog(i, record, results)
      invariant metrics.updates == old(metrics.updates) + SendErrors(results)
    {
      var answer := answers(attempt);
      PushAnswer(results, answers);
      sent := sent + [Sent(i, attempt, record), Answered(i, attempt, answer)];
      results := results + [answer];
      if answer {
        AcknowledgedExactly(results, answers);
        return true, sent, results;
      }
      metrics.RecordError(ProducerSend);
    }
    AcknowledgedExactly(results, answers);
    ok := false;
  }

  /** What a finished delivery leaves in the metrics. */
  function PublishUpdates(order: Order, results: seq<bool>): seq<Update>
    requires results != []
  {
    SendErrors(results) + (if results[|results| - 1] then [Produced(LabelOf(order), order.amount)] else [])
  }

  /** Publishing one order does exactly what its finished delivery logs and counts. */
  method PublishOrder(metrics: DemoMetrics, i: nat, order: Order, topic: string, trace: Trace, answers: nat -> bool)
    returns (ok: bool, sent: seq<LogEntry>, ghost d: Delivery)
    requires metrics.Valid()
    modifies metrics
    ensures metrics.Valid()
    ensures d == Delivery(order, trace, BuildRecord(topic, trace, order), d.results, Done(ok), false) && DeliveryOk(d)
    ensures AnsweredBy(d.results, answers)
    ensures sent == DeliveryLog(i, d)
    ensures metrics.updates == old(metrics.updates) + PublishUpdates(order, d.results)
  {
    var record := BuildRecord(topic, trace, order);
    var results;
    ok, sent, results := SendWithRetry(metrics, i, record, answers);
    d := Delivery(order, trace, record, results, Done(ok), false);
    if !ok {
      return;
    }
    metrics.RecordProduced(order.category, order.region, order.paymentMethod, order.amount);
  }
}
