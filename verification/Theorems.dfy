// What every run of the producer scheduler satisfies.
module Theorems {
  import opened Deliveries
  import opened Invariants
  import opened Orders
  import opened Preservation
  import opened Runs
  import opened Scheduler
  import opened Ticker

  // ----- what is admitted -----

  /** Orders are admitted in generator order, none skipped or repeated, with a clock that never runs back. */
  lemma AdmissionSequence(c: Config, es: seq<Event>)
    requires ValidRun(c, es)
    ensures var s := Final(c, es);
            && s.index == |s.deliveries|
            && forall k :: 0 <= k < s.index ==>
                 && s.deliveries[k].order == OrderAt(k).(tsMs := s.deliveries[k].order.tsMs)
                 && s.deliveries[k].order.tsMs == (if k <= 9223372036854775807 then k else 9223372036854775807)
                 && (k > 0 ==> s.deliveries[k - 1].order.tsMs <= s.deliveries[k].order.tsMs)
  {
    Reachable(c, es);
    var s := Final(c, es);
    forall k | 0 <= k < s.index
      ensures s.deliveries[k].order == Stamped(k)
    {
      assert Genuine(c, k, s.deliveries[k]);
    }
  }

  // ----- keys and the window -----

  ghost function PendingSet(ds: seq<Delivery>): set<nat> {
    set i: nat | i < |ds| && !ds[i].joined
  }

  lemma {:induction false} PendingSetSize(ds: seq<Delivery>)
    ensures |PendingSet(ds)| == Tally(ds, Pending)
  {
    if ds == [] {
      assert PendingSet(ds) == {};
    } else {
      var n := |ds| - 1;
      PendingSetSize(ds[..n]);
      PendingSetLast(ds);
    }
  }

  lemma PendingSetLast(ds: seq<Delivery>)
    requires ds != []
    ensures PendingSet(ds) == PendingSet(ds[..|ds| - 1]) + (if ds[|ds| - 1].joined then {} else {|ds| - 1})
  {
  }

  /** The indices in `a` have distinct keys: as many keys as indices. */
  lemma {:induction false} KeysOf(a: set<nat>)
    requires forall i, j :: i in a && j in a && Key(i) == Key(j) ==> i == j
    ensures |set i | i in a :: Key(i)| == |a|
    decreases a
  {
    if a != {} {
      var x :| x in a;
      var rest := a - {x};
      KeysOf(rest);
      assert (set i | i in a :: Key(i)) == (set i | i in rest :: Key(i)) + {Key(x)};
    }
  }

  lemma PendingKeysDiffer(c: Config, s: State, i: nat, j: nat)
    requires Window(c, s) && i in PendingSet(s.deliveries) && j in PendingSet(s.deliveries) && Key(i) == Key(j)
    ensures i == j
  {
    KeysEqual(i, j);
    KeysEqual(j, i);
  }

  /**
   * While the loop runs the occupied keys are exactly the keys of the pending
   * deliveries, one each, and at most min(max_in_flight, 5) are pending.
   */
  lemma KeySet(c: Config, es: seq<Event>)
    requires ValidRun(c, es)
    ensures var s := Final(c, es);
            && PendingCount(s) == |PendingSet(s.deliveries)| <= Min(c.maxInFlight, 5)
            && (s.phase.Running? ==> s.activeKeys == PendingKeys(s) && |s.activeKeys| == PendingCount(s))
  {
    Reachable(c, es);
    var s := Final(c, es);
    PendingSetSize(s.deliveries);
    AtMostFive(c, s);
    if s.phase.Running? {
      ActiveKeysArePending(c, s);
      OneKeyEach(c, s);
    }
  }

  lemma AtMostFive(c: Config, s: State)
    requires Window(c, s)
    ensures PendingCount(s) <= 5
  {
    PendingBound(s.deliveries, 5);
  }

  ghost function PendingKeys(s: State): set<string> {
    set i | i in PendingSet(s.deliveries) :: s.deliveries[i].order.category
  }

  lemma OneKeyEach(c: Config, s: State)
    requires Window(c, s)
    ensures |PendingKeys(s)| == |PendingSet(s.deliveries)|
  {
    var pending := PendingSet(s.deliveries);
    forall i, j | i in pending && j in pending && Key(i) == Key(j)
      ensures i == j
    {
      PendingKeysDiffer(c, s, i, j);
    }
    KeysOf(pending);
    assert PendingKeys(s) == set i | i in pending :: Key(i);
  }

  lemma ActiveKeysArePending(c: Config, s: State)
    requires Window(c, s) && s.phase.Running?
    ensures s.activeKeys == PendingKeys(s)
  {
    forall k | k in s.activeKeys
      ensures k in PendingKeys(s)
    {
      var i :| 0 <= i < s.index && !s.deliveries[i].joined && Key(i) == k;
      assert i in PendingSet(s.deliveries);
    }
  }

  /**
   * The scheduler is a sliding window of five: once order `j` is admitted every
   * order up to `j - 5` is joined, and a join is never more than
   * min(max_in_flight, 5) - 1 ahead of its turn nor more than four behind it.
   */
  lemma SlidingWindow(c: Config, es: seq<Event>)
    requires ValidRun(c, es)
    ensures var s := Final(c, es);
            && s.index == |s.deliveries|
            && (forall i :: 0 <= i < s.index && i + 5 < s.index ==> s.deliveries[i].joined)
            && (forall p :: 0 <= p < |s.joins| ==>
                  s.joins[p] - (Min(c.maxInFlight, 5) - 1) <= p <= s.joins[p] + 4)
            && (c.maxInFlight == 1 ==> forall p :: 0 <= p < |s.joins| ==> s.joins[p] == p)
  {
    Reachable(c, es);
    SlidingState(c, Final(c, es));
  }

  lemma SlidingState(c: Config, s: State)
    requires ConfigOk(c) && Window(c, s) && JoinOrder(c, s)
    ensures forall i :: 0 <= i < s.index && i + 5 < s.index ==> s.deliveries[i].joined
    ensures forall p :: 0 <= p < |s.joins| ==> s.joins[p] - Lead(c) <= p <= s.joins[p] + 4
    ensures c.maxInFlight == 1 ==> forall p :: 0 <= p < |s.joins| ==> s.joins[p] == p
  {
    if c.maxInFlight == 1 {
      InOrder(s.joins);
    }
  }

  /** A duplicate-free list that never runs ahead of its position is the identity. */
  lemma {:induction false} InOrder(joins: seq<nat>)
    requires forall p :: 0 <= p < |joins| ==> joins[p] <= p
    requires forall p, q :: 0 <= p < q < |joins| ==> joins[p] != joins[q]
    ensures forall p :: 0 <= p < |joins| ==> joins[p] == p
  {
    if joins != [] {
      var n := |joins| - 1;
      InOrder(joins[..n]);
      forall p | 0 <= p < n
        ensures joins[p] == p
      {
        assert joins[..n][p] == p;
      }
      if joins[n] < n {
        assert joins[joins[n]] == joins[n];
      }
    }
  }

  // ----- limits above five -----

  lemma SameStep(c: Config, d: Config, s: State, e: Event)
    requires Window(c, s) && ConfigOk(c) && ConfigOk(d)
    requires c.maxInFlight >= 5 && d.maxInFlight >= 5 && d == c.(maxInFlight := d.maxInFlight)
    ensures Enabled(c, s, e) <==> Enabled(d, s, e)
    ensures Enabled(c, s, e) ==> Apply(c, s, e) == Apply(d, s, e)
  {
    if s.next.category !in s.activeKeys {
      FreeKey(c, s);
    }
  }

  /** Raising the limit beyond five changes nothing: the runs are those of limit five. */
  lemma FiveIsEnough(c: Config, es: seq<Event>)
    requires ConfigOk(c) && c.maxInFlight >= 5
    ensures ValidRun(c, es) <==> ValidRun(c.(maxInFlight := 5), es)
    ensures ValidRun(c, es) ==> Final(c, es) == Final(c.(maxInFlight := 5), es)
  {
    var d := c.(maxInFlight := 5);
    InvInit(c);
    StepsKeepInv(c);
    forall s: State, e: Event | Inv(c, s)
      ensures Next(c)(s, e) == Next(d)(s, e)
    {
      SameStep(c, d, s, e);
    }
    SameRuns(Next(c), Next(d), s => Inv(c, s), Init(), es);
  }

  // ----- pacing -----

  /** At any time `t` no more than t / period + 1 orders have been admitted. */
  lemma RateBound(c: Config, es: seq<Event>, n: nat, t: nat)
    requires ValidRun(c, es)
    requires n <= |Final(c, es).admissions| && (n > 0 ==> Final(c, es).admissions[n - 1].at <= t)
    ensures n <= t / c.period + 1
    ensures |Final(c, es).admissions| == Final(c, es).index
  {
    Reachable(c, es);
    var s := Final(c, es);
    AdmittedBy(s.admissions, s.slot, s.now, c.period, c.tolerance, n, t);
  }

  /** Every admission uses up its own aligned timer slot, and blocked slots are never made up for. */
  lemma NoCatchUp(c: Config, es: seq<Event>, a: nat, b: nat)
    requires ValidRun(c, es) && a < b < |Final(c, es).admissions|
    ensures var adm := Final(c, es).admissions;
            && adm[a].slot % c.period == 0 && adm[b].slot % c.period == 0
            && adm[a].slot <= adm[a].at && adm[b].slot <= adm[b].at
            && adm[b].slot >= adm[a].slot + (b - a) * c.period
            && (c.tolerance == 0 ==> adm[a].at < adm[a + 1].slot)
            && (b - a - 1) * c.period
               <= adm[b].at - adm[a].at + (if c.tolerance > c.period then c.tolerance - c.period else 0)
  {
    Reachable(c, es);
    var s := Final(c, es);
    SlotsSpread(s.admissions, s.slot, s.now, c.period, c.tolerance, a, b);
    NoBurst(s.admissions, s.slot, s.now, c.period, c.tolerance, a, b);
    assert Gap(s.admissions[a], s.admissions[a + 1].slot, c.period, c.tolerance);
  }

  const NANOS: real := 1000000000.0

  /** Acknowledged orders per second, elapsed time in nanoseconds. */
  function AchievedRate(report: SendReport, elapsed: nat): real {
    var seconds := elapsed as real / NANOS;
    report.acknowledged as real / (if seconds > EPSILON then seconds else EPSILON)
  }

  /** The rate times the elapsed seconds is the number of acknowledged orders. */
  lemma AchievedRateExact(report: SendReport, elapsed: nat)
    requires elapsed > 0
    ensures AchievedRate(report, elapsed) * (elapsed as real / 1000000000.0) == report.acknowledged as real
  {
    var seconds := elapsed as real / NANOS;
    assert elapsed as real >= 1.0;
    assert seconds > EPSILON;
  }

  /** The achieved rate never exceeds the requested rate by more than one order over the elapsed time. */
  lemma AchievedRateBound(c: Config, es: seq<Event>, elapsed: nat)
    requires ValidRun(c, es) && Final(c, es).now <= elapsed && elapsed > 0
    ensures AchievedRate(Final(c, es).report, elapsed) <= NANOS / c.period as real + NANOS / elapsed as real
  {
    Reachable(c, es);
    AchievedRateState(c, Final(c, es), elapsed);
  }

  lemma AchievedRateState(c: Config, s: State, elapsed: nat)
    requires ConfigOk(c) && Accounts(s) && Pacing(c, s) && s.now <= elapsed && elapsed > 0
    ensures AchievedRate(s.report, elapsed) <= NANOS / c.period as real + NANOS / elapsed as real
  {
    var n := |s.deliveries|;
    AckAtMostAll(s.deliveries);
    if n > 0 {
      SlotsSpread(s.admissions, s.slot, s.now, c.period, c.tolerance, 0, n - 1);
      assert (n - 1) * c.period <= elapsed;
    }
    Scale(s.report.acknowledged - 1, n - 1, c.period);
    RateArithmetic(s.report.acknowledged, c.period, elapsed);
  }

  lemma Scale(a: int, b: int, p: int)
    requires p > 0 && a <= b
    ensures a * p <= b * p
  {
  }

  lemma RateArithmetic(ack: int, period: int, elapsed: int)
    requires period > 0 && elapsed > 0 && (ack - 1) * period <= elapsed
    ensures var seconds := elapsed as real / NANOS;
            ack as real / (if seconds > EPSILON then seconds else EPSILON)
            <= NANOS / period as real + NANOS / elapsed as real
  {
    var n, p, e := ack as real, period as real, elapsed as real;
    assert (n - 1.0) * p <= e by {
      assert ((ack - 1) * period) as real == (n - 1.0) * p;
    }
    RateInReals(n, p, e);
  }

  lemma RateInReals(n: real, p: real, e: real)
    requires p > 0.0 && e >= 1.0 && (n - 1.0) * p <= e
    ensures n / (if e / NANOS > EPSILON then e / NANOS else EPSILON) <= NANOS / p + NANOS / e
  {
    assert e / NANOS > EPSILON;
    var inv := 1.0 / e;
    assert n * inv <= 1.0 / p + inv by {
      assert (n - 1.0) * p * inv <= 1.0;
      assert (n - 1.0) * inv * p <= 1.0;
      DivideBoth((n - 1.0) * inv, p);
    }
    assert n / (e / NANOS) == NANOS * (n * inv);
    assert NANOS / p == NANOS * (1.0 / p);
  }

  lemma DivideBoth(x: real, p: real)
    requires p > 0.0 && x * p <= 1.0
    ensures x <= 1.0 / p
  {
    assert x * p / p == x;
  }

  lemma {:induction false} AckAtMostAll(ds: seq<Delivery>)
    ensures Tally(ds, AckJoined) <= |ds|
  {
    if ds != [] {
      AckAtMostAll(ds[..|ds| - 1]);
    }
  }
}
