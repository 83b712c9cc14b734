// The requested rate is reached: with a select loop that never waits while it
// could act, and deliveries that finish in time, no timer slot is skipped.
module Pace {
  import opened Deliveries
  import opened Drain
  import opened Invariants
  import opened Preservation
  import opened Runs
  import opened Scheduler
  import opened SerialRun
  import opened Theorems
  import opened Ticker
  import opened Wrappers

  /** How many periods a delivery may take. */
  function Budget(c: Config): nat {
    Min(c.maxInFlight, 5)
  }

  /**
   * Time does not pass a moment at which the loop could act: not while a finished
   * delivery waits to be joined, nor beyond the timer slot while the guard is open.
   */
  ghost predicate Prompt(c: Config, s: State, at: nat) {
    && (forall i: nat :: Joinable(s, i) ==> at <= s.now)
    && (Admissible(c, s) ==> at <= s.now || at <= s.slot)
  }

  predicate UnderWay(d: Delivery) {
    !d.joined && d.Live()
  }

  /** Time does not pass a delivery's deadline while it is still under way. */
  ghost predicate InTime(c: Config, s: State, at: nat) {
    forall i :: 0 <= i < |s.deliveries| && i < |s.admissions| && UnderWay(s.deliveries[i]) ==>
      at <= s.admissions[i].at + SlotTime(Budget(c), c.period)
  }

  ghost predicate Eager(c: Config, s: State, e: Event) {
    s.phase.Running? ==> Prompt(c, s, e.at) && InTime(c, s, e.at)
  }

  /** The steps of the scheduler that an eager loop with timely deliveries takes. */
  ghost function EagerNext(c: Config): (State, Event) -> Option<State>
    requires ConfigOk(c)
  {
    (s: State, e: Event) => if Enabled(c, s, e) && Eager(c, s, e) then Some(Apply(c, s, e)) else None
  }

  ghost predicate EagerRun(c: Config, es: seq<Event>) {
    ConfigOk(c) && Valid(EagerNext(c), Init(), es)
  }

  /** Order `k` was admitted at slot `k`, and the loop is waiting for the next one. */
  ghost predicate OnPace(c: Config, s: State) {
    && (forall k :: 0 <= k < |s.admissions| ==> s.admissions[k].at == SlotTime(k, c.period))
    && (s.phase.Running? ==> s.slot == SlotTime(s.index, c.period) && s.now <= s.slot && InTime(c, s, s.now))
  }

  lemma {:induction false} SlotTimeAdds(a: nat, b: nat, period: nat)
    ensures SlotTime(a + b, period) == SlotTime(a, period) + SlotTime(b, period)
  {
    if b != 0 {
      SlotTimeAdds(a, b - 1, period);
    }
  }

  lemma {:induction false} SlotTimeMonotone(a: nat, b: nat, period: nat)
    requires a <= b
    ensures SlotTime(a, period) <= SlotTime(b, period)
  {
    SlotTimeAdds(a, b - a, period);
  }

  /** As many pending deliveries as `w` include one at least `w` back. */
  lemma SomePendingBack(ds: seq<Delivery>, w: nat) returns (i: nat)
    requires w > 0 && Tally(ds, Pending) >= w
    ensures i < |ds| && i + w <= |ds| && !ds[i].joined
  {
    assert !(forall i :: 0 <= i < |ds| && !ds[i].joined ==> i + (w - 1) >= |ds|) by {
      if forall i :: 0 <= i < |ds| && !ds[i].joined ==> i + (w - 1) >= |ds| {
        PendingBound(ds, w - 1);
      }
    }
    i :| 0 <= i < |ds| && !ds[i].joined && i + (w - 1) < |ds|;
  }

  /** What closes the guard is a pending delivery at least the budget back. */
  lemma GuardClosedBy(c: Config, s: State) returns (i: nat)
    requires ConfigOk(c) && Window(c, s) && s.phase.Running? && !Admissible(c, s)
    ensures i < |s.deliveries| && i + Budget(c) <= s.index && !s.deliveries[i].joined
  {
    GuardState(c, s);
    if PendingCount(s) < c.maxInFlight {
      i := s.index - 5;
    } else {
      AtMostFive(c, s);
      i := SomePendingBack(s.deliveries, c.maxInFlight);
    }
  }

  /** Time does not pass the slot before the admission. */
  lemma NeverLate(c: Config, s: State, at: nat)
    requires ConfigOk(c) && Window(c, s) && OnPace(c, s) && |s.admissions| == |s.deliveries| && s.phase.Running?
    requires Prompt(c, s, at) && InTime(c, s, at)
    ensures at <= s.slot
  {
    if !Admissible(c, s) {
      var i := GuardClosedBy(c, s);
      if s.deliveries[i].Live() {
        SlotTimeAdds(i, Budget(c), c.period);
        SlotTimeMonotone(i + Budget(c), s.index, c.period);
      } else {
        assert Joinable(s, i);
      }
    }
  }

  lemma OnPaceTick(c: Config, s: State, trace: Trace)
    requires ConfigOk(c) && OnPace(c, s) && |s.admissions| == |s.deliveries| == s.index
    requires s.phase.Running? && s.slot == s.now
    ensures OnPace(c, Admit(c, s, trace))
  {
    var t := Admit(c, s, trace);
    assert t.slot == s.slot + c.period;
    assert t.admissions == s.admissions + [Admission(s.slot, s.now)];
  }

  /** Every other step leaves the admissions alone and brings no delivery back to life. */
  ghost predicate NoAdmission(s: State, t: State) {
    && t.admissions == s.admissions && t.index == s.index && t.slot == s.slot && t.now == s.now
    && (t.phase.Running? ==> s.phase.Running?) && |t.deliveries| == |s.deliveries|
    && forall i :: 0 <= i < |t.deliveries| && UnderWay(t.deliveries[i]) ==> UnderWay(s.deliveries[i])
  }

  lemma OnPaceOther(c: Config, s: State, t: State)
    requires OnPace(c, s) && NoAdmission(s, t)
    ensures OnPace(c, t)
  {
  }

  lemma OnPaceStep(c: Config, s: State, e: Event)
    requires ConfigOk(c) && |s.admissions| == |s.deliveries| == s.index && OnPace(c, s) && Enabled(c, s, e)
    requires s.phase.Running? ==> e.at <= s.slot && InTime(c, s, e.at)
    ensures OnPace(c, Apply(c, s, e))
  {
    var t := s.(now := e.at);
    assert OnPace(c, t);
    match e.action
    case Tick(trace) => OnPaceTick(c, t, trace);
    case _ => OnPaceOther(c, t, Apply(c, s, e));
  }

  ghost predicate Steady(c: Config, s: State) {
    Inv(c, s) && OnPace(c, s)
  }

  lemma SteadyStep(c: Config, s: State, e: Event)
    requires Steady(c, s) && Enabled(c, s, e) && Eager(c, s, e)
    ensures Steady(c, Apply(c, s, e))
  {
    Step(c, s, e);
    if s.phase.Running? {
      NeverLate(c, s, e.at);
    }
    OnPaceStep(c, s, e);
  }

  lemma SteadyIsInductive(c: Config)
    requires ConfigOk(c)
    ensures Inductive(EagerNext(c), s => Steady(c, s))
  {
    forall s: State, e: Event | Steady(c, s) && Enabled(c, s, e) && Eager(c, s, e)
      ensures Steady(c, Apply(c, s, e))
    {
      SteadyStep(c, s, e);
    }
  }

  lemma {:induction false} SlotTimeIsProduct(k: nat, period: nat)
    ensures SlotTime(k, period) == k * period
  {
    if k != 0 {
      SlotTimeIsProduct(k - 1, period);
      assert (k - 1) * period + period == k * period;
    }
  }

  lemma {:induction false} EagerIsValid(c: Config, es: seq<Event>)
    requires EagerRun(c, es)
    ensures ValidRun(c, es) && Final(c, es) == Run(EagerNext(c), Init(), es)
  {
    Restricts(EagerNext(c), Next(c), Init(), es);
  }

  lemma {:induction false} EagerIsSteady(c: Config, es: seq<Event>)
    requires EagerRun(c, es)
    ensures Steady(c, Run(EagerNext(c), Init(), es))
  {
    InvInit(c);
    SteadyIsInductive(c);
    assert OnPace(c, Init());
    Preserved(EagerNext(c), s => Steady(c, s), Init(), es);
  }

  /** Being eager and timely never leaves the loop without a step to take. */
  lemma {:induction false} EagerProgress(c: Config, es: seq<Event>)
    requires EagerRun(c, es) && Run(EagerNext(c), Init(), es).phase.Running?
    ensures var s := Run(EagerNext(c), Init(), es);
            exists e: Event :: Enabled(c, s, e) && Eager(c, s, e) && Working(e.action)
  {
    EagerIsSteady(c, es);
    EagerStep(c, Run(EagerNext(c), Init(), es));
  }

  lemma EagerStep(c: Config, s: State)
    requires ConfigOk(c) && Window(c, s) && OnPace(c, s) && |s.admissions| == |s.deliveries| && s.phase.Running?
    ensures exists e: Event :: Enabled(c, s, e) && Eager(c, s, e) && Working(e.action)
  {
    if i: nat :| i < |s.deliveries| && !s.deliveries[i].joined {
      PendingCanStep(c, s, i);
      assert Eager(c, s, Event(s.now, PendingStep(s, i)));
    } else {
      SomePending(s.deliveries);
      GuardState(c, s);
      var e := Event(s.slot, Tick([]));
      assert Enabled(c, s, e) && Eager(c, s, e);
    }
  }

  /**
   * Full pace. Take a run whose loop never lets time pass while it could join, nor
   * beyond the slot while it could admit, and whose deliveries are each finished
   * within min(max_in_flight, 5) periods of their admission. Then order `k` is
   * admitted at `k` periods exactly, and while the loop runs the orders admitted
   * by any time `t` it has reached number at least `t / period`.
   */
  lemma FullPace(c: Config, es: seq<Event>)
    requires EagerRun(c, es)
    ensures ValidRun(c, es)
    ensures var s := Final(c, es);
            && |s.admissions| == s.index
            && (forall k :: 0 <= k < s.index ==> s.admissions[k].at == k * c.period)
            && (s.phase.Running? ==> s.now <= s.index * c.period)
  {
    EagerIsValid(c, es);
    EagerIsSteady(c, es);
    var s := Final(c, es);
    forall k | 0 <= k <= s.index
      ensures SlotTime(k, c.period) == k * c.period
    {
      SlotTimeIsProduct(k, c.period);
    }
  }
}
