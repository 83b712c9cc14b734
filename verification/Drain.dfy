// The end of a run: nothing is admitted, nothing is lost, and it ends.
module Drain {
  import opened Deliveries
  import opened Invariants
  import opened Orders
  import opened Preservation
  import opened Runs
  import opened Scheduler
  import opened Theorems

  // ----- progress of the loop -----

  /**
   * The admission guard is closed exactly when the limit is reached or order
   * `index - 5` is still pending; its key is then the one in the way, and no
   * other pending order has it. Either way something is pending.
   */
  lemma GuardOrPending(c: Config, es: seq<Event>)
    requires ValidRun(c, es) && Final(c, es).phase.Running?
    ensures var s := Final(c, es);
            && s.index == |s.deliveries|
            && (Admissible(c, s) <==>
                  PendingCount(s) < c.maxInFlight && (s.index < 5 || s.deliveries[s.index - 5].joined))
            && (forall i :: 0 <= i < s.index && !s.deliveries[i].joined && s.deliveries[i].order.category == s.next.category ==>
                  i == s.index - 5)
            && (PendingCount(s) == 0 ==> Admissible(c, s))
  {
    Reachable(c, es);
    GuardState(c, Final(c, es));
  }

  /** The only order that can occupy the next key. */
  lemma KeyInTheWay(c: Config, s: State)
    requires Window(c, s) && s.phase.Running?
    ensures s.next.category in s.activeKeys <==> s.index >= 5 && !s.deliveries[s.index - 5].joined
    ensures forall i :: 0 <= i < s.index && !s.deliveries[i].joined && Key(i) == Key(s.index) ==> i == s.index - 5
  {
    forall i | 0 <= i < s.index && !s.deliveries[i].joined && Key(i) == Key(s.index)
      ensures i == s.index - 5
    {
      KeysEqual(i, s.index);
    }
    if s.index >= 5 {
      KeysEqual(s.index - 5, s.index);
    }
  }

  lemma GuardState(c: Config, s: State)
    requires ConfigOk(c) && Window(c, s) && s.phase.Running?
    ensures Admissible(c, s) <==>
              PendingCount(s) < c.maxInFlight && (s.index < 5 || s.deliveries[s.index - 5].joined)
    ensures forall i :: 0 <= i < s.index && !s.deliveries[i].joined && s.deliveries[i].order.category == s.next.category ==>
              i == s.index - 5
    ensures PendingCount(s) == 0 ==> Admissible(c, s)
  {
    KeyInTheWay(c, s);
    SomePending(s.deliveries);
  }

  /** A step of the scheduler or of a task that is neither a shutdown nor a panic. */
  predicate Working(a: Action) {
    !a.Shutdown? && !a.Panic?
  }

  /** The step a pending delivery can take. */
  function PendingStep(s: State, i: nat): Action
    requires i < |s.deliveries|
  {
    match s.deliveries[i].stage
    case Ready => Attempt(i)
    case Waiting => Answer(i, true)
    case _ => if s.phase.Running? then Join(i) else DrainJoin(i)
  }

  lemma PendingCanStep(c: Config, s: State, i: nat)
    requires i < |s.deliveries| && !s.deliveries[i].joined && !s.phase.Returned?
    ensures Enabled(c, s, Event(s.now, PendingStep(s, i))) && Working(PendingStep(s, i))
  {
  }

  /** No reachable state of the loop or of the drain is stuck. */
  lemma Progress(c: Config, es: seq<Event>)
    requires ValidRun(c, es) && !Final(c, es).phase.Returned?
    ensures exists e: Event :: Enabled(c, Final(c, es), e) && Working(e.action)
  {
    var s := Final(c, es);
    if i: nat :| i < |s.deliveries| && !s.deliveries[i].joined {
      PendingCanStep(c, s, i);
    } else {
      SomePending(s.deliveries);
      if s.phase.Running? {
        GuardOrPending(c, es);
        assert Enabled(c, s, Event(if s.now < s.slot then s.slot else s.now, Tick([])));
      } else {
        assert Enabled(c, s, Event(s.now, Return));
      }
    }
  }

  // ----- the drain -----

  /** The steps a delivery has left, joining included. */
  function StepsLeft(d: Delivery): nat {
    if d.joined then 0
    else if |d.results| >= MAX_ATTEMPTS then 1
    else match d.stage
      case Ready => 2 * (MAX_ATTEMPTS - |d.results|) + 1
      case Waiting => 2 * (MAX_ATTEMPTS - |d.results|)
      case _ => 1
  }

  function DrainMeasure(s: State): nat {
    Tally(s.deliveries, StepsLeft) + (if s.phase.Returned? then 0 else 1)
  }

  /** Once the loop is left, every step leaves the admitted orders alone and lowers the measure. */
  ghost predicate Drained(c: Config, n: nat, s: State) {
    Inv(c, s) && !s.phase.Running? && |s.deliveries| == n
  }

  ghost predicate Lowers(s: State, t: State) {
    |t.deliveries| == |s.deliveries| && !t.phase.Running? && DrainMeasure(t) < DrainMeasure(s)
  }

  lemma RewriteLowers(s: State, i: nat, d: Delivery, t: State)
    requires i < |s.deliveries| && t.deliveries == s.deliveries[i := d] && StepsLeft(d) < StepsLeft(s.deliveries[i])
    requires t.phase == s.phase && !s.phase.Running?
    ensures Lowers(s, t)
  {
    TallyUpdate(s.deliveries, i, d, StepsLeft);
  }

  lemma SendLowers(s: State, i: nat)
    requires InStage(s, i, Ready) && DeliveryOk(s.deliveries[i]) && !s.phase.Running?
    ensures Lowers(s, Send(s, i))
  {
    RewriteLowers(s, i, s.deliveries[i].(stage := Waiting), Send(s, i));
  }

  lemma ReceiveLowers(s: State, i: nat, ok: bool)
    requires InStage(s, i, Waiting) && DeliveryOk(s.deliveries[i]) && !s.phase.Running?
    ensures Lowers(s, Receive(s, i, ok))
  {
    RewriteLowers(s, i, s.deliveries[i].Answer(ok), Receive(s, i, ok));
  }

  lemma CrashLowers(s: State, i: nat)
    requires (InStage(s, i, Ready) || InStage(s, i, Waiting)) && DeliveryOk(s.deliveries[i]) && !s.phase.Running?
    ensures Lowers(s, Crash(s, i))
  {
    var d := s.deliveries[i];
    RewriteLowers(s, i, d.(stage := Crashed(d.stage.Waiting?)), Crash(s, i));
  }

  lemma JoinLowers(s: State, i: nat)
    requires Joinable(s, i) && s.phase.Draining?
    ensures Lowers(s, JoinDraining(s, i))
  {
    RewriteLowers(s, i, s.deliveries[i].(joined := true), JoinDraining(s, i));
  }

  lemma DrainStep(c: Config, s: State, e: Event)
    requires ConfigOk(c) && Shape(c, s) && !s.phase.Running? && Enabled(c, s, e)
    ensures Lowers(s, Apply(c, s, e))
  {
    var t := s.(now := e.at);
    match e.action
    case Attempt(i) => SendLowers(t, i);
    case Answer(i, ok) => ReceiveLowers(t, i, ok);
    case Panic(i) => CrashLowers(t, i);
    case DrainJoin(i) => JoinLowers(t, i);
    case Return =>
  }

  lemma DrainIsInductive(c: Config, n: nat)
    requires ConfigOk(c)
    ensures Inductive(Next(c), s => Drained(c, n, s))
    ensures forall s: State, e: Event :: Drained(c, n, s) && Next(c)(s, e).Some? ==>
              DrainMeasure(Next(c)(s, e).value) < DrainMeasure(s)
  {
    forall s: State, e: Event | Drained(c, n, s) && Enabled(c, s, e)
      ensures Drained(c, n, Apply(c, s, e)) && DrainMeasure(Apply(c, s, e)) < DrainMeasure(s)
    {
      Step(c, s, e);
      DrainStep(c, s, e);
    }
  }

  lemma {:induction false} MeasureBound(ds: seq<Delivery>)
    ensures Tally(ds, StepsLeft) <= 7 * Tally(ds, Pending)
  {
    if ds != [] {
      MeasureBound(ds[..|ds| - 1]);
    }
  }

  /**
   * The drain terminates and loses nothing. From the moment the loop is left
   * no order is admitted; any further run has at most 36 steps; while it has not
   * returned it can go on; and when it has returned it has joined exactly the
   * deliveries that were pending, each once.
   */
  lemma DrainTheorem(c: Config, es: seq<Event>, fs: seq<Event>)
    requires ValidRun(c, es) && !Final(c, es).phase.Running?
    requires ValidFrom(c, Final(c, es), fs)
    ensures var s, t := Final(c, es), RunFrom(c, Final(c, es), fs);
            && t.index == s.index && |t.deliveries| == |s.deliveries|
            && |fs| <= DrainMeasure(s) <= 36
            && (!t.phase.Returned? ==> exists e: Event :: Enabled(c, t, e) && Working(e.action))
            && (t.phase.Returned? ==> |t.joins| == |t.deliveries| && forall i :: 0 <= i < |t.deliveries| ==> i in t.joins)
            && s.joins <= t.joins
            && (forall p, q :: 0 <= p < q < |t.joins| ==> t.joins[p] != t.joins[q])
            && (t.phase.Returned? ==> forall i: nat :: i in t.joins[|s.joins|..] <==> i in PendingSet(s.deliveries))
  {
    Reachable(c, es);
    var s := Final(c, es);
    DrainShortens(c, s, fs);
    Concat(Next(c), Init(), es, fs);
    Reachable(c, es + fs);
    JoinsExtend(c, s, fs);
    var t := RunFrom(c, s, fs);
    if t.phase.Returned? {
      JoinedTheRest(c, s, t);
    } else {
      Progress(c, es + fs);
    }
  }

  lemma DrainShortens(c: Config, s: State, fs: seq<Event>)
    requires Inv(c, s) && !s.phase.Running? && ValidFrom(c, s, fs)
    ensures Drained(c, |s.deliveries|, RunFrom(c, s, fs))
    ensures |fs| <= DrainMeasure(s) <= 36
  {
    DrainIsInductive(c, |s.deliveries|);
    Preserved(Next(c), u => Drained(c, |s.deliveries|, u), s, fs);
    Bounded(Next(c), u => Drained(c, |s.deliveries|, u), DrainMeasure, s, fs);
    MeasureBound(s.deliveries);
    AtMostFive(c, s);
  }

  lemma JoinedTheRest(c: Config, s: State, t: State)
    requires ConfigOk(c) && JoinOrder(c, s) && Shape(c, t) && JoinOrder(c, t) && t.phase.Returned?
    requires s.joins <= t.joins && |t.deliveries| == |s.deliveries|
    ensures |t.joins| == |t.deliveries| && forall i :: 0 <= i < |t.deliveries| ==> i in t.joins
    ensures forall i: nat :: i in t.joins[|s.joins|..] <==> i in PendingSet(s.deliveries)
  {
    JoinedEverything(c, t);
    forall i: nat
      ensures i in t.joins[|s.joins|..] <==> i in PendingSet(s.deliveries)
    {
      JoinedThePending(c, s, t, i);
    }
  }

  lemma JoinedEverything(c: Config, t: State)
    requires ConfigOk(c) && Shape(c, t) && JoinOrder(c, t) && t.phase.Returned?
    ensures |t.joins| == |t.deliveries| && forall i :: 0 <= i < |t.deliveries| ==> i in t.joins
  {
    SomePending(t.deliveries);
  }

  /** In a list without repetitions the rest holds what the prefix does not. */
  lemma RestOf(a: seq<nat>, b: seq<nat>, i: nat)
    requires a <= b && forall p, q :: 0 <= p < q < |b| ==> b[p] != b[q]
    ensures i in b[|a|..] <==> i in b && i !in a
  {
    assert b == a + b[|a|..];
  }

  lemma JoinedExactly(c: Config, s: State, i: nat)
    requires ConfigOk(c) && JoinOrder(c, s)
    ensures i in s.joins <==> i < |s.deliveries| && s.deliveries[i].joined
  {
  }

  /** The joins a drain adds are those of the deliveries that were pending. */
  lemma JoinedThePending(c: Config, s: State, t: State, i: nat)
    requires ConfigOk(c) && JoinOrder(c, s) && JoinOrder(c, t)
    requires s.joins <= t.joins && |t.deliveries| == |s.deliveries|
    requires forall i :: 0 <= i < |t.deliveries| ==> i in t.joins
    ensures i in t.joins[|s.joins|..] <==> i in PendingSet(s.deliveries)
  {
    RestOf(s.joins, t.joins, i);
    JoinedExactly(c, s, i);
    JoinedExactly(c, t, i);
  }

  /** What is joined stays joined, in the same order: later runs only extend the join list. */
  lemma {:induction false} JoinsExtend(c: Config, s: State, es: seq<Event>)
    requires ValidFrom(c, s, es)
    ensures s.joins <= RunFrom(c, s, es).joins
    decreases |es|
  {
    if es != [] {
      JoinsExtend(c, Apply(c, s, es[0]), es[1..]);
    }
  }
}
