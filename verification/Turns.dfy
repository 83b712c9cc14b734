// What the outside decides during a call: how the client answers, which task
// moves, what the select loop finds ready. What a call then comes to.
module Turns {
  import opened Accounting
  import opened Arithmetic
  import opened Counting
  import opened Deliveries
  import opened Invariants
  import opened Scheduler
  import opened Wrappers

  // ----- the client -----

  /** An attempt is answered, or the delivery panics before or after handing its record over. */
  datatype Reply = Replied(ok: bool) | PanicFirst | PanicLater

  /** The reply to attempt `n` of order `i`. */
  type Client = (nat, nat) -> Reply

  ghost predicate Follows(client: Client, i: nat, d: Delivery) {
    var n := |d.results|;
    && (forall k :: 0 <= k < n ==> client(i, k + 1) == Replied(d.results[k]))
    && (d.stage.Waiting? ==> client(i, n + 1) != PanicFirst)
    && (d.stage.Crashed? ==> client(i, n + 1) == if d.stage.sent then PanicLater else PanicFirst)
  }

  ghost predicate FollowsAll(client: Client, ds: seq<Delivery>) {
    forall i :: 0 <= i < |ds| ==> Follows(client, i, ds[i])
  }

  /** What the task of a live delivery does next. */
  function TaskAction(client: Client, i: nat, d: Delivery): Action {
    var reply := client(i, |d.results| + 1);
    if d.stage.Ready? && reply != PanicFirst then Attempt(i)
    else if d.stage.Waiting? && reply.Replied? then Answer(i, reply.ok)
    else Panic(i)
  }

  // ----- what the client decides -----

  /** One of the first three replies acknowledges the order, and the ones before it reject it. */
  predicate Acks(client: Client, i: nat) {
    || client(i, 1) == Replied(true)
    || (client(i, 1) == Replied(false) && client(i, 2) == Replied(true))
    || (client(i, 1) == Replied(false) && client(i, 2) == Replied(false) && client(i, 3) == Replied(true))
  }

  predicate Fails(client: Client, i: nat) {
    client(i, 1) == client(i, 2) == client(i, 3) == Replied(false)
  }

  ghost function Acked(client: Client): nat -> bool {
    (i: nat) => Acks(client, i)
  }

  ghost function Failed(client: Client): nat -> bool {
    (i: nat) => Fails(client, i)
  }

  /** How a delivery that is over ended. */
  lemma OutcomeDecided(client: Client, i: nat, d: Delivery)
    requires DeliveryOk(d) && !d.Live() && Follows(client, i, d)
    ensures d.stage == Done(true) <==> Acks(client, i)
    ensures d.stage == Done(false) <==> Fails(client, i)
  {
    var n := |d.results|;
    assert n > 0 ==> client(i, 1) == Replied(d.results[0]);
    assert n > 1 ==> client(i, 2) == Replied(d.results[1]);
    assert n > 2 ==> client(i, 3) == Replied(d.results[2]);
    if d.stage.Done? {
      assert forall k :: 0 <= k < n - 1 ==> d.results[..n - 1][k] == d.results[k];
    }
  }

  lemma {:induction false} CountsDecided(client: Client, ds: seq<Delivery>)
    requires FollowsAll(client, ds)
    requires forall i :: 0 <= i < |ds| ==> DeliveryOk(ds[i]) && ds[i].joined
    ensures Tally(ds, AckJoined) == Count(Acked(client), 0, |ds|)
    ensures Tally(ds, FailJoined) == Count(Failed(client), 0, |ds|)
  {
    if ds != [] {
      var n := |ds| - 1;
      CountsDecided(client, ds[..n]);
      assert Follows(client, n, ds[n]);
      OutcomeDecided(client, n, ds[n]);
    }
  }

  /**
   * However the deliveries were interleaved, the result of the call depends on the
   * client and the number of admitted orders only.
   */
  lemma ResultDecided(c: Config, client: Client, s: State)
    requires ConfigOk(c) && Shape(c, s) && Accounts(s) && JoinOrder(c, s) && s.phase.Returned?
    requires FollowsAll(client, s.deliveries)
    ensures s.report.acknowledged == Count(Acked(client), 0, s.index)
    ensures s.report.failed == Count(Failed(client), 0, s.index)
    ensures CallResult(s).Success? <==> forall i: nat :: i < s.index ==> Acks(client, i) || Fails(client, i)
  {
    CountsDecided(client, s.deliveries);
    ResultState(c, s);
    forall i: nat | i < s.index
      ensures s.deliveries[i].stage.Crashed? <==> !Acks(client, i) && !Fails(client, i)
    {
      assert Follows(client, i, s.deliveries[i]);
      OutcomeDecided(client, i, s.deliveries[i]);
    }
  }

  // ----- following the client, step by step -----

  lemma FollowsUpdate(client: Client, ds: seq<Delivery>, i: nat, d: Delivery)
    requires FollowsAll(client, ds) && i < |ds| && Follows(client, i, d)
    ensures FollowsAll(client, ds[i := d])
  {
  }

  lemma FollowsPush(client: Client, ds: seq<Delivery>, d: Delivery)
    requires FollowsAll(client, ds) && d.results == [] && d.stage == Ready
    ensures FollowsAll(client, ds + [d])
  {
    assert Follows(client, |ds|, d);
  }

  // ----- turns of the loop -----

  /**
   * One turn: a delivery task moves on, or the select is polled at a time, with
   * what it finds ready: a shutdown, a finished task, the reporting tick.
   */
  datatype Turn =
    | Task(i: nat)
    | Pass(at: nat, shutdown: bool, seen: Option<nat>, reporting: bool, trace: Trace)

  function Time(s: State, at: nat): nat {
    if at < s.now then s.now else at
  }

  /** The pass finds a finished task. */
  predicate Finds(s: State, turn: Turn) {
    turn.Pass? && !turn.shutdown && turn.seen.Some? && Joinable(s, turn.seen.value)
  }

  /** Nothing comes before the admission branch, the timer is due and the guard is open. */
  predicate Admits(c: Config, s: State, turn: Turn) {
    && turn.Pass? && !turn.shutdown && !turn.reporting
    && !(turn.seen.Some? && Joinable(s, turn.seen.value))
    && s.slot <= Time(s, turn.at)
    && PendingCount(s) < c.maxInFlight && s.next.category !in s.activeKeys
  }

  function TurnEvent(c: Config, client: Client, s: State, turn: Turn): Option<Event> {
    match turn
    case Task(i) =>
      if i < |s.deliveries| && !s.deliveries[i].joined && s.deliveries[i].Live()
      then Some(Event(s.now, TaskAction(client, i, s.deliveries[i]))) else None
    case Pass(at, shutdown, seen, reporting, trace) =>
      var time := Time(s, at);
      if shutdown then Some(Event(time, Shutdown))
      else if seen.Some? && Joinable(s, seen.value) then Some(Event(time, Join(seen.value)))
      else if !reporting && s.slot <= time && Admissible(c, s) then Some(Event(time, Tick(trace)))
      else None
  }

  ghost predicate StepsBy(c: Config, client: Client, s: State, turn: Turn, t: State) {
    match TurnEvent(c, client, s, turn)
    case None => t == s
    case Some(e) => ConfigOk(c) && Enabled(c, s, e) && t == Apply(c, s, e)
  }

  /** A turn admits an order exactly when nothing stands in the way. */
  lemma TurnAdmits(c: Config, client: Client, s: State, turn: Turn, t: State)
    requires StepsBy(c, client, s, turn, t)
    ensures t.index == s.index + One(Admits(c, s, turn))
  {
  }

  /** A finished task that the pass finds is joined in that pass, and otherwise none is. */
  lemma TurnJoins(c: Config, client: Client, s: State, turn: Turn, t: State)
    requires StepsBy(c, client, s, turn, t)
    ensures t.joins == s.joins + (if Finds(s, turn) then [turn.seen.value] else [])
  {
  }

  /** A shutdown leaves the loop at once, and so does a found panic; nothing else does. */
  lemma TurnLeaves(c: Config, client: Client, s: State, turn: Turn, t: State)
    requires StepsBy(c, client, s, turn, t) && s.phase.Running?
    ensures !t.phase.Running? <==>
              (turn.Pass? && turn.shutdown) || (Finds(s, turn) && s.deliveries[turn.seen.value].stage.Crashed?)
  {
  }

  /** A task that is under way moves on, unlike the others. */
  lemma TurnMoves(c: Config, client: Client, s: State, i: nat, t: State)
    requires StepsBy(c, client, s, Task(i), t) && i < |s.deliveries| && !s.deliveries[i].joined && s.deliveries[i].Live()
    ensures |t.deliveries| == |s.deliveries| && t.deliveries[i] != s.deliveries[i]
    ensures forall j :: 0 <= j < |s.deliveries| && j != i ==> t.deliveries[j] == s.deliveries[j]
  {
  }

  // ----- a whole loop -----

  /** The states before each turn the loop took and after the last. */
  ghost predicate IsTrail(c: Config, client: Client, trail: seq<State>, turns: seq<Turn>) {
    && 0 < |trail| <= |turns| + 1
    && forall k :: 0 <= k < |trail| - 1 ==>
         trail[k].phase.Running? && StepsBy(c, client, trail[k], turns[k], trail[k + 1])
  }

  /** How many turns of the loop had nothing in the way of an admission. */
  ghost function Admitting(c: Config, trail: seq<State>, turns: seq<Turn>): nat
    requires 0 < |trail| <= |turns| + 1
  {
    var n := |trail| - 1;
    if n == 0 then 0 else Admitting(c, trail[..n], turns) + One(Admits(c, trail[n - 1], turns[n - 1]))
  }

  lemma TrailPush(c: Config, client: Client, trail: seq<State>, turns: seq<Turn>, t: State)
    requires IsTrail(c, client, trail, turns) && |trail| <= |turns|
    requires trail[|trail| - 1].phase.Running? && StepsBy(c, client, trail[|trail| - 1], turns[|trail| - 1], t)
    ensures IsTrail(c, client, trail + [t], turns)
  {
  }

  /** Exactly these turns admit an order each. */
  lemma {:induction false} TrailAdmits(c: Config, client: Client, trail: seq<State>, turns: seq<Turn>)
    requires IsTrail(c, client, trail, turns)
    ensures trail[|trail| - 1].index == trail[0].index + Admitting(c, trail, turns)
  {
    var n := |trail| - 1;
    if n > 0 {
      TrailAdmits(c, client, trail[..n], turns);
      TurnAdmits(c, client, trail[n - 1], turns[n - 1], trail[n]);
    }
  }
}
