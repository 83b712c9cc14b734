// The scheduler over mutable locals: one pass of the select at a time, then
// the drain. Every method is tied to the step system by the ghost
// list of events it has performed.
module Sender {
  import opened Accounting
  import opened Counters
  import opened Counting
  import opened Deliveries
  import opened Drain
  import opened Orders
  import opened Preservation
  import opened Runs
  import opened Scheduler
  import opened Theorems
  import opened Ticker
  import opened Turns
  import opened Wrappers

  /** The join set holds exactly the deliveries that are not joined, in their current state. */
  ghost predicate Holds(pending: map<nat, Delivery>, ds: seq<Delivery>) {
    pending.Keys == PendingSet(ds) && forall i :: i in pending ==> pending[i] == ds[i]
  }

  lemma HoldsPush(pending: map<nat, Delivery>, ds: seq<Delivery>, d: Delivery)
    requires Holds(pending, ds) && !d.joined
    ensures Holds(pending[|ds| := d], ds + [d])
  {
  }

  lemma HoldsUpdate(pending: map<nat, Delivery>, ds: seq<Delivery>, i: nat, d: Delivery)
    requires Holds(pending, ds) && i in pending && !d.joined
    ensures Holds(pending[i := d], ds[i := d])
  {
  }

  lemma HoldsRemove(pending: map<nat, Delivery>, ds: seq<Delivery>, i: nat, d: Delivery)
    requires Holds(pending, ds) && i in pending && d.joined
    ensures Holds(pending - {i}, ds[i := d])
  {
  }

  lemma {:induction false} HoldsSize(pending: map<nat, Delivery>, ds: seq<Delivery>)
    requires Holds(pending, ds)
    ensures |pending| == Tally(ds, Pending)
  {
    PendingSetSize(ds);
    assert |pending| == |pending.Keys|;
  }

  class OrderSender {
    const config: Config
    const client: Client
    var now: nat
    var slot: nat
    var pending: map<nat, Delivery>
    var activeKeys: set<string>
    var report: SendReport
    var index: nat
    var next: Order
    var taskError: bool
    var sendErrors: nat
    var produced: map<ProducedLabel, nat>
    ghost var events: seq<Event>
    ghost var state: State

    ghost predicate Matches()
      reads this
    {
      && now == state.now && slot == state.slot && activeKeys == state.activeKeys && report == state.report
      && index == state.index && next == state.next && taskError == state.taskError
      && sendErrors == state.sendErrors && produced == state.produced
      && Holds(pending, state.deliveries)
    }

    ghost predicate Valid()
      reads this
    {
      && ValidRun(config, events) && state == Final(config, events) && Matches() && index == |state.deliveries|
      && FollowsAll(client, state.deliveries)
    }

    constructor (config: Config, client: Client)
      requires ConfigOk(config)
      ensures Valid() && this.config == config && this.client == client && events == [] && state == Init()
    {
      this.config, this.client := config, client;
      now, slot, index, sendErrors := 0, 0, 0, 0;
      pending, activeKeys, produced := map[], {}, map[];
      report, next, taskError := SendReport(0, 0), OrderAt(0), false;
      events, state := [], Init();
    }

    /** Records the step just performed on the fields. */
    ghost method Record(e: Event)
      requires ValidRun(config, events) && state == Final(config, events) && Enabled(config, state, e)
      modifies `events, `state
      ensures events == old(events) + [e] && state == Apply(config, old(state), e)
      ensures ValidRun(config, events) && state == Final(config, events)
    {
      Push(Next(config), Init(), events, e);
      events, state := events + [e], Apply(config, state, e);
    }

    // ----- a delivery task -----

    method Attempt(i: nat)
      requires Valid() && i in pending && pending[i].stage.Ready? && !state.phase.Returned?
      requires client(i, |pending[i].results| + 1) != PanicFirst
      modifies this
      ensures Valid() && events == old(events) + [Event(now, Action.Attempt(i))]
      ensures now == old(now) && state.phase == old(state.phase) && index == old(index)
    {
      var d := pending[i].(stage := Waiting);
      HoldsUpdate(pending, state.deliveries, i, d);
      FollowsUpdate(client, state.deliveries, i, d);
      Record(Event(now, Action.Attempt(i)));
      pending := pending[i := d];
    }

    /** What an answer does to each local, as the step system has it. */
    lemma AnswerFields(i: nat, ok: bool, t: State)
      requires Valid() && i in pending && pending[i].stage.Waiting? && client(i, |pending[i].results| + 1) == Replied(ok)
      requires t == Receive(state, i, ok)
      ensures Holds(pending[i := pending[i].Answer(ok)], t.deliveries) && FollowsAll(client, t.deliveries)
      ensures |t.deliveries| == |state.deliveries| && t.phase == state.phase
      ensures t.now == now && t.slot == slot && t.activeKeys == activeKeys && t.report == report
      ensures t.index == index && t.next == next && t.taskError == taskError
      ensures t.sendErrors == (if ok then sendErrors else sendErrors + 1)
      ensures t.produced == (if ok then Bump(produced, LabelOf(pending[i].order)) else produced)
    {
      HoldsUpdate(pending, state.deliveries, i, pending[i].Answer(ok));
      FollowsUpdate(client, state.deliveries, i, pending[i].Answer(ok));
    }

    method Answer(i: nat, ok: bool)
      requires Valid() && i in pending && pending[i].stage.Waiting? && !state.phase.Returned?
      requires client(i, |pending[i].results| + 1) == Replied(ok)
      modifies this
      ensures Valid() && events == old(events) + [Event(now, Action.Answer(i, ok))]
      ensures now == old(now) && state.phase == old(state.phase) && index == old(index)
    {
      var d := pending[i];
      AnswerFields(i, ok, Receive(state.(now := now), i, ok));
      Record(Event(now, Action.Answer(i, ok)));
      if ok {
        produced := Bump(produced, LabelOf(d.order));
      } else {
        sendErrors := sendErrors + 1;
      }
      pending := pending[i := d.Answer(ok)];
    }

    method Panic(i: nat)
      requires Valid() && i in pending && pending[i].Live() && !state.phase.Returned?
      requires client(i, |pending[i].results| + 1) == if pending[i].stage.Waiting? then PanicLater else PanicFirst
      modifies this
      ensures Valid() && events == old(events) + [Event(now, Action.Panic(i))]
      ensures now == old(now) && state.phase == old(state.phase) && index == old(index)
    {
      var d := pending[i].(stage := Crashed(pending[i].stage.Waiting?));
      HoldsUpdate(pending, state.deliveries, i, d);
      FollowsUpdate(client, state.deliveries, i, d);
      Record(Event(now, Action.Panic(i)));
      pending := pending[i := d];
    }

    /** The task of a delivery moves on as the client has it. */
    method MoveTask(i: nat)
      requires Valid() && i in pending && pending[i].Live() && !state.phase.Returned?
      modifies this
      ensures Valid() && events == old(events) + [Event(now, old(TaskAction(client, i, state.deliveries[i])))]
      ensures now == old(now) && state.phase == old(state.phase) && index == old(index)
    {
      var d := pending[i];
      assert Follows(client, i, d);
      var reply := client(i, |d.results| + 1);
      if d.stage.Ready? && reply != PanicFirst {
        Attempt(i);
      } else if d.stage.Waiting? && reply.Replied? {
        Answer(i, reply.ok);
      } else {
        Panic(i);
      }
    }

    // ----- the branches of the select loop -----

    predicate Guard()
      reads this
    {
      |pending| < config.maxInFlight && next.category !in activeKeys
    }

    lemma GuardIsAdmissible()
      requires Valid()
      ensures Guard() <==> Admissible(config, state)
    {
      HoldsSize(pending, state.deliveries);
    }

    /** What the admission branch does to each local, as the step system has it. */
    lemma TickFields(at: nat, trace: Trace, e: Event, d: Delivery, t: State)
      requires Valid() && e == Event(at, Tick(trace)) && Enabled(config, state, e) && t == Apply(config, state, e)
      requires d == NewDelivery(config.topic, trace, next.(tsMs := Stamp(index)))
      ensures Holds(pending[index := d], t.deliveries) && FollowsAll(client, t.deliveries) && |t.deliveries| == index + 1
      ensures t.now == at && t.slot == NextSlot(slot, at, config.period, config.tolerance)
      ensures t.activeKeys == activeKeys + {next.category} && t.index == index + 1 && t.next == OrderAt(index + 1)
      ensures t.report == report && t.taskError == taskError && t.phase == state.phase
      ensures t.sendErrors == sendErrors && t.produced == produced
    {
      HoldsPush(pending, state.deliveries, d);
      FollowsPush(client, state.deliveries, d);
    }

    /** Records an admission, stated by what it does to each local. */
    ghost method RecordTick(at: nat, trace: Trace, d: Delivery)
      requires Valid() && state.phase.Running? && now <= at && slot <= at && Admissible(config, state)
      requires d == NewDelivery(config.topic, trace, next.(tsMs := Stamp(index)))
      modifies `events, `state
      ensures events == old(events) + [Event(at, Tick(trace))]
      ensures ValidRun(config, events) && state == Final(config, events) && state.phase.Running?
      ensures Holds(pending[index := d], state.deliveries) && FollowsAll(client, state.deliveries)
      ensures |state.deliveries| == index + 1
      ensures state.now == at && state.slot == NextSlot(slot, at, config.period, config.tolerance)
      ensures state.activeKeys == activeKeys + {next.category} && state.index == index + 1 && state.next == OrderAt(index + 1)
      ensures state.report == report && state.taskError == taskError
      ensures state.sendErrors == sendErrors && state.produced == produced
    {
      var e := Event(at, Tick(trace));
      TickFields(at, trace, e, d, Apply(config, state, e));
      Record(e);
    }

    method OnTick(at: nat, trace: Trace)
      requires Valid() && state.phase.Running? && now <= at && slot <= at && Admissible(config, state)
      modifies this
      ensures Valid() && state.phase.Running? && events == old(events) + [Event(at, Tick(trace))] && now == at
    {
      var order := next.(tsMs := Stamp(index));
      var delivery := NewDelivery(config.topic, trace, order);
      RecordTick(at, trace, delivery);
      activeKeys, pending := activeKeys + {next.category}, pending[index := delivery];
      slot, now := NextSlot(slot, at, config.period, config.tolerance), at;
      index, next := index + 1, OrderAt(index + 1);
    }

    /** What taking a finished task does to each local, as the step system has it. */
    lemma JoinFields(at: nat, i: nat, e: Event, t: State)
      requires Valid() && !state.phase.Returned? && now <= at && i in pending && !pending[i].Live()
      requires e == Event(at, if state.phase.Running? then Join(i) else DrainJoin(i))
      requires Enabled(config, state, e) && t == Apply(config, state, e)
      ensures var d := pending[i];
              && Holds(pending - {i}, t.deliveries) && FollowsAll(client, t.deliveries) && |t.deliveries| == |state.deliveries|
              && t.now == at && t.slot == slot && t.index == index && t.next == next
              && t.sendErrors == sendErrors && t.produced == produced
              && t.report == (if d.stage.Done? then report.Record(d.stage.success) else report)
              && t.taskError == (taskError || d.stage.Crashed?)
              && (if state.phase.Running? && d.stage.Done?
                  then t.phase.Running? && t.activeKeys == activeKeys - {d.order.category}
                  else t.phase.Draining? && t.activeKeys == activeKeys)
    {
      var d := pending[i].(joined := true);
      HoldsRemove(pending, state.deliveries, i, d);
      FollowsUpdate(client, state.deliveries, i, d);
    }

    /** Takes a finished task; a panic leaves the loop. */
    method OnJoin(at: nat, i: nat) returns (running: bool)
      requires Valid() && state.phase.Running? && now <= at && i in pending && !pending[i].Live()
      modifies this
      ensures Valid() && running == state.phase.Running? && events == old(events) + [Event(at, Join(i))] && now == at
      ensures !running ==> state.phase.Draining?
    {
      var d := pending[i];
      JoinFields(at, i, Event(at, Join(i)), Apply(config, state, Event(at, Join(i))));
      Record(Event(at, Join(i)));
      pending := pending - {i};
      now := at;
      match d.stage {
        case Done(success) =>
          activeKeys := activeKeys - {d.order.category};
          report := report.Record(success);
          running := true;
        case Crashed(_) =>
          taskError := true;
          running := false;
      }
    }

    method OnShutdown(at: nat)
      requires Valid() && state.phase.Running? && now <= at
      modifies this
      ensures Valid() && state.phase.Draining? && now == at && index == old(index)
      ensures events == old(events) + [Event(at, Shutdown)]
    {
      Record(Event(at, Shutdown));
      now := at;
    }

    /**
     * One pass of the biased select: shutdown first, then a finished delivery,
     * then the reporting tick, then an admission if the timer is due and the
     * guard holds; otherwise nothing happens.
     */
    method Select(at: nat, shutdown: bool, finished: Option<nat>, reporting: bool, trace: Trace) returns (running: bool)
      requires Valid() && state.phase.Running? && now <= at
      requires finished.Some? ==> finished.value in pending && !pending[finished.value].Live()
      modifies this
      ensures Valid() && running == state.phase.Running? && (!running ==> state.phase.Draining?)
      ensures old(now) <= now && (shutdown ==> !running && index == old(index))
      ensures events == old(events) +
                        if shutdown then [Event(at, Shutdown)]
                        else if finished.Some? then [Event(at, Join(finished.value))]
                        else if !reporting && old(slot <= at && Guard()) then [Event(at, Tick(trace))]
                        else []
    {
      running := true;
      if shutdown {
        OnShutdown(at);
        running := false;
      } else if finished.Some? {
        running := OnJoin(at, finished.value);
      } else if reporting {
        // only logs
      } else if slot <= at && Guard() {
        GuardIsAdmissible();
        OnTick(at, trace);
      }
    }

    // ----- the drain -----

    method OnDrainJoin(at: nat, i: nat)
      requires Valid() && state.phase.Draining? && now <= at && i in pending && !pending[i].Live()
      modifies this
      ensures Valid() && state.phase.Draining? && now == at && index == old(index)
      ensures events == old(events) + [Event(at, DrainJoin(i))]
    {
      var d := pending[i];
      JoinFields(at, i, Event(at, DrainJoin(i)), Apply(config, state, Event(at, DrainJoin(i))));
      Record(Event(at, DrainJoin(i)));
      pending := pending - {i};
      now := at;
      match d.stage {
        case Done(success) => report := report.Record(success);
        case Crashed(_) => taskError := true;
      }
    }

    /** Whatever a pending delivery does next: its task moves on, or it is joined. */
    method Advance(i: nat) returns (ghost action: Action)
      requires Valid() && state.phase.Draining? && i in pending
      modifies this
      ensures Valid() && state.phase.Draining? && now == old(now) && index == old(index)
      ensures events == old(events) + [Event(now, action)]
    {
      if pending[i].Live() {
        action := TaskAction(client, i, state.deliveries[i]);
        MoveTask(i);
      } else {
        action := DrainJoin(i);
        OnDrainJoin(now, i);
      }
    }

    /** Joins until nothing is pending; every step of a task brings the end nearer. */
    method DrainAll() returns (result: Result<SendReport, ()>)
      requires Valid() && state.phase.Draining?
      modifies this
      ensures Valid() && state.phase.Returned? && result == CallResult(state) && index == old(index)
    {
      while pending != map[]
        invariant Valid() && state.phase.Draining? && index == old(index)
        decreases DrainMeasure(state)
      {
        var i :| i in pending;
        ghost var before, es := state, events;
        ghost var action := Advance(i);
        Reachable(config, es);
        PushInverse(Next(config), Init(), es, Event(now, action));
        Drain.DrainStep(config, before, Event(now, action));
      }
      HoldsSize(pending, state.deliveries);
      Record(Event(now, Return));
      result := if taskError then Failure(()) else Success(report);
    }

    // ----- the loop -----

    /** The events one turn performs are the step of the turn. */
    lemma TurnTaken(before: State, es: seq<Event>, turn: Turn)
      requires Valid() && ValidRun(config, es) && before == Final(config, es)
      requires var next := TurnEvent(config, client, before, turn);
               events == es + (if next.Some? then [next.value] else [])
      ensures StepsBy(config, client, before, turn, state)
    {
      var next := TurnEvent(config, client, before, turn);
      if next.Some? {
        PushInverse(Next(config), Init(), es, next.value);
      } else {
        assert es + [] == es;
      }
    }

    /** A delivery's task moves on if it is still under way. */
    method TakeTask(i: nat)
      requires Valid() && state.phase.Running?
      modifies this
      ensures Valid() && state.phase.Running? && StepsBy(config, client, old(state), Task(i), state)
    {
      ghost var before, es := state, events;
      if i in pending && pending[i].Live() {
        MoveTask(i);
      }
      TurnTaken(before, es, Task(i));
    }

    /** The select is polled at a time, with what it finds ready. */
    method Poll(at: nat, shutdown: bool, seen: Option<nat>, reporting: bool, trace: Trace) returns (running: bool)
      requires Valid() && state.phase.Running?
      modifies this
      ensures Valid() && running == state.phase.Running? && (!running ==> state.phase.Draining?)
      ensures StepsBy(config, client, old(state), Pass(at, shutdown, seen, reporting, trace), state)
    {
      ghost var before, es := state, events;
      var time := if at < now then now else at;
      var finished := if seen.Some? && seen.value in pending && !pending[seen.value].Live() then seen else None;
      GuardIsAdmissible();
      running := Select(time, shutdown, finished, reporting, trace);
      TurnTaken(before, es, Pass(at, shutdown, seen, reporting, trace));
    }

    /** One turn of the loop. */
    method TakeTurn(turn: Turn) returns (running: bool)
      requires Valid() && state.phase.Running?
      modifies this
      ensures Valid() && running == state.phase.Running? && (!running ==> state.phase.Draining?)
      ensures StepsBy(config, client, old(state), turn, state)
    {
      match turn {
        case Task(i) =>
          TakeTask(i);
          running := true;
        case Pass(at, shutdown, seen, reporting, trace) =>
          running := Poll(at, shutdown, seen, reporting, trace);
      }
    }

    /**
     * The select loop over any list of turns; it is left at the first shutdown or
     * found panic and otherwise is still running after the last turn. The trail
     * holds the states on the way.
     */
    method Loop(turns: seq<Turn>) returns (running: bool, ghost trail: seq<State>)
      requires Valid() && state.phase.Running?
      modifies this
      ensures Valid() && running == state.phase.Running? && (!running ==> state.phase.Draining?)
      ensures IsTrail(config, client, trail, turns) && trail[0] == old(state) && trail[|trail| - 1] == state
      ensures running ==> |trail| == |turns| + 1
      ensures index == old(index) + Admitting(config, trail, turns)
    {
      var k := 0;
      running, trail := true, [state];
      while running && k < |turns|
        invariant Valid() && running == state.phase.Running? && (!running ==> state.phase.Draining?)
        invariant k <= |turns| && |trail| == k + 1 && IsTrail(config, client, trail, turns)
        invariant trail[0] == old(state) && trail[k] == state
        decreases |turns| - k
      {
        running := TakeTurn(turns[k]);
        TrailPush(config, client, trail, turns, state);
        trail := trail + [state];
        k := k + 1;
      }
      TrailAdmits(config, client, trail, turns);
    }
  }

  /**
   * The whole call, for every period, limit, client and interleaving: the loop
   * takes its turns, the shutdown comes after them if it has not come before, and
   * everything pending is drained. Each turn with nothing in the way of it admits
   * one order, and the result says what the client decided for these orders.
   */
  method SendOrders(config: Config, client: Client, turns: seq<Turn>)
    returns (sender: OrderSender, result: Result<SendReport, ()>, ghost trail: seq<State>)
    requires ConfigOk(config)
    ensures fresh(sender) && sender.Valid() && sender.config == config && sender.client == client
    ensures sender.state.phase.Returned? && result == CallResult(sender.state)
    ensures IsTrail(config, client, trail, turns) && trail[0] == Init()
    ensures |trail| == |turns| + 1 || !trail[|trail| - 1].phase.Running?
    ensures sender.index == Admitting(config, trail, turns)
    ensures result == if forall i: nat :: i < sender.index ==> Acks(client, i) || Fails(client, i)
                      then Success(SendReport(Count(Acked(client), 0, sender.index),
                                              Count(Turns.Failed(client), 0, sender.index)))
                      else Failure(())
  {
    sender := new OrderSender(config, client);
    var running;
    running, trail := sender.Loop(turns);
    if running {
      running := sender.Select(sender.now, true, None, false, []);
    }
    result := sender.DrainAll();
    Reachable(config, sender.events);
    ResultDecided(config, client, sender.state);
  }
}
