// Every step of the scheduler keeps every invariant.
module Preservation {
  import opened Counters
  import opened Deliveries
  import opened Invariants
  import opened Orders
  import opened Runs
  import opened Scheduler

  lemma InvInit(c: Config)
    requires ConfigOk(c)
    ensures Inv(c, Init())
  {
    KeysEqual(0, 0);
  }

  lemma LaterKeeps(c: Config, s: State, at: nat)
    requires Inv(c, s) && s.now <= at
    ensures Inv(c, s.(now := at))
  {
    PacingLater(c, s, at);
  }

  lemma FreshDelivery(c: Config, s: State, trace: Trace) returns (d: Delivery)
    requires c.period > 0 && s.slot <= s.now && s.next == OrderAt(s.index)
    ensures Genuine(c, s.index, d) && DeliveryOk(d) && d.results == [] && d.stage == Ready && !d.joined
    ensures Admit(c, s, trace).deliveries == s.deliveries + [d]
  {
    var order := s.next.(tsMs := Stamp(s.index));
    d := NewDelivery(c.topic, trace, order);
  }

  lemma AdmitKeeps(c: Config, s: State, trace: Trace)
    requires Inv(c, s) && s.phase.Running? && s.slot <= s.now && Admissible(c, s)
    ensures Inv(c, Admit(c, s, trace))
  {
    var d := FreshDelivery(c, s, trace);
    var t := Admit(c, s, trace);
    ShapeAdmit(c, s, d, t);
    WindowAdmit(c, s, trace);
    AccountsPush(s, d, t);
    LabelsAdmit(s, d, t);
    FreeKey(c, s);
    JoinOrderAdmit(c, s, d, t);
    LogsAdmit(s, d, t);
    LogTalliesAdmit(s, d, t);
    PacingAdmit(c, s, trace);
  }

  /** What the steps of a delivery task have in common: only the delivery, its log and its counters move. */
  ghost predicate TaskStep(s: State, i: nat, d: Delivery, more: seq<LogEntry>, t: State) {
    && Rewrites(s, i, d, t) && !s.deliveries[i].joined && !d.joined && DeliveryOk(d)
    && t.phase == s.phase && t.activeKeys == s.activeKeys && t.report == s.report
    && t.taskError == s.taskError && t.joins == s.joins
    && t.sendErrors == s.sendErrors + Errors(d) - Errors(s.deliveries[i])
    && s.deliveries[i].Live()
    && t.produced == (if d.stage == Done(true) then Bump(s.produced, LabelOf(d.order)) else s.produced)
    && t.log == s.log + more && |more| <= 1
    && DeliveryLog(i, d) == DeliveryLog(i, s.deliveries[i]) + more
    && (more != [] ==> more[0].index == i && (more[0].Sent? ==> more[0].record == d.record))
  }

  lemma TaskBooks(c: Config, s: State, i: nat, d: Delivery, more: seq<LogEntry>, t: State)
    requires Accounts(s) && Labels(s) && TaskStep(s, i, d, more, t)
    ensures Accounts(t) && Labels(t)
  {
    BumpTotal(s.produced, LabelOf(d.order));
    AccountsTask(s, i, d, t);
    if d.stage == Done(true) {
      LabelsBump(s, i, d, t);
    } else {
      LabelsUpdate(s, i, d, t);
    }
  }

  lemma TaskLogs(c: Config, s: State, i: nat, d: Delivery, more: seq<LogEntry>, t: State)
    requires Window(c, s) && Logs(s) && TaskStep(s, i, d, more, t)
    ensures Logs(t)
  {
    if more == [] {
      LogsKeep(c, s, i, d, t);
    } else {
      assert more == [more[0]];
      LogsAppend(c, s, i, d, more[0], t);
    }
  }

  lemma TaskKeeps(c: Config, s: State, i: nat, d: Delivery, more: seq<LogEntry>, t: State)
    requires Inv(c, s) && TaskStep(s, i, d, more, t) && MovesBy(s.deliveries[i], d, more) && !s.phase.Returned?
    ensures Inv(c, t)
  {
    ShapeRewrite(c, s, i, d, t);
    WindowRewrite(c, s, i, d, t);
    TaskBooks(c, s, i, d, more, t);
    JoinOrderTask(c, s, i, d, t);
    TaskLogs(c, s, i, d, more, t);
    LogTalliesRewrite(s, i, d, more, t);
  }

  lemma SendIsTaskStep(s: State, i: nat)
    requires InStage(s, i, Ready) && DeliveryOk(s.deliveries[i])
    ensures var d := s.deliveries[i];
            TaskStep(s, i, d.(stage := Waiting), [Sent(i, |d.results| + 1, d.record)], Send(s, i))
  {
  }

  lemma SendMoves(i: nat, d: Delivery)
    requires d.stage == Ready && DeliveryOk(d)
    ensures MovesBy(d, d.(stage := Waiting), [Sent(i, |d.results| + 1, d.record)])
  {
  }

  lemma ReceiveMoves(i: nat, d: Delivery, ok: bool)
    requires d.stage == Waiting && DeliveryOk(d) && d.order.amount == OrderAt(i).amount
    ensures MovesBy(d, d.Answer(ok), [Answered(i, |d.results| + 1, ok)])
  {
    AnswerCounts(d, ok);
  }

  lemma CrashMoves(d: Delivery)
    requires d.Live() && DeliveryOk(d)
    ensures MovesBy(d, d.(stage := Crashed(d.stage.Waiting?)), [])
  {
  }

  lemma SendKeeps(c: Config, s: State, i: nat)
    requires Inv(c, s) && InStage(s, i, Ready)
    ensures Inv(c, Send(s, i))
  {
    var d := s.deliveries[i];
    SendIsTaskStep(s, i);
    SendMoves(i, d);
    TaskKeeps(c, s, i, d.(stage := Waiting), [Sent(i, |d.results| + 1, d.record)], Send(s, i));
  }

  lemma AnswerCounts(d: Delivery, ok: bool)
    requires d.stage.Waiting? && DeliveryOk(d)
    ensures Errors(d.Answer(ok)) == Errors(d) + (if ok then 0 else 1)
    ensures d.Answer(ok).stage == Done(true) <==> ok
  {
  }

  lemma ReceiveIsTaskStep(s: State, i: nat, ok: bool, d: Delivery, t: State)
    requires InStage(s, i, Waiting) && DeliveryOk(s.deliveries[i])
    requires d == s.deliveries[i].Answer(ok) && t == Receive(s, i, ok)
    ensures TaskStep(s, i, d, [Answered(i, |s.deliveries[i].results| + 1, ok)], t)
  {
    AnswerOk(s.deliveries[i], ok);
    AnswerLog(i, s.deliveries[i], ok);
    AnswerCounts(s.deliveries[i], ok);
  }

  lemma ReceiveKeeps(c: Config, s: State, i: nat, ok: bool)
    requires Inv(c, s) && InStage(s, i, Waiting)
    ensures Inv(c, Receive(s, i, ok))
  {
    var d := s.deliveries[i];
    ReceiveIsTaskStep(s, i, ok, d.Answer(ok), Receive(s, i, ok));
    assert Genuine(c, i, d);
    ReceiveMoves(i, d, ok);
    TaskKeeps(c, s, i, d.Answer(ok), [Answered(i, |d.results| + 1, ok)], Receive(s, i, ok));
  }

  lemma CrashIsTaskStep(s: State, i: nat)
    requires (InStage(s, i, Ready) || InStage(s, i, Waiting)) && DeliveryOk(s.deliveries[i])
    ensures var d := s.deliveries[i];
            TaskStep(s, i, d.(stage := Crashed(d.stage.Waiting?)), [], Crash(s, i))
  {
  }

  lemma CrashKeeps(c: Config, s: State, i: nat)
    requires Inv(c, s) && (InStage(s, i, Ready) || InStage(s, i, Waiting))
    ensures Inv(c, Crash(s, i))
  {
    var d := s.deliveries[i];
    CrashIsTaskStep(s, i);
    CrashMoves(d);
    TaskKeeps(c, s, i, d.(stage := Crashed(d.stage.Waiting?)), [], Crash(s, i));
  }

  /** What the two ways of joining have in common. */
  ghost predicate JoinStep(s: State, i: nat, d: Delivery, t: State) {
    && Rewrites(s, i, d, t) && !s.deliveries[i].joined && !s.deliveries[i].Live()
    && d == s.deliveries[i].(joined := true)
    && t.report == (if d.stage.Done? then s.report.Record(d.stage.success) else s.report)
    && t.taskError == (s.taskError || d.stage.Crashed?)
    && t.joins == s.joins + [i] && t.sendErrors == s.sendErrors && t.produced == s.produced && t.log == s.log
    && if s.phase.Running? && d.stage.Done?
       then t.phase.Running? && t.activeKeys == s.activeKeys - {d.order.category}
       else t.phase.Draining? && t.activeKeys == s.activeKeys
  }

  lemma JoinShape(c: Config, s: State, i: nat, d: Delivery, t: State)
    requires Shape(c, s) && JoinStep(s, i, d, t)
    ensures Shape(c, t)
  {
    ShapeRewrite(c, s, i, d, t);
  }

  lemma JoinWindow(c: Config, s: State, i: nat, d: Delivery, t: State)
    requires Window(c, s) && JoinStep(s, i, d, t)
    ensures Window(c, t)
  {
    if t.phase.Running? {
      WindowJoin(c, s, i, d, t);
    } else {
      WindowRewrite(c, s, i, d, t);
    }
  }

  lemma JoinBooks(s: State, i: nat, d: Delivery, t: State)
    requires Accounts(s) && Labels(s) && JoinStep(s, i, d, t)
    ensures Accounts(t) && Labels(t)
  {
    AccountsJoin(s, i, d, t);
    LabelsUpdate(s, i, d, t);
  }

  lemma JoinTakes(c: Config, s: State, i: nat, d: Delivery, t: State)
    requires ConfigOk(c) && Window(c, s) && JoinOrder(c, s) && JoinStep(s, i, d, t)
    ensures JoinOrder(c, t)
  {
    JoinOrderTake(c, s, i, d, t);
  }

  lemma JoinLogs(c: Config, s: State, i: nat, d: Delivery, t: State)
    requires Logs(s) && JoinStep(s, i, d, t)
    ensures Logs(t)
  {
    LogsKeep(c, s, i, d, t);
  }

  lemma JoinTallies(s: State, i: nat, d: Delivery, t: State)
    requires LogTallies(s) && JoinStep(s, i, d, t)
    ensures LogTallies(t)
  {
    LogTalliesRewrite(s, i, d, [], t);
  }

  lemma JoinKeeps(c: Config, s: State, i: nat, d: Delivery, t: State)
    requires Inv(c, s) && JoinStep(s, i, d, t)
    ensures Inv(c, t)
  {
    JoinShape(c, s, i, d, t);
    JoinWindow(c, s, i, d, t);
    JoinBooks(s, i, d, t);
    JoinTakes(c, s, i, d, t);
    JoinLogs(c, s, i, d, t);
    JoinTallies(s, i, d, t);
  }

  lemma JoinRunningIsJoinStep(s: State, i: nat)
    requires s.phase.Running? && Joinable(s, i)
    ensures JoinStep(s, i, s.deliveries[i].(joined := true), JoinRunning(s, i))
  {
  }

  lemma JoinRunningKeeps(c: Config, s: State, i: nat)
    requires Inv(c, s) && s.phase.Running? && Joinable(s, i)
    ensures Inv(c, JoinRunning(s, i))
  {
    JoinRunningIsJoinStep(s, i);
    JoinKeeps(c, s, i, s.deliveries[i].(joined := true), JoinRunning(s, i));
  }

  lemma JoinDrainingIsJoinStep(s: State, i: nat)
    requires s.phase.Draining? && Joinable(s, i)
    ensures JoinStep(s, i, s.deliveries[i].(joined := true), JoinDraining(s, i))
  {
  }

  lemma JoinDrainingKeeps(c: Config, s: State, i: nat)
    requires Inv(c, s) && s.phase.Draining? && Joinable(s, i)
    ensures Inv(c, JoinDraining(s, i))
  {
    JoinDrainingIsJoinStep(s, i);
    JoinKeeps(c, s, i, s.deliveries[i].(joined := true), JoinDraining(s, i));
  }

  lemma ShapeReturned(c: Config, s: State)
    requires Shape(c, s) && PendingCount(s) == 0
    ensures Shape(c, s.(phase := Returned))
  {
    SomePending(s.deliveries);
  }

  lemma PhaseBooks(s: State, t: State)
    requires Accounts(s) && Labels(s) && Logs(s) && LogTallies(s) && t == s.(phase := t.phase) && !t.phase.Running?
    ensures Accounts(t) && Labels(t) && Logs(t) && LogTallies(t)
  {
  }

  lemma PhaseWindow(c: Config, s: State, t: State)
    requires ConfigOk(c) && Window(c, s) && JoinOrder(c, s) && Pacing(c, s) && t == s.(phase := t.phase) && !t.phase.Running?
    ensures Window(c, t) && JoinOrder(c, t) && Pacing(c, t)
  {
  }

  lemma PhaseKeeps(c: Config, s: State, t: State)
    requires Inv(c, s) && t == s.(phase := t.phase) && !t.phase.Running? && Shape(c, t)
    ensures Inv(c, t)
  {
    PhaseBooks(s, t);
    PhaseWindow(c, s, t);
  }

  lemma Step(c: Config, s: State, e: Event)
    requires Inv(c, s) && Enabled(c, s, e)
    ensures Inv(c, Apply(c, s, e))
  {
    var t := s.(now := e.at);
    LaterKeeps(c, s, e.at);
    match e.action
    case Tick(trace) => AdmitKeeps(c, t, trace);
    case Attempt(i) => SendKeeps(c, t, i);
    case Answer(i, ok) => ReceiveKeeps(c, t, i, ok);
    case Panic(i) => CrashKeeps(c, t, i);
    case Join(i) => JoinRunningKeeps(c, t, i);
    case Shutdown => PhaseKeeps(c, t, t.(phase := Draining));
    case DrainJoin(i) => JoinDrainingKeeps(c, t, i);
    case Return =>
      ShapeReturned(c, t);
      PhaseKeeps(c, t, t.(phase := Returned));
  }

  lemma StepsKeepInv(c: Config)
    requires ConfigOk(c)
    ensures Inductive(Next(c), s => Inv(c, s))
  {
    forall s: State, e: Event | Inv(c, s) && Enabled(c, s, e)
      ensures Inv(c, Apply(c, s, e))
    {
      Step(c, s, e);
    }
  }

  lemma InvFrom(c: Config, s: State, es: seq<Event>)
    requires Inv(c, s) && ValidFrom(c, s, es)
    ensures Inv(c, RunFrom(c, s, es))
  {
    StepsKeepInv(c);
    Preserved(Next(c), s => Inv(c, s), s, es);
  }

  /** Every reachable state keeps every invariant. */
  lemma Reachable(c: Config, es: seq<Event>)
    requires ValidRun(c, es)
    ensures Inv(c, Final(c, es))
  {
    InvInit(c);
    InvFrom(c, Init(), es);
  }
}
