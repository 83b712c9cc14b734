// What every step of the scheduler keeps, one invariant at a time.
module Invariants {
  import opened Arithmetic
  import opened Counters
  import opened Deliveries
  import opened Orders
  import opened Scheduler
  import opened Ticker
  import opened Wrappers

  function Stamped(i: nat): Order {
    OrderAt(i).(tsMs := Stamp(i))
  }

  function Min(a: nat, b: nat): nat {
    if a < b then a else b
  }

  // ----- the admitted orders -----

  /** Delivery `i` carries the generated order `i`, stamped, in the one record built for it. */
  ghost predicate Genuine(c: Config, i: nat, d: Delivery) {
    d.order == Stamped(i) && d.record == BuildRecord(c.topic, d.trace, d.order)
  }

  /** The admitted orders are the generated ones in order, and each delivery is in a legal state. */
  ghost predicate Shape(c: Config, s: State) {
    && s.index == |s.deliveries|
    && s.next == OrderAt(s.index)
    && (forall i :: 0 <= i < s.index ==> Genuine(c, i, s.deliveries[i]) && DeliveryOk(s.deliveries[i]))
    && (s.phase.Returned? ==> forall i :: 0 <= i < s.index ==> s.deliveries[i].joined)
  }

  lemma ShapeAdmit(c: Config, s: State, d: Delivery, t: State)
    requires Shape(c, s) && s.phase.Running? && t.phase == s.phase
    requires Genuine(c, s.index, d) && DeliveryOk(d)
    requires t.deliveries == s.deliveries + [d] && t.index == s.index + 1 && t.next == OrderAt(t.index)
    ensures Shape(c, t)
  {
    forall i | 0 <= i < t.index
      ensures Genuine(c, i, t.deliveries[i]) && DeliveryOk(t.deliveries[i])
    {
      assert i < s.index ==> Genuine(c, i, s.deliveries[i]) && t.deliveries[i] == s.deliveries[i];
    }
  }

  /** A step that rewrites delivery `i`, keeping its order and record. */
  ghost predicate Rewrites(s: State, i: nat, d: Delivery, t: State) {
    && i < |s.deliveries|
    && d.order == s.deliveries[i].order && d.trace == s.deliveries[i].trace && d.record == s.deliveries[i].record
    && t.deliveries == s.deliveries[i := d]
    && t.index == s.index && t.next == s.next && t.admissions == s.admissions && t.slot == s.slot && t.now == s.now
  }

  lemma ShapeRewrite(c: Config, s: State, i: nat, d: Delivery, t: State)
    requires Shape(c, s) && Rewrites(s, i, d, t) && DeliveryOk(d) && !t.phase.Returned?
    ensures Shape(c, t)
  {
  }

  // ----- the window of pending orders -----

  /** Pending orders are among the last five and their keys are the occupied ones. */
  ghost predicate Window(c: Config, s: State) {
    && s.index == |s.deliveries|
    && s.next.category == Key(s.index)
    && (forall i :: 0 <= i < s.index ==> s.deliveries[i].order.category == Key(i))
    && (forall i :: 0 <= i < s.index && !s.deliveries[i].joined ==> i + 5 >= s.index)
    && (forall i :: 0 <= i < s.index && !s.deliveries[i].joined ==> Key(i) in s.activeKeys)
    && (s.phase.Running? ==>
          forall k :: k in s.activeKeys ==> exists i :: 0 <= i < s.index && !s.deliveries[i].joined && Key(i) == k)
  }

  /** A free key leaves at most four orders pending, all in the last four. */
  lemma FreeKey(c: Config, s: State)
    requires Window(c, s) && s.next.category !in s.activeKeys
    ensures forall i :: 0 <= i < s.index && !s.deliveries[i].joined ==> i + 4 >= s.index
    ensures PendingCount(s) <= 4
  {
    if s.index >= 5 {
      KeysEqual(s.index - 5, s.index);
    }
    PendingBound(s.deliveries, 4);
  }

  lemma WindowAdmit(c: Config, s: State, trace: Trace)
    requires c.period > 0 && s.slot <= s.now && Window(c, s) && s.next.category !in s.activeKeys
    ensures Window(c, Admit(c, s, trace))
  {
    var t := Admit(c, s, trace);
    FreeKey(c, s);
    forall k | k in t.activeKeys && s.phase.Running?
      ensures exists i :: 0 <= i < t.index && !t.deliveries[i].joined && Key(i) == k
    {
      if k in s.activeKeys {
        var i :| 0 <= i < s.index && !s.deliveries[i].joined && Key(i) == k;
        assert !t.deliveries[i].joined;
      } else {
        assert !t.deliveries[s.index].joined && Key(s.index) == k;
      }
    }
  }

  lemma WindowRewrite(c: Config, s: State, i: nat, d: Delivery, t: State)
    requires Window(c, s) && Rewrites(s, i, d, t) && !s.deliveries[i].joined
    requires t.activeKeys == s.activeKeys && (t.phase == s.phase || t.phase.Draining?)
    requires d.joined ==> t.phase.Draining?
    ensures Window(c, t)
  {
    forall k | k in t.activeKeys && t.phase.Running?
      ensures exists i :: 0 <= i < t.index && !t.deliveries[i].joined && Key(i) == k
    {
      var j :| 0 <= j < s.index && !s.deliveries[j].joined && Key(j) == k;
      assert !t.deliveries[j].joined;
    }
  }

  /** Joining frees the key of the order and of no other pending one. */
  lemma WindowJoin(c: Config, s: State, i: nat, d: Delivery, t: State)
    requires Window(c, s) && s.phase.Running? && Rewrites(s, i, d, t) && !s.deliveries[i].joined && d.joined
    requires t.activeKeys == s.activeKeys - {d.order.category} && t.phase == s.phase
    ensures Window(c, t)
  {
    forall j | 0 <= j < s.index && j != i && !s.deliveries[j].joined
      ensures Key(j) != Key(i)
    {
      KeysEqual(i, j);
      KeysEqual(j, i);
    }
    forall k | k in t.activeKeys
      ensures exists j :: 0 <= j < t.index && !t.deliveries[j].joined && Key(j) == k
    {
      var j :| 0 <= j < s.index && !s.deliveries[j].joined && Key(j) == k;
      assert !t.deliveries[j].joined;
    }
  }

  // ----- accounts -----

  /** Every counter is a tally over the deliveries. */
  ghost predicate Accounts(s: State) {
    && s.report.acknowledged == Tally(s.deliveries, AckJoined)
    && s.report.failed == Tally(s.deliveries, FailJoined)
    && (s.taskError <==> Tally(s.deliveries, CrashJoined) > 0)
    && (s.phase.Running? ==> !s.taskError)
    && s.sendErrors == Tally(s.deliveries, Errors)
    && Total(s.produced) == Tally(s.deliveries, Acknowledged)
    && |s.joins| == Tally(s.deliveries, Joined)
  }

  lemma AccountsPush(s: State, d: Delivery, t: State)
    requires Accounts(s) && t.deliveries == s.deliveries + [d] && !d.joined && d.results == [] && d.stage == Ready
    requires t.report == s.report && t.taskError == s.taskError && t.phase == s.phase
    requires t.sendErrors == s.sendErrors && t.produced == s.produced && t.joins == s.joins
    ensures Accounts(t)
  {
    TallyPush(s.deliveries, d, AckJoined);
    TallyPush(s.deliveries, d, FailJoined);
    TallyPush(s.deliveries, d, CrashJoined);
    TallyPush(s.deliveries, d, Errors);
    TallyPush(s.deliveries, d, Acknowledged);
    TallyPush(s.deliveries, d, Joined);
  }

  lemma AllTalliesUpdate(ds: seq<Delivery>, i: nat, d: Delivery)
    requires i < |ds|
    ensures Tally(ds[i := d], AckJoined) + AckJoined(ds[i]) == Tally(ds, AckJoined) + AckJoined(d)
    ensures Tally(ds[i := d], FailJoined) + FailJoined(ds[i]) == Tally(ds, FailJoined) + FailJoined(d)
    ensures Tally(ds[i := d], CrashJoined) + CrashJoined(ds[i]) == Tally(ds, CrashJoined) + CrashJoined(d)
    ensures Tally(ds[i := d], Errors) + Errors(ds[i]) == Tally(ds, Errors) + Errors(d)
    ensures Tally(ds[i := d], Acknowledged) + Acknowledged(ds[i]) == Tally(ds, Acknowledged) + Acknowledged(d)
    ensures Tally(ds[i := d], Joined) + Joined(ds[i]) == Tally(ds, Joined) + Joined(d)
  {
    TallyUpdate(ds, i, d, AckJoined);
    TallyUpdate(ds, i, d, FailJoined);
    TallyUpdate(ds, i, d, CrashJoined);
    TallyUpdate(ds, i, d, Errors);
    TallyUpdate(ds, i, d, Acknowledged);
    TallyUpdate(ds, i, d, Joined);
  }

  lemma AccountsTask(s: State, i: nat, d: Delivery, t: State)
    requires Accounts(s) && Rewrites(s, i, d, t) && !s.deliveries[i].joined && !d.joined
    requires t.report == s.report && t.taskError == s.taskError && t.phase == s.phase && t.joins == s.joins
    requires t.sendErrors == s.sendErrors + Errors(d) - Errors(s.deliveries[i])
    requires Total(t.produced) == Total(s.produced) + Acknowledged(d) - Acknowledged(s.deliveries[i])
    ensures Accounts(t)
  {
    AllTalliesUpdate(s.deliveries, i, d);
  }

  lemma AccountsJoin(s: State, i: nat, d: Delivery, t: State)
    requires Accounts(s) && Rewrites(s, i, d, t) && !s.deliveries[i].joined && !s.deliveries[i].Live()
    requires d == s.deliveries[i].(joined := true)
    requires t.report == if d.stage.Done? then s.report.Record(d.stage.success) else s.report
    requires t.taskError == (s.taskError || d.stage.Crashed?)
    requires t.phase.Running? ==> s.phase.Running? && d.stage.Done?
    requires t.joins == s.joins + [i] && t.sendErrors == s.sendErrors && t.produced == s.produced
    ensures Accounts(t)
  {
    AllTalliesUpdate(s.deliveries, i, d);
  }

  /** The produced family, label by label. */
  ghost predicate Labels(s: State) {
    forall tag ::
      && Get(s.produced, tag) == LabelTally(s.deliveries, tag)
      && (tag in s.produced <==> LabelTally(s.deliveries, tag) > 0)
  }

  lemma LabelsUpdate(s: State, i: nat, d: Delivery, t: State)
    requires Labels(s) && i < |s.deliveries| && t.deliveries == s.deliveries[i := d]
    requires forall tag :: LabelWeight(d, tag) == LabelWeight(s.deliveries[i], tag)
    requires t.produced == s.produced
    ensures Labels(t)
  {
    forall tag
      ensures LabelTally(t.deliveries, tag) == LabelTally(s.deliveries, tag)
    {
      LabelTallyUpdate(s.deliveries, i, d, tag);
    }
  }

  lemma LabelsAdmit(s: State, d: Delivery, t: State)
    requires Labels(s) && d.stage == Ready && t.deliveries == s.deliveries + [d] && t.produced == s.produced
    ensures Labels(t)
  {
    forall tag
      ensures LabelTally(t.deliveries, tag) == LabelTally(s.deliveries, tag)
    {
      LabelTallyPush(s.deliveries, d, tag);
    }
  }

  lemma LabelsBump(s: State, i: nat, d: Delivery, t: State)
    requires Labels(s) && i < |s.deliveries| && t.deliveries == s.deliveries[i := d]
    requires s.deliveries[i].Live() && d.stage == Done(true)
    requires t.produced == Bump(s.produced, LabelOf(d.order))
    ensures Labels(t)
  {
    forall tag
      ensures LabelTally(t.deliveries, tag) == LabelTally(s.deliveries, tag) + LabelWeight(d, tag)
    {
      LabelTallyUpdate(s.deliveries, i, d, tag);
    }
  }

  // ----- the order of joins -----

  /** How far the join of order `i` may run ahead of its turn. */
  function Lead(c: Config): nat
    requires ConfigOk(c)
  {
    Min(c.maxInFlight, 5) - 1
  }

  ghost predicate JoinOrder(c: Config, s: State)
    requires ConfigOk(c)
  {
    && PendingCount(s) <= c.maxInFlight
    && |s.joins| + PendingCount(s) == |s.deliveries|
    && (forall p :: 0 <= p < |s.joins| ==> s.joins[p] < |s.deliveries| && s.deliveries[s.joins[p]].joined)
    && (forall p, q :: 0 <= p < q < |s.joins| ==> s.joins[p] != s.joins[q])
    && (forall i :: 0 <= i < |s.deliveries| && s.deliveries[i].joined ==> i in s.joins)
    && (forall p :: 0 <= p < |s.joins| ==> s.joins[p] <= p + Lead(c) && p <= s.joins[p] + 4)
    && (forall i :: 0 <= i < |s.deliveries| && !s.deliveries[i].joined ==> i <= |s.joins| + Lead(c))
  }

  lemma JoinOrderAdmit(c: Config, s: State, d: Delivery, t: State)
    requires ConfigOk(c) && JoinOrder(c, s) && PendingCount(s) < c.maxInFlight && PendingCount(s) <= 4 && !d.joined
    requires t.deliveries == s.deliveries + [d] && t.joins == s.joins
    ensures JoinOrder(c, t)
  {
    TallyPush(s.deliveries, d, Pending);
  }

  lemma JoinOrderTask(c: Config, s: State, i: nat, d: Delivery, t: State)
    requires ConfigOk(c) && JoinOrder(c, s) && Rewrites(s, i, d, t)
    requires !s.deliveries[i].joined && !d.joined && t.joins == s.joins
    ensures JoinOrder(c, t)
  {
    TallyUpdate(s.deliveries, i, d, Pending);
  }

  lemma JoinOrderTake(c: Config, s: State, i: nat, d: Delivery, t: State)
    requires ConfigOk(c) && JoinOrder(c, s) && Rewrites(s, i, d, t)
    requires !s.deliveries[i].joined && d.joined && t.joins == s.joins + [i]
    requires i + 5 >= |s.deliveries|
    ensures JoinOrder(c, t)
  {
    TallyUpdate(s.deliveries, i, d, Pending);
    JoinsTake(s, i, d, t);
    assert |s.joins| <= i + 4 by {
      SomePending(s.deliveries);
    }
  }

  /** The joined orders are listed once each. */
  lemma JoinsTake(s: State, i: nat, d: Delivery, t: State)
    requires i < |s.deliveries| && !s.deliveries[i].joined && d.joined
    requires t.deliveries == s.deliveries[i := d] && t.joins == s.joins + [i]
    requires forall p :: 0 <= p < |s.joins| ==> s.joins[p] < |s.deliveries| && s.deliveries[s.joins[p]].joined
    requires forall p, q :: 0 <= p < q < |s.joins| ==> s.joins[p] != s.joins[q]
    requires forall j :: 0 <= j < |s.deliveries| && s.deliveries[j].joined ==> j in s.joins
    ensures forall p :: 0 <= p < |t.joins| ==> t.joins[p] < |t.deliveries| && t.deliveries[t.joins[p]].joined
    ensures forall p, q :: 0 <= p < q < |t.joins| ==> t.joins[p] != t.joins[q]
    ensures forall j :: 0 <= j < |t.deliveries| && t.deliveries[j].joined ==> j in t.joins
  {
    assert t.joins[|s.joins|] == i;
    forall j | 0 <= j < |t.deliveries| && t.deliveries[j].joined
      ensures j in t.joins
    {
      if j != i { assert j in s.joins; }
    }
  }

  // ----- the log -----

  /** The entries of the log that concern one key. */
  function ByKey(log: seq<LogEntry>, key: string): seq<LogEntry> {
    if log == [] then []
    else ByKey(log[..|log| - 1], key) + (if Key(log[|log| - 1].index) == key then [log[|log| - 1]] else [])
  }

  /** The deliveries of one key one after the other, in index order. */
  function KeyLog(ds: seq<Delivery>, key: string): seq<LogEntry> {
    if ds == [] then []
    else
      var n := |ds| - 1;
      KeyLog(ds[..n], key) + KeyPart(n, ds[n], key)
  }

  /** Each key sees its orders one at a time. */
  ghost predicate Logs(s: State) {
    && (forall key :: ByKey(s.log, key) == KeyLog(s.deliveries, key))
    && (forall p :: 0 <= p < |s.log| ==> s.log[p].index < |s.deliveries|)
    && (forall p :: 0 <= p < |s.log| && s.log[p].Sent? ==> s.log[p].record == s.deliveries[s.log[p].index].record)
    && (forall p, q :: 0 <= p < q < |s.log| && Key(s.log[p].index) == Key(s.log[q].index) ==> s.log[p].index <= s.log[q].index)
  }

  lemma {:induction false} ByKeyPush(log: seq<LogEntry>, entry: LogEntry, key: string)
    ensures ByKey(log + [entry], key) == ByKey(log, key) + (if Key(entry.index) == key then [entry] else [])
  {
    assert (log + [entry])[..|log|] == log;
  }

  /** The part of a key's log that delivery `n` contributes. */
  function KeyPart(n: nat, d: Delivery, key: string): seq<LogEntry> {
    if Key(n) == key then DeliveryLog(n, d) else []
  }

  lemma KeyLogGrowsLast(ds: seq<Delivery>, d: Delivery, more: seq<LogEntry>, key: string)
    requires |ds| > 0 && KeyPart(|ds| - 1, d, key) == KeyPart(|ds| - 1, ds[|ds| - 1], key) + more
    ensures KeyLog(ds[|ds| - 1 := d], key) == KeyLog(ds, key) + more
  {
    var n := |ds| - 1;
    assert ds[n := d][..n] == ds[..n];
    Associative(KeyLog(ds[..n], key), KeyPart(n, ds[n], key), more);
  }

  lemma KeyLogInit(ds: seq<Delivery>, i: nat, d: Delivery, key: string)
    requires i < |ds| - 1
    ensures var n := |ds| - 1;
            && KeyLog(ds[i := d], key) == KeyLog(ds[..n][i := d], key) + KeyPart(n, ds[n], key)
            && KeyLog(ds, key) == KeyLog(ds[..n], key) + KeyPart(n, ds[n], key)
  {
    var n := |ds| - 1;
    assert ds[i := d][..n] == ds[..n][i := d];
  }

  lemma KeyLogSkipsLast(ds: seq<Delivery>, i: nat, d: Delivery, key: string)
    requires i < |ds| - 1 && Key(|ds| - 1) != key
    ensures var n := |ds| - 1;
            KeyLog(ds[i := d], key) == KeyLog(ds[..n][i := d], key) && KeyLog(ds, key) == KeyLog(ds[..n], key)
  {
    KeyLogInit(ds, i, d, key);
  }

  /** Nothing of the key after `i`: growing delivery `i` grows the log of the key. */
  lemma {:induction false} KeyLogUpdate(ds: seq<Delivery>, i: nat, d: Delivery, more: seq<LogEntry>, key: string)
    requires i < |ds| && (forall j :: i < j < |ds| ==> Key(j) != key)
    requires KeyPart(i, d, key) == KeyPart(i, ds[i], key) + more
    ensures KeyLog(ds[i := d], key) == KeyLog(ds, key) + more
  {
    if i < |ds| - 1 {
      KeyLogSkipsLast(ds, i, d, key);
      KeyLogUpdate(ds[..|ds| - 1], i, d, more, key);
    } else {
      KeyLogGrowsLast(ds, d, more, key);
    }
  }

  lemma LastOfItsKey(c: Config, s: State, i: nat)
    requires Window(c, s) && i < s.index && !s.deliveries[i].joined
    ensures forall j :: i < j < s.index ==> Key(j) != Key(i)
  {
    forall j | i < j < s.index
      ensures Key(j) != Key(i)
    {
      KeysEqual(i, j);
    }
  }

  lemma LogsAppend(c: Config, s: State, i: nat, d: Delivery, entry: LogEntry, t: State)
    requires Window(c, s) && Logs(s) && i < s.index && !s.deliveries[i].joined
    requires d.record == s.deliveries[i].record && DeliveryLog(i, d) == DeliveryLog(i, s.deliveries[i]) + [entry]
    requires entry.index == i && (entry.Sent? ==> entry.record == d.record)
    requires t.deliveries == s.deliveries[i := d] && t.log == s.log + [entry]
    ensures Logs(t)
  {
    LastOfItsKey(c, s, i);
    forall key
      ensures ByKey(t.log, key) == KeyLog(t.deliveries, key)
    {
      ByKeyPush(s.log, entry, key);
      if Key(i) == key {
        KeyLogUpdate(s.deliveries, i, d, [entry], key);
      } else {
        KeyLogSame(s.deliveries, i, d, key);
      }
    }
  }

  lemma LogsKeep(c: Config, s: State, i: nat, d: Delivery, t: State)
    requires Logs(s) && i < |s.deliveries|
    requires d.record == s.deliveries[i].record && DeliveryLog(i, d) == DeliveryLog(i, s.deliveries[i])
    requires t.deliveries == s.deliveries[i := d] && t.log == s.log
    ensures Logs(t)
  {
    forall key
      ensures KeyLog(t.deliveries, key) == KeyLog(s.deliveries, key)
    {
      KeyLogSame(s.deliveries, i, d, key);
    }
  }

  lemma {:induction false} KeyLogSame(ds: seq<Delivery>, i: nat, d: Delivery, key: string)
    requires i < |ds| && KeyPart(i, d, key) == KeyPart(i, ds[i], key)
    ensures KeyLog(ds[i := d], key) == KeyLog(ds, key)
  {
    if i < |ds| - 1 {
      KeyLogInit(ds, i, d, key);
      KeyLogSame(ds[..|ds| - 1], i, d, key);
    } else {
      KeyLogGrowsLast(ds, d, [], key);
    }
  }

  lemma LogsAdmit(s: State, d: Delivery, t: State)
    requires Logs(s) && d.results == [] && d.stage == Ready
    requires t.deliveries == s.deliveries + [d] && t.log == s.log
    ensures Logs(t)
  {
    forall key
      ensures KeyLog(t.deliveries, key) == KeyLog(s.deliveries, key)
    {
      assert t.deliveries[..|s.deliveries|] == s.deliveries;
      assert DeliveryLog(|s.deliveries|, d) == [];
    }
  }

  // ----- the log in numbers -----

  /** What the log holds in all is what the deliveries account for. */
  ghost predicate LogTallies(s: State) {
    && LogTally(s, IsSent, Attempts)
    && LogTally(s, IsFailure, Errors)
    && LogTally(s, IsSuccess, Acknowledged)
    && forall x: real :: LogTally(s, Observes(x), AckOf(x))
  }

  ghost predicate LogTally(s: State, kind: LogEntry -> bool, f: Delivery -> nat) {
    Entries(s.log, kind) == Tally(s.deliveries, f)
  }

  lemma LogTalliesAdmit(s: State, d: Delivery, t: State)
    requires LogTallies(s) && d.results == [] && d.stage == Ready
    requires t.deliveries == s.deliveries + [d] && t.log == s.log
    ensures LogTallies(t)
  {
    TallyPush(s.deliveries, d, Attempts);
    TallyPush(s.deliveries, d, Errors);
    TallyPush(s.deliveries, d, Acknowledged);
    forall x: real
      ensures LogTally(t, Observes(x), AckOf(x))
    {
      assert LogTally(s, Observes(x), AckOf(x));
      TallyPush(s.deliveries, d, AckOf(x));
    }
  }

  /** A delivery whose count `f` grows with the entries of one kind. */
  ghost predicate Moves(before: Delivery, d: Delivery, more: seq<LogEntry>, kind: LogEntry -> bool, f: Delivery -> nat) {
    |more| <= 1 && f(d) == f(before) + (if more == [] then 0 else One(kind(more[0])))
  }

  ghost predicate MovesBy(before: Delivery, d: Delivery, more: seq<LogEntry>) {
    && Moves(before, d, more, IsSent, Attempts)
    && Moves(before, d, more, IsFailure, Errors)
    && Moves(before, d, more, IsSuccess, Acknowledged)
    && forall x: real :: Moves(before, d, more, Observes(x), AckOf(x))
  }

  lemma LogTallyRewrite(
      s: State, i: nat, d: Delivery, more: seq<LogEntry>, t: State, kind: LogEntry -> bool, f: Delivery -> nat)
    requires LogTally(s, kind, f) && i < |s.deliveries| && Moves(s.deliveries[i], d, more, kind, f)
    requires t.deliveries == s.deliveries[i := d] && t.log == s.log + more
    ensures LogTally(t, kind, f)
  {
    TallyUpdate(s.deliveries, i, d, f);
    if more == [] {
      assert t.log == s.log;
    } else {
      assert more == [more[0]];
      EntriesPush(s.log, more[0], kind);
    }
  }

  lemma LogTalliesRewrite(s: State, i: nat, d: Delivery, more: seq<LogEntry>, t: State)
    requires LogTallies(s) && i < |s.deliveries| && MovesBy(s.deliveries[i], d, more)
    requires t.deliveries == s.deliveries[i := d] && t.log == s.log + more
    ensures LogTallies(t)
  {
    LogTallyRewrite(s, i, d, more, t, IsSent, Attempts);
    LogTallyRewrite(s, i, d, more, t, IsFailure, Errors);
    LogTallyRewrite(s, i, d, more, t, IsSuccess, Acknowledged);
    forall x: real
      ensures LogTally(t, Observes(x), AckOf(x))
    {
      assert LogTally(s, Observes(x), AckOf(x)) && Moves(s.deliveries[i], d, more, Observes(x), AckOf(x));
      LogTallyRewrite(s, i, d, more, t, Observes(x), AckOf(x));
    }
  }

  // ----- pacing -----

  ghost predicate Pacing(c: Config, s: State)
    requires ConfigOk(c)
  {
    && |s.admissions| == |s.deliveries|
    && Paced(s.admissions, s.slot, s.now, c.period, c.tolerance)
    && Aligned(s.admissions, s.slot, c.period)
  }

  lemma PacingLater(c: Config, s: State, at: nat)
    requires ConfigOk(c) && Pacing(c, s) && s.now <= at
    ensures Pacing(c, s.(now := at))
  {
  }

  lemma PacingAdmit(c: Config, s: State, trace: Trace)
    requires ConfigOk(c) && Pacing(c, s) && s.slot <= s.now
    ensures Pacing(c, Admit(c, s, trace))
  {
    PacedStep(s.admissions, s.slot, s.now, s.now, c.period, c.tolerance);
  }

  // ----- all together -----

  ghost predicate Inv(c: Config, s: State) {
    && ConfigOk(c) && Shape(c, s) && Window(c, s) && Accounts(s) && Labels(s)
    && JoinOrder(c, s) && Logs(s) && LogTallies(s) && Pacing(c, s)
  }
}
