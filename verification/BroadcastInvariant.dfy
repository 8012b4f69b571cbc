/** What every step of the web-socket manager keeps. */
module BroadcastInvariant {
  import opened Wrappers
  import opened BroadcastModel

  // ---- locks ----

  /** A task that has looked its lock up knows the one lock of its socket. */
  predicate KnowsLock(s: State, t: Task) {
    (t.phase.Waiting? || t.phase.Sending?) ==> t.socket in s.made && s.made[t.socket] == t.phase.lock
  }

  ghost predicate LocksOk(s: State) {
    && s.locks.Keys == s.active && s.active <= s.made.Keys
    && (forall c :: c in s.locks ==> s.locks[c] == s.made[c])
    && (forall i :: 0 <= i < |s.tasks| ==> KnowsLock(s, s.tasks[i]))
  }

  /** A send lock is held by one task at a time. */
  ghost predicate Exclusive(s: State) {
    forall i, j :: 0 <= i < j < |s.tasks| ==> !SameLock(s.tasks[i], s.tasks[j])
  }

  predicate SameLock(t: Task, u: Task) {
    t.phase.Sending? && t.phase == u.phase
  }

  // ---- the order of broadcasts ----

  /** The numbers of the broadcasts in a log, in the order of arrival. */
  function Numbers(log: seq<Entry>): seq<nat> {
    if log == [] then []
    else
      var last := log[|log| - 1];
      Numbers(log[..|log| - 1]) + if last.broadcast.Some? then [last.broadcast.value] else []
  }

  predicate Increasing(ns: seq<nat>) {
    forall i, j :: 0 <= i < j < |ns| ==> ns[i] < ns[j]
  }

  /** A broadcast has not reached the socket of the task yet. */
  predicate Undelivered(s: State, t: Task) {
    t.broadcast.Some? && (t.phase.Looking? || t.phase.Waiting? || t.phase.Sending?) ==>
      t.broadcast.value !in Numbers(Log(s, t.socket))
  }

  /** A broadcast has reached the socket of a task that is done, or the socket is gone. */
  predicate Settled(s: State, t: Task) {
    t.broadcast.Some? && t.phase.Done? ==>
      t.broadcast.value in Numbers(Log(s, t.socket)) || (t.socket !in s.active && t.socket in s.made)
  }

  /** The task sends what its broadcast says, to a connection that its broadcast found. */
  predicate BelongsToBroadcast(s: State, t: Task) {
    t.broadcast.Some? ==>
      && t.broadcast.value < |s.broadcasts|
      && t.message == s.broadcasts[t.broadcast.value].message
      && t.socket in s.broadcasts[t.broadcast.value].connections
      && (!t.phase.Done? ==> s.running && t.broadcast.value == |s.broadcasts| - 1)
  }

  ghost predicate TasksOk(s: State) {
    && (forall i :: 0 <= i < |s.tasks| ==>
          BelongsToBroadcast(s, s.tasks[i]) && Undelivered(s, s.tasks[i]) && Settled(s, s.tasks[i]))
    && (forall i, j :: 0 <= i < j < |s.tasks| ==> !SameDelivery(s.tasks[i], s.tasks[j]))
    && (s.running ==> s.broadcasts != [])
    && (forall n, c :: 0 <= n < |s.broadcasts| && c in s.broadcasts[n].connections ==> HasTask(s, n, c))
    && (forall n :: 0 <= n < |s.broadcasts| ==> s.broadcasts[n].connections <= s.made.Keys)
  }

  predicate SameDelivery(t: Task, u: Task) {
    t.broadcast.Some? && t.broadcast == u.broadcast && t.socket == u.socket
  }

  ghost predicate HasTask(s: State, n: nat, c: Socket) {
    exists i :: 0 <= i < |s.tasks| && s.tasks[i].broadcast == Some(n) && s.tasks[i].socket == c
  }

  predicate EntryOk(bs: seq<Broadcast>, c: Socket, e: Entry) {
    e.broadcast.Some? ==>
      && e.broadcast.value < |bs|
      && e.message == bs[e.broadcast.value].message
      && c in bs[e.broadcast.value].connections
  }

  predicate LogOk(bs: seq<Broadcast>, c: Socket, log: seq<Entry>) {
    Increasing(Numbers(log)) && forall k :: 0 <= k < |log| ==> EntryOk(bs, c, log[k])
  }

  ghost predicate LogsOk(s: State) {
    forall c :: c in s.received ==> LogOk(s.broadcasts, c, s.received[c])
  }

  ghost predicate Inv(s: State) {
    LocksOk(s) && Exclusive(s) && TasksOk(s) && LogsOk(s)
  }

  lemma InitialInv()
    ensures Inv(INITIAL)
  {
  }

  // ---- steps that change the connections ----

  lemma ConnectKeeps(s: State, c: Socket)
    requires Inv(s) && c !in s.made
    ensures Inv(Next(true, s, Connect(c)))
  {
    var s' := Next(true, s, Connect(c));
    forall i | 0 <= i < |s.tasks| ensures Settled(s', s'.tasks[i]) {
      assert Settled(s, s.tasks[i]);
    }
    forall n, d | 0 <= n < |s.broadcasts| && d in s.broadcasts[n].connections ensures HasTask(s', n, d) {
      assert HasTask(s, n, d);
    }
  }

  lemma LeaveKeeps(s: State, left: set<Socket>)
    requires Inv(s)
    ensures Inv(s.(active := s.active - left, locks := s.locks - left))
  {
    var s' := s.(active := s.active - left, locks := s.locks - left);
    forall i | 0 <= i < |s.tasks|
      ensures BelongsToBroadcast(s', s'.tasks[i]) && Undelivered(s', s'.tasks[i]) && Settled(s', s'.tasks[i])
      ensures KnowsLock(s', s'.tasks[i])
    {
      assert Settled(s, s.tasks[i]) && KnowsLock(s, s.tasks[i]);
      assert BelongsToBroadcast(s, s.tasks[i]) && Undelivered(s, s.tasks[i]);
    }
    forall n, d | 0 <= n < |s.broadcasts| && d in s.broadcasts[n].connections ensures HasTask(s', n, d) {
      assert HasTask(s, n, d);
    }
  }

  // ---- steps of a task ----

  /** The new phase of a task fits the state. */
  predicate FitsIn(s: State, t: Task) {
    KnowsLock(s, t) && BelongsToBroadcast(s, t) && Undelivered(s, t) && Settled(s, t)
  }

  lemma PhaseKeeps(s: State, i: nat, phase: Phase)
    requires Inv(s) && i < |s.tasks| && FitsIn(s, s.tasks[i].(phase := phase))
    requires phase.Sending? ==> LockFree(s, phase.lock)
    ensures Inv(SetPhase(s, i, phase))
  {
    var s' := SetPhase(s, i, phase);
    forall j | 0 <= j < |s.tasks| ensures FitsIn(s', s'.tasks[j]) {
      assert j != i ==> FitsIn(s, s.tasks[j]);
    }
    forall j, k | 0 <= j < k < |s.tasks|
      ensures !SameLock(s'.tasks[j], s'.tasks[k]) && !SameDelivery(s'.tasks[j], s'.tasks[k]) {
      assert !SameLock(s.tasks[j], s.tasks[k]) && !SameDelivery(s.tasks[j], s.tasks[k]);
    }
    forall n, c | 0 <= n < |s.broadcasts| && c in s.broadcasts[n].connections ensures HasTask(s', n, c) {
      assert HasTask(s, n, c);
      var j :| 0 <= j < |s.tasks| && s.tasks[j].broadcast == Some(n) && s.tasks[j].socket == c;
      assert s'.tasks[j].broadcast == Some(n) && s'.tasks[j].socket == c;
    }
  }

  /** An entry may join a log: if it is of a broadcast, that one is running, has not arrived
      yet, and no other task is about to bring it. */
  ghost predicate MayDeliver(s: State, c: Socket, e: Entry) {
    && EntryOk(s.broadcasts, c, e)
    && (e.broadcast.Some? ==>
          && e.broadcast.value == |s.broadcasts| - 1 && e.broadcast.value !in Numbers(Log(s, c))
          && forall i :: 0 <= i < |s.tasks| && s.tasks[i].broadcast == e.broadcast && s.tasks[i].socket == c ==>
               s.tasks[i].phase.Failed? || s.tasks[i].phase.Done?)
  }

  function Delivered(s: State, c: Socket, e: Entry): State {
    s.(received := s.received[c := Log(s, c) + [e]])
  }

  lemma DeliverKeeps(s: State, c: Socket, e: Entry)
    requires Inv(s) && MayDeliver(s, c, e)
    ensures Inv(Delivered(s, c, e))
  {
    DeliverKeepsTasks(s, c, e);
    DeliverKeepsLogs(s, c, e);
    assert Exclusive(Delivered(s, c, e));
  }

  lemma DeliverKeepsTasks(s: State, c: Socket, e: Entry)
    requires Inv(s) && MayDeliver(s, c, e)
    ensures TasksOk(Delivered(s, c, e)) && LocksOk(Delivered(s, c, e))
  {
    var s' := Delivered(s, c, e);
    NumbersGrow(Log(s, c), e);
    forall i | 0 <= i < |s.tasks| ensures FitsIn(s', s'.tasks[i]) {
      assert FitsIn(s, s.tasks[i]);
    }
    forall n, d | 0 <= n < |s.broadcasts| && d in s.broadcasts[n].connections ensures HasTask(s', n, d) {
      assert HasTask(s, n, d);
    }
  }

  lemma DeliverKeepsLogs(s: State, c: Socket, e: Entry)
    requires Inv(s) && MayDeliver(s, c, e)
    ensures LogsOk(Delivered(s, c, e))
  {
    LogGrows(s.broadcasts, c, Log(s, c), e);
  }

  lemma LogGrows(bs: seq<Broadcast>, c: Socket, log: seq<Entry>, e: Entry)
    requires LogOk(bs, c, log) && EntryOk(bs, c, e)
    requires e.broadcast.Some? ==> e.broadcast.value == |bs| - 1 && e.broadcast.value !in Numbers(log)
    ensures LogOk(bs, c, log + [e])
  {
    NumbersGrow(log, e);
    NumbersBelow(bs, c, log);
  }

  lemma NumbersGrow(log: seq<Entry>, e: Entry)
    ensures Numbers(log + [e]) == Numbers(log) + if e.broadcast.Some? then [e.broadcast.value] else []
  {
    assert (log + [e])[..|log|] == log;
  }

  lemma {:induction false} NumbersOf(log: seq<Entry>, k: nat)
    requires k < |Numbers(log)|
    ensures exists i :: 0 <= i < |log| && log[i].broadcast == Some(Numbers(log)[k])
  {
    var init := log[..|log| - 1];
    if k < |Numbers(init)| {
      NumbersOf(init, k);
      var i :| 0 <= i < |init| && init[i].broadcast == Some(Numbers(init)[k]);
      assert log[i].broadcast == Some(Numbers(log)[k]);
    } else {
      assert log[|log| - 1].broadcast == Some(Numbers(log)[k]);
    }
  }

  lemma NumbersBelow(bs: seq<Broadcast>, c: Socket, log: seq<Entry>)
    requires LogOk(bs, c, log)
    ensures forall k :: 0 <= k < |Numbers(log)| ==> Numbers(log)[k] < |bs| && c in bs[Numbers(log)[k]].connections
  {
    forall k | 0 <= k < |Numbers(log)| ensures Numbers(log)[k] < |bs| && c in bs[Numbers(log)[k]].connections {
      NumbersOf(log, k);
      var i :| 0 <= i < |log| && log[i].broadcast == Some(Numbers(log)[k]);
      assert EntryOk(bs, c, log[i]);
    }
  }

  lemma LookupKeeps(s: State, i: nat)
    requires Inv(s) && Enabled(true, s, Lookup(i))
    ensures Inv(Next(true, s, Lookup(i)))
  {
    var t := s.tasks[i];
    assert FitsIn(s, t);
    PhaseKeeps(s, i, if t.socket in s.locks then Waiting(s.locks[t.socket]) else Done);
  }

  lemma AcquireKeeps(s: State, i: nat)
    requires Inv(s) && Enabled(true, s, Acquire(i))
    ensures Inv(Next(true, s, Acquire(i)))
  {
    assert FitsIn(s, s.tasks[i]);
    PhaseKeeps(s, i, Sending(s.tasks[i].phase.lock));
  }

  /** The socket after the task has sent, whatever `send_text` then reports. */
  function AfterSend(s: State, i: nat): State
    requires i < |s.tasks|
  {
    Delivered(SetPhase(s, i, Failed), s.tasks[i].socket, Entry(s.tasks[i].message, s.tasks[i].broadcast))
  }

  lemma AfterSendKeeps(s: State, i: nat)
    requires Inv(s) && i < |s.tasks| && s.tasks[i].phase.Sending?
    ensures Inv(SetPhase(s, i, Failed)) && Inv(AfterSend(s, i))
  {
    assert FitsIn(s, s.tasks[i]);
    PhaseKeeps(s, i, Failed);
    OnlyDelivery(s, i);
    DeliverKeeps(SetPhase(s, i, Failed), s.tasks[i].socket, Entry(s.tasks[i].message, s.tasks[i].broadcast));
  }

  lemma FinishKeeps(s: State, i: nat, sent: bool, delivered: bool)
    requires Inv(s) && Enabled(true, s, Finish(i, sent, delivered))
    ensures Inv(Next(true, s, Finish(i, sent, delivered)))
  {
    AfterSendKeeps(s, i);
    if sent {
      var e := Entry(s.tasks[i].message, s.tasks[i].broadcast);
      DeliveredIsDone(AfterSend(s, i), i, e);
      assert SetPhase(AfterSend(s, i), i, Done) == Next(true, s, Finish(i, sent, delivered));
    } else if delivered {
      assert AfterSend(s, i) == Next(true, s, Finish(i, sent, delivered));
    }
  }

  lemma DeliveredIsDone(s: State, i: nat, e: Entry)
    requires Inv(s) && i < |s.tasks| && s.tasks[i].phase.Failed? && e.broadcast == s.tasks[i].broadcast
    requires Log(s, s.tasks[i].socket) != [] && Log(s, s.tasks[i].socket)[|Log(s, s.tasks[i].socket)| - 1] == e
    ensures Inv(SetPhase(s, i, Done))
  {
    assert FitsIn(s, s.tasks[i]);
    PhaseKeeps(s, i, Done);
  }

  /** While a task sends for its broadcast, no other task is about to bring that broadcast to its socket. */
  lemma OnlyDelivery(s: State, i: nat)
    requires Inv(s) && i < |s.tasks| && s.tasks[i].phase.Sending?
    ensures MayDeliver(SetPhase(s, i, Failed), s.tasks[i].socket, Entry(s.tasks[i].message, s.tasks[i].broadcast))
  {
    var t := s.tasks[i];
    assert BelongsToBroadcast(s, t) && Undelivered(s, t);
    forall j | 0 <= j < |s.tasks| && j != i ensures !SameDelivery(t, s.tasks[j]) {
      assert !SameDelivery(s.tasks[if i < j then i else j], s.tasks[if i < j then j else i]);
    }
  }

  lemma DropKeeps(s: State, i: nat)
    requires Inv(s) && Enabled(true, s, Drop(i))
    ensures Inv(Next(true, s, Drop(i)))
  {
    var c := s.tasks[i].socket;
    LeaveKeeps(s, {c});
    var s' := Disconnected(s, c);
    assert FitsIn(s', s'.tasks[i]);
    PhaseKeeps(s', i, Done);
  }

  // ---- new tasks ----

  lemma StartSendKeeps(s: State, c: Socket, message: string)
    requires Inv(s)
    ensures Inv(Next(true, s, StartSend(c, message)))
  {
    var s' := Next(true, s, StartSend(c, message));
    forall i | 0 <= i < |s.tasks| ensures FitsIn(s', s'.tasks[i]) {
      assert FitsIn(s, s.tasks[i]);
    }
    assert FitsIn(s', s'.tasks[|s.tasks|]);
    forall n, d | 0 <= n < |s.broadcasts| && d in s.broadcasts[n].connections ensures HasTask(s', n, d) {
      assert HasTask(s, n, d);
      var j :| 0 <= j < |s.tasks| && s.tasks[j].broadcast == Some(n) && s.tasks[j].socket == d;
      assert s'.tasks[j] == s.tasks[j];
    }
  }

  lemma EndKeeps(s: State)
    requires Inv(s) && Enabled(true, s, EndBroadcast)
    ensures Inv(Next(true, s, EndBroadcast))
  {
    var s' := Next(true, s, EndBroadcast);
    forall i | 0 <= i < |s.tasks| ensures FitsIn(s', s'.tasks[i]) {
      assert FitsIn(s, s.tasks[i]);
    }
    forall n, d | 0 <= n < |s.broadcasts| && d in s.broadcasts[n].connections ensures HasTask(s', n, d) {
      assert HasTask(s, n, d);
    }
  }

  lemma BeginKeepsTasks(s: State, message: string, order: seq<Socket>)
    requires Inv(s) && Enabled(true, s, BeginBroadcast(message, order))
    ensures forall i :: 0 <= i < |Next(true, s, BeginBroadcast(message, order)).tasks| ==>
      FitsIn(Next(true, s, BeginBroadcast(message, order)), Next(true, s, BeginBroadcast(message, order)).tasks[i])
  {
    var s' := Next(true, s, BeginBroadcast(message, order));
    forall i | 0 <= i < |s'.tasks| ensures FitsIn(s', s'.tasks[i]) {
      if i < |s.tasks| {
        assert s'.tasks[i] == s.tasks[i] && FitsIn(s, s.tasks[i]);
      } else {
        NumbersBelow(s.broadcasts, s'.tasks[i].socket, Log(s, s'.tasks[i].socket));
      }
    }
  }

  lemma BeginKeepsPairs(s: State, message: string, order: seq<Socket>)
    requires Inv(s) && Enabled(true, s, BeginBroadcast(message, order))
    ensures var s' := Next(true, s, BeginBroadcast(message, order));
      forall i, j :: 0 <= i < j < |s'.tasks| ==>
        !SameDelivery(s'.tasks[i], s'.tasks[j]) && !SameLock(s'.tasks[i], s'.tasks[j])
  {
    var s' := Next(true, s, BeginBroadcast(message, order));
    forall i, j | 0 <= i < j < |s'.tasks|
      ensures !SameDelivery(s'.tasks[i], s'.tasks[j]) && !SameLock(s'.tasks[i], s'.tasks[j]) {
      if i < |s.tasks| {
        assert BelongsToBroadcast(s, s.tasks[i]);
        assert j < |s.tasks| ==> !SameDelivery(s.tasks[i], s.tasks[j]) && !SameLock(s.tasks[i], s.tasks[j]);
      }
    }
  }

  lemma BeginKeeps(s: State, message: string, order: seq<Socket>)
    requires Inv(s) && Enabled(true, s, BeginBroadcast(message, order))
    ensures Inv(Next(true, s, BeginBroadcast(message, order)))
  {
    var s' := Next(true, s, BeginBroadcast(message, order));
    BeginKeepsTasks(s, message, order);
    BeginKeepsPairs(s, message, order);
    forall n, c | 0 <= n < |s'.broadcasts| && c in s'.broadcasts[n].connections ensures HasTask(s', n, c) {
      if n < |s.broadcasts| {
        assert HasTask(s, n, c);
        var i :| 0 <= i < |s.tasks| && s.tasks[i].broadcast == Some(n) && s.tasks[i].socket == c;
        assert s'.tasks[i] == s.tasks[i];
      } else {
        var i :| 0 <= i < |order| && order[i] == c;
        assert s'.tasks[|s.tasks| + i].socket == c;
      }
    }
    BeginKeepsLogs(s, message, order);
  }

  lemma BeginKeepsLogs(s: State, message: string, order: seq<Socket>)
    requires Inv(s) && Enabled(true, s, BeginBroadcast(message, order))
    ensures LogsOk(Next(true, s, BeginBroadcast(message, order)))
  {
    var s' := Next(true, s, BeginBroadcast(message, order));
    forall c | c in s.received ensures LogOk(s'.broadcasts, c, s.received[c]) {
      forall k | 0 <= k < |s.received[c]| ensures EntryOk(s'.broadcasts, c, s.received[c][k]) {
        assert EntryOk(s.broadcasts, c, s.received[c][k]);
      }
    }
  }

  // ---- every run ----

  lemma StepKeeps(s: State, a: Action)
    requires Inv(s) && Enabled(true, s, a)
    ensures Inv(Next(true, s, a))
  {
    match a
    case Connect(c) => ConnectKeeps(s, c);
    case Disconnect(c) => LeaveKeeps(s, {c});
    case Shutdown =>
      LeaveKeeps(s, s.active);
      assert s.locks - s.active == map[] && s.active - s.active == {};
    case StartSend(c, m) => StartSendKeeps(s, c, m);
    case BeginBroadcast(m, order) => BeginKeeps(s, m, order);
    case EndBroadcast => EndKeeps(s);
    case Lookup(i) => LookupKeeps(s, i);
    case Acquire(i) => AcquireKeeps(s, i);
    case Finish(i, sent, delivered) => FinishKeeps(s, i, sent, delivered);
    case Drop(i) => DropKeeps(s, i);
  }

  lemma {:induction false} RunKeeps(s: State, actions: seq<Action>)
    requires Inv(s) && Run(true, s, actions).Some?
    ensures Inv(Run(true, s, actions).value)
    decreases |actions|
  {
    if actions == [] {
    } else {
      StepKeeps(s, actions[0]);
      RunKeeps(Next(true, s, actions[0]), actions[1..]);
    }
  }
}
