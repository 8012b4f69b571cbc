/** What the web-socket manager guarantees to its clients, over every run. */
module BroadcastTheorems {
  import opened Wrappers
  import opened BroadcastModel
  import opened BroadcastInvariant

  ghost predicate Reachable(onceOnly: bool, s: State) {
    exists actions :: Run(onceOnly, INITIAL, actions) == Some(s)
  }

  lemma ReachableInv(s: State)
    requires Reachable(true, s)
    ensures Inv(s)
  {
    var actions :| Run(true, INITIAL, actions) == Some(s);
    InitialInv();
    RunKeeps(INITIAL, actions);
  }

  /** Two sends are inside `send_text` of one socket. */
  predicate Overlap(s: State, i: nat, j: nat) {
    i < j < |s.tasks| && s.tasks[i].phase.Sending? && s.tasks[j].phase.Sending? &&
      s.tasks[i].socket == s.tasks[j].socket
  }

  lemma NoOverlap(s: State, i: nat, j: nat)
    requires Reachable(true, s)
    ensures !Overlap(s, i, j)
  {
    ReachableInv(s);
    if i < j < |s.tasks| {
      assert KnowsLock(s, s.tasks[i]) && KnowsLock(s, s.tasks[j]) && !SameLock(s.tasks[i], s.tasks[j]);
    }
  }

  lemma {:induction false} RunAppends(onceOnly: bool, s: State, a: seq<Action>, b: seq<Action>)
    requires Run(onceOnly, s, a).Some?
    ensures Run(onceOnly, s, a + b) == Run(onceOnly, Run(onceOnly, s, a).value, b)
    decreases |a|
  {
    if a == [] {
      assert a + b == b;
    } else {
      assert (a + b)[1..] == a[1..] + b;
      RunAppends(onceOnly, Next(onceOnly, s, a[0]), a[1..], b);
    }
  }

  /** A task looks its lock up and takes it. */
  lemma StartsSending(s: State, c: Socket, message: string) returns (s': State, actions: seq<Action>)
    requires LockFree(s, s.nextLock) && c !in s.active
    ensures Run(false, s, actions) == Some(s')
    ensures s'.tasks == s.tasks + [Task(c, message, None, Sending(s.nextLock))]
    ensures s'.active == s.active + {c} && s'.nextLock == s.nextLock + 1
  {
    var n := |s.tasks|;
    actions := [Connect(c), StartSend(c, message), Lookup(n), Acquire(n)];
    var s1 := Next(false, s, Connect(c));
    var s2 := Next(false, s1, StartSend(c, message));
    var s3 := Next(false, s2, Lookup(n));
    s' := Next(false, s3, Acquire(n));
    assert Run(false, s3, actions[3..]) == Some(s');
    assert Run(false, s2, actions[2..]) == Some(s');
    assert Run(false, s1, actions[1..]) == Some(s');
  }

  /** Connecting a socket again makes a second lock for it, and two sends hold one each. */
  lemma ReconnectOverlaps() returns (s: State)
    ensures Reachable(false, s) && Overlap(s, 0, 1)
  {
    var s1, a1 := StartsSending(INITIAL, 0, "a");
    var s2 := Next(false, s1, Disconnect(0));
    assert Run(false, s1, [Disconnect(0)]) == Some(s2);
    var s3, a3 := StartsSending(s2, 0, "b");
    RunAppends(false, INITIAL, a1, [Disconnect(0)]);
    RunAppends(false, INITIAL, a1 + [Disconnect(0)], a3);
    return s3;
  }

  /** Sends on one socket never overlap, if and only if no socket is connected twice. */
  lemma SendsNeverOverlapIffConnectedOnce(onceOnly: bool)
    ensures onceOnly <==> forall s, i, j :: Reachable(onceOnly, s) ==> !Overlap(s, i, j)
  {
    if onceOnly {
      forall s, i: nat, j: nat | Reachable(onceOnly, s) ensures !Overlap(s, i, j) {
        NoOverlap(s, i, j);
      }
    } else {
      var s := ReconnectOverlaps();
    }
  }

  /** Outside its critical sections the lock table has exactly the connections. */
  lemma LockTableMatchesConnections(s: State)
    requires Reachable(true, s)
    ensures s.locks.Keys == s.active
  {
    ReachableInv(s);
  }

  /** A client receives broadcasts in their global order, none twice, with their text, and
      only those that found it connected. */
  lemma BroadcastsArriveInOrder(s: State, c: Socket)
    requires Reachable(true, s)
    ensures Increasing(Numbers(Log(s, c)))
    ensures forall k :: 0 <= k < |Log(s, c)| ==> EntryOk(s.broadcasts, c, Log(s, c)[k])
  {
    ReachableInv(s);
  }

  /** A client that is still connected when no broadcast is running has received exactly the
      broadcasts that found it connected. */
  lemma ConnectedClientMissesNothing(s: State, c: Socket, n: nat)
    requires Reachable(true, s) && c in s.active && !s.running && n < |s.broadcasts|
    ensures n in Numbers(Log(s, c)) <==> c in s.broadcasts[n].connections
  {
    ReachableInv(s);
    if c in s.broadcasts[n].connections {
      assert HasTask(s, n, c);
      var i :| 0 <= i < |s.tasks| && s.tasks[i].broadcast == Some(n) && s.tasks[i].socket == c;
      assert BelongsToBroadcast(s, s.tasks[i]) && Settled(s, s.tasks[i]);
    }
    if n in Numbers(Log(s, c)) {
      NumbersBelow(s.broadcasts, c, Log(s, c));
    }
  }

  // ---- who is connected ----

  /** The action takes client `c` away: its disconnection, a shutdown, or a send to it that has failed. */
  predicate Removes(s: State, a: Action, c: Socket) {
    || a == Disconnect(c) || a.Shutdown?
    || (a.Drop? && a.task < |s.tasks| && s.tasks[a.task].socket == c)
  }

  /** A client is connected from its connection until something takes it away. */
  lemma ConnectedIff(onceOnly: bool, s: State, a: Action, c: Socket)
    requires Enabled(onceOnly, s, a)
    ensures c in Next(onceOnly, s, a).active <==> a == Connect(c) || (c in s.active && !Removes(s, a, c))
  {
  }

  /** A step begins one broadcast at most, and that finds the connections of the moment. */
  lemma BroadcastFinds(onceOnly: bool, s: State, a: Action)
    requires Enabled(onceOnly, s, a)
    ensures var s' := Next(onceOnly, s, a);
      s'.broadcasts == if a.BeginBroadcast? then s.broadcasts + [Broadcast(a.message, s.active)] else s.broadcasts
  {
  }

  /** The broadcasts that begin in a run that goes from `s` to `s'`. */
  predicate Begun(s: State, s': State, n: int) {
    |s.broadcasts| <= n < |s'.broadcasts|
  }

  /** A client that is gone stays gone, and no later broadcast is sent to it, unless it connects again. */
  lemma {:induction false} GoneStaysGone(onceOnly: bool, s: State, actions: seq<Action>, c: Socket)
    requires c !in s.active && Run(onceOnly, s, actions).Some? && Connect(c) !in actions
    ensures var s' := Run(onceOnly, s, actions).value;
      && c !in s'.active && |s.broadcasts| <= |s'.broadcasts|
      && forall n :: Begun(s, s', n) ==> c !in s'.broadcasts[n].connections
    decreases |actions|
  {
    if actions == [] {
    } else {
      var next := Next(onceOnly, s, actions[0]);
      ConnectedIff(onceOnly, s, actions[0], c);
      BroadcastFinds(onceOnly, s, actions[0]);
      GoneStaysGone(onceOnly, next, actions[1..], c);
      BroadcastsStay(onceOnly, next, actions[1..]);
    }
  }

  lemma {:induction false} BroadcastsStay(onceOnly: bool, s: State, actions: seq<Action>)
    requires Run(onceOnly, s, actions).Some?
    ensures s.broadcasts <= Run(onceOnly, s, actions).value.broadcasts
    decreases |actions|
  {
    if actions == [] {
    } else {
      BroadcastFinds(onceOnly, s, actions[0]);
      BroadcastsStay(onceOnly, Next(onceOnly, s, actions[0]), actions[1..]);
    }
  }

  /** Nothing in the run takes the client away. */
  predicate Unremoved(onceOnly: bool, s: State, actions: seq<Action>, c: Socket)
    decreases |actions|
  {
    actions == [] ||
    (Enabled(onceOnly, s, actions[0]) && !Removes(s, actions[0], c)
     && Unremoved(onceOnly, Next(onceOnly, s, actions[0]), actions[1..], c))
  }

  /** A client that nothing takes away stays connected, and every later broadcast is sent to it. */
  lemma {:induction false} ConnectedStaysConnected(onceOnly: bool, s: State, actions: seq<Action>, c: Socket)
    requires c in s.active && Run(onceOnly, s, actions).Some? && Unremoved(onceOnly, s, actions, c)
    ensures var s' := Run(onceOnly, s, actions).value;
      c in s'.active && forall n :: Begun(s, s', n) ==> c in s'.broadcasts[n].connections
    decreases |actions|
  {
    if actions == [] {
    } else {
      var next := Next(onceOnly, s, actions[0]);
      ConnectedIff(onceOnly, s, actions[0], c);
      BroadcastFinds(onceOnly, s, actions[0]);
      ConnectedStaysConnected(onceOnly, next, actions[1..], c);
      BroadcastsStay(onceOnly, next, actions[1..]);
    }
  }

  // ---- no deadlock ----

  function Rank(p: Phase): nat {
    match p
    case Looking => 4
    case Waiting(_) => 3
    case Sending(_) => 2
    case Failed => 1
    case Done => 0
  }

  /** The steps that the tasks still have to take. */
  function Work(tasks: seq<Task>): nat {
    if tasks == [] then 0 else Work(tasks[..|tasks| - 1]) + Rank(tasks[|tasks| - 1].phase)
  }

  lemma {:induction false} WorkChanges(tasks: seq<Task>, i: nat, t: Task)
    requires i < |tasks|
    ensures Work(tasks[i := t]) == Work(tasks) - Rank(tasks[i].phase) + Rank(t.phase)
  {
    var n := |tasks| - 1;
    if i == n {
      assert tasks[i := t][..n] == tasks[..n];
    } else {
      WorkChanges(tasks[..n], i, t);
      assert tasks[i := t][..n] == tasks[..n][i := t];
    }
  }

  predicate TaskAction(a: Action) {
    a.Lookup? || a.Acquire? || a.Finish? || a.Drop?
  }

  lemma TaskActionShrinks(s: State, a: Action)
    requires TaskAction(a) && Enabled(true, s, a)
    ensures Work(Next(true, s, a).tasks) < Work(s.tasks)
    ensures Next(true, s, a).broadcasts == s.broadcasts && Next(true, s, a).running == s.running
  {
    var k, s' := a.task, Next(true, s, a);
    assert s'.tasks == s.tasks[k := s'.tasks[k]];
    WorkChanges(s.tasks, k, s'.tasks[k]);
  }

  /** Some task can take a step, as long as one is not done: who waits for a lock waits for a task
      that is sending. */
  lemma CanStep(s: State, i: nat) returns (a: Action)
    requires i < |s.tasks| && !s.tasks[i].phase.Done?
    ensures TaskAction(a) && Enabled(true, s, a)
  {
    match s.tasks[i].phase
    case Looking => return Lookup(i);
    case Sending(_) => return Finish(i, true, true);
    case Failed => return Drop(i);
    case Waiting(lock) =>
      if LockFree(s, lock) {
        return Acquire(i);
      }
      var k :| 0 <= k < |s.tasks| && s.tasks[k].phase == Sending(lock);
      return Finish(k, true, true);
  }

  /** From every state the sends can all end by steps of their own, so that the running
      broadcast can give its lock back. */
  lemma {:induction false} BroadcastCanEnd(s: State) returns (actions: seq<Action>)
    requires s.running && s.broadcasts != []
    ensures forall k :: 0 <= k < |actions| ==> TaskAction(actions[k])
    ensures Run(true, s, actions).Some? && Run(true, s, actions).value.broadcasts == s.broadcasts
    ensures Enabled(true, Run(true, s, actions).value, EndBroadcast)
    decreases Work(s.tasks)
  {
    if AllDone(s, |s.broadcasts| - 1) {
      return [];
    }
    var i :| 0 <= i < |s.tasks| && !s.tasks[i].phase.Done?;
    var a := CanStep(s, i);
    TaskActionShrinks(s, a);
    var rest := BroadcastCanEnd(Next(true, s, a));
    actions := [a] + rest;
    assert actions[1..] == rest;
  }
}
