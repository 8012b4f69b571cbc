/**
 The web-socket manager as a state machine.  Between two awaits a coroutine runs alone,
 and no critical section of `lock` awaits, so each of them is one step; the broadcast
 lock and the send locks are held across awaits and are modelled.
 */
module BroadcastModel {
  import opened Wrappers

  type Socket = nat

  /** Where a `send` stands: before the lookup of its lock, waiting for the lock, inside
      `send_text` with the lock held, or about to disconnect after a failure. */
  datatype Phase = Looking | Waiting(lock: nat) | Sending(lock: nat) | Failed | Done

  /** A call of `send`, by the broadcast of that number or by another caller. */
  datatype Task = Task(socket: Socket, message: string, broadcast: Option<nat>, phase: Phase)

  /** A broadcast and the connections it found. */
  datatype Broadcast = Broadcast(message: string, connections: set<Socket>)

  datatype Entry = Entry(message: string, broadcast: Option<nat>)

  datatype State = State(
    active: set<Socket>,
    locks: map<Socket, nat>,          // send_locks
    made: map<Socket, nat>,           // the last lock made for each socket ever connected
    nextLock: nat,
    tasks: seq<Task>,
    broadcasts: seq<Broadcast>,       // in the order in which they took the broadcast lock
    running: bool,                    // the last broadcast still holds the broadcast lock
    received: map<Socket, seq<Entry>>)

  datatype Action =
    | Connect(socket: Socket)
    | Disconnect(socket: Socket)
    | Shutdown
    | StartSend(socket: Socket, message: string)
    | BeginBroadcast(message: string, order: seq<Socket>)
    | EndBroadcast
    | Lookup(task: nat)
    | Acquire(task: nat)
    | Finish(task: nat, sent: bool, delivered: bool)
    | Drop(task: nat)

  const INITIAL := State({}, map[], map[], 0, [], [], false, map[])

  function Log(s: State, socket: Socket): seq<Entry> {
    if socket in s.received then s.received[socket] else []
  }

  predicate LockFree(s: State, lock: nat) {
    forall i :: 0 <= i < |s.tasks| ==> s.tasks[i].phase != Sending(lock)
  }

  /** `order` lists the connections, each once. */
  predicate Lists(order: seq<Socket>, connections: set<Socket>) {
    && (forall i :: 0 <= i < |order| ==> order[i] in connections)
    && (forall c :: c in connections ==> c in order)
    && (forall i, j :: 0 <= i < j < |order| ==> order[i] != order[j])
  }

  predicate TaskIn(s: State, i: nat, phase: Phase) {
    i < |s.tasks| && s.tasks[i].phase == phase
  }

  predicate AllDone(s: State, n: nat) {
    forall i :: 0 <= i < |s.tasks| && s.tasks[i].broadcast == Some(n) ==> s.tasks[i].phase.Done?
  }

  /** `onceOnly`: no socket is connected twice. */
  predicate Enabled(onceOnly: bool, s: State, a: Action) {
    match a
    case Connect(c) => onceOnly ==> c !in s.made
    case Disconnect(c) => true
    case Shutdown => true
    case StartSend(_, _) => true
    case BeginBroadcast(_, order) => !s.running && Lists(order, s.active)
    case EndBroadcast => s.running && s.broadcasts != [] && AllDone(s, |s.broadcasts| - 1)
    case Lookup(i) => TaskIn(s, i, Looking)
    case Acquire(i) => i < |s.tasks| && s.tasks[i].phase.Waiting? && LockFree(s, s.tasks[i].phase.lock)
    case Finish(i, sent, delivered) => i < |s.tasks| && s.tasks[i].phase.Sending? && (sent ==> delivered)
    case Drop(i) => TaskIn(s, i, Failed)
  }

  function SetPhase(s: State, i: nat, phase: Phase): State
    requires i < |s.tasks|
  {
    s.(tasks := s.tasks[i := s.tasks[i].(phase := phase)])
  }

  function Disconnected(s: State, c: Socket): State {
    s.(active := s.active - {c}, locks := s.locks - {c})
  }

  function Next(onceOnly: bool, s: State, a: Action): State
    requires Enabled(onceOnly, s, a)
  {
    match a
    case Connect(c) =>
      s.(active := s.active + {c}, locks := s.locks[c := s.nextLock], made := s.made[c := s.nextLock],
         nextLock := s.nextLock + 1)
    case Disconnect(c) => Disconnected(s, c)
    case Shutdown => s.(active := {}, locks := map[])
    case StartSend(c, m) => s.(tasks := s.tasks + [Task(c, m, None, Looking)])
    case BeginBroadcast(m, order) =>
      var n := |s.broadcasts|;
      s.(broadcasts := s.broadcasts + [Broadcast(m, s.active)], running := true,
         tasks := s.tasks + seq(|order|, i requires 0 <= i < |order| => Task(order[i], m, Some(n), Looking)))
    case EndBroadcast => s.(running := false)
    case Lookup(i) =>
      var c := s.tasks[i].socket;
      SetPhase(s, i, if c in s.locks then Waiting(s.locks[c]) else Done)
    case Acquire(i) => SetPhase(s, i, Sending(s.tasks[i].phase.lock))
    case Finish(i, sent, delivered) =>
      var t := s.tasks[i];
      var s' := SetPhase(s, i, if sent then Done else Failed);
      if delivered then
        s'.(received := s.received[t.socket := Log(s, t.socket) + [Entry(t.message, t.broadcast)]]) else s'
    case Drop(i) => SetPhase(Disconnected(s, s.tasks[i].socket), i, Done)
  }

  /** The state after a run from `s`, if the run is possible. */
  function Run(onceOnly: bool, s: State, actions: seq<Action>): Option<State>
    decreases |actions|
  {
    if actions == [] then Some(s)
    else if Enabled(onceOnly, s, actions[0]) then Run(onceOnly, Next(onceOnly, s, actions[0]), actions[1..])
    else None
  }
}
