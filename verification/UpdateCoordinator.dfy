/**
 Manual update requests: the first caller leads, callers with the same signature follow it
 and share its result, and callers with another signature are turned away at once.
 */
module UpdateCoordinator {
  import opened Wrappers

  datatype Signature = Signature(process: string, allowOverride: bool, target: string, protection: string)

  /** What the leader's install ends with: a status dictionary, some other value, or an exception. */
  datatype Outcome = Status(text: string) | NoStatus | Raised

  /** The shared request: `ended` is its event, `payload` what it leaves to its followers. */
  datatype Request = Request(signature: Signature, ended: bool, outcome: Outcome)

  /** What a call returns or raises. */
  datatype Answer = Ended(outcome: Outcome) | InProgress(process: string) | CoalescedFailed

  datatype Caller =
    | Arriving(signature: Signature)
    | Leading(signature: Signature, request: nat)
    | Following(signature: Signature, request: nat)
    | LeaderDone(signature: Signature, request: nat, answer: Answer)
    | FollowerDone(signature: Signature, request: nat, answer: Answer)
    | Refused(signature: Signature, answer: Answer)

  datatype State = State(active: Option<nat>, requests: seq<Request>, callers: seq<Caller>)

  /** `Enter` is the locked section at the start of a call, `Leave` the one at the end of the
      leader's, and `Wake` the return of a follower whose event is set. */
  datatype Action = Call(signature: Signature) | Enter(caller: nat) |
    Leave(caller: nat, outcome: Outcome) | Wake(caller: nat)

  const INITIAL := State(None, [], [])

  predicate Enabled(s: State, a: Action) {
    match a
    case Call(_) => true
    case Enter(c) => c < |s.callers| && s.callers[c].Arriving? && (s.active.Some? ==> s.active.value < |s.requests|)
    case Leave(c, _) => c < |s.callers| && s.callers[c].Leading? && s.callers[c].request < |s.requests|
    case Wake(c) =>
      c < |s.callers| && s.callers[c].Following? && s.callers[c].request < |s.requests|
      && s.requests[s.callers[c].request].ended
  }

  function Put(s: State, c: nat, caller: Caller): State
    requires c < |s.callers|
  {
    s.(callers := s.callers[c := caller])
  }

  /** What a follower makes of the payload that its leader left. */
  function FollowerAnswer(outcome: Outcome): Answer {
    if outcome.Status? then Ended(outcome) else CoalescedFailed
  }

  function Next(s: State, a: Action): State
    requires Enabled(s, a)
  {
    match a
    case Call(signature) => s.(callers := s.callers + [Arriving(signature)])
    case Enter(c) =>
      var signature := s.callers[c].signature;
      if s.active.None? then
        var r := |s.requests|;
        Put(s.(active := Some(r), requests := s.requests + [Request(signature, false, NoStatus)]),
          c, Leading(signature, r))
      else if s.requests[s.active.value].signature != signature then
        Put(s, c, Refused(signature, InProgress(s.requests[s.active.value].signature.process)))
      else Put(s, c, Following(signature, s.active.value))
    case Leave(c, outcome) =>
      var r := s.callers[c].request;
      Put(s.(requests := s.requests[r := s.requests[r].(ended := true, outcome := outcome)],
             active := if s.active == Some(r) then None else s.active),
          c, LeaderDone(s.callers[c].signature, r, Ended(outcome)))
    case Wake(c) =>
      var r := s.callers[c].request;
      Put(s, c, FollowerDone(s.callers[c].signature, r, FollowerAnswer(s.requests[r].outcome)))
  }

  /** The state after a run from `s`, if the run is possible. */
  function Run(s: State, actions: seq<Action>): Option<State>
    decreases |actions|
  {
    if actions == [] then Some(s)
    else if Enabled(s, actions[0]) then Run(Next(s, actions[0]), actions[1..])
    else None
  }

  ghost predicate Reachable(s: State) {
    exists actions :: Run(INITIAL, actions) == Some(s)
  }

  // ---- the invariant ----

  /** The caller agrees with its request. */
  predicate CallerOk(s: State, c: Caller) {
    match c
    case Arriving(_) => true
    case Leading(signature, r) =>
      s.active == Some(r) && r < |s.requests| && s.requests[r].signature == signature && !s.requests[r].ended
    case Following(signature, r) => r < |s.requests| && s.requests[r].signature == signature
    case LeaderDone(signature, r, answer) =>
      && r < |s.requests| && s.requests[r].signature == signature && s.requests[r].ended
      && answer == Ended(s.requests[r].outcome)
    case FollowerDone(signature, r, answer) =>
      && r < |s.requests| && s.requests[r].signature == signature && s.requests[r].ended
      && answer == FollowerAnswer(s.requests[r].outcome)
    case Refused(signature, answer) => answer.InProgress?
  }

  predicate Leads(s: State, c: nat, r: nat) {
    c < |s.callers| && (s.callers[c].Leading? || s.callers[c].LeaderDone?) && s.callers[c].request == r
  }

  ghost predicate HasLeader(s: State, r: nat) {
    exists c: nat :: Leads(s, c, r)
  }

  ghost predicate Inv(s: State) {
    && (forall c :: 0 <= c < |s.callers| ==> CallerOk(s, s.callers[c]))
    && (forall r :: 0 <= r < |s.requests| ==> HasLeader(s, r) && (!s.requests[r].ended ==> s.active == Some(r)))
    && (s.active.Some? ==> s.active.value < |s.requests| && !s.requests[s.active.value].ended)
    && (forall c: nat, d: nat, r: nat :: Leads(s, c, r) && Leads(s, d, r) ==> c == d)
  }

  lemma StepKeeps(s: State, a: Action)
    requires Inv(s) && Enabled(s, a)
    ensures Inv(Next(s, a))
  {
    var s' := Next(s, a);
    forall c | 0 <= c < |s'.callers| ensures CallerOk(s', s'.callers[c]) {
      assert c < |s.callers| ==> CallerOk(s, s.callers[c]);
      LeaderIsActive(s, a, c);
    }
    LeadersStay(s, a);
  }

  /** While one caller leaves, no other caller leads. */
  lemma LeaderIsActive(s: State, a: Action, c: nat)
    requires Inv(s) && Enabled(s, a)
    ensures a.Leave? && c < |s.callers| && s.callers[c].Leading? ==> c == a.caller
  {
    if a.Leave? && c < |s.callers| && s.callers[c].Leading? {
      assert CallerOk(s, s.callers[c]) && CallerOk(s, s.callers[a.caller]);
      assert Leads(s, c, s.callers[c].request) && Leads(s, a.caller, s.callers[c].request);
    }
  }

  lemma LeaderRequestExists(s: State, c: nat, r: nat)
    requires Inv(s)
    ensures Leads(s, c, r) ==> r < |s.requests|
  {
    if Leads(s, c, r) {
      assert CallerOk(s, s.callers[c]);
    }
  }

  lemma LeadersStay(s: State, a: Action)
    requires Inv(s) && Enabled(s, a)
    ensures var s' := Next(s, a);
      && (forall r :: 0 <= r < |s'.requests| ==> HasLeader(s', r))
      && (forall c: nat, d: nat, r: nat :: Leads(s', c, r) && Leads(s', d, r) ==> c == d)
  {
    var s' := Next(s, a);
    forall c: nat, r: nat | Leads(s', c, r) ensures Leads(s, c, r) || (r == |s.requests| && a.Enter? && c == a.caller) {
    }
    forall r | 0 <= r < |s'.requests| ensures HasLeader(s', r) {
      if r < |s.requests| {
        assert HasLeader(s, r);
        var c: nat :| Leads(s, c, r);
        assert Leads(s', c, r);
      } else {
        assert Leads(s', a.caller, r);
      }
    }
    forall c: nat, r: nat ensures Leads(s, c, r) ==> r < |s.requests| {
      LeaderRequestExists(s, c, r);
    }
  }

  lemma {:induction false} RunKeeps(s: State, actions: seq<Action>)
    requires Inv(s) && Run(s, actions).Some?
    ensures Inv(Run(s, actions).value)
    decreases |actions|
  {
    if actions == [] {
    } else {
      StepKeeps(s, actions[0]);
      RunKeeps(Next(s, actions[0]), actions[1..]);
    }
  }

  lemma ReachableInv(s: State)
    requires Reachable(s)
    ensures Inv(s)
  {
    var actions :| Run(INITIAL, actions) == Some(s);
    RunKeeps(INITIAL, actions);
  }

  // ---- what callers can rely on ----

  /** At most one manual update runs at a time. */
  lemma OneUpdateAtATime(s: State, c: nat, d: nat)
    requires Reachable(s) && c < |s.callers| && d < |s.callers| && s.callers[c].Leading? && s.callers[d].Leading?
    ensures c == d
  {
    ReachableInv(s);
    assert CallerOk(s, s.callers[c]) && CallerOk(s, s.callers[d]);
    assert Leads(s, c, s.callers[c].request) && Leads(s, d, s.callers[c].request);
  }

  predicate LedBy(follower: Caller, leader: Caller)
    requires follower.FollowerDone?
  {
    && leader.LeaderDone? && leader.request == follower.request && leader.signature == follower.signature
    && match leader.answer
       case Ended(Status(text)) => follower.answer == Ended(Status(text))
       case Ended(NoStatus) => follower.answer == CoalescedFailed
       case Ended(Raised) => follower.answer == CoalescedFailed
       case _ => false
  }

  /** A follower has the signature of its leader, and gets exactly what its leader's install
      ended with, or the error answer if that was no status. */
  lemma FollowerGetsLeadersAnswer(s: State, f: nat)
    requires Reachable(s) && f < |s.callers| && s.callers[f].FollowerDone?
    ensures exists c :: 0 <= c < |s.callers| && LedBy(s.callers[f], s.callers[c])
  {
    ReachableInv(s);
    var r := s.callers[f].request;
    assert CallerOk(s, s.callers[f]) && HasLeader(s, r);
    var c: nat :| Leads(s, c, r);
    assert CallerOk(s, s.callers[c]);
    assert LedBy(s.callers[f], s.callers[c]);
  }

  /** A waiting follower waits for a leader that is still installing; once the leader has ended,
      however it ended, the follower can return. */
  lemma NoFollowerIsLeftWaiting(s: State, f: nat)
    requires Reachable(s) && f < |s.callers| && s.callers[f].Following?
    ensures Enabled(s, Wake(f)) <==>
      !exists c :: 0 <= c < |s.callers| && s.callers[c].Leading? && s.callers[c].request == s.callers[f].request
  {
    ReachableInv(s);
    var r := s.callers[f].request;
    assert CallerOk(s, s.callers[f]) && HasLeader(s, r);
    var c: nat :| Leads(s, c, r);
    assert CallerOk(s, s.callers[c]);
    if s.requests[r].ended {
      forall d | 0 <= d < |s.callers| && s.callers[d].Leading? ensures s.callers[d].request != r {
        assert CallerOk(s, s.callers[d]);
      }
    }
  }

  /** A call that finds an update of another signature running returns at once, and names it; a call
      is refused in no other case. */
  lemma OtherSignatureReturnsAtOnce(s: State, c: nat)
    requires Reachable(s) && c < |s.callers| && s.callers[c].Arriving?
    ensures Enabled(s, Enter(c))
    ensures Next(s, Enter(c)).callers[c].Refused? <==>
      exists d :: 0 <= d < |s.callers| && s.callers[d].Leading? && s.callers[d].signature != s.callers[c].signature
    ensures forall d ::
      0 <= d < |s.callers| && s.callers[d].Leading? && s.callers[d].signature != s.callers[c].signature ==>
      Next(s, Enter(c)).callers[c] == Refused(s.callers[c].signature, InProgress(s.callers[d].signature.process))
  {
    ReachableInv(s);
    if s.active.Some? {
      var r := s.active.value;
      assert HasLeader(s, r);
      var d: nat :| Leads(s, d, r);
      assert CallerOk(s, s.callers[d]);
    }
    forall d | 0 <= d < |s.callers| && s.callers[d].Leading? ensures CallerOk(s, s.callers[d]) {
    }
  }
}
