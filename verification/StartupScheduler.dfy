/**
 The dependency scheduler of the startup sequence: every enabled service is started
 in a thread pool as soon as its enabled dependencies have finished, and whichever
 running starts finish first are collected together.
 */
module StartupScheduler {

  type Key = string

  datatype Event = Started(key: Key) | Finished(key: Key)

  /** The scheduler returns the keys that failed to start, or raises the stall error
      with the keys that are left. */
  datatype Outcome = Done(failures: set<Key>) | Stalled(remaining: set<Key>)

  /** The dependencies of `k` that are themselves enabled. */
  function Deps(dependencies: map<Key, set<Key>>, enabled: set<Key>, k: Key): set<Key> {
    if k in dependencies then dependencies[k] * enabled else {}
  }

  /** A chain of enabled keys, each depending on the next, that ends where it began. */
  predicate IsCycle(dependencies: map<Key, set<Key>>, enabled: set<Key>, c: seq<Key>) {
    && |c| >= 2 && c[0] == c[|c| - 1]
    && IsChain(dependencies, enabled, c)
  }

  predicate IsChain(dependencies: map<Key, set<Key>>, enabled: set<Key>, c: seq<Key>) {
    && (forall i :: 0 <= i < |c| ==> c[i] in enabled)
    && (forall i :: 0 <= i < |c| - 1 ==> c[i] in dependencies && c[i + 1] in dependencies[c[i]])
  }

  ghost predicate Cyclic(dependencies: map<Key, set<Key>>, enabled: set<Key>) {
    exists c :: IsCycle(dependencies, enabled, c)
  }

  function StartedKeys(trace: seq<Event>): set<Key> {
    if trace == [] then {}
    else
      var last := trace[|trace| - 1];
      StartedKeys(trace[..|trace| - 1]) + if last.Started? then {last.key} else {}
  }

  function FinishedKeys(trace: seq<Event>): set<Key> {
    if trace == [] then {}
    else
      var last := trace[|trace| - 1];
      FinishedKeys(trace[..|trace| - 1]) + if last.Finished? then {last.key} else {}
  }

  /** Event `e` may follow `trace`: a key starts only once and only after all its
      enabled dependencies have finished, and finishes only once and after it started. */
  predicate MayFollow(dependencies: map<Key, set<Key>>, enabled: set<Key>, trace: seq<Event>, e: Event) {
    && e.key in enabled
    && match e
       case Started(k) =>
         && k !in StartedKeys(trace)
         && (k in dependencies ==> forall d :: d in dependencies[k] && d in enabled ==> d in FinishedKeys(trace))
       case Finished(k) => k in StartedKeys(trace) && k !in FinishedKeys(trace)
  }

  predicate Legal(dependencies: map<Key, set<Key>>, enabled: set<Key>, trace: seq<Event>) {
    trace == [] ||
    (Legal(dependencies, enabled, trace[..|trace| - 1])
     && MayFollow(dependencies, enabled, trace[..|trace| - 1], trace[|trace| - 1]))
  }

  lemma FinishedAfterStarted(dependencies: map<Key, set<Key>>, enabled: set<Key>, trace: seq<Event>)
    requires Legal(dependencies, enabled, trace)
    ensures FinishedKeys(trace) <= StartedKeys(trace) <= enabled
  {
  }

  // ---- a trace, event by event ----

  /** Every key of the trace is enabled, and starts and finishes at most once. */
  ghost predicate EachOnce(enabled: set<Key>, trace: seq<Event>) {
    && (forall i :: 0 <= i < |trace| ==> trace[i].key in enabled)
    && (forall i, j :: 0 <= i < j < |trace| ==> trace[i] != trace[j])
  }

  /** A key starts only after each of its enabled dependencies has finished, and finishes after its start. */
  ghost predicate DependenciesFirst(dependencies: map<Key, set<Key>>, enabled: set<Key>, trace: seq<Event>) {
    forall i :: 0 <= i < |trace| ==> Preceded(dependencies, enabled, trace[..i], trace[i])
  }

  predicate Preceded(dependencies: map<Key, set<Key>>, enabled: set<Key>, before: seq<Event>, e: Event) {
    match e
    case Started(k) => k in dependencies ==> forall d :: d in dependencies[k] && d in enabled ==> Finished(d) in before
    case Finished(k) => Started(k) in before
  }

  lemma {:induction false} KeysAreEvents(trace: seq<Event>)
    ensures forall k :: k in StartedKeys(trace) <==> Started(k) in trace
    ensures forall k :: k in FinishedKeys(trace) <==> Finished(k) in trace
  {
    if trace == [] {
    } else {
      KeysAreEvents(trace[..|trace| - 1]);
      assert trace == trace[..|trace| - 1] + [trace[|trace| - 1]];
    }
  }

  lemma FollowsInOrder(dependencies: map<Key, set<Key>>, enabled: set<Key>, before: seq<Event>, e: Event)
    requires MayFollow(dependencies, enabled, before, e)
    ensures e !in before && e.key in enabled && Preceded(dependencies, enabled, before, e)
  {
    KeysAreEvents(before);
  }

  lemma {:induction false} LegalIsOrdered(dependencies: map<Key, set<Key>>, enabled: set<Key>, trace: seq<Event>)
    requires Legal(dependencies, enabled, trace)
    ensures EachOnce(enabled, trace) && DependenciesFirst(dependencies, enabled, trace)
  {
    if trace == [] {
    } else {
      var n := |trace| - 1;
      LegalIsOrdered(dependencies, enabled, trace[..n]);
      FollowsInOrder(dependencies, enabled, trace[..n], trace[n]);
      forall i | 0 <= i < n ensures Preceded(dependencies, enabled, trace[..i], trace[i]) {
        assert trace[..n][..i] == trace[..i] && trace[..n][i] == trace[i];
      }
    }
  }

  // ---- cycles ----

  /** A set in which every key depends on another key of the set contains a cycle. */
  lemma {:induction false} FindCycle(dependencies: map<Key, set<Key>>, enabled: set<Key>, s: set<Key>, walk: seq<Key>)
    requires s <= enabled && AllWait(dependencies, enabled, s)
    requires walk != [] && IsChain(dependencies, enabled, walk)
    requires forall i :: 0 <= i < |walk| ==> walk[i] in s
    ensures Cyclic(dependencies, enabled)
    decreases |s - (set k | k in walk)|
  {
    var last := walk[|walk| - 1];
    assert WaitsFor(dependencies, enabled, last, s);
    var next :| next in dependencies[last] && next in enabled && next in s;
    if next in walk {
      var i :| 0 <= i < |walk| && walk[i] == next;
      assert IsCycle(dependencies, enabled, walk[i..] + [next]);
    } else {
      var longer := walk + [next];
      assert (s - (set k | k in walk)) - (s - (set k | k in longer)) == {next};
      SmallerSet(s - (set k | k in longer), s - (set k | k in walk), next);
      FindCycle(dependencies, enabled, s, longer);
    }
  }

  lemma SmallerSet(a: set<Key>, b: set<Key>, k: Key)
    requires a <= b && k in b && k !in a
    ensures |a| < |b|
  {
    assert b == a + (b - a);
    assert |b - a| > 0;
  }

  /** In a legal trace no key of a cycle ever starts. */
  lemma {:induction false} CycleNeverStarts(dependencies: map<Key, set<Key>>, enabled: set<Key>,
                                            trace: seq<Event>, c: seq<Key>)
    requires Legal(dependencies, enabled, trace) && IsCycle(dependencies, enabled, c)
    ensures forall i :: 0 <= i < |c| ==> c[i] !in StartedKeys(trace)
    decreases |trace|
  {
    if trace == [] {
    } else {
      var before := trace[..|trace| - 1];
      CycleNeverStarts(dependencies, enabled, before, c);
      FinishedAfterStarted(dependencies, enabled, before);
      forall i | 0 <= i < |c| ensures c[i] !in StartedKeys(trace) {
        var next := if i < |c| - 1 then c[i + 1] else c[1];
        assert c[i] in dependencies && next in dependencies[c[i]] && next !in StartedKeys(before);
      }
    }
  }

  /** In a legal trace no key starts that belongs to a set whose keys wait for each other. */
  lemma {:induction false} WaitingNeverStarts(dependencies: map<Key, set<Key>>, enabled: set<Key>,
                                              trace: seq<Event>, s: set<Key>)
    requires Legal(dependencies, enabled, trace) && AllWait(dependencies, enabled, s)
    ensures s !! StartedKeys(trace)
    decreases |trace|
  {
    if trace == [] {
    } else {
      var before := trace[..|trace| - 1];
      WaitingNeverStarts(dependencies, enabled, before, s);
      FinishedAfterStarted(dependencies, enabled, before);
      var last := trace[|trace| - 1];
      assert last.key in s ==> WaitsFor(dependencies, enabled, last.key, s);
    }
  }

  // ---- the events of the loop ----

  lemma Extend(dependencies: map<Key, set<Key>>, enabled: set<Key>, trace: seq<Event>, e: Event)
    requires Legal(dependencies, enabled, trace) && MayFollow(dependencies, enabled, trace, e)
    ensures Legal(dependencies, enabled, trace + [e])
    ensures StartedKeys(trace + [e]) == StartedKeys(trace) + if e.Started? then {e.key} else {}
    ensures FinishedKeys(trace + [e]) == FinishedKeys(trace) + if e.Finished? then {e.key} else {}
  {
    assert (trace + [e])[..|trace|] == trace;
  }

  /** The three key sets partition the enabled keys, and the trace tells them apart. */
  ghost predicate Consistent(dependencies: map<Key, set<Key>>, enabled: set<Key>,
                             pending: set<Key>, inProgress: set<Key>, completed: set<Key>, trace: seq<Event>) {
    && pending + inProgress + completed == enabled
    && pending !! inProgress && pending !! completed && inProgress !! completed
    && Legal(dependencies, enabled, trace)
    && StartedKeys(trace) == inProgress + completed && FinishedKeys(trace) == completed
  }

  lemma Submit(dependencies: map<Key, set<Key>>, enabled: set<Key>, pending: set<Key>, inProgress: set<Key>,
               completed: set<Key>, trace: seq<Event>, k: Key)
    requires Consistent(dependencies, enabled, pending, inProgress, completed, trace)
    requires k in pending && Ready(dependencies, enabled, k, completed)
    ensures Consistent(dependencies, enabled, pending - {k}, inProgress + {k}, completed, trace + [Started(k)])
  {
    Extend(dependencies, enabled, trace, Started(k));
  }

  lemma Collect(dependencies: map<Key, set<Key>>, enabled: set<Key>, pending: set<Key>, inProgress: set<Key>,
                completed: set<Key>, trace: seq<Event>, k: Key)
    requires Consistent(dependencies, enabled, pending, inProgress, completed, trace)
    requires k in inProgress
    ensures Consistent(dependencies, enabled, pending, inProgress - {k}, completed + {k}, trace + [Finished(k)])
  {
    Extend(dependencies, enabled, trace, Finished(k));
  }

  /** All enabled dependencies of `k` have finished. */
  predicate Ready(dependencies: map<Key, set<Key>>, enabled: set<Key>, k: Key, completed: set<Key>) {
    Deps(dependencies, enabled, k) <= completed
  }

  /** `k` depends on a key that is left. */
  predicate WaitsFor(dependencies: map<Key, set<Key>>, enabled: set<Key>, k: Key, remaining: set<Key>) {
    k in dependencies && exists d :: d in dependencies[k] && d in enabled && d in remaining
  }

  /** Every key that is left waits for another key that is left. */
  ghost predicate AllWait(dependencies: map<Key, set<Key>>, enabled: set<Key>, remaining: set<Key>) {
    forall k {:trigger WaitsFor(dependencies, enabled, k, remaining)} ::
      k in remaining ==> WaitsFor(dependencies, enabled, k, remaining)
  }

  lemma WaitingIsDependence(dependencies: map<Key, set<Key>>, enabled: set<Key>, remaining: set<Key>)
    requires AllWait(dependencies, enabled, remaining)
    ensures forall k :: k in remaining ==> k in dependencies && exists d :: d in dependencies[k] && d in remaining
  {
    forall k | k in remaining ensures k in dependencies && exists d :: d in dependencies[k] && d in remaining {
      assert WaitsFor(dependencies, enabled, k, remaining);
    }
  }

  /** No pending key is ready. */
  ghost predicate NoneReady(dependencies: map<Key, set<Key>>,
    enabled: set<Key>, pending: set<Key>, completed: set<Key>) {
    forall k {:trigger Ready(dependencies, enabled, k, completed)} ::
      k in pending ==> !Ready(dependencies, enabled, k, completed)
  }

  lemma UnreadyWait(dependencies: map<Key, set<Key>>, enabled: set<Key>, pending: set<Key>, completed: set<Key>)
    requires pending + completed == enabled && NoneReady(dependencies, enabled, pending, completed)
    ensures AllWait(dependencies, enabled, pending)
  {
    forall k | k in pending ensures WaitsFor(dependencies, enabled, k, pending) {
      assert !Ready(dependencies, enabled, k, completed);
      var d :| d in Deps(dependencies, enabled, k) && d !in completed;
      assert d in dependencies[k] && d in enabled && d in pending;
    }
  }

  /** Nothing is running and nothing is ready: the keys that are left contain a cycle. */
  lemma StallHasCycle(dependencies: map<Key, set<Key>>, enabled: set<Key>, pending: set<Key>)
    requires AllWait(dependencies, enabled, pending) && pending <= enabled && pending != {}
    ensures Cyclic(dependencies, enabled)
  {
    var first :| first in pending;
    FindCycle(dependencies, enabled, pending, [first]);
  }

  lemma CompletionHasNoCycle(dependencies: map<Key, set<Key>>, enabled: set<Key>, trace: seq<Event>)
    requires Consistent(dependencies, enabled, {}, {}, enabled, trace)
    ensures !Cyclic(dependencies, enabled)
  {
    if Cyclic(dependencies, enabled) {
      var c :| IsCycle(dependencies, enabled, c);
      CycleNeverStarts(dependencies, enabled, trace, c);
      assert false;
    }
  }

  /** Submits every ready key; `ready` was computed before the first submission. */
  method SubmitReady(enabled: set<Key>, dependencies: map<Key, set<Key>>, pending: set<Key>, inProgress: set<Key>,
                     completed: set<Key>, ghost trace: seq<Event>)
    returns (pending': set<Key>, inProgress': set<Key>, ghost trace': seq<Event>)
    requires Consistent(dependencies, enabled, pending, inProgress, completed, trace)
    ensures Consistent(dependencies, enabled, pending', inProgress', completed, trace')
    ensures NoneReady(dependencies, enabled, pending', completed)
    ensures pending' <= pending && inProgress' == inProgress + (pending - pending')
  {
    pending', inProgress', trace' := pending, inProgress, trace;
    var ready := set k | k in pending && Ready(dependencies, enabled, k, completed);
    while ready != {}
      invariant Consistent(dependencies, enabled, pending', inProgress', completed, trace')
      invariant pending' <= pending && inProgress' == inProgress + (pending - pending')
      invariant ready == set k | k in pending' && Ready(dependencies, enabled, k, completed)
      decreases ready
    {
      var k :| k in ready;
      Submit(dependencies, enabled, pending', inProgress', completed, trace', k);
      ready, pending', inProgress', trace' := ready - {k}, pending' - {k}, inProgress' + {k}, trace' + [Started(k)];
    }
  }

  function Failed(keys: set<Key>, succeeds: Key -> bool): set<Key> {
    set k | k in keys && !succeeds(k)
  }

  lemma Progress(dependencies: map<Key, set<Key>>, enabled: set<Key>, pending: set<Key>, inProgress: set<Key>,
                 completed: set<Key>, trace: seq<Event>, done: set<Key>)
    requires Consistent(dependencies, enabled, pending, inProgress, completed, trace)
    requires done <= inProgress && done != {}
    ensures enabled - (completed + done) < enabled - completed
  {
    var k :| k in done;
  }

  /** Collects the starts that have finished. */
  method CollectDone(enabled: set<Key>, dependencies: map<Key, set<Key>>, pending: set<Key>, inProgress: set<Key>,
                     completed: set<Key>, failures: set<Key>, succeeds: Key -> bool, done: set<Key>,
                     ghost trace: seq<Event>)
    returns (completed': set<Key>, failures': set<Key>, ghost trace': seq<Event>)
    requires Consistent(dependencies, enabled, pending, inProgress, completed, trace) && done <= inProgress
    requires failures == Failed(completed, succeeds)
    ensures Consistent(dependencies, enabled, pending, inProgress - done, completed', trace')
    ensures completed' == completed + done && failures' == Failed(completed', succeeds)
  {
    completed', failures', trace' := completed, failures, trace;
    var rest, running := done, inProgress;
    while rest != {}
      invariant rest <= done && completed' == completed + (done - rest) && running == inProgress - (done - rest)
      invariant Consistent(dependencies, enabled, pending, running, completed', trace')
      invariant failures' == Failed(completed', succeeds)
      decreases rest
    {
      var k :| k in rest;
      Collect(dependencies, enabled, pending, running, completed', trace', k);
      rest, running := rest - {k}, running - {k};
      if !succeeds(k) {
        failures' := failures' + {k};
      }
      completed', trace' := completed' + {k}, trace' + [Finished(k)];
    }
    assert running == inProgress - done;
  }

  /** Every enabled key was started and finished, and the failures are those whose start failed. */
  predicate AllStarted(enabled: set<Key>, succeeds: Key -> bool, failures: set<Key>, trace: seq<Event>) {
    StartedKeys(trace) == FinishedKeys(trace) == enabled && failures == Failed(enabled, succeeds)
  }

  /** Nothing is running, and what is left was never started. */
  predicate Deadlocked(enabled: set<Key>, remaining: set<Key>, trace: seq<Event>) {
    remaining == enabled - StartedKeys(trace) && StartedKeys(trace) == FinishedKeys(trace)
  }

  /** The keys wait for each other, and every set of enabled keys that wait for each other is among
      them: the dependencies alone say which keys these are. */
  ghost predicate GreatestWaiting(dependencies: map<Key, set<Key>>, enabled: set<Key>, remaining: set<Key>) {
    && remaining <= enabled && AllWait(dependencies, enabled, remaining)
    && forall s :: AllWait(dependencies, enabled, s) && s <= enabled ==> s <= remaining
  }

  /** What the scheduler reports is what the trace of its run shows. */
  predicate Reports(dependencies: map<Key, set<Key>>, enabled: set<Key>, succeeds: Key -> bool,
                    outcome: Outcome, trace: seq<Event>) {
    && Legal(dependencies, enabled, trace)
    && match outcome
       case Done(failures) => AllStarted(enabled, succeeds, failures, trace)
       case Stalled(remaining) => Deadlocked(enabled, remaining, trace)
  }

  lemma StallReports(dependencies: map<Key, set<Key>>, enabled: set<Key>, succeeds: Key -> bool,
                     pending: set<Key>, completed: set<Key>, trace: seq<Event>)
    requires Consistent(dependencies, enabled, pending, {}, completed, trace)
    requires pending != {} && NoneReady(dependencies, enabled, pending, completed)
    ensures Reports(dependencies, enabled, succeeds, Stalled(pending), trace)
    ensures Cyclic(dependencies, enabled) && GreatestWaiting(dependencies, enabled, pending)
  {
    UnreadyWait(dependencies, enabled, pending, completed);
    StallHasCycle(dependencies, enabled, pending);
    assert StartedKeys(trace) == completed;
    assert pending == enabled - completed;
    forall s | AllWait(dependencies, enabled, s) && s <= enabled ensures s <= pending {
      WaitingNeverStarts(dependencies, enabled, trace, s);
    }
  }

  lemma CompletionReports(dependencies: map<Key, set<Key>>, enabled: set<Key>, succeeds: Key -> bool,
                          completed: set<Key>, trace: seq<Event>)
    requires Consistent(dependencies, enabled, {}, {}, completed, trace)
    ensures Reports(dependencies, enabled, succeeds, Done(Failed(completed, succeeds)), trace)
    ensures completed == enabled && !Cyclic(dependencies, enabled)
  {
    assert completed == enabled;
    CompletionHasNoCycle(dependencies, enabled, trace);
  }

  /** Some of the running starts have finished: at least one, and which ones is arbitrary. */
  method WaitFirstCompleted(inProgress: set<Key>) returns (done: set<Key>)
    requires inProgress != {}
    ensures done <= inProgress && done != {}
  {
    var first :| first in inProgress;
    var others: set<Key> := *;
    done := {first} + (others * inProgress);
  }

  /**
   `_start_processes_with_dependencies` without a shutdown.  `succeeds` tells how the
   start of each key ends; which running starts are collected together is arbitrary.
   */
  method StartProcesses(enabled: set<Key>, dependencies: map<Key, set<Key>>, succeeds: Key -> bool)
    returns (outcome: Outcome, ghost trace: seq<Event>)
    ensures EachOnce(enabled, trace) && DependenciesFirst(dependencies, enabled, trace)
    ensures outcome.Done? ==> forall k :: k in enabled ==> Started(k) in trace && Finished(k) in trace
    ensures outcome.Done? ==> forall k :: k in outcome.failures <==> k in enabled && !succeeds(k)
    ensures outcome.Stalled? ==> forall k :: k in outcome.remaining <==> k in enabled && Started(k) !in trace
    ensures outcome.Stalled? ==> forall k :: k in outcome.remaining ==>
      k in dependencies && exists d :: d in dependencies[k] && d in outcome.remaining
    ensures Reports(dependencies, enabled, succeeds, outcome, trace)
    ensures outcome.Stalled? <==> Cyclic(dependencies, enabled)
    ensures outcome.Stalled? ==> outcome.remaining != {} && GreatestWaiting(dependencies, enabled, outcome.remaining)
    ensures outcome.Done? ==> outcome.failures == Failed(enabled, succeeds)
  {
    var pending, inProgress, completed, failures := enabled, {}, {}, {};
    trace := [];
    while pending != {} || inProgress != {}
      invariant Consistent(dependencies, enabled, pending, inProgress, completed, trace)
      invariant failures == Failed(completed, succeeds)
      decreases enabled - completed
    {
      pending, inProgress, trace :=
        SubmitReady(enabled, dependencies, pending, inProgress, completed, trace);
      if inProgress == {} {
        StallReports(dependencies, enabled, succeeds, pending, completed, trace);
        LegalIsOrdered(dependencies, enabled, trace);
        KeysAreEvents(trace);
        WaitingIsDependence(dependencies, enabled, pending);
        return Stalled(pending), trace;
      }
      var done := WaitFirstCompleted(inProgress);
      Progress(dependencies, enabled, pending, inProgress, completed, trace, done);
      completed, failures, trace :=
        CollectDone(enabled, dependencies, pending, inProgress, completed, failures, succeeds, done, trace);
      inProgress := inProgress - done;
    }
    CompletionReports(dependencies, enabled, succeeds, completed, trace);
    LegalIsOrdered(dependencies, enabled, trace);
    KeysAreEvents(trace);
    return Done(failures), trace;
  }
}
