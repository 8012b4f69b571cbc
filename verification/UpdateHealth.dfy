/** The health wait of an update, and the schedule of automatic checks. */
module UpdateHealth {
  import opened Wrappers
  import opened UpdateTiming

  // ---- waiting for health ----

  datatype Probe = ServiceReady | Starting | Broken

  /** The clock readings of round `k`: at the top of the loop, when the outage is marked, when the
      run of ready probes may begin, and when its length is checked. */
  datatype Readings = Readings(top: int, mark: int, since: int, check: int)

  /** The clock goes forward, and `pause` ticks at least lie between two rounds: two seconds, in ticks
      as fine as the clock resolves. */
  ghost predicate Forward(pause: nat, start: int, clock: nat -> Readings) {
    && pause > 0
    && start <= clock(0).top
    && (forall k :: clock(k).top <= clock(k).mark <= clock(k).since <= clock(k).check)
    && (forall j: nat, k: nat :: k == j + 1 ==> clock(j).check + pause <= clock(k).top)
  }

  /** Probes `first` to `n` all found the service ready, for at least the stabilisation time. */
  ghost predicate Stable(probe: nat -> Probe, clock: nat -> Readings, stabilization: int, first: nat, n: nat) {
    && first <= n && (forall j :: first <= j <= n ==> probe(j).ServiceReady?)
    && clock(n).check - clock(first).since >= stabilization
  }

  ghost predicate StableBy(probe: nat -> Probe, clock: nat -> Readings, stabilization: int, n: nat) {
    exists first :: Stable(probe, clock, stabilization, first, n)
  }

  /** Round `n` begins before the deadline, and no probe until then was a terminal failure. */
  ghost predicate Reached(probe: nat -> Probe, clock: nat -> Readings, deadline: int, n: nat) {
    clock(n).top < deadline && forall j: nat :: j <= n ==> !probe(j).Broken?
  }

  lemma {:induction false} ClockForward(pause: nat, start: int, clock: nat -> Readings, i: nat, j: nat)
    requires Forward(pause, start, clock) && i < j
    ensures clock(i).check < clock(j).top && clock(i).since < clock(j).since
    decreases j
  {
    assert clock(j - 1).check + pause <= clock(j).top;
    if i + 1 == j {
    } else {
      ClockForward(pause, start, clock, i, j - 1);
    }
  }

  /** The pauses of so many rounds, added up. */
  function Pauses(pause: nat, rounds: nat): nat {
    if rounds == 0 then 0 else Pauses(pause, rounds - 1) + pause
  }

  lemma {:induction false} PausesAre(pause: nat, rounds: nat)
    ensures Pauses(pause, rounds) == pause * rounds
  {
    if rounds == 0 {
    } else {
      PausesAre(pause, rounds - 1);
      assert pause * rounds == pause * (rounds - 1) + pause;
    }
  }

  lemma {:induction false} RoundsTakeTime(pause: nat, start: int, clock: nat -> Readings, k: nat)
    requires Forward(pause, start, clock)
    ensures start + Pauses(pause, k) <= clock(k).top
  {
    if k == 0 {
    } else {
      RoundsTakeTime(pause, start, clock, k - 1);
      assert clock(k - 1).check + pause <= clock(k).top;
    }
  }

  /** `ready_since` before round `k`. */
  function ReadySince(probe: nat -> Probe, clock: nat -> Readings, k: nat): Option<int> {
    if k == 0 || !probe(k - 1).ServiceReady? then None
    else if ReadySince(probe, clock, k - 1).Some? then ReadySince(probe, clock, k - 1)
    else Some(clock(k - 1).since)
  }

  /** `ready_since` is when the longest run of ready probes that ends in round `k - 1` began. */
  lemma {:induction false} ReadySinceIsRun(pause: nat, start: int, probe: nat -> Probe, clock: nat -> Readings, k: nat)
      returns (first: nat)
    requires Forward(pause, start, clock) && ReadySince(probe, clock, k).Some?
    ensures first < k && ReadySince(probe, clock, k) == Some(clock(first).since)
    ensures forall j :: first <= j < k ==> probe(j).ServiceReady?
    ensures first > 0 ==> !probe(first - 1).ServiceReady?
  {
    if ReadySince(probe, clock, k - 1).Some? {
      first := ReadySinceIsRun(pause, start, probe, clock, k - 1);
    } else {
      first := k - 1;
      NoRunBefore(probe, clock, k - 1);
    }
  }

  lemma NoRunBefore(probe: nat -> Probe, clock: nat -> Readings, k: nat)
    ensures ReadySince(probe, clock, k).None? <==> k == 0 || !probe(k - 1).ServiceReady?
  {
  }

  /** The check of `ready_since` in round `n` decides whether the service is stable by then. */
  lemma CheckDecides(pause: nat, start: int, probe: nat -> Probe, clock: nat -> Readings, stabilization: int, n: nat)
    requires Forward(pause, start, clock) && probe(n).ServiceReady?
    ensures ReadySince(probe, clock, n + 1).Some?
    ensures StableBy(probe, clock, stabilization, n) <==>
      clock(n).check - ReadySince(probe, clock, n + 1).value >= stabilization
  {
    var run := ReadySinceIsRun(pause, start, probe, clock, n + 1);
    if StableBy(probe, clock, stabilization, n) {
      var first :| Stable(probe, clock, stabilization, first, n);
      RunIsLongest(probe, first, run, n);
      if run < first {
        ClockForward(pause, start, clock, run, first);
      }
    }
    if clock(n).check - clock(run).since >= stabilization {
      assert Stable(probe, clock, stabilization, run, n);
    }
  }

  lemma RunIsLongest(probe: nat -> Probe, first: nat, run: nat, n: nat)
    requires first <= n && run <= n && forall j :: first <= j <= n ==> probe(j).ServiceReady?
    requires run > 0 ==> !probe(run - 1).ServiceReady?
    ensures run <= first
  {
  }

  /** No round before `k` has ended the wait. */
  ghost predicate Undecided(probe: nat -> Probe, clock: nat -> Readings, stabilization: int, k: nat) {
    k == 0 ||
    (Undecided(probe, clock, stabilization, k - 1)
     && !probe(k - 1).Broken? && !StableBy(probe, clock, stabilization, k - 1))
  }

  lemma {:induction false} UndecidedBefore(probe: nat -> Probe, clock: nat -> Readings, stabilization: int,
                                           k: nat, j: nat)
    requires Undecided(probe, clock, stabilization, k) && j < k
    ensures !probe(j).Broken? && !StableBy(probe, clock, stabilization, j)
  {
    if j + 1 == k {
    } else {
      UndecidedBefore(probe, clock, stabilization, k - 1, j);
    }
  }

  /** The wait is to succeed. */
  ghost predicate BecomesHealthy(probe: nat -> Probe, clock: nat -> Readings, deadline: int, stabilization: int) {
    exists n :: Reached(probe, clock, deadline, n) && StableBy(probe, clock, stabilization, n)
  }

  // ---- the outage records of the wait ----

  function Mark(state: Probe, now: int): Event {
    if state.ServiceReady? then Ready(now) else Down(now)
  }

  /** What the first `n` rounds record. */
  function Marks(probe: nat -> Probe, clock: nat -> Readings, n: nat): seq<Event> {
    if n == 0 then [] else Marks(probe, clock, n - 1) + [Mark(probe(n - 1), clock(n - 1).mark)]
  }

  /** Each round records that the service was ready or down when it looked. */
  lemma {:induction false} MarksAre(probe: nat -> Probe, clock: nat -> Readings, n: nat)
    ensures |Marks(probe, clock, n)| == n
    ensures forall k: nat :: k < n ==>
      Marks(probe, clock, n)[k] == if probe(k).ServiceReady? then Ready(clock(k).mark) else Down(clock(k).mark)
  {
    if n == 0 {
    } else {
      MarksAre(probe, clock, n - 1);
    }
  }

  /** How many of the rounds record their probe: a terminal failure is not recorded. */
  function Marked(probe: nat -> Probe, rounds: nat): nat {
    if rounds > 0 && probe(rounds - 1).Broken? then rounds - 1 else rounds
  }

  function Extended(events: map<string, seq<Event>>, process: string, more: seq<Event>): map<string, seq<Event>> {
    if process in events then events[process := events[process] + more] else events
  }

  /** Every update keeps its start, and every update of another process its whole record. */
  ghost predicate SameStarts(before: map<string, Timing>, after: map<string, Timing>, process: string) {
    && after.Keys == before.Keys
    && forall p :: p in after ==>
         after[p].startedAt == before[p].startedAt && (p != process ==> after[p] == before[p])
  }

  lemma ExtendedByNothing(events: map<string, seq<Event>>, process: string)
    ensures Extended(events, process, []) == events
  {
    if process in events {
      assert events[process] + [] == events[process];
    }
  }

  /** A recorded round extends what the rounds before it have recorded. */
  lemma MarksStep(events: map<string, seq<Event>>, process: string, probe: nat -> Probe, clock: nat -> Readings, k: nat)
    requires !probe(k).Broken?
    ensures Marked(probe, k + 1) == k + 1
    ensures Extended(Extended(events, process, Marks(probe, clock, k)), process, [Mark(probe(k), clock(k).mark)])
         == Extended(events, process, Marks(probe, clock, k + 1))
  {
    if process in events {
      assert events[process] + Marks(probe, clock, k) + [Mark(probe(k), clock(k).mark)]
          == events[process] + Marks(probe, clock, k + 1);
    }
  }

  /**
   `_wait_for_update_health`.  It succeeds exactly if in some round before the deadline an unbroken
   run of ready probes spans the stabilisation time, with no failed probe until then.  The number of
   rounds is bounded by the timeout, and the outage record gets one event a probe.
   */
  method WaitForUpdateHealth(timings: UpdateTimings, process: string, probe: nat -> Probe, clock: nat -> Readings,
                             pause: nat, start: int, timeout: int, stabilization: int)
    returns (healthy: bool, rounds: nat)
    requires timings.Valid() && timings.clock <= start && Forward(pause, start, clock)
    modifies timings
    ensures timings.Valid() && SameStarts(old(timings.timings), timings.timings, process)
    ensures timings.events == Extended(old(timings.events), process, Marks(probe, clock, Marked(probe, rounds)))
    ensures healthy <==> BecomesHealthy(probe, clock, start + timeout, stabilization)
    ensures rounds > 0 ==> clock(rounds - 1).top < start + timeout
    ensures Bounded(pause, rounds, timeout)
  {
    var deadline := start + timeout;
    var readySince: Option<int> := None;
    rounds := 0;
    ExtendedByNothing(timings.events, process);
    while clock(rounds).top < deadline
      invariant timings.Valid() && timings.clock <= clock(rounds).top
      invariant SameStarts(old(timings.timings), timings.timings, process)
      invariant timings.events == Extended(old(timings.events), process, Marks(probe, clock, rounds))
      invariant Marked(probe, rounds) == rounds
      invariant Undecided(probe, clock, stabilization, rounds) && readySince == ReadySince(probe, clock, rounds)
      invariant (rounds > 0 ==> clock(rounds - 1).top < deadline) && Bounded(pause, rounds, timeout)
      decreases deadline - clock(rounds).top
    {
      RoundBounded(pause, start, clock, rounds, timeout);
      if probe(rounds).Broken? {
        BrokenEnds(probe, clock, deadline, stabilization, rounds);
        return false, rounds + 1;
      }
      MarkRound(timings, process, probe, clock, rounds, old(timings.timings), old(timings.events));
      healthy, readySince := Judge(pause, start, probe, clock, deadline, stabilization, rounds, readySince);
      rounds := rounds + 1;
      if healthy {
        return;
      }
      assert clock(rounds - 1).check + pause <= clock(rounds).top;
    }
    DeadlineEnds(pause, start, probe, clock, deadline, stabilization, rounds);
    return false, rounds;
  }

  /** The rest of a round: a run of ready probes begins, goes on or breaks off, and may be long enough. */
  method Judge(pause: nat, start: int, probe: nat -> Probe, clock: nat -> Readings,
               ghost deadline: int, stabilization: int, k: nat, readySince: Option<int>)
    returns (stable: bool, since: Option<int>)
    requires Forward(pause, start, clock) && clock(k).top < deadline && !probe(k).Broken?
    requires Undecided(probe, clock, stabilization, k) && readySince == ReadySince(probe, clock, k)
    ensures since == ReadySince(probe, clock, k + 1)
    ensures if stable then BecomesHealthy(probe, clock, deadline, stabilization)
            else Undecided(probe, clock, stabilization, k + 1)
  {
    since := None;
    if probe(k).ServiceReady? {
      since := if readySince.None? then Some(clock(k).since) else readySince;
      CheckDecides(pause, start, probe, clock, stabilization, k);
      if clock(k).check - since.value >= stabilization {
        ReachedUndecided(probe, clock, deadline, stabilization, k);
        return true, since;
      }
    } else {
      NotReadyNotStable(probe, clock, stabilization, k);
    }
    StillUndecided(probe, clock, stabilization, k);
    return false, since;
  }

  /** The outage that the probe of a round ends or begins. */
  method MarkRound(timings: UpdateTimings, process: string, probe: nat -> Probe, clock: nat -> Readings, k: nat,
                   ghost before: map<string, Timing>, ghost events: map<string, seq<Event>>)
    requires timings.Valid() && timings.clock <= clock(k).mark && !probe(k).Broken?
    requires SameStarts(before, timings.timings, process)
    requires timings.events == Extended(events, process, Marks(probe, clock, k))
    modifies timings
    ensures timings.Valid() && timings.clock == clock(k).mark
    ensures SameStarts(before, timings.timings, process)
    ensures timings.events == Extended(events, process, Marks(probe, clock, k + 1)) && Marked(probe, k + 1) == k + 1
  {
    ghost var recorded := timings.timings;
    MarksStep(events, process, probe, clock, k);
    if probe(k).ServiceReady? {
      timings.MarkServiceReady(process, clock(k).mark);
    } else {
      timings.MarkDowntimeStarted(process, clock(k).mark);
    }
    SameStartsStep(before, recorded, timings.timings, process);
  }

  lemma SameStartsStep(before: map<string, Timing>, recorded: map<string, Timing>, after: map<string, Timing>,
                       process: string)
    requires SameStarts(before, recorded, process)
    requires after == recorded || (process in recorded && process in after
      && after == recorded[process := after[process]] && after[process].startedAt == recorded[process].startedAt)
    ensures SameStarts(before, after, process)
  {
  }

  lemma NotReadyNotStable(probe: nat -> Probe, clock: nat -> Readings, stabilization: int, n: nat)
    requires !probe(n).ServiceReady?
    ensures !StableBy(probe, clock, stabilization, n)
  {
  }

  lemma StillUndecided(probe: nat -> Probe, clock: nat -> Readings, stabilization: int, k: nat)
    requires Undecided(probe, clock, stabilization, k)
    requires !probe(k).Broken? && !StableBy(probe, clock, stabilization, k)
    ensures Undecided(probe, clock, stabilization, k + 1)
  {
  }

  lemma ReachedUndecided(probe: nat -> Probe, clock: nat -> Readings, deadline: int, stabilization: int, n: nat)
    requires Undecided(probe, clock, stabilization, n) && clock(n).top < deadline && !probe(n).Broken?
    requires StableBy(probe, clock, stabilization, n)
    ensures BecomesHealthy(probe, clock, deadline, stabilization)
  {
    forall j: nat | j <= n ensures !probe(j).Broken? {
      if j < n {
        UndecidedBefore(probe, clock, stabilization, n, j);
      }
    }
    assert Reached(probe, clock, deadline, n);
  }

  /** The timeout bounds the number of rounds. */
  predicate Bounded(pause: nat, rounds: nat, timeout: int) {
    rounds > 0 ==> Pauses(pause, rounds - 1) < timeout
  }

  lemma RoundBounded(pause: nat, start: int, clock: nat -> Readings, k: nat, timeout: int)
    requires Forward(pause, start, clock) && clock(k).top < start + timeout
    ensures Bounded(pause, k + 1, timeout)
  {
    RoundsTakeTime(pause, start, clock, k);
  }

  lemma BrokenEnds(probe: nat -> Probe, clock: nat -> Readings, deadline: int, stabilization: int, k: nat)
    requires probe(k).Broken? && Undecided(probe, clock, stabilization, k)
    ensures !BecomesHealthy(probe, clock, deadline, stabilization)
  {
    forall n: nat | Reached(probe, clock, deadline, n) ensures !StableBy(probe, clock, stabilization, n) {
      assert n < k;
      UndecidedBefore(probe, clock, stabilization, k, n);
    }
  }

  lemma DeadlineEnds(pause: nat, start: int, probe: nat -> Probe, clock: nat -> Readings,
                     deadline: int, stabilization: int, k: nat)
    requires Forward(pause, start, clock) && clock(k).top >= deadline && Undecided(probe, clock, stabilization, k)
    ensures !BecomesHealthy(probe, clock, deadline, stabilization)
  {
    forall n: nat | Reached(probe, clock, deadline, n) ensures !StableBy(probe, clock, stabilization, n) {
      if k < n {
        ClockForward(pause, start, clock, k, n);
      } else if n < k {
        UndecidedBefore(probe, clock, stabilization, k, n);
      }
    }
  }

  // ---- scheduled checks ----

  const MIN_INTERVAL := 60

  /** `_calculate_next_run_at`, given the start time of the day of `now`. */
  function NextRunAt(anchor: int, interval: int, now: int): int
    requires interval >= MIN_INTERVAL
  {
    if now <= anchor then anchor
    else anchor + ((now - anchor + interval - 1) / interval) * interval
  }

  /** `t` is slot number `k`: that many intervals after the start time. */
  predicate Slot(anchor: int, interval: int, k: nat, t: int) {
    t == anchor + k * interval
  }

  /** The number of the next run. */
  function NextSlot(anchor: int, interval: int, now: int): nat
    requires interval >= MIN_INTERVAL
  {
    if now <= anchor then 0 else (now - anchor + interval - 1) / interval
  }

  /** The next run is the first slot that is not in the past, and less than an interval away once the
      start time has passed. */
  lemma NextRunIsFirstSlot(anchor: int, interval: int, now: int)
    requires interval >= MIN_INTERVAL
    ensures Slot(anchor, interval, NextSlot(anchor, interval, now), NextRunAt(anchor, interval, now))
    ensures NextRunAt(anchor, interval, now) >= now
    ensures forall k: nat, t :: Slot(anchor, interval, k, t) && t >= now ==> NextRunAt(anchor, interval, now) <= t
    ensures now >= anchor ==> NextRunAt(anchor, interval, now) - now < interval
  {
    var q := NextSlot(anchor, interval, now);
    if now > anchor {
      DivideUp(now - anchor, interval);
    }
    forall k: nat, t | Slot(anchor, interval, k, t) && t >= now ensures NextRunAt(anchor, interval, now) <= t {
      if k < q {
        Apart(k, q, interval);
      } else {
        Ordered(q, k, interval);
      }
    }
  }

  lemma DivideUp(a: int, m: int)
    requires a > 0 && m > 0
    ensures var q := (a + m - 1) / m; q >= 0 && a <= q * m < a + m
  {
    var q := (a + m - 1) / m;
    assert a + m - 1 == q * m + (a + m - 1) % m;
  }

  lemma Apart(k: nat, q: nat, m: int)
    requires k < q && m > 0
    ensures k * m + m <= q * m
  {
    Ordered(k + 1, q, m);
    assert (k + 1) * m == k * m + m;
  }

  lemma {:induction false} Ordered(k: nat, q: nat, m: int)
    requires k <= q && m > 0
    ensures k * m <= q * m
    decreases q - k
  {
    if k == q {
    } else {
      Ordered(k, q - 1, m);
      assert q * m == (q - 1) * m + m;
    }
  }

  /** `slot` is the first one from `now` on, counted from the start time of the day of `now` in steps of the
      interval, but at least a minute. */
  ghost predicate FirstSlot(anchor: int -> int, interval: int, now: int, slot: int) {
    var step := if interval < 60 then 60 else interval;
    && slot >= now && (exists k: nat :: Slot(anchor(now), step, k, slot))
    && (forall k: nat, t :: Slot(anchor(now), step, k, t) && t >= now ==> slot <= t)
  }

  lemma NextCheckIsFirstSlot(anchor: int -> int, interval: int, now: int)
    ensures FirstSlot(anchor, interval, now, NextCheckAt(anchor, interval, now))
  {
    var step := Max(MIN_INTERVAL, interval);
    NextRunIsFirstSlot(anchor(now), step, now);
    assert Slot(anchor(now), step, NextSlot(anchor(now), step, now), NextCheckAt(anchor, interval, now));
  }

  /** A scheduled check that ran: when it was due and when it ran. */
  datatype Firing = Firing(due: int, at: int)

  /** `_calculate_next_check_at`: `anchor` gives the start time of the day of a given moment, and
      `interval` is what the configuration asks for. */
  function NextCheckAt(anchor: int -> int, interval: int, now: int): int {
    NextRunAt(anchor(now), Max(MIN_INTERVAL, interval), now)
  }

  /** The schedule of one service.  Its start time and interval may be others at each call. */
  class Schedule {
    var nextCheckAt: Option<int>
    ghost var firings: seq<Firing>
    ghost var changes: set<int>  // when the stored slot was dropped or replaced
    ghost var clock: int

    /** No slot is due before the firing before it ran; nor in the same second, except after a change then. */
    ghost predicate Valid()
      reads this
    {
      && (forall i :: 0 <= i < |firings| ==> firings[i].due <= firings[i].at <= clock)
      && (forall i :: 0 < i < |firings| ==> Follows(firings[i - 1].at, firings[i].due))
      && (firings != [] && nextCheckAt.Some? ==> Follows(firings[|firings| - 1].at, nextCheckAt.value))
      && (firings != [] && nextCheckAt.None? ==> exists c :: c in changes && firings[|firings| - 1].at <= c)
      && (forall c :: c in changes ==> c <= clock)
    }

    ghost predicate Follows(ran: int, due: int)
      reads this
    {
      ran < due || (ran == due && ran in changes)
    }

    constructor (now: int)
      ensures Valid() && firings == [] && changes == {} && clock == now && nextCheckAt == None
    {
      nextCheckAt, firings, changes, clock := None, [], {}, now;
    }

    /** `_run_scheduled_update_if_due`, up to the check itself. */
    method RunIfDue(anchor: int -> int, interval: int, now: int) returns (fired: bool)
      requires Valid() && clock <= now
      modifies this
      ensures Valid() && clock == now && changes == old(changes)
      ensures var due := if old(nextCheckAt).Some? then old(nextCheckAt).value else NextCheckAt(anchor, interval, now);
        && fired == (due <= now)
        && firings == (if fired then old(firings) + [Firing(due, now)] else old(firings))
        && nextCheckAt == Some(if fired then NextCheckAt(anchor, interval, now + 1) else due)
      ensures fired ==> FirstSlot(anchor, interval, now + 1, nextCheckAt.value)
      ensures old(nextCheckAt).None? ==>
        FirstSlot(anchor, interval, now, if fired then firings[|firings| - 1].due else nextCheckAt.value)
      ensures !fired && old(nextCheckAt).Some? ==> nextCheckAt == old(nextCheckAt)
    {
      NextCheckIsFirstSlot(anchor, interval, now);
      NextCheckIsFirstSlot(anchor, interval, now + 1);
      var dueAt := if nextCheckAt.Some? then nextCheckAt.value else NextCheckAt(anchor, interval, now);
      nextCheckAt := Some(dueAt);
      clock := now;
      if now < dueAt {
        return false;
      }
      nextCheckAt := Some(NextCheckAt(anchor, interval, now + 1));
      firings := firings + [Firing(dueAt, now)];
      return true;
    }

    /** `update_schedule` replaces the stored slot. */
    method Reschedule(anchor: int -> int, interval: int, now: int)
      requires Valid() && clock <= now
      modifies this
      ensures Valid() && clock == now && firings == old(firings) && changes == old(changes) + {now}
      ensures nextCheckAt == Some(NextCheckAt(anchor, interval, now))
      ensures FirstSlot(anchor, interval, now, nextCheckAt.value)
    {
      NextCheckIsFirstSlot(anchor, interval, now);
      clock, changes := now, changes + {now};
      nextCheckAt := Some(NextCheckAt(anchor, interval, now));
    }

    /** `_cancel_auto_update_job` drops the stored slot. */
    method Cancel(now: int)
      requires Valid() && clock <= now
      modifies this
      ensures Valid() && clock == now && firings == old(firings) && changes == old(changes) + {now}
      ensures nextCheckAt == None
    {
      clock, changes := now, changes + {now};
      nextCheckAt := None;
      assert now in changes;
    }
  }

  /** Due times never decrease, and strictly increase over a firing in whose second the slot was not changed. */
  lemma {:induction false} FiringsInOrder(schedule: Schedule, i: nat, j: nat)
    requires schedule.Valid() && i < j < |schedule.firings|
    ensures schedule.firings[i].due <= schedule.firings[i].at <= schedule.firings[j].due
    ensures schedule.firings[i].at !in schedule.changes ==> schedule.firings[i].at < schedule.firings[j].due
    decreases j
  {
    if i + 1 == j {
      assert schedule.Follows(schedule.firings[j - 1].at, schedule.firings[j].due);
    } else {
      FiringsInOrder(schedule, i, j - 1);
      assert schedule.Follows(schedule.firings[j - 1].at, schedule.firings[j].due);
    }
  }

  /** A slot fires twice only if it first fired in its own second and was changed in that second. */
  lemma SlotFiresTwiceOnlyAfterChange(schedule: Schedule, i: nat, j: nat)
    requires schedule.Valid() && i < j < |schedule.firings|
    requires schedule.firings[i].due == schedule.firings[j].due
    ensures schedule.firings[i].at == schedule.firings[i].due && schedule.firings[i].at in schedule.changes
  {
    FiringsInOrder(schedule, i, j);
  }

  /** Rescheduling in that very second does make the slot fire twice. */
  method RescheduledSlotFiresTwice(anchor: int -> int, interval: int, slot: int, later: int)
      returns (schedule: Schedule)
    requires NextCheckAt(anchor, interval, slot) == slot && slot <= later
    ensures schedule.Valid() && schedule.firings == [Firing(slot, slot), Firing(slot, later)]
  {
    schedule := new Schedule(slot);
    var first := schedule.RunIfDue(anchor, interval, slot);
    schedule.Reschedule(anchor, interval, slot);
    var second := schedule.RunIfDue(anchor, interval, later);
  }
}
