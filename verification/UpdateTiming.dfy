/**
 How an update accounts for the outage that it causes, how it waits for the service to
 become healthy, and when the next scheduled check is due.  Times are whole ticks.
 */
module UpdateTiming {
  import opened Wrappers

  // ---- outages ----

  datatype Event = Down(at: int) | Ready(at: int)

  /** Whether the service is down at tick `t`: what the last event until then says. */
  predicate DownAt(events: seq<Event>, t: int) {
    events != [] &&
    var last := events[|events| - 1];
    if last.at <= t then last.Down? else DownAt(events[..|events| - 1], t)
  }

  /** The number of ticks in `[from, until)` at which the service is down. */
  function DownTicks(events: seq<Event>, from: int, until: int): nat
    decreases until - from
  {
    if until <= from then 0
    else DownTicks(events, from, until - 1) + if DownAt(events, until - 1) then 1 else 0
  }

  lemma {:induction false} DownTicksBounded(events: seq<Event>, from: int, until: int)
    requires from <= until
    ensures DownTicks(events, from, until) <= until - from
    decreases until - from
  {
    if from == until {
    } else {
      DownTicksBounded(events, from, until - 1);
    }
  }

  /** After the last event the service stays as it is. */
  lemma {:induction false} DownTicksLater(events: seq<Event>, from: int, last: int, until: int)
    requires from <= last <= until && forall i :: 0 <= i < |events| ==> events[i].at <= last
    ensures DownTicks(events, from, until) ==
      DownTicks(events, from, last) + (if DownAt(events, last) then until - last else 0)
    decreases until - last
  {
    if last == until {
    } else {
      DownTicksLater(events, from, last, until - 1);
      assert DownAt(events, until - 1) == DownAt(events, last);
    }
  }

  /** An event changes nothing before it. */
  lemma {:induction false} DownTicksBefore(events: seq<Event>, e: Event, from: int, until: int)
    requires until <= e.at
    ensures DownTicks(events + [e], from, until) == DownTicks(events, from, until)
    decreases until - from
  {
    if from >= until {
    } else {
      DownTicksBefore(events, e, from, until - 1);
      assert (events + [e])[..|events|] == events;
    }
  }

  /** The record that the update keeps for a process. */
  datatype Timing = Timing(startedAt: int, downtimeStartedAt: Option<int>, downtime: int, observed: bool)

  datatype Status = NotObserved | Ongoing | Completed

  datatype Metrics = Metrics(installDuration: int, downtime: int, status: Status)

  function Max(a: int, b: int): int { if a < b then b else a }

  /** `_update_timing_metrics` */
  function MetricsAt(t: Timing, now: int): Metrics {
    Metrics(Max(0, now - t.startedAt),
            t.downtime + if t.downtimeStartedAt.Some? then Max(0, now - t.downtimeStartedAt.value) else 0,
            if !t.observed then NotObserved else if t.downtimeStartedAt.Some? then Ongoing else Completed)
  }

  /** The record stands for the events until `clock`. */
  ghost predicate Tracks(t: Timing, events: seq<Event>, clock: int) {
    && t.startedAt <= clock
    && (forall i :: 0 <= i < |events| ==> t.startedAt <= events[i].at <= clock)
    && (t.downtimeStartedAt.Some? <==> DownAt(events, clock))
    && (t.downtimeStartedAt.Some? ==> t.downtimeStartedAt.value <= clock)
    && t.downtime + (if t.downtimeStartedAt.Some? then clock - t.downtimeStartedAt.value else 0)
       == DownTicks(events, t.startedAt, clock)
    && (t.observed <==> exists i :: 0 <= i < |events| && events[i].Down?)
  }

  lemma TracksLater(t: Timing, events: seq<Event>, clock: int, now: int)
    requires Tracks(t, events, clock) && clock <= now
    ensures Tracks(t, events, now)
  {
    DownTicksLater(events, t.startedAt, clock, now);
    assert DownAt(events, now) == DownAt(events, clock);
  }

  function AfterDown(t: Timing, now: int): Timing {
    if t.downtimeStartedAt.Some? then t else t.(downtimeStartedAt := Some(now), observed := true)
  }

  function AfterReady(t: Timing, now: int): Timing {
    if t.downtimeStartedAt.None? then t
    else t.(downtime := t.downtime + Max(0, now - t.downtimeStartedAt.value), downtimeStartedAt := None)
  }

  lemma DownTracks(t: Timing, events: seq<Event>, now: int)
    requires Tracks(t, events, now)
    ensures Tracks(AfterDown(t, now), events + [Down(now)], now)
  {
    DownTicksBefore(events, Down(now), t.startedAt, now);
    assert (events + [Down(now)])[|events|].Down?;
    if t.downtimeStartedAt.Some? {
      DownIsObserved(events, now);
    }
  }

  lemma {:induction false} DownIsObserved(events: seq<Event>, now: int)
    requires DownAt(events, now)
    ensures exists i :: 0 <= i < |events| && events[i].Down?
  {
    if events[|events| - 1].at <= now {
    } else {
      DownIsObserved(events[..|events| - 1], now);
    }
  }

  lemma ReadyTracks(t: Timing, events: seq<Event>, now: int)
    requires Tracks(t, events, now)
    ensures Tracks(AfterReady(t, now), events + [Ready(now)], now)
  {
    DownTicksBefore(events, Ready(now), t.startedAt, now);
    assert forall i :: 0 <= i < |events| ==> (events + [Ready(now)])[i] == events[i];
  }

  /** The reported downtime is the time for which the service was down, and so no more than the
      install took; the status tells whether there was an outage and whether it has ended. */
  lemma MetricsAreExact(t: Timing, events: seq<Event>, now: int)
    requires Tracks(t, events, now)
    ensures var m := MetricsAt(t, now);
      && m.installDuration == now - t.startedAt
      && 0 <= m.downtime == DownTicks(events, t.startedAt, now) <= m.installDuration
      && (m.status.NotObserved? <==> forall i :: 0 <= i < |events| ==> events[i].Ready?)
      && (m.status.Ongoing? <==> DownAt(events, now))
  {
    DownTicksBounded(events, t.startedAt, now);
    if DownAt(events, now) {
      DownIsObserved(events, now);
    }
  }

  ghost predicate AllTrack(timings: map<string, Timing>, events: map<string, seq<Event>>, clock: int) {
    timings.Keys == events.Keys && forall p :: p in timings ==> Tracks(timings[p], events[p], clock)
  }

  lemma OneTracks(timings: map<string, Timing>, events: map<string, seq<Event>>, clock: int,
                  process: string, t: Timing, history: seq<Event>)
    requires AllTrack(timings, events, clock) && Tracks(t, history, clock)
    ensures AllTrack(timings[process := t], events[process := history], clock)
  {
  }

  lemma DownKeeps(timings: map<string, Timing>, events: map<string, seq<Event>>, process: string, now: int)
    requires AllTrack(timings, events, now) && process in timings
    ensures AllTrack(timings[process := AfterDown(timings[process], now)],
                     events[process := events[process] + [Down(now)]], now)
  {
    DownTracks(timings[process], events[process], now);
    OneTracks(timings, events, now, process, AfterDown(timings[process], now), events[process] + [Down(now)]);
  }

  lemma ReadyKeeps(timings: map<string, Timing>, events: map<string, seq<Event>>, process: string, now: int)
    requires AllTrack(timings, events, now) && process in timings
    ensures AllTrack(timings[process := AfterReady(timings[process], now)],
                     events[process := events[process] + [Ready(now)]], now)
  {
    ReadyTracks(timings[process], events[process], now);
    OneTracks(timings, events, now, process, AfterReady(timings[process], now), events[process] + [Ready(now)]);
  }

  /** The records of all running updates, with their history. */
  class UpdateTimings {
    var timings: map<string, Timing>
    ghost var events: map<string, seq<Event>>
    ghost var clock: int

    ghost predicate Valid()
      reads this
    {
      AllTrack(timings, events, clock)
    }

    constructor (now: int)
      ensures Valid() && timings == map[] && clock == now
    {
      timings, events, clock := map[], map[], now;
    }

    ghost method Advance(now: int)
      requires Valid() && clock <= now
      modifies `clock
      ensures Valid() && clock == now
    {
      forall p | p in timings ensures Tracks(timings[p], events[p], now) {
        TracksLater(timings[p], events[p], clock, now);
      }
      clock := now;
    }

    method Begin(process: string, now: int) returns (begun: bool)
      requires Valid() && clock <= now
      modifies this
      ensures Valid() && clock == now && begun == (process !in old(timings))
      ensures begun ==>
        events == old(events)[process := []] && timings == old(timings)[process := Timing(now, None, 0, false)]
      ensures !begun ==> events == old(events) && timings == old(timings)
    {
      Advance(now);
      if process in timings {
        return false;
      }
      timings := timings[process := Timing(now, None, 0, false)];
      events := events[process := []];
      return true;
    }

    method MarkDowntimeStarted(process: string, now: int)
      requires Valid() && clock <= now
      modifies this
      ensures Valid() && clock == now
      ensures events == if process !in old(events) then old(events) else
        old(events)[process := old(events)[process] + [Down(now)]]
      ensures timings == if process !in old(timings) then old(timings) else
        old(timings)[process := AfterDown(old(timings)[process], now)]
    {
      Advance(now);
      if process in timings {
        DownKeeps(timings, events, process, now);
        assert timings == timings[process := timings[process]];
        events := events[process := events[process] + [Down(now)]];
        if timings[process].downtimeStartedAt.None? {
          timings := timings[process := timings[process].(downtimeStartedAt := Some(now), observed := true)];
        }
      }
    }

    method MarkServiceReady(process: string, now: int)
      requires Valid() && clock <= now
      modifies this
      ensures Valid() && clock == now
      ensures events == if process !in old(events) then old(events) else
        old(events)[process := old(events)[process] + [Ready(now)]]
      ensures timings == if process !in old(timings) then old(timings) else
        old(timings)[process := AfterReady(old(timings)[process], now)]
    {
      Advance(now);
      if process in timings {
        ReadyKeeps(timings, events, process, now);
        events := events[process := events[process] + [Ready(now)]];
        var timing := timings[process];
        if timing.downtimeStartedAt.Some? {
          var outage := Max(0, now - timing.downtimeStartedAt.value);
          var ended := timing.(downtime := timing.downtime + outage, downtimeStartedAt := None);
          assert ended == AfterReady(timing, now);
          timings := timings[process := ended];
        } else {
          assert timings == timings[process := timing];
        }
      }
    }

    /** Removes the record and reports what it stands for. */
    method Finish(process: string, now: int) returns (metrics: Option<Metrics>)
      requires Valid() && clock <= now
      modifies this
      ensures Valid() && clock == now && timings == old(timings) - {process} && events == old(events) - {process}
      ensures metrics.Some? <==> process in old(timings)
      ensures metrics.Some? ==>
        && var started := old(timings)[process].startedAt;
        && metrics.value.installDuration == now - started
        && metrics.value.downtime == DownTicks(old(events)[process], started, now) <= metrics.value.installDuration
      ensures metrics.Some? ==>
        && var history := old(events)[process];
        && (metrics.value.status.NotObserved? <==> forall i :: 0 <= i < |history| ==> history[i].Ready?)
        && (metrics.value.status.Ongoing? <==> DownAt(history, now))
    {
      Advance(now);
      if process !in timings {
        assert timings - {process} == timings && events - {process} == events;
        return None;
      }
      MetricsAreExact(timings[process], events[process], now);
      metrics := Some(MetricsAt(timings[process], now));
      timings := timings - {process};
      events := events - {process};
    }
  }
}
