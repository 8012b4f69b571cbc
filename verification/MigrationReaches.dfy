/**
 What the migration is for: without a fault a rehearsal changes nothing, the cutover it allows moves the
 service to PostgreSQL, and a rollback moves it back to the very database of the cutover.
 */
module MigrationReaches {
  import opened Wrappers
  import opened MigrationModel
  import opened MigrationTheorems
  import opened MigrationAdmission

  function Create(mode: Mode, j: JobId, t: ThreadId): seq<Action> {
    [CreateAdmit(mode), CreatePreflight, CreateCommit(j, t, Good)]
  }

  /** The service runs on SQLite, every job is over, and nothing is under way. */
  ghost predicate AtRest(w: World) {
    && w.admission.Free? && !w.busy && w.threads == map[]
    && w.memory.Sqlite? && w.saved.Sqlite? && w.service == RunningOn(Sqlite)
    && forall j :: j in w.jobs ==> Resolved(w.jobs[j], w.worker)
  }

  ghost predicate Rehearsed(w: World) {
    exists r :: r in w.jobs && w.jobs[r].mode.Rehearsal? && w.jobs[r].status.Completed?
  }

  /** The world after the request for job `j`. */
  function Created(w: World, mode: Mode, j: JobId, t: ThreadId): World {
    var job := Job(mode, Queued, false, false, w.worker);
    ViewAll(w).(jobs := ViewAll(w).jobs[j := job], latest := Some(j), busy := true,
                threads := map[t := RunThread(j, job, Start, Sqlite, false, false, false)])
  }

  lemma ViewedOnes(w: World)
    ensures ViewAll(w).jobs.Keys == w.jobs.Keys
    ensures forall j :: j in w.jobs ==> ViewAll(w).jobs[j] == Viewed(w.jobs[j], w.worker)
  {
  }

  lemma AtRestIsAdmitted(policy: Policy, w: World, mode: Mode)
    requires AtRest(w)
    ensures Step(policy, w, CreateAdmit(mode)) == Some(ViewAll(w).(admission := Admitted(mode)))
  {
    AdmittedIffResolved(policy, w, mode);
  }

  lemma RehearsedPasses(policy: Policy, w: World, mode: Mode)
    requires AtRest(w) && (mode.Cutover? ==> Rehearsed(w))
    ensures Step(policy, ViewAll(w).(admission := Admitted(mode)), CreatePreflight)
         == Some(ViewAll(w).(admission := Preflighted(mode)))
  {
    ViewedOnes(w);
    if mode.Cutover? {
      var r :| r in w.jobs && w.jobs[r].mode.Rehearsal? && w.jobs[r].status.Completed?;
      assert ViewAll(w).jobs[r].mode.Rehearsal? && ViewAll(w).jobs[r].status.Completed?;
    }
  }

  lemma CreateBegins(policy: Policy, w: World, mode: Mode, j: JobId, t: ThreadId)
    requires AtRest(w) && j !in w.jobs && (mode.Cutover? ==> Rehearsed(w))
    ensures Run(policy, w, Create(mode, j, t)) == Some(Created(w, mode, j, t))
  {
    AtRestIsAdmitted(policy, w, mode);
    RehearsedPasses(policy, w, mode);
    ViewedOnes(w);
    var w1 := ViewAll(w).(admission := Admitted(mode));
    var w2 := ViewAll(w).(admission := Preflighted(mode));
    CommitsWhenIdle(w, w2, j, t);
    var actions := Create(mode, j, t);
    assert actions[1..] == [CreatePreflight, CreateCommit(j, t, Good)];
    assert actions[1..][1..] == [CreateCommit(j, t, Good)];
    RunOne(policy, w2, CreateCommit(j, t, Good));
  }

  lemma RunOne(policy: Policy, w: World, a: Action)
    ensures Run(policy, w, [a]) == Step(policy, w, a)
  {
    assert [a][1..] == [];
  }

  lemma CommitsWhenIdle(w: World, w2: World, j: JobId, t: ThreadId)
    requires AtRest(w) && j !in w.jobs && w2.admission.Preflighted?
    requires w2 == ViewAll(w).(admission := w2.admission)
    ensures Commit(w2, j, t, Good) == Some(Created(w, w2.admission.mode, j, t))
  {
    ViewedOnes(w);
    if w.latest.Some? && w.latest.value in w.jobs {
      assert Resolved(w.jobs[w.latest.value], w.worker);
    }
    var made := Commit(w2, j, t, Good).value;
    assert made.threads == Created(w, w2.admission.mode, j, t).threads;
  }

  // ---- the phases of a job, without a fault ----

  /** `th` as thread `t`, and its record as that of the job. */
  function Recorded(w: World, t: ThreadId, th: Thread): World {
    w.(jobs := w.jobs[th.job := th.payload], latest := Some(th.job), threads := w.threads[t := th])
  }

  /** The next `k` fault-free ticks of thread `t` lead from `w` to `w'`. */
  ghost predicate Leads(policy: Policy, w: World, t: ThreadId, k: nat, w': World) {
    forall n: nat :: n >= k ==> Run(policy, w, Ticks(t, n)) == Run(policy, w', Ticks(t, n - k))
  }

  /** A tick of a running thread that goes on. */
  lemma Ticked(policy: Policy, w: World, t: ThreadId, w': World)
    requires t in w.threads && w.threads[t].RunThread? && t in w'.threads
    requires RunTick(w, w.threads[t], Good, true) == GoOn(w'.(threads := w.threads), w'.threads[t])
    requires w'.threads == w.threads[t := w'.threads[t]]
    ensures Leads(policy, w, t, 1, w')
  {
    forall n: nat | n >= 1 ensures Run(policy, w, Ticks(t, n)) == Run(policy, w', Ticks(t, n - 1)) {
      OneTick(policy, w, t, n);
    }
  }

  lemma LeadsOn(policy: Policy, w: World, t: ThreadId, k: nat, w1: World, l: nat, w2: World)
    requires Leads(policy, w, t, k, w1) && Leads(policy, w1, t, l, w2)
    ensures Leads(policy, w, t, k + l, w2)
  {
    forall n: nat | n >= k + l ensures Run(policy, w, Ticks(t, n)) == Run(policy, w2, Ticks(t, n - (k + l))) {
      assert Run(policy, w, Ticks(t, n)) == Run(policy, w1, Ticks(t, n - k));
      assert Run(policy, w1, Ticks(t, n - k)) == Run(policy, w2, Ticks(t, n - k - l));
    }
  }

  lemma LeadsTo(policy: Policy, w: World, t: ThreadId, k: nat, w': World, rest: nat)
    requires Leads(policy, w, t, k, w')
    ensures Run(policy, w, Ticks(t, k + rest)) == Run(policy, w', Ticks(t, rest))
  {
    assert Run(policy, w, Ticks(t, k + rest)) == Run(policy, w', Ticks(t, k + rest - k));
  }

  /** `w` with thread `t` now at `th`. */
  function At(w: World, t: ThreadId, th: Thread): World {
    w.(threads := w.threads[t := th])
  }

  lemma AtAgain(w: World, t: ThreadId, th: Thread, th': Thread)
    ensures At(At(w, t, th), t, th') == At(w, t, th')
  {
    assert w.threads[t := th][t := th'] == w.threads[t := th'];
  }

  lemma PrepareRuns(policy: Policy, w: World, t: ThreadId) returns (w': World)
    requires t in w.threads && w.threads[t].RunThread? && w.threads[t].run.Start? && w.service.RunningOn?
    ensures var th := w.threads[t];
      var th' := th.(payload := th.payload.(status := Running, worker := w.worker), wasRunning := true,
                     run := if th.payload.mode.Cutover? then Stopping else BackingUp);
      w' == Recorded(w, t, th').(copied := w.copied + {th.job})
    ensures Leads(policy, w, t, 3, w')
  {
    var th := w.threads[t];
    var th1 := th.(payload := th.payload.(status := Running, worker := w.worker), wasRunning := true, run := Checking);
    var w1 := Recorded(w, t, th1);
    Ticked(policy, w, t, w1);
    w' := CopyRuns(policy, w1, t);
    LeadsOn(policy, w, t, 1, w1, 2, w');
    AtAgain(w, t, th1, w'.threads[t]);
  }

  lemma CopyRuns(policy: Policy, w: World, t: ThreadId) returns (w': World)
    requires t in w.threads && w.threads[t].RunThread? && w.threads[t].run.Checking? && w.threads[t].wasRunning
    requires w.service.RunningOn?
    ensures var th := w.threads[t];
      var th' := th.(run := if th.payload.mode.Cutover? then Stopping else BackingUp);
      w' == At(w, t, th').(copied := w.copied + {th.job})
    ensures Leads(policy, w, t, 2, w')
  {
    var th := w.threads[t];
    var w1 := At(w, t, th.(run := CopyingConfig));
    Ticked(policy, w, t, w1);
    var last := th.(run := if th.payload.mode.Cutover? then Stopping else BackingUp);
    w' := At(w, t, last).(copied := w.copied + {th.job});
    AtAgain(w, t, th.(run := CopyingConfig), last);
    Ticked(policy, w1, t, w');
    LeadsOn(policy, w, t, 1, w1, 1, w');
  }

  lemma StopRuns(policy: Policy, w: World, t: ThreadId) returns (w': World)
    requires t in w.threads && w.threads[t].RunThread? && w.threads[t].run.Stopping?
    requires w.threads[t].payload.mode.Cutover?
    ensures var th := w.threads[t];
      w' == At(w, t, th.(stopAttempted := true, run := Checkpointing)).(
        service := Stopped, coldStop := w.coldStop[th.job := w.sqlite], snapshots := w.snapshots[th.job := w.sqlite])
    ensures Leads(policy, w, t, 2, w')
  {
    var th := w.threads[t];
    var th1 := th.(stopAttempted := true, run := BackingUp);
    var w1 := At(w, t, th1).(service := Stopped, coldStop := w.coldStop[th.job := w.sqlite]);
    Ticked(policy, w, t, w1);
    var th2 := th1.(run := Checkpointing);
    AtAgain(w, t, th1, th2);
    w' := At(w1, t, th2).(snapshots := w.snapshots[th.job := w.sqlite]);
    Ticked(policy, w1, t, w');
    LeadsOn(policy, w, t, 1, w1, 1, w');
  }

  lemma CheckpointRuns(policy: Policy, w: World, t: ThreadId) returns (w': World)
    requires t in w.threads && w.threads[t].RunThread? && w.threads[t].run.Checkpointing?
    ensures var th := w.threads[t];
      w' == Recorded(w, t, th.(payload := th.payload.(offered := true, checkpoint := true), run := Importing))
    ensures Leads(policy, w, t, 1, w')
  {
    var th := w.threads[t];
    w' := Recorded(w, t, th.(payload := th.payload.(offered := true, checkpoint := true), run := Importing));
    Ticked(policy, w, t, w');
  }

  lemma ImportAndSet(policy: Policy, w: World, t: ThreadId) returns (w': World)
    requires t in w.threads && w.threads[t].RunThread? && w.threads[t].run.Importing?
    requires w.threads[t].payload.mode.Cutover?
    ensures w' == At(w, t, w.threads[t].(run := SavingProvider)).(saved := w.memory, memory := Postgres)
    ensures Leads(policy, w, t, 2, w')
  {
    var th := w.threads[t];
    var w1 := At(w, t, th.(run := SettingProvider)).(saved := w.memory);
    Ticked(policy, w, t, w1);
    w' := At(w, t, th.(run := SavingProvider)).(saved := w.memory, memory := Postgres);
    AtAgain(w, t, th.(run := SettingProvider), th.(run := SavingProvider));
    Ticked(policy, w1, t, w');
    LeadsOn(policy, w, t, 1, w1, 1, w');
  }

  lemma SaveAndStart(policy: Policy, w: World, t: ThreadId) returns (w': World)
    requires t in w.threads && w.threads[t].RunThread? && w.threads[t].run.SavingProvider?
    requires w.threads[t].wasRunning
    ensures w' == At(w, t, w.threads[t].(run := SavingFinalizing)).(
                    saved := w.memory, service := RunningOn(w.memory))
    ensures Leads(policy, w, t, 2, w')
  {
    var th := w.threads[t];
    var w1 := At(w, t, th.(run := Starting)).(saved := w.memory);
    Ticked(policy, w, t, w1);
    w' := At(w, t, th.(run := SavingFinalizing)).(saved := w.memory, service := RunningOn(w.memory));
    AtAgain(w, t, th.(run := Starting), th.(run := SavingFinalizing));
    Ticked(policy, w1, t, w');
    LeadsOn(policy, w, t, 1, w1, 1, w');
  }

  lemma SwitchRuns(policy: Policy, w: World, t: ThreadId) returns (w': World)
    requires t in w.threads && w.threads[t].RunThread? && w.threads[t].run.Importing?
    requires w.threads[t].payload.mode.Cutover? && w.threads[t].wasRunning
    ensures w' == At(w, t, w.threads[t].(run := SavingFinalizing)).(
                    memory := Postgres, saved := Postgres, service := RunningOn(Postgres))
    ensures Leads(policy, w, t, 4, w')
  {
    var w1 := ImportAndSet(policy, w, t);
    w' := SaveAndStart(policy, w1, t);
    LeadsOn(policy, w, t, 2, w1, 2, w');
    AtAgain(w, t, w1.threads[t], w'.threads[t]);
  }

  lemma FinalizeRuns(policy: Policy, w: World, t: ThreadId) returns (w': World)
    requires t in w.threads && w.threads[t].RunThread? && w.threads[t].run.SavingFinalizing?
    ensures var th := w.threads[t];
      var th' := th.(payload := th.payload.(status := Finalizing, offered := true), run := SavingCompleted);
      w' == Recorded(w, t, th').(marker := Some(th.job))
    ensures Leads(policy, w, t, 2, w')
  {
    var th := w.threads[t];
    var th1 := th.(payload := th.payload.(status := Finalizing, offered := true), run := RecordingMarker);
    var w1 := Recorded(w, t, th1);
    Ticked(policy, w, t, w1);
    var last := th1.(run := SavingCompleted);
    AtAgain(w, t, th1, last);
    w' := At(w1, t, last).(marker := Some(th.job));
    Ticked(policy, w1, t, w');
    LeadsOn(policy, w, t, 1, w1, 1, w');
  }

  lemma RehearsalImports(policy: Policy, w: World, t: ThreadId) returns (w': World)
    requires t in w.threads && w.threads[t].RunThread? && w.threads[t].run.BackingUp?
    requires w.threads[t].payload.mode.Rehearsal?
    ensures w' == At(w, t, w.threads[t].(run := SavingCompleted, runtimeRestored := true)).(snapshots := w'.snapshots)
    ensures Leads(policy, w, t, 2, w')
  {
    var th := w.threads[t];
    var th1 := th.(run := Importing);
    var w1 := At(w, t, th1).(snapshots := w.snapshots[th.job := w.sqlite]);
    Ticked(policy, w, t, w1);
    var th2 := th.(run := SavingCompleted, runtimeRestored := true);
    AtAgain(w, t, th1, th2);
    w' := At(w1, t, th2);
    Ticked(policy, w1, t, w');
    LeadsOn(policy, w, t, 1, w1, 1, w');
  }

  /** The last two saves: the job is completed and its thread is gone. */
  function Completing(w: World, t: ThreadId): World
    requires t in w.threads
  {
    var job := w.threads[t].payload.(status := Completed);
    w.(jobs := w.jobs[w.threads[t].job := job], latest := Some(w.threads[t].job),
       threads := w.threads - {t}, busy := false)
  }

  lemma CompleteRuns(policy: Policy, w: World, t: ThreadId)
    requires t in w.threads && w.threads[t].RunThread? && w.threads[t].run.SavingCompleted?
    ensures Run(policy, w, Ticks(t, 2)) == Some(Completing(w, t))
  {
    var th := w.threads[t].(payload := w.threads[t].payload.(status := Completed), run := SavingAgain);
    var w1 := Recorded(w, t, th);
    OneTick(policy, w, t, 2);
    assert Step(policy, w, Tick(t, Good, true)) == Some(w1);
    OneTick(policy, w1, t, 1);
    var w2 := Step(policy, w1, Tick(t, Good, true)).value;
    assert w2.threads == w.threads - {t};
    assert w2.jobs == Completing(w, t).jobs;
    assert Run(policy, w2, Ticks(t, 0)) == Some(w2);
  }

  // ---- whole jobs ----

  /** The request for a cutover and its fourteen points. */
  function Cutting(j: JobId, t: ThreadId): seq<Action> { Create(Cutover, j, t) + Ticks(t, 14) }

  /** The request for a rehearsal and its seven points. */
  function Rehearsing(j: JobId, t: ThreadId): seq<Action> { Create(Rehearsal, j, t) + Ticks(t, 7) }

  /** The service runs on PostgreSQL, chosen in memory and in the file under the marker of `j`, and the
      database of before is kept as it was for the rollback of `j`. */
  predicate MovedToPostgres(w: World, w': World, j: JobId) {
    && w'.service == RunningOn(Postgres) && w'.memory.Postgres? && w'.saved.Postgres? && w'.marker == Some(j)
    && j in w'.jobs && w'.jobs[j] == Job(Cutover, Completed, true, true, w.worker)
    && j in w'.snapshots && w'.snapshots[j] == w.sqlite && w'.sqlite == w.sqlite
    && w'.threads == map[] && !w'.busy && w'.admission.Free? && j in w'.copied
  }

  /** After a rehearsal, and at rest, a cutover without a fault moves the service to PostgreSQL. */
  lemma CutoverReaches(policy: Policy, w: World, j: JobId, t: ThreadId)
    requires AtRest(w) && Rehearsed(w) && j !in w.jobs
    ensures var end := Run(policy, w, Cutting(j, t)); end.Some? && MovedToPostgres(w, end.value, j)
  {
    CreateBegins(policy, w, Cutover, j, t);
    var w0 := Created(w, Cutover, j, t);
    RunAppend(policy, w, Create(Cutover, j, t), Ticks(t, 14));
    var w1 := CutoverSwitches(policy, w0, j, t);
    var w2 := FinalizeRuns(policy, w1, t);
    LeadsOn(policy, w0, t, 10, w1, 2, w2);
    LeadsTo(policy, w0, t, 12, w2, 2);
    CompleteRuns(policy, w2, t);
  }

  lemma CutoverSwitches(policy: Policy, w: World, j: JobId, t: ThreadId) returns (w': World)
    requires w.service.RunningOn? && w.admission.Free? && w.threads.Keys == {t}
    requires w.threads[t]
          == RunThread(j, Job(Cutover, Queued, false, false, w.worker), Start, Sqlite, false, false, false)
    ensures Leads(policy, w, t, 10, w')
    ensures w'.service == RunningOn(Postgres) && w'.memory.Postgres? && w'.saved.Postgres?
    ensures j in w'.snapshots && w'.snapshots[j] == w.sqlite && w'.sqlite == w.sqlite && j in w'.copied
    ensures w'.admission.Free? && w'.threads.Keys == {t} && w'.worker == w.worker
    ensures w'.threads[t]
         == RunThread(j, Job(Cutover, Running, true, true, w.worker), SavingFinalizing, Sqlite, true, true, false)
  {
    var w1 := PrepareRuns(policy, w, t);
    var w2 := StopRuns(policy, w1, t);
    var w3 := CheckpointRuns(policy, w2, t);
    w' := SwitchRuns(policy, w3, t);
    LeadsOn(policy, w, t, 3, w1, 2, w2);
    LeadsOn(policy, w, t, 5, w2, 1, w3);
    LeadsOn(policy, w, t, 6, w3, 4, w');
  }

  /** From rest a rehearsal without a fault completes and allows a cutover; the service, its database, the
      configuration and the marker are as before, and so is every other job. */
  lemma RehearsalReaches(policy: Policy, w: World, j: JobId, t: ThreadId)
    requires AtRest(w) && j !in w.jobs
    ensures var end := Run(policy, w, Rehearsing(j, t));
      && end.Some? && AtRest(end.value) && Rehearsed(end.value)
      && end.value.sqlite == w.sqlite && end.value.marker == w.marker
      && end.value.jobs == ViewAll(w).jobs[j := Job(Rehearsal, Completed, false, false, w.worker)]
  {
    CreateBegins(policy, w, Rehearsal, j, t);
    var w0 := Created(w, Rehearsal, j, t);
    RunAppend(policy, w, Create(Rehearsal, j, t), Ticks(t, 7));
    var w1 := RehearsalRuns(policy, w0, j, t);
    ViewedOnes(w);
    assert w1.jobs == ViewAll(w).jobs[j := Job(Rehearsal, Completed, false, false, w.worker)];
    assert j in w1.jobs && w1.jobs[j].mode.Rehearsal? && w1.jobs[j].status.Completed?;
    assert Rehearsed(w1);
    forall i | i in w1.jobs ensures Resolved(w1.jobs[i], w1.worker) {
      if i != j {
        assert Resolved(w.jobs[i], w.worker);
      }
    }
  }

  lemma RehearsalRuns(policy: Policy, w: World, j: JobId, t: ThreadId) returns (w': World)
    requires w.service.RunningOn? && w.threads.Keys == {t}
    requires w.threads[t]
          == RunThread(j, Job(Rehearsal, Queued, false, false, w.worker), Start, Sqlite, false, false, false)
    ensures Run(policy, w, Ticks(t, 7)) == Some(w')
    ensures w' == w.(jobs := w.jobs[j := Job(Rehearsal, Completed, false, false, w.worker)], latest := Some(j),
                     threads := map[], busy := false, copied := w'.copied, snapshots := w'.snapshots)
  {
    var w1 := PrepareRuns(policy, w, t);
    var w2 := RehearsalImports(policy, w1, t);
    LeadsOn(policy, w, t, 3, w1, 2, w2);
    LeadsTo(policy, w, t, 5, w2, 2);
    CompleteRuns(policy, w2, t);
    w' := Completing(w2, t);
    assert w'.threads == map[];
    assert w'.jobs == w.jobs[j := Job(Rehearsal, Completed, false, false, w.worker)];
  }

  /** Rehearsal, cutover and rollback, one after the other from rest: the rollback gives the service back on
      SQLite with the very database of before, and the file and the memory back on SQLite. */
  lemma RollbackUndoesCutover(policy: Policy, w: World, r: JobId, j: JobId, t: ThreadId)
    requires AtRest(w) && r !in w.jobs && j !in w.jobs && r != j
    ensures var end := Run(policy, w, Rehearsing(r, t) + (Cutting(j, t) + Rollback(j, t, true)));
      RolledBackTo(end, j, w.sqlite, true)
  {
    RehearsalReaches(policy, w, r, t);
    var w1 := Run(policy, w, Rehearsing(r, t)).value;
    RunAppend(policy, w, Rehearsing(r, t), Cutting(j, t) + Rollback(j, t, true));
    ViewedOnes(w);
    CutoverReaches(policy, w1, j, t);
    var w2 := Run(policy, w1, Cutting(j, t)).value;
    RunAppend(policy, w1, Cutting(j, t), Rollback(j, t, true));
    RollbackReaches(policy, w2, j, t, true);
  }
}
