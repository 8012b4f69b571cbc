/**
 Runs that need a guard: without it they reach a state with two claims, or with a
 rollback recorded over a file that says PostgreSQL.
 */
module MigrationGuards {
  import opened Wrappers
  import opened MigrationModel
  import opened MigrationInvariant
  import opened MigrationTheorems

  /** One more step of a run. */
  lemma Go(policy: Policy, w: World, a: Action) returns (w': World)
    requires Reachable(policy, w) && Step(policy, w, a).Some?
    ensures w' == Step(policy, w, a).value && Reachable(policy, w')
  {
    w' := Step(policy, w, a).value;
    var actions: seq<Action> :| Run(policy, INITIAL, actions) == Some(w);
    RunAppend(policy, INITIAL, actions, [a]);
    assert Run(policy, w', [a][1..]) == Some(w');
  }

  // ---- one more step of a job thread; the questions before the handler are answered by yes ----

  lemma PrepareTicks(policy: Policy, t: ThreadId, w: World, o: Outcome) returns (w': World)
    requires Reachable(policy, w) && t in w.threads && w.threads[t].RunThread?
    requires var th := w.threads[t];
      th.run.Start? || th.run.Checking? || th.run.CopyingConfig?
    ensures var th := w.threads[t];
      w' == Settle(PrepareTick(w, th, o, true), t) && Reachable(policy, w')
  {
    w' := Go(policy, w, Tick(t, o, true));
  }

  lemma BackupTicks(policy: Policy, t: ThreadId, w: World, o: Outcome) returns (w': World)
    requires Reachable(policy, w) && t in w.threads && w.threads[t].RunThread?
    requires var th := w.threads[t];
      th.run.Stopping? || th.run.BackingUp? || th.run.Checkpointing?
    ensures var th := w.threads[t];
      w' == Settle(BackupTick(w, th, o), t) && Reachable(policy, w')
  {
    w' := Go(policy, w, Tick(t, o, true));
  }

  lemma CutoverTicks(policy: Policy, t: ThreadId, w: World, o: Outcome) returns (w': World)
    requires Reachable(policy, w) && t in w.threads && w.threads[t].RunThread?
    requires var th := w.threads[t];
      th.run.Importing? || th.run.SettingProvider? || th.run.SavingProvider? || th.run.Starting?
    ensures var th := w.threads[t];
      w' == Settle(CutoverTick(w, th, o), t) && Reachable(policy, w')
  {
    w' := Go(policy, w, Tick(t, o, true));
  }

  lemma CompleteTicks(policy: Policy, t: ThreadId, w: World, o: Outcome) returns (w': World)
    requires Reachable(policy, w) && t in w.threads && w.threads[t].RunThread?
    requires var th := w.threads[t];
      th.run.SavingFinalizing? || th.run.RecordingMarker? || th.run.SavingCompleted? || th.run.SavingAgain?
    ensures var th := w.threads[t];
      w' == Settle(CompleteTick(w, th, o), t) && Reachable(policy, w')
  {
    w' := Go(policy, w, Tick(t, o, true));
  }

  lemma HandlerTicks(policy: Policy, t: ThreadId, w: World, o: Outcome, flag: bool) returns (w': World)
    requires Reachable(policy, w) && t in w.threads && w.threads[t].RunThread?
    requires var th := w.threads[t];
      th.run.HandlerEntry? || th.run.HandlerEntries? || th.run.HandlerRestore?
           || th.run.HandlerStatus? || th.run.HandlerSavingAgain?
    ensures var th := w.threads[t];
      w' == Settle(HandlerTick(w, th, o, flag), t) && Reachable(policy, w')
  {
    w' := Go(policy, w, Tick(t, o, flag));
  }

  /** A new job, created without a fault in a quiet world. */
  function Created(w: World, mode: Mode, j: JobId, t: ThreadId): World {
    var job := Job(mode, Queued, false, false, w.worker);
    w.(jobs := w.jobs[j := job], latest := Some(j), admission := Free, busy := true,
       threads := w.threads[t := RunThread(j, job, Start, w.memory, false, false, false)])
  }

  lemma CommitRuns(policy: Policy, w: World, mode: Mode, j: JobId, t: ThreadId)
    requires Reachable(policy, w) && w.admission == Preflighted(mode)
    requires !w.busy && j !in w.jobs && t !in w.threads
    requires w.latest.Some? ==> w.latest.value in w.jobs && !Active(w.jobs[w.latest.value].status)
    ensures Reachable(policy, Created(w, mode, j, t))
  {
    var w' := Go(policy, w, CreateCommit(j, t, Good));
  }

  lemma AdmitRuns(policy: Policy, w: World, mode: Mode)
    requires Reachable(policy, w) && w.admission.Free? && (policy.createWaits ==> !w.busy)
    requires forall k :: k in w.jobs ==> !Blocking(w.jobs[k])
    ensures Reachable(policy, w.(admission := Admitted(mode)))
  {
    var w' := Go(policy, w, CreateAdmit(mode));
    assert w'.jobs == w.jobs;
  }

  lemma PreflightRuns(policy: Policy, w: World, mode: Mode)
    requires Reachable(policy, w) && w.admission == Admitted(mode) && w.memory.Sqlite?
    requires policy.preflightReadsSaved ==> w.saved.Sqlite?
    requires mode.Cutover? ==> w.service.RunningOn? && RehearsalDone(w)
    ensures Reachable(policy, w.(admission := Preflighted(mode)))
  {
    var w' := Go(policy, w, CreatePreflight);
  }

  lemma CreateRuns(policy: Policy, w: World, mode: Mode, j: JobId, t: ThreadId)
    requires Reachable(policy, w) && w.admission.Free? && !w.busy && w.memory.Sqlite?
    requires policy.preflightReadsSaved ==> w.saved.Sqlite?
    requires mode.Cutover? ==> w.service.RunningOn? && RehearsalDone(w)
    requires forall k :: k in w.jobs ==> !Blocking(w.jobs[k])
    requires j !in w.jobs && t !in w.threads && (w.latest.Some? ==> w.latest.value in w.jobs)
    ensures Reachable(policy, Created(w, mode, j, t))
  {
    AdmitRuns(policy, w, mode);
    PreflightRuns(policy, w.(admission := Admitted(mode)), mode);
    CommitRuns(policy, w.(admission := Preflighted(mode)), mode, j, t);
    assert Created(w.(admission := Preflighted(mode)), mode, j, t) == Created(w, mode, j, t);
  }

  // ---- a rehearsal that completes ----

  function RehearsalJob(status: Status): Job { Job(Rehearsal, status, false, false, 0) }

  function RehearsalAt(status: Status, point: RunPoint): World {
    INITIAL.(jobs := map[0 := RehearsalJob(status)], latest := Some(0), busy := true,
      threads := map[0 := RunThread(0, RehearsalJob(status), point, Sqlite, false, !point.Start?,
                                  point.SavingCompleted? || point.SavingAgain?)])
  }

  /** A rehearsal has completed and the service runs on SQLite. */
  const READY: World := INITIAL.(jobs := map[0 := RehearsalJob(Completed)], latest := Some(0),
    service := RunningOn(Sqlite), copied := {0}, snapshots := map[0 := []])

  lemma RehearsalStarts(policy: Policy)
    ensures Reachable(policy, RehearsalAt(Running, Checking))
  {
    assert Run(policy, INITIAL, []) == Some(INITIAL);
    CreateRuns(policy, INITIAL, Rehearsal, 0, 0);
    assert Created(INITIAL, Rehearsal, 0, 0) == RehearsalAt(Queued, Start);
    var w := PrepareTicks(policy, 0, RehearsalAt(Queued, Start), Good);
    assert w == RehearsalAt(Running, Checking);
  }

  lemma RehearsalCopies(policy: Policy)
    ensures Reachable(policy, RehearsalAt(Running, BackingUp).(copied := {0}))
  {
    RehearsalStarts(policy);
    var w := PrepareTicks(policy, 0, RehearsalAt(Running, Checking), Good);
    assert w == RehearsalAt(Running, CopyingConfig);
    w := PrepareTicks(policy, 0, w, Good);
    assert w == RehearsalAt(Running, BackingUp).(copied := {0});
  }

  lemma RehearsalBacksUp(policy: Policy)
    ensures Reachable(policy, RehearsalAt(Running, Importing).(copied := {0}, snapshots := map[0 := []]))
  {
    RehearsalCopies(policy);
    var w := BackupTicks(policy, 0, RehearsalAt(Running, BackingUp).(copied := {0}), Good);
    assert w == RehearsalAt(Running, Importing).(copied := {0}, snapshots := map[0 := []]);
  }

  lemma RehearsalImports(policy: Policy)
    ensures Reachable(policy, RehearsalAt(Running, SavingCompleted).(copied := {0}, snapshots := map[0 := []]))
  {
    RehearsalBacksUp(policy);
    var w := CutoverTicks(policy, 0, RehearsalAt(Running, Importing).(copied := {0}, snapshots := map[0 := []]), Good);
    assert w == RehearsalAt(Running, SavingCompleted).(copied := {0}, snapshots := map[0 := []]);
  }

  lemma RehearsalCompletes(policy: Policy)
    ensures Reachable(policy, READY)
  {
    RehearsalImports(policy);
    var imported := RehearsalAt(Running, SavingCompleted).(copied := {0}, snapshots := map[0 := []]);
    var w := CompleteTicks(policy, 0, imported, Good);
    assert w == RehearsalAt(Completed, SavingAgain).(copied := {0}, snapshots := map[0 := []]);
    w := CompleteTicks(policy, 0, w, Good);
    assert w == READY.(service := Stopped);
    assert !HasActive(w);
    w := Go(policy, w, ServiceStart);
  }

  // ---- a cutover whose completion is saved once, its thread still alive ----

  function CutoverJob(status: Status, checkpoint: bool): Job { Job(Cutover, status, checkpoint, checkpoint, 0) }

  function CutoverAt(job: Job, point: RunPoint): World {
    READY.(jobs := map[0 := RehearsalJob(Completed), 1 := job], latest := Some(1), busy := true,
      threads := map[0 := RunThread(1, job, point, Sqlite, false, !point.Start?, false)])
  }

  function StoppedAt(job: Job, point: RunPoint): World {
    World(
      jobs := map[0 := RehearsalJob(Completed), 1 := job], latest := Some(1),
      threads := map[0 := RunThread(1, job, point, Sqlite, true, true, false)], viewing := map[],
      busy := true, admission := Free, worker := 0, memory := Sqlite, saved := Sqlite, marker := None,
      sqlite := [], service := Stopped, copied := {0, 1}, snapshots := map[0 := []], coldStop := map[1 := []])
  }

  /** A world in which job 1 has put the service on PostgreSQL and written its marker. */
  function CutOver(jobs: map<JobId, Job>, threads: map<ThreadId, Thread>, memory: Provider, saved: Provider): World {
    World(
      jobs := jobs, latest := Some(1), threads := threads, viewing := map[],
      busy := true, admission := Free, worker := 0, memory := memory, saved := saved, marker := Some(1),
      sqlite := [], service := RunningOn(Postgres), copied := {0, 1}, snapshots := map[0 := [], 1 := []],
      coldStop := map[1 := []])
  }

  function BothJobs(job: Job): map<JobId, Job> {
    map[0 := RehearsalJob(Completed), 1 := job]
  }

  function SwitchedAt(job: Job, point: RunPoint): World {
    var threads := map[0 := RunThread(1, job, point, Sqlite, true, true, false)];
    CutOver(BothJobs(job), threads, Postgres, Postgres).(marker := None)
  }

  const DONE: World :=
    CutOver(BothJobs(CutoverJob(Completed, true)),
            map[0 := RunThread(1, CutoverJob(Completed, true), SavingAgain, Sqlite, true, true, false)],
            Postgres, Postgres)

  lemma CutoverStarts(policy: Policy)
    ensures Reachable(policy, CutoverAt(CutoverJob(Running, false), Checking))
  {
    RehearsalCompletes(policy);
    assert READY.jobs[0] == RehearsalJob(Completed);
    CreateRuns(policy, READY, Cutover, 1, 0);
    assert Created(READY, Cutover, 1, 0) == CutoverAt(CutoverJob(Queued, false), Start);
    var w := PrepareTicks(policy, 0, CutoverAt(CutoverJob(Queued, false), Start), Good);
    assert w == CutoverAt(CutoverJob(Running, false), Checking);
  }

  lemma CutoverStops(policy: Policy)
    ensures Reachable(policy, StoppedAt(CutoverJob(Running, false), BackingUp))
  {
    CutoverStarts(policy);
    var w := PrepareTicks(policy, 0, CutoverAt(CutoverJob(Running, false), Checking), Good);
    assert w == CutoverAt(CutoverJob(Running, false), CopyingConfig);
    w := PrepareTicks(policy, 0, w, Good);
    assert w == CutoverAt(CutoverJob(Running, false), Stopping).(copied := {0, 1});
    w := BackupTicks(policy, 0, w, Good);
    assert w == StoppedAt(CutoverJob(Running, false), BackingUp);
  }

  lemma CutoverCheckpoints(policy: Policy)
    ensures Reachable(policy, StoppedAt(CutoverJob(Running, true), Importing).(snapshots := map[0 := [], 1 := []]))
  {
    CutoverStops(policy);
    var w := BackupTicks(policy, 0, StoppedAt(CutoverJob(Running, false), BackingUp), Good);
    assert w == StoppedAt(CutoverJob(Running, false), Checkpointing).(snapshots := map[0 := [], 1 := []]);
    w := BackupTicks(policy, 0, w, Good);
    assert w == StoppedAt(CutoverJob(Running, true), Importing).(snapshots := map[0 := [], 1 := []]);
  }

  lemma CutoverImports(policy: Policy)
    ensures Reachable(policy,
      SwitchedAt(CutoverJob(Running, true), SavingProvider).(service := Stopped, saved := Sqlite))
  {
    CutoverCheckpoints(policy);
    var w := StoppedAt(CutoverJob(Running, true), Importing).(snapshots := map[0 := [], 1 := []]);
    w := CutoverTicks(policy, 0, w, Good);
    assert w == StoppedAt(CutoverJob(Running, true), SettingProvider).(snapshots := map[0 := [], 1 := []]);
    w := CutoverTicks(policy, 0, w, Good);
    assert w == SwitchedAt(CutoverJob(Running, true), SavingProvider).(service := Stopped, saved := Sqlite);
  }

  lemma CutoverSwitches(policy: Policy)
    ensures Reachable(policy, SwitchedAt(CutoverJob(Running, true), SavingFinalizing))
  {
    CutoverImports(policy);
    var w := SwitchedAt(CutoverJob(Running, true), SavingProvider).(service := Stopped, saved := Sqlite);
    w := CutoverTicks(policy, 0, w, Good);
    assert w == SwitchedAt(CutoverJob(Running, true), Starting).(service := Stopped);
    w := CutoverTicks(policy, 0, w, Good);
    assert w == SwitchedAt(CutoverJob(Running, true), SavingFinalizing);
  }

  lemma CutoverFinalizes(policy: Policy)
    ensures Reachable(policy, SwitchedAt(CutoverJob(Finalizing, true), RecordingMarker))
  {
    CutoverSwitches(policy);
    var w := CompleteTicks(policy, 0, SwitchedAt(CutoverJob(Running, true), SavingFinalizing), Good);
    assert w.jobs == SwitchedAt(CutoverJob(Finalizing, true), RecordingMarker).jobs;
    assert w == SwitchedAt(CutoverJob(Finalizing, true), RecordingMarker);
  }

  lemma CutoverRecords(policy: Policy)
    ensures Reachable(policy, SwitchedAt(CutoverJob(Finalizing, true), SavingCompleted).(marker := Some(1)))
  {
    CutoverFinalizes(policy);
    var w := CompleteTicks(policy, 0, SwitchedAt(CutoverJob(Finalizing, true), RecordingMarker), Good);
    assert w == SwitchedAt(CutoverJob(Finalizing, true), SavingCompleted).(marker := Some(1));
  }

  lemma CutoverCompletes(policy: Policy)
    ensures Reachable(policy, DONE)
  {
    CutoverRecords(policy);
    var marked := SwitchedAt(CutoverJob(Finalizing, true), SavingCompleted).(marker := Some(1));
    var w := CompleteTicks(policy, 0, marked, Good);
    assert w.jobs == DONE.jobs;
    assert w == DONE;
  }

  // ---- a rollback that does not wait for the job's thread ----

  /** The rollback of the completed job is reserved while its thread still runs. */
  function Reserved(): World {
    var job := CutoverJob(RollingBack, true);
    var threads := map[
      0 := RunThread(1, CutoverJob(Completed, true), SavingAgain, Sqlite, true, true, false),
      1 := RollThread(1, job, Restoring(StopService), false, false, Entry(Postgres, Postgres, Some(1), []))];
    CutOver(BothJobs(job), threads, Postgres, Postgres)
  }

  /** That rollback has ended; the thread of the job has one save left. */
  function Undone(): World {
    var threads := map[0 := RunThread(1, CutoverJob(Completed, true), SavingAgain, Sqlite, true, true, false)];
    CutOver(BothJobs(Job(Cutover, RolledBack, false, true, 0)), threads, Sqlite, Sqlite).(
      busy := false, service := Stopped, marker := None)
  }

  lemma RollbackReserved(policy: Policy)
    requires !policy.reserveWaits
    ensures Reachable(policy, Reserved())
  {
    CutoverCompletes(policy);
    var w := Go(policy, DONE, Reserve(1, 1, false, Good));
    assert w.jobs == Reserved().jobs;
  }

  lemma RollbackUndoes(policy: Policy)
    requires !policy.reserveWaits
    ensures Reachable(policy, Undone())
  {
    RollbackReserved(policy);
    var w := Reserved();
    assert AlongRestore(w, w, 1, 0);
    RestoreReaches(policy, w, w, 1, 0, 8);
    var w1 :| AlongRestore(w, w1, 1, 8) && Reachable(policy, w1);
    RollbackEnds(policy, w1);
    RestoredIsUndone(w1);
  }

  lemma RestoredIsUndone(w: World)
    requires AlongRestore(Reserved(), w, 1, 8)
    ensures 1 in w.threads && w.threads[1].RollThread? && RollbackEnded(w, 1) == Undone()
  {
    assert RollbackEnded(w, 1).threads == DONE.threads;
  }

  lemma NextJobCreated(policy: Policy)
    requires !policy.reserveWaits
    ensures Reachable(policy, Created(Undone(), Rehearsal, 2, 2))
  {
    RollbackUndoes(policy);
    CreateRuns(policy, Undone(), Rehearsal, 2, 2);
  }

  /** The stale second save of the job's thread brings back an unused rollback that
      has already run, while the next job is at work. */
  lemma ReserveMustWait(policy: Policy)
    requires !policy.reserveWaits
    ensures exists w :: Reachable(policy, w) && !AtMostOneClaim(w)
  {
    NextJobCreated(policy);
    var w := CompleteTicks(policy, 0, Created(Undone(), Rehearsal, 2, 2), Good);
    assert w.jobs[1] == CutoverJob(Completed, true) && w.jobs[2].status.Queued?;
    assert Claim(w.jobs[1]) && Claim(w.jobs[2]);
  }

  lemma {:induction false} RestoreReaches(policy: Policy, w: World, w1: World, t: ThreadId, k: nat, n: nat)
    requires t in w.threads && w.threads[t].RollThread? && w.threads[t].job in w.snapshots
    requires w.threads[t].payload.checkpoint && Reachable(policy, w1)
    requires k <= n <= 8 && AlongRestore(w, w1, t, k)
    ensures exists w2 :: AlongRestore(w, w2, t, n) && Reachable(policy, w2)
    decreases n - k
  {
    if k == n {
    } else {
      AlongRestoreStep(policy, w, w1, t, k);
      var w2 := Go(policy, w1, Tick(t, Good, true));
      RestoreReaches(policy, w, w2, t, k + 1, n);
    }
  }

  lemma RollbackEnds(policy: Policy, w: World)
    requires Reachable(policy, w) && 1 in w.threads && w.threads[1].RollThread?
    requires w.threads[1].roll.SavingRolledBack? && w.threads[1].job == 1
    ensures Reachable(policy, RollbackEnded(w, 1))
  {
    var w1 := Go(policy, w, Tick(1, Good, true));
    var w2 := Go(policy, w1, Tick(1, Good, true));
    assert w2 == RollbackEnded(w, 1);
  }

  // ---- a creation that does not wait for the job's thread ----

  /** The completed job's last save has failed and its thread is in the handler. */
  function Unwinding(job: Job, point: RunPoint, admission: Admission, memory: Provider): World {
    var threads := map[0 := RunThread(1, job, point, Sqlite, true, true, false)];
    CutOver(BothJobs(job), threads, memory, Postgres).(admission := admission)
  }

  const TOLD: Admission := Admitted(Rehearsal)

  function Unwound(at: RestorePoint): World {
    Unwinding(CutoverJob(RollingBack, true), HandlerRestore(at), TOLD, Sqlite)
  }

  lemma SaveFails(policy: Policy, admission: Admission)
    requires Reachable(policy, DONE.(admission := admission))
    ensures Reachable(policy, Unwinding(CutoverJob(Completed, true), HandlerEntry, admission, Postgres))
  {
    var w := CompleteTicks(policy, 0, DONE.(admission := admission), FailEarly);
    assert w.jobs == DONE.jobs[1 := CutoverJob(Completed, true)];
    assert w == Unwinding(CutoverJob(Completed, true), HandlerEntry, admission, Postgres);
  }

  lemma HandlerStarts(policy: Policy, admission: Admission)
    requires Reachable(policy, DONE.(admission := admission))
    ensures Reachable(policy, Unwinding(CutoverJob(RollingBack, true), HandlerRestore(StopService), admission, Sqlite))
  {
    SaveFails(policy, admission);
    var failed := Unwinding(CutoverJob(Completed, true), HandlerEntry, admission, Postgres);
    var w := HandlerTicks(policy, 0, failed, Good, true);
    assert w.jobs == DONE.jobs[1 := CutoverJob(RollingBack, true)];
    assert w == Unwinding(CutoverJob(RollingBack, true), HandlerRestore(StopService), admission, Sqlite);
  }

  lemma UnwindingAdmitted(policy: Policy)
    requires !policy.createWaits
    ensures Reachable(policy, Unwound(StopService))
  {
    CutoverCompletes(policy);
    assert forall k :: k in DONE.jobs ==> !Blocking(DONE.jobs[k]);
    AdmitRuns(policy, DONE, Rehearsal);
    HandlerStarts(policy, TOLD);
  }

  lemma UnwindsService(policy: Policy)
    requires !policy.createWaits
    ensures Reachable(policy, Unwound(ReplaceData).(service := Stopped))
  {
    UnwindingAdmitted(policy);
    var w := HandlerTicks(policy, 0, Unwound(StopService), Good, true);
    assert w == Unwound(ReplaceData).(service := Stopped);
  }

  lemma UnwindsData(policy: Policy)
    requires !policy.createWaits
    ensures Reachable(policy, Unwound(SetMemory).(service := Stopped))
  {
    UnwindsService(policy);
    var w := HandlerTicks(policy, 0, Unwound(ReplaceData).(service := Stopped), Good, true);
    assert w == Unwound(SetMemory).(service := Stopped);
  }

  lemma UnwindsMemory(policy: Policy)
    requires !policy.createWaits
    ensures Reachable(policy, Unwound(SaveConfig).(service := Stopped))
  {
    UnwindsData(policy);
    var w := HandlerTicks(policy, 0, Unwound(SetMemory).(service := Stopped), Good, true);
    assert w == Unwound(SaveConfig).(service := Stopped);
  }

  lemma UnwindsConfig(policy: Policy)
    requires !policy.createWaits
    ensures Reachable(policy, Unwound(RestoreEntries).(service := Stopped, saved := Sqlite))
  {
    UnwindsMemory(policy);
    var w := HandlerTicks(policy, 0, Unwound(SaveConfig).(service := Stopped), Good, true);
    assert w == Unwound(RestoreEntries).(service := Stopped, saved := Sqlite);
  }

  /** The automatic rollback fails after a new job has passed both of its checks. */
  function Failing(point: RunPoint): World {
    Unwinding(CutoverJob(RollingBack, true), point, Preflighted(Rehearsal), Sqlite)
      .(service := Stopped, saved := Sqlite)
  }

  lemma UnwindingPreflighted(policy: Policy)
    requires !policy.createWaits
    ensures Reachable(policy, Failing(HandlerRestore(RestoreEntries)))
  {
    UnwindsConfig(policy);
    PreflightRuns(policy, Unwound(RestoreEntries).(service := Stopped, saved := Sqlite), Rehearsal);
    assert Unwound(RestoreEntries).(service := Stopped, saved := Sqlite, admission := Preflighted(Rehearsal))
        == Failing(HandlerRestore(RestoreEntries));
  }

  lemma UnwindingFails(policy: Policy)
    requires !policy.createWaits
    ensures Reachable(policy, Failing(HandlerStatus(false)))
  {
    UnwindingPreflighted(policy);
    var w := HandlerTicks(policy, 0, Failing(HandlerRestore(RestoreEntries)), FailEarly, true);
    assert w == Failing(HandlerStatus(false));
  }

  function FailedAt(point: RunPoint): World {
    Unwinding(CutoverJob(Failed, true), point, Preflighted(Rehearsal), Sqlite).(service := Stopped, saved := Sqlite)
  }

  function FailedOffered(): World {
    FailedAt(HandlerSavingAgain).(threads := map[], busy := false)
  }

  lemma UnwindingSaved(policy: Policy)
    requires !policy.createWaits
    ensures Reachable(policy, FailedAt(HandlerSavingAgain))
  {
    UnwindingFails(policy);
    var w := HandlerTicks(policy, 0, Failing(HandlerStatus(false)), Good, true);
    assert w.jobs == FailedAt(HandlerSavingAgain).jobs;
    assert w == FailedAt(HandlerSavingAgain);
  }

  lemma UnwindingRecorded(policy: Policy)
    requires !policy.createWaits
    ensures Reachable(policy, FailedOffered())
  {
    UnwindingSaved(policy);
    var w := HandlerTicks(policy, 0, FailedAt(HandlerSavingAgain), Good, true);
    assert w.jobs == FailedOffered().jobs && w.threads == map[];
    assert w == FailedOffered();
  }

  /** A job that found no active one before an automatic rollback failed is created
      although that failure left a rollback on offer. */
  lemma CreateMustWait(policy: Policy)
    requires !policy.createWaits
    ensures exists w :: Reachable(policy, w) && !AtMostOneClaim(w)
  {
    UnwindingRecorded(policy);
    CommitRuns(policy, FailedOffered(), Rehearsal, 2, 2);
    var w := Created(FailedOffered(), Rehearsal, 2, 2);
    assert Claim(w.jobs[1]) && Claim(w.jobs[2]);
  }

  // ---- a preflight that does not read the saved provider ----

  /** The automatic rollback failed at its first step and the backup no longer
      validates: no offer is left, the memory says SQLite and the file PostgreSQL. */
  function Stranded(): World {
    CutOver(BothJobs(Job(Cutover, Failed, false, true, 0)), map[], Sqlite, Postgres).(busy := false)
  }

  lemma RestoreRefused(policy: Policy)
    ensures Reachable(policy, Unwinding(CutoverJob(RollingBack, true), HandlerStatus(false), Free, Sqlite))
  {
    CutoverCompletes(policy);
    HandlerStarts(policy, Free);
    var job := CutoverJob(RollingBack, true);
    var w := HandlerTicks(policy, 0, Unwinding(job, HandlerRestore(StopService), Free, Sqlite), FailEarly, true);
    assert w == Unwinding(job, HandlerStatus(false), Free, Sqlite);
  }

  lemma FailureRecorded(policy: Policy)
    ensures Reachable(policy, Unwinding(Job(Cutover, Failed, false, true, 0), HandlerSavingAgain, Free, Sqlite))
  {
    RestoreRefused(policy);
    var w := Unwinding(CutoverJob(RollingBack, true), HandlerStatus(false), Free, Sqlite);
    var w' := HandlerTicks(policy, 0, w, Good, false);
    assert w'.jobs == BothJobs(Job(Cutover, Failed, false, true, 0));
    assert w' == Unwinding(Job(Cutover, Failed, false, true, 0), HandlerSavingAgain, Free, Sqlite);
  }

  lemma JobStranded(policy: Policy)
    ensures Reachable(policy, Stranded())
  {
    FailureRecorded(policy);
    var failed := Unwinding(Job(Cutover, Failed, false, true, 0), HandlerSavingAgain, Free, Sqlite);
    var w := HandlerTicks(policy, 0, failed, Good, true);
    assert w.jobs == Stranded().jobs && w.threads == map[];
    assert w == Stranded();
  }

  /** A second cutover, stopped before it touches the service. */
  function Second(status: Status, point: RunPoint): World {
    var job := Job(Cutover, status, false, false, 0);
    var threads := map[0 := RunThread(2, job, point, Sqlite, false, !point.Start?, false)];
    CutOver(BothJobs(Job(Cutover, Failed, false, true, 0))[2 := job], threads, Sqlite, Postgres).(latest := Some(2))
  }

  lemma SecondCreated(policy: Policy)
    requires !policy.preflightReadsSaved
    ensures Reachable(policy, Second(Queued, Start))
  {
    JobStranded(policy);
    assert Stranded().jobs[0] == RehearsalJob(Completed);
    CreateRuns(policy, Stranded(), Cutover, 2, 0);
    assert Created(Stranded(), Cutover, 2, 0) == Second(Queued, Start);
  }

  lemma SecondStarts(policy: Policy)
    requires !policy.preflightReadsSaved
    ensures Reachable(policy, Second(Running, Checking))
  {
    SecondCreated(policy);
    var w := PrepareTicks(policy, 0, Second(Queued, Start), Good);
    assert w.jobs == Second(Running, Checking).jobs;
    assert w == Second(Running, Checking);
  }

  lemma SecondChecks(policy: Policy)
    requires !policy.preflightReadsSaved
    ensures Reachable(policy, Second(Running, CopyingConfig))
  {
    SecondStarts(policy);
    var w := PrepareTicks(policy, 0, Second(Running, Checking), Good);
    assert w == Second(Running, CopyingConfig);
  }

  lemma SecondCopies(policy: Policy)
    requires !policy.preflightReadsSaved
    ensures Reachable(policy, Second(Running, Stopping).(copied := {0, 1, 2}))
  {
    SecondChecks(policy);
    var w := PrepareTicks(policy, 0, Second(Running, CopyingConfig), Good);
    assert w == Second(Running, Stopping).(copied := {0, 1, 2});
  }

  lemma SecondRefused(policy: Policy)
    requires !policy.preflightReadsSaved
    ensures Reachable(policy, Second(Running, HandlerEntry).(copied := {0, 1, 2}))
  {
    SecondCopies(policy);
    var w := BackupTicks(policy, 0, Second(Running, Stopping).(copied := {0, 1, 2}), FailEarly);
    assert w == Second(Running, HandlerEntry).(copied := {0, 1, 2});
  }

  lemma SecondFails(policy: Policy)
    requires !policy.preflightReadsSaved
    ensures Reachable(policy, Second(RollingBack, HandlerStatus(true)).(copied := {0, 1, 2}))
  {
    SecondRefused(policy);
    var w := HandlerTicks(policy, 0, Second(Running, HandlerEntry).(copied := {0, 1, 2}), Good, true);
    assert w.jobs == Second(RollingBack, HandlerStatus(true)).jobs;
    assert w == Second(RollingBack, HandlerStatus(true)).(copied := {0, 1, 2});
  }

  /** A step that records an automatic rollback as done. */
  ghost predicate RecordsRollback(policy: Policy, w: World, w': World) {
    exists a, j :: Reachable(policy, w) && Step(policy, w, a) == Some(w') && Becomes(w, w', j, FailedRolledBack)
  }

  /** A cutover that never touched the service counts as rolled back, whatever is in the file. */
  lemma PreflightMustReadSaved(policy: Policy)
    requires !policy.preflightReadsSaved
    ensures exists w, w' :: RecordsRollback(policy, w, w') && w'.saved.Postgres?
  {
    SecondFails(policy);
    var w := Second(RollingBack, HandlerStatus(true)).(copied := {0, 1, 2});
    var w' := HandlerTicks(policy, 0, w, Good, true);
    assert Step(policy, w, Tick(0, Good, true)) == Some(w');
    assert Becomes(w, w', 2, FailedRolledBack);
    assert RecordsRollback(policy, w, w');
  }

  // ---- a rehearsal whose own undoing fails ----

  /** A rehearsal after the stranded cutover. */
  function Retried(status: Status, point: RunPoint, imported: bool): World {
    var job := Job(Rehearsal, status, false, false, 0);
    var threads := map[0 := RunThread(2, job, point, Sqlite, false, !point.Start?, imported)];
    CutOver(BothJobs(Job(Cutover, Failed, false, true, 0))[2 := job], threads, Sqlite, Postgres).(latest := Some(2))
  }

  /** The same with its backups made. */
  function RetriedBacked(status: Status, point: RunPoint, imported: bool): World {
    Retried(status, point, imported).(copied := {0, 1, 2}, snapshots := map[0 := [], 1 := [], 2 := []])
  }

  lemma RetryCreated(policy: Policy)
    requires !policy.preflightReadsSaved
    ensures Reachable(policy, Retried(Queued, Start, false))
  {
    JobStranded(policy);
    CreateRuns(policy, Stranded(), Rehearsal, 2, 0);
    assert Created(Stranded(), Rehearsal, 2, 0) == Retried(Queued, Start, false);
  }

  lemma RetryStarts(policy: Policy)
    requires !policy.preflightReadsSaved
    ensures Reachable(policy, Retried(Running, CopyingConfig, false))
  {
    RetryCreated(policy);
    var w := PrepareTicks(policy, 0, Retried(Queued, Start, false), Good);
    assert w.jobs == Retried(Running, Checking, false).jobs;
    assert w == Retried(Running, Checking, false);
    w := PrepareTicks(policy, 0, w, Good);
    assert w == Retried(Running, CopyingConfig, false);
  }

  lemma RetryCopies(policy: Policy)
    requires !policy.preflightReadsSaved
    ensures Reachable(policy, Retried(Running, BackingUp, false).(copied := {0, 1, 2}))
  {
    RetryStarts(policy);
    var w := PrepareTicks(policy, 0, Retried(Running, CopyingConfig, false), Good);
    assert w == Retried(Running, BackingUp, false).(copied := {0, 1, 2});
  }

  lemma RetryBacksUp(policy: Policy)
    requires !policy.preflightReadsSaved
    ensures Reachable(policy, RetriedBacked(Running, Importing, false))
  {
    RetryCopies(policy);
    var w := BackupTicks(policy, 0, Retried(Running, BackingUp, false).(copied := {0, 1, 2}), Good);
    assert w == RetriedBacked(Running, Importing, false);
  }

  /** The import fails, and so does the save of the handler. */
  lemma RetryImports(policy: Policy)
    requires !policy.preflightReadsSaved
    ensures Reachable(policy, RetriedBacked(Running, HandlerEntry, true))
  {
    RetryBacksUp(policy);
    var w := CutoverTicks(policy, 0, RetriedBacked(Running, Importing, false), FailMid);
    assert w == RetriedBacked(Running, HandlerEntry, true);
  }

  lemma RetryFails(policy: Policy)
    requires !policy.preflightReadsSaved
    ensures Reachable(policy, RetriedBacked(RollingBack, HandlerEntries, true))
  {
    RetryImports(policy);
    var w := HandlerTicks(policy, 0, RetriedBacked(Running, HandlerEntry, true), Good, true);
    assert w.jobs == RetriedBacked(RollingBack, HandlerEntries, true).jobs;
    assert w == RetriedBacked(RollingBack, HandlerEntries, true);
  }

  lemma RetryCounts(policy: Policy)
    requires !policy.preflightReadsSaved
    ensures Reachable(policy, RetriedBacked(RollingBack, HandlerStatus(true), true))
  {
    RetryFails(policy);
    var w := HandlerTicks(policy, 0, RetriedBacked(RollingBack, HandlerEntries, true), FailEarly, true);
    assert w == RetriedBacked(RollingBack, HandlerStatus(true), true);
  }

  /** A rehearsal that had reached its import counts as rolled back although its handler failed. */
  lemma RehearsalMustReadSaved(policy: Policy)
    requires !policy.preflightReadsSaved
    ensures exists w, w' :: RecordsRollback(policy, w, w') && w'.saved.Postgres? && RunsRehearsal(w)
  {
    RetryCounts(policy);
    var w := RetriedBacked(RollingBack, HandlerStatus(true), true);
    var w' := HandlerTicks(policy, 0, w, Good, true);
    assert Step(policy, w, Tick(0, Good, true)) == Some(w');
    assert Becomes(w, w', 2, FailedRolledBack);
    assert RecordsRollback(policy, w, w') && RunsRehearsal(w);
  }

  predicate RunsRehearsal(w: World) {
    forall t :: t in w.threads ==> w.threads[t].payload.mode.Rehearsal?
  }
}
