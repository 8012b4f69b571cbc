/**
 What a job, a rollback and a start of the service need to be admitted, said of the stored jobs
 themselves, and what every cutover has had before it.
 */
module MigrationAdmission {
  import opened Wrappers
  import opened MigrationModel
  import opened MigrationTheorems

  // ---- no cutover without a rehearsal ----

  /** Every thread and every record being viewed has the mode of its stored job. */
  ghost predicate ModesAgree(w: World) {
    && (forall t :: t in w.threads ==>
          w.threads[t].job in w.jobs && w.threads[t].payload.mode == w.jobs[w.threads[t].job].mode)
    && (forall v :: v in w.viewing ==>
          w.viewing[v].job in w.jobs && w.viewing[v].read.mode == w.jobs[w.viewing[v].job].mode)
  }

  /** No job disappears or changes its mode. */
  ghost predicate SameModes(w: World, w': World) {
    forall j :: j in w.jobs ==> j in w'.jobs && w'.jobs[j].mode == w.jobs[j].mode
  }

  /** A rehearsal has completed, and the service runs with SQLite selected. */
  ghost predicate ReadyForCutover(w: World) {
    && (exists r :: r in w.jobs && w.jobs[r].mode.Rehearsal? && w.jobs[r].status.Completed?)
    && w.service.RunningOn? && w.memory.Sqlite?
  }

  /** A turn keeps the modes of all jobs, and touches neither requests nor other threads. */
  predicate KeepsModes(w: World, th: Thread, turn: Turn) {
    && (forall j :: j in turn.world.jobs ==>
          (j in w.jobs && turn.world.jobs[j].mode == w.jobs[j].mode) ||
          (j == th.job && turn.world.jobs[j].mode == th.payload.mode))
    && w.jobs.Keys <= turn.world.jobs.Keys
    && (turn.GoOn? ==> turn.thread.payload.mode == th.payload.mode && turn.thread.job == th.job)
    && turn.world.threads == w.threads && turn.world.viewing == w.viewing && turn.world.admission == w.admission
  }

  lemma PrepareKeepsModes(w: World, th: Thread, o: Outcome, flag: bool)
    requires th.RunThread? && (th.run.Start? || th.run.Checking? || th.run.CopyingConfig?)
    ensures KeepsModes(w, th, PrepareTick(w, th, o, flag))
  {
  }

  lemma BackupKeepsModes(w: World, th: Thread, o: Outcome)
    requires th.RunThread? && (th.run.Stopping? || th.run.BackingUp? || th.run.Checkpointing?)
    ensures KeepsModes(w, th, BackupTick(w, th, o))
  {
  }

  lemma CutoverKeepsModes(w: World, th: Thread, o: Outcome)
    requires th.RunThread?
    requires th.run.Importing? || th.run.SettingProvider? || th.run.SavingProvider? || th.run.Starting?
    ensures KeepsModes(w, th, CutoverTick(w, th, o))
  {
  }

  lemma CompleteKeepsModes(w: World, th: Thread, o: Outcome)
    requires th.RunThread?
    requires th.run.SavingFinalizing? || th.run.RecordingMarker? || th.run.SavingCompleted? || th.run.SavingAgain?
    ensures KeepsModes(w, th, CompleteTick(w, th, o))
  {
  }

  lemma RestoreKeepsModes(w: World, j: JobId, p: Job, wasRunning: bool, mutated: bool, at: RestorePoint, o: Outcome)
    ensures var w' := RestoreTick(w, j, p, wasRunning, mutated, at, o).world;
      w'.jobs == w.jobs && w'.threads == w.threads && w'.viewing == w.viewing && w'.admission == w.admission
  {
    if at.StopService? || at.ReplaceData? || at.SetMemory? || at.SaveConfig? {
      EarlyKeepsModes(w, j, p, wasRunning, mutated, at, o);
    }
  }

  lemma EarlyKeepsModes(w: World, j: JobId, p: Job, wasRunning: bool, mutated: bool, at: RestorePoint, o: Outcome)
    requires at.StopService? || at.ReplaceData? || at.SetMemory? || at.SaveConfig?
    ensures var w' := RestoreTick(w, j, p, wasRunning, mutated, at, o).world;
      w'.jobs == w.jobs && w'.threads == w.threads && w'.viewing == w.viewing && w'.admission == w.admission
  {
  }

  lemma HandlerKeepsModes(w: World, th: Thread, o: Outcome, flag: bool)
    requires th.RunThread?
    requires th.run.HandlerEntry? || th.run.HandlerEntries? || th.run.HandlerStatus? || th.run.HandlerSavingAgain?
    ensures KeepsModes(w, th, HandlerTick(w, th, o, flag))
  {
  }

  lemma HandlerRestoreKeepsModes(w: World, th: Thread, o: Outcome, flag: bool)
    requires th.RunThread? && th.run.HandlerRestore?
    ensures KeepsModes(w, th, HandlerTick(w, th, o, flag))
  {
    RestoreKeepsModes(w, th.job, th.payload, th.wasRunning, true, th.run.at, o);
  }

  lemma RunKeepsModes(w: World, th: Thread, o: Outcome, flag: bool)
    requires th.RunThread?
    ensures KeepsModes(w, th, RunTick(w, th, o, flag))
  {
    if th.run.Start? || th.run.Checking? || th.run.CopyingConfig? {
      PrepareKeepsModes(w, th, o, flag);
    } else if th.run.Stopping? || th.run.BackingUp? || th.run.Checkpointing? {
      BackupKeepsModes(w, th, o);
    } else if th.run.Importing? || th.run.SettingProvider? || th.run.SavingProvider? || th.run.Starting? {
      CutoverKeepsModes(w, th, o);
    } else if th.run.SavingFinalizing? || th.run.RecordingMarker? || th.run.SavingCompleted? || th.run.SavingAgain? {
      CompleteKeepsModes(w, th, o);
    } else if th.run.HandlerRestore? {
      HandlerRestoreKeepsModes(w, th, o, flag);
    } else {
      HandlerKeepsModes(w, th, o, flag);
    }
  }

  lemma RestoringKeepsModes(w: World, th: Thread, o: Outcome)
    requires th.RollThread? && th.roll.Restoring?
    ensures KeepsModes(w, th, RollTick(w, th, o))
  {
    RestoreKeepsModes(w, th.job, th.payload, th.wasRunning, th.mutated, th.roll.at, o);
  }

  lemma RollEndKeepsModes(w: World, th: Thread, o: Outcome)
    requires th.RollThread? && !th.roll.Restoring?
    ensures KeepsModes(w, th, RollTick(w, th, o))
  {
  }

  lemma RollKeepsModes(w: World, th: Thread, o: Outcome)
    requires th.RollThread?
    ensures KeepsModes(w, th, RollTick(w, th, o))
  {
    if th.roll.Restoring? {
      RestoringKeepsModes(w, th, o);
    } else {
      RollEndKeepsModes(w, th, o);
    }
  }

  lemma TurnKeepsModes(w: World, t: ThreadId, turn: Turn)
    requires ModesAgree(w) && t in w.threads && KeepsModes(w, w.threads[t], turn)
    ensures var w' := Settle(turn, t);
      ModesAgree(w') && SameModes(w, w') && w'.jobs.Keys == w.jobs.Keys && w'.admission == w.admission
  {
  }

  lemma TickKeepsModes(policy: Policy, w: World, a: Action)
    requires ModesAgree(w) && Step(policy, w, a).Some? && a.Tick?
    ensures var w' := Step(policy, w, a).value;
      ModesAgree(w') && SameModes(w, w') && w'.jobs.Keys == w.jobs.Keys && w'.admission == w.admission
  {
    var th := w.threads[a.thread];
    if th.RunThread? {
      RunKeepsModes(w, th, a.outcome, a.flag);
      TurnKeepsModes(w, a.thread, RunTick(w, th, a.outcome, a.flag));
    } else {
      RollKeepsModes(w, th, a.outcome);
      TurnKeepsModes(w, a.thread, RollTick(w, th, a.outcome));
    }
  }

  lemma CommitKeepsModes(w: World, j: JobId, t: ThreadId, o: Outcome)
    requires ModesAgree(w) && Commit(w, j, t, o).Some?
    ensures var w' := Commit(w, j, t, o).value;
      && ModesAgree(w') && SameModes(w, w') && w'.jobs.Keys <= w.jobs.Keys + {j} && w'.admission.Free?
      && (j in w'.jobs ==> j !in w.jobs && w.admission == Preflighted(w'.jobs[j].mode))
  {
  }

  lemma ReserveKeepsModes(w: World, j: JobId, t: ThreadId, wasRunning: bool, o: Outcome)
    requires ModesAgree(w) && ReserveRollback(w, j, t, wasRunning, o).Some?
    ensures var w' := ReserveRollback(w, j, t, wasRunning, o).value;
      ModesAgree(w') && SameModes(w, w') && w'.jobs.Keys == w.jobs.Keys && w'.admission == w.admission
  {
  }

  lemma AdmitKeepsModes(policy: Policy, w: World, mode: Mode)
    requires ModesAgree(w) && Step(policy, w, CreateAdmit(mode)).Some?
    ensures var w' := Step(policy, w, CreateAdmit(mode)).value;
      ModesAgree(w') && SameModes(w, w') && w'.jobs.Keys == w.jobs.Keys && w'.admission.Admitted?
  {
  }

  lemma ReadKeepsModes(w: World, v: nat, j: JobId)
    requires ModesAgree(w) && ReadView(w, v, j).Some?
    ensures var w' := ReadView(w, v, j).value;
      ModesAgree(w') && w'.jobs == w.jobs && w'.admission == w.admission
  {
  }

  lemma SaveKeepsModes(policy: Policy, w: World, v: nat, o: Outcome)
    requires ModesAgree(w) && SaveView(policy, w, v, o).Some?
    ensures var w' := SaveView(policy, w, v, o).value;
      ModesAgree(w') && SameModes(w, w') && w'.jobs.Keys == w.jobs.Keys && w'.admission == w.admission
  {
  }

  lemma OtherKeepsModes(policy: Policy, w: World, a: Action)
    requires ModesAgree(w) && Step(policy, w, a).Some?
    requires !a.Tick? && !a.CreateCommit? && !a.Reserve? && !a.ViewRead? && !a.ViewSave? && !a.CreateAdmit?
    ensures var w' := Step(policy, w, a).value;
      && ModesAgree(w') && w'.jobs == w.jobs
      && (w'.admission == Preflighted(Cutover) && w.admission != Preflighted(Cutover) ==>
            a.CreatePreflight? && ReadyForCutover(w))
  {
  }

  /** A new job comes from a commit, and has the mode of its request; a cutover is admitted by a preflight that
      finds the rehearsal. */
  lemma StepKeepsModes(policy: Policy, w: World, a: Action)
    requires ModesAgree(w) && Step(policy, w, a).Some?
    ensures var w' := Step(policy, w, a).value;
      && ModesAgree(w') && SameModes(w, w')
      && (forall j :: j in w'.jobs && j !in w.jobs ==>
            a.CreateCommit? && a.job == j && w.admission == Preflighted(w'.jobs[j].mode))
      && (w'.admission == Preflighted(Cutover) && w.admission != Preflighted(Cutover) ==>
            a.CreatePreflight? && ReadyForCutover(w))
  {
    match a {
      case Tick(_, _, _) => TickKeepsModes(policy, w, a);
      case CreateCommit(j, t, o) => CommitKeepsModes(w, j, t, o);
      case Reserve(j, t, wasRunning, o) => ReserveKeepsModes(w, j, t, wasRunning, o);
      case ViewRead(v, j) => ReadKeepsModes(w, v, j);
      case ViewSave(v, o) => SaveKeepsModes(policy, w, v, o);
      case CreateAdmit(mode) => AdmitKeepsModes(policy, w, mode);
      case _ => OtherKeepsModes(policy, w, a);
    }
  }

  /** The world after the first `n` actions. */
  function After(policy: Policy, actions: seq<Action>, n: nat): Option<World>
    requires n <= |actions|
  {
    Run(policy, INITIAL, actions[..n])
  }

  lemma {:induction false} AfterSteps(policy: Policy, actions: seq<Action>, n: nat)
    requires n <= |actions| && Run(policy, INITIAL, actions).Some?
    ensures After(policy, actions, n).Some? && ModesAgree(After(policy, actions, n).value)
    ensures n > 0 ==>
      After(policy, actions, n - 1).Some? &&
      Step(policy, After(policy, actions, n - 1).value, actions[n - 1]) == After(policy, actions, n)
  {
    RunPrefix(policy, INITIAL, actions, n);
    if n == 0 {
    } else {
      AfterSteps(policy, actions, n - 1);
      var before := actions[..n - 1];
      assert actions[..n] == before + [actions[n - 1]];
      RunAppend(policy, INITIAL, before, [actions[n - 1]]);
      assert [actions[n - 1]][1..] == [];
      StepKeepsModes(policy, After(policy, actions, n - 1).value, actions[n - 1]);
    }
  }

  lemma {:induction false} RunPrefix(policy: Policy, w: World, actions: seq<Action>, n: nat)
    requires n <= |actions| && Run(policy, w, actions).Some?
    ensures Run(policy, w, actions[..n]).Some?
    decreases |actions|
  {
    if n == 0 {
    } else {
      assert actions[..n][1..] == actions[1..][..n - 1];
      RunPrefix(policy, Step(policy, w, actions[0]).value, actions[1..], n - 1);
    }
  }

  /** The request that holds the admission after `n` actions has passed its preflight at action `m`, and found
      a rehearsal stored as completed, the service running and SQLite selected. */
  ghost predicate PassedPreflight(policy: Policy, actions: seq<Action>, m: nat, n: nat) {
    && m < n <= |actions| && actions[m].CreatePreflight?
    && (forall k :: m < k <= n ==>
          After(policy, actions, k).Some? && After(policy, actions, k).value.admission == Preflighted(Cutover))
    && var world := After(policy, actions, m);
    && world.Some? && world.value.service.RunningOn? && world.value.memory.Sqlite?
    && exists r :: r in world.value.jobs && world.value.jobs[r].mode.Rehearsal? && world.value.jobs[r].status.Completed?
  }

  lemma {:induction false} PreflightWasPassed(policy: Policy, actions: seq<Action>, n: nat) returns (m: nat)
    requires n <= |actions| && Run(policy, INITIAL, actions).Some?
    requires After(policy, actions, n).Some? && After(policy, actions, n).value.admission == Preflighted(Cutover)
    ensures PassedPreflight(policy, actions, m, n)
  {
    AfterSteps(policy, actions, n);
    NothingAtFirst(policy, actions);
    AfterSteps(policy, actions, n - 1);
    var w := After(policy, actions, n - 1).value;
    StepKeepsModes(policy, w, actions[n - 1]);
    if w.admission == Preflighted(Cutover) {
      m := PreflightWasPassed(policy, actions, n - 1);
    } else {
      m := n - 1;
    }
  }

  lemma NothingAtFirst(policy: Policy, actions: seq<Action>)
    ensures After(policy, actions, 0) == Some(INITIAL) && INITIAL.admission.Free? && INITIAL.jobs == map[]
  {
    assert actions[..0] == [];
  }

  lemma {:induction false} JobWasCommitted(policy: Policy, actions: seq<Action>, k: nat, j: JobId) returns (n: nat)
    requires k <= |actions| && Run(policy, INITIAL, actions).Some?
    requires After(policy, actions, k).Some? && j in After(policy, actions, k).value.jobs
    ensures n < k && actions[n].CreateCommit? && actions[n].job == j
    ensures After(policy, actions, n).Some?
    ensures After(policy, actions, n).value.admission == Preflighted(After(policy, actions, k).value.jobs[j].mode)
  {
    AfterSteps(policy, actions, k);
    NothingAtFirst(policy, actions);
    AfterSteps(policy, actions, k - 1);
    var w := After(policy, actions, k - 1).value;
    StepKeepsModes(policy, w, actions[k - 1]);
    if j in w.jobs {
      n := JobWasCommitted(policy, actions, k - 1, j);
    } else {
      n := k - 1;
    }
  }

  /** In every run, with or without guards: every cutover was created by a request that held the admission
      since its own preflight, and that preflight found a completed rehearsal, the service running and SQLite
      selected. */
  lemma CutoverNeedsRehearsal(policy: Policy, actions: seq<Action>, w: World, j: JobId)
    requires Run(policy, INITIAL, actions) == Some(w) && j in w.jobs && w.jobs[j].mode.Cutover?
    ensures exists m, n :: 0 <= n < |actions| && actions[n].CreateCommit? && actions[n].job == j
                           && PassedPreflight(policy, actions, m, n)
  {
    assert actions[..|actions|] == actions;
    var n := JobWasCommitted(policy, actions, |actions|, j);
    var m := PreflightWasPassed(policy, actions, n);
  }

  // ---- what is admitted ----

  /** The job is over: it can change nothing any more by itself, nor by an offered recovery.  An active
      record of a manager that is gone counts by the `interrupted` state it is in fact in. */
  predicate Resolved(job: Job, worker: nat) {
    match job.status
    case Completed => true
    case FailedRolledBack => true
    case RolledBack => true
    case Failed => !job.offered
    case Interrupted => !job.offered
    case RollbackFailed => false
    case Queued => job.worker != worker && !job.offered
    case Running => job.worker != worker && !job.offered
    case Finalizing => job.worker != worker && !job.offered
    case RollingBack => job.worker != worker && !job.offered
  }

  /** A creation passes its first test exactly if every job is resolved, and the service may be started
      exactly then. */
  lemma AdmittedIffResolved(policy: Policy, w: World, mode: Mode)
    ensures Step(policy, w, CreateAdmit(mode)).Some? <==>
      && w.admission.Free? && (policy.createWaits ==> !w.busy)
      && forall j :: j in w.jobs ==> Resolved(w.jobs[j], w.worker)
    ensures Step(policy, w, ServiceStart).Some? <==> forall j :: j in w.jobs ==> Resolved(w.jobs[j], w.worker)
  {
    forall j | j in w.jobs ensures Resolved(w.jobs[j], w.worker) <==> !Blocking(Viewed(w.jobs[j], w.worker)) {
    }
  }

  /** A rollback is reserved exactly for a cutover with a verified checkpoint and an unused offer that
      completed, failed, was interrupted, or whose last rollback failed, and whose backups are there. */
  lemma ReservedIffOffered(policy: Policy, w: World, j: JobId, t: ThreadId, wasRunning: bool, o: Outcome)
    ensures Step(policy, w, Reserve(j, t, wasRunning, o)).Some? <==>
      && w.admission.Free? && t !in w.threads && (policy.reserveWaits ==> !w.busy)
      && j in w.jobs && j in w.copied && j in w.snapshots
      && w.jobs[j].mode == Cutover && w.jobs[j].checkpoint && w.jobs[j].offered
      && w.jobs[j].status !in {FailedRolledBack, RolledBack}
      && (w.jobs[j].status in {Queued, Running, Finalizing, RollingBack} ==> w.jobs[j].worker != w.worker)
  {
  }

  /** The new job is queued, with its thread at the start, and nothing else changes; or the save fails. */
  lemma CommitsNewJob(w: World, j: JobId, t: ThreadId, o: Outcome)
    requires Commit(w, j, t, o).Some?
    ensures var w' := Commit(w, j, t, o).value;
      && j !in w.jobs && t !in w.threads && !w.busy && w.admission.Preflighted?
      && !(w.latest.Some? && w.latest.value in w.jobs
           && w.jobs[w.latest.value].status in {Queued, Running, Finalizing, RollingBack}
           && w.jobs[w.latest.value].worker == w.worker)
      && (o.Good? ==>
            && w'.jobs == w.jobs[j := Job(w.admission.mode, Queued, false, false, w.worker)]
            && w'.threads.Keys == w.threads.Keys + {t} && w'.threads[t].RunThread?
            && w'.threads[t].job == j && w'.threads[t].run == Start)
      && (o.FailEarly? || o.FailMid? ==> w'.jobs == w.jobs && w'.threads == w.threads)
      && w'.admission.Free? && w'.busy
  {
  }

  // ---- what a job has to pass ----

  /** A cutover goes beyond its check only if the service runs then, and it will be started again; a check that
      fails leaves everything as it was. */
  lemma CheckedWhileRunning(w: World, th: Thread, o: Outcome, flag: bool)
    requires th.RunThread? && th.run.Checking?
    ensures var turn := RunTick(w, th, o, flag);
      && turn.world == w && turn.GoOn?
      && (turn.thread.run.HandlerEntry? <==> o != Good || (th.payload.mode == Cutover && w.service == Stopped))
      && (!turn.thread.run.HandlerEntry? ==>
            turn.thread.run.CopyingConfig? && (th.payload.mode == Cutover ==> turn.thread.wasRunning))
  {
  }

  /** A backup that does not validate gives no checkpoint and no offer. */
  lemma InvalidBackupOffersNothing(w: World, th: Thread, flag: bool)
    requires th.RunThread? && th.run.Checkpointing?
    ensures var turn := RunTick(w, th, FailMid, flag);
      turn.world == w && turn.GoOn? && turn.thread.run.HandlerEntry? && turn.thread.payload == th.payload
  {
  }

  /** A job that fails before its configuration is copied is recorded as failed, with nothing to roll back. */
  lemma UncopiedJobFails(w: World, th: Thread, o: Outcome, flag: bool)
    requires th.RunThread? && th.run.HandlerEntry? && th.job !in w.copied
    ensures var turn := RunTick(w, th, o, flag);
      && turn.world == w && turn.GoOn?
      && var after := RunTick(w, turn.thread, Good, flag).world;
         && th.job in after.jobs && after.jobs[th.job].status == Failed && !after.jobs[th.job].offered
         && after == w.(jobs := w.jobs[th.job := after.jobs[th.job]], latest := Some(th.job))
  {
  }

  /** A rollback that fails to stop the service, or before it has replaced anything, is retried safely: it
      counts as having changed nothing. */
  lemma FailureBeforeReplacingIsSafe(w: World, th: Thread, o: Outcome)
    requires th.RollThread? && th.payload.checkpoint && !th.mutated && o != Good
    requires th.roll == Restoring(StopService)
          || (th.roll == Restoring(ReplaceData) && (o == FailEarly || th.job !in w.snapshots))
    ensures var turn := RollTick(w, th, o);
      && turn.GoOn? && turn.thread.roll.RollFailing? && !turn.thread.mutated
      && turn.world.sqlite == w.sqlite && turn.world.memory == w.memory && turn.world.saved == w.saved
      && turn.world.marker == w.marker && turn.world.jobs == w.jobs
  {
  }

  /** The import of a cutover writes the configuration file, with the provider in memory; that of a rehearsal
      does not.  Neither changes anything else. */
  lemma ImportWritesFile(w: World, th: Thread, o: Outcome, flag: bool)
    requires th.RunThread? && th.run.Importing?
    ensures var written := th.payload.mode == Cutover && (o == Good || o == FailLate);
      RunTick(w, th, o, flag).world == w.(saved := if written then w.memory else w.saved)
  {
  }

  /** The service is started for a cutover only if the job counts it as running before; otherwise the cutover
      fails without a start. */
  lemma StartsOnlyWhatRan(w: World, th: Thread, o: Outcome, flag: bool)
    requires th.RunThread? && th.run.Starting?
    ensures var turn := RunTick(w, th, o, flag);
      && turn.GoOn? && turn.world == w.(service := turn.world.service)
      && (turn.world.service != w.service ==> th.wasRunning && turn.world.service == RunningOn(w.memory))
      && (turn.thread.run.SavingFinalizing? <==> th.wasRunning && o == Good)
      && (!turn.thread.run.SavingFinalizing? ==> turn.thread.run.HandlerEntry?)
  {
  }

  /** Without a configuration file a cutover fails and a rehearsal goes on, and there is no copy to go back to. */
  lemma NoFileNoCopy(w: World, th: Thread, o: Outcome)
    requires th.RunThread? && th.run.CopyingConfig?
    ensures var turn := RunTick(w, th, o, false);
      && turn.world == w && turn.GoOn?
      && turn.thread.run == if o == Good && th.payload.mode == Rehearsal then BackingUp else HandlerEntry
  {
  }

  /** A request that gives up, at whatever point, leaves the way free for the next one, and changes nothing else. */
  lemma AbandonedRequestGivesWay(policy: Policy, w: World)
    ensures var after := Step(policy, w, CreateAbort); after.Some? && after.value == w.(admission := Free)
    ensures forall mode :: (forall j :: j in w.jobs ==> Resolved(w.jobs[j], w.worker)) && !w.busy ==>
      Step(policy, Step(policy, w, CreateAbort).value, CreateAdmit(mode)).Some?
  {
    forall mode | (forall j :: j in w.jobs ==> Resolved(w.jobs[j], w.worker)) && !w.busy
      ensures Step(policy, Step(policy, w, CreateAbort).value, CreateAdmit(mode)).Some?
    {
      AdmittedIffResolved(policy, Step(policy, w, CreateAbort).value, mode);
    }
  }

  /** Once the provider is set it is PostgreSQL in memory, even if the job then fails; the file still has to be
      written. */
  lemma SettingChangesMemory(w: World, th: Thread, o: Outcome, flag: bool)
    requires th.RunThread? && th.run.SettingProvider?
    ensures var turn := RunTick(w, th, o, flag);
      && turn.world == w.(memory := Postgres) && turn.GoOn?
      && turn.thread.run == if o == Good then SavingProvider else HandlerEntry
  {
  }
}
