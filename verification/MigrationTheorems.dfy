/**
 What the migration machine guarantees over every run, and exactly which guards
 those guarantees need.
 */
module MigrationTheorems {
  import opened Wrappers
  import opened MigrationModel
  import opened MigrationInvariant

  // ---- safety over every run ----

  /** In every reachable state, crashes included: at most one job holds a claim, an
      unused rollback of a completed cutover means that PostgreSQL is selected and the
      marker is that of the job, and an offered rollback has a verified cold backup behind it. */
  lemma ClaimsStayUnique(policy: Policy, w: World)
    requires Guarded(policy) && Reachable(policy, w)
    ensures AtMostOneClaim(w)
    ensures forall j :: j in w.jobs && w.jobs[j].status.Completed? && w.jobs[j].offered ==> SwitchedBy(w, j)
  {
    ReachableInv(policy, w);
  }

  /** An offered rollback has a cold backup behind it, the database at the cold stop. */
  predicate OffersBacked(w: World) {
    forall j :: j in w.jobs && w.jobs[j].offered ==>
      && w.jobs[j].mode.Cutover? && w.jobs[j].checkpoint && Backed(w, j)
      && !w.jobs[j].status.RolledBack? && !w.jobs[j].status.FailedRolledBack?
  }

  lemma BaseOffersBacked(policy: Policy, w: World)
    requires Base(policy, w)
    ensures OffersBacked(w)
  {
    forall j | j in w.jobs ensures JobOk(w, j, w.jobs[j]) {
    }
  }

  predicate Becomes(w: World, w': World, j: JobId, status: Status) {
    j in w'.jobs && w'.jobs[j].status == status && (j !in w.jobs || w.jobs[j].status != status)
  }

  /** The status of job `j` after a turn, if it is one of the two rolled-back ones. */
  function RolledBackNow(turn: Turn, j: JobId): Option<Status> {
    var jobs := turn.world.jobs;
    if j in jobs && (jobs[j].status.RolledBack? || jobs[j].status.FailedRolledBack?) then Some(jobs[j].status) else None
  }

  /** Before its handler, a job thread writes no rolled-back state. */
  lemma PrepareNeverRollsBack(w: World, th: Thread, o: Outcome, flag: bool)
    requires th.RunThread? && (th.run.Start? || th.run.Checking? || th.run.CopyingConfig?)
    ensures var now := RolledBackNow(PrepareTick(w, th, o, flag), th.job);
      now.Some? ==> th.job in w.jobs && now.value == w.jobs[th.job].status
  {
  }

  lemma BackupNeverRollsBack(policy: Policy, w: World, th: Thread, o: Outcome)
    requires Sound(policy, w, th) && th.RunThread?
    requires th.run.Stopping? || th.run.BackingUp? || th.run.Checkpointing?
    ensures var now := RolledBackNow(BackupTick(w, th, o), th.job);
      now.Some? ==> th.job in w.jobs && now.value == w.jobs[th.job].status
  {
  }

  lemma CutoverNeverRollsBack(w: World, th: Thread, o: Outcome)
    requires th.RunThread?
    requires th.run.Importing? || th.run.SettingProvider? || th.run.SavingProvider? || th.run.Starting?
    ensures var now := RolledBackNow(CutoverTick(w, th, o), th.job);
      now.Some? ==> th.job in w.jobs && now.value == w.jobs[th.job].status
  {
  }

  lemma CompleteNeverRollsBack(policy: Policy, w: World, th: Thread, o: Outcome)
    requires Sound(policy, w, th) && th.RunThread?
    requires th.run.SavingFinalizing? || th.run.RecordingMarker? || th.run.SavingCompleted? || th.run.SavingAgain?
    ensures var now := RolledBackNow(CompleteTick(w, th, o), th.job);
      now.Some? ==> th.job in w.jobs && now.value == w.jobs[th.job].status
  {
  }

  lemma HandlerRollsBack(policy: Policy, w: World, th: Thread, o: Outcome, flag: bool)
    requires Sound(policy, w, th) && th.RunThread?
    requires th.run.HandlerEntry? || th.run.HandlerEntries? || th.run.HandlerRestore?
          || th.run.HandlerStatus? || th.run.HandlerSavingAgain?
    ensures var now := RolledBackNow(HandlerTick(w, th, o, flag), th.job);
      now.Some? && (now.value.RolledBack? || th.run != HandlerStatus(true)) ==>
        th.job in w.jobs && now.value == w.jobs[th.job].status
  {
    if th.run.HandlerRestore? && !th.run.at.Restored? {
      RestoreTickKeeps(w, th.job, th.payload, th.wasRunning, true, th.run.at, o);
    }
  }

  lemma RunRollsBack(policy: Policy, w: World, th: Thread, o: Outcome, flag: bool)
    requires Sound(policy, w, th) && th.RunThread?
    ensures var now := RolledBackNow(RunTick(w, th, o, flag), th.job);
      now.Some? && (now.value.RolledBack? || th.run != HandlerStatus(true)) ==>
        th.job in w.jobs && now.value == w.jobs[th.job].status
  {
    if th.run.Start? || th.run.Checking? || th.run.CopyingConfig? {
      PrepareNeverRollsBack(w, th, o, flag);
    } else if th.run.Stopping? || th.run.BackingUp? || th.run.Checkpointing? {
      BackupNeverRollsBack(policy, w, th, o);
    } else if th.run.Importing? || th.run.SettingProvider? || th.run.SavingProvider? || th.run.Starting? {
      CutoverNeverRollsBack(w, th, o);
    } else if th.run.SavingFinalizing? || th.run.RecordingMarker? || th.run.SavingCompleted? || th.run.SavingAgain? {
      CompleteNeverRollsBack(policy, w, th, o);
    } else {
      HandlerRollsBack(policy, w, th, o, flag);
    }
  }

  lemma RollRollsBack(policy: Policy, w: World, th: Thread, o: Outcome)
    requires Sound(policy, w, th) && th.RollThread?
    ensures var now := RolledBackNow(RollTick(w, th, o), th.job);
      now.Some? && (now.value.FailedRolledBack? || !(th.roll.SavingRolledBack? || th.roll.RollSavingAgain?)) ==>
        th.job in w.jobs && now.value == w.jobs[th.job].status
  {
    if th.roll.Restoring? && !th.roll.at.Restored? {
      RestoreTickKeeps(w, th.job, th.payload, th.wasRunning, th.mutated, th.roll.at, o);
    }
  }

  /** Actions other than ticks write none of the two states. */
  lemma OthersNeverRollBack(policy: Policy, w: World, a: Action, j: JobId)
    requires Step(policy, w, a).Some? && !a.Tick? && !a.Reserve?
    ensures var now := RolledBackNow(Ended(Step(policy, w, a).value), j);
      now.Some? ==> j in w.jobs && now.value == w.jobs[j].status
  {
    if a.CreateCommit? {
      CommitNeverRollsBack(w, a.job, a.thread, a.outcome, j);
    }
  }

  lemma CommitNeverRollsBack(w: World, created: JobId, t: ThreadId, o: Outcome, j: JobId)
    requires Commit(w, created, t, o).Some?
    ensures var now := RolledBackNow(Ended(Commit(w, created, t, o).value), j);
      now.Some? ==> j in w.jobs && now.value == w.jobs[j].status
  {
  }

  lemma ReserveNeverRollsBack(w: World, a: Action, j: JobId)
    requires a.Reserve? && ReserveRollback(w, a.job, a.thread, a.wasRunning, a.outcome).Some?
    ensures var now := RolledBackNow(Ended(ReserveRollback(w, a.job, a.thread, a.wasRunning, a.outcome).value), j);
      now.Some? ==> j in w.jobs && now.value == w.jobs[j].status
  {
  }

  /** Only a tick of the job's own thread writes the two rolled-back states. */
  lemma RolledBackByOwnThread(policy: Policy, w: World, a: Action, j: JobId, status: Status)
    requires Base(policy, w) && Step(policy, w, a).Some?
    requires status.RolledBack? || status.FailedRolledBack?
    requires Becomes(w, Step(policy, w, a).value, j, status)
    ensures a.Tick? && a.thread in w.threads && w.threads[a.thread].job == j
    ensures var th := w.threads[a.thread];
      if status.RolledBack? then th.RollThread? && (th.roll.SavingRolledBack? || th.roll.RollSavingAgain?)
      else th.RunThread? && th.run == HandlerStatus(true)
  {
    if a.Tick? {
      BaseSound(policy, w, a.thread);
      var th := w.threads[a.thread];
      if th.RollThread? {
        RollRollsBack(policy, w, th, a.outcome);
        RollTickOk(policy, w, th, a.outcome);
      } else {
        RunRollsBack(policy, w, th, a.outcome, a.flag);
        RunTickOk(policy, w, th, a.outcome, a.flag);
      }
    } else if a.Reserve? {
      ReserveNeverRollsBack(w, a, j);
    } else {
      OthersNeverRollBack(policy, w, a, j);
    }
  }

  /** A rollback that this step records as done has restored the database the service had
      when it was stopped, put the configuration on SQLite, in memory and on disk, and
      consumed the authorization marker.  A service restarted by the rollback, or after its
      first record, may have written to the restored database since. */
  ghost predicate RollbackRestores(w: World, a: Action, w': World) {
    forall j :: Becomes(w, w', j, RolledBack) ==>
      && a.Tick? && a.thread in w.threads && w.threads[a.thread].RollThread?
      && RestoredFrom(w', j, MayHaveStarted(w.threads[a.thread]))
  }

  /** The rollback restarts the service, or it has been recorded once already. */
  predicate MayHaveStarted(th: Thread)
    requires th.RollThread?
  {
    th.wasRunning || th.roll.RollSavingAgain?
  }

  lemma BaseRollbackRestores(policy: Policy, w: World, a: Action)
    requires Base(policy, w) && Step(policy, w, a).Some?
    ensures RollbackRestores(w, a, Step(policy, w, a).value)
  {
    var w' := Step(policy, w, a).value;
    forall j | Becomes(w, w', j, RolledBack)
      ensures a.Tick? && a.thread in w.threads && w.threads[a.thread].RollThread?
      ensures RestoredFrom(w', j, MayHaveStarted(w.threads[a.thread]))
    {
      RolledBackByOwnThread(policy, w, a, j, RolledBack);
      BaseSound(policy, w, a.thread);
    }
  }

  /** A job that this step records as automatically rolled back leaves SQLite selected in
      memory.  If it had taken its checkpoint the database is the cold-stop one as well.  The
      file is on SQLite too if the handler has saved it: not for a cutover that never touched
      the service, nor for a rehearsal that had reached its import. */
  ghost predicate AutomaticRollbackRestores(w: World, a: Action, w': World) {
    forall j :: Becomes(w, w', j, FailedRolledBack) ==>
      && a.Tick? && a.thread in w.threads && w.threads[a.thread].RunThread?
      && w'.memory.Sqlite?
      && (w'.jobs[j].checkpoint ==> RestoredFrom(w', j, w.threads[a.thread].wasRunning))
      && (FileSaved(w.threads[a.thread]) ==> w'.saved.Sqlite?)
  }

  lemma BaseAutomaticRollbackRestores(policy: Policy, w: World, a: Action)
    requires Base(policy, w) && Step(policy, w, a).Some?
    ensures AutomaticRollbackRestores(w, a, Step(policy, w, a).value)
    ensures policy.preflightReadsSaved ==> AutomaticRollbackSaved(w, Step(policy, w, a).value)
  {
    var w' := Step(policy, w, a).value;
    forall j | Becomes(w, w', j, FailedRolledBack)
      ensures a.Tick? && a.thread in w.threads && w.threads[a.thread].RunThread?
      ensures w'.memory.Sqlite? && (w'.jobs[j].checkpoint ==> RestoredFrom(w', j, w.threads[a.thread].wasRunning))
      ensures FileSaved(w.threads[a.thread]) || policy.preflightReadsSaved ==> w'.saved.Sqlite?
    {
      RolledBackByOwnThread(policy, w, a, j, FailedRolledBack);
      BaseSound(policy, w, a.thread);
      RecordsFailedRolledBack(policy, w, w.threads[a.thread], a.outcome, a.flag);
    }
  }

  /** The one point at which an automatic rollback is recorded. */
  lemma RecordsFailedRolledBack(policy: Policy, w: World, th: Thread, o: Outcome, flag: bool)
    requires Sound(policy, w, th) && th.RunThread? && th.run == HandlerStatus(true)
    ensures var w' := HandlerTick(w, th, o, flag).world;
      && w'.memory.Sqlite? && th.job in w'.jobs
      && (w'.jobs[th.job].checkpoint && w'.jobs[th.job].status.FailedRolledBack?
          && !w.jobs[th.job].status.FailedRolledBack? ==>
            RestoredFrom(w', th.job, th.wasRunning))
      && (FileSaved(th) || policy.preflightReadsSaved ==> w'.saved.Sqlite?)
  {
  }

  /** A job that this step records as automatically rolled back leaves SQLite in the file. */
  ghost predicate AutomaticRollbackSaved(w: World, w': World) {
    forall j :: Becomes(w, w', j, FailedRolledBack) ==> w'.saved.Sqlite?
  }

  predicate Restarting(th: Thread) {
    if th.RollThread? then th.roll == Restoring(Restart)
    else th.run == HandlerRestore(Restart) && th.payload.checkpoint
  }

  /** While a rollback waits to restart the service, whatever failed or crashed
      before, the database is exactly the cold-stop database. */
  predicate RestartSeesColdStop(w: World) {
    forall t :: t in w.threads && Restarting(w.threads[t]) ==>
      var j := w.threads[t].job;
      && j in w.coldStop && w.sqlite == w.coldStop[j] && w.service.Stopped?
      && w.memory.Sqlite? && w.saved.Sqlite? && w.marker.None?
  }

  lemma BaseRestartSeesColdStop(policy: Policy, w: World)
    requires Base(policy, w)
    ensures RestartSeesColdStop(w)
  {
    forall t | t in w.threads ensures Sound(policy, w, w.threads[t]) {
    }
  }

  /** A rollback request that fails in process is recorded as failed.  It keeps its
      offer exactly if it had changed nothing yet: then the provider, in memory and on
      disk, and the marker are those it found, and the database has lost nothing. */
  predicate WithdrawsOffer(w: World, t: ThreadId)
    requires t in w.threads && w.threads[t].RollThread?
  {
    var th := w.threads[t];
    var w' := Settle(RollTick(w, th, Good), t);
    && th.job in w'.jobs && w'.jobs[th.job].status.RollbackFailed?
    && w'.jobs[th.job].offered == !th.mutated
    && (!th.mutated ==>
          && w'.memory == th.entry.memory && w'.saved == th.entry.saved && w'.marker == th.entry.marker
          && th.entry.sqlite <= w'.sqlite)
  }

  predicate FailedRollbackWithdrawsOffer(w: World) {
    forall t :: t in w.threads && w.threads[t].RollThread? && w.threads[t].roll.RollFailing? ==> WithdrawsOffer(w, t)
  }

  lemma BaseFailedRollbackWithdrawsOffer(policy: Policy, w: World)
    requires Base(policy, w)
    ensures FailedRollbackWithdrawsOffer(w)
  {
    forall t | t in w.threads ensures Sound(policy, w, w.threads[t]) {
    }
  }

  /** The job of a rollback that has not yet recorded its end still offers it. */
  predicate RunningRollbackStillOffers(w: World) {
    forall t :: t in w.threads && w.threads[t].RollThread? && !w.threads[t].roll.RollSavingAgain? ==>
      var j := w.threads[t].job;
      j in w.jobs && w.jobs[j].status.RollingBack? && w.jobs[j].offered && w.jobs[j].checkpoint
  }

  lemma BaseRunningRollbackStillOffers(policy: Policy, w: World)
    requires Base(policy, w) && policy.viewsRecheck
    ensures RunningRollbackStillOffers(w)
  {
    forall t | t in w.threads ensures Sound(policy, w, w.threads[t]) {
    }
  }

  /** An offer that was used or withdrawn does not come back. */
  predicate WithdrawnOffersStay(w: World, w': World) {
    forall j :: j in w.jobs && w.jobs[j].checkpoint && !w.jobs[j].offered ==>
      j in w'.jobs && w'.jobs[j].checkpoint && !w'.jobs[j].offered
  }

  /** A thread whose job has no offer left has at most its record to save once more. */
  lemma TurnKeepsWithdrawn(policy: Policy, w: World, t: ThreadId, o: Outcome, flag: bool)
    requires Base(policy, w) && policy.viewsRecheck && t in w.threads
    requires var own := w.jobs[w.threads[t].job]; own.checkpoint && !own.offered
    ensures Step(policy, w, Tick(t, o, flag)).value.jobs == w.jobs
  {
    BaseSound(policy, w, t);
    var th := w.threads[t];
    if th.RunThread? {
      assert th.run.HandlerSavingAgain?;
    } else {
      assert th.roll.RollSavingAgain?;
    }
  }

  lemma TickKeepsWithdrawn(policy: Policy, w: World, t: ThreadId, o: Outcome, flag: bool)
    requires Base(policy, w) && policy.viewsRecheck && Step(policy, w, Tick(t, o, flag)).Some?
    ensures WithdrawnOffersStay(w, Step(policy, w, Tick(t, o, flag)).value)
  {
    var own := w.jobs[w.threads[t].job];
    if own.checkpoint && !own.offered {
      TurnKeepsWithdrawn(policy, w, t, o, flag);
    } else {
      var turn := TickTurns(policy, w, t, o, flag);
    }
  }

  lemma ViewKeepsWithdrawn(policy: Policy, w: World, v: nat, o: Outcome)
    requires Base(policy, w) && policy.viewsRecheck && Step(policy, w, ViewSave(v, o)).Some?
    ensures WithdrawnOffersStay(w, Step(policy, w, ViewSave(v, o)).value)
  {
    assert ViewOk(w, w.viewing[v]);
  }

  lemma ReserveKeepsWithdrawn(w: World, a: Action)
    requires a.Reserve? && ReserveRollback(w, a.job, a.thread, a.wasRunning, a.outcome).Some?
    ensures WithdrawnOffersStay(w, ReserveRollback(w, a.job, a.thread, a.wasRunning, a.outcome).value)
  {
  }

  lemma OthersKeepWithdrawn(policy: Policy, w: World, a: Action)
    requires Step(policy, w, a).Some? && !a.Tick? && !a.ViewSave? && !a.Reserve?
    ensures WithdrawnOffersStay(w, Step(policy, w, a).value)
  {
  }

  lemma BaseWithdrawnOffersStay(policy: Policy, w: World, a: Action)
    requires Base(policy, w) && policy.viewsRecheck && Step(policy, w, a).Some?
    ensures WithdrawnOffersStay(w, Step(policy, w, a).value)
  {
    match a {
      case Tick(t, o, flag) => TickKeepsWithdrawn(policy, w, t, o, flag);
      case ViewSave(v, o) => ViewKeepsWithdrawn(policy, w, v, o);
      case Reserve(_, _, _, _) => ReserveKeepsWithdrawn(w, a);
      case _ => OthersKeepWithdrawn(policy, w, a);
    }
  }

  // ---- what a completion means ----

  /** A cutover that this step records as completed has PostgreSQL selected, in memory and on disk, with its
      own marker, and offers the rollback to its cold backup; a completed rehearsal has left SQLite selected
      and offers nothing. */
  ghost predicate CompletionSwitches(w: World, w': World) {
    forall j :: Becomes(w, w', j, Completed) ==>
      if w'.jobs[j].mode.Cutover? then
        && w'.memory.Postgres? && w'.saved.Postgres? && w'.marker == Some(j)
        && w'.jobs[j].checkpoint && w'.jobs[j].offered && Backed(w', j)
      else
        w'.memory.Sqlite? && !w'.jobs[j].offered
  }

  /** A turn that does not complete its job. */
  predicate NotCompleted(w: World, j: JobId, turn: Turn) {
    j in turn.world.jobs && turn.world.jobs[j].status.Completed? ==> j in w.jobs && w.jobs[j].status.Completed?
  }

  lemma PrepareCompletesNothing(policy: Policy, w: World, th: Thread, o: Outcome, flag: bool)
    requires Sound(policy, w, th) && th.RunThread? && (th.run.Start? || th.run.Checking? || th.run.CopyingConfig?)
    ensures NotCompleted(w, th.job, PrepareTick(w, th, o, flag))
  {
  }

  lemma BackupCompletesNothing(policy: Policy, w: World, th: Thread, o: Outcome)
    requires Sound(policy, w, th) && th.RunThread?
    requires th.run.Stopping? || th.run.BackingUp? || th.run.Checkpointing?
    ensures NotCompleted(w, th.job, BackupTick(w, th, o))
  {
  }

  lemma CutoverCompletesNothing(w: World, th: Thread, o: Outcome)
    requires th.RunThread?
    requires th.run.Importing? || th.run.SettingProvider? || th.run.SavingProvider? || th.run.Starting?
    ensures NotCompleted(w, th.job, CutoverTick(w, th, o))
  {
  }

  lemma HandlerCompletesNothing(policy: Policy, w: World, th: Thread, o: Outcome, flag: bool)
    requires Sound(policy, w, th) && th.RunThread?
    requires th.run.HandlerEntry? || th.run.HandlerEntries? || th.run.HandlerRestore?
          || th.run.HandlerStatus? || th.run.HandlerSavingAgain?
    ensures NotCompleted(w, th.job, HandlerTick(w, th, o, flag))
  {
    if th.run.HandlerRestore? && !th.run.at.Restored? {
      RestoreTickKeeps(w, th.job, th.payload, th.wasRunning, true, th.run.at, o);
    }
  }

  lemma RollCompletesNothing(policy: Policy, w: World, th: Thread, o: Outcome)
    requires Sound(policy, w, th) && th.RollThread?
    ensures NotCompleted(w, th.job, RollTick(w, th, o))
  {
    if th.roll.Restoring? && !th.roll.at.Restored? {
      RestoreTickKeeps(w, th.job, th.payload, th.wasRunning, th.mutated, th.roll.at, o);
    }
  }

  lemma CompletesWell(policy: Policy, w: World, th: Thread, o: Outcome)
    requires Sound(policy, w, th) && th.RunThread?
    requires th.run.SavingFinalizing? || th.run.RecordingMarker? || th.run.SavingCompleted? || th.run.SavingAgain?
    ensures var turn := CompleteTick(w, th, o);
      NotCompleted(w, th.job, turn) || CompletionSwitches(w, turn.world)
  {
  }

  lemma TurnCompletesWell(policy: Policy, w: World, th: Thread, o: Outcome, flag: bool)
    requires Sound(policy, w, th) && th.RunThread?
    ensures var turn := RunTick(w, th, o, flag);
      NotCompleted(w, th.job, turn) || CompletionSwitches(w, turn.world)
  {
    if th.run.Start? || th.run.Checking? || th.run.CopyingConfig? {
      PrepareCompletesNothing(policy, w, th, o, flag);
    } else if th.run.Stopping? || th.run.BackingUp? || th.run.Checkpointing? {
      BackupCompletesNothing(policy, w, th, o);
    } else if th.run.Importing? || th.run.SettingProvider? || th.run.SavingProvider? || th.run.Starting? {
      CutoverCompletesNothing(w, th, o);
    } else if th.run.SavingFinalizing? || th.run.RecordingMarker? || th.run.SavingCompleted? || th.run.SavingAgain? {
      CompletesWell(policy, w, th, o);
    } else {
      HandlerCompletesNothing(policy, w, th, o, flag);
    }
  }

  lemma TickCompletesWell(policy: Policy, w: World, a: Action)
    requires Base(policy, w) && Step(policy, w, a).Some? && a.Tick?
    ensures CompletionSwitches(w, Step(policy, w, a).value)
  {
    BaseSound(policy, w, a.thread);
    var th := w.threads[a.thread];
    if th.RunThread? {
      TurnCompletesWell(policy, w, th, a.outcome, a.flag);
      RunTickOk(policy, w, th, a.outcome, a.flag);
    } else {
      RollCompletesNothing(policy, w, th, a.outcome);
      RollTickOk(policy, w, th, a.outcome);
    }
  }

  lemma OthersCompleteNothing(policy: Policy, w: World, a: Action)
    requires Step(policy, w, a).Some? && !a.Tick?
    ensures CompletionSwitches(w, Step(policy, w, a).value)
  {
    if a.CreateCommit? {
      CommitCompletesNothing(w, a.job, a.thread, a.outcome);
    } else if a.Reserve? {
      ReserveCompletesNothing(w, a.job, a.thread, a.wasRunning, a.outcome);
    } else {
      RequestCompletesNothing(policy, w, a);
    }
  }

  lemma CommitCompletesNothing(w: World, j: JobId, t: ThreadId, o: Outcome)
    requires Commit(w, j, t, o).Some?
    ensures CompletionSwitches(w, Commit(w, j, t, o).value)
  {
  }

  lemma ReserveCompletesNothing(w: World, j: JobId, t: ThreadId, wasRunning: bool, o: Outcome)
    requires ReserveRollback(w, j, t, wasRunning, o).Some?
    ensures CompletionSwitches(w, ReserveRollback(w, j, t, wasRunning, o).value)
  {
  }

  lemma RequestCompletesNothing(policy: Policy, w: World, a: Action)
    requires Step(policy, w, a).Some? && !a.Tick? && !a.CreateCommit? && !a.Reserve?
    ensures CompletionSwitches(w, Step(policy, w, a).value)
  {
  }

  lemma BaseCompletionSwitches(policy: Policy, w: World, a: Action)
    requires Base(policy, w) && Step(policy, w, a).Some?
    ensures CompletionSwitches(w, Step(policy, w, a).value)
  {
    if a.Tick? {
      TickCompletesWell(policy, w, a);
    } else {
      OthersCompleteNothing(policy, w, a);
    }
  }

  // ---- recovery after a crash ----

  lemma {:induction false} RunAppend(policy: Policy, w: World, first: seq<Action>, rest: seq<Action>)
    requires Run(policy, w, first).Some?
    ensures Run(policy, w, first + rest) == Run(policy, Run(policy, w, first).value, rest)
    decreases |first|
  {
    if first == [] {
      assert first + rest == rest;
    } else {
      assert (first + rest)[1..] == first[1..] + rest;
      RunAppend(policy, Step(policy, w, first[0]).value, first[1..], rest);
    }
  }

  /** The rollback of `j` without a fault: the reservation, the eight points of the
      restore and the two saves. */
  function Rollback(j: JobId, t: ThreadId, wasRunning: bool): seq<Action> {
    [Reserve(j, t, wasRunning, Good)] + Ticks(t, 10)
  }

  function Ticks(t: ThreadId, n: nat): seq<Action> {
    if n == 0 then [] else [Tick(t, Good, true)] + Ticks(t, n - 1)
  }

  /** Nothing stands between the current state and a reserved rollback of `j`. */
  predicate RollbackPossible(w: World, j: JobId) {
    && j in w.jobs && Reservable(Viewed(w.jobs[j], w.worker)) && j in w.copied && j in w.snapshots
    && w.admission.Free? && !w.busy && w.threads == map[]
  }

  /** The world in which `_restore_sqlite_runtime` has run for job `j` without a fault. */
  function AfterRestore(w: World, j: JobId, wasRunning: bool): World
    requires j in w.snapshots
  {
    w.(service := if wasRunning then RunningOn(Sqlite) else Stopped, sqlite := w.snapshots[j],
       memory := Sqlite, saved := Sqlite, marker := None)
  }

  lemma OneTick(policy: Policy, w: World, t: ThreadId, n: nat)
    requires t in w.threads && n > 0
    ensures Run(policy, w, Ticks(t, n)) == Run(policy, Step(policy, w, Tick(t, Good, true)).value, Ticks(t, n - 1))
  {
    assert Ticks(t, n)[1..] == Ticks(t, n - 1);
  }

  function PointAt(k: nat): RestorePoint {
    if k == 0 then StopService else if k == 1 then ReplaceData else if k == 2 then SetMemory
    else if k == 3 then SaveConfig else if k == 4 then RestoreEntries else if k == 5 then ClearMarker
    else if k == 6 then Restart else Restored
  }

  /** The world after `k` fault-free steps of the restore that starts in `w`. */
  predicate AlongRestore(w: World, w1: World, t: ThreadId, k: nat)
    requires t in w.threads && w.threads[t].RollThread? && w.threads[t].job in w.snapshots
  {
    var th := w.threads[t];
    var done := AfterRestore(w, th.job, th.wasRunning);
    && w1 == w.(
         service := if k == 0 then w.service else if k <= 6 then Stopped else done.service,
         sqlite := if k <= 1 then w.sqlite else done.sqlite,
         memory := if k <= 2 then w.memory else Sqlite,
         saved := if k <= 3 then w.saved else Sqlite,
         marker := if k <= 5 then w.marker else None,
         threads := w.threads[t := th.(mutated := if k <= 1 then th.mutated else true,
                                       roll := if k <= 7 then Restoring(PointAt(k)) else SavingRolledBack)])
  }

  lemma AlongRestoreStep(policy: Policy, w: World, w1: World, t: ThreadId, k: nat)
    requires t in w.threads && w.threads[t].RollThread? && w.threads[t].job in w.snapshots
    requires w.threads[t].payload.checkpoint
    requires k < 8 && AlongRestore(w, w1, t, k)
    ensures AlongRestore(w, Step(policy, w1, Tick(t, Good, true)).value, t, k + 1)
  {
    if k < 4 {
      RestoreBegins(w, w1, t, k);
    } else {
      RestoreGoesOn(w, w1, t, k);
    }
  }

  lemma RestoreBegins(w: World, w1: World, t: ThreadId, k: nat)
    requires t in w.threads && w.threads[t].RollThread? && w.threads[t].job in w.snapshots
    requires w.threads[t].payload.checkpoint
    requires k < 4 && AlongRestore(w, w1, t, k)
    ensures AlongRestore(w, Settle(RollTick(w1, w1.threads[t], Good), t), t, k + 1)
  {
    var w2 := Settle(RollTick(w1, w1.threads[t], Good), t);
    assert w2.threads == w.threads[t := w2.threads[t]];
  }

  lemma RestoreGoesOn(w: World, w1: World, t: ThreadId, k: nat)
    requires t in w.threads && w.threads[t].RollThread? && w.threads[t].job in w.snapshots
    requires w.threads[t].payload.checkpoint
    requires 4 <= k < 8 && AlongRestore(w, w1, t, k)
    ensures AlongRestore(w, Settle(RollTick(w1, w1.threads[t], Good), t), t, k + 1)
  {
    var w2 := Settle(RollTick(w1, w1.threads[t], Good), t);
    assert w2.threads == w.threads[t := w2.threads[t]];
  }

  lemma {:induction false} RestoreRuns(policy: Policy, w: World, w1: World, t: ThreadId, k: nat)
    requires t in w.threads && w.threads[t].RollThread? && w.threads[t].job in w.snapshots
    requires w.threads[t].payload.checkpoint
    requires k <= 8 && AlongRestore(w, w1, t, k)
    ensures exists w2 :: AlongRestore(w, w2, t, 8) && Run(policy, w1, Ticks(t, 10 - k)) == Run(policy, w2, Ticks(t, 2))
    decreases 8 - k
  {
    if k == 8 {
    } else {
      OneTick(policy, w1, t, 10 - k);
      AlongRestoreStep(policy, w, w1, t, k);
      RestoreRuns(policy, w, Step(policy, w1, Tick(t, Good, true)).value, t, k + 1);
    }
  }

  /** The world after a restored rollback has recorded its end. */
  function RollbackEnded(w: World, t: ThreadId): World
    requires t in w.threads && w.threads[t].RollThread?
  {
    var job := w.threads[t].payload.(status := RolledBack, offered := false);
    w.(jobs := w.jobs[w.threads[t].job := job], latest := Some(w.threads[t].job),
      threads := w.threads - {t}, busy := false)
  }

  lemma LastTicks(policy: Policy, w: World, t: ThreadId)
    requires t in w.threads && w.threads[t].RollThread? && w.threads[t].roll.SavingRolledBack?
    ensures Run(policy, w, Ticks(t, 2)) == Some(RollbackEnded(w, t))
  {
    OneTick(policy, w, t, 2);
    var w1 := Step(policy, w, Tick(t, Good, true)).value;
    OneTick(policy, w1, t, 1);
    var w2 := Step(policy, w1, Tick(t, Good, true)).value;
    assert w2 == RollbackEnded(w, t);
    assert Run(policy, w2, Ticks(t, 0)) == Some(w2);
  }

  /** A rollback has ended with database `sqlite`: SQLite is selected, and nothing is left to do. */
  predicate RolledBackTo(end: Option<World>, j: JobId, sqlite: seq<nat>, wasRunning: bool) {
    && end.Some?
    && j in end.value.jobs && end.value.jobs[j].status.RolledBack? && !end.value.jobs[j].offered
    && end.value.sqlite == sqlite
    && end.value.memory.Sqlite? && end.value.saved.Sqlite? && end.value.marker.None?
    && end.value.service == (if wasRunning then RunningOn(Sqlite) else Stopped)
    && !end.value.busy && end.value.threads == map[]
  }

  /** The world after the reservation. */
  function RolledFrom(w: World, j: JobId, t: ThreadId, wasRunning: bool): World
    requires j in w.jobs
  {
    var p := Viewed(w.jobs[j], w.worker).(status := RollingBack, worker := w.worker);
    var th := RollThread(j, p, Restoring(StopService), false, wasRunning, Entry(w.memory, w.saved, w.marker, w.sqlite));
    w.(jobs := w.jobs[j := p], latest := Some(j), busy := true, threads := w.threads[t := th])
  }

  lemma ReserveBegins(policy: Policy, w: World, j: JobId, t: ThreadId, wasRunning: bool)
    requires RollbackPossible(w, j)
    ensures Step(policy, w, Reserve(j, t, wasRunning, Good)) == Some(RolledFrom(w, j, t, wasRunning))
  {
    var w' := Step(policy, w, Reserve(j, t, wasRunning, Good)).value;
    assert w'.jobs == RolledFrom(w, j, t, wasRunning).jobs;
  }

  /** A possible rollback, run without a further fault, always ends `rolled_back`
      with the backup of its job as the database, SQLite selected and no marker. */
  lemma RollbackReaches(policy: Policy, w: World, j: JobId, t: ThreadId, wasRunning: bool)
    requires RollbackPossible(w, j)
    ensures RolledBackTo(Run(policy, w, Rollback(j, t, wasRunning)), j, w.snapshots[j], wasRunning)
  {
    var reserve := Reserve(j, t, wasRunning, Good);
    ReserveBegins(policy, w, j, t, wasRunning);
    var w1 := RolledFrom(w, j, t, wasRunning);
    assert Rollback(j, t, wasRunning)[1..] == Ticks(t, 10);
    var w2 := RestoreEnds(policy, w1, t);
  }

  lemma RestoreEnds(policy: Policy, w1: World, t: ThreadId) returns (w2: World)
    requires t in w1.threads && w1.threads[t].RollThread? && w1.threads[t].roll == Restoring(StopService)
    requires w1.threads[t].payload.checkpoint && w1.threads[t].job in w1.snapshots
    ensures AlongRestore(w1, w2, t, 8) && Run(policy, w1, Ticks(t, 10)) == Some(RollbackEnded(w2, t))
  {
    assert AlongRestore(w1, w1, t, 0);
    RestoreRuns(policy, w1, w1, t, 0);
    w2 :| AlongRestore(w1, w2, t, 8) && Run(policy, w1, Ticks(t, 10)) == Run(policy, w2, Ticks(t, 2));
    LastTicks(policy, w2, t);
  }

  function Crashed(w: World): World {
    w.(threads := map[], viewing := map[], busy := false, admission := Free,
      worker := w.worker + 1, memory := w.saved, service := Stopped)
  }

  /** A crash now would leave job `j` interrupted, and its rollback would reach the cold-stop database. */
  predicate RecoversAfterCrash(policy: Policy, w: World, j: JobId, t: ThreadId, wasRunning: bool)
    requires j in w.jobs
  {
    && Viewed(w.jobs[j], w.worker + 1) == w.jobs[j].(status := Interrupted)
    && RollbackPossible(Crashed(w), j) && j in w.coldStop
    && RolledBackTo(Run(policy, w, [Crash] + Rollback(j, t, wasRunning)), j, w.coldStop[j], wasRunning)
  }

  /** A crash at any moment at which an active job offers its rollback, in the middle
      of a rollback too, leaves a rollback that reaches the same data and
      configuration whatever had been changed before. */
  ghost predicate CrashRecovers(policy: Policy, w: World) {
    forall j, t, wasRunning :: j in w.jobs && Active(w.jobs[j].status) && w.jobs[j].offered ==>
      RecoversAfterCrash(policy, w, j, t, wasRunning)
  }

  lemma RunAfterCrash(policy: Policy, w: World, j: JobId, t: ThreadId, wasRunning: bool)
    ensures Run(policy, w, [Crash] + Rollback(j, t, wasRunning)) == Run(policy, Crashed(w), Rollback(j, t, wasRunning))
  {
    assert ([Crash] + Rollback(j, t, wasRunning))[1..] == Rollback(j, t, wasRunning);
  }

  /** The guards that keep `Base` need not be those of the policy that runs the rollback. */
  lemma BaseCrashRecovers(guards: Policy, policy: Policy, w: World)
    requires Base(guards, w)
    ensures CrashRecovers(policy, w)
  {
    forall j, t, wasRunning | j in w.jobs && Active(w.jobs[j].status) && w.jobs[j].offered
      ensures RecoversAfterCrash(policy, w, j, t, wasRunning)
    {
      assert JobOk(w, j, w.jobs[j]);
      RollbackReaches(policy, Crashed(w), j, t, wasRunning);
      RunAfterCrash(policy, w, j, t, wasRunning);
    }
  }

  // ---- all of it ----

  /** What every state promises about the recovery from it. */
  ghost predicate Recoverable(policy: Policy, w: World) {
    && OffersBacked(w) && RestartSeesColdStop(w) && FailedRollbackWithdrawsOffer(w)
    && CrashRecovers(policy, w)
  }

  lemma BaseRecoverable(guards: Policy, policy: Policy, w: World)
    requires Base(guards, w)
    ensures Recoverable(policy, w)
  {
    BaseOffersBacked(guards, w);
    BaseRestartSeesColdStop(guards, w);
    BaseFailedRollbackWithdrawsOffer(guards, w);
    BaseCrashRecovers(guards, policy, w);
  }
}
