/**
 What holds of the unchanged code: one promise in every run, and all of them in the runs
 whose requests respect the guards that the code lacks.
 */
module MigrationCode {
  import opened Wrappers
  import opened MigrationModel
  import opened MigrationInvariant
  import opened MigrationTheorems
  import opened MigrationRaces

  // ---- every run ----

  /** What a job record says about its rollback: an offer stands for a cutover with a checkpoint that
      has not been rolled back. */
  predicate OfferOk(job: Job) {
    && (job.offered ==> job.checkpoint && !job.status.RolledBack? && !job.status.FailedRolledBack?)
    && (job.checkpoint ==> job.mode.Cutover?)
  }

  predicate Switching(at: RunPoint) {
    at.SettingProvider? || at.SavingProvider? || at.Starting? || at.SavingFinalizing? || at.RecordingMarker?
  }

  /** A job's own thread never saves `rolled_back`, and a requested rollback never `failed_rolled_back`. */
  predicate OwnStatus(th: Thread, status: Status) {
    (status.RolledBack? ==> th.RollThread?) && (status.FailedRolledBack? ==> th.RunThread?)
  }

  /** What a thread is about to save keeps to that, too. */
  predicate WillSaveOk(th: Thread) {
    && OfferOk(th.payload) && OwnStatus(th, th.payload.status)
    && if th.RollThread? then
         th.payload.checkpoint && (!th.roll.RollSavingAgain? ==> th.payload.status.RollingBack?)
       else
         && (th.run.Start? || th.run.Checking? || th.run.CopyingConfig? || th.run.Stopping? || th.run.BackingUp? ==>
               !th.payload.offered && !th.payload.checkpoint)
         && (th.run.Stopping? || th.run.Checkpointing? || th.run.HandlerRestore? ==> th.payload.mode.Cutover?)
         && (th.run.Importing? && th.payload.mode.Cutover? ==> th.payload.checkpoint)
         && (Switching(th.run) ==> th.payload.checkpoint)
         && (!th.run.HandlerSavingAgain? ==> !th.payload.status.RolledBack? && !th.payload.status.FailedRolledBack?)
  }

  ghost predicate OffersOk(w: World) {
    && (forall j :: j in w.jobs ==> OfferOk(w.jobs[j]))
    && (forall t :: t in w.threads ==> WillSaveOk(w.threads[t]))
    && (forall v :: v in w.viewing ==> OfferOk(w.viewing[v].read))
  }

  /** The step changes no job record but its own, and leaves that in order. */
  predicate TurnOfferOk(w: World, th: Thread, turn: Turn) {
    && (forall j :: j in turn.world.jobs ==>
          (j in w.jobs && turn.world.jobs[j] == w.jobs[j]) ||
          (j == th.job && OfferOk(turn.world.jobs[j]) && OwnStatus(th, turn.world.jobs[j].status)))
    && (turn.GoOn? ==> WillSaveOk(turn.thread)) && turn.world.threads == w.threads && turn.world.viewing == w.viewing
  }

  lemma PrepareOfferOk(w: World, th: Thread, o: Outcome, flag: bool)
    requires th.RunThread? && WillSaveOk(th) && (th.run.Start? || th.run.Checking? || th.run.CopyingConfig?)
    ensures TurnOfferOk(w, th, PrepareTick(w, th, o, flag))
  {
  }

  lemma BackupOfferOk(w: World, th: Thread, o: Outcome)
    requires th.RunThread? && WillSaveOk(th) && (th.run.Stopping? || th.run.BackingUp? || th.run.Checkpointing?)
    ensures TurnOfferOk(w, th, BackupTick(w, th, o))
  {
  }

  lemma CutoverOfferOk(w: World, th: Thread, o: Outcome)
    requires th.RunThread? && WillSaveOk(th)
    requires th.run.Importing? || th.run.SettingProvider? || th.run.SavingProvider? || th.run.Starting?
    ensures TurnOfferOk(w, th, CutoverTick(w, th, o))
  {
  }

  lemma CompleteOfferOk(w: World, th: Thread, o: Outcome)
    requires th.RunThread? && WillSaveOk(th)
    requires th.run.SavingFinalizing? || th.run.RecordingMarker? || th.run.SavingCompleted? || th.run.SavingAgain?
    ensures TurnOfferOk(w, th, CompleteTick(w, th, o))
  {
  }

  lemma HandlerEntryOfferOk(w: World, th: Thread, o: Outcome, flag: bool)
    requires th.RunThread? && WillSaveOk(th) && th.run.HandlerEntry?
    ensures TurnOfferOk(w, th, HandlerTick(w, th, o, flag))
  {
    if o.Good? && th.job in w.copied {
      HandlerEntersOfferOk(w, th, flag);
    }
  }

  lemma HandlerEntersOfferOk(w: World, th: Thread, flag: bool)
    requires th.RunThread? && WillSaveOk(th) && th.run.HandlerEntry? && th.job in w.copied
    ensures TurnOfferOk(w, th, HandlerTick(w, th, Good, flag))
  {
  }

  lemma HandlerEntriesOfferOk(w: World, th: Thread, o: Outcome, flag: bool)
    requires th.RunThread? && WillSaveOk(th) && th.run.HandlerEntries?
    ensures TurnOfferOk(w, th, HandlerTick(w, th, o, flag))
  {
  }

  lemma HandlerStatusOfferOk(w: World, th: Thread, o: Outcome, flag: bool)
    requires th.RunThread? && WillSaveOk(th) && (th.run.HandlerStatus? || th.run.HandlerSavingAgain?)
    ensures TurnOfferOk(w, th, HandlerTick(w, th, o, flag))
  {
  }

  lemma RestoreSavesNothing(w: World, j: JobId, p: Job, wasRunning: bool, mutated: bool, at: RestorePoint, o: Outcome)
    ensures var s := RestoreTick(w, j, p, wasRunning, mutated, at, o);
      s.world.jobs == w.jobs && s.world.threads == w.threads && s.world.viewing == w.viewing
  {
    if at.StopService? || at.ReplaceData? || at.SetMemory? || at.SaveConfig? {
      EarlyRestoreSavesNothing(w, j, p, wasRunning, mutated, at, o);
    }
  }

  lemma EarlyRestoreSavesNothing(w: World, j: JobId, p: Job, wasRunning: bool, mutated: bool,
                                 at: RestorePoint, o: Outcome)
    requires at.StopService? || at.ReplaceData? || at.SetMemory? || at.SaveConfig?
    ensures var s := RestoreTick(w, j, p, wasRunning, mutated, at, o);
      s.world.jobs == w.jobs && s.world.threads == w.threads && s.world.viewing == w.viewing
  {
  }

  lemma HandlerRestoreOfferOk(w: World, th: Thread, o: Outcome, flag: bool)
    requires th.RunThread? && WillSaveOk(th) && th.run.HandlerRestore?
    ensures TurnOfferOk(w, th, HandlerTick(w, th, o, flag))
  {
    RestoreSavesNothing(w, th.job, th.payload, th.wasRunning, true, th.run.at, o);
  }

  lemma RunOfferOk(w: World, th: Thread, o: Outcome, flag: bool)
    requires th.RunThread? && WillSaveOk(th)
    ensures TurnOfferOk(w, th, RunTick(w, th, o, flag))
  {
    if th.run.Start? || th.run.Checking? || th.run.CopyingConfig? {
      PrepareOfferOk(w, th, o, flag);
    } else if th.run.Stopping? || th.run.BackingUp? || th.run.Checkpointing? {
      BackupOfferOk(w, th, o);
    } else if th.run.Importing? || th.run.SettingProvider? || th.run.SavingProvider? || th.run.Starting? {
      CutoverOfferOk(w, th, o);
    } else if th.run.SavingFinalizing? || th.run.RecordingMarker? || th.run.SavingCompleted? || th.run.SavingAgain? {
      CompleteOfferOk(w, th, o);
    } else if th.run.HandlerRestore? {
      HandlerRestoreOfferOk(w, th, o, flag);
    } else if th.run.HandlerStatus? || th.run.HandlerSavingAgain? {
      HandlerStatusOfferOk(w, th, o, flag);
    } else if th.run.HandlerEntry? {
      HandlerEntryOfferOk(w, th, o, flag);
    } else {
      HandlerEntriesOfferOk(w, th, o, flag);
    }
  }

  lemma RestoringOfferOk(w: World, th: Thread, o: Outcome)
    requires th.RollThread? && WillSaveOk(th) && th.roll.Restoring?
    ensures TurnOfferOk(w, th, RollTick(w, th, o))
  {
    RestoreSavesNothing(w, th.job, th.payload, th.wasRunning, th.mutated, th.roll.at, o);
  }

  lemma RollFailsOfferOk(w: World, th: Thread, o: Outcome)
    requires th.RollThread? && WillSaveOk(th) && th.roll.RollFailing?
    ensures TurnOfferOk(w, th, RollTick(w, th, o))
  {
  }

  lemma RollRecordsOfferOk(w: World, th: Thread, o: Outcome)
    requires th.RollThread? && WillSaveOk(th) && th.roll.SavingRolledBack?
    ensures TurnOfferOk(w, th, RollTick(w, th, o))
  {
  }

  lemma RollEndOfferOk(w: World, th: Thread, o: Outcome)
    requires th.RollThread? && WillSaveOk(th) && th.roll.RollSavingAgain?
    ensures TurnOfferOk(w, th, RollTick(w, th, o))
  {
  }

  lemma RollOfferOk(w: World, th: Thread, o: Outcome)
    requires th.RollThread? && WillSaveOk(th)
    ensures TurnOfferOk(w, th, RollTick(w, th, o))
  {
    if th.roll.Restoring? {
      RestoringOfferOk(w, th, o);
    } else if th.roll.RollFailing? {
      RollFailsOfferOk(w, th, o);
    } else if th.roll.SavingRolledBack? {
      RollRecordsOfferOk(w, th, o);
    } else {
      RollEndOfferOk(w, th, o);
    }
  }

  lemma TickOfferOk(policy: Policy, w: World, a: Action)
    requires OffersOk(w) && Step(policy, w, a).Some? && a.Tick?
    ensures a.thread in w.threads && exists turn ::
      Step(policy, w, a) == Some(Settle(turn, a.thread)) && TurnOfferOk(w, w.threads[a.thread], turn)
  {
    var th := w.threads[a.thread];
    if th.RunThread? {
      RunOfferOk(w, th, a.outcome, a.flag);
      assert Step(policy, w, a) == Some(Settle(RunTick(w, th, a.outcome, a.flag), a.thread));
    } else {
      RollOfferOk(w, th, a.outcome);
      assert Step(policy, w, a) == Some(Settle(RollTick(w, th, a.outcome), a.thread));
    }
  }

  lemma TurnKeepsOffers(w: World, t: ThreadId, turn: Turn)
    requires OffersOk(w) && t in w.threads && TurnOfferOk(w, w.threads[t], turn)
    ensures OffersOk(Settle(turn, t))
  {
  }

  lemma ReserveKeepsOffers(w: World, j: JobId, t: ThreadId, wasRunning: bool, o: Outcome)
    requires OffersOk(w) && ReserveRollback(w, j, t, wasRunning, o).Some?
    ensures OffersOk(ReserveRollback(w, j, t, wasRunning, o).value)
  {
  }

  lemma CommitKeepsOffers(w: World, j: JobId, t: ThreadId, o: Outcome)
    requires OffersOk(w) && Commit(w, j, t, o).Some?
    ensures OffersOk(Commit(w, j, t, o).value)
  {
  }

  lemma ViewKeepsOffers(policy: Policy, w: World, a: Action)
    requires OffersOk(w) && Step(policy, w, a).Some? && (a.ViewRead? || a.ViewSave? || a.CreateAdmit?)
    ensures OffersOk(Step(policy, w, a).value)
  {
  }

  lemma OtherKeepsOffers(policy: Policy, w: World, a: Action)
    requires OffersOk(w) && Step(policy, w, a).Some?
    requires !a.Tick? && !a.Reserve? && !a.CreateCommit? && !a.ViewRead? && !a.ViewSave? && !a.CreateAdmit?
    ensures OffersOk(Step(policy, w, a).value)
  {
  }

  lemma StepKeepsOffers(policy: Policy, w: World, a: Action)
    requires OffersOk(w) && Step(policy, w, a).Some?
    ensures OffersOk(Step(policy, w, a).value)
  {
    if a.Tick? {
      TickOfferOk(policy, w, a);
      var turn :| Step(policy, w, a) == Some(Settle(turn, a.thread)) && TurnOfferOk(w, w.threads[a.thread], turn);
      TurnKeepsOffers(w, a.thread, turn);
    } else if a.Reserve? {
      ReserveKeepsOffers(w, a.job, a.thread, a.wasRunning, a.outcome);
    } else if a.CreateCommit? {
      CommitKeepsOffers(w, a.job, a.thread, a.outcome);
    } else if a.ViewRead? || a.ViewSave? || a.CreateAdmit? {
      ViewKeepsOffers(policy, w, a);
    } else {
      OtherKeepsOffers(policy, w, a);
    }
  }

  lemma {:induction false} RunKeepsOffers(policy: Policy, w: World, actions: seq<Action>)
    requires OffersOk(w) && Run(policy, w, actions).Some?
    ensures OffersOk(Run(policy, w, actions).value)
    decreases |actions|
  {
    if actions == [] {
    } else {
      StepKeepsOffers(policy, w, actions[0]);
      RunKeepsOffers(policy, Step(policy, w, actions[0]).value, actions[1..]);
    }
  }

  /** In every state of every run, with or without guards, an offered rollback belongs to a cutover
      with a checkpoint that has not been rolled back. */
  lemma OffersAlwaysOk(policy: Policy, w: World, j: JobId)
    requires Reachable(policy, w) && j in w.jobs && w.jobs[j].offered
    ensures w.jobs[j].mode.Cutover? && w.jobs[j].checkpoint
    ensures !w.jobs[j].status.RolledBack? && !w.jobs[j].status.FailedRolledBack?
  {
    var actions: seq<Action> :| Run(policy, INITIAL, actions) == Some(w);
    RunKeepsOffers(policy, INITIAL, actions);
  }

  /** In every run, with or without guards, only the job's own rollback records `rolled_back`, and only
      the thread that ran the job records `failed_rolled_back`. */
  lemma RolledBackOnlyByOwnThread(policy: Policy, w: World, a: Action, j: JobId, status: Status)
    requires Reachable(policy, w) && Step(policy, w, a).Some?
    requires status.RolledBack? || status.FailedRolledBack?
    requires Becomes(w, Step(policy, w, a).value, j, status)
    ensures a.Tick? && a.thread in w.threads && w.threads[a.thread].job == j
    ensures if status.RolledBack? then w.threads[a.thread].RollThread? else w.threads[a.thread].RunThread?
  {
    var actions: seq<Action> :| Run(policy, INITIAL, actions) == Some(w);
    RunKeepsOffers(policy, INITIAL, actions);
    if a.Tick? {
      TickOfferOk(policy, w, a);
    } else if a.Reserve? {
      ReserveNeverRollsBack(w, a, j);
    } else {
      OthersNeverRollBack(policy, w, a, j);
    }
  }

  /** In every run, with or without guards, a rehearsal leaves the database, the service, the selected
      provider and the marker alone; it may write the configuration file, with the provider in memory. */
  lemma RehearsalLeavesServiceAlone(policy: Policy, w: World, a: Action)
    requires Reachable(policy, w) && a.Tick? && Step(policy, w, a).Some?
    requires w.threads[a.thread].payload.mode.Rehearsal?
    ensures var w' := Step(policy, w, a).value;
      && w'.sqlite == w.sqlite && w'.service == w.service && w'.memory == w.memory && w'.marker == w.marker
      && (w'.saved == w.saved || w'.saved == w.memory)
  {
    var actions: seq<Action> :| Run(policy, INITIAL, actions) == Some(w);
    RunKeepsOffers(policy, INITIAL, actions);
    var th := w.threads[a.thread];
    assert WillSaveOk(th);
    RehearsalTurn(w, th, a.outcome, a.flag);
  }

  predicate ServiceLeftAlone(w: World, w': World) {
    && w'.sqlite == w.sqlite && w'.service == w.service && w'.memory == w.memory && w'.marker == w.marker
    && (w'.saved == w.saved || w'.saved == w.memory)
  }

  lemma RehearsalPrepares(w: World, th: Thread, o: Outcome, flag: bool)
    requires th.RunThread? && (th.run.Start? || th.run.Checking? || th.run.CopyingConfig?)
    ensures ServiceLeftAlone(w, PrepareTick(w, th, o, flag).world)
  {
  }

  lemma RehearsalBacksUp(w: World, th: Thread, o: Outcome)
    requires th.RunThread? && th.run.BackingUp?
    ensures ServiceLeftAlone(w, BackupTick(w, th, o).world)
  {
  }

  lemma RehearsalImports(w: World, th: Thread, o: Outcome)
    requires th.RunThread? && th.run.Importing?
    ensures ServiceLeftAlone(w, CutoverTick(w, th, o).world)
  {
  }

  lemma RehearsalCompletes(w: World, th: Thread, o: Outcome)
    requires th.RunThread? && (th.run.SavingCompleted? || th.run.SavingAgain?)
    ensures ServiceLeftAlone(w, CompleteTick(w, th, o).world)
  {
  }

  lemma RehearsalUnwinds(w: World, th: Thread, o: Outcome, flag: bool)
    requires th.RunThread? && th.payload.mode.Rehearsal?
    requires th.run.HandlerEntry? || th.run.HandlerEntries? || th.run.HandlerStatus? || th.run.HandlerSavingAgain?
    ensures ServiceLeftAlone(w, HandlerTick(w, th, o, flag).world)
  {
  }

  lemma RehearsalTurn(w: World, th: Thread, o: Outcome, flag: bool)
    requires th.RunThread? && th.payload.mode.Rehearsal? && WillSaveOk(th)
    ensures ServiceLeftAlone(w, RunTick(w, th, o, flag).world)
  {
    if th.run.Start? || th.run.Checking? || th.run.CopyingConfig? {
      RehearsalPrepares(w, th, o, flag);
    } else if th.run.BackingUp? {
      RehearsalBacksUp(w, th, o);
    } else if th.run.Importing? {
      RehearsalImports(w, th, o);
    } else if th.run.SavingCompleted? || th.run.SavingAgain? {
      RehearsalCompletes(w, th, o);
    } else {
      RehearsalUnwinds(w, th, o, flag);
    }
  }

  // ---- runs that respect the guards ----

  /** The action does what the guards would make sure of: a rollback or a creation that must wait is
      asked for while no thread is at work, preflight does not meet a file on PostgreSQL, and `get_job`
      does not save a record that has changed since it was read. */
  predicate Respects(guards: Policy, w: World, a: Action) {
    && (guards.reserveWaits && a.Reserve? ==> !w.busy)
    && (guards.createWaits && a.CreateAdmit? ==> !w.busy)
    && (guards.preflightReadsSaved && a.CreatePreflight? ==> w.saved.Sqlite?)
    && (guards.viewsRecheck && a.ViewSave? && a.viewer in w.viewing ==> !Overtaken(w, w.viewing[a.viewer]))
  }

  predicate RunRespects(guards: Policy, w: World, actions: seq<Action>)
    decreases |actions|
  {
    actions == [] ||
    (Respects(guards, w, actions[0]) &&
     match Step(CODE, w, actions[0])
     case Some(w') => RunRespects(guards, w', actions[1..])
     case None => true)
  }

  lemma RespectfulStep(guards: Policy, w: World, a: Action)
    requires Respects(guards, w, a)
    ensures Step(guards, w, a) == Step(CODE, w, a)
  {
  }

  /** A run of the code that respects the guards is a run of the guarded code. */
  lemma {:induction false} RespectfulRun(guards: Policy, w: World, actions: seq<Action>)
    requires RunRespects(guards, w, actions)
    ensures Run(guards, w, actions) == Run(CODE, w, actions)
    decreases |actions|
  {
    if actions == [] {
    } else {
      RespectfulStep(guards, w, actions[0]);
      match Step(CODE, w, actions[0])
      case Some(w') => RespectfulRun(guards, w', actions[1..]);
      case None =>
    }
  }

  /** The unchanged code has gone from the start to `w` by a run that respects the guards. */
  ghost predicate CodeReaches(guards: Policy, w: World) {
    exists actions :: RunRespects(guards, INITIAL, actions) && Run(CODE, INITIAL, actions) == Some(w)
  }

  lemma CodeReachesGuarded(guards: Policy, w: World)
    requires CodeReaches(guards, w)
    ensures Reachable(guards, w)
  {
    var actions :| RunRespects(guards, INITIAL, actions) && Run(CODE, INITIAL, actions) == Some(w);
    RespectfulRun(guards, INITIAL, actions);
  }

  const ROLLBACKS_WAIT := Policy(true, false, false, false)
  const ROLLBACKS_WAIT_AND_VIEWS_RECHECK := Policy(true, false, false, true)
  const REQUESTS_WAIT_AND_VIEWS_RECHECK := Policy(true, true, false, true)
  const ROLLBACKS_WAIT_AND_FILE_SEEN := Policy(true, false, true, false)

  /** If no rollback is requested while a thread is at work, every state of the unchanged code is
      recoverable, and every step records a rollback only when it has restored what it should. */
  lemma CodeRecoversWhenRollbacksWait(w: World, a: Action)
    requires CodeReaches(ROLLBACKS_WAIT, w)
    ensures Recoverable(CODE, w)
    ensures Respects(ROLLBACKS_WAIT, w, a) && Step(CODE, w, a).Some? ==>
      && RollbackRestores(w, a, Step(CODE, w, a).value) && AutomaticRollbackRestores(w, a, Step(CODE, w, a).value)
      && CompletionSwitches(w, Step(CODE, w, a).value)
  {
    CodeReachesGuarded(ROLLBACKS_WAIT, w);
    ReachableBase(ROLLBACKS_WAIT, w);
    BaseRecoverable(ROLLBACKS_WAIT, CODE, w);
    if Respects(ROLLBACKS_WAIT, w, a) && Step(CODE, w, a).Some? {
      RespectfulStep(ROLLBACKS_WAIT, w, a);
      BaseRollbackRestores(ROLLBACKS_WAIT, w, a);
      BaseAutomaticRollbackRestores(ROLLBACKS_WAIT, w, a);
      BaseCompletionSwitches(ROLLBACKS_WAIT, w, a);
    }
  }

  /** If no request arrives while a thread is at work, and no `get_job` call saves a record that has
      changed, at most one job of the unchanged code holds a claim. */
  lemma CodeKeepsClaimsUnique(w: World)
    requires CodeReaches(REQUESTS_WAIT_AND_VIEWS_RECHECK, w)
    ensures AtMostOneClaim(w)
  {
    CodeReachesGuarded(REQUESTS_WAIT_AND_VIEWS_RECHECK, w);
    ClaimsStayUnique(REQUESTS_WAIT_AND_VIEWS_RECHECK, w);
  }

  /** If no rollback is requested while a thread is at work, and no `get_job` call saves a record that
      has changed, a running rollback of the unchanged code is still on offer, and an offer that was used
      or withdrawn does not come back. */
  lemma CodeKeepsOffers(w: World, a: Action)
    requires CodeReaches(ROLLBACKS_WAIT_AND_VIEWS_RECHECK, w)
    ensures RunningRollbackStillOffers(w)
    ensures Respects(ROLLBACKS_WAIT_AND_VIEWS_RECHECK, w, a) && Step(CODE, w, a).Some? ==>
      WithdrawnOffersStay(w, Step(CODE, w, a).value)
  {
    CodeReachesGuarded(ROLLBACKS_WAIT_AND_VIEWS_RECHECK, w);
    ReachableBase(ROLLBACKS_WAIT_AND_VIEWS_RECHECK, w);
    BaseRunningRollbackStillOffers(ROLLBACKS_WAIT_AND_VIEWS_RECHECK, w);
    if Respects(ROLLBACKS_WAIT_AND_VIEWS_RECHECK, w, a) && Step(CODE, w, a).Some? {
      RespectfulStep(ROLLBACKS_WAIT_AND_VIEWS_RECHECK, w, a);
      BaseWithdrawnOffersStay(ROLLBACKS_WAIT_AND_VIEWS_RECHECK, w, a);
    }
  }

  /** If no rollback is requested while a thread is at work, and no preflight happens while the file is
      on PostgreSQL, a job that the unchanged code records as automatically rolled back leaves SQLite in the file. */
  lemma CodeRecordsSqliteWhenFileSeen(w: World, a: Action)
    requires CodeReaches(ROLLBACKS_WAIT_AND_FILE_SEEN, w)
    requires Respects(ROLLBACKS_WAIT_AND_FILE_SEEN, w, a) && Step(CODE, w, a).Some?
    ensures AutomaticRollbackSaved(w, Step(CODE, w, a).value)
  {
    CodeReachesGuarded(ROLLBACKS_WAIT_AND_FILE_SEEN, w);
    ReachableBase(ROLLBACKS_WAIT_AND_FILE_SEEN, w);
    RespectfulStep(ROLLBACKS_WAIT_AND_FILE_SEEN, w, a);
    BaseAutomaticRollbackRestores(ROLLBACKS_WAIT_AND_FILE_SEEN, w, a);
  }
}
