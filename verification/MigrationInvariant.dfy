/**
 The inductive invariants of the migration machine, and the proof that every action keeps
 them: `Base` when a rollback is reserved only while no thread is at work, and `Inv`, which
 adds the uniqueness of claims, when the creation of a job waits as well and `get_job` saves
 no record that has changed (`Guarded`).
 */
module MigrationInvariant {
  import opened Wrappers
  import opened MigrationModel

  predicate Waits(policy: Policy) { policy.reserveWaits && policy.createWaits }

  predicate Guarded(policy: Policy) { Waits(policy) && policy.viewsRecheck }

  ghost predicate AtMostOneClaim(w: World) {
    forall j1, j2 :: j1 in w.jobs && j2 in w.jobs && Claim(w.jobs[j1]) && Claim(w.jobs[j2]) ==> j1 == j2
  }

  /** The job's configuration is copied and its snapshot is the cold database. */
  predicate Backed(w: World, j: JobId) {
    j in w.copied && j in w.snapshots && j in w.coldStop && w.snapshots[j] == w.coldStop[j]
  }

  /** What every stored job, and every payload a thread holds, promises. */
  predicate JobOk(w: World, j: JobId, job: Job) {
    && job.worker <= w.worker
    && (job.offered ==> job.checkpoint && !job.status.RolledBack? && !job.status.FailedRolledBack?)
    && (job.checkpoint ==> job.mode.Cutover? && Backed(w, j))
  }

  predicate BothPostgres(w: World) { w.memory.Postgres? && w.saved.Postgres? }

  /** Memory, file and marker say that job `j` has put the service on PostgreSQL. */
  predicate SwitchedBy(w: World, j: JobId) { BothPostgres(w) && w.marker == Some(j) }

  /** The world a finished restore leaves for job `j`. */
  predicate RestoredFrom(w: World, j: JobId, wasRunning: bool) {
    && w.memory.Sqlite? && w.saved.Sqlite? && w.marker.None?
    && j in w.coldStop && w.coldStop[j] <= w.sqlite
    && (!wasRunning ==> w.service.Stopped? && w.sqlite == w.coldStop[j])
  }

  /** How far a restore that has reached `at` has changed the world. */
  predicate RestoreOk(w: World, j: JobId, payload: Job, at: RestorePoint, wasRunning: bool) {
    && j in w.jobs && Blocking(Viewed(w.jobs[j], w.worker))
    && (!at.StopService? && !at.Restored? ==> w.service.Stopped?)
    && (payload.checkpoint && !at.StopService? && !at.ReplaceData? && !at.Restored? ==>
          j in w.snapshots && w.sqlite == w.snapshots[j])
    && (!at.StopService? && !at.ReplaceData? && !at.SetMemory? ==> w.memory.Sqlite?)
    && (at.RestoreEntries? || at.ClearMarker? || at.Restart? || at.Restored? ==> w.saved.Sqlite?)
    && (at.Restart? || at.Restored? ==> w.marker.None?)
    && (at.Restored? && payload.checkpoint ==> RestoredFrom(w, j, wasRunning))
    && (at.Restored? && !wasRunning ==> w.service.Stopped?)
  }

  /** A running job whose checkpoint is not yet taken. */
  predicate Uncheckpointed(w: World, stored: Job, p: Job) {
    && !p.offered && !p.checkpoint && Active(p.status)
    && !stored.offered && !stored.checkpoint && Active(stored.status)
    && w.memory.Sqlite?
  }

  /** The saved provider of a job that has not yet touched the service. */
  predicate SavedUntouched(policy: Policy, w: World) {
    policy.preflightReadsSaved ==> w.saved.Sqlite?
  }

  /** The live configuration is on SQLite, and the file too if preflight looks at it. */
  predicate OnSqlite(policy: Policy, w: World) {
    w.memory.Sqlite? && SavedUntouched(policy, w)
  }

  /** The handler of the job has saved the configuration after the last fault: a cutover that had
      touched the service, or a rehearsal that counts as rolled back only because of that save. */
  predicate FileSaved(th: Thread)
    requires th.RunThread?
  {
    if th.payload.mode.Cutover? then th.stopAttempted || th.payload.checkpoint else !th.runtimeRestored
  }

  /** A cutover past its checkpoint, with the configuration on PostgreSQL. */
  predicate Switched(w: World, p: Job) {
    p.mode.Cutover? && p.checkpoint && BothPostgres(w)
  }

  /** What a job thread knows at each of its points. */
  predicate RunOk(policy: Policy, w: World, th: Thread)
    requires th.RunThread? && th.job in w.jobs
  {
    var j := th.job;
    var p := th.payload;
    var stored := w.jobs[j];
    var cutover := p.mode.Cutover?;
    && JobOk(w, j, p) && p.mode == stored.mode && p.worker == w.worker && stored.worker == w.worker
    && th.original.Sqlite?
    && (!th.run.HandlerSavingAgain? ==> (p.checkpoint ==> p.offered) && (stored.checkpoint ==> stored.offered))
    && match th.run
       case Start => Uncheckpointed(w, stored, p) && !th.stopAttempted && SavedUntouched(policy, w)
       case Checking => Uncheckpointed(w, stored, p) && !th.stopAttempted && SavedUntouched(policy, w)
       case CopyingConfig => Uncheckpointed(w, stored, p) && !th.stopAttempted && SavedUntouched(policy, w)
       case Stopping =>
         && Uncheckpointed(w, stored, p) && !th.stopAttempted && SavedUntouched(policy, w)
         && cutover && j in w.copied
       case BackingUp =>
         && Uncheckpointed(w, stored, p)
         && (cutover ==> th.stopAttempted && j in w.copied && w.service.Stopped?
                         && j in w.coldStop && w.coldStop[j] == w.sqlite)
         && (!cutover ==> SavedUntouched(policy, w))
       case Checkpointing => Uncheckpointed(w, stored, p) && cutover && th.stopAttempted && Backed(w, j)
       case Importing =>
         w.memory.Sqlite? && Active(stored.status) && if cutover then p.checkpoint else SavedUntouched(policy, w)
       case SettingProvider => w.memory.Sqlite? && Active(stored.status) && cutover && p.checkpoint
       case SavingProvider => w.memory.Postgres? && Active(stored.status) && cutover && p.checkpoint
       case Starting => Switched(w, p) && Active(stored.status)
       case SavingFinalizing => Switched(w, p) && Active(stored.status)
       case RecordingMarker => Switched(w, p) && Active(stored.status)
       case SavingCompleted =>
         Active(stored.status) && if cutover then Switched(w, p) && w.marker == Some(j) else OnSqlite(policy, w)
       case SavingAgain =>
         && p.status.Completed? && stored == p
         && if cutover then Switched(w, p) && w.marker == Some(j) else OnSqlite(policy, w)
       case HandlerEntry =>
         if !cutover then OnSqlite(policy, w)
         else !th.stopAttempted && !p.checkpoint ==> OnSqlite(policy, w)
       case HandlerEntries => !cutover && OnSqlite(policy, w) && Active(stored.status)
       case HandlerRestore(at) => RestoreOk(w, j, p, at, th.wasRunning) && Active(stored.status)
       case HandlerStatus(restored) =>
         restored ==>
           && OnSqlite(policy, w) && Active(stored.status)
           && (FileSaved(th) ==> w.saved.Sqlite?)
           && (p.checkpoint ==> RestoredFrom(w, j, th.wasRunning))
       case HandlerSavingAgain => p == stored && (p.status.Failed? || p.status.FailedRolledBack?)
  }

  /** The record of a rollback may have been replaced by that of its interrupted job. */
  predicate Revived(job: Job) { job.status.Interrupted? && job.offered }

  predicate RollOk(policy: Policy, w: World, th: Thread)
    requires th.RollThread? && th.job in w.jobs
  {
    var j := th.job;
    var p := th.payload;
    var r := th.roll;
    && (w.jobs[j] == p || (!policy.viewsRecheck && Revived(w.jobs[j])))
    && JobOk(w, j, p) && p.worker == w.worker && p.mode.Cutover? && p.checkpoint
    && (!r.RollSavingAgain? ==> p.offered && p.status.RollingBack?)
    && (r.RollSavingAgain? ==> !p.offered && p.status.RolledBack?)
    && (r.Restoring? ==> RestoreOk(w, j, p, r.at, th.wasRunning))
    && (r.SavingRolledBack? ==> RestoredFrom(w, j, th.wasRunning))
    && (r.RollSavingAgain? ==> RestoredFrom(w, j, true))
    && (!th.mutated && (r.Restoring? || r.RollFailing?) ==>
          && w.memory == th.entry.memory && w.saved == th.entry.saved && w.marker == th.entry.marker
          && th.entry.sqlite <= w.sqlite)
    && (r.Restoring? && !r.at.StopService? && !r.at.ReplaceData? ==> th.mutated)
  }

  predicate ThreadOk(policy: Policy, w: World, th: Thread) {
    && th.job in w.jobs
    && (if th.RunThread? then RunOk(policy, w, th) else RollOk(policy, w, th))
  }

  /** The thread has recorded how its job ended, or is in its handler; nothing that is still to
      come puts the configuration on PostgreSQL. */
  predicate Tail(th: Thread) {
    if th.RollThread? then th.roll.RollSavingAgain?
    else th.run.SavingAgain? || th.run.HandlerEntry? || th.run.HandlerEntries? || th.run.HandlerRestore?
         || th.run.HandlerStatus? || th.run.HandlerSavingAgain?
  }

  /** The thread's own job and the thread itself are in order. */
  predicate Sound(policy: Policy, w: World, th: Thread) {
    && ThreadOk(policy, w, th)
    && JobOk(w, th.job, w.jobs[th.job])
    && (w.jobs[th.job].status.Completed? && w.jobs[th.job].offered ==> SwitchedBy(w, th.job))
  }

  /** One thread at most, itself and every stored job in order; a request that has passed
      preflight finds the configuration on SQLite when it creates its job. */
  ghost predicate Base(policy: Policy, w: World) {
    InOrder(policy, w) && ViewsOk(w)
  }

  ghost predicate InOrder(policy: Policy, w: World) {
    && (forall t :: t in w.threads ==> w.busy)
    && (forall t1, t2 :: t1 in w.threads && t2 in w.threads ==> t1 == t2)
    && (forall j :: j in w.jobs ==> JobOk(w, j, w.jobs[j]))
    && (forall t :: t in w.threads ==> Sound(policy, w, w.threads[t]))
    && (!w.admission.Free? ==> forall t :: t in w.threads ==> Tail(w.threads[t]))
    && (w.admission.Preflighted? ==> OnSqlite(policy, w))
  }

  /** A record that a `get_job` call has read: until a rollback takes the job over, the stored one is
      that record or the interrupted one that will replace it. */
  predicate ViewOk(w: World, view: Viewing) {
    && view.job in w.jobs && JobOk(w, view.job, view.read) && Foreign(view.read, w.worker)
    && var stored := w.jobs[view.job];
       || stored == view.read
       || (!Foreign(stored, w.worker) && (stored == AsInterrupted(view.read) || view.read.offered))
  }

  ghost predicate ViewsOk(w: World) {
    && (forall v :: v in w.viewing ==> ViewOk(w, w.viewing[v]))
    && (forall v1, v2 :: v1 in w.viewing && v2 in w.viewing && w.viewing[v1].job == w.viewing[v2].job ==>
          w.viewing[v1] == w.viewing[v2])
    && (forall t, v :: t in w.threads && v in w.viewing && w.threads[t].RunThread? ==>
          w.viewing[v].job != w.threads[t].job)
  }

  /** At most one claim, and while a thread or a request is at work only its own. */
  ghost predicate Unique(w: World) {
    && AtMostOneClaim(w)
    && (forall t, j :: t in w.threads && j in w.jobs && j != w.threads[t].job ==> !Claim(w.jobs[j]))
    && (!w.admission.Free? ==> w.threads == map[] && forall j :: j in w.jobs ==> !Blocking(w.jobs[j]))
    && (w.admission.Preflighted? ==> forall j :: j in w.jobs ==> !Claim(w.jobs[j]))
    && (forall j :: j in w.jobs && w.jobs[j].status.Completed? && w.jobs[j].offered ==> SwitchedBy(w, j))
  }

  ghost predicate Inv(policy: Policy, w: World) {
    Base(policy, w) && Unique(w)
  }

  // ---- the actions, one small lemma each ----

  /** Nothing but job `j` and its backups may differ between `w` and `w'`. */
  predicate OnlyJob(w: World, w': World, j: JobId) {
    && w'.worker == w.worker && w'.admission == w.admission
    && j in w.jobs && w'.jobs.Keys == w.jobs.Keys
    && (forall k :: k in w.jobs && k != j ==> w'.jobs[k] == w.jobs[k])
    && w.copied <= w'.copied
    && (forall k :: k != j && k in w.snapshots ==> k in w'.snapshots && w'.snapshots[k] == w.snapshots[k])
    && (forall k :: k != j && k in w.coldStop ==> k in w'.coldStop && w'.coldStop[k] == w.coldStop[k])
  }

  /** What one step of a thread on job `j` has to establish. */
  predicate TurnOk(policy: Policy, w: World, turn: Turn, j: JobId) {
    && OnlyJob(w, turn.world, j)
    && turn.world.threads == w.threads && turn.world.busy == w.busy && turn.world.viewing == w.viewing
    && JobOk(turn.world, j, turn.world.jobs[j])
    && (turn.world.jobs[j].status.Completed? && turn.world.jobs[j].offered ==> SwitchedBy(turn.world, j))
    && (turn.GoOn? ==> turn.thread.job == j && ThreadOk(policy, turn.world, turn.thread))
  }

  /** The backups of a viewed job stay, and its record becomes the interrupted one, or that of a rollback. */
  predicate ViewKept(w: World, w': World, j: JobId) {
    && j in w.jobs && j in w'.jobs && (Backed(w, j) ==> Backed(w', j))
    && var before, after := w.jobs[j], w'.jobs[j];
       || after == before || after == Viewed(before, w.worker)
       || (!Foreign(after, w.worker)
           && (before.offered || (!Foreign(before, w.worker) && !before.status.Interrupted?)))
  }

  lemma BaseSound(policy: Policy, w: World, t: ThreadId)
    requires Base(policy, w) && t in w.threads
    ensures w.threads.Keys == {t} && w.busy
    ensures Sound(policy, w, w.threads[t])
  {
  }

  /** What follows a recorded end leaves a configuration on SQLite there. */
  predicate TailTurn(policy: Policy, w: World, th: Thread, turn: Turn) {
    Tail(th) ==>
      && (turn.GoOn? ==> Tail(turn.thread))
      && (OnSqlite(policy, w) ==> OnSqlite(policy, turn.world))
  }

  /** A turn of thread `t` that leaves its job, itself and the records that are being viewed in order. */
  predicate Turned(policy: Policy, w: World, t: ThreadId, turn: Turn) {
    && t in w.threads
    && var th := w.threads[t];
    && TurnOk(policy, w, turn, th.job) && TailTurn(policy, w, th, turn)
    && (turn.GoOn? ==> turn.thread.RunThread? == th.RunThread?)
    && (th.RollThread? ==> ViewKept(w, turn.world, th.job))
  }

  /** A step of the only thread keeps the invariant if it leaves its own job and
      itself in order, whether it goes on or ends. */
  lemma TurnKeepsOrder(policy: Policy, w: World, t: ThreadId, turn: Turn)
    requires Base(policy, w) && Turned(policy, w, t, turn)
    ensures InOrder(policy, Settle(turn, t))
  {
    BaseSound(policy, w, t);
    var w' := Settle(turn, t);
    assert w'.threads.Keys == if turn.GoOn? then {t} else {};
    TurnKeepsJobs(policy, w, t, turn);
    if turn.GoOn? {
      TurnKeepsThread(policy, turn, t);
    }
  }

  lemma TurnKeepsUnique(policy: Policy, w: World, t: ThreadId, turn: Turn)
    requires Inv(policy, w) && Turned(policy, w, t, turn)
    ensures Unique(Settle(turn, t))
  {
    BaseSound(policy, w, t);
    var j := w.threads[t].job;
    var w' := Settle(turn, t);
    assert w'.threads.Keys == if turn.GoOn? then {t} else {};
    assert forall k :: k in w'.jobs && k != j ==> !Claim(w'.jobs[k]);
  }

  lemma TurnKeepsThread(policy: Policy, turn: Turn, t: ThreadId)
    requires turn.GoOn? && Sound(policy, turn.world, turn.thread)
    ensures Sound(policy, Settle(turn, t), turn.thread)
  {
  }

  lemma TurnKeepsJobs(policy: Policy, w: World, t: ThreadId, turn: Turn)
    requires Base(policy, w) && t in w.threads
    requires TurnOk(policy, w, turn, w.threads[t].job)
    ensures var w' := Settle(turn, t); forall k :: k in w'.jobs ==> JobOk(w', k, w'.jobs[k])
  {
    var w' := Settle(turn, t);
    forall k | k in w'.jobs ensures JobOk(w', k, w'.jobs[k]) {
      assert JobOk(w, k, w.jobs[k]);
    }
  }

  /** The parts of the world a restore never touches. */
  predicate RestoreFrame(w: World, w': World) {
    && w'.jobs == w.jobs && w'.threads == w.threads && w'.viewing == w.viewing && w'.busy == w.busy
    && w'.admission == w.admission && w'.worker == w.worker
    && w'.snapshots == w.snapshots && w'.coldStop == w.coldStop && w'.copied == w.copied
  }

  lemma RestoreTickEarly(w: World, j: JobId, p: Job, wasRunning: bool, mutated: bool, at: RestorePoint, o: Outcome)
    requires JobOk(w, j, p) && RestoreOk(w, j, p, at, wasRunning)
    requires at.StopService? || at.ReplaceData? || at.SetMemory?
    ensures var s := RestoreTick(w, j, p, wasRunning, mutated, at, o);
      && RestoreFrame(w, s.world)
      && (!s.failed ==> RestoreOk(s.world, j, p, s.next, wasRunning))
  {
  }

  lemma RestoreTickMiddle(w: World, j: JobId, p: Job, wasRunning: bool, mutated: bool, at: RestorePoint, o: Outcome)
    requires JobOk(w, j, p) && RestoreOk(w, j, p, at, wasRunning)
    requires at.SaveConfig? || at.RestoreEntries?
    ensures var s := RestoreTick(w, j, p, wasRunning, mutated, at, o);
      && RestoreFrame(w, s.world)
      && (!s.failed ==> RestoreOk(s.world, j, p, s.next, wasRunning))
  {
  }

  lemma RestoreTickLate(w: World, j: JobId, p: Job, wasRunning: bool, mutated: bool, at: RestorePoint, o: Outcome)
    requires JobOk(w, j, p) && RestoreOk(w, j, p, at, wasRunning)
    requires at.ClearMarker? || at.Restart?
    ensures var s := RestoreTick(w, j, p, wasRunning, mutated, at, o);
      && RestoreFrame(w, s.world)
      && (!s.failed ==> RestoreOk(s.world, j, p, s.next, wasRunning))
  {
  }

  lemma RestoreTickKeeps(w: World, j: JobId, p: Job, wasRunning: bool, mutated: bool, at: RestorePoint, o: Outcome)
    requires JobOk(w, j, p) && RestoreOk(w, j, p, at, wasRunning) && !at.Restored?
    ensures var s := RestoreTick(w, j, p, wasRunning, mutated, at, o);
      && RestoreFrame(w, s.world)
      && (!s.failed ==> RestoreOk(s.world, j, p, s.next, wasRunning))
  {
    if at.StopService? || at.ReplaceData? || at.SetMemory? {
      RestoreTickEarly(w, j, p, wasRunning, mutated, at, o);
    } else if at.SaveConfig? || at.RestoreEntries? {
      RestoreTickMiddle(w, j, p, wasRunning, mutated, at, o);
    } else {
      RestoreTickLate(w, j, p, wasRunning, mutated, at, o);
    }
  }

  lemma StartOk(policy: Policy, w: World, th: Thread, o: Outcome, flag: bool)
    requires Sound(policy, w, th) && th.RunThread? && th.run.Start?
    ensures TurnOk(policy, w, PrepareTick(w, th, o, flag), th.job)
  {
  }

  lemma PrepareOk(policy: Policy, w: World, th: Thread, o: Outcome, flag: bool)
    requires Sound(policy, w, th) && th.RunThread? && (th.run.Checking? || th.run.CopyingConfig?)
    ensures TurnOk(policy, w, PrepareTick(w, th, o, flag), th.job)
  {
  }

  lemma ColdStopOk(policy: Policy, w: World, th: Thread, o: Outcome)
    requires Sound(policy, w, th) && th.RunThread?
    requires th.run.Stopping? || th.run.BackingUp?
    ensures TurnOk(policy, w, BackupTick(w, th, o), th.job)
  {
  }

  lemma CheckpointOk(policy: Policy, w: World, th: Thread, o: Outcome)
    requires Sound(policy, w, th) && th.RunThread?
    requires th.run.Checkpointing?
    ensures TurnOk(policy, w, BackupTick(w, th, o), th.job)
  {
  }

  lemma ImportOk(policy: Policy, w: World, th: Thread, o: Outcome)
    requires Sound(policy, w, th) && th.RunThread? && th.run.Importing?
    ensures TurnOk(policy, w, CutoverTick(w, th, o), th.job)
  {
  }

  lemma SettingOk(policy: Policy, w: World, th: Thread, o: Outcome)
    requires Sound(policy, w, th) && th.RunThread? && th.run.SettingProvider?
    ensures TurnOk(policy, w, CutoverTick(w, th, o), th.job)
  {
  }

  lemma SwitchOk(policy: Policy, w: World, th: Thread, o: Outcome)
    requires Sound(policy, w, th) && th.RunThread? && th.run.SavingProvider?
    ensures TurnOk(policy, w, CutoverTick(w, th, o), th.job)
  {
  }

  lemma StartingOk(policy: Policy, w: World, th: Thread, o: Outcome)
    requires Sound(policy, w, th) && th.RunThread? && th.run.Starting?
    ensures TurnOk(policy, w, CutoverTick(w, th, o), th.job)
  {
    if o.Good? {
      StartedOk(policy, w, th);
    }
  }

  lemma StartedOk(policy: Policy, w: World, th: Thread)
    requires Sound(policy, w, th) && th.RunThread? && th.run.Starting?
    ensures TurnOk(policy, w, CutoverTick(w, th, Good), th.job)
  {
  }

  lemma FinalizingOk(policy: Policy, w: World, th: Thread, o: Outcome)
    requires Sound(policy, w, th) && th.RunThread? && th.run.SavingFinalizing?
    ensures TurnOk(policy, w, CompleteTick(w, th, o), th.job)
  {
  }

  lemma MarkerOk(policy: Policy, w: World, th: Thread, o: Outcome)
    requires Sound(policy, w, th) && th.RunThread? && th.run.RecordingMarker?
    ensures TurnOk(policy, w, CompleteTick(w, th, o), th.job)
  {
  }

  lemma CompletedOk(policy: Policy, w: World, th: Thread, o: Outcome)
    requires Sound(policy, w, th) && th.RunThread? && th.run.SavingCompleted?
    ensures TurnOk(policy, w, CompleteTick(w, th, o), th.job)
  {
  }

  lemma SavedAgainOk(policy: Policy, w: World, th: Thread, o: Outcome)
    requires Sound(policy, w, th) && th.RunThread? && th.run.SavingAgain?
    ensures TurnOk(policy, w, CompleteTick(w, th, o), th.job)
  {
  }

  lemma HandlerStopsOk(policy: Policy, w: World, th: Thread, o: Outcome, flag: bool)
    requires Sound(policy, w, th) && th.RunThread? && th.run.HandlerEntry?
    requires th.job !in w.copied || !o.Good?
    ensures TurnOk(policy, w, HandlerTick(w, th, o, flag), th.job)
  {
  }

  lemma HandlerUnchangedOk(policy: Policy, w: World, th: Thread, flag: bool)
    requires Sound(policy, w, th) && th.RunThread? && th.run.HandlerEntry? && th.job in w.copied
    requires th.payload.mode.Rehearsal? || (!th.stopAttempted && !th.payload.checkpoint)
    ensures TurnOk(policy, w, HandlerTick(w, th, Good, flag), th.job)
  {
  }

  lemma HandlerToRestoreOk(policy: Policy, w: World, th: Thread, flag: bool)
    requires Sound(policy, w, th) && th.RunThread? && th.run.HandlerEntry? && th.job in w.copied
    requires th.payload.mode.Cutover? && (th.stopAttempted || th.payload.checkpoint)
    ensures TurnOk(policy, w, HandlerTick(w, th, Good, flag), th.job)
  {
  }

  lemma HandlerEntriesOk(policy: Policy, w: World, th: Thread, o: Outcome, flag: bool)
    requires Sound(policy, w, th) && th.RunThread?
    requires th.run.HandlerEntries?
    ensures TurnOk(policy, w, HandlerTick(w, th, o, flag), th.job)
  {
  }

  lemma HandlerRestoreOk(policy: Policy, w: World, th: Thread, o: Outcome, flag: bool)
    requires Sound(policy, w, th) && th.RunThread?
    requires th.run.HandlerRestore? && !th.run.at.Restored?
    ensures TurnOk(policy, w, HandlerTick(w, th, o, flag), th.job)
  {
    RestoreTickKeeps(w, th.job, th.payload, th.wasRunning, true, th.run.at, o);
  }

  lemma HandlerRestoredOk(policy: Policy, w: World, th: Thread, o: Outcome, flag: bool)
    requires Sound(policy, w, th) && th.RunThread? && th.run == HandlerRestore(Restored)
    ensures TurnOk(policy, w, HandlerTick(w, th, o, flag), th.job)
  {
  }

  lemma HandlerEndOk(policy: Policy, w: World, th: Thread, o: Outcome, flag: bool)
    requires Sound(policy, w, th) && th.RunThread?
    requires th.run.HandlerStatus? || th.run.HandlerSavingAgain?
    ensures TurnOk(policy, w, HandlerTick(w, th, o, flag), th.job)
  {
  }

  lemma RollRestoringOk(policy: Policy, w: World, th: Thread, o: Outcome)
    requires Sound(policy, w, th) && th.RollThread? && th.roll.Restoring? && !th.roll.at.Restored?
    ensures TurnOk(policy, w, RollTick(w, th, o), th.job) && ViewKept(w, RollTick(w, th, o).world, th.job)
  {
    RestoreTickKeeps(w, th.job, th.payload, th.wasRunning, th.mutated, th.roll.at, o);
  }

  lemma RollRestoredOk(policy: Policy, w: World, th: Thread, o: Outcome)
    requires Sound(policy, w, th) && th.RollThread? && th.roll == Restoring(Restored)
    ensures TurnOk(policy, w, RollTick(w, th, o), th.job) && ViewKept(w, RollTick(w, th, o).world, th.job)
  {
  }

  lemma RollFailingOk(policy: Policy, w: World, th: Thread, o: Outcome)
    requires Sound(policy, w, th) && th.RollThread? && th.roll.RollFailing?
    ensures TurnOk(policy, w, RollTick(w, th, o), th.job) && ViewKept(w, RollTick(w, th, o).world, th.job)
  {
  }

  lemma RollRecordsOk(policy: Policy, w: World, th: Thread, o: Outcome)
    requires Sound(policy, w, th) && th.RollThread? && th.roll.SavingRolledBack?
    ensures TurnOk(policy, w, RollTick(w, th, o), th.job) && ViewKept(w, RollTick(w, th, o).world, th.job)
  {
  }

  lemma RollEndOk(policy: Policy, w: World, th: Thread, o: Outcome)
    requires Sound(policy, w, th) && th.RollThread? && th.roll.RollSavingAgain?
    ensures TurnOk(policy, w, RollTick(w, th, o), th.job) && ViewKept(w, RollTick(w, th, o).world, th.job)
  {
  }

  lemma BodyTickOk(policy: Policy, w: World, th: Thread, o: Outcome, flag: bool)
    requires Sound(policy, w, th) && th.RunThread?
    requires th.run.Start? || th.run.Checking? || th.run.CopyingConfig? || th.run.Stopping?
          || th.run.BackingUp? || th.run.Checkpointing? || th.run.Importing? || th.run.SettingProvider?
    ensures TurnOk(policy, w, RunTick(w, th, o, flag), th.job)
  {
    match th.run {
      case Stopping => ColdStopOk(policy, w, th, o);
      case BackingUp => ColdStopOk(policy, w, th, o);
      case Checkpointing => CheckpointOk(policy, w, th, o);
      case Importing => ImportOk(policy, w, th, o);
      case SettingProvider => SettingOk(policy, w, th, o);
      case Start => StartOk(policy, w, th, o, flag);
      case _ => PrepareOk(policy, w, th, o, flag);
    }
  }

  lemma FinishTickOk(policy: Policy, w: World, th: Thread, o: Outcome)
    requires Sound(policy, w, th) && th.RunThread?
    requires th.run.SavingFinalizing? || th.run.RecordingMarker? || th.run.SavingCompleted? || th.run.SavingAgain?
    ensures TurnOk(policy, w, CompleteTick(w, th, o), th.job)
  {
    match th.run {
      case SavingCompleted => CompletedOk(policy, w, th, o);
      case SavingAgain => SavedAgainOk(policy, w, th, o);
      case SavingFinalizing => FinalizingOk(policy, w, th, o);
      case _ => MarkerOk(policy, w, th, o);
    }
  }

  lemma SwitchTickOk(policy: Policy, w: World, th: Thread, o: Outcome)
    requires Sound(policy, w, th) && th.RunThread? && (th.run.SavingProvider? || th.run.Starting?)
    ensures TurnOk(policy, w, CutoverTick(w, th, o), th.job)
  {
    if th.run.Starting? {
      StartingOk(policy, w, th, o);
    } else {
      SwitchOk(policy, w, th, o);
    }
  }

  lemma HandlerEntryOk(policy: Policy, w: World, th: Thread, o: Outcome, flag: bool)
    requires Sound(policy, w, th) && th.RunThread? && th.run.HandlerEntry?
    ensures TurnOk(policy, w, HandlerTick(w, th, o, flag), th.job)
  {
    if th.job !in w.copied || !o.Good? {
      HandlerStopsOk(policy, w, th, o, flag);
    } else if th.payload.mode.Rehearsal? || (!th.stopAttempted && !th.payload.checkpoint) {
      HandlerUnchangedOk(policy, w, th, flag);
    } else {
      HandlerToRestoreOk(policy, w, th, flag);
    }
  }

  lemma HandlerRestoringOk(policy: Policy, w: World, th: Thread, o: Outcome, flag: bool)
    requires Sound(policy, w, th) && th.RunThread? && th.run.HandlerRestore?
    ensures TurnOk(policy, w, HandlerTick(w, th, o, flag), th.job)
  {
    if th.run.at.Restored? {
      HandlerRestoredOk(policy, w, th, o, flag);
    } else {
      HandlerRestoreOk(policy, w, th, o, flag);
    }
  }

  lemma HandlerTickOk(policy: Policy, w: World, th: Thread, o: Outcome, flag: bool)
    requires Sound(policy, w, th) && th.RunThread?
    requires th.run.HandlerEntry? || th.run.HandlerEntries? || th.run.HandlerRestore?
          || th.run.HandlerStatus? || th.run.HandlerSavingAgain?
    ensures TurnOk(policy, w, HandlerTick(w, th, o, flag), th.job)
  {
    match th.run {
      case HandlerEntry => HandlerEntryOk(policy, w, th, o, flag);
      case HandlerEntries => HandlerEntriesOk(policy, w, th, o, flag);
      case HandlerRestore(_) => HandlerRestoringOk(policy, w, th, o, flag);
      case _ => HandlerEndOk(policy, w, th, o, flag);
    }
  }

  lemma RunTickOk(policy: Policy, w: World, th: Thread, o: Outcome, flag: bool)
    requires Sound(policy, w, th) && th.RunThread?
    ensures TurnOk(policy, w, RunTick(w, th, o, flag), th.job)
  {
    if th.run.HandlerEntry? || th.run.HandlerEntries? || th.run.HandlerRestore?
       || th.run.HandlerStatus? || th.run.HandlerSavingAgain? {
      HandlerTickOk(policy, w, th, o, flag);
    } else {
      TryTickOk(policy, w, th, o, flag);
    }
  }

  /** `_run_job` before its handler. */
  lemma TryTickOk(policy: Policy, w: World, th: Thread, o: Outcome, flag: bool)
    requires Sound(policy, w, th) && th.RunThread?
    requires !th.run.HandlerEntry? && !th.run.HandlerEntries? && !th.run.HandlerRestore?
          && !th.run.HandlerStatus? && !th.run.HandlerSavingAgain?
    ensures TurnOk(policy, w, RunTick(w, th, o, flag), th.job)
  {
    if th.run.SavingProvider? || th.run.Starting? {
      SwitchTickOk(policy, w, th, o);
    } else if th.run.SavingFinalizing? || th.run.RecordingMarker? || th.run.SavingCompleted? || th.run.SavingAgain? {
      FinishTickOk(policy, w, th, o);
    } else {
      BodyTickOk(policy, w, th, o, flag);
    }
  }

  lemma RollTickOk(policy: Policy, w: World, th: Thread, o: Outcome)
    requires Sound(policy, w, th) && th.RollThread?
    ensures TurnOk(policy, w, RollTick(w, th, o), th.job) && ViewKept(w, RollTick(w, th, o).world, th.job)
  {
    match th.roll {
      case Restoring(at) =>
        if at.Restored? {
          RollRestoredOk(policy, w, th, o);
        } else {
          RollRestoringOk(policy, w, th, o);
        }
      case RollFailing => RollFailingOk(policy, w, th, o);
      case SavingRolledBack => RollRecordsOk(policy, w, th, o);
      case RollSavingAgain => RollEndOk(policy, w, th, o);
    }
  }

  /** A restore never leaves SQLite. */
  lemma RestoreStaysOnSqlite(policy: Policy, w: World, j: JobId, p: Job, wasRunning: bool, mutated: bool,
                             at: RestorePoint, o: Outcome)
    requires OnSqlite(policy, w)
    ensures OnSqlite(policy, RestoreTick(w, j, p, wasRunning, mutated, at, o).world)
  {
  }

  lemma RestoringTailTurn(policy: Policy, w: World, th: Thread, o: Outcome, flag: bool)
    requires Sound(policy, w, th) && th.RunThread? && th.run.HandlerRestore?
    ensures TailTurn(policy, w, th, HandlerTick(w, th, o, flag))
  {
    if OnSqlite(policy, w) {
      RestoreStaysOnSqlite(policy, w, th.job, th.payload, th.wasRunning, true, th.run.at, o);
    }
  }

  lemma HandlerTailTurn(policy: Policy, w: World, th: Thread, o: Outcome, flag: bool)
    requires Sound(policy, w, th) && th.RunThread?
    requires th.run.HandlerEntry? || th.run.HandlerEntries? || th.run.HandlerStatus? || th.run.HandlerSavingAgain?
    ensures TailTurn(policy, w, th, HandlerTick(w, th, o, flag))
  {
  }

  lemma CompletedTailTurn(policy: Policy, w: World, th: Thread, o: Outcome)
    requires Sound(policy, w, th) && th.RunThread? && th.run.SavingAgain?
    ensures TailTurn(policy, w, th, CompleteTick(w, th, o))
  {
  }

  /** A tail goes on as a tail, on SQLite. */
  lemma RunTailTurn(policy: Policy, w: World, th: Thread, o: Outcome, flag: bool)
    requires Sound(policy, w, th) && th.RunThread? && Tail(th)
    ensures TailTurn(policy, w, th, RunTick(w, th, o, flag))
  {
    if th.run.SavingAgain? {
      CompletedTailTurn(policy, w, th, o);
    } else if th.run.HandlerRestore? {
      RestoringTailTurn(policy, w, th, o, flag);
    } else {
      HandlerTailTurn(policy, w, th, o, flag);
    }
  }

  lemma RollTailTurn(policy: Policy, w: World, th: Thread, o: Outcome)
    requires Sound(policy, w, th) && th.RollThread?
    ensures TailTurn(policy, w, th, RollTick(w, th, o))
  {
  }

  lemma RunTurned(policy: Policy, w: World, t: ThreadId, o: Outcome, flag: bool) returns (turn: Turn)
    requires Base(policy, w) && t in w.threads && w.threads[t].RunThread?
    ensures Turned(policy, w, t, turn) && Step(policy, w, Tick(t, o, flag)) == Some(Settle(turn, t))
  {
    var th := w.threads[t];
    turn := RunTick(w, th, o, flag);
    BaseSound(policy, w, t);
    RunTickOk(policy, w, th, o, flag);
    RunStaysRun(w, th, o, flag);
    if Tail(th) {
      RunTailTurn(policy, w, th, o, flag);
    }
  }

  /** A thread stays what it is. */
  lemma RunStaysRun(w: World, th: Thread, o: Outcome, flag: bool)
    requires th.RunThread?
    ensures var turn := RunTick(w, th, o, flag); turn.GoOn? ==> turn.thread.RunThread?
  {
  }

  lemma RollTurned(policy: Policy, w: World, t: ThreadId, o: Outcome, flag: bool) returns (turn: Turn)
    requires Base(policy, w) && t in w.threads && w.threads[t].RollThread?
    ensures Turned(policy, w, t, turn) && Step(policy, w, Tick(t, o, flag)) == Some(Settle(turn, t))
  {
    BaseSound(policy, w, t);
    turn := RollMoves(policy, w, w.threads[t], o);
  }

  lemma RollMoves(policy: Policy, w: World, th: Thread, o: Outcome) returns (turn: Turn)
    requires Sound(policy, w, th) && th.RollThread?
    ensures turn == RollTick(w, th, o) && (turn.GoOn? ==> turn.thread.RollThread?)
    ensures TurnOk(policy, w, turn, th.job) && TailTurn(policy, w, th, turn) && ViewKept(w, turn.world, th.job)
  {
    RollTickOk(policy, w, th, o);
    RollTailTurn(policy, w, th, o);
    turn := RollTick(w, th, o);
  }

  lemma TickTurns(policy: Policy, w: World, t: ThreadId, o: Outcome, flag: bool) returns (turn: Turn)
    requires Base(policy, w) && t in w.threads
    ensures Turned(policy, w, t, turn) && Step(policy, w, Tick(t, o, flag)) == Some(Settle(turn, t))
  {
    if w.threads[t].RunThread? {
      turn := RunTurned(policy, w, t, o, flag);
    } else {
      turn := RollTurned(policy, w, t, o, flag);
    }
  }

  // ---- the other actions keep jobs and threads in order ----

  lemma CrashKeepsOrder(policy: Policy, w: World)
    requires Base(policy, w)
    ensures InOrder(policy, Step(policy, w, Crash).value)
  {
    var w' := Step(policy, w, Crash).value;
    forall j | j in w'.jobs ensures JobOk(w', j, w'.jobs[j]) {
      assert JobOk(w, j, w.jobs[j]);
    }
  }

  /** A thread does not depend on the other jobs, nor on a request that is under way. */
  lemma SoundAmongOthers(policy: Policy, w: World, w': World, th: Thread)
    requires Sound(policy, w, th) && th.job in w'.jobs && w'.jobs[th.job] == w.jobs[th.job]
    requires w' == w.(jobs := w'.jobs, latest := w'.latest, viewing := w'.viewing, admission := w'.admission)
    ensures Sound(policy, w', th)
  {
  }

  lemma ViewReadKeepsOrder(policy: Policy, w: World, v: nat, j: JobId)
    requires Base(policy, w) && Step(policy, w, ViewRead(v, j)).Some?
    ensures InOrder(policy, Step(policy, w, ViewRead(v, j)).value)
  {
    var w' := Step(policy, w, ViewRead(v, j)).value;
    forall k | k in w'.jobs ensures JobOk(w', k, w'.jobs[k]) {
      assert JobOk(w, k, w.jobs[k]);
    }
    forall t | t in w'.threads ensures Sound(policy, w', w'.threads[t]) {
      SoundAmongOthers(policy, w, w', w.threads[t]);
    }
  }

  /** Only a rollback may find its record replaced, by one that still blocks. */
  lemma SoundUnderView(policy: Policy, w: World, w': World, view: Viewing, th: Thread)
    requires Sound(policy, w, th) && ViewOk(w, view) && (th.RunThread? ==> view.job != th.job)
    requires policy.viewsRecheck ==> !Overtaken(w, view)
    requires w' == w.(jobs := w.jobs[view.job := AsInterrupted(view.read)], latest := w'.latest, viewing := w'.viewing)
    ensures Sound(policy, w', th)
  {
    if view.job != th.job {
      SoundAmongOthers(policy, w, w', th);
    } else {
      assert w'.jobs[th.job] == w.jobs[th.job] || (!policy.viewsRecheck && Revived(w'.jobs[th.job]));
    }
  }

  lemma ViewSaveKeepsOrder(policy: Policy, w: World, v: nat, o: Outcome)
    requires Base(policy, w) && Step(policy, w, ViewSave(v, o)).Some?
    ensures InOrder(policy, Step(policy, w, ViewSave(v, o)).value)
  {
    var w' := Step(policy, w, ViewSave(v, o)).value;
    var view := w.viewing[v];
    assert ViewOk(w, view);
    forall k | k in w'.jobs ensures JobOk(w', k, w'.jobs[k]) {
      assert JobOk(w, k, w.jobs[k]);
    }
    forall t | t in w'.threads ensures Sound(policy, w', w'.threads[t]) {
      if w'.jobs == w.jobs {
        SoundAmongOthers(policy, w, w', w.threads[t]);
      } else {
        SoundUnderView(policy, w, w', view, w.threads[t]);
      }
    }
  }

  lemma ServiceKeepsThread(policy: Policy, w: World, w': World, th: Thread)
    requires Sound(policy, w, th)
    requires w' == w.(service := w'.service, sqlite := w'.sqlite)
    requires w.sqlite <= w'.sqlite && (w.service.Stopped? ==> w'.sqlite == w.sqlite)
    requires Blocking(Viewed(w.jobs[th.job], w.worker)) && w.service.Stopped? ==> w'.service.Stopped?
    ensures Sound(policy, w', th)
  {
    if th.RollThread? {
      ServiceKeepsRoll(policy, w, w', th);
    } else {
      ServiceKeepsRun(policy, w, w', th);
    }
  }

  lemma ServiceKeepsRoll(policy: Policy, w: World, w': World, th: Thread)
    requires Sound(policy, w, th) && th.RollThread?
    requires w' == w.(service := w'.service, sqlite := w'.sqlite)
    requires w.sqlite <= w'.sqlite && (w.service.Stopped? ==> w'.sqlite == w.sqlite)
    requires Blocking(Viewed(w.jobs[th.job], w.worker)) && w.service.Stopped? ==> w'.service.Stopped?
    ensures Sound(policy, w', th)
  {
  }

  lemma ServiceKeepsRun(policy: Policy, w: World, w': World, th: Thread)
    requires Sound(policy, w, th) && th.RunThread?
    requires w' == w.(service := w'.service, sqlite := w'.sqlite)
    requires w.sqlite <= w'.sqlite && (w.service.Stopped? ==> w'.sqlite == w.sqlite)
    requires Blocking(Viewed(w.jobs[th.job], w.worker)) && w.service.Stopped? ==> w'.service.Stopped?
    ensures Sound(policy, w', th)
  {
    if Tail(th) {
      ServiceKeepsTail(policy, w, w', th);
    }
  }

  lemma ServiceKeepsTail(policy: Policy, w: World, w': World, th: Thread)
    requires Sound(policy, w, th) && th.RunThread? && Tail(th)
    requires w' == w.(service := w'.service, sqlite := w'.sqlite)
    requires w.sqlite <= w'.sqlite && (w.service.Stopped? ==> w'.sqlite == w.sqlite)
    requires Blocking(Viewed(w.jobs[th.job], w.worker)) && w.service.Stopped? ==> w'.service.Stopped?
    ensures Sound(policy, w', th)
  {
  }

  lemma ServiceKeepsOrder(policy: Policy, w: World, w': World)
    requires Base(policy, w)
    requires w' == w.(service := w'.service, sqlite := w'.sqlite)
    requires w.sqlite <= w'.sqlite && (w.service.Stopped? ==> w'.sqlite == w.sqlite)
    requires HasActive(w) && w.service.Stopped? ==> w'.service.Stopped?
    ensures InOrder(policy, w')
  {
    forall j | j in w'.jobs ensures JobOk(w', j, w'.jobs[j]) {
      assert JobOk(w, j, w.jobs[j]);
    }
    forall t | t in w'.threads ensures Sound(policy, w', w'.threads[t]) {
      assert Sound(policy, w, w.threads[t]);
      ServiceKeepsThread(policy, w, w', w.threads[t]);
    }
  }

  /** Only a tail leaves its job in a state that does not block. */
  lemma BodyBlocks(policy: Policy, w: World, th: Thread)
    requires Sound(policy, w, th) && !HasActive(w)
    ensures Tail(th)
  {
    assert !Blocking(Viewed(w.jobs[th.job], w.worker));
  }

  lemma CreateAdmitKeepsOrder(policy: Policy, w: World, mode: Mode)
    requires Base(policy, w) && Step(policy, w, CreateAdmit(mode)).Some?
    ensures InOrder(policy, Step(policy, w, CreateAdmit(mode)).value)
  {
    var w' := Step(policy, w, CreateAdmit(mode)).value;
    forall j | j in w'.jobs ensures JobOk(w', j, w'.jobs[j]) {
      assert JobOk(w, j, w.jobs[j]);
    }
    forall t | t in w'.threads ensures Sound(policy, w', w'.threads[t]) && Tail(w'.threads[t]) {
      assert w'.jobs[w.threads[t].job] == w.jobs[w.threads[t].job];
      SoundAmongOthers(policy, w, w', w.threads[t]);
      BodyBlocks(policy, w, w.threads[t]);
    }
  }

  lemma AdmissionKeepsOrder(policy: Policy, w: World, a: Action)
    requires Base(policy, w) && Step(policy, w, a).Some? && (a.CreatePreflight? || a.CreateAbort?)
    ensures InOrder(policy, Step(policy, w, a).value)
  {
    var w' := Step(policy, w, a).value;
    forall j | j in w'.jobs ensures JobOk(w', j, w'.jobs[j]) {
      assert JobOk(w, j, w.jobs[j]);
    }
    forall t | t in w'.threads ensures Sound(policy, w', w'.threads[t]) {
      SoundAmongOthers(policy, w, w', w.threads[t]);
    }
  }

  lemma CreateCommitKeepsOrder(policy: Policy, w: World, j: JobId, t: ThreadId, o: Outcome)
    requires Base(policy, w) && Step(policy, w, CreateCommit(j, t, o)).Some?
    ensures InOrder(policy, Step(policy, w, CreateCommit(j, t, o)).value)
  {
    var w' := Step(policy, w, CreateCommit(j, t, o)).value;
    forall k | k in w'.jobs ensures JobOk(w', k, w'.jobs[k]) {
      assert k != j ==> JobOk(w, k, w.jobs[k]);
    }
    assert w.threads == map[];
    if o.Good? {
      assert w'.threads.Keys == {t};
      assert Sound(policy, w', w'.threads[t]);
    }
  }

  lemma ReserveKeepsOrder(policy: Policy, w: World, j: JobId, t: ThreadId, wasRunning: bool, o: Outcome)
    requires policy.reserveWaits && Base(policy, w) && Step(policy, w, Reserve(j, t, wasRunning, o)).Some?
    ensures InOrder(policy, Step(policy, w, Reserve(j, t, wasRunning, o)).value)
  {
    var w' := Step(policy, w, Reserve(j, t, wasRunning, o)).value;
    assert w.threads == map[];
    forall k | k in w'.jobs ensures JobOk(w', k, w'.jobs[k]) {
      assert JobOk(w, k, w.jobs[k]);
    }
    if o.Good? {
      assert w'.threads.Keys == {t};
      assert Sound(policy, w', w'.threads[t]);
    }
  }

  lemma StepKeepsOrder(policy: Policy, w: World, a: Action)
    requires policy.reserveWaits && Base(policy, w) && Step(policy, w, a).Some?
    ensures InOrder(policy, Step(policy, w, a).value)
  {
    match a {
      case Crash => CrashKeepsOrder(policy, w);
      case ViewRead(v, j) => ViewReadKeepsOrder(policy, w, v, j);
      case ViewSave(v, o) => ViewSaveKeepsOrder(policy, w, v, o);
      case ServiceStart => ServiceKeepsOrder(policy, w, Step(policy, w, a).value);
      case ServiceStop => ServiceKeepsOrder(policy, w, Step(policy, w, a).value);
      case AppWrite(_) => ServiceKeepsOrder(policy, w, Step(policy, w, a).value);
      case CreateAdmit(mode) => CreateAdmitKeepsOrder(policy, w, mode);
      case CreatePreflight => AdmissionKeepsOrder(policy, w, a);
      case CreateCommit(j, t, o) => CreateCommitKeepsOrder(policy, w, j, t, o);
      case CreateAbort => AdmissionKeepsOrder(policy, w, a);
      case Reserve(j, t, wasRunning, o) => ReserveKeepsOrder(policy, w, j, t, wasRunning, o);
      case Tick(t, o, flag) =>
        var turn := TickTurns(policy, w, t, o, flag);
        TurnKeepsOrder(policy, w, t, turn);
    }
  }

  // ---- and the records that are being viewed ----

  lemma KeptViewOk(w: World, w': World, view: Viewing)
    requires ViewOk(w, view) && ViewKept(w, w', view.job) && w'.worker == w.worker
    ensures ViewOk(w', view)
  {
  }

  lemma ViewsKept(w: World, w': World)
    requires ViewsOk(w) && w'.viewing == w.viewing && w'.worker == w.worker
    requires forall v :: v in w.viewing ==> ViewKept(w, w', w.viewing[v].job)
    requires forall t, v :: t in w'.threads && v in w.viewing && w'.threads[t].RunThread? ==>
      w.viewing[v].job != w'.threads[t].job
    ensures ViewsOk(w')
  {
    forall v | v in w'.viewing ensures ViewOk(w', w'.viewing[v]) {
      KeptViewOk(w, w', w.viewing[v]);
    }
  }

  lemma OtherViewKept(w: World, w': World, own: JobId, j: JobId)
    requires OnlyJob(w, w', own) && j in w.jobs && j != own
    ensures ViewKept(w, w', j)
  {
  }

  lemma TurnKeepsViews(policy: Policy, w: World, t: ThreadId, turn: Turn)
    requires Base(policy, w) && Turned(policy, w, t, turn)
    ensures ViewsOk(Settle(turn, t))
  {
    var w' := Settle(turn, t);
    forall v | v in w.viewing ensures ViewKept(w, w', w.viewing[v].job) {
      assert ViewOk(w, w.viewing[v]);
      if w.viewing[v].job != w.threads[t].job {
        OtherViewKept(w, turn.world, w.threads[t].job, w.viewing[v].job);
      }
    }
    BaseSound(policy, w, t);
    ViewsKept(w, w');
  }

  lemma ViewReadKeepsViews(policy: Policy, w: World, v: nat, j: JobId)
    requires Base(policy, w) && Step(policy, w, ViewRead(v, j)).Some?
    ensures ViewsOk(Step(policy, w, ViewRead(v, j)).value)
  {
    var w' := Step(policy, w, ViewRead(v, j)).value;
    assert JobOk(w, j, w.jobs[j]);
    forall u | u in w'.viewing ensures ViewOk(w', w'.viewing[u]) {
      assert u in w.viewing ==> ViewOk(w, w.viewing[u]);
    }
    forall t | t in w'.threads && w'.threads[t].RunThread? && Foreign(w.jobs[j], w.worker)
      ensures w'.threads[t].job != j
    {
      BaseSound(policy, w, t);
    }
  }

  /** What one `get_job` call saves is what any other one is about to save. */
  lemma SavedViewOk(w: World, w': World, saved: Viewing, view: Viewing)
    requires ViewOk(w, saved) && ViewOk(w, view) && (view.job == saved.job ==> view == saved)
    requires w' == w.(jobs := w.jobs[saved.job := AsInterrupted(saved.read)],
                      latest := w'.latest, viewing := w'.viewing)
    ensures ViewOk(w', view)
  {
  }

  lemma ViewSaveKeepsViews(policy: Policy, w: World, v: nat, o: Outcome)
    requires Base(policy, w) && Step(policy, w, ViewSave(v, o)).Some?
    ensures ViewsOk(Step(policy, w, ViewSave(v, o)).value)
  {
    var w' := Step(policy, w, ViewSave(v, o)).value;
    assert w' == w.(jobs := w'.jobs, latest := w'.latest, viewing := w.viewing - {v});
    FewerViews(w, w', w.viewing[v]);
  }

  lemma FewerViews(w: World, w': World, saved: Viewing)
    requires ViewsOk(w) && (exists v :: v in w.viewing && w.viewing[v] == saved)
    requires w' == w.(jobs := w'.jobs, latest := w'.latest, viewing := w'.viewing)
    requires w'.jobs == w.jobs || w'.jobs == w.jobs[saved.job := AsInterrupted(saved.read)]
    requires forall u :: u in w'.viewing ==> u in w.viewing && w'.viewing[u] == w.viewing[u]
    ensures ViewsOk(w')
  {
    forall u | u in w'.viewing ensures ViewOk(w', w'.viewing[u]) {
      assert ViewOk(w, w.viewing[u]) && ViewOk(w, saved);
      if w'.jobs != w.jobs {
        SavedViewOk(w, w', saved, w.viewing[u]);
      }
    }
  }

  lemma OtherKeepsViews(policy: Policy, w: World, a: Action)
    requires Base(policy, w) && Step(policy, w, a).Some?
    requires !a.Crash? && !a.ViewRead? && !a.ViewSave? && !a.Tick? && !a.CreateCommit? && !a.Reserve?
    ensures ViewsOk(Step(policy, w, a).value)
  {
    var w' := Step(policy, w, a).value;
    forall v | v in w.viewing ensures ViewKept(w, w', w.viewing[v].job) {
      assert ViewOk(w, w.viewing[v]);
    }
    ViewsKept(w, w');
  }

  lemma CreateCommitKeepsViews(policy: Policy, w: World, j: JobId, t: ThreadId, o: Outcome)
    requires Base(policy, w) && Step(policy, w, CreateCommit(j, t, o)).Some?
    ensures ViewsOk(Step(policy, w, CreateCommit(j, t, o)).value)
  {
    var w' := Step(policy, w, CreateCommit(j, t, o)).value;
    forall v | v in w.viewing ensures ViewKept(w, w', w.viewing[v].job) && w.viewing[v].job != j {
      assert ViewOk(w, w.viewing[v]);
    }
    assert w.threads == map[];
    ViewsKept(w, w');
  }

  lemma ReserveKeepsViews(policy: Policy, w: World, j: JobId, t: ThreadId, wasRunning: bool, o: Outcome)
    requires policy.reserveWaits && Base(policy, w) && Step(policy, w, Reserve(j, t, wasRunning, o)).Some?
    ensures ViewsOk(Step(policy, w, Reserve(j, t, wasRunning, o)).value)
  {
    var w' := Step(policy, w, Reserve(j, t, wasRunning, o)).value;
    forall v | v in w.viewing ensures ViewKept(w, w', w.viewing[v].job) {
      assert ViewOk(w, w.viewing[v]);
    }
    assert w.threads == map[];
    ViewsKept(w, w');
  }

  lemma StepKeepsViews(policy: Policy, w: World, a: Action)
    requires policy.reserveWaits && Base(policy, w) && Step(policy, w, a).Some?
    ensures ViewsOk(Step(policy, w, a).value)
  {
    match a {
      case Crash =>
      case ViewRead(v, j) => ViewReadKeepsViews(policy, w, v, j);
      case ViewSave(v, o) => ViewSaveKeepsViews(policy, w, v, o);
      case CreateCommit(j, t, o) => CreateCommitKeepsViews(policy, w, j, t, o);
      case Reserve(j, t, wasRunning, o) => ReserveKeepsViews(policy, w, j, t, wasRunning, o);
      case Tick(t, o, flag) =>
        var turn := TickTurns(policy, w, t, o, flag);
        TurnKeepsViews(policy, w, t, turn);
      case _ => OtherKeepsViews(policy, w, a);
    }
  }

  lemma StepKeepsBase(policy: Policy, w: World, a: Action)
    requires policy.reserveWaits && Base(policy, w) && Step(policy, w, a).Some?
    ensures Base(policy, Step(policy, w, a).value)
  {
    StepKeepsOrder(policy, w, a);
    StepKeepsViews(policy, w, a);
  }

  lemma {:induction false} RunKeepsBase(policy: Policy, w: World, actions: seq<Action>)
    requires policy.reserveWaits && Base(policy, w) && Run(policy, w, actions).Some?
    ensures Base(policy, Run(policy, w, actions).value)
    decreases |actions|
  {
    if actions == [] {
    } else {
      StepKeepsBase(policy, w, actions[0]);
      RunKeepsBase(policy, Step(policy, w, actions[0]).value, actions[1..]);
    }
  }

  /** The first invariant holds in every state the machine can reach. */
  lemma ReachableBase(policy: Policy, w: World)
    requires policy.reserveWaits && Reachable(policy, w)
    ensures Base(policy, w)
  {
    var actions: seq<Action> :| Run(policy, INITIAL, actions) == Some(w);
    RunKeepsBase(policy, INITIAL, actions);
  }

  // ---- and, if creations wait too, the claims unique ----

  /** Records that claim no more than those they replace. */
  predicate ClaimsLess(before: Job, after: Job) {
    && (Claim(after) ==> Claim(before)) && (Blocking(after) ==> Blocking(before))
    && (after.status.Completed? && after.offered ==> before.status.Completed? && before.offered)
  }

  lemma FewerClaims(w: World, w': World)
    requires Unique(w) && w' == w.(jobs := w'.jobs, latest := w'.latest, viewing := w'.viewing)
    requires w'.jobs.Keys == w.jobs.Keys && forall j :: j in w.jobs ==> ClaimsLess(w.jobs[j], w'.jobs[j])
    ensures Unique(w')
  {
    forall j1, j2 | j1 in w'.jobs && j2 in w'.jobs && Claim(w'.jobs[j1]) && Claim(w'.jobs[j2]) ensures j1 == j2 {
      assert ClaimsLess(w.jobs[j1], w'.jobs[j1]) && ClaimsLess(w.jobs[j2], w'.jobs[j2]);
    }
  }

  lemma ViewedClaimsLess(w: World, view: Viewing)
    requires ViewOk(w, view) && !Overtaken(w, view)
    ensures ClaimsLess(w.jobs[view.job], AsInterrupted(view.read))
  {
  }

  lemma ViewSaveKeepsUnique(policy: Policy, w: World, v: nat, o: Outcome)
    requires policy.viewsRecheck && Inv(policy, w) && Step(policy, w, ViewSave(v, o)).Some?
    ensures Unique(Step(policy, w, ViewSave(v, o)).value)
  {
    var view := w.viewing[v];
    assert ViewOk(w, view);
    if !Overtaken(w, view) {
      ViewedClaimsLess(w, view);
    }
    FewerClaims(w, Step(policy, w, ViewSave(v, o)).value);
  }

  lemma CreateAdmitKeepsUnique(policy: Policy, w: World, mode: Mode)
    requires Waits(policy) && Inv(policy, w) && Step(policy, w, CreateAdmit(mode)).Some?
    ensures Unique(Step(policy, w, CreateAdmit(mode)).value)
  {
    var w' := Step(policy, w, CreateAdmit(mode)).value;
    assert w.threads == map[];
    forall j | j in w'.jobs ensures !Blocking(w'.jobs[j]) && (Claim(w'.jobs[j]) ==> Claim(w.jobs[j])) {
      assert JobOk(w, j, w.jobs[j]);
    }
  }

  lemma CreateCommitKeepsUnique(policy: Policy, w: World, j: JobId, t: ThreadId, o: Outcome)
    requires Inv(policy, w) && Step(policy, w, CreateCommit(j, t, o)).Some?
    ensures Unique(Step(policy, w, CreateCommit(j, t, o)).value)
  {
    var w' := Step(policy, w, CreateCommit(j, t, o)).value;
    assert forall k :: k in w'.jobs && k != j ==> !Claim(w'.jobs[k]);
  }

  lemma ReserveKeepsUnique(policy: Policy, w: World, j: JobId, t: ThreadId, wasRunning: bool, o: Outcome)
    requires Waits(policy) && Inv(policy, w) && Step(policy, w, Reserve(j, t, wasRunning, o)).Some?
    ensures Unique(Step(policy, w, Reserve(j, t, wasRunning, o)).value)
  {
    var w' := Step(policy, w, Reserve(j, t, wasRunning, o)).value;
    assert w.threads == map[];
    assert Claim(w.jobs[j]);
    assert forall k :: k in w'.jobs && k != j ==> !Claim(w'.jobs[k]);
  }

  lemma TickKeepsUnique(policy: Policy, w: World, t: ThreadId, o: Outcome, flag: bool)
    requires Inv(policy, w) && Step(policy, w, Tick(t, o, flag)).Some?
    ensures Unique(Step(policy, w, Tick(t, o, flag)).value)
  {
    var turn := TickTurns(policy, w, t, o, flag);
    TurnKeepsUnique(policy, w, t, turn);
  }

  lemma ServiceKeepsUnique(policy: Policy, w: World, a: Action)
    requires Inv(policy, w) && Step(policy, w, a).Some? && (a.ServiceStart? || a.ServiceStop? || a.AppWrite?)
    ensures Unique(Step(policy, w, a).value)
  {
  }

  lemma OtherKeepsUnique(policy: Policy, w: World, a: Action)
    requires Inv(policy, w) && Step(policy, w, a).Some?
    requires a.Crash? || a.ViewRead? || a.CreatePreflight? || a.CreateAbort?
    ensures Unique(Step(policy, w, a).value)
  {
  }

  lemma StepKeepsUnique(policy: Policy, w: World, a: Action)
    requires Guarded(policy) && Inv(policy, w) && Step(policy, w, a).Some?
    ensures Unique(Step(policy, w, a).value)
  {
    match a {
      case ViewSave(v, o) => ViewSaveKeepsUnique(policy, w, v, o);
      case CreateAdmit(mode) => CreateAdmitKeepsUnique(policy, w, mode);
      case CreateCommit(j, t, o) => CreateCommitKeepsUnique(policy, w, j, t, o);
      case Reserve(j, t, wasRunning, o) => ReserveKeepsUnique(policy, w, j, t, wasRunning, o);
      case Tick(t, o, flag) => TickKeepsUnique(policy, w, t, o, flag);
      case ServiceStart => ServiceKeepsUnique(policy, w, a);
      case ServiceStop => ServiceKeepsUnique(policy, w, a);
      case AppWrite(_) => ServiceKeepsUnique(policy, w, a);
      case _ => OtherKeepsUnique(policy, w, a);
    }
  }

  lemma StepKeeps(policy: Policy, w: World, a: Action)
    requires Guarded(policy) && Inv(policy, w) && Step(policy, w, a).Some?
    ensures Inv(policy, Step(policy, w, a).value)
  {
    StepKeepsBase(policy, w, a);
    StepKeepsUnique(policy, w, a);
  }

  lemma {:induction false} RunKeeps(policy: Policy, w: World, actions: seq<Action>)
    requires Guarded(policy) && Inv(policy, w) && Run(policy, w, actions).Some?
    ensures Inv(policy, Run(policy, w, actions).value)
    decreases |actions|
  {
    if actions == [] {
    } else {
      StepKeeps(policy, w, actions[0]);
      RunKeeps(policy, Step(policy, w, actions[0]).value, actions[1..]);
    }
  }

  /** The invariant holds in every state the machine can reach. */
  lemma ReachableInv(policy: Policy, w: World)
    requires Guarded(policy) && Reachable(policy, w)
    ensures Inv(policy, w)
  {
    var actions: seq<Action> :| Run(policy, INITIAL, actions) == Some(w);
    RunKeeps(policy, INITIAL, actions);
  }
}
