/**
 The guarded SQLite-to-PostgreSQL migration of one InfiniDysk service, as a
 state machine over the persisted job table and the world the jobs change.

 A job runs in a thread, a rollback runs in the thread of the request that asked
 for it.  Every action below is one step between two points at which the code can
 be interrupted: a save, a config write, the marker, the file replacement, a
 process start or stop.  `Crash` may happen between any two of them.
 */
module MigrationModel {
  import opened Wrappers

  type JobId = nat
  type ThreadId = nat

  datatype Provider = Sqlite | Postgres
  datatype Mode = Rehearsal | Cutover

  datatype Status =
    | Queued | Running | Finalizing | Completed | RollingBack | Failed
    | FailedRolledBack | RolledBack | Interrupted | RollbackFailed

  /** `offered` is `rollback_available`, `checkpoint` is the verified cold backup,
      `worker` the id of the manager instance that owns the job while it is active. */
  datatype Job = Job(mode: Mode, status: Status, offered: bool, checkpoint: bool, worker: nat)

  /** The points of `_restore_sqlite_runtime`. */
  datatype RestorePoint =
    | StopService | ReplaceData | SetMemory | SaveConfig | RestoreEntries
    | ClearMarker | Restart | Restored

  /** The points of `_run_job`; the last five belong to its exception handler. */
  datatype RunPoint =
    | Start | Checking | CopyingConfig | Stopping | BackingUp | Checkpointing
    | Importing | SettingProvider | SavingProvider | Starting | SavingFinalizing
    | RecordingMarker | SavingCompleted | SavingAgain
    | HandlerEntry | HandlerEntries | HandlerRestore(at: RestorePoint)
    | HandlerStatus(restored: bool) | HandlerSavingAgain

  /** The points of `rollback_job` after its reservation. */
  datatype RollPoint =
    | Restoring(at: RestorePoint) | RollFailing | SavingRolledBack | RollSavingAgain

  /** What a rollback found when it was reserved (history, never read by a step). */
  datatype Entry = Entry(memory: Provider, saved: Provider, marker: Option<JobId>, sqlite: seq<nat>)

  /** A live thread with the in-memory `payload` it will save next.  `runtimeRestored` is the
      variable of that name until the handler: a rehearsal sets it before it imports. */
  datatype Thread =
    | RunThread(job: JobId, payload: Job, run: RunPoint, original: Provider,
                stopAttempted: bool, wasRunning: bool, runtimeRestored: bool)
    | RollThread(job: JobId, payload: Job, roll: RollPoint, mutated: bool,
                 wasRunning: bool, entry: Entry)

  datatype Service = Stopped | RunningOn(provider: Provider)

  /** Progress of a `create_job` call, which holds the admission lock throughout. */
  datatype Admission = Free | Admitted(mode: Mode) | Preflighted(mode: Mode)

  /** A `get_job` call, which holds no lock, between its read of a foreign job and its save. */
  datatype Viewing = Viewing(job: JobId, read: Job)

  datatype World = World(
    jobs: map<JobId, Job>,           // the job files
    latest: Option<JobId>,           // the job saved last
    threads: map<ThreadId, Thread>,
    viewing: map<nat, Viewing>,
    busy: bool,                      // the process is in `_active_processes`
    admission: Admission,
    worker: nat,                     // `_worker_id`, a new one after every restart
    memory: Provider,                // the provider in the live configuration
    saved: Provider,                 // the provider in the configuration file
    marker: Option<JobId>,           // the PostgreSQL authorization marker
    sqlite: seq<nat>,                // the database, as the writes it has absorbed
    service: Service,
    copied: set<JobId>,              // jobs whose backup of the configuration exists
    snapshots: map<JobId, seq<nat>>, // the SQLite backup of each job
    coldStop: map<JobId, seq<nat>>   // the database when the service was stopped (history)
  )

  const INITIAL := World(map[], None, map[], map[], false, Free, 0, Sqlite, Sqlite, None, [],
                         Stopped, {}, map[], map[])

  /** How a fallible operation ends: it succeeds, raises before it did anything,
      raises half way, or raises after its effect is durable. */
  datatype Outcome = Good | FailEarly | FailMid | FailLate

  datatype Action =
    | Crash
    | ViewRead(viewer: nat, job: JobId)
    | ViewSave(viewer: nat, outcome: Outcome)
    | ServiceStart
    | ServiceStop
    | AppWrite(value: nat)
    | CreateAdmit(mode: Mode)
    | CreatePreflight
    | CreateCommit(job: JobId, thread: ThreadId, outcome: Outcome)
    | CreateAbort
    | Reserve(job: JobId, thread: ThreadId, wasRunning: bool, outcome: Outcome)
    | Tick(thread: ThreadId, outcome: Outcome, flag: bool)

  /**
   Four guards the code does not have.  The code is `Policy(false, false, false, false)`.
   - `reserveWaits`: a rollback is reserved only while the process is not in
     `_active_processes`, the test `create_job` makes but `_reserve_rollback` does not;
   - `createWaits`: `create_job` makes that test before it looks for active jobs,
     and not only just before it writes the new job;
   - `preflightReadsSaved`: preflight also looks at the provider in the file;
   - `viewsRecheck`: `get_job` saves `interrupted` only over the record it has read.
   */
  datatype Policy = Policy(reserveWaits: bool, createWaits: bool, preflightReadsSaved: bool, viewsRecheck: bool)

  predicate Active(status: Status) {
    status.Queued? || status.Running? || status.Finalizing? || status.RollingBack?
  }

  /** An active job of a manager that is gone. */
  predicate Foreign(job: Job, worker: nat) {
    Active(job.status) && job.worker != worker
  }

  function AsInterrupted(job: Job): Job { job.(status := Interrupted) }

  /** What `get_job` returns for a stored job; if that differs, it saves it. */
  function Viewed(job: Job, worker: nat): Job {
    if Foreign(job, worker) then AsInterrupted(job) else job
  }

  /** The record that a `get_job` call is about to save is neither the stored one nor what that call
      would save for the stored one: it has changed since it was read. */
  predicate Overtaken(w: World, view: Viewing) {
    view.job in w.jobs && w.jobs[view.job] != view.read && w.jobs[view.job] != AsInterrupted(view.read)
  }

  /** The test of `has_active_infinidysk_job` on one job. */
  predicate Blocking(job: Job) {
    || Active(job.status)
    || job.status.RollbackFailed?
    || ((job.status.Failed? || job.status.Interrupted?) && job.offered)
  }

  /** A job that may still change the database: it blocks, or it is a completed
      cutover whose rollback is unused. */
  predicate Claim(job: Job) {
    Blocking(job) || (job.status.Completed? && job.offered)
  }

  predicate HasActive(w: World) {
    exists j :: j in w.jobs && Blocking(Viewed(w.jobs[j], w.worker))
  }

  function ViewAll(w: World): World {
    w.(jobs := map j | j in w.jobs :: Viewed(w.jobs[j], w.worker))
  }

  function Save(w: World, j: JobId, job: Job, o: Outcome): World {
    if o.Good? || o.FailLate? then w.(jobs := w.jobs[j := job], latest := Some(j)) else w
  }

  /** How one step of a thread ends: it goes on from a new point, it ends through
      its `finally`, which frees the process, or it ends outside its `try`, which
      leaves the process in the set. */
  datatype Turn =
    | GoOn(world: World, thread: Thread)
    | Ended(world: World)
    | Died(world: World)

  function Settle(turn: Turn, t: ThreadId): World {
    match turn
    case GoOn(w, th) => w.(threads := w.threads[t := th])
    case Ended(w) => w.(threads := w.threads - {t}, busy := false)
    case Died(w) => w.(threads := w.threads - {t})
  }

  datatype RestoreStep = RestoreStep(world: World, next: RestorePoint, failed: bool, mutated: bool)

  /** One step of `_restore_sqlite_runtime`. */
  function RestoreTick(w: World, j: JobId, payload: Job, wasRunning: bool, mutated: bool,
                       at: RestorePoint, o: Outcome): RestoreStep
  {
    var effect := o.Good? || o.FailLate?;
    match at
    case StopService =>
      RestoreStep(if effect then w.(service := Stopped) else w, ReplaceData, !o.Good?, mutated)
    case ReplaceData =>
      if !payload.checkpoint then
        RestoreStep(w, SetMemory, !o.Good?, mutated)
      else if j !in w.snapshots || o.FailEarly? then
        RestoreStep(w, SetMemory, true, mutated)
      else
        RestoreStep(if effect then w.(sqlite := w.snapshots[j]) else w, SetMemory, !o.Good?, true)
    case SetMemory =>
      RestoreStep(w.(memory := Sqlite), SaveConfig, !o.Good?, true)
    case SaveConfig =>
      RestoreStep(if effect then w.(saved := w.memory) else w, RestoreEntries, !o.Good?, mutated)
    case RestoreEntries =>
      RestoreStep(if effect then w.(saved := w.memory) else w, ClearMarker, !o.Good?, mutated)
    case ClearMarker =>
      RestoreStep(if effect then w.(marker := None) else w, Restart, !o.Good?, mutated)
    case Restart =>
      if !wasRunning then RestoreStep(w, Restored, false, mutated)
      else RestoreStep(if effect then w.(service := RunningOn(w.memory)) else w, Restored, !o.Good?, mutated)
    case Restored =>
      RestoreStep(w, Restored, false, mutated)
  }

  /** `_run_job` up to the moment it stops the service.  `flag` answers a question
      put to the environment: was the service running (at `Start`), does a
      configuration file exist (at `CopyingConfig`). */
  function PrepareTick(w: World, th: Thread, o: Outcome, flag: bool): Turn
    requires th.RunThread? && (th.run.Start? || th.run.Checking? || th.run.CopyingConfig?)
  {
    var j := th.job;
    var cutover := th.payload.mode.Cutover?;
    if th.run.Start? then
      var p := th.payload.(status := Running, worker := w.worker);
      var w' := Save(w, j, p, o);
      if o.Good? then GoOn(w', th.(payload := p, wasRunning := flag, run := Checking)) else Died(w')
    else if th.run.Checking? then
      if !o.Good? || (cutover && w.service.Stopped?) then GoOn(w, th.(run := HandlerEntry))
      else GoOn(w, th.(run := CopyingConfig, wasRunning := th.wasRunning || cutover))
    else
      var w' := if flag && (o.Good? || o.FailLate?) then w.(copied := w.copied + {j}) else w;
      if !o.Good? || (cutover && !flag) then GoOn(w', th.(run := HandlerEntry))
      else GoOn(w', th.(run := if cutover then Stopping else BackingUp))
  }

  /** `_run_job` from the cold stop to the persisted checkpoint. */
  function BackupTick(w: World, th: Thread, o: Outcome): Turn
    requires th.RunThread? && (th.run.Stopping? || th.run.BackingUp? || th.run.Checkpointing?)
  {
    var j := th.job;
    var effect := o.Good? || o.FailLate?;
    if th.run.Stopping? then
      var w' := if effect then w.(service := Stopped, coldStop := w.coldStop[j := w.sqlite]) else w;
      GoOn(w', th.(run := if o.Good? then BackingUp else HandlerEntry,
                     stopAttempted := th.stopAttempted || !o.FailEarly?))
    else if th.run.BackingUp? then
      var w' := if effect then w.(snapshots := w.snapshots[j := w.sqlite]) else w;
      if !o.Good? then GoOn(w', th.(run := HandlerEntry))
      else GoOn(w', th.(run := if th.payload.mode.Cutover? then Checkpointing else Importing))
    else if o.FailMid? then
      GoOn(w, th.(run := HandlerEntry))   // the backup did not validate
    else
      var p := th.payload.(offered := true, checkpoint := true);
      GoOn(Save(w, j, p, o), th.(payload := p, run := if o.Good? then Importing else HandlerEntry))
  }

  /** `_run_job` from the import to the restarted service. */
  function CutoverTick(w: World, th: Thread, o: Outcome): Turn
    requires th.RunThread?
    requires th.run.Importing? || th.run.SettingProvider? || th.run.SavingProvider? || th.run.Starting?
  {
    var cutover := th.payload.mode.Cutover?;
    var effect := o.Good? || o.FailLate?;
    var handler := th.(run := HandlerEntry);
    if th.run.Importing? then
      var w' := if cutover && effect then w.(saved := w.memory) else w;   // `_set_database_entries`
      var restored := th.runtimeRestored || (!cutover && !o.FailEarly?);
      GoOn(w', th.(runtimeRestored := restored,
                   run := if !o.Good? then HandlerEntry else if cutover then SettingProvider else SavingCompleted))
    else if th.run.SettingProvider? then
      GoOn(w.(memory := Postgres), if o.Good? then th.(run := SavingProvider) else handler)
    else if th.run.SavingProvider? then
      var w' := if effect then w.(saved := w.memory) else w;
      GoOn(w', if o.Good? then th.(run := Starting) else handler)
    else if !th.wasRunning then
      GoOn(w, handler)
    else
      var w' := if effect then w.(service := RunningOn(w.memory)) else w;
      GoOn(w', if o.Good? then th.(run := SavingFinalizing) else handler)
  }

  /** `_run_job` from the active `finalizing` record to its last save. */
  function CompleteTick(w: World, th: Thread, o: Outcome): Turn
    requires th.RunThread?
    requires th.run.SavingFinalizing? || th.run.RecordingMarker? || th.run.SavingCompleted? || th.run.SavingAgain?
  {
    var j := th.job;
    var handler := th.(run := HandlerEntry);
    if th.run.SavingFinalizing? then
      var p := th.payload.(status := Finalizing, offered := true);
      GoOn(Save(w, j, p, o), th.(payload := p, run := if o.Good? then RecordingMarker else HandlerEntry))
    else if th.run.RecordingMarker? then
      var w' := if o.Good? || o.FailLate? then w.(marker := Some(j)) else w;
      GoOn(w', if o.Good? then th.(run := SavingCompleted) else handler)
    else if th.run.SavingCompleted? then
      var p := th.payload.(status := Completed);
      GoOn(Save(w, j, p, o), th.(payload := p, run := if o.Good? then SavingAgain else HandlerEntry))
    else
      var w' := Save(w, j, th.payload, o);
      if o.Good? then Ended(w') else GoOn(w', handler)
  }

  /** The exception handler of `_run_job`.  `flag` at `HandlerStatus` says whether
      the backup still validates.  A rehearsal that had set `runtimeRestored` counts as
      rolled back even if the handler then fails to restore the database entries. */
  function HandlerTick(w: World, th: Thread, o: Outcome, flag: bool): Turn
    requires th.RunThread?
    requires th.run.HandlerEntry? || th.run.HandlerEntries? || th.run.HandlerRestore?
          || th.run.HandlerStatus? || th.run.HandlerSavingAgain?
  {
    var j := th.job;
    var p := th.payload;
    var cutover := p.mode.Cutover?;
    match th.run
    case HandlerEntry =>
      if j !in w.copied then GoOn(w, th.(run := HandlerStatus(false)))
      else
        var p' := p.(status := RollingBack);
        var w' := Save(w, j, p', o);
        if !o.Good? then Ended(w')
        else if !cutover then GoOn(w', th.(payload := p', run := HandlerEntries))
        else if !th.stopAttempted && !p.checkpoint then
          GoOn(w', th.(payload := p', run := HandlerStatus(true)))
        else
          GoOn(w'.(memory := th.original), th.(payload := p', run := HandlerRestore(StopService)))
    case HandlerEntries =>
      var w' := if o.Good? || o.FailLate? then w.(saved := w.memory) else w;
      GoOn(w', th.(run := HandlerStatus(o.Good? || th.runtimeRestored)))
    case HandlerRestore(at) =>
      if at.Restored? then GoOn(w, th.(run := HandlerStatus(true)))
      else
        var s := RestoreTick(w, j, p, th.wasRunning, true, at, o);
        GoOn(s.world, th.(run := if s.failed then HandlerStatus(false) else HandlerRestore(s.next)))
    case HandlerStatus(restored) =>
      var offered := cutover && !restored && p.checkpoint && j in w.copied && j in w.snapshots && flag;
      var p' := p.(status := if restored then FailedRolledBack else Failed, offered := offered);
      var w' := Save(w, j, p', o);
      if o.Good? then GoOn(w', th.(payload := p', run := HandlerSavingAgain)) else Ended(w')
    case _ =>
      Ended(Save(w, j, p, o))
  }

  /** One step of `_run_job`. */
  function RunTick(w: World, th: Thread, o: Outcome, flag: bool): Turn
    requires th.RunThread?
  {
    match th.run
    case Start => PrepareTick(w, th, o, flag)
    case Checking => PrepareTick(w, th, o, flag)
    case CopyingConfig => PrepareTick(w, th, o, flag)
    case Stopping => BackupTick(w, th, o)
    case BackingUp => BackupTick(w, th, o)
    case Checkpointing => BackupTick(w, th, o)
    case Importing => CutoverTick(w, th, o)
    case SettingProvider => CutoverTick(w, th, o)
    case SavingProvider => CutoverTick(w, th, o)
    case Starting => CutoverTick(w, th, o)
    case SavingFinalizing => CompleteTick(w, th, o)
    case RecordingMarker => CompleteTick(w, th, o)
    case SavingCompleted => CompleteTick(w, th, o)
    case SavingAgain => CompleteTick(w, th, o)
    case _ => HandlerTick(w, th, o, flag)
  }

  /** One step of `rollback_job` after the reservation. */
  function RollTick(w: World, th: Thread, o: Outcome): Turn
    requires th.RollThread?
  {
    var j := th.job;
    var p := th.payload;
    match th.roll
    case Restoring(at) =>
      if at.Restored? then GoOn(w, th.(roll := SavingRolledBack))
      else
        var s := RestoreTick(w, j, p, th.wasRunning, th.mutated, at, o);
        GoOn(s.world, th.(mutated := s.mutated, roll := if s.failed then RollFailing else Restoring(s.next)))
    case RollFailing =>
      Ended(Save(w, j, p.(status := RollbackFailed, offered := !th.mutated), o))
    case SavingRolledBack =>
      var p' := p.(status := RolledBack, offered := false);
      var w' := Save(w, j, p', o);
      if o.Good? then GoOn(w', th.(payload := p', roll := RollSavingAgain)) else Ended(w')
    case RollSavingAgain =>
      Ended(Save(w, j, p, o))
  }

  /** The tests of `_reserve_rollback` on the job as `get_job` returns it. */
  predicate Reservable(job: Job) {
    && !Active(job.status)
    && job.mode.Cutover? && job.offered && job.checkpoint
    && (job.status.Completed? || job.status.Failed? || job.status.Interrupted? || job.status.RollbackFailed?)
  }

  predicate RehearsalDone(w: World) {
    exists r :: r in w.jobs && w.jobs[r].mode.Rehearsal? && w.jobs[r].status.Completed?
  }

  /** `get_job` up to the decision that the record is that of an interrupted job. */
  function ReadView(w: World, v: nat, j: JobId): Option<World> {
    if v in w.viewing || j !in w.jobs then None
    else if !Foreign(w.jobs[j], w.worker) then Some(w)
    else Some(w.(viewing := w.viewing[v := Viewing(j, w.jobs[j])]))
  }

  /** The save of that record. */
  function SaveView(policy: Policy, w: World, v: nat, o: Outcome): Option<World> {
    if v !in w.viewing then None
    else
      var view := w.viewing[v];
      var w' := w.(viewing := w.viewing - {v});
      if policy.viewsRecheck && Overtaken(w, view) then Some(w')
      else Some(Save(w', view.job, AsInterrupted(view.read), o))
  }

  /** The end of `create_job`: the last tests, the record and its thread. */
  function Commit(w: World, j: JobId, t: ThreadId, o: Outcome): Option<World> {
    if !w.admission.Preflighted? || w.busy || j in w.jobs || t in w.threads then None
    else if w.latest.Some? && w.latest.value in w.jobs
         && Active(Viewed(w.jobs[w.latest.value], w.worker).status) then None
    else
      var job := Job(w.admission.mode, Queued, false, false, w.worker);
      var w' := Save(w, j, job, o).(admission := Free, busy := true);
      if o.Good? then Some(Settle(GoOn(w', RunThread(j, job, Start, w.memory, false, false, false)), t)) else Some(w')
  }

  /** `_reserve_rollback` */
  function ReserveRollback(w: World, j: JobId, t: ThreadId, wasRunning: bool, o: Outcome): Option<World> {
    if !w.admission.Free? || j !in w.jobs || t in w.threads then None
    else
      var job := Viewed(w.jobs[j], w.worker);
      if !Reservable(job) || j !in w.copied || j !in w.snapshots then None
      else
        var p := job.(status := RollingBack, worker := w.worker);
        var w' := Save(w.(jobs := w.jobs[j := job]), j, p, o);
        if o.Good? then
          var entry := Entry(w.memory, w.saved, w.marker, w.sqlite);
          var th := RollThread(j, p, Restoring(StopService), false, wasRunning, entry);
          Some(Settle(GoOn(w'.(busy := true), th), t))
        else Some(w')
  }

  /** One action; `None` when the action is not possible in this state. */
  function Step(policy: Policy, w: World, a: Action): Option<World> {
    match a
    case Crash =>
      Some(w.(threads := map[], viewing := map[], busy := false, admission := Free, worker := w.worker + 1,
              memory := w.saved, service := Stopped))
    case ViewRead(v, j) => ReadView(w, v, j)
    case ViewSave(v, o) => SaveView(policy, w, v, o)
    case ServiceStart =>
      if HasActive(w) then None else Some(w.(service := RunningOn(w.memory)))
    case ServiceStop =>
      Some(w.(service := Stopped))
    case AppWrite(x) =>
      if w.service == RunningOn(Sqlite) then Some(w.(sqlite := w.sqlite + [x])) else None
    case CreateAdmit(mode) =>
      if !w.admission.Free? || HasActive(w) || (policy.createWaits && w.busy) then None
      else Some(ViewAll(w).(admission := Admitted(mode)))
    case CreatePreflight =>
      if !w.admission.Admitted? || w.memory.Postgres? then None
      else if policy.preflightReadsSaved && w.saved.Postgres? then None
      else if w.admission.mode.Cutover? && (w.service.Stopped? || !RehearsalDone(w)) then None
      else Some(w.(admission := Preflighted(w.admission.mode)))
    case CreateCommit(j, t, o) => Commit(w, j, t, o)
    case CreateAbort =>
      Some(w.(admission := Free))
    case Reserve(j, t, wasRunning, o) =>
      if policy.reserveWaits && w.busy then None else ReserveRollback(w, j, t, wasRunning, o)
    case Tick(t, o, flag) =>
      if t !in w.threads then None
      else if w.threads[t].RunThread? then Some(Settle(RunTick(w, w.threads[t], o, flag), t))
      else Some(Settle(RollTick(w, w.threads[t], o), t))
  }

  /** The world after a whole sequence of actions. */
  function Run(policy: Policy, w: World, actions: seq<Action>): Option<World>
    decreases |actions|
  {
    if actions == [] then Some(w)
    else match Step(policy, w, actions[0])
      case None => None
      case Some(w') => Run(policy, w', actions[1..])
  }

  ghost predicate Reachable(policy: Policy, w: World) {
    exists actions: seq<Action> :: Run(policy, INITIAL, actions) == Some(w)
  }
}
