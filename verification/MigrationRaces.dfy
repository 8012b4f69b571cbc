/**
 What goes wrong when a rollback is reserved while a thread is still at work: each of the
 recovery guarantees has a run that breaks it.  The last section says of each guarantee exactly
 which guards it needs.
 */
module MigrationRaces {
  import opened Wrappers
  import opened MigrationModel
  import opened MigrationInvariant
  import opened MigrationTheorems
  import opened MigrationGuards
  import opened MigrationViews

  const CODE := Policy(false, false, false, false)

  // ---- the job's thread saves once more while the rollback is at work ----

  /** The last save of the job's thread has overwritten the rollback's record. */
  function Resaved(): World {
    Reserved().(jobs := Reserved().jobs[1 := CutoverJob(Completed, true)],
      threads := Reserved().threads - {0}, busy := false)
  }

  lemma LastSaveOverwrites(policy: Policy)
    requires !policy.reserveWaits
    ensures Reachable(policy, Resaved())
  {
    RollbackReserved(policy);
    var w := CompleteTicks(policy, 0, Reserved(), Good);
    assert w.jobs == Resaved().jobs && w.threads == Resaved().threads;
    assert w == Resaved();
  }

  lemma OfferOverwritten(policy: Policy)
    requires !policy.reserveWaits
    ensures exists w :: Reachable(policy, w) && !RunningRollbackStillOffers(w)
  {
    LastSaveOverwrites(policy);
    assert 1 in Resaved().threads && !Resaved().jobs[1].status.RollingBack?;
  }

  /** The rollback has taken `n` steps, and the service, which nothing blocks any more, is started. */
  lemma ServiceStarted(policy: Policy, n: nat) returns (before: World, w: World)
    requires !policy.reserveWaits && 6 <= n <= 8
    ensures Reachable(policy, w) && AlongRestore(Resaved(), before, 1, n)
    ensures w == before.(service := RunningOn(Sqlite))
  {
    LastSaveOverwrites(policy);
    assert AlongRestore(Resaved(), Resaved(), 1, 0);
    RestoreReaches(policy, Resaved(), Resaved(), 1, 0, n);
    before :| AlongRestore(Resaved(), before, 1, n) && Reachable(policy, before);
    assert !HasActive(before);
    w := Go(policy, before, ServiceStart);
  }

  lemma RestartSeesService(policy: Policy)
    requires !policy.reserveWaits
    ensures exists w :: Reachable(policy, w) && !RestartSeesColdStop(w)
  {
    var before, w := ServiceStarted(policy, 6);
    assert Restarting(w.threads[1]);
  }

  /** A step of a reachable world. */
  ghost predicate Happens(policy: Policy, w: World, a: Action, w': World) {
    Reachable(policy, w) && Step(policy, w, a) == Some(w')
  }

  lemma RecordsAnyway(before: World) returns (w': World)
    requires AlongRestore(Resaved(), before, 1, 8)
    ensures var w := before.(service := RunningOn(Sqlite));
      && Step(CODE, w, Tick(1, Good, true)) == Some(w')
      && !RollbackRestores(w, Tick(1, Good, true), w')
  {
    var w := before.(service := RunningOn(Sqlite));
    w' := Settle(RollTick(w, w.threads[1], Good), 1);
    assert Becomes(w, w', 1, RolledBack);
    assert !RestoredFrom(w', 1, false);
  }

  lemma RecordedWhileRunning(policy: Policy)
    requires !policy.reserveWaits
    ensures exists w, a, w' :: Happens(policy, w, a, w') && !RollbackRestores(w, a, w')
  {
    var before, w := ServiceStarted(policy, 8);
    var w' := RecordsAnyway(before);
    assert Happens(policy, w, Tick(1, Good, true), w');
  }

  // ---- the job's thread unwinds while the rollback is at work ----

  /** The rollback has failed before it changed anything. */
  function Refused(run: RunPoint): World {
    Reserved().(threads := map[
      0 := RunThread(1, CutoverJob(Completed, true), run, Sqlite, true, true, false),
      1 := RollThread(1, CutoverJob(RollingBack, true), RollFailing,
        false, false, Entry(Postgres, Postgres, Some(1), []))])
  }

  lemma RestoreRefused1(policy: Policy)
    requires !policy.reserveWaits
    ensures Reachable(policy, Refused(SavingAgain))
  {
    RollbackReserved(policy);
    var w := Go(policy, Reserved(), Tick(1, FailEarly, true));
    assert w.threads == Refused(SavingAgain).threads;
    assert w == Refused(SavingAgain);
  }

  lemma RollbackRefused(policy: Policy)
    requires !policy.reserveWaits
    ensures Reachable(policy, Refused(HandlerEntry))
  {
    RestoreRefused1(policy);
    var w := CompleteTicks(policy, 0, Refused(SavingAgain), FailEarly);
    assert w.threads == Refused(HandlerEntry).threads;
    assert w == Refused(HandlerEntry);
  }

  lemma OfferedAfterChange(policy: Policy)
    requires !policy.reserveWaits
    ensures exists w :: Reachable(policy, w) && !FailedRollbackWithdrawsOffer(w)
  {
    RollbackRefused(policy);
    var w := HandlerTicks(policy, 0, Refused(HandlerEntry), Good, true);
    assert w.threads[1] == Refused(HandlerEntry).threads[1] && w.memory.Sqlite?;
    assert !WithdrawsOffer(w, 1);
  }

  // ---- the job's thread unwinds while the next job is at work ----

  function NextJob(status: Status, checkpoint: bool): Job {
    Job(Cutover, status, checkpoint, checkpoint, 0)
  }

  /** After the rollback of job 1 its thread still lives, and a second cutover runs beside it. */
  function Duel(stored: Job, payload: Job, run: RunPoint, next: Job, point: RunPoint): World {
    var stopped := !point.Start? && !point.Checking? && !point.CopyingConfig? && !point.Stopping?;
    World(
      jobs := map[0 := RehearsalJob(Completed), 1 := stored, 2 := next], latest := Some(2),
      threads := map[0 := RunThread(1, payload, run, Sqlite, true, true, false),
                     2 := RunThread(2, next, point, Sqlite, stopped, !point.Start?, false)],
      viewing := map[], busy := true, admission := Free, worker := 0, memory := Sqlite, saved := Sqlite,
      marker := None, sqlite := [], service := RunningOn(Sqlite),
      copied := {0, 1}, snapshots := map[0 := [], 1 := []], coldStop := map[1 := []])
  }

  const RolledBackJob: Job := Job(Cutover, RolledBack, false, true, 0)

  /** Job 1 is rolled back and its thread has one save left. */
  function Opening(next: Job, point: RunPoint): World {
    Duel(RolledBackJob, CutoverJob(Completed, true), SavingAgain, next, point)
  }

  lemma ServiceRestarted(policy: Policy)
    requires !policy.reserveWaits
    ensures Reachable(policy, Undone().(service := RunningOn(Sqlite)))
  {
    RollbackUndoes(policy);
    assert !HasActive(Undone());
    var w := Go(policy, Undone(), ServiceStart);
    assert w == Undone().(service := RunningOn(Sqlite));
  }

  lemma NextCreated(policy: Policy)
    requires !policy.reserveWaits
    ensures Reachable(policy, Created(Undone().(service := RunningOn(Sqlite)), Cutover, 2, 2))
  {
    ServiceRestarted(policy);
    var w := Undone().(service := RunningOn(Sqlite));
    assert w.jobs[0] == RehearsalJob(Completed);
    CreateRuns(policy, w, Cutover, 2, 2);
  }

  lemma NextStarts(policy: Policy)
    requires !policy.reserveWaits
    ensures Reachable(policy, Opening(NextJob(Queued, false), Start))
  {
    NextCreated(policy);
    var w := Created(Undone().(service := RunningOn(Sqlite)), Cutover, 2, 2);
    assert w.threads == Opening(NextJob(Queued, false), Start).threads;
    assert w == Opening(NextJob(Queued, false), Start);
  }

  lemma NextRuns(policy: Policy)
    requires !policy.reserveWaits
    ensures Reachable(policy, Opening(NextJob(Running, false), Checking))
  {
    NextStarts(policy);
    var w := PrepareTicks(policy, 2, Opening(NextJob(Queued, false), Start), Good);
    assert w.threads == Opening(NextJob(Running, false), Checking).threads;
    assert w == Opening(NextJob(Running, false), Checking);
  }

  lemma NextChecks(policy: Policy)
    requires !policy.reserveWaits
    ensures Reachable(policy, Opening(NextJob(Running, false), CopyingConfig))
  {
    NextRuns(policy);
    var w := PrepareTicks(policy, 2, Opening(NextJob(Running, false), Checking), Good);
    assert w.threads == Opening(NextJob(Running, false), CopyingConfig).threads;
    assert w == Opening(NextJob(Running, false), CopyingConfig);
  }

  lemma NextCopies(policy: Policy)
    requires !policy.reserveWaits
    ensures Reachable(policy, Opening(NextJob(Running, false), Stopping).(copied := {0, 1, 2}))
  {
    NextChecks(policy);
    var w := PrepareTicks(policy, 2, Opening(NextJob(Running, false), CopyingConfig), Good);
    assert w.threads == Opening(NextJob(Running, false), Stopping).threads;
    assert w == Opening(NextJob(Running, false), Stopping).(copied := {0, 1, 2});
  }

  /** The next cutover has stopped the service and not yet backed up the database. */
  function ColdStopped(stored: Job, payload: Job, run: RunPoint, service: Service): World {
    Duel(stored, payload, run, NextJob(Running, false), BackingUp).(
      service := service, copied := {0, 1, 2}, coldStop := map[1 := [], 2 := []])
  }

  lemma NextStops(policy: Policy)
    requires !policy.reserveWaits
    ensures Reachable(policy, ColdStopped(RolledBackJob, CutoverJob(Completed, true), SavingAgain, Stopped))
  {
    NextCopies(policy);
    var running := Opening(NextJob(Running, false), Stopping).(copied := {0, 1, 2});
    var w := BackupTicks(policy, 2, running, Good);
    StopsForBackup(running);
    var cold := ColdStopped(RolledBackJob, CutoverJob(Completed, true), SavingAgain, Stopped);
    assert w.threads == cold.threads && w.coldStop == cold.coldStop;
    assert w == cold;
  }

  /** A cutover stops the service. */
  lemma StopsForBackup(w: World)
    requires 2 in w.threads && w.threads[2].RunThread? && w.threads[2].run.Stopping?
    ensures var th := w.threads[2];
      Settle(BackupTick(w, th, Good), 2) ==
        w.(service := Stopped, coldStop := w.coldStop[th.job := w.sqlite],
           threads := w.threads[2 := th.(run := BackingUp, stopAttempted := true)])
  {
  }

  /** The first job's thread is `k` steps into the restore of its handler. */
  function Unwinding1(k: nat): World {
    ColdStopped(CutoverJob(RollingBack, true), CutoverJob(RollingBack, true), HandlerRestore(PointAt(k)),
                if k <= 6 then Stopped else RunningOn(Sqlite)).(latest := Some(1))
  }

  lemma HandlerEntered(policy: Policy)
    requires !policy.reserveWaits
    ensures Reachable(policy, ColdStopped(RolledBackJob, CutoverJob(Completed, true), HandlerEntry, Stopped))
  {
    NextStops(policy);
    var stopped := ColdStopped(RolledBackJob, CutoverJob(Completed, true), SavingAgain, Stopped);
    var w := CompleteTicks(policy, 0, stopped, FailEarly);
    var entered := ColdStopped(RolledBackJob, CutoverJob(Completed, true), HandlerEntry, Stopped);
    assert w.threads == entered.threads;
    assert w == entered;
  }

  lemma UnwindingBegins(policy: Policy)
    requires !policy.reserveWaits
    ensures Reachable(policy, Unwinding1(0))
  {
    HandlerEntered(policy);
    var entered := ColdStopped(RolledBackJob, CutoverJob(Completed, true), HandlerEntry, Stopped);
    var w := HandlerTicks(policy, 0, entered, Good, true);
    HandlerEnters(entered);
    assert w.threads == Unwinding1(0).threads && w.jobs == Unwinding1(0).jobs;
    assert w == Unwinding1(0);
  }

  /** The handler of a cutover that had stopped the service begins its restore. */
  lemma HandlerEnters(w: World)
    requires 0 in w.threads && w.threads[0].RunThread? && w.threads[0].run.HandlerEntry?
    requires w.threads[0].job in w.copied && w.threads[0].payload.mode.Cutover? && w.threads[0].stopAttempted
    ensures var th := w.threads[0];
      var p := th.payload.(status := RollingBack);
      Settle(HandlerTick(w, th, Good, true), 0) ==
        w.(jobs := w.jobs[th.job := p], latest := Some(th.job), memory := th.original,
           threads := w.threads[0 := th.(payload := p, run := HandlerRestore(StopService))])
  {
  }

  /** One step of a restore that has nothing to change but the service. */
  lemma HandlerRestores(w: World, k: nat)
    requires k < 7 && 0 in w.threads && w.threads[0].RunThread? && w.threads[0].run == HandlerRestore(PointAt(k))
    requires w.threads[0].wasRunning && w.threads[0].job in w.snapshots && w.snapshots[w.threads[0].job] == w.sqlite
    requires OnlySqlite(w)
    ensures Settle(HandlerTick(w, w.threads[0], Good, true), 0) ==
      w.(service := if k == 0 then Stopped else if k == 6 then RunningOn(Sqlite) else w.service,
         threads := w.threads[0 := w.threads[0].(run := HandlerRestore(PointAt(k + 1)))])
  {
  }

  predicate OnlySqlite(w: World) {
    w.memory.Sqlite? && w.saved.Sqlite? && w.marker.None?
  }

  lemma UnwindingStep(k: nat)
    requires k < 7
    ensures Settle(HandlerTick(Unwinding1(k), Unwinding1(k).threads[0], Good, true), 0) == Unwinding1(k + 1)
  {
    var w := Unwinding1(k);
    assert OnlySqlite(w) && w.snapshots[1] == w.sqlite;
    HandlerRestores(w, k);
    assert w.threads[0 := w.threads[0].(run := HandlerRestore(PointAt(k + 1)))] == Unwinding1(k + 1).threads;
  }

  lemma {:induction false} UnwindingReaches(policy: Policy, k: nat)
    requires !policy.reserveWaits && k <= 7
    ensures Reachable(policy, Unwinding1(k))
  {
    if k == 0 {
      UnwindingBegins(policy);
    } else {
      UnwindingReaches(policy, k - 1);
      var w := HandlerTicks(policy, 0, Unwinding1(k - 1), Good, true);
      UnwindingStep(k - 1);
    }
  }

  /** The handler has restarted the service, which has written to the database; the next cutover
      goes on from there. */
  function Written(next: Job, point: RunPoint): World {
    var job := CutoverJob(RollingBack, true);
    Duel(job, job, HandlerStatus(true), next, point).(
      latest := Some(1), copied := {0, 1, 2}, coldStop := map[1 := [], 2 := []], sqlite := [7])
  }

  function BackedUp(next: Job, point: RunPoint): World {
    Written(next, point).(snapshots := map[0 := [], 1 := [], 2 := [7]])
  }

  lemma HandlerEnds(w: World)
    requires 0 in w.threads && w.threads[0].RunThread? && w.threads[0].run == HandlerRestore(Restored)
    ensures Settle(HandlerTick(w, w.threads[0], Good, true), 0) ==
      w.(threads := w.threads[0 := w.threads[0].(run := HandlerStatus(true))])
  {
  }

  lemma UnwindingEnds(policy: Policy)
    requires !policy.reserveWaits
    ensures Reachable(policy, Written(NextJob(Running, false), BackingUp).(sqlite := []))
  {
    UnwindingReaches(policy, 7);
    var w := HandlerTicks(policy, 0, Unwinding1(7), Good, true);
    HandlerEnds(Unwinding1(7));
    UnwoundIsWritten();
  }

  lemma UnwoundIsWritten()
    ensures var w := Unwinding1(7);
      w.(threads := w.threads[0 := w.threads[0].(run := HandlerStatus(true))])
        == Written(NextJob(Running, false), BackingUp).(sqlite := [])
  {
    var w := Unwinding1(7);
    assert w.threads[0 := w.threads[0].(run := HandlerStatus(true))]
        == Written(NextJob(Running, false), BackingUp).threads;
  }

  lemma WrittenAfterStop(policy: Policy)
    requires !policy.reserveWaits
    ensures Reachable(policy, Written(NextJob(Running, false), BackingUp))
  {
    UnwindingEnds(policy);
    var w := Go(policy, Written(NextJob(Running, false), BackingUp).(sqlite := []), AppWrite(7));
    assert w == Written(NextJob(Running, false), BackingUp);
  }

  lemma NextBacksUp(policy: Policy)
    requires !policy.reserveWaits
    ensures Reachable(policy, BackedUp(NextJob(Running, false), Checkpointing))
  {
    WrittenAfterStop(policy);
    var w := BackupTicks(policy, 2, Written(NextJob(Running, false), BackingUp), Good);
    assert w.threads == BackedUp(NextJob(Running, false), Checkpointing).threads;
    assert w.snapshots == BackedUp(NextJob(Running, false), Checkpointing).snapshots;
    assert w == BackedUp(NextJob(Running, false), Checkpointing);
  }

  lemma NextCheckpoints(policy: Policy)
    requires !policy.reserveWaits
    ensures Reachable(policy, BackedUp(NextJob(Running, true), Importing).(latest := Some(2)))
  {
    NextBacksUp(policy);
    var w := BackupTicks(policy, 2, BackedUp(NextJob(Running, false), Checkpointing), Good);
    var checkpointed := BackedUp(NextJob(Running, true), Importing).(latest := Some(2));
    assert w.threads == checkpointed.threads && w.jobs == checkpointed.jobs;
    assert w == checkpointed;
  }

  lemma OfferedWithoutColdBackup(policy: Policy)
    requires !policy.reserveWaits
    ensures exists w :: Reachable(policy, w) && !OffersBacked(w)
  {
    NextCheckpoints(policy);
    var w := BackedUp(NextJob(Running, true), Importing).(latest := Some(2));
    assert w.jobs[2].offered && !Backed(w, 2);
  }

  lemma CrashLosesColdStop(policy: Policy)
    requires !policy.reserveWaits
    ensures exists w :: Reachable(policy, w) && !CrashRecovers(policy, w)
  {
    NextCheckpoints(policy);
    var w := BackedUp(NextJob(Running, true), Importing).(latest := Some(2));
    RollbackReaches(policy, Crashed(w), 2, 0, false);
    RunAfterCrash(policy, w, 2, 0, false);
    assert !RecoversAfterCrash(policy, w, 2, 0, false);
  }

  /** The next cutover has put the configuration on PostgreSQL, in memory and on disk. */
  function Switched2(): World {
    BackedUp(NextJob(Running, true), Starting).(latest := Some(2), memory := Postgres, saved := Postgres)
  }

  lemma NextImports(policy: Policy)
    requires !policy.reserveWaits
    ensures Reachable(policy, BackedUp(NextJob(Running, true), SettingProvider).(latest := Some(2)))
  {
    NextCheckpoints(policy);
    var w := CutoverTicks(policy, 2, BackedUp(NextJob(Running, true), Importing).(latest := Some(2)), Good);
    assert w.threads == BackedUp(NextJob(Running, true), SettingProvider).threads;
    assert w == BackedUp(NextJob(Running, true), SettingProvider).(latest := Some(2));
  }

  lemma NextSets(policy: Policy)
    requires !policy.reserveWaits
    ensures Reachable(policy, BackedUp(NextJob(Running, true), SavingProvider).(latest := Some(2), memory := Postgres))
  {
    NextImports(policy);
    var w := CutoverTicks(policy, 2, BackedUp(NextJob(Running, true), SettingProvider).(latest := Some(2)), Good);
    assert w.threads == BackedUp(NextJob(Running, true), SavingProvider).threads;
    assert w == BackedUp(NextJob(Running, true), SavingProvider).(latest := Some(2), memory := Postgres);
  }

  lemma NextSwitches(policy: Policy)
    requires !policy.reserveWaits
    ensures Reachable(policy, Switched2())
  {
    NextSets(policy);
    var w := CutoverTicks(policy, 2,
      BackedUp(NextJob(Running, true), SavingProvider).(latest := Some(2), memory := Postgres), Good);
    assert w.threads == Switched2().threads;
    assert w == Switched2();
  }

  lemma RecordsOnPostgres()
    ensures var w := Switched2();
      var w' := Settle(HandlerTick(w, w.threads[0], Good, true), 0);
      Becomes(w, w', 1, FailedRolledBack) && w'.memory.Postgres? && w'.saved.Postgres?
  {
  }

  lemma RecordedOnPostgres(policy: Policy)
    requires !policy.reserveWaits
    ensures exists w, a, w' ::
      Happens(policy, w, a, w') && !AutomaticRollbackRestores(w, a, w') && !AutomaticRollbackSaved(w, w')
  {
    RecordsOnPostgres();
    NextSwitches(policy);
    var w, a := Switched2(), Tick(0, Good, true);
    var w' := Settle(HandlerTick(w, w.threads[0], Good, true), 0);
    assert Happens(policy, w, a, w');
  }

  // ---- each guarantee holds exactly when its guards do ----

  lemma OffersBackedIffRollbacksWait(policy: Policy)
    ensures (forall w :: Reachable(policy, w) ==> OffersBacked(w)) <==> policy.reserveWaits
  {
    if policy.reserveWaits {
      forall w | Reachable(policy, w) ensures OffersBacked(w) {
        ReachableBase(policy, w);
        BaseOffersBacked(policy, w);
      }
    } else {
      OfferedWithoutColdBackup(policy);
    }
  }

  lemma RestartSeesColdStopIffRollbacksWait(policy: Policy)
    ensures (forall w :: Reachable(policy, w) ==> RestartSeesColdStop(w)) <==> policy.reserveWaits
  {
    if policy.reserveWaits {
      forall w | Reachable(policy, w) ensures RestartSeesColdStop(w) {
        ReachableBase(policy, w);
        BaseRestartSeesColdStop(policy, w);
      }
    } else {
      RestartSeesService(policy);
    }
  }

  lemma FailedRollbackWithdrawsOfferIffRollbacksWait(policy: Policy)
    ensures (forall w :: Reachable(policy, w) ==> FailedRollbackWithdrawsOffer(w)) <==> policy.reserveWaits
  {
    if policy.reserveWaits {
      forall w | Reachable(policy, w) ensures FailedRollbackWithdrawsOffer(w) {
        ReachableBase(policy, w);
        BaseFailedRollbackWithdrawsOffer(policy, w);
      }
    } else {
      OfferedAfterChange(policy);
    }
  }

  /** At most one claim, in every reachable state, exactly when both requests wait and `get_job` saves
      no record that has changed. */
  lemma ClaimsUniqueIffGuarded(policy: Policy)
    ensures (forall w :: Reachable(policy, w) ==> AtMostOneClaim(w)) <==> Guarded(policy)
  {
    if Guarded(policy) {
      forall w | Reachable(policy, w) ensures AtMostOneClaim(w) {
        ClaimsStayUnique(policy, w);
      }
    } else if !policy.reserveWaits {
      ReserveMustWait(policy);
    } else if !policy.createWaits {
      CreateMustWait(policy);
    } else {
      ViewsMustRecheck(policy);
    }
  }

  lemma RunningRollbackStillOffersIffGuarded(policy: Policy)
    ensures (forall w :: Reachable(policy, w) ==> RunningRollbackStillOffers(w))
       <==> policy.reserveWaits && policy.viewsRecheck
  {
    if policy.reserveWaits && policy.viewsRecheck {
      forall w | Reachable(policy, w) ensures RunningRollbackStillOffers(w) {
        ReachableBase(policy, w);
        BaseRunningRollbackStillOffers(policy, w);
      }
    } else if !policy.reserveWaits {
      OfferOverwritten(policy);
    } else {
      RecordOverwritten(policy);
    }
  }

  lemma LastSaveRevives(policy: Policy)
    requires !policy.reserveWaits
    ensures exists w, a, w' :: Happens(policy, w, a, w') && !WithdrawnOffersStay(w, w')
  {
    RollbackUndoes(policy);
    var w := Undone();
    var w' := CompleteTicks(policy, 0, w, Good);
    assert Happens(policy, w, Tick(0, Good, true), w') && w.jobs[1].checkpoint && w'.jobs[1].offered;
  }

  /** An offer that was used or withdrawn never comes back exactly when reservations wait and `get_job`
      saves no record that has changed. */
  lemma WithdrawnOffersStayIffGuarded(policy: Policy)
    ensures (forall w, a, w' :: Happens(policy, w, a, w') ==> WithdrawnOffersStay(w, w'))
       <==> policy.reserveWaits && policy.viewsRecheck
  {
    if policy.reserveWaits && policy.viewsRecheck {
      forall w, a, w' | Happens(policy, w, a, w') ensures WithdrawnOffersStay(w, w') {
        ReachableBase(policy, w);
        BaseWithdrawnOffersStay(policy, w, a);
      }
    } else if !policy.reserveWaits {
      LastSaveRevives(policy);
    } else {
      UsedOfferReturns(policy);
      var w, a, w' :| Reachable(policy, w) && Step(policy, w, a) == Some(w') && !WithdrawnOffersStay(w, w');
      assert Happens(policy, w, a, w');
    }
  }

  lemma CrashRecoversIffRollbacksWait(policy: Policy)
    ensures (forall w :: Reachable(policy, w) ==> CrashRecovers(policy, w)) <==> policy.reserveWaits
  {
    if policy.reserveWaits {
      forall w | Reachable(policy, w) ensures CrashRecovers(policy, w) {
        ReachableBase(policy, w);
        BaseCrashRecovers(policy, policy, w);
      }
    } else {
      CrashLosesColdStop(policy);
    }
  }

  lemma RollbackRestoresIffRollbacksWait(policy: Policy)
    ensures (forall w, a, w' :: Happens(policy, w, a, w') ==> RollbackRestores(w, a, w')) <==> policy.reserveWaits
  {
    if policy.reserveWaits {
      forall w, a, w' | Happens(policy, w, a, w') ensures RollbackRestores(w, a, w') {
        ReachableBase(policy, w);
        BaseRollbackRestores(policy, w, a);
      }
    } else {
      RecordedWhileRunning(policy);
    }
  }

  lemma CompletedOnSqlite(policy: Policy)
    requires !policy.reserveWaits
    ensures exists w, a, w' :: Happens(policy, w, a, w') && !CompletionSwitches(w, w')
  {
    RollbackUndoes(policy);
    var w := Undone();
    var w' := CompleteTicks(policy, 0, w, Good);
    assert Happens(policy, w, Tick(0, Good, true), w') && Becomes(w, w', 1, Completed) && w'.memory.Sqlite?;
  }

  lemma CompletionSwitchesIffRollbacksWait(policy: Policy)
    ensures (forall w, a, w' :: Happens(policy, w, a, w') ==> CompletionSwitches(w, w')) <==> policy.reserveWaits
  {
    if policy.reserveWaits {
      forall w, a, w' | Happens(policy, w, a, w') ensures CompletionSwitches(w, w') {
        ReachableBase(policy, w);
        BaseCompletionSwitches(policy, w, a);
      }
    } else {
      CompletedOnSqlite(policy);
    }
  }

  lemma AutomaticRollbackRestoresIffRollbacksWait(policy: Policy)
    ensures (forall w, a, w' :: Happens(policy, w, a, w') ==> AutomaticRollbackRestores(w, a, w')) <==>
      policy.reserveWaits
  {
    if policy.reserveWaits {
      forall w, a, w' | Happens(policy, w, a, w') ensures AutomaticRollbackRestores(w, a, w') {
        ReachableBase(policy, w);
        BaseAutomaticRollbackRestores(policy, w, a);
      }
    } else {
      RecordedOnPostgres(policy);
    }
  }

  /** A job recorded as automatically rolled back leaves the saved configuration on SQLite, always,
      exactly when rollbacks wait and preflight has looked at the saved configuration. */
  lemma RecordedRollbackOnSqliteIffGuarded(policy: Policy)
    ensures (forall w, a, w' :: Happens(policy, w, a, w') ==> AutomaticRollbackSaved(w, w'))
       <==> policy.reserveWaits && policy.preflightReadsSaved
  {
    if policy.reserveWaits && policy.preflightReadsSaved {
      forall w, a, w' | Happens(policy, w, a, w') ensures AutomaticRollbackSaved(w, w') {
        ReachableBase(policy, w);
        BaseAutomaticRollbackRestores(policy, w, a);
      }
    } else if !policy.reserveWaits {
      RecordedOnPostgres(policy);
    } else {
      PreflightMustReadSaved(policy);
      var w, w' :| RecordsRollback(policy, w, w') && w'.saved.Postgres?;
      var a, j :| Reachable(policy, w) && Step(policy, w, a) == Some(w') && Becomes(w, w', j, FailedRolledBack);
      assert Happens(policy, w, a, w') && !AutomaticRollbackSaved(w, w');
    }
  }
}
