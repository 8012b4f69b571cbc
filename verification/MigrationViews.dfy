/**
 What goes wrong when `get_job` saves a record that has changed since it was read: it holds no
 lock between the two, so its save may come after the rollback of the job, or during it.
 */
module MigrationViews {
  import opened Wrappers
  import opened MigrationModel
  import opened MigrationInvariant
  import opened MigrationTheorems
  import opened MigrationGuards

  /** A cutover has taken its checkpoint, and the manager is restarted. */
  const CRASHED: World :=
    Crashed(StoppedAt(CutoverJob(Running, true), Importing).(snapshots := map[0 := [], 1 := []]))

  /** A status request has read the record of that cutover. */
  const VIEWING: World := CRASHED.(viewing := map[0 := Viewing(1, CutoverJob(Running, true))])

  lemma RequestReads(policy: Policy)
    ensures Reachable(policy, VIEWING)
  {
    CutoverCheckpoints(policy);
    var w := Go(policy, StoppedAt(CutoverJob(Running, true), Importing).(snapshots := map[0 := [], 1 := []]), Crash);
    assert w == CRASHED;
    w := Go(policy, CRASHED, ViewRead(0, 1));
    assert w == VIEWING;
  }

  /** The rollback of the cutover has begun, with no other request or thread at work. */
  const ROLLING: World := RolledFrom(VIEWING, 1, 1, false)

  lemma RollbackBegins(policy: Policy)
    ensures Reachable(policy, ROLLING)
  {
    RequestReads(policy);
    assert RollbackPossible(VIEWING, 1);
    ReserveBegins(policy, VIEWING, 1, 1, false);
    var w := Go(policy, VIEWING, Reserve(1, 1, false, Good));
  }

  /** The record that the status request saves. */
  function Revival(w: World): World
    requires 0 in w.viewing
  {
    w.(viewing := w.viewing - {0}, jobs := w.jobs[1 := CutoverJob(Interrupted, true)], latest := Some(1))
  }

  lemma RequestSaves(policy: Policy, w: World)
    requires !policy.viewsRecheck && Reachable(policy, w) && w.viewing == VIEWING.viewing
    ensures Reachable(policy, Revival(w)) && Step(policy, w, ViewSave(0, Good)) == Some(Revival(w))
  {
    var w' := Go(policy, w, ViewSave(0, Good));
  }

  /** The rollback goes on while its job says that it was interrupted. */
  lemma RecordOverwritten(policy: Policy)
    requires !policy.viewsRecheck
    ensures exists w :: Reachable(policy, w) && !RunningRollbackStillOffers(w)
  {
    RollbackBegins(policy);
    RequestSaves(policy, ROLLING);
    assert 1 in Revival(ROLLING).threads && !Revival(ROLLING).jobs[1].status.RollingBack?;
  }

  /** The rollback has ended. */
  const OVER: World := VIEWING.(jobs := VIEWING.jobs[1 := Job(Cutover, RolledBack, false, true, 1)])

  lemma RestoredIsOver(w: World)
    requires AlongRestore(ROLLING, w, 1, 8)
    ensures 1 in w.threads && w.threads[1].RollThread? && RollbackEnded(w, 1) == OVER
  {
    assert RollbackEnded(w, 1).threads == OVER.threads;
    assert RollbackEnded(w, 1).jobs == OVER.jobs;
  }

  lemma RollbackIsOver(policy: Policy)
    ensures Reachable(policy, OVER)
  {
    RollbackBegins(policy);
    assert AlongRestore(ROLLING, ROLLING, 1, 0);
    RestoreReaches(policy, ROLLING, ROLLING, 1, 0, 8);
    var w :| AlongRestore(ROLLING, w, 1, 8) && Reachable(policy, w);
    RollbackEnds(policy, w);
    RestoredIsOver(w);
  }

  /** The rollback that has been used is on offer again. */
  lemma UsedOfferReturns(policy: Policy)
    requires !policy.viewsRecheck
    ensures exists w, a, w' ::
      Reachable(policy, w) && Step(policy, w, a) == Some(w') && !WithdrawnOffersStay(w, w')
  {
    RollbackIsOver(policy);
    RequestSaves(policy, OVER);
    assert OVER.jobs[1].checkpoint && !OVER.jobs[1].offered && Revival(OVER).jobs[1].offered;
    assert !WithdrawnOffersStay(OVER, Revival(OVER));
  }

  /** And a job that has been created in the meantime is at work beside it. */
  lemma ViewsMustRecheck(policy: Policy)
    requires !policy.viewsRecheck
    ensures exists w :: Reachable(policy, w) && !AtMostOneClaim(w)
  {
    RollbackIsOver(policy);
    CreateRuns(policy, OVER, Rehearsal, 2, 2);
    RequestSaves(policy, Created(OVER, Rehearsal, 2, 2));
    var w := Revival(Created(OVER, Rehearsal, 2, 2));
    assert Claim(w.jobs[1]) && Claim(w.jobs[2]);
  }
}
