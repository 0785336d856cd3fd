/** `check_install`: the manual-install side of the protocol (windows/updater/client_main.cpp). */
module ManualInstall {
  import opened Common
  import opened Journals
  import opened Protocol
  import opened Invariants
  import opened Runs
  import opened Theorems

  /**
   * The decision of `plug_update_client --check-install`. `localSystem` is
   * whether the caller runs as LocalSystem; an idle record is a missing journal.
   */
  function CheckInstall(j: Journal, guard: Option<OpId>, automatic: bool, localSystem: bool): Result<bool> {
    if j.state == Idle then
      if guard.Some? then Err("orphan_boot_guard_requires_recovery")
      else if automatic then Err("automatic_operation_missing")
      else Ok(true)
    else if j.pending then Err("update_finalization_pending")
    else if !CanPrepare(j.state) && !Interruptible(j.state) &&
      j.state != RecoveryRequired then Err("invalid_journal_state")
    else if j.op.None? then Err("invalid_journal_identity")
    else if !automatic && guard.Some? then Err("update_finalization_pending")
    else if automatic then
      if localSystem && j.state == Installing then Ok(true) else Err("automatic_setup_identity_rejected")
    else if Interruptible(j.state) || j.state == RecoveryRequired then Err("update_operation_prevents_manual_install")
    else Ok(true)
  }

  /** Nothing is dispatched but, at most, a restart of the application. */
  ghost predicate Dormant(s: State) {
    var j := s.journal;
    && (|| Phase(j) == Idle || Phase(j) == Preparing || Terminal(Phase(j))
        || (Phase(j) == WaitingForExit && j.restartOnly))
    && (s.svc.SvcSave? ==> s.svc.current.restartOnly)
    && (s.svc.SvcSave? || InSpawn(s.svc) ==> s.svc.purpose != ForStart)
  }

  lemma CheckMeansDormant(s: State)
    requires Inv(s) && CheckInstall(s.journal, s.m.guard, false, false).Ok?
    ensures Dormant(s)
  {
    if s.svc.SvcSave? {
      assert Active(s.svc.current);
    }
  }

  lemma SaveKeepsDormant(s: State, job: Journal)
    requires Dormant(s) && s.svc == SvcIdle && Follows(s.journal, job) && Shape(s.m, job) && Shape(s.m, s.journal)
    requires s.journal.state != Idle && s.journal.state != Preparing
    ensures
      || Phase(job) == Idle || Phase(job) == Preparing || Terminal(Phase(job))
      || (Phase(job) == WaitingForExit && job.restartOnly)
  {
  }

  lemma WorkerKeepsDormant(s: State, p: Proc, step: WorkerStep)
    requires Inv(s) && Dormant(s) && Enabled(s, WrkStep(p, step))
    ensures Dormant(Apply(s, WrkStep(p, step)))
  {
    var l := Local(s.journal, s.m, s.workers[p]);
    if step.Save? || step == SaveFail(true) {
      RunningIsAlone(s, p);
      assert WorkerOk(p, s.journal, s.m, l.w);
      assert Follows(s.journal, l.w.job) && Shape(s.m, l.w.job) && Shape(s.m, s.journal);
      SaveKeepsDormant(s, l.w.job);
    } else if step.Proceed? {
      ProceedAdvances(l, step.child);
    }
  }

  lemma ServiceKeepsDormant(s: State, v: ServiceStep)
    requires ServiceOk(s) && Dormant(s) && SvcEnabled(s, v) && !v.BeginStart?
    ensures Dormant(SvcApply(s, v))
  {
    if v.Fail? {
      FailKeepsDormant(s);
    } else if s.svc == SvcIdle {
      RequestKeepsDormant(s, v);
    } else {
      SpawnKeepsDormant(s, v);
    }
  }

  lemma FailKeepsDormant(s: State)
    requires Dormant(s) && SvcEnabled(s, Fail)
    ensures Dormant(SvcApply(s, Fail))
  {
  }

  lemma RequestKeepsDormant(s: State, v: ServiceStep)
    requires Dormant(s) && s.svc == SvcIdle && SvcEnabled(s, v) && !v.BeginStart?
    ensures Dormant(SvcApply(s, v))
  {
  }

  lemma SpawnKeepsDormant(s: State, v: ServiceStep)
    requires ServiceOk(s) && Dormant(s) && s.svc != SvcIdle && SvcEnabled(s, v) && !v.Fail?
    ensures Dormant(SvcApply(s, v))
  {
  }

  /** No `start` request. */
  predicate NoStart(step: Step) {
    step.SvcStep? ==> !step.v.BeginStart?
  }

  lemma StepKeepsDormant(s: State, step: Step)
    requires Inv(s) && Dormant(s) && NoStart(step)
    ensures Dormant(Apply(s, step))
  {
    if Enabled(s, step) {
      match step
      case EnvStep(_) =>
      case SvcStep(v) => ServiceKeepsDormant(s, v);
      case WrkStep(p, w) => WorkerKeepsDormant(s, p, w);
    }
  }

  lemma CommitIsHarmless(l: Local, step: WorkerStep)
    requires WorkerEnabled(l, step) && l.m.res == l.m.untouched
    ensures WorkerApply(l, step).m.untouched == l.m.untouched
  {
    if step.Proceed? {
      ProceedKeepsUntouched(l, step.child);
    }
  }

  lemma DormantMeansUntouched(s: State)
    requires Settled(s.m, s.journal) && Dormant(s)
    ensures s.m.res == s.m.untouched
  {
  }

  lemma StepKeepsUntouched(s: State, step: Step)
    requires Quiet(step) && s.m.res == s.m.untouched
    ensures Apply(s, step).m.untouched == s.m.untouched
  {
    if Enabled(s, step) {
      match step
      case EnvStep(_) =>
      case SvcStep(v) => ServiceKeepsUntouched(s, v);
      case WrkStep(p, w) => CommitIsHarmless(Local(s.journal, s.m, s.workers[p]), w);
    }
  }

  /** A dormant machine changes only through the application and the administrator. */
  lemma DormantStepChangesNothing(s: State, step: Step)
    requires Inv(s) && Dormant(s) && NoStart(step) && Quiet(step)
    ensures Apply(s, step).m.res == s.m.res
  {
    StepKeeps(s, step);
    StepKeepsDormant(s, step);
    DormantMeansUntouched(s);
    DormantMeansUntouched(Apply(s, step));
    StepKeepsUntouched(s, step);
  }

  lemma {:induction false} DormantRunChangesNothing(s: State, steps: seq<Step>)
    requires Inv(s) && Dormant(s)
    requires forall i | 0 <= i < |steps| :: Quiet(steps[i]) && NoStart(steps[i])
    ensures After(s, steps).m.res == s.m.res
    decreases |steps|
  {
    if steps != [] {
      StepKeeps(s, steps[0]);
      StepKeepsDormant(s, steps[0]);
      DormantStepChangesNothing(s, steps[0]);
      DormantRunChangesNothing(Apply(s, steps[0]), steps[1..]);
    }
  }

  /**
   * When the manual check passes, no setup program or validation child runs,
   * a worker that is still alive only finishes a terminal outcome, and no run
   * without a new `start` lets the updater change the bundle, the data, the
   * baseline or the policy.
   */
  lemma ManualCheckIsSafe(s: State, steps: seq<Step>)
    requires Reachable(s) && CheckInstall(s.journal, s.m.guard, false, false).Ok?
    requires forall i | 0 <= i < |steps| :: Quiet(steps[i]) && NoStart(steps[i])
    ensures NoSetup(s.m) && NoValidation(s.m)
    ensures forall p | p in s.workers && s.workers[p].status == Running :: Terminal(Phase(s.workers[p].job))
    ensures After(s, steps).m.res == s.m.res
  {
    ReachableInv(s);
    CheckMeansDormant(s);
    DormantRunChangesNothing(s, steps);
    forall p | p in s.workers && s.workers[p].status == Running
      ensures Terminal(Phase(s.workers[p].job))
    {
      assert WorkerOk(p, s.journal, s.m, s.workers[p]);
    }
  }

  /** No run leaves a journal or a guard that the check cannot make sense of. */
  lemma CheckNeverInvalid(s: State, automatic: bool, localSystem: bool)
    requires Reachable(s)
    ensures
      var r := CheckInstall(s.journal, s.m.guard, automatic, localSystem);
      && r != Err("invalid_journal_state") && r != Err("invalid_journal_identity")
      && r != Err("orphan_boot_guard_requires_recovery")
  {
    ReachableRecord(s);
    assert Shape(s.m, s.journal) && Guarded(s.m, s.journal);
    var r := CheckInstall(s.journal, s.m.guard, automatic, localSystem);
    if r.Err? {
      assert r.reason[0] == 'a' || r.reason[0] == 'u';
    }
  }

  /** The automatic check passes only while an operation that can still be rolled back is installing. */
  lemma AutomaticCheckIsSafe(s: State, localSystem: bool)
    requires Reachable(s) && CheckInstall(s.journal, s.m.guard, true, localSystem).Ok?
    ensures localSystem && s.journal.state == Installing && s.m.guard == s.journal.op
    ensures s.journal.snapshotComplete && SnapshotMatches(s.m, s.journal.op)
  {
    ReachableInv(s);
  }
}
