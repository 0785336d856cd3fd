/** What the update protocol promises, for every run. */
module Theorems {
  import opened Common
  import opened Versions
  import opened Journals
  import opened Protocol
  import opened Invariants
  import opened ServiceProofs
  import opened Runs

  // ----- all or nothing -----

  /** Only a worker's save makes the durable record enter a phase the service never writes. */
  lemma EnteredBySave(s: State, step: Step, x: OpState)
    requires Inv(s)
    requires x != Preparing && x != WaitingForExit && x != Deferred
    requires Phase(s.journal) != x && Phase(Apply(s, step).journal) == x
    ensures step.WrkStep? && (step.w == Save || step.w == SaveFail(true))
    ensures step.p in s.workers && s.workers[step.p].status == Running && s.workers[step.p].pc.Saving?
    ensures Apply(s, step).journal == s.workers[step.p].job
    ensures Apply(s, step).m == Commit(s.m, s.workers[step.p].job)
  {
    match step
    case SvcStep(v) =>
      if !v.Prepare? {
        ServiceRewrites(s, v);
      }
    case WrkStep(p, w) =>
      if Enabled(s, step) && w != Save && w != SaveFail(true) {
        OnlySavesWrite(Local(s.journal, s.m, s.workers[p]), w);
      }
    case EnvStep(_) =>
  }

  lemma OnlySavesWrite(l: Local, step: WorkerStep)
    requires WorkerEnabled(l, step) && step != Save && step != SaveFail(true)
    ensures WorkerApply(l, step).journal == l.journal
  {
    if step.Proceed? {
      ProceedAdvances(l, step.child);
    }
  }

  /**
   * When a rollback records `restoringUserData`, whatever setup wrote and
   * however often the restoration was interrupted, the bundle, the data and the
   * baseline are the snapshot's, the policy is the snapshot's except for a
   * revocation, and nothing differs from a machine the operation never touched.
   */
  lemma RollbackRestoresEverything(s: State, step: Step)
    requires Reachable(s)
    requires Phase(s.journal) != RestoringUserData && Phase(Apply(s, step).journal) == RestoringUserData
    ensures var t := Apply(s, step);
      && t.m.res == t.m.untouched
      && HasSnapshot(t.m, t.journal.op)
      && var copy := SnapshotOf(t.m, t.journal.op);
         && t.m.res.bundle == copy.bundle && t.m.res.data == copy.data && t.m.res.baseline == copy.installer
         && t.m.res.policy == RestoredPolicy(copy.policy, t.m.res.policy)
  {
    EntersRestoring(s, step);
    RestoredMeansCopied(Apply(s, step).m, Apply(s, step).journal.op);
  }

  lemma RestoredMeansCopied(m: Machine, op: Option<OpId>)
    requires m.res == m.untouched && SnapshotMatches(m, op)
    ensures var copy := SnapshotOf(m, op);
      && m.res.bundle == copy.bundle && m.res.data == copy.data && m.res.baseline == copy.installer
      && m.res.policy == RestoredPolicy(copy.policy, m.res.policy)
  {
  }

  /** The worker that saves `restoringUserData` for the first time has restored everything. */
  lemma SavesRestoring(p: Proc, j: Journal, m: Machine, w: Worker)
    requires WorkerOk(p, j, m, w) && w.status == Running && w.pc.Saving?
    requires Phase(j) != RestoringUserData && Phase(w.job) == RestoringUserData
    ensures Commit(m, w.job) == m && m.res == m.untouched && SnapshotMatches(m, w.job.op) && !Sticky(Phase(j))
  {
  }

  lemma EntersRestoring(s: State, step: Step)
    requires Reachable(s)
    requires Phase(s.journal) != RestoringUserData && Phase(Apply(s, step).journal) == RestoringUserData
    ensures var t := Apply(s, step);
      t.m == s.m && t.m.res == t.m.untouched && SnapshotMatches(t.m, t.journal.op)
    ensures !Sticky(Phase(s.journal))
  {
    ReachableInv(s);
    EnteredBySave(s, step, RestoringUserData);
    ReachableWorker(s, step.p);
    SavesRestoring(step.p, s.journal, s.m, s.workers[step.p]);
  }

  /** An operation that was deferred, or has not got to its installer, changed nothing. */
  lemma DeferralTouchesNothing(s: State)
    requires Reachable(s) && !Dirty(s.journal)
    ensures s.m.res == s.m.untouched
  {
    ReachableInv(s);
  }

  /** Neither the application nor the administrator writes. */
  predicate Quiet(step: Step) {
    step.EnvStep? ==> !step.e.AgentWrite? && !step.e.Revoke?
  }

  lemma ProceedKeepsUntouched(l: Local, child: Proc)
    requires CanProceed(l, child)
    ensures ProceedStep(l, child).m.untouched == l.m.untouched
  {
  }

  lemma WorkerKeepsUntouched(l: Local, step: WorkerStep)
    requires WorkerEnabled(l, step) && !Sticky(Phase(WorkerApply(l, step).journal))
    ensures WorkerApply(l, step).m.untouched == l.m.untouched
  {
    if step.Proceed? {
      ProceedKeepsUntouched(l, step.child);
    }
  }

  lemma ServiceKeepsUntouched(s: State, v: ServiceStep)
    requires SvcEnabled(s, v)
    ensures SvcApply(s, v).m.untouched == s.m.untouched
  {
  }

  lemma UntouchedFollowsOthers(s: State, step: Step)
    requires Quiet(step) && !Sticky(Phase(Apply(s, step).journal))
    ensures Apply(s, step).m.untouched == s.m.untouched
  {
    if Enabled(s, step) {
      match step
      case EnvStep(_) =>
      case SvcStep(v) => ServiceKeepsUntouched(s, v);
      case WrkStep(p, w) => WorkerKeepsUntouched(Local(s.journal, s.m, s.workers[p]), w);
    }
  }

  lemma {:induction false} UntouchedAlong(s: State, steps: seq<Step>)
    requires Inv(s) && s.journal.op.Some?
    requires forall i | 0 <= i < |steps| :: Quiet(steps[i])
    requires After(s, steps).journal.op == s.journal.op && !Sticky(Phase(After(s, steps).journal))
    ensures After(s, steps).m.untouched == s.m.untouched
    decreases |steps|
  {
    if steps != [] {
      var t := Apply(s, steps[0]);
      StepKeeps(s, steps[0]);
      StepAdvances(s, steps[0]);
      RunAdvances(t, steps[1..]);
      assert t.journal.op == s.journal.op;
      UntouchedFollowsOthers(s, steps[0]);
      UntouchedAlong(t, steps[1..]);
    }
  }

  /**
   * From dispatch to deferral, through any crashes, restarts and recoveries,
   * the machine ends exactly as it started.
   */
  lemma DeferredRunLeavesNoTrace(s: State, steps: seq<Step>)
    requires Reachable(s) && s.journal.op.Some? && !Dirty(s.journal)
    requires forall i | 0 <= i < |steps| :: Quiet(steps[i])
    requires var t := After(s, steps); t.journal.op == s.journal.op && Phase(t.journal) == Deferred
    ensures After(s, steps).m.res == s.m.res
  {
    ReachableInv(s);
    RunKeeps(s, steps);
    UntouchedAlong(s, steps);
  }

  /** The same from dispatch to the moment a rollback is recorded, whatever was installed in between. */
  lemma RolledBackRunLeavesNoTrace(s: State, steps: seq<Step>, last: Step)
    requires Reachable(s) && s.journal.op.Some? && !Dirty(s.journal)
    requires forall i | 0 <= i < |steps| :: Quiet(steps[i])
    requires var t := After(s, steps);
      && t.journal.op == s.journal.op
      && Phase(t.journal) != RestoringUserData && Phase(Apply(t, last).journal) == RestoringUserData
    ensures Apply(After(s, steps), last).m.res == s.m.res
  {
    DeferralTouchesNothing(s);
    ReachableInv(s);
    ReachableAfter(s, steps);
    EntersRestoring(After(s, steps), last);
    UntouchedAlong(s, steps);
  }

  // ----- completion is final -----

  /**
   * Once `completed` is durable, no later step of any run restores the
   * operation's snapshot or blocks its version, and while the journal is still
   * about it, the policy and the baseline name the new release.
   */
  lemma CompletionIsFinal(s: State, steps: seq<Step>)
    requires Reachable(s) && Phase(s.journal) == Completed && s.journal.op.Some?
    ensures var t, op := After(s, steps), s.journal.op.value;
      && op !in t.m.hist.restored
      && s.journal.version !in t.journal.blocked
      && (t.journal.op == Some(op) ==>
            && Phase(t.journal) == Completed && t.journal.version == s.journal.version
            && t.m.res.policy.installedVersion == s.journal.version
            && t.m.res.policy.workerVersion == s.journal.version
            && t.m.res.policy.baselineSha == Sha256(t.m.res.baseline)
            && op in t.m.ops && t.m.res.baseline == t.m.ops[op].setup)
  {
    ReachableInv(s);
    RunKeeps(s, steps);
    RunAdvances(s, steps);
    var t := After(s, steps);
  }

  // ----- the boot guard -----

  /** A present guard always names the journal's operation, and no operation is in flight without it. */
  lemma GuardIdentity(s: State)
    requires Reachable(s)
    ensures s.m.guard.Some? ==> s.m.guard == s.journal.op
    ensures Interruptible(s.journal.state) ==> s.m.guard == s.journal.op && s.m.guard.Some?
    ensures s.journal.state == RecoveryRequired && !Terminal(Phase(s.journal)) ==>
      s.m.guard == s.journal.op && s.m.guard.Some?
  {
    ReachableInv(s);
  }

  // ----- recovery -----

  /** Every record marked for recovery has a branch in `recover`, and a worker there finds it. */
  lemma RecoveryIsTotal(s: State)
    requires Reachable(s) && s.journal.state == RecoveryRequired
    ensures Terminal(Phase(s.journal)) || Resumable(s.journal)
    ensures s.journal.snapshotComplete && !Terminal(Phase(s.journal)) ==> HasSnapshot(s.m, s.journal.op)
  {
    ReachableInv(s);
  }

  /** The `recovery_snapshot_unavailable` and `automatic_rollback_unavailable` branches are dead. */
  lemma NoDeadEnd(s: State, p: Proc, child: Proc)
    requires Reachable(s) && p in s.workers && s.workers[p].status == Running
    requires NoLiveApps(s.m)
    requires
      var pc := s.workers[p].pc;
      pc == RecoverDecide || pc == RollbackStart || pc == RollbackVerify || pc == RestoreBundle ||
      pc == RestoreData || pc == RestoreBaseline || pc == RestorePolicy
    ensures Enabled(s, WrkStep(p, Proceed(child)))
  {
    ReachableWorker(s, p);
    CanRestore(p, s.journal, s.m, s.workers[p], child);
  }

  lemma CanRestore(p: Proc, j: Journal, m: Machine, w: Worker, child: Proc)
    requires WorkerOk(p, j, m, w) && w.status == Running && NoLiveApps(m)
    requires
      var pc := w.pc;
      pc == RecoverDecide || pc == RollbackStart || pc == RollbackVerify || pc == RestoreBundle ||
      pc == RestoreData || pc == RestoreBaseline || pc == RestorePolicy
    ensures CanProceed(Local(j, m, w), child)
  {
    assert SnapshotHeld(m, w.job) && Shape(m, w.job);
  }

  // ----- processes -----

  /** At most one application process is ever resumed for an operation, and it is the recorded one. */
  lemma AtMostOneRelaunch(s: State, op: OpId, p: Proc, q: Proc)
    requires Reachable(s) && (op, p) in s.m.hist.relaunches && (op, q) in s.m.hist.relaunches
    ensures p == q
    ensures s.journal.op == Some(op) ==> s.journal.relaunched == Some(p)
  {
    ReachableInv(s);
  }

  /** A worker writes a restored file only when no setup program and no application process runs. */
  lemma NoRestoreDuringSetup(s: State, p: Proc, step: WorkerStep)
    requires Reachable(s) && Enabled(s, WrkStep(p, step)) && (step.Proceed? || step.Partial?)
    requires
      var pc := s.workers[p].pc;
      pc == RestoreBundle || pc == RestoreData || pc == RestoreBaseline || pc == RestorePolicy
    ensures NoSetup(s.m) && NoLiveApps(s.m)
  {
    ReachableWorker(s, p);
    RestoringAlone(p, s.journal, s.m, s.workers[p]);
  }

  lemma RestoringAlone(p: Proc, j: Journal, m: Machine, w: Worker)
    requires WorkerOk(p, j, m, w) && w.status == Running
    requires w.pc == RestoreBundle || w.pc == RestoreData || w.pc == RestoreBaseline || w.pc == RestorePolicy
    ensures NoSetup(m) && NoLiveApps(m)
  {
    assert SetupHeld(m, w.job);
  }

  lemma AtMostOneWorker(s: State, p: Proc, q: Proc)
    requires Reachable(s) && p in s.workers && q in s.workers
    requires s.workers[p].status == Running && s.workers[q].status == Running
    ensures p == q && s.svc == SvcIdle
  {
    ReachableInv(s);
    assert WorkerOk(p, s.journal, s.m, s.workers[p]);
    assert WorkerOk(q, s.journal, s.m, s.workers[q]);
  }

  /** The service changes the journal or the guard only while no worker runs. */
  lemma SingleWriter(s: State, v: ServiceStep)
    requires Reachable(s) && SvcEnabled(s, v)
    requires SvcApply(s, v).journal != s.journal || SvcApply(s, v).m != s.m
    ensures NoWorkers(s.workers)
  {
    ReachableInv(s);
    if s.svc == SvcIdle {
      assert RecordedWorkerDead(s.journal, s.workers);
      RecordedIsOnly(s);
    }
  }

  // ----- the application contract -----

  /**
   * With `kApplicationContractImplemented` false no run installs, verifies,
   * snapshots or restores anything, and the updater never changes a resource.
   */
  lemma ContractOff(s: State)
    requires Reachable(s) && !s.m.contract
    ensures !s.journal.snapshotComplete && s.m.res == s.m.untouched
    ensures Interruptible(s.journal.state) ==> s.journal.state == WaitingForExit && s.journal.restartOnly
    ensures Phase(s.journal) == Idle || Phase(s.journal) == Preparing || Phase(s.journal) == Deferred ||
      (Phase(s.journal) == WaitingForExit && s.journal.restartOnly)
    ensures s.m.hist.completed == {} && s.m.hist.restored == {}
  {
    ReachableInv(s);
  }

  // ----- restarts of the application -----

  /** Once a restart is recorded, `recoverApplication` is not accepted for the operation again. */
  lemma RestartedOnce(s: State, steps: seq<Step>, v: ServiceStep)
    requires Reachable(s) && s.journal.recoveryAttempted
    requires v.BeginRestart? && SvcEnabled(After(s, steps), v)
    ensures Some(v.op) != s.journal.op
  {
    ReachableInv(s);
    RunAdvances(s, steps);
  }

  /**
   * After a restart the same version is not prepared again before the retry time
   * as long as the journal is about the same operation; what another preparation
   * does to the cooldown is in `Cooldown`.
   */
  lemma CooldownHolds(s: State, steps: seq<Step>, v: ServiceStep)
    requires Reachable(s) && s.journal.restartOnly
    requires After(s, steps).journal.op == s.journal.op && s.journal.op.Some?
    requires v.Prepare? && v.version == s.journal.version && v.now < s.journal.retryAfter
    ensures !SvcEnabled(After(s, steps), v)
  {
    ReachableInv(s);
    assert Shape(s.m, s.journal) && RelaunchShape(s.journal);
    RunAdvances(s, steps);
  }

  // ----- versions -----

  lemma BlockedOnlyGrows(s: State, steps: seq<Step>)
    requires Reachable(s)
    ensures var t := After(s, steps);
      s.journal.blocked <= t.journal.blocked && Distinct(t.journal.blocked) && |t.journal.blocked| <= MaxBlocked
  {
    ReachableInv(s);
    RunKeeps(s, steps);
    RunAdvances(s, steps);
  }

  /** A version string that was rolled back is never prepared again. */
  lemma RolledBackIsNeverPrepared(s: State, steps: seq<Step>, v: ServiceStep)
    requires Reachable(s) && Phase(s.journal) == RolledBack
    requires v.Prepare? && SvcEnabled(After(s, steps), v)
    ensures v.version != s.journal.version
  {
    ReachableInv(s);
    RunAdvances(s, steps);
    var t := After(s, steps);
    assert s.journal.version in s.journal.blocked;
    assert s.journal.blocked == t.journal.blocked[..|s.journal.blocked|];
  }

  /** Successive last healthy versions strictly increase. */
  lemma HealthyIncreases(s: State, steps: seq<Step>)
    requires Reachable(s) && s.journal.lastHealthy.Some?
    ensures var a, b := s.journal.lastHealthy, After(s, steps).journal.lastHealthy;
      b.Some? && (b != a ==> Newer(b.value, a.value) && !Newer(a.value, b.value))
  {
    ReachableInv(s);
    RunAdvances(s, steps);
    var a, b := s.journal.lastHealthy, After(s, steps).journal.lastHealthy;
    if b != a {
      LaterAsymmetric(b.value, a.value);
    }
  }

  lemma LaterAsymmetric(a: Version, b: Version)
    requires Later(a, b)
    ensures Newer(a, b) && !Newer(b, a)
  {
    LaterIsNewer(a, b);
    LaterIsNewer(b, a);
    if Later(b, a) {
      LaterTransitive(a, b, a);
      LaterIrreflexive(a);
    }
  }

  /** A recorded update outcome never changes. */
  lemma OutcomeIsFinal(s: State, steps: seq<Step>)
    requires Reachable(s) && s.journal.outcome.Some?
    requires After(s, steps).journal.op == s.journal.op
    ensures After(s, steps).journal.outcome == s.journal.outcome
    ensures Terminal(Phase(After(s, steps).journal)) ==> Phase(After(s, steps).journal) == s.journal.outcome.value
  {
    ReachableInv(s);
    RunKeeps(s, steps);
    RunAdvances(s, steps);
  }
}
