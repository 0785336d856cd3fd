/** Every worker step keeps the worker's part of the invariant. */
module WorkerProofs {
  import opened Common
  import opened Versions
  import opened Journals
  import opened Protocol
  import opened Invariants
  import opened RecordProofs
  import opened MachineProofs

  /** A running worker that has read the journal. */
  ghost predicate Ready(p: Proc, l: Local) {
    LocalInv(p, l) && l.w.status == Running && !l.w.pc.Begin?
  }

  /** The durable record names this worker and its operation. */
  predicate Owner(p: Proc, j: Journal, m: Machine, w: Worker) {
    && w.status == Running && w.op !in m.gone
    && j.worker == Some(p) && j.hashed && j.op == Some(w.op) && j.state != Idle && j.state != Preparing
  }

  ghost predicate DurableOk(m: Machine, j: Journal) {
    MachineOk(m) && Sound(m, j) && Settled(m, j)
  }

  /** What a worker establishes about the record it takes along to `pc`. */
  ghost predicate Carries(m: Machine, w: Worker, job: Journal, pc: Pc) {
    && !pc.Begin? && At(m, pc, job) && CtxOk(pc, w.ctx)
    && (w.ctx == Inner ==> job.state != RecoveryRequired && NoSetup(m))
  }

  lemma Resave(p: Proc, j: Journal, m: Machine, w: Worker, job: Journal, next: Pc)
    requires Owner(p, j, m, w) && DurableOk(m, j)
    requires Successor(m, j, job)
    requires Carries(m, w, job, next) && next != AwaitSetup
    ensures LocalInv(p, Local(j, m, SaveThen(w, job, next)))
  {
  }

  lemma Move(p: Proc, j: Journal, m: Machine, w: Worker, pc: Pc)
    requires Owner(p, j, m, w) && DurableOk(m, j)
    requires w.job == j && !pc.Saving? && Carries(m, w, j, pc)
    ensures LocalInv(p, Local(j, m, Goto(w, pc)))
  {
  }

  /** A worker at a synced pc: its record is the durable one. */
  ghost predicate Stands(p: Proc, l: Local) {
    && Owner(p, l.journal, l.m, l.w) && DurableOk(l.m, l.journal)
    && l.w.job == l.journal && !l.w.pc.Saving? && Carries(l.m, l.w, l.journal, l.w.pc)
  }

  lemma Unpack(p: Proc, l: Local)
    requires Ready(p, l) && Synced(l.w.pc)
    ensures Stands(p, l)
  {
  }

  lemma FromBegin(p: Proc, l: Local, child: Proc)
    requires LocalInv(p, l) && l.w.status == Running && l.w.pc.Begin? && CanProceed(l, child)
    ensures LocalInv(p, ProceedStep(l, child))
  {
  }

  lemma FromAwaitExit(p: Proc, l: Local, child: Proc)
    requires Stands(p, l) && l.w.pc == AwaitExit && CanProceed(l, child)
    ensures LocalInv(p, ProceedStep(l, child))
  {
    var job := l.w.job;
    if job.restartOnly {
      Defer(l.m, job, job.(state := Deferred));
      FinalizingAt(l.m, l.w, job.(state := Deferred), FinalizeStart);
      Resave(p, l.journal, l.m, l.w, job.(state := Deferred), FinalizeStart);
    } else {
      BeginSnapshot(l.m, job);
      Resave(p, l.journal, l.m, l.w, job.(state := Snapshotting), TakeSnapshot);
    }
  }

  lemma FromTakeSnapshot(p: Proc, l: Local, child: Proc)
    requires Stands(p, l) && l.w.pc == TakeSnapshot && CanProceed(l, child)
    ensures LocalInv(p, ProceedStep(l, child))
  {
    var job := l.w.job;
    TakeCopy(l.m, job);
    var n := l.(m := WithSnapshot(l.m, job.op.value));
    SnapshotDone(n.m, job);
    Resave(p, l.journal, n.m, l.w, job.(snapshotComplete := true), LaunchSetup);
  }

  lemma SetupCreated(m: Machine, j: Journal, child: Proc)
    requires DurableOk(m, j) && j.state == Snapshotting && j.snapshotComplete && child !in m.setups
    ensures var n := m.(setups := m.setups[child := Suspended]);
      DurableOk(n, j) && Successor(n, j, j.(setup := Some(child), state := Installing)) && NoSetup(n)
  {
    var n := m.(setups := m.setups[child := Suspended]);
    SetupTable(m, j, n.setups);
    SetupRecorded(n, j, child);
    assert SetupHeld(n, j) && !SetupMayRun(j);
  }

  lemma ResumingSetupAt(m: Machine, w: Worker, job: Journal)
    requires job.state == Installing && NoSetup(m) && w.ctx == Body
    ensures Carries(m, w, job, ResumeSetup)
  {
  }

  lemma FromLaunchSetup(p: Proc, l: Local, child: Proc)
    requires Stands(p, l) && l.w.pc == LaunchSetup && CanProceed(l, child)
    ensures LocalInv(p, ProceedStep(l, child))
  {
    var job := l.w.job.(setup := Some(child), state := Installing);
    var m := l.m.(setups := l.m.setups[child := Suspended]);
    SetupCreated(l.m, l.w.job, child);
    ResumingSetupAt(m, l.w, job);
    Resave(p, l.journal, m, l.w, job, ResumeSetup);
  }

  lemma FromResumeSetup(p: Proc, l: Local, child: Proc)
    requires Stands(p, l) && l.w.pc == ResumeSetup && CanProceed(l, child)
    ensures LocalInv(p, ProceedStep(l, child))
  {
    SetupTable(l.m, l.w.job, l.m.setups[l.w.job.setup.value := Running]);
  }

  lemma RecordedSetupIsOnly(m: Machine, j: Journal)
    requires SetupHeld(m, j) && j.setup.Some? && j.setup.value in m.setups && m.setups[j.setup.value] == Dead
    ensures NoSetup(m)
  {
  }

  lemma FromAwaitSetup(p: Proc, l: Local, child: Proc)
    requires Stands(p, l) && (l.w.pc == AwaitSetup || l.w.pc == SetupExited) && CanProceed(l, child)
    ensures LocalInv(p, ProceedStep(l, child))
  {
    Resave(p, l.journal, l.m, l.w, l.w.job, CheckExit);
  }

  lemma LateSetupAt(m: Machine, w: Worker, job: Journal)
    requires job.state == Installing && NoSetup(m) && w.ctx == Body
    ensures Carries(m, w, job, SetupExited)
  {
  }

  lemma FromAwaitLateSetup(p: Proc, l: Local, child: Proc)
    requires Stands(p, l) && l.w.pc == AwaitLateSetup && CanProceed(l, child)
    ensures LocalInv(p, ProceedStep(l, child))
  {
    RecordedSetupIsOnly(l.m, l.w.job);
    SetupLate(l.m, l.w.job);
    LateSetupAt(l.m, l.w, l.w.job.(state := Installing));
    Resave(p, l.journal, l.m, l.w, l.w.job.(state := Installing), SetupExited);
  }

  lemma FromCheckExit(p: Proc, l: Local, child: Proc)
    requires Stands(p, l) && l.w.pc == CheckExit && CanProceed(l, child)
    ensures LocalInv(p, ProceedStep(l, child))
  {
    BeginVerify(l.m, l.w.job);
    Resave(p, l.journal, l.m, l.w, l.w.job.(state := Verifying), LaunchValidation(false));
  }

  lemma ValidationCreated(m: Machine, j: Journal, child: Proc)
    requires DurableOk(m, j) && NoValidation(m) && (j.state == Verifying || j.state == RestoringUserData) &&
      child !in m.apps
    ensures var n := m.(apps := m.apps[child := App(Validation, Suspended)]);
      DurableOk(n, j) && NoValidation(n) && Successor(n, j, j.(validation := Some(child)))
  {
    var n := m.(apps := m.apps[child := App(Validation, Suspended)]);
    AppTable(m, j, n.apps);
    ValidationRecorded(n, j, child);
  }

  lemma FromLaunchValidation(p: Proc, l: Local, child: Proc)
    requires Stands(p, l) && l.w.pc.LaunchValidation? && CanProceed(l, child)
    ensures LocalInv(p, ProceedStep(l, child))
  {
    ValidationCreated(l.m, l.w.job, child);
    var m := l.m.(apps := l.m.apps[child := App(Validation, Suspended)]);
    Resave(p, l.journal, m, l.w, l.w.job.(validation := Some(child)), ResumeValidation(l.w.pc.restoring));
  }

  lemma FromResumeValidation(p: Proc, l: Local, child: Proc)
    requires Stands(p, l) && l.w.pc.ResumeValidation? && CanProceed(l, child)
    ensures LocalInv(p, ProceedStep(l, child))
  {
    var n := l.(m := l.m.(apps := l.m.apps[l.w.job.validation.value := App(Validation, Running)]));
    AppTable(l.m, l.w.job, n.m.apps);
  }

  lemma FromAwaitValidation(p: Proc, l: Local, child: Proc)
    requires Stands(p, l) && l.w.pc == AwaitValidation(false) && CanProceed(l, child)
    ensures LocalInv(p, ProceedStep(l, child))
  {
    Move(p, l.journal, l.m, l.w, PromoteBaseline);
  }

  lemma FromAwaitRestoration(p: Proc, l: Local, child: Proc)
    requires Stands(p, l) && l.w.pc == AwaitValidation(true) && CanProceed(l, child)
    ensures LocalInv(p, ProceedStep(l, child))
  {
    RollbackRecorded(l.m, l.w.job);
    FinalizingAt(l.m, l.w, l.w.job.(state := RolledBack), FinalizeStart);
    Resave(p, l.journal, l.m, l.w, l.w.job.(state := RolledBack), FinalizeStart);
  }

  lemma PromotingAt(m: Machine, w: Worker, job: Journal)
    requires job.state == Verifying && NoValidation(m) && job.op.Some? && job.op.value in m.ops
    requires m.res.baseline == m.ops[job.op.value].setup && (w.ctx == Inner ==> NoSetup(m))
    ensures Carries(m, w, job, PromotePolicy)
  {
  }

  lemma FromPromoteBaseline(p: Proc, l: Local, child: Proc)
    requires Stands(p, l) && l.w.pc == PromoteBaseline && CanProceed(l, child)
    ensures LocalInv(p, ProceedStep(l, child))
  {
    var m := l.m.(res := l.m.res.(baseline := l.m.ops[l.w.job.op.value].setup));
    DirtyResources(l.m, l.w.job, m.res);
    PromotingAt(m, l.w, l.w.job);
    Move(p, l.journal, m, l.w, PromotePolicy);
  }

  /** The promoted policy and baseline make `completed` true. */
  lemma Promoted(m: Machine, j: Journal)
    requires MachineOk(m) && Sound(m, j) && j.state == Verifying && NoValidation(m) && j.op.Some? && j.op.value in m.ops
    requires m.res.baseline == m.ops[j.op.value].setup
    ensures var n := m.(res := m.res.(policy := PromotedPolicy(m.res.policy, j.version, m.res.baseline)));
      DurableOk(n, j) && Successor(n, j, j.(lastHealthy := Some(j.version), state := Completed))
  {
    var n := m.(res := m.res.(policy := PromotedPolicy(m.res.policy, j.version, m.res.baseline)));
    DirtyResources(m, j, n.res);
    CompletionRecorded(n, j);
  }

  lemma FinalizingAt(m: Machine, w: Worker, job: Journal, pc: Pc)
    requires pc == FinalizeStart || pc == ReleaseGuard || pc == Relaunch || pc == FinalizeEnd || pc == Retain
    requires Terminal(job.state) && (w.ctx == Inner ==> NoSetup(m))
    requires pc == ReleaseGuard || pc == Relaunch ==> job.pending && job.outcome.Some?
    requires pc == FinalizeEnd ==> job.outcome.Some? && job.stage == Dispatched
    ensures Carries(m, w, job, pc)
  {
  }

  lemma FromPromotePolicy(p: Proc, l: Local, child: Proc)
    requires Stands(p, l) && l.w.pc == PromotePolicy && CanProceed(l, child)
    ensures LocalInv(p, ProceedStep(l, child))
  {
    var job := l.w.job;
    Promoted(l.m, job);
    var m := l.m.(res := l.m.res.(policy := PromotedPolicy(l.m.res.policy, job.version, l.m.res.baseline)));
    FinalizingAt(m, l.w, job.(lastHealthy := Some(job.version), state := Completed), FinalizeStart);
    Resave(p, l.journal, m, l.w, job.(lastHealthy := Some(job.version), state := Completed), FinalizeStart);
  }

  lemma DecidingAt(m: Machine, w: Worker, job: Journal)
    requires job.state == RecoveryRequired && SetupHeld(m, job) && SetupGone(m, job.setup) && w.ctx == Body
    ensures Carries(m, w, job, RecoverDecide)
  {
  }

  lemma FromRecoverCheck(p: Proc, l: Local, child: Proc)
    requires Stands(p, l) && l.w.pc == RecoverCheck && CanProceed(l, child)
    ensures LocalInv(p, ProceedStep(l, child))
  {
    DecidingAt(l.m, l.w, l.w.job);
    Move(p, l.journal, l.m, l.w, RecoverDecide);
  }

  lemma DecideTerminal(p: Proc, l: Local)
    requires Stands(p, l) && l.w.pc == RecoverDecide && Terminal(Phase(l.w.job))
    ensures LocalInv(p, l.(w := Decide(l.w)))
  {
    var job := l.w.job.(state := Phase(l.w.job));
    OutcomeResumed(l.m, l.w.job);
    FinalizingAt(l.m, l.w, job, FinalizeStart);
    Resave(p, l.journal, l.m, l.w, job, FinalizeStart);
  }

  lemma DecideDefer(p: Proc, l: Local)
    requires Stands(p, l) && l.w.pc == RecoverDecide
    requires !l.w.job.snapshotComplete && (Phase(l.w.job) == WaitingForExit || Phase(l.w.job) == Snapshotting)
    ensures LocalInv(p, l.(w := Decide(l.w)))
  {
    var job := l.w.job.(state := Deferred);
    Defer(l.m, l.w.job, job);
    FinalizingAt(l.m, l.w, job, FinalizeStart);
    Resave(p, l.journal, l.m, l.w, job, FinalizeStart);
  }

  lemma RollbackAt(m: Machine, w: Worker, job: Journal)
    requires job.state == RecoveryRequired && !Terminal(Phase(job)) && job.snapshotComplete && NoSetup(m) &&
      w.ctx == Body
    ensures Carries(m, w, job, RollbackStart)
  {
  }

  lemma FromRecoverDecide(p: Proc, l: Local, child: Proc)
    requires Stands(p, l) && l.w.pc == RecoverDecide && CanProceed(l, child)
    ensures LocalInv(p, ProceedStep(l, child))
  {
    if Terminal(Phase(l.w.job)) {
      DecideTerminal(p, l);
    } else if l.w.job.snapshotComplete {
      RollbackAt(l.m, l.w, l.w.job);
      Move(p, l.journal, l.m, l.w, RollbackStart);
    } else {
      DecideDefer(p, l);
    }
  }

  lemma RollbackIsDirty(m: Machine, job: Journal)
    requires At(m, RollbackStart, job) && Sound(m, job)
    ensures Dirty(job)
  {
    assert Shape(m, job);
  }

  lemma RollingAt(m: Machine, w: Worker, job: Journal)
    requires job.state == RollingBack && (w.ctx == Inner ==> NoSetup(m))
    ensures Carries(m, w, job, RollbackVerify)
  {
  }

  lemma FromRollbackStart(p: Proc, l: Local, child: Proc)
    requires Stands(p, l) && l.w.pc == RollbackStart && CanProceed(l, child)
    ensures LocalInv(p, ProceedStep(l, child))
  {
    RollbackIsDirty(l.m, l.w.job);
    BeginRollback(l.m, l.w.job);
    RollingAt(l.m, l.w, l.w.job.(state := RollingBack));
    Resave(p, l.journal, l.m, l.w, l.w.job.(state := RollingBack), RollbackVerify);
  }

  lemma FromRollbackVerify(p: Proc, l: Local, child: Proc)
    requires Stands(p, l) && l.w.pc == RollbackVerify && CanProceed(l, child)
    ensures LocalInv(p, ProceedStep(l, child))
  {
    Move(p, l.journal, l.m, l.w, RestoreBundle);
  }

  /** One write of the restoration: the record is unchanged, and so is everything but `res`. */
  lemma RestoreWrite(m: Machine, j: Journal, res: Resources)
    requires MachineOk(m) && Sound(m, j) && j.state == RollingBack && res.policy.enabled == m.res.policy.enabled
    ensures var n := WithRestored(m, j.op).(res := res); MachineOk(n) && Sound(n, j) && Settled(n, j)
  {
    RestoreStarted(m, j);
    DirtyResources(WithRestored(m, j.op), j, res);
  }

  /** The restoration goes bundle, data, baseline, policy. */
  lemma RestoringAt(m: Machine, w: Worker, job: Journal, pc: Pc)
    requires pc == RestoreData || pc == RestoreBaseline || pc == RestorePolicy
    requires job.state == RollingBack && NoLiveApps(m) && (w.ctx == Inner ==> NoSetup(m))
    requires BundleBack(m) && (pc != RestoreData ==> DataBack(m)) && (pc == RestorePolicy ==> BaselineBack(m))
    ensures Carries(m, w, job, pc)
  {
  }

  lemma FromRestoreBundle(p: Proc, l: Local, child: Proc)
    requires Stands(p, l) && l.w.pc == RestoreBundle && CanProceed(l, child)
    ensures LocalInv(p, ProceedStep(l, child))
  {
    var res := l.m.res.(bundle := SnapshotOf(l.m, l.w.job.op).bundle);
    RestoreWrite(l.m, l.w.job, res);
    var n := WithRestored(l.m, l.w.job.op).(res := res);
    RestoringAt(n, l.w, l.w.job, RestoreData);
    Move(p, l.journal, n, l.w, RestoreData);
  }

  lemma FromRestoreData(p: Proc, l: Local, child: Proc)
    requires Stands(p, l) && l.w.pc == RestoreData && CanProceed(l, child)
    ensures LocalInv(p, ProceedStep(l, child))
  {
    var res := l.m.res.(data := SnapshotOf(l.m, l.w.job.op).data);
    RestoreWrite(l.m, l.w.job, res);
    var n := WithRestored(l.m, l.w.job.op).(res := res);
    RestoringAt(n, l.w, l.w.job, RestoreBaseline);
    Move(p, l.journal, n, l.w, RestoreBaseline);
  }

  lemma FromRestoreBaseline(p: Proc, l: Local, child: Proc)
    requires Stands(p, l) && l.w.pc == RestoreBaseline && CanProceed(l, child)
    ensures LocalInv(p, ProceedStep(l, child))
  {
    var res := l.m.res.(baseline := SnapshotOf(l.m, l.w.job.op).installer);
    RestoreWrite(l.m, l.w.job, res);
    var n := WithRestored(l.m, l.w.job.op).(res := res);
    RestoringAt(n, l.w, l.w.job, RestorePolicy);
    Move(p, l.journal, n, l.w, RestorePolicy);
  }

  lemma RestoredAt(m: Machine, w: Worker, job: Journal)
    requires job.state == RestoringUserData && NoLiveApps(m) && (w.ctx == Inner ==> NoSetup(m)) && m.res == m.untouched
    ensures Carries(m, w, job, LaunchValidation(true))
  {
  }

  lemma FromRestorePolicy(p: Proc, l: Local, child: Proc)
    requires Stands(p, l) && l.w.pc == RestorePolicy && CanProceed(l, child)
    ensures LocalInv(p, ProceedStep(l, child))
  {
    var job := l.w.job;
    var res := l.m.res.(policy := RestoredPolicy(SnapshotOf(l.m, job.op).policy, l.m.res.policy));
    var n := l.(m := WithRestored(l.m, job.op).(res := res));
    RestoreWrite(l.m, job, res);
    assert n.m.res == n.m.untouched;
    RestoreRecorded(n.m, job);
    RestoredAt(n.m, l.w, Block(job).(state := RestoringUserData));
    Resave(p, l.journal, n.m, l.w, Block(job).(state := RestoringUserData), LaunchValidation(true));
  }

  lemma FromFinalizeStart(p: Proc, l: Local, child: Proc)
    requires Stands(p, l) && l.w.pc == FinalizeStart && CanProceed(l, child)
    ensures LocalInv(p, ProceedStep(l, child))
  {
    var job := l.w.job.(outcome := Some(l.w.job.state), pending := true);
    OutcomeStated(l.m, l.w.job);
    FinalizingAt(l.m, l.w, job, ReleaseGuard);
    Resave(p, l.journal, l.m, l.w, job, ReleaseGuard);
  }

  lemma FromReleaseGuard(p: Proc, l: Local, child: Proc)
    requires Stands(p, l) && l.w.pc == ReleaseGuard && CanProceed(l, child)
    ensures LocalInv(p, ProceedStep(l, child))
  {
    GuardReleased(l.m, l.w.job);
    FinalizationStated(l.m.(guard := None), l.w.job, l.w.job);
    FinalizingAt(l.m.(guard := None), l.w, l.w.job, Relaunch);
    Resave(p, l.journal, l.m.(guard := None), l.w, l.w.job, Relaunch);
  }

  lemma Redispatched(p: Proc, j: Journal, m: Machine, w: Worker)
    requires Owner(p, j, m, w) && DurableOk(m, j) && w.job == j && Terminal(j.state) && j.relaunched.Some?
    requires j.outcome.Some? && (w.ctx == Inner ==> NoSetup(m))
    ensures LocalInv(p, Local(j, m, SaveThen(w, j.(stage := Dispatched), FinalizeEnd)))
  {
    var job := j.(stage := Dispatched);
    FinalizationStated(m, j, job);
    FinalizingAt(m, w, job, FinalizeEnd);
    Resave(p, j, m, w, job, FinalizeEnd);
  }

  lemma FromRelaunch(p: Proc, l: Local, child: Proc)
    requires Stands(p, l) && l.w.pc == Relaunch && CanProceed(l, child)
    ensures LocalInv(p, ProceedStep(l, child))
  {
    var job := l.w.job;
    if job.skipRelaunch {
      FinalizationStated(l.m, job, job.(pending := false));
      FinalizingAt(l.m, l.w, job.(pending := false), Retain);
      Resave(p, l.journal, l.m, l.w, job.(pending := false), Retain);
    } else if job.relaunched.Some? {
      if job.stage == Created {
        Relaunched(l.m, job, job.relaunched.value);
        Redispatched(p, l.journal, WithRelaunch(l.m, job.op, job.relaunched.value), l.w);
      } else {
        Redispatched(p, l.journal, l.m, l.w);
      }
    } else {
      FirstRelaunch(p, l, child);
    }
  }

  lemma RelaunchingAt(m: Machine, w: Worker, job: Journal)
    requires Terminal(job.state) && job.relaunched.Some? && (w.ctx == Inner ==> NoSetup(m))
    requires job.pending && job.outcome.Some? && job.stage == Created
    ensures Carries(m, w, job, ResumeRelaunch)
  {
  }

  lemma FirstRelaunch(p: Proc, l: Local, child: Proc)
    requires Stands(p, l) && l.w.pc == Relaunch && CanProceed(l, child)
    requires !l.w.job.skipRelaunch && l.w.job.relaunched.None?
    ensures LocalInv(p, RelaunchStep(l, child))
  {
    var job := l.w.job;
    var n := l.(m := l.m.(apps := l.m.apps[child := App(Agent, Suspended)]));
    AppTable(l.m, job, n.m.apps);
    ChildRecorded(n.m, job, child);
    RelaunchingAt(n.m, l.w, job.(relaunched := Some(child), stage := Created));
    Resave(p, l.journal, n.m, l.w, job.(relaunched := Some(child), stage := Created), ResumeRelaunch);
  }

  lemma FromResumeRelaunch(p: Proc, l: Local, child: Proc)
    requires Stands(p, l) && l.w.pc == ResumeRelaunch && CanProceed(l, child)
    ensures LocalInv(p, ProceedStep(l, child))
  {
    Relaunched(l.m, l.w.job, l.w.job.relaunched.value);
    Redispatched(p, l.journal, WithRelaunch(l.m, l.w.job.op, l.w.job.relaunched.value), l.w);
  }

  lemma FromFinalizeEnd(p: Proc, l: Local, child: Proc)
    requires Stands(p, l) && l.w.pc == FinalizeEnd && CanProceed(l, child)
    ensures LocalInv(p, ProceedStep(l, child))
  {
    FinalizationStated(l.m, l.w.job, l.w.job.(pending := false));
    FinalizingAt(l.m, l.w, l.w.job.(pending := false), Retain);
    Resave(p, l.journal, l.m, l.w, l.w.job.(pending := false), Retain);
  }

  lemma ReasonStated(m: Machine, j: Journal, job: Journal)
    requires Successor(m, j, job)
    ensures Successor(m, j, job.(cancelled := false))
  {
    SamePhase(m, job, job.(cancelled := false));
  }

  lemma HandlingAt(m: Machine, w: Worker, job: Journal)
    requires (job.state == RecoveryRequired || NoSetup(m)) && w.ctx == Handler
    ensures Carries(m, w, job, Handling)
  {
  }

  lemma FromRaising(p: Proc, l: Local, child: Proc)
    requires Ready(p, l) && l.w.pc == Raising && CanProceed(l, child)
    ensures LocalInv(p, ProceedStep(l, child))
  {
    ReasonStated(l.m, l.journal, l.w.job);
    HandlingAt(l.m, l.w, l.w.job.(cancelled := false));
    Resave(p, l.journal, l.m, l.w, l.w.job.(cancelled := false), Handling);
  }

  /** Marking a record for recovery keeps its phase. */
  lemma Postponed(m: Machine, j: Journal)
    requires Sound(m, j) && j.state != Idle && j.state != Preparing && j.state != RecoveryRequired && NoSetup(m)
    requires j.op.Some? ==> j.op.value !in m.gone
    ensures var k := j.(recoveryFrom := Some(j.state), state := RecoveryRequired);
      Sound(m, k) && Phase(k) == Phase(j) && Dirty(k) == Dirty(j)
  {
    SamePhase(m, j, j.(recoveryFrom := Some(j.state), state := RecoveryRequired));
  }

  lemma Postpone(p: Proc, l: Local)
    requires Owner(p, l.journal, l.m, l.w) && DurableOk(l.m, l.journal) && Successor(l.m, l.journal, l.w.job)
    requires l.w.ctx == Handler && l.w.job.state != RecoveryRequired && NoSetup(l.m)
    ensures LocalInv(p, l.(w := SaveThen(l.w,
      l.w.job.(recoveryFrom := Some(l.w.job.state), state := RecoveryRequired), Retain)))
  {
    var job := l.w.job.(recoveryFrom := Some(l.w.job.state), state := RecoveryRequired);
    PostponedSuccessor(l.m, l.journal, l.w.job);
    LeavesForRecovery(l.m, l.w, job);
    Resave(p, l.journal, l.m, l.w, job, Retain);
  }

  lemma LeavesForRecovery(m: Machine, w: Worker, job: Journal)
    requires job.state == RecoveryRequired && w.ctx == Handler
    ensures Carries(m, w, job, Retain)
  {
  }

  lemma PostponedSuccessor(m: Machine, j: Journal, job: Journal)
    requires Successor(m, j, job) && job.state != RecoveryRequired && NoSetup(m)
    requires job.op.Some? ==> job.op.value !in m.gone
    ensures Successor(m, j, job.(recoveryFrom := Some(job.state), state := RecoveryRequired))
  {
    Postponed(m, job);
  }

  lemma HandleByRollback(p: Proc, l: Local)
    requires Stands(p, l) && l.w.pc == Handling && (l.w.job.state == Installing || l.w.job.state == Verifying)
    ensures LocalInv(p, l.(w := Handle(l.w)))
  {
    Move(p, l.journal, l.m, l.w.(ctx := Inner), RollbackStart);
  }

  lemma Unchanged(m: Machine, j: Journal)
    requires Sound(m, j) && j.state != Idle && j.state != Preparing
    ensures Successor(m, j, j)
  {
  }

  lemma Retries(p: Proc, j: Journal, m: Machine, w: Worker)
    requires Owner(p, j, m, w) && DurableOk(m, j) && w.job == j && j.state == RecoveryRequired && w.ctx == Handler
    ensures LocalInv(p, Local(j, m, SaveThen(w, j, Retain)))
  {
    LeavesForRecovery(m, w, j);
    Unchanged(m, j);
    Resave(p, j, m, w, j, Retain);
  }

  lemma HandleByRetry(p: Proc, l: Local)
    requires Stands(p, l) && l.w.pc == Handling && l.w.job.state == RecoveryRequired
    ensures LocalInv(p, l.(w := Handle(l.w)))
  {
    Retries(p, l.journal, l.m, l.w);
  }

  lemma FromHandling(p: Proc, l: Local, child: Proc)
    requires Ready(p, l) && l.w.pc == Handling && CanProceed(l, child)
    ensures LocalInv(p, ProceedStep(l, child))
  {
    assert At(l.m, Handling, l.w.job) && l.w.ctx == Handler;
    Unpack(p, l);
    if l.w.job.state == Installing || l.w.job.state == Verifying {
      HandleByRollback(p, l);
    } else if l.w.job.state == Deferred {
      Move(p, l.journal, l.m, l.w, Retain);
    } else if l.w.job.state == RecoveryRequired {
      HandleByRetry(p, l);
    } else {
      Knows(p, l);
      Postpone(p, l);
    }
  }

  lemma FromInnerCatch(p: Proc, l: Local, child: Proc)
    requires Ready(p, l) && l.w.pc == InnerCatch && CanProceed(l, child)
    ensures LocalInv(p, ProceedStep(l, child))
  {
    Knows(p, l);
    Postpone(p, l);
  }

  predicate Forward(pc: Pc) {
    || pc.AwaitExit? || pc.TakeSnapshot? || pc.LaunchSetup? || pc.ResumeSetup? || pc.AwaitSetup? || pc.AwaitLateSetup?
    || pc.SetupExited? || pc.CheckExit? || pc.LaunchValidation? || pc.ResumeValidation? || pc.AwaitValidation?
    || pc.PromoteBaseline? || pc.PromotePolicy?
  }

  lemma ForwardKeeps(p: Proc, l: Local, child: Proc)
    requires Stands(p, l) && CanProceed(l, child) && Forward(l.w.pc)
    ensures LocalInv(p, ProceedStep(l, child))
  {
    match l.w.pc
    case AwaitExit => FromAwaitExit(p, l, child);
    case TakeSnapshot => FromTakeSnapshot(p, l, child);
    case LaunchSetup => FromLaunchSetup(p, l, child);
    case ResumeSetup => FromResumeSetup(p, l, child);
    case AwaitSetup => FromAwaitSetup(p, l, child);
    case AwaitLateSetup => FromAwaitLateSetup(p, l, child);
    case SetupExited => FromAwaitSetup(p, l, child);
    case CheckExit => FromCheckExit(p, l, child);
    case LaunchValidation(_) => FromLaunchValidation(p, l, child);
    case ResumeValidation(_) => FromResumeValidation(p, l, child);
    case AwaitValidation(restoring) =>
      if restoring { FromAwaitRestoration(p, l, child); } else { FromAwaitValidation(p, l, child); }
    case PromoteBaseline => FromPromoteBaseline(p, l, child);
    case PromotePolicy => FromPromotePolicy(p, l, child);
  }

  lemma RecoveryKeeps(p: Proc, l: Local, child: Proc)
    requires Stands(p, l) && CanProceed(l, child) && !Forward(l.w.pc) && l.w.pc != Handling && Synced(l.w.pc)
    ensures LocalInv(p, ProceedStep(l, child))
  {
    match l.w.pc
    case RecoverCheck => FromRecoverCheck(p, l, child);
    case RecoverDecide => FromRecoverDecide(p, l, child);
    case RollbackStart => FromRollbackStart(p, l, child);
    case RollbackVerify => FromRollbackVerify(p, l, child);
    case RestoreBundle => FromRestoreBundle(p, l, child);
    case RestoreData => FromRestoreData(p, l, child);
    case RestoreBaseline => FromRestoreBaseline(p, l, child);
    case RestorePolicy => FromRestorePolicy(p, l, child);
    case FinalizeStart => FromFinalizeStart(p, l, child);
    case ReleaseGuard => FromReleaseGuard(p, l, child);
    case Relaunch => FromRelaunch(p, l, child);
    case ResumeRelaunch => FromResumeRelaunch(p, l, child);
    case FinalizeEnd => FromFinalizeEnd(p, l, child);
  }

  lemma ProceedKeeps(p: Proc, l: Local, child: Proc)
    requires LocalInv(p, l) && l.w.status == Running && CanProceed(l, child)
    ensures LocalInv(p, ProceedStep(l, child))
  {
    if l.w.pc.Begin? {
      FromBegin(p, l, child);
    } else if l.w.pc == Raising {
      FromRaising(p, l, child);
    } else if l.w.pc == InnerCatch {
      FromInnerCatch(p, l, child);
    } else if l.w.pc == Handling {
      FromHandling(p, l, child);
    } else {
      Unpack(p, l);
      if Forward(l.w.pc) {
        ForwardKeeps(p, l, child);
      } else {
        RecoveryKeeps(p, l, child);
      }
    }
  }

  // ----- the other worker steps -----

  lemma AppTimeout(p: Proc, l: Local)
    requires Stands(p, l) && l.w.pc == AwaitExit && !l.w.job.restartOnly
    ensures LocalInv(p, l.(w := TimeoutStep(l.w)))
  {
    var job := l.w.job.(skipRelaunch := true, state := Deferred);
    Defer(l.m, l.w.job, job);
    FinalizingAt(l.m, l.w, job, FinalizeStart);
    Resave(p, l.journal, l.m, l.w, job, FinalizeStart);
  }

  lemma OverdueAt(m: Machine, w: Worker, job: Journal)
    requires job.state == RecoveryRequired && job.recoveryFrom.None? && w.ctx == Body
    ensures Carries(m, w, job, AwaitLateSetup)
  {
  }

  lemma SetupTimeout(p: Proc, l: Local)
    requires Stands(p, l) && l.w.pc == AwaitSetup
    ensures LocalInv(p, l.(w := TimeoutStep(l.w)))
  {
    SetupOverdue(l.m, l.w.job);
    OverdueAt(l.m, l.w, l.w.job.(state := RecoveryRequired));
    Resave(p, l.journal, l.m, l.w, l.w.job.(state := RecoveryRequired), AwaitLateSetup);
  }

  lemma TimeoutKeeps(p: Proc, l: Local)
    requires Ready(p, l) && CanTimeout(l.m, l.w)
    ensures LocalInv(p, l.(w := TimeoutStep(l.w)))
  {
    Unpack(p, l);
    if l.w.pc == AwaitExit {
      AppTimeout(p, l);
    } else {
      SetupTimeout(p, l);
    }
  }

  /** The worker stays where it is while a file write is interrupted. */
  lemma Stay(p: Proc, l: Local, m: Machine)
    requires Stands(p, l) && DurableOk(m, l.journal) && Carries(m, l.w, l.journal, l.w.pc) && m.gone == l.m.gone
    ensures LocalInv(p, l.(m := m))
  {
  }

  lemma PartialRestore(p: Proc, l: Local, tree: Tree, blob: Blob)
    requires Stands(p, l) && (l.w.pc == RestoreBundle || l.w.pc == RestoreData || l.w.pc == RestoreBaseline)
    ensures LocalInv(p, l.(m := PartialStep(l.m, l.w, tree, blob)))
  {
    var m := PartialStep(l.m, l.w, tree, blob);
    RestoreWrite(l.m, l.w.job, m.res);
    assert m == WithRestored(l.m, l.w.job.op).(res := m.res);
    Stay(p, l, m);
  }

  lemma PartialPromotion(p: Proc, l: Local, tree: Tree, blob: Blob)
    requires Stands(p, l) && l.w.pc == PromoteBaseline
    ensures LocalInv(p, l.(m := PartialStep(l.m, l.w, tree, blob)))
  {
    var m := PartialStep(l.m, l.w, tree, blob);
    DirtyResources(l.m, l.w.job, m.res);
    Stay(p, l, m);
  }

  lemma PartialKeeps(p: Proc, l: Local, tree: Tree, blob: Blob)
    requires Ready(p, l) && CanPartial(l.m, l.w)
    ensures LocalInv(p, l.(m := PartialStep(l.m, l.w, tree, blob)))
  {
    Unpack(p, l);
    if l.w.pc == PromoteBaseline {
      PartialPromotion(p, l, tree, blob);
    } else {
      PartialRestore(p, l, tree, blob);
    }
  }

  lemma CommitKeepsAt(m: Machine, job: Journal, pc: Pc)
    requires At(m, pc, job)
    ensures At(Commit(m, job), pc, job)
  {
  }

  /** The journal replacement inside `save()`; the worker is still in the call. */
  lemma Replaced(p: Proc, l: Local)
    requires Ready(p, l) && l.w.pc.Saving?
    ensures Ready(p, Local(l.w.job, Commit(l.m, l.w.job), l.w))
  {
    Committed(l.m, l.journal, l.w.job);
    CommitKeepsAt(l.m, l.w.job, l.w.pc.next);
  }

  lemma Arrive(p: Proc, l: Local)
    requires Ready(p, l) && l.w.pc.Saving? && l.w.job == l.journal
    ensures LocalInv(p, l.(w := Goto(l.w, l.w.pc.next)))
  {
    Aims(p, l);
    Move(p, l.journal, l.m, l.w, l.w.pc.next);
  }

  lemma Aims(p: Proc, l: Local)
    requires Ready(p, l) && l.w.pc.Saving?
    ensures Owner(p, l.journal, l.m, l.w) && DurableOk(l.m, l.journal)
    ensures !l.w.pc.next.Saving? && Carries(l.m, l.w, l.w.job, l.w.pc.next)
  {
    Reads(p, l);
    AimsAt(l.m, l.w);
  }

  lemma Reads(p: Proc, l: Local)
    requires Ready(p, l)
    ensures Owner(p, l.journal, l.m, l.w) && DurableOk(l.m, l.journal) && Aimed(l.m, l.w) == true
  {
  }

  /** What a worker inside `save()` knows of where it goes. */
  ghost predicate Aimed(m: Machine, w: Worker) {
    && (w.pc.Saving? ==> !w.pc.next.Begin?)
    && At(m, Target(w.pc), w.job) && CtxOk(Target(w.pc), w.ctx)
    && (w.ctx == Inner ==> w.job.state != RecoveryRequired && NoSetup(m))
  }

  lemma AimsAt(m: Machine, w: Worker)
    requires Aimed(m, w) == true && w.pc.Saving?
    ensures !w.pc.next.Saving? && Carries(m, w, w.job, w.pc.next)
  {
    assert Target(w.pc) == w.pc.next;
  }

  lemma SaveKeeps(p: Proc, l: Local)
    requires Ready(p, l) && l.w.pc.Saving?
    ensures LocalInv(p, Local(l.w.job, Commit(l.m, l.w.job), Goto(l.w, l.w.pc.next)))
  {
    Replaced(p, l);
    Arrive(p, Local(l.w.job, Commit(l.m, l.w.job), l.w));
  }

  lemma NoSetupWhenThrown(p: Proc, l: Local)
    requires Ready(p, l) && (CanRaise(l.w.pc) || l.w.pc.Saving?)
    ensures l.w.job.state == RecoveryRequired || NoSetup(l.m)
  {
    assert At(l.m, Target(l.w.pc), l.w.job) && SetupHeld(l.m, l.w.job);
    NoSetupElsewhere(l.m, l.w);
  }

  /** While an installation is recorded, only the wait itself leaves the setup program running. */
  lemma NoSetupElsewhere(m: Machine, w: Worker)
    requires SetupHeld(m, w.job) && At(m, Target(w.pc), w.job)
    requires (CanRaise(w.pc) && !w.pc.Begin?) || (w.pc.Saving? && !w.pc.next.Begin? && w.pc.next != AwaitSetup)
    ensures w.job.state == RecoveryRequired || NoSetup(m)
  {
    if w.job.state != Installing && w.job.state != RecoveryRequired {
      assert !SetupMayRun(w.job);
    }
  }

  lemma ThrowKeeps(p: Proc, l: Local)
    requires Ready(p, l) && (CanRaise(l.w.pc) || l.w.pc.Saving?)
    ensures LocalInv(p, l.(w := Throw(l.w)))
  {
    NoSetupWhenThrown(p, l);
    Knows(p, l);
    Thrown(p, l);
  }

  /** The record an exception carries along is still a possible successor of the durable one. */
  lemma Knows(p: Proc, l: Local)
    requires Ready(p, l)
    ensures Owner(p, l.journal, l.m, l.w) && DurableOk(l.m, l.journal) && Successor(l.m, l.journal, l.w.job)
    ensures l.w.ctx == Inner ==> l.w.job.state != RecoveryRequired && NoSetup(l.m)
  {
  }

  lemma Thrown(p: Proc, l: Local)
    requires Owner(p, l.journal, l.m, l.w) && DurableOk(l.m, l.journal) && Successor(l.m, l.journal, l.w.job)
    requires l.w.ctx == Inner ==> l.w.job.state != RecoveryRequired && NoSetup(l.m)
    requires l.w.job.state == RecoveryRequired || NoSetup(l.m)
    ensures LocalInv(p, l.(w := Throw(l.w)))
  {
    var w := Throw(l.w);
    assert w.status == Running ==> Loaded(l.journal, l.m, w);
  }

  lemma LateSaveFailKeeps(p: Proc, l: Local)
    requires Ready(p, l) && l.w.pc.Saving?
    ensures LocalInv(p, Local(l.w.job, Commit(l.m, l.w.job), Throw(l.w)))
  {
    Replaced(p, l);
    ThrowKeeps(p, Local(l.w.job, Commit(l.m, l.w.job), l.w));
  }

  lemma EarlyRaiseKeeps(p: Proc, l: Local)
    requires LocalInv(p, l) && l.w.status == Running && l.w.pc.Begin?
    ensures LocalInv(p, l.(w := Throw(l.w.(job := l.journal))))
  {
  }

  /** Whatever step a worker takes, its part of the invariant survives. */
  lemma WorkerKeeps(p: Proc, l: Local, step: WorkerStep)
    requires LocalInv(p, l) && WorkerEnabled(l, step)
    ensures LocalInv(p, WorkerApply(l, step))
  {
    match step
    case Crash =>
    case Proceed(child) => ProceedKeeps(p, l, child);
    case Partial(tree, blob) => PartialKeeps(p, l, tree, blob);
    case Timeout => TimeoutKeeps(p, l);
    case Save => SaveKeeps(p, l);
    case SaveFail(written) =>
      if written { LateSaveFailKeeps(p, l); } else { ThrowKeeps(p, l); }
    case Raise =>
      if l.w.pc.Begin? { EarlyRaiseKeeps(p, l); } else { ThrowKeeps(p, l); }
    case Prune(deleted) => Pruned(l.m, l.journal, deleted);
  }
}
