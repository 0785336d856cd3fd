/**
 * The three ways an operation can be lost for good. Finalization records the
 * suspended application process before resuming it and never launches a second
 * one (windows/updater/worker_main.cpp:36-41): if that process disappears first,
 * every replay throws. A cancelled preparation takes the directory of its
 * operation with it (windows/updater/service_main.cpp:112-129): a restart accepted
 * afterwards sets the boot guard, but no worker can ever be dispatched. And a
 * recovery demands the hash of the worker that only a first spawn puts on record
 * (windows/updater/service_main.cpp:135-143): a request that ends between its own
 * save and that one can never be recovered.
 */
module LostChild {
  import opened Common
  import opened Journals
  import opened Protocol
  import opened Invariants
  import opened Runs
  import opened ManualInstall

  /** The process was recorded, was not dispatched, and is gone. */
  ghost predicate LostRecord(m: Machine, j: Journal) {
    && j.stage == Created && j.relaunched.Some?
    && j.relaunched.value in m.apps && m.apps[j.relaunched.value].status == Dead
  }

  /** A worker that has read the journal knows no better. */
  ghost predicate LostWorker(m: Machine, w: Worker) {
    w.status == Running && !w.pc.Begin? ==> LostRecord(m, w.job)
  }

  ghost predicate Lost(s: State) {
    LostRecord(s.m, s.journal) && forall p | p in s.workers :: LostWorker(s.m, s.workers[p])
  }

  /** The guard is set for an operation whose directory is gone. */
  ghost predicate Stuck(s: State) {
    s.journal.op.Some? && s.journal.op.value in s.m.gone && s.m.guard.Some?
  }

  /** A recovery would find the hash of the worker. */
  predicate Vouched(j: Journal) {
    j.hashed || (j.state != WaitingForExit && j.state != RecoveryRequired)
  }

  /** The request is on record, the hash of its worker is not, and the request is over. */
  predicate Unhashed(s: State) {
    !Vouched(s.journal) && (InSpawn(s.svc) ==> s.svc.purpose == ForRecovery)
  }

  ghost predicate DeadEnd(s: State) {
    Lost(s) || Stuck(s) || Unhashed(s)
  }

  // ----- a lost child stays lost -----

  /** What the record of a lost child says, and where a worker with it can be. */
  lemma OnlyFinalizationRemains(p: Proc, l: Local)
    requires WorkerOk(p, l.journal, l.m, l.w) && l.w.status == Running && !l.w.pc.Begin? && LostWorker(l.m, l.w)
    ensures Finalizing(Target(l.w.pc), l.w.job)
    ensures l.w.job.pending && Terminal(Phase(l.w.job)) && !l.w.job.skipRelaunch
  {
    assert Shape(l.m, l.w.job) && RelaunchShape(l.w.job) && At(l.m, Target(l.w.pc), l.w.job);
    OnlyThese(l.m, Target(l.w.pc), l.w.job);
  }

  predicate Finalizing(pc: Pc, job: Journal) {
    && (|| pc.RecoverCheck? || pc.RecoverDecide? || pc.FinalizeStart? || pc.ReleaseGuard? || pc.Relaunch?
        || pc.ResumeRelaunch? || pc.Raising? || pc.Handling? || pc.InnerCatch? || pc.Retain?)
    && (job.state == RecoveryRequired || Terminal(job.state))
    && (pc.InnerCatch? ==> Terminal(job.state))
  }

  lemma OnlyThese(m: Machine, pc: Pc, job: Journal)
    requires At(m, pc, job) && Terminal(Phase(job)) && job.stage == Created && !pc.Begin?
    ensures Finalizing(pc, job)
  {
  }

  lemma DecidedKeepsLost(l: Local, child: Proc)
    requires CanProceed(l, child) && LostRecord(l.m, l.w.job) && LostRecord(l.m, l.journal)
    requires l.w.pc.RecoverCheck? || l.w.pc.RecoverDecide? || l.w.pc.Raising? || l.w.pc.InnerCatch?
    ensures var n := ProceedStep(l, child); LostRecord(n.m, n.journal) && LostWorker(n.m, n.w)
  {
  }

  lemma FinalizedKeepsLost(l: Local, child: Proc)
    requires CanProceed(l, child) && LostRecord(l.m, l.w.job) && LostRecord(l.m, l.journal) && !l.w.job.skipRelaunch
    requires l.w.pc.FinalizeStart? || l.w.pc.ReleaseGuard? || l.w.pc.Relaunch? || l.w.pc.ResumeRelaunch?
    ensures var n := ProceedStep(l, child); LostRecord(n.m, n.journal) && LostWorker(n.m, n.w)
  {
  }

  lemma HandledKeepsLost(m: Machine, w: Worker)
    requires LostRecord(m, w.job)
    ensures LostWorker(m, Handle(w))
  {
  }

  /** The finalization replay gets as far as the relaunch and no further. */
  lemma ProceedKeepsLost(p: Proc, l: Local, child: Proc)
    requires WorkerOk(p, l.journal, l.m, l.w) && l.w.status == Running && CanProceed(l, child)
    requires LostRecord(l.m, l.journal) && LostWorker(l.m, l.w)
    ensures var n := ProceedStep(l, child); LostRecord(n.m, n.journal) && LostWorker(n.m, n.w)
  {
    if !l.w.pc.Begin? {
      OnlyFinalizationRemains(p, l);
      if l.w.pc.Handling? {
        HandledKeepsLost(l.m, l.w);
      } else if l.w.pc.RecoverCheck? || l.w.pc.RecoverDecide? || l.w.pc.Raising? || l.w.pc.InnerCatch? {
        DecidedKeepsLost(l, child);
      } else {
        FinalizedKeepsLost(l, child);
      }
    }
  }

  lemma OtherKeepsLost(l: Local, step: WorkerStep)
    requires WorkerEnabled(l, step) && !step.Proceed? && LostRecord(l.m, l.journal) && LostRecord(l.m, l.w.job)
    requires Finalizing(Target(l.w.pc), l.w.job)
    ensures var n := WorkerApply(l, step); LostRecord(n.m, n.journal) && LostWorker(n.m, n.w)
  {
  }

  lemma WorkerKeepsLost(p: Proc, l: Local, step: WorkerStep)
    requires WorkerOk(p, l.journal, l.m, l.w) && WorkerEnabled(l, step)
    requires LostRecord(l.m, l.journal) && LostWorker(l.m, l.w)
    ensures var n := WorkerApply(l, step); LostRecord(n.m, n.journal) && LostWorker(n.m, n.w)
  {
    if step.Proceed? {
      ProceedKeepsLost(p, l, step.child);
    } else if l.w.status == Running && !l.w.pc.Begin? {
      OnlyFinalizationRemains(p, l);
      OtherKeepsLost(l, step);
    }
  }

  lemma AloneKeepsLost(s: State, p: Proc, n: Local)
    requires s.svc == SvcIdle && p in s.workers
    requires forall q | q in s.workers && q != p :: s.workers[q].status != Running
    requires LostRecord(n.m, n.journal) && LostWorker(n.m, n.w)
    ensures Lost(s.(journal := n.journal, m := n.m, workers := s.workers[p := n.w]))
  {
  }

  lemma StoppedKeepsLost(s: State, p: Proc)
    requires Lost(s) && p in s.workers
    ensures Lost(s.(workers := s.workers[p := s.workers[p].(status := Dead)]))
  {
  }

  lemma WorkerStepKeepsLost(s: State, p: Proc, step: WorkerStep)
    requires Inv(s) && Lost(s) && Enabled(s, WrkStep(p, step))
    ensures Lost(Apply(s, WrkStep(p, step)))
  {
    var l := Local(s.journal, s.m, s.workers[p]);
    if s.workers[p].status == Running {
      RunningIsAlone(s, p);
      WorkerKeepsLost(p, l, step);
      AloneKeepsLost(s, p, WorkerApply(l, step));
    } else {
      StoppedKeepsLost(s, p);
    }
  }

  lemma EnvKeepsLost(s: State, e: EnvironmentStep)
    requires Lost(s) && EnvEnabled(s.m, e)
    ensures Lost(s.(m := EnvApply(s.m, e)))
  {
    var n := EnvApply(s.m, e);
    forall p | p in s.workers
      ensures LostWorker(n, s.workers[p])
    {
      assert LostWorker(s.m, s.workers[p]);
    }
  }

  /** The record of a lost child is pending, so the service only ever tries to recover it. */
  lemma LostIsPending(s: State)
    requires Inv(s) && LostRecord(s.m, s.journal)
    ensures s.journal.pending && Terminal(Phase(s.journal)) && !s.journal.skipRelaunch
    ensures !s.svc.SvcSave? && !s.svc.SvcUndo?
    ensures InSpawn(s.svc) ==> s.svc.purpose == ForRecovery
    ensures s.svc.SvcResume? ==> s.svc.child in s.workers && s.workers[s.svc.child].pc.Begin?
  {
    assert Shape(s.m, s.journal) && RelaunchShape(s.journal);
  }

  lemma ServiceKeepsLost(s: State, v: ServiceStep)
    requires Inv(s) && Lost(s) && SvcEnabled(s, v)
    ensures Lost(SvcApply(s, v)) && SvcApply(s, v).journal.op == s.journal.op
  {
    LostIsPending(s);
    PendingKeepsLost(s, v);
  }

  lemma PendingKeepsLost(s: State, v: ServiceStep)
    requires Lost(s) && SvcEnabled(s, v) && s.journal.pending && !s.svc.SvcSave? && !s.svc.SvcUndo?
    requires InSpawn(s.svc) ==> s.svc.purpose == ForRecovery
    requires s.svc.SvcResume? ==> s.svc.child in s.workers && s.workers[s.svc.child].pc.Begin?
    ensures Lost(SvcApply(s, v)) && SvcApply(s, v).journal.op == s.journal.op
  {
    if v.Fail? {
      FailKeepsLost(s);
    } else {
      SpawnKeepsLost(s, v);
    }
  }

  lemma FailKeepsLost(s: State)
    requires Lost(s) && SvcEnabled(s, Fail) && (InSpawn(s.svc) ==> s.svc.purpose == ForRecovery)
    ensures Lost(SvcApply(s, Fail)) && SvcApply(s, Fail).journal.op == s.journal.op
  {
  }

  lemma SpawnKeepsLost(s: State, v: ServiceStep)
    requires Lost(s) && SvcEnabled(s, v) && !v.Fail? && s.journal.pending && !s.svc.SvcSave? && !s.svc.SvcUndo?
    requires s.svc.SvcResume? ==> s.svc.child in s.workers && s.workers[s.svc.child].pc.Begin?
    ensures Lost(SvcApply(s, v)) && SvcApply(s, v).journal.op == s.journal.op
  {
  }

  lemma StepKeepsLost(s: State, step: Step)
    requires Inv(s) && Lost(s)
    ensures Lost(Apply(s, step)) && Apply(s, step).journal.op == s.journal.op
  {
    if Enabled(s, step) {
      match step
      case EnvStep(e) => EnvKeepsLost(s, e);
      case SvcStep(v) => ServiceKeepsLost(s, v);
      case WrkStep(p, w) =>
        WorkerStepKeepsLost(s, p, w);
        WorkerKeepsOperation(s, p, w);
    }
  }

  lemma {:induction false} RunKeepsLost(s: State, steps: seq<Step>)
    requires Inv(s) && Lost(s)
    ensures Lost(After(s, steps)) && After(s, steps).journal.op == s.journal.op
    decreases |steps|
  {
    if steps != [] {
      StepKeeps(s, steps[0]);
      StepKeepsLost(s, steps[0]);
      RunKeepsLost(Apply(s, steps[0]), steps[1..]);
    }
  }

  predicate IsRequest(v: ServiceStep) {
    v.Prepare? || v.Cancel? || v.BeginStart? || v.BeginRestart?
  }

  /** From then on no update is prepared, cancelled, started or restarted, and no manual install is allowed. */
  lemma LostChildBlocksForever(s: State, steps: seq<Step>, v: ServiceStep)
    requires Reachable(s) && Lost(s) && IsRequest(v)
    ensures !SvcEnabled(After(s, steps), v)
    ensures var t := After(s, steps); CheckInstall(t.journal, t.m.guard, false, false).Err?
  {
    ReachableInv(s);
    RunKeepsLost(s, steps);
    RunKeeps(s, steps);
    LostIsPending(After(s, steps));
  }

  // ----- a removed directory stays removed -----

  lemma WorkerKeepsStuck(s: State, p: Proc, step: WorkerStep)
    requires Inv(s) && Stuck(s) && Enabled(s, WrkStep(p, step))
    ensures Stuck(Apply(s, WrkStep(p, step)))
  {
    assert WorkerOk(p, s.journal, s.m, s.workers[p]);
  }

  /** Nothing in progress is about to take the guard back. */
  lemma StuckService(s: State)
    requires Inv(s) && Stuck(s)
    ensures !s.svc.SvcUndo? && s.journal.state != Preparing
    ensures s.svc.SvcSave? ==> s.svc.current.op == s.journal.op
    ensures InSpawn(s.svc) ==> s.svc.purpose != ForStart
  {
    assert Backed(s.m, s.journal);
    PreparedHasDirectory(s.m, s.journal.(state := Preparing));
  }

  lemma PreparedHasDirectory(m: Machine, j: Journal)
    requires j.op.Some? && j.op.value in m.gone && j.state == Preparing
    ensures !Sound(m, j)
  {
    assert !Backed(m, j);
  }

  lemma ServiceKeepsStuck(s: State, v: ServiceStep)
    requires Stuck(s) && SvcEnabled(s, v) && !s.svc.SvcUndo? && (s.svc.SvcSave? ==> s.svc.current.op == s.journal.op)
    requires InSpawn(s.svc) ==> s.svc.purpose != ForStart
    ensures Stuck(SvcApply(s, v)) && SvcApply(s, v).journal.op == s.journal.op
  {
  }

  lemma EnvKeepsStuck(s: State, e: EnvironmentStep)
    requires Stuck(s) && EnvEnabled(s.m, e)
    ensures Stuck(s.(m := EnvApply(s.m, e)))
  {
  }

  lemma StepKeepsStuck(s: State, step: Step)
    requires Inv(s) && Stuck(s)
    ensures Stuck(Apply(s, step)) && Apply(s, step).journal.op == s.journal.op
  {
    if Enabled(s, step) {
      match step
      case EnvStep(e) => EnvKeepsStuck(s, e);
      case SvcStep(v) =>
        StuckService(s);
        ServiceKeepsStuck(s, v);
      case WrkStep(p, w) =>
        WorkerKeepsStuck(s, p, w);
        WorkerKeepsOperation(s, p, w);
    }
  }

  lemma {:induction false} RunKeepsStuck(s: State, steps: seq<Step>)
    requires Inv(s) && Stuck(s)
    ensures Stuck(After(s, steps)) && After(s, steps).journal.op == s.journal.op
    decreases |steps|
  {
    if steps != [] {
      StepKeeps(s, steps[0]);
      StepKeepsStuck(s, steps[0]);
      RunKeepsStuck(Apply(s, steps[0]), steps[1..]);
    }
  }

  /** The guard stays, no worker runs again, and neither an update nor a manual install is accepted. */
  lemma StuckForever(s: State, steps: seq<Step>, v: ServiceStep)
    requires Reachable(s) && Stuck(s) && (v.Prepare? || v.Cancel? || v.BeginStart?)
    ensures var t := After(s, steps);
      && t.m.guard.Some? && NoWorkers(t.workers) && !SvcEnabled(t, v)
      && CheckInstall(t.journal, t.m.guard, false, false).Err?
  {
    ReachableInv(s);
    RunKeepsStuck(s, steps);
    RunKeeps(s, steps);
    NoWorkersWhenStuck(After(s, steps));
  }

  lemma NoWorkersWhenStuck(s: State)
    requires Inv(s) && Stuck(s)
    ensures NoWorkers(s.workers)
  {
    forall p | p in s.workers
      ensures s.workers[p].status != Running
    {
      assert WorkerOk(p, s.journal, s.m, s.workers[p]);
    }
  }

  // ----- a missing hash is never made up for -----

  lemma ServiceKeepsUnhashed(s: State, v: ServiceStep)
    requires ServiceOk(s) && Unhashed(s) && SvcEnabled(s, v)
    ensures Unhashed(SvcApply(s, v)) && SvcApply(s, v).journal.op == s.journal.op
  {
  }

  lemma StepKeepsUnhashed(s: State, step: Step)
    requires Inv(s) && Unhashed(s)
    ensures Unhashed(Apply(s, step)) && Apply(s, step).journal.op == s.journal.op
  {
    if Enabled(s, step) {
      match step
      case EnvStep(_) =>
      case SvcStep(v) => ServiceKeepsUnhashed(s, v);
      case WrkStep(p, _) => assert WorkerOk(p, s.journal, s.m, s.workers[p]);
    }
  }

  lemma {:induction false} RunKeepsUnhashed(s: State, steps: seq<Step>)
    requires Inv(s) && Unhashed(s)
    ensures Unhashed(After(s, steps)) && After(s, steps).journal.op == s.journal.op
    decreases |steps|
  {
    if steps != [] {
      StepKeeps(s, steps[0]);
      StepKeepsUnhashed(s, steps[0]);
      RunKeepsUnhashed(Apply(s, steps[0]), steps[1..]);
    }
  }

  lemma NoWorkersWhenUnhashed(s: State)
    requires Inv(s) && Unhashed(s)
    ensures NoWorkers(s.workers)
  {
    forall p | p in s.workers
      ensures s.workers[p].status != Running
    {
      assert WorkerOk(p, s.journal, s.m, s.workers[p]);
    }
  }

  /** No worker runs again, and no request and no manual install is accepted. */
  lemma UnhashedForever(s: State, steps: seq<Step>, v: ServiceStep)
    requires Reachable(s) && Unhashed(s) && IsRequest(v)
    ensures var t := After(s, steps);
      && NoWorkers(t.workers) && !SvcEnabled(t, v)
      && CheckInstall(t.journal, t.m.guard, false, false).Err?
  {
    ReachableInv(s);
    RunKeepsUnhashed(s, steps);
    RunKeeps(s, steps);
    NoWorkersWhenUnhashed(After(s, steps));
    UnhashedRefuses(After(s, steps), v);
  }

  lemma UnhashedRefuses(s: State, v: ServiceStep)
    requires Unhashed(s) && IsRequest(v) && Guarded(s.m, s.journal)
    ensures !SvcEnabled(s, v) && CheckInstall(s.journal, s.m.guard, false, false).Err?
  {
  }
}
