/** The application, the setup program and the administrator keep the invariant. */
module EnvironmentProofs {
  import opened Common
  import opened Versions
  import opened Journals
  import opened Protocol
  import opened Invariants
  import opened RecordProofs

  lemma EnvMachine(m: Machine, e: EnvironmentStep)
    requires MachineOk(m) && EnvEnabled(m, e)
    ensures MachineOk(EnvApply(m, e))
  {
  }

  /** Nothing outside touches what the record and the history say of each other. */
  lemma EnvRecord(m: Machine, e: EnvironmentStep, j: Journal)
    requires Sound(m, j) && EnvEnabled(m, e)
    ensures var n := EnvApply(m, e);
      && Shape(n, j) && RelaunchShape(j) && Backed(n, j) && Ahead(n, j) && ContractKept(n, j) && OutcomeKept(j)
      && Guarded(n, j) && RelaunchKept(n, j) && HistoryKept(n, j) && BlockedOk(j) && HealthyOk(n, j)
  {
    assert Shape(m, j) && Backed(m, j) && Ahead(m, j) && HealthyOk(m, j);
  }

  /** No setup program or validation child starts outside, and no application under a guard. */
  lemma EnvProcesses(m: Machine, e: EnvironmentStep, j: Journal)
    requires SetupHeld(m, j) && ValidationHeld(m, j) && Guarded(m, j) && EnvEnabled(m, e)
    requires Dirty(j) || Phase(j) == Snapshotting ==> NoAgents(m)
    ensures var n := EnvApply(m, e);
      SetupHeld(n, j) && ValidationHeld(n, j) && (Dirty(j) || Phase(j) == Snapshotting ==> NoAgents(n))
  {
    if e.AgentStart? {
      assert !Active(j);
    }
  }

  lemma EnvContents(m: Machine, e: EnvironmentStep, j: Journal)
    requires SetupHeld(m, j) && ValidationHeld(m, j) && SnapshotHeld(m, j) && OutcomeTrue(m, j) && EnvEnabled(m, e)
    ensures Dirty(j) ==> SnapshotMatches(EnvApply(m, e), j.op)
    ensures OutcomeTrue(EnvApply(m, e), j)
  {
    match e
    case AgentWrite(p, _) => assert !NoAgents(m);
    case ValidationWrite(p, _) => assert ValidationMayRun(Phase(j));
    case SetupWrite(p, _, _, _) => assert SetupMayRun(j);
    case _ =>
  }

  lemma EnvSound(m: Machine, e: EnvironmentStep, j: Journal)
    requires Sound(m, j) && EnvEnabled(m, e)
    ensures Sound(EnvApply(m, e), j)
  {
    EnvRecord(m, e, j);
    EnvProcesses(m, e, j);
    EnvContents(m, e, j);
    Assemble(EnvApply(m, e), j);
  }

  lemma EnvSettled(m: Machine, e: EnvironmentStep, j: Journal)
    requires Sound(m, j) && Settled(m, j) && EnvEnabled(m, e)
    ensures Settled(EnvApply(m, e), j)
  {
    match e
    case ValidationWrite(p, _) => assert ValidationMayRun(Phase(j));
    case SetupWrite(p, _, _, _) => assert SetupMayRun(j);
    case _ =>
  }

  lemma EnvAt(m: Machine, e: EnvironmentStep, pc: Pc, job: Journal)
    requires Sound(m, job) && At(m, pc, job) && EnvEnabled(m, e)
    ensures At(EnvApply(m, e), pc, job)
  {
    match e
    case AgentStart(_) =>
      assert !Active(job);
      ProcessesAt(m, e, pc, job);
    case AppExit(_) => ProcessesAt(m, e, pc, job);
    case AgentWrite(_, _) => WritesAt(m, e, pc, job);
    case ValidationWrite(_, _) => WritesAt(m, e, pc, job);
    case SetupWrite(_, _, _, _) => WritesAt(m, e, pc, job);
    case SetupExit(_) => ProcessesAt(m, e, pc, job);
    case Revoke =>
  }

  lemma ProcessesAt(m: Machine, e: EnvironmentStep, pc: Pc, job: Journal)
    requires At(m, pc, job) && EnvEnabled(m, e) && (e.AgentStart? || e.AppExit? || e.SetupExit?)
    requires e.AgentStart? ==> !Active(job)
    ensures At(EnvApply(m, e), pc, job)
  {
  }

  /** Where the worker relies on resources, nothing that could write them runs. */
  lemma WritesAt(m: Machine, e: EnvironmentStep, pc: Pc, job: Journal)
    requires SetupHeld(m, job) && ValidationHeld(m, job) && SnapshotHeld(m, job)
    requires At(m, pc, job) && EnvEnabled(m, e) && (e.AgentWrite? || e.ValidationWrite? || e.SetupWrite?)
    ensures At(EnvApply(m, e), pc, job)
  {
    match e
    case AgentWrite(p, _) => assert !NoAgents(m) && !NoLiveApps(m);
    case ValidationWrite(p, _) => assert ValidationMayRun(Phase(job)) && !NoValidation(m) && !NoLiveApps(m);
    case SetupWrite(p, _, _, _) => assert SetupMayRun(job) && !NoSetup(m);
    case _ =>
  }

  lemma EnvEntering(m: Machine, e: EnvironmentStep, j: Journal, job: Journal)
    requires Sound(m, job) && Entering(j, m, job) && EnvEnabled(m, e)
    ensures Entering(j, EnvApply(m, e), job)
  {
    match e
    case SetupWrite(p, _, _, _) => assert SetupMayRun(job);
    case _ =>
  }

  lemma EnvWorker(p: Proc, j: Journal, m: Machine, w: Worker, e: EnvironmentStep)
    requires WorkerOk(p, j, m, w) && EnvEnabled(m, e)
    ensures WorkerOk(p, j, EnvApply(m, e), w)
  {
    if w.status == Running && !w.pc.Begin? {
      EnvSound(m, e, w.job);
      EnvAt(m, e, Target(w.pc), w.job);
      EnvEntering(m, e, j, w.job);
      assert NoSetup(m) ==> NoSetup(EnvApply(m, e));
    }
  }

  lemma EnvService(s: State, e: EnvironmentStep)
    requires ServiceOk(s) && EnvEnabled(s.m, e)
    ensures ServiceOk(s.(m := EnvApply(s.m, e)))
  {
    match s.svc
    case SvcSave(current, purpose) =>
      EnvSound(s.m, e, current);
      if purpose == ForStart {
        EnvSound(s.m, e, current.(state := Preparing));
      }
    case _ =>
      if Sound(s.m, s.journal.(state := Preparing)) {
        EnvSound(s.m, e, s.journal.(state := Preparing));
      }
  }

  lemma EnvKeeps(s: State, e: EnvironmentStep)
    requires Inv(s) && EnvEnabled(s.m, e)
    ensures Inv(s.(m := EnvApply(s.m, e)))
  {
    EnvMachine(s.m, e);
    EnvSound(s.m, e, s.journal);
    EnvSettled(s.m, e, s.journal);
    EnvService(s, e);
    forall p | p in s.workers
      ensures WorkerOk(p, s.journal, EnvApply(s.m, e), s.workers[p])
    {
      EnvWorker(p, s.journal, s.m, s.workers[p], e);
    }
  }
}
