/**
 * The inductive invariant of the update protocol. `Sound` holds of the durable
 * journal and of every record a live process is about to write; `At` says what
 * a worker knows where it stands.
 */
module Invariants {
  import opened Common
  import opened Versions
  import opened Journals
  import opened Protocol

  // ----- the machine and its history -----

  ghost predicate OneRelaunchEach(h: History) {
    forall op, p, q | (op, p) in h.relaunches && (op, q) in h.relaunches :: p == q
  }

  ghost predicate MachineOk(m: Machine) {
    && m.res.policy.enabled == m.untouched.policy.enabled
    && m.hist.completed !! m.hist.restored
    && m.hist.completed <= m.hist.issued
    && m.hist.restored <= m.hist.issued
    && OneRelaunchEach(m.hist)
    && (forall op, p | (op, p) in m.hist.relaunches :: op in m.hist.issued)
    && m.ops.Keys <= m.hist.issued && m.gone <= m.hist.issued
    && (!m.contract ==> m.hist.completed == {} && m.hist.restored == {})
  }

  // ----- a journal record -----

  predicate SnapshotNeeded(x: OpState) {
    || x == Installing || x == Verifying || x == RollingBack || x == RestoringUserData
    || x == Completed || x == RolledBack || x == RecoveryRequired
  }

  predicate FirstPass(x: OpState) {
    x == Preparing || x == WaitingForExit || x == Snapshotting || x == Installing || x == Verifying
  }

  /** Which fields can occur together. */
  ghost predicate Shape(m: Machine, j: Journal) {
    && (j.op.None? <==> j.state == Idle)
    && (j.op.Some? ==> j.op.value in m.hist.issued && j.op.value in m.ops)
    && (j.state == RecoveryRequired && j.recoveryFrom.Some? ==>
          Interruptible(j.recoveryFrom.value) || Terminal(j.recoveryFrom.value))
    && (SnapshotNeeded(Phase(j)) ==> j.snapshotComplete)
    && (j.snapshotComplete ==> SnapshotNeeded(Phase(j)) || Phase(j) == Snapshotting)
    && (j.restartOnly ==> Phase(j) == WaitingForExit || Phase(j) == Deferred)
    && (j.pending ==> Terminal(Phase(j)))
    && (FirstPass(j.state) && !j.restartOnly ==> j.recoveryFrom.None?)
  }

  /** As long as no worker was started for the operation, the worker's hash need not be on record. */
  predicate MayLackHash(j: Journal) {
    && j.outcome.None?
    && (|| j.state == Idle || j.state == Preparing || j.state == WaitingForExit || j.state == RecoveryRequired
        || (j.state == Deferred && !j.pending && !j.restartOnly))
  }

  /** When a relaunch, its omission, a restart, a cancellation or the worker's hash is on record. */
  predicate RelaunchShape(j: Journal) {
    && (j.restartOnly <==> j.recoveryAttempted)
    && (j.relaunched.None? <==> j.stage == NotLaunched)
    && (j.stage == Created ==> j.pending)
    && (j.skipRelaunch ==> j.relaunched.None?)
    && (j.relaunched.Some? ==> Terminal(Phase(j)) || j.restartOnly)
    && (j.cancelled ==> Phase(j) == Deferred && (j.restartOnly ==> j.outcome.Some?))
    && (j.hashed || MayLackHash(j))
  }

  /** What the record refers to exists: the snapshot, the relaunched process and the directory. */
  ghost predicate Backed(m: Machine, j: Journal) {
    && (j.snapshotComplete ==> HasSnapshot(m, j.op))
    && (j.relaunched.Some? ==> j.relaunched.value in m.apps)
    && (j.op.Some? && j.op.value in m.gone ==>
          && j.outcome.None?
          && (Phase(j) == Deferred || (Phase(j) == WaitingForExit && j.restartOnly))
          && (m.guard.Some? || (j.state == Deferred && !j.pending)))
    && (j.restartOnly && j.outcome.None? ==> m.guard.Some?)
  }

  /** An operation that has not completed is about a later version than the installed one. */
  ghost predicate Ahead(m: Machine, j: Journal) {
    j.op.Some? && Phase(j) != Completed ==> Later(j.version, m.untouched.policy.installedVersion)
  }

  /** With the application contract off, only restarts are dispatched. */
  ghost predicate ContractKept(m: Machine, j: Journal) {
    !m.contract ==>
      !j.snapshotComplete && Phase(j) != Snapshotting && (Phase(j) == WaitingForExit ==> j.restartOnly)
  }

  /** The recorded update outcome is never contradicted. */
  ghost predicate OutcomeKept(j: Journal) {
    j.outcome.Some? ==>
      && Terminal(j.outcome.value)
      && (|| Phase(j) == j.outcome.value
          || (j.outcome.value == Deferred && Phase(j) == WaitingForExit && j.restartOnly))
  }

  ghost predicate Guarded(m: Machine, j: Journal) {
    && (m.guard.Some? ==> m.guard == j.op)
    && (Active(j) ==> m.guard.Some?)
  }

  predicate SetupMayRun(j: Journal) {
    || (j.state == Installing)
    || (j.state == RecoveryRequired && (Phase(j) == Installing || Phase(j) == RecoveryRequired))
  }

  ghost predicate SetupHeld(m: Machine, j: Journal) {
    forall q | q in m.setups && m.setups[q] == Running :: j.setup == Some(q) && SetupMayRun(j)
  }

  predicate ValidationMayRun(x: OpState) {
    x == Verifying || x == RollingBack || x == RestoringUserData
  }

  ghost predicate ValidationHeld(m: Machine, j: Journal) {
    forall q | q in m.apps && m.apps[q] == App(Validation, Running) ::
      j.validation == Some(q) && ValidationMayRun(Phase(j))
  }

  ghost predicate NoValidation(m: Machine) {
    forall q | q in m.apps :: m.apps[q] != App(Validation, Running)
  }

  ghost predicate NoAgents(m: Machine) {
    forall q | q in m.apps :: m.apps[q] != App(Agent, Running)
  }

  /** The snapshot holds what the resources were before the operation touched them. */
  ghost predicate SnapshotMatches(m: Machine, op: Option<OpId>) {
    && HasSnapshot(m, op)
    && var copy := SnapshotOf(m, op);
       && copy.bundle == m.untouched.bundle
       && copy.data == m.untouched.data
       && copy.installer == m.untouched.baseline
       && copy.policy.(enabled := m.untouched.policy.enabled) == m.untouched.policy
  }

  ghost predicate SnapshotHeld(m: Machine, j: Journal) {
    && (Dirty(j) ==> SnapshotMatches(m, j.op))
    && (Dirty(j) || Phase(j) == Snapshotting ==> NoAgents(m))
  }

  /** `completed` names the new release; `rolledBack` has everything but the user's data back. */
  ghost predicate OutcomeTrue(m: Machine, j: Journal) {
    && (Phase(j) == Completed && j.op.Some? && j.op.value in m.ops ==>
          && m.res.policy.installedVersion == j.version
          && m.res.policy.workerVersion == j.version
          && m.res.baseline == m.ops[j.op.value].setup
          && m.res.policy.baselineSha == Sha256(m.res.baseline))
    && (Phase(j) == RolledBack ==> m.res.(data := m.untouched.data) == m.untouched)
  }

  ghost predicate RelaunchKept(m: Machine, j: Journal) {
    forall op, p | (op, p) in m.hist.relaunches :: j.op == Some(op) ==> j.relaunched == Some(p)
  }

  ghost predicate HistoryKept(m: Machine, j: Journal) {
    j.op.Some? ==>
      && (j.op.value in m.hist.completed ==> Phase(j) == Completed)
      && (j.op.value in m.hist.restored ==>
            Phase(j) == RollingBack || Phase(j) == RestoringUserData || Phase(j) == RolledBack)
  }

  ghost predicate Distinct(s: seq<Version>) {
    forall i, k | 0 <= i < k < |s| :: s[i] != s[k]
  }

  ghost predicate BlockedOk(j: Journal) {
    && Distinct(j.blocked)
    && (j.op.None? ==> j.blocked == [])
    && |j.blocked| <= MaxBlocked
    && (j.op.Some? && j.version !in j.blocked ==> |j.blocked| < MaxBlocked)
    && (j.lastBlocked.Some? ==> j.lastBlocked.value in j.blocked)
    && (j.op.Some? && j.version in j.blocked ==>
          Phase(j) == RollingBack || Phase(j) == RestoringUserData || Phase(j) == RolledBack)
    && (Phase(j) == RestoringUserData || Phase(j) == RolledBack ==> j.version in j.blocked)
  }

  /** Every version that ever completed is at most the last healthy one, and none is blocked. */
  ghost predicate HealthyOk(m: Machine, j: Journal) {
    && (Phase(j) == Completed ==> j.lastHealthy == Some(j.version))
    && (j.op.Some? && Phase(j) != Completed && j.lastHealthy.Some? ==> Later(j.version, j.lastHealthy.value))
    && (forall v | v in m.hist.healthy ::
          v !in j.blocked && j.lastHealthy.Some? && (j.lastHealthy.value == v || Later(j.lastHealthy.value, v)))
  }

  /** The records that fit the machine. */
  ghost predicate Fits(m: Machine, j: Journal) {
    && Shape(m, j) && RelaunchShape(j) && Backed(m, j) && Ahead(m, j) && ContractKept(m, j) && OutcomeKept(j)
    && Guarded(m, j) && SetupHeld(m, j) && ValidationHeld(m, j)
    && SnapshotHeld(m, j) && OutcomeTrue(m, j)
    && RelaunchKept(m, j) && HistoryKept(m, j)
    && BlockedOk(j) && HealthyOk(m, j)
  }

  /** `Fits`, folded: proofs carry it along as one fact. */
  ghost predicate Sound(m: Machine, j: Journal) {
    Fits(m, j) == true
  }

  /** Outside the dirty phases the durable record promises an untouched machine; an outcome is in the history. */
  ghost predicate Settled(m: Machine, j: Journal) {
    && (!Dirty(j) ==> m.res == m.untouched)
    && (Phase(j) == Completed && j.op.Some? ==> j.op.value in m.hist.completed && j.version in m.hist.healthy)
  }

  // ----- the worker -----

  /** Outside `save()` and the exception path the in-memory record is the durable one. */
  predicate Synced(pc: Pc) {
    !pc.Saving? && !pc.Raising? && !pc.InnerCatch?
  }

  /** Where the worker is, or will be once `save()` returns. */
  function Target(pc: Pc): Pc {
    if pc.Saving? then pc.next else pc
  }

  ghost predicate BundleBack(m: Machine) { m.res.bundle == m.untouched.bundle }
  ghost predicate DataBack(m: Machine) { m.res.data == m.untouched.data }
  ghost predicate BaselineBack(m: Machine) { m.res.baseline == m.untouched.baseline }

  /** What the worker has established where it stands, in terms of its own record. */
  ghost predicate At(m: Machine, pc: Pc, job: Journal) {
    match pc
    case Begin(_) => true
    case AwaitExit => job.state == WaitingForExit
    case TakeSnapshot => job.state == Snapshotting && !job.snapshotComplete
    case LaunchSetup => job.state == Snapshotting && job.snapshotComplete
    case ResumeSetup => job.state == Installing && NoSetup(m)
    case AwaitSetup => job.state == Installing
    case AwaitLateSetup => job.state == RecoveryRequired && job.recoveryFrom.None?
    case SetupExited => job.state == Installing && NoSetup(m)
    case CheckExit => job.state == Installing && NoSetup(m)
    case LaunchValidation(restoring) =>
      && NoValidation(m)
      && job.state == (if restoring then RestoringUserData else Verifying)
      && (restoring ==> m.res == m.untouched)
    case ResumeValidation(restoring) =>
      && NoValidation(m)
      && job.state == (if restoring then RestoringUserData else Verifying)
      && (restoring ==> m.res == m.untouched)
    case AwaitValidation(restoring) =>
      && job.state == (if restoring then RestoringUserData else Verifying)
      && (restoring ==> m.res.(data := m.untouched.data) == m.untouched)
    case PromoteBaseline => job.state == Verifying && NoValidation(m)
    case PromotePolicy =>
      job.state == Verifying && NoValidation(m) && job.op.Some? && job.op.value in m.ops &&
        m.res.baseline == m.ops[job.op.value].setup
    case RecoverCheck => job.state == RecoveryRequired
    case RecoverDecide => job.state == RecoveryRequired && NoSetup(m)
    case RollbackStart =>
      && NoSetup(m)
      && (job.state == Installing || job.state == Verifying ||
        (job.state == RecoveryRequired && !Terminal(Phase(job)) && job.snapshotComplete))
    case RollbackVerify => job.state == RollingBack
    case RestoreBundle => job.state == RollingBack && NoLiveApps(m)
    case RestoreData => job.state == RollingBack && NoLiveApps(m) && BundleBack(m)
    case RestoreBaseline => job.state == RollingBack && NoLiveApps(m) && BundleBack(m) && DataBack(m)
    case RestorePolicy => job.state == RollingBack && NoLiveApps(m) && BundleBack(m) && DataBack(m) && BaselineBack(m)
    case FinalizeStart => Terminal(job.state)
    case ReleaseGuard => Terminal(job.state) && job.pending && job.outcome.Some?
    case Relaunch => Terminal(job.state) && job.pending && job.outcome.Some?
    case ResumeRelaunch =>
      Terminal(job.state) && job.pending && job.outcome.Some? && job.relaunched.Some? && job.stage == Created
    case FinalizeEnd => Terminal(job.state) && job.outcome.Some? && job.stage == Dispatched
    case Raising => job.state == RecoveryRequired || NoSetup(m)
    case Handling => job.state == RecoveryRequired || NoSetup(m)
    case InnerCatch => job.state != RecoveryRequired && NoSetup(m)
    case Retain => job.state != Installing
    case Saving(_) => false
  }

  /** The forward path runs in `wmain`'s outer try block and its exception handling in the handler. */
  predicate CtxOk(pc: Pc, ctx: Ctx) {
    match pc
    case AwaitExit => ctx == Body
    case TakeSnapshot => ctx == Body
    case LaunchSetup => ctx == Body
    case ResumeSetup => ctx == Body
    case AwaitSetup => ctx == Body
    case AwaitLateSetup => ctx == Body
    case SetupExited => ctx == Body
    case CheckExit => ctx == Body
    case RecoverCheck => ctx == Body
    case RecoverDecide => ctx == Body
    case Raising => ctx == Handler
    case Handling => ctx == Handler
    case InnerCatch => ctx == Handler
    case _ => true
  }

  /** How a loaded in-memory record relates to the durable one. */
  ghost predicate Follows(j: Journal, job: Journal) {
    && job.op == j.op && job.worker == j.worker && job.version == j.version
    && job.restartOnly == j.restartOnly && job.recoveryAttempted == j.recoveryAttempted &&
      job.retryAfter == j.retryAfter
    && j.blocked <= job.blocked
    && (job.lastHealthy == j.lastHealthy || (job.lastHealthy == Some(j.version) && Phase(j) != Completed))
    && (Terminal(Phase(j)) ==> Phase(job) == Phase(j))
    && (j.outcome.Some? ==> job.outcome == j.outcome) && job.hashed == j.hashed
    && (job.lastBlocked == j.lastBlocked || job.lastBlocked == Some(j.version))
    && (j.relaunched.Some? ==> job.relaunched == j.relaunched)
    && (j.stage == Dispatched ==> job.stage == Dispatched) && (j.skipRelaunch ==> job.skipRelaunch)
    && (!Dirty(job) && Phase(job) != Completed && Phase(job) != RolledBack ==> !Dirty(j))
    && job.state != Idle && job.state != Preparing
  }

  /** A restoration that is finished but not yet recorded. */
  ghost predicate Entering(j: Journal, m: Machine, job: Journal) {
    Phase(job) == RestoringUserData && Phase(j) != RestoringUserData ==> m.res == m.untouched && NoValidation(m)
  }

  ghost predicate Loaded(j: Journal, m: Machine, w: Worker) {
    && Sound(m, w.job) && Follows(j, w.job) && Entering(j, m, w.job)
    && (Synced(w.pc) ==> w.job == j)
    && (w.pc.Saving? ==> !w.pc.next.Begin? && w.pc.next != AwaitSetup)
    && At(m, Target(w.pc), w.job)
    && CtxOk(Target(w.pc), w.ctx)
    && (w.ctx == Inner ==> w.job.state != RecoveryRequired && NoSetup(m))
  }

  ghost predicate WorkerOk(p: Proc, j: Journal, m: Machine, w: Worker) {
    w.status == Running ==>
      && j.worker == Some(p) && j.hashed && j.op == Some(w.op) && w.op !in m.gone
      && j.state != Idle && j.state != Preparing
      && (w.pc.Begin? ==> j.state == if w.pc.recovering then RecoveryRequired else WaitingForExit)
      && (w.pc.Begin? ==> w.ctx == Body)
      && (!w.pc.Begin? ==> Loaded(j, m, w))
  }

  /** The part of the invariant a worker step can see. */
  ghost predicate Consistent(p: Proc, l: Local) {
    && MachineOk(l.m) && Sound(l.m, l.journal) && Settled(l.m, l.journal)
    && WorkerOk(p, l.journal, l.m, l.w)
  }

  /** `Consistent`, folded. */
  ghost predicate LocalInv(p: Proc, l: Local) {
    Consistent(p, l) == true
  }

  // ----- the service -----

  ghost predicate NoWorkers(workers: map<Proc, Worker>) {
    forall p | p in workers :: workers[p].status != Running
  }

  ghost predicate Spawning(s: State, purpose: Purpose) {
    && NoWorkers(s.workers)
    && s.journal.state == (if purpose == ForRecovery then RecoveryRequired else WaitingForExit)
    && (purpose == ForStart ==> Sound(s.m, s.journal.(state := Preparing)))
  }

  ghost predicate ChildWaits(s: State, child: Proc, purpose: Purpose) {
    && child in s.workers
    && var w := s.workers[child];
       && s.journal.op == Some(w.op) && w.ctx == Body
       && w.pc == Begin(purpose == ForRecovery)
  }

  ghost predicate ServiceOk(s: State) {
    match s.svc
    case SvcIdle => true
    case SvcSave(current, purpose) =>
      && NoWorkers(s.workers) && Sound(s.m, current) && !s.journal.pending
      && (s.journal.state == Preparing || s.journal.state == Deferred)
      && current.state == WaitingForExit && purpose != ForRecovery
      && current.blocked == s.journal.blocked && current.lastHealthy == s.journal.lastHealthy
      && current.op == s.journal.op && current.version == s.journal.version && current.outcome == s.journal.outcome
      && current.relaunched == s.journal.relaunched && current.stage == s.journal.stage
      && current.skipRelaunch == s.journal.skipRelaunch && current.lastBlocked == s.journal.lastBlocked
      && current.hashed == s.journal.hashed
      && (s.journal.recoveryAttempted ==>
            current.recoveryAttempted && current.restartOnly == s.journal.restartOnly &&
              current.retryAfter == s.journal.retryAfter)
      && (purpose == ForStart ==> Sound(s.m, current.(state := Preparing)))
    case SvcHash(purpose, checked) =>
      Spawning(s, purpose) && (checked && purpose == ForRecovery ==> s.journal.hashed)
    case SvcSpawn(purpose) => Spawning(s, purpose) && s.journal.hashed
    case SvcRecord(child, purpose) => Spawning(s, purpose) && s.journal.hashed && ChildWaits(s, child, purpose)
    case SvcResume(child, purpose) =>
      && Spawning(s, purpose) && s.journal.hashed && ChildWaits(s, child, purpose)
      && s.journal.worker == Some(child)
    case SvcUndo => NoWorkers(s.workers) && s.journal.state == Preparing
  }

  /** Every clause of the invariant of the whole system. */
  ghost predicate Safe(s: State) {
    && MachineOk(s.m) && Sound(s.m, s.journal) && Settled(s.m, s.journal)
    && ServiceOk(s)
    && (forall p | p in s.workers :: WorkerOk(p, s.journal, s.m, s.workers[p]))
    && (!s.svc.SvcIdle? ==> NoWorkers(s.workers))
  }

  /** `Safe`, folded. */
  ghost predicate Inv(s: State) {
    Safe(s) == true
  }
}
