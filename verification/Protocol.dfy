/**
 * The update protocol as a transition system. The service
 * (windows/updater/service_main.cpp), the worker (windows/updater/worker_main.cpp
 * with finalization.h), the setup program, the application and the
 * administrator share one machine. Every durable write and every process
 * effect is a step of its own; a worker or the service may die between any two.
 */
module Protocol {
  import opened Common
  import opened Versions
  import opened Journals

  // ----- the machine -----

  /** `policy.json`; `other` stands for the fields the protocol never changes. */
  datatype Policy = Policy(
    enabled: bool,
    validated: bool,
    installedVersion: Version,
    workerVersion: Version,
    baselineSha: Digest,
    other: Blob)

  /** What an update may change. */
  datatype Resources = Resources(bundle: Tree, data: Tree, baseline: Blob, policy: Policy)

  /** A complete `snapshot` directory with its inventory. */
  datatype Snapshot = Snapshot(bundle: Tree, data: Tree, installer: Blob, policy: Policy)

  /** `operations/<id>`: the staged installer and, once complete, the snapshot. */
  datatype OpDir = OpDir(setup: Blob, snapshot: Option<Snapshot>)

  datatype Status = Suspended | Running | Dead

  /** A process of the registered application: a normal start or a validation child. */
  datatype AppKind = Agent | Validation
  datatype App = App(kind: AppKind, status: Status)

  /** What has happened so far; no step reads it. */
  datatype History = History(
    issued: set<OpId>,
    completed: set<OpId>,
    healthy: set<Version>,
    restored: set<OpId>,
    relaunches: set<(OpId, Proc)>)

  /**
   * `contract` is `kApplicationContractImplemented`. `untouched` is what the
   * resources would hold if the current operation had not changed them: it
   * follows only the application, the administrator and durable outcomes.
   * `gone` holds the operations whose directory was removed with a cancelled
   * preparation.
   */
  datatype Machine = Machine(
    contract: bool,
    guard: Option<OpId>,
    res: Resources,
    untouched: Resources,
    ops: map<OpId, OpDir>,
    gone: set<OpId>,
    setups: map<Proc, Status>,
    apps: map<Proc, App>,
    hist: History)

  // ----- the worker -----

  /** Which handler an exception reaches: `wmain`'s, the one around its rollback, or the outermost. */
  datatype Ctx = Body | Inner | Handler

  /** Where the worker stands; `Saving(next)` is inside `save()` with `job` already changed. */
  datatype Pc =
    | Begin(recovering: bool)
    | AwaitExit | TakeSnapshot | LaunchSetup | ResumeSetup | AwaitSetup | AwaitLateSetup
    | SetupExited | CheckExit
    | LaunchValidation(restoring: bool) | ResumeValidation(restoring: bool) | AwaitValidation(restoring: bool)
    | PromoteBaseline | PromotePolicy
    | RecoverCheck | RecoverDecide
    | RollbackStart | RollbackVerify | RestoreBundle | RestoreData | RestoreBaseline | RestorePolicy
    | FinalizeStart | ReleaseGuard | Relaunch | ResumeRelaunch | FinalizeEnd
    | Raising | Handling | InnerCatch
    | Retain
    | Saving(next: Pc)

  datatype Worker = Worker(op: OpId, status: Status, pc: Pc, ctx: Ctx, job: Journal)

  /**
   * `Proceed` is the success path of the current pc, creating process `child`
   * where it creates one; `Partial` an interrupted file write; `Timeout` an
   * expired wait; `SaveFail(written)` a failing `save()`, after the journal
   * replacement when `written`; `Raise` any other exception.
   */
  datatype WorkerStep =
    | Proceed(child: Proc)
    | Partial(tree: Tree, blob: Blob)
    | Timeout
    | Save
    | SaveFail(written: bool)
    | Raise
    | Prune(deleted: set<OpId>)
    | Crash

  // ----- the service -----

  datatype Purpose = ForStart | ForRestart | ForRecovery

  /**
   * Where the service stands in a request or in its reconcile loop. `SvcHash` is
   * `spawn_worker` before its first `save()`; once `checked`, the hash of the
   * worker is in the record in memory.
   */
  datatype Service =
    | SvcIdle
    | SvcSave(current: Journal, purpose: Purpose)
    | SvcHash(purpose: Purpose, checked: bool)
    | SvcSpawn(purpose: Purpose)
    | SvcRecord(child: Proc, purpose: Purpose)
    | SvcResume(child: Proc, purpose: Purpose)
    | SvcUndo

  /** Inside `spawn_worker`. */
  predicate InSpawn(svc: Service) {
    svc.SvcHash? || svc.SvcSpawn? || svc.SvcRecord? || svc.SvcResume?
  }

  datatype ServiceStep =
    | Prepare(op: OpId, version: Version, setup: Blob, sid: Sid, now: int)
    | Cancel(op: OpId, sid: Sid)
    | BeginStart(op: OpId, sid: Sid, app: Proc)
    | BeginRestart(op: OpId, sid: Sid, app: Proc, now: int)
    | Discard
    | Mark
    | BeginRecovery
    | SaveRequest
    | CheckWorker
    | SaveHash
    | CreateWorker(child: Proc)
    | RecordWorker
    | ResumeWorker
    | Fail
    | DropGuard
    | ServiceCrash

  // ----- everything else -----

  datatype EnvironmentStep =
    | AgentStart(p: Proc)
    | AppExit(p: Proc)
    | AgentWrite(p: Proc, data: Tree)
    | ValidationWrite(p: Proc, data: Tree)
    | SetupWrite(p: Proc, bundle: Tree, data: Tree, baseline: Blob)
    | SetupExit(p: Proc)
    | Revoke

  datatype State = State(journal: Journal, svc: Service, workers: map<Proc, Worker>, m: Machine)

  datatype Step =
    | EnvStep(e: EnvironmentStep)
    | SvcStep(v: ServiceStep)
    | WrkStep(p: Proc, w: WorkerStep)

  ghost predicate Init(s: State) {
    && s.journal == Fresh(Idle, None, s.journal.version, s.journal.client)
    && s.svc == SvcIdle && s.workers == map[]
    && s.m.guard == None && s.m.untouched == s.m.res
    && s.m.ops == map[] && s.m.gone == {} && s.m.setups == map[]
    && (forall p | p in s.m.apps :: s.m.apps[p].kind == Agent)
    && s.m.hist == History({}, {}, {}, {}, {})
  }

  // ----- queries -----

  /** `assert_no_running_agent`: no process of the registered application exists. */
  predicate NoLiveApps(m: Machine) {
    forall p | p in m.apps :: m.apps[p].status == Dead
  }

  predicate AppAlive(m: Machine, p: Option<Proc>) {
    p.Some? && p.value in m.apps && m.apps[p.value].status != Dead
  }

  /** No resumed setup program is running. */
  predicate NoSetup(m: Machine) {
    forall p | p in m.setups :: m.setups[p] != Running
  }

  predicate SetupGone(m: Machine, p: Option<Proc>) {
    p.Some? && p.value in m.setups ==> m.setups[p.value] == Dead
  }

  predicate HasSnapshot(m: Machine, op: Option<OpId>) {
    op.Some? && op.value in m.ops && m.ops[op.value].snapshot.Some?
  }

  function SnapshotOf(m: Machine, op: Option<OpId>): Snapshot
    requires HasSnapshot(m, op)
  {
    m.ops[op.value].snapshot.value
  }

  // ----- durable outcomes -----

  /** The history effect of replacing the journal by `j`. */
  function Commit(m: Machine, j: Journal): Machine {
    if Phase(j) == Completed && j.op.Some? then
      m.(untouched := m.res,
         hist := m.hist.(completed := m.hist.completed + {j.op.value}, healthy := m.hist.healthy + {j.version}))
    else if Phase(j) == RolledBack then
      m.(untouched := m.untouched.(data := m.res.data))
    else m
  }

  // ----- worker transitions -----

  /** What a worker step works on: the journal, the machine and the worker itself. */
  datatype Local = Local(journal: Journal, m: Machine, w: Worker)

  function Goto(w: Worker, pc: Pc): Worker {
    w.(pc := pc)
  }

  /** Change the in-memory record and enter `save()`. */
  function SaveThen(w: Worker, job: Journal, next: Pc): Worker {
    w.(job := job, pc := Saving(next))
  }

  function Throw(w: Worker): Worker {
    match w.ctx
    case Body => w.(pc := Raising, ctx := Handler)
    case Inner => w.(pc := InnerCatch, ctx := Handler)
    case Handler => w.(status := Dead)
  }

  /** `TerminateProcess` aside, an exception may be thrown anywhere but in the wait for a running setup. */
  predicate CanRaise(pc: Pc) {
    match pc
    case AwaitSetup => false
    case AwaitLateSetup => false
    case Raising => false
    case Handling => false
    case InnerCatch => false
    case Retain => false
    case Saving(_) => false
    case _ => true
  }

  predicate CanProceed(l: Local, child: Proc) {
    var m, job := l.m, l.w.job;
    match l.w.pc
    case Begin(_) => l.journal.op == Some(l.w.op)
    case AwaitExit => NoLiveApps(m)
    case TakeSnapshot => m.res.policy.enabled && job.op.Some? && job.op.value in m.ops
    case LaunchSetup => NoLiveApps(m) && m.res.policy.enabled && child !in m.setups
    case ResumeSetup => job.setup.Some? && job.setup.value in m.setups && m.setups[job.setup.value] == Suspended
    case AwaitSetup => job.setup.Some? && job.setup.value in m.setups && m.setups[job.setup.value] == Dead
    case AwaitLateSetup => job.setup.Some? && job.setup.value in m.setups && m.setups[job.setup.value] == Dead
    case SetupExited => true
    case CheckExit => true
    case LaunchValidation(_) => child !in m.apps
    case ResumeValidation(_) =>
      && job.validation.Some? && job.validation.value in m.apps
      && m.apps[job.validation.value].status == Suspended
    case AwaitValidation(_) =>
      && job.validation.Some? && job.validation.value in m.apps
      && m.apps[job.validation.value].status == Dead
    case PromoteBaseline => job.op.Some? && job.op.value in m.ops
    case PromotePolicy => true
    case RecoverCheck => SetupGone(m, job.setup)
    case RecoverDecide => Terminal(Phase(job)) || (NoLiveApps(m) && Resumable(job))
    case RollbackStart => job.snapshotComplete
    case RollbackVerify => NoLiveApps(m) && HasSnapshot(m, job.op)
    case RestoreBundle => HasSnapshot(m, job.op)
    case RestoreData => HasSnapshot(m, job.op)
    case RestoreBaseline => HasSnapshot(m, job.op)
    case RestorePolicy => HasSnapshot(m, job.op)
    case FinalizeStart => Terminal(job.state)
    case ReleaseGuard => m.guard.None? || m.guard == job.op
    case Relaunch =>
      || job.skipRelaunch
      || (job.relaunched.Some? && (job.stage == Created ==> AppAlive(m, job.relaunched)))
      || (job.relaunched.None? && NoLiveApps(m) && child !in m.apps)
    case ResumeRelaunch => AppAlive(m, job.relaunched)
    case FinalizeEnd => true
    case Raising => true
    case Handling => true
    case InnerCatch => true
    case Retain => false
    case Saving(_) => false
  }

  /** `recover` has a branch for the record; otherwise it throws `recovery_snapshot_unavailable`. */
  predicate Resumable(job: Journal) {
    job.restartOnly || job.snapshotComplete || Phase(job) == WaitingForExit || Phase(job) == Snapshotting
  }

  function WithSnapshot(m: Machine, op: OpId): Machine
    requires op in m.ops
  {
    var copy := Snapshot(m.res.bundle, m.res.data, m.res.baseline, m.res.policy);
    m.(ops := m.ops[op := m.ops[op].(snapshot := Some(copy))])
  }

  function WithRestored(m: Machine, op: Option<OpId>): Machine {
    if op.Some? then m.(hist := m.hist.(restored := m.hist.restored + {op.value})) else m
  }

  function PromotedPolicy(p: Policy, version: Version, baseline: Blob): Policy {
    p.(installedVersion := version, workerVersion := version, baselineSha := Sha256(baseline))
  }

  /** `policy` of the snapshot, keeping a revocation made meanwhile. */
  function RestoredPolicy(snapshot: Policy, current: Policy): Policy {
    snapshot.(enabled := current.enabled)
  }

  function Block(job: Journal): Journal {
    job.(lastBlocked := Some(job.version),
         blocked := if job.version in job.blocked then job.blocked else job.blocked + [job.version])
  }

  /** Resume the recorded application process for its operation. */
  function WithRelaunch(m: Machine, op: Option<OpId>, p: Proc): Machine {
    var started := m.(apps := m.apps[p := App(Agent, Running)]);
    if op.Some? then started.(hist := m.hist.(relaunches := m.hist.relaunches + {(op.value, p)})) else started
  }

  /** The recovery decision behind the setup check of `recover`. */
  function Decide(w: Worker): Worker {
    var job := w.job;
    if Terminal(Phase(job)) then SaveThen(w, job.(state := Phase(job)), FinalizeStart)
    else if job.restartOnly then SaveThen(w, job.(state := Deferred), FinalizeStart)
    else if job.snapshotComplete then Goto(w, RollbackStart)
    else SaveThen(w, job.(state := Deferred), FinalizeStart)
  }

  /** `wmain`'s reaction once the reason of an exception is recorded. */
  function Handle(w: Worker): Worker {
    var job := w.job;
    if job.state == Installing || job.state == Verifying then w.(pc := RollbackStart, ctx := Inner)
    else if job.state == Deferred then Goto(w, Retain)
    else if job.state == RecoveryRequired then SaveThen(w, job, Retain)
    else SaveThen(w, job.(recoveryFrom := Some(job.state), state := RecoveryRequired), Retain)
  }

  /** `relaunch_registered_application` behind its checks. */
  function RelaunchStep(l: Local, child: Proc): Local {
    var m, w, job := l.m, l.w, l.w.job;
    if job.skipRelaunch then
      Local(l.journal, m, SaveThen(w, job.(pending := false), Retain))
    else if job.relaunched.Some? then
      var m' := if job.stage == Created then WithRelaunch(m, job.op, job.relaunched.value) else m;
      Local(l.journal, m', SaveThen(w, job.(stage := Dispatched), FinalizeEnd))
    else
      Local(l.journal, m.(apps := m.apps[child := App(Agent, Suspended)]),
            SaveThen(w, job.(relaunched := Some(child), stage := Created), ResumeRelaunch))
  }

  function ProceedStep(l: Local, child: Proc): Local
    requires CanProceed(l, child)
  {
    var j, m, w, job := l.journal, l.m, l.w, l.w.job;
    match w.pc
    case Begin(recovering) => Local(j, m, w.(job := j, pc := if recovering then RecoverCheck else AwaitExit))
    case AwaitExit =>
      if job.restartOnly then Local(j, m, SaveThen(w, job.(state := Deferred), FinalizeStart))
      else Local(j, m, SaveThen(w, job.(state := Snapshotting), TakeSnapshot))
    case TakeSnapshot =>
      Local(j, WithSnapshot(m, job.op.value), SaveThen(w, job.(snapshotComplete := true), LaunchSetup))
    case LaunchSetup =>
      Local(j, m.(setups := m.setups[child := Suspended]),
            SaveThen(w, job.(setup := Some(child), state := Installing), ResumeSetup))
    case ResumeSetup => Local(j, m.(setups := m.setups[job.setup.value := Running]), Goto(w, AwaitSetup))
    case AwaitSetup => Local(j, m, SaveThen(w, job, CheckExit))
    case AwaitLateSetup => Local(j, m, SaveThen(w, job.(state := Installing), SetupExited))
    case SetupExited => Local(j, m, SaveThen(w, job, CheckExit))
    case CheckExit => Local(j, m, SaveThen(w, job.(state := Verifying), LaunchValidation(false)))
    case LaunchValidation(restoring) =>
      Local(j, m.(apps := m.apps[child := App(Validation, Suspended)]),
            SaveThen(w, job.(validation := Some(child)), ResumeValidation(restoring)))
    case ResumeValidation(restoring) =>
      Local(j, m.(apps := m.apps[job.validation.value := App(Validation, Running)]),
        Goto(w, AwaitValidation(restoring)))
    case AwaitValidation(restoring) =>
      if restoring then Local(j, m, SaveThen(w, job.(state := RolledBack), FinalizeStart))
      else Local(j, m, Goto(w, PromoteBaseline))
    case PromoteBaseline =>
      Local(j, m.(res := m.res.(baseline := m.ops[job.op.value].setup)), Goto(w, PromotePolicy))
    case PromotePolicy =>
      Local(j, m.(res := m.res.(policy := PromotedPolicy(m.res.policy, job.version, m.res.baseline))),
            SaveThen(w, job.(lastHealthy := Some(job.version), state := Completed), FinalizeStart))
    case RecoverCheck => Local(j, m, Goto(w, RecoverDecide))
    case RecoverDecide => Local(j, m, Decide(w))
    case RollbackStart => Local(j, m, SaveThen(w, job.(state := RollingBack), RollbackVerify))
    case RollbackVerify => Local(j, m, Goto(w, RestoreBundle))
    case RestoreBundle =>
      Local(j, WithRestored(m, job.op).(res := m.res.(bundle := SnapshotOf(m, job.op).bundle)), Goto(w, RestoreData))
    case RestoreData =>
      Local(j, WithRestored(m, job.op).(res := m.res.(data := SnapshotOf(m, job.op).data)), Goto(w, RestoreBaseline))
    case RestoreBaseline =>
      Local(j, WithRestored(m, job.op).(res := m.res.(baseline := SnapshotOf(m, job.op).installer)),
        Goto(w, RestorePolicy))
    case RestorePolicy =>
      var policy := RestoredPolicy(SnapshotOf(m, job.op).policy, m.res.policy);
      Local(j, WithRestored(m, job.op).(res := m.res.(policy := policy)),
            SaveThen(w, Block(job).(state := RestoringUserData), LaunchValidation(true)))
    case FinalizeStart =>
      Local(j, m, SaveThen(w, job.(outcome := Some(job.state), pending := true), ReleaseGuard))
    case ReleaseGuard => Local(j, m.(guard := None), SaveThen(w, job, Relaunch))
    case Relaunch => RelaunchStep(l, child)
    case ResumeRelaunch =>
      Local(j, WithRelaunch(m, job.op, job.relaunched.value), SaveThen(w, job.(stage := Dispatched), FinalizeEnd))
    case FinalizeEnd => Local(j, m, SaveThen(w, job.(pending := false), Retain))
    case Raising => Local(j, m, SaveThen(w, job.(cancelled := false), Handling))
    case Handling => Local(j, m, Handle(w))
    case InnerCatch =>
      Local(j, m, SaveThen(w, job.(recoveryFrom := Some(job.state), state := RecoveryRequired), Retain))
  }

  predicate CanTimeout(m: Machine, w: Worker) {
    || (w.pc == AwaitExit && AppAlive(m, w.job.app) && !w.job.restartOnly)
    || w.pc == AwaitSetup
  }

  function TimeoutStep(w: Worker): Worker {
    if w.pc == AwaitExit then SaveThen(w, w.job.(skipRelaunch := true, state := Deferred), FinalizeStart)
    else SaveThen(w, w.job.(state := RecoveryRequired), AwaitLateSetup)
  }

  predicate CanPartial(m: Machine, w: Worker) {
    || w.pc == PromoteBaseline
    || (HasSnapshot(m, w.job.op) && (w.pc == RestoreBundle || w.pc == RestoreData || w.pc == RestoreBaseline))
  }

  function PartialStep(m: Machine, w: Worker, tree: Tree, blob: Blob): Machine {
    match w.pc
    case RestoreBundle => WithRestored(m, w.job.op).(res := m.res.(bundle := tree))
    case RestoreData => WithRestored(m, w.job.op).(res := m.res.(data := tree))
    case RestoreBaseline => WithRestored(m, w.job.op).(res := m.res.(baseline := blob))
    case _ => m.(res := m.res.(baseline := blob))
  }

  predicate WorkerEnabled(l: Local, step: WorkerStep) {
    match step
    case Crash => l.w.status != Dead
    case Proceed(child) => l.w.status == Running && CanProceed(l, child)
    case Partial(_, _) => l.w.status == Running && CanPartial(l.m, l.w)
    case Timeout => l.w.status == Running && CanTimeout(l.m, l.w)
    case Save => l.w.status == Running && l.w.pc.Saving?
    case SaveFail(_) => l.w.status == Running && l.w.pc.Saving?
    case Raise => l.w.status == Running && CanRaise(l.w.pc)
    case Prune(deleted) =>
      && l.w.status == Running && l.w.pc == Retain
      && l.w.op !in deleted
      && (deleted != {} ==> l.w.job.state == Completed || l.w.job.state == RolledBack)
  }

  function WorkerApply(l: Local, step: WorkerStep): Local
    requires WorkerEnabled(l, step)
  {
    match step
    case Crash => l.(w := l.w.(status := Dead))
    case Proceed(child) => ProceedStep(l, child)
    case Partial(tree, blob) => l.(m := PartialStep(l.m, l.w, tree, blob))
    case Timeout => l.(w := TimeoutStep(l.w))
    case Save => Local(l.w.job, Commit(l.m, l.w.job), Goto(l.w, l.w.pc.next))
    case SaveFail(written) =>
      if written then Local(l.w.job, Commit(l.m, l.w.job), Throw(l.w)) else l.(w := Throw(l.w))
    case Raise => l.(w := Throw(if l.w.pc.Begin? then l.w.(job := l.journal) else l.w))
    case Prune(deleted) =>
      Local(l.journal, l.m.(ops := l.m.ops - deleted), l.w.(status := Dead))
  }

  // ----- environment transitions -----

  predicate EnvEnabled(m: Machine, e: EnvironmentStep) {
    match e
    case AgentStart(p) => m.guard.None? && p !in m.apps
    case AppExit(p) => p in m.apps
    case AgentWrite(p, _) => p in m.apps && m.apps[p] == App(Agent, Running)
    case ValidationWrite(p, _) => p in m.apps && m.apps[p] == App(Validation, Running)
    case SetupWrite(p, _, _, _) => p in m.setups && m.setups[p] == Running
    case SetupExit(p) => p in m.setups
    case Revoke => true
  }

  function EnvApply(m: Machine, e: EnvironmentStep): Machine
    requires EnvEnabled(m, e)
  {
    match e
    case AgentStart(p) => m.(apps := m.apps[p := App(Agent, Running)])
    case AppExit(p) => m.(apps := m.apps[p := m.apps[p].(status := Dead)])
    case AgentWrite(_, data) => m.(res := m.res.(data := data), untouched := m.untouched.(data := data))
    case ValidationWrite(_, data) => m.(res := m.res.(data := data))
    case SetupWrite(_, bundle, data, baseline) =>
      m.(res := m.res.(bundle := bundle, data := data, baseline := baseline))
    case SetupExit(p) => m.(setups := m.setups[p := Dead])
    case Revoke =>
      m.(res := m.res.(policy := m.res.policy.(enabled := false)),
         untouched := m.untouched.(policy := m.untouched.policy.(enabled := false)))
  }

  // ----- service transitions -----

  /** `!process_alive(journal)`: only the recorded worker is looked at. */
  predicate RecordedWorkerDead(j: Journal, workers: map<Proc, Worker>) {
    j.worker.Some? && j.worker.value in workers ==> workers[j.worker.value].status == Dead
  }

  predicate MatchingGuard(s: State) {
    s.m.guard.Some? && s.m.guard == s.journal.op
  }

  predicate CanMark(s: State) {
    FinalizationNeeded(s.journal, MatchingGuard(s)) || Interruptible(s.journal.state)
  }

  /** `discard_cancelled_preparation` has something to do. */
  predicate Discardable(j: Journal, workers: map<Proc, Worker>) {
    && j.state == Deferred && j.cancelled && !j.snapshotComplete && j.setup.None?
    && RecordedWorkerDead(j, workers) && !j.pending
  }

  /**
   * The staged files are deleted, and with them the directory unless a worker
   * has saved its record there, which it has done once an outcome is recorded.
   */
  function Discarded(m: Machine, j: Journal): Machine {
    if j.outcome.None? && j.op.Some? then m.(gone := m.gone + {j.op.value}) else m
  }

  /** `reconcile_interrupted_operation` records where the dead worker stopped. */
  function Marked(j: Journal): Journal {
    j.(pending := j.pending || Terminal(j.state), recoveryFrom := Some(j.state), state := RecoveryRequired,
       cancelled := j.cancelled && !Interruptible(j.state))
  }

  function Prepared(j: Journal, op: OpId, version: Version, sid: Sid): Journal {
    Fresh(Preparing, Some(op), version, sid)
      .(blocked := j.blocked, lastBlocked := j.lastBlocked, lastHealthy := j.lastHealthy)
  }

  function StartRequest(j: Journal, app: Proc): Journal {
    j.(app := Some(app), state := WaitingForExit)
  }

  function RestartRequest(j: Journal, app: Proc, now: int): Journal {
    j.(app := Some(app), restartOnly := true, recoveryAttempted := true,
       retryAfter := now + RetryDelayMs, state := WaitingForExit, cancelled := false)
  }

  predicate CanPrepareNow(s: State, op: OpId, version: Version, now: int) {
    var j := s.journal;
    && s.m.res.policy.enabled
    && RecordedWorkerDead(j, s.workers) && !j.pending && s.m.guard.None?
    && CanPrepare(j.state) && j.state != Preparing
    && !(j.restartOnly && j.version == version && now < j.retryAfter)
    && Newer(version, s.m.res.policy.installedVersion)
    && j.lastBlocked != Some(version) && version !in j.blocked && |j.blocked| < MaxBlocked
    && (j.lastHealthy.Some? ==> Newer(version, j.lastHealthy.value))
    && op !in s.m.hist.issued
  }

  /** `start` returns early only for a live worker that is not restart-only. */
  predicate CanStart(s: State, op: OpId, sid: Sid) {
    var j := s.journal;
    && j.op == Some(op) && j.client == sid
    && (RecordedWorkerDead(j, s.workers) || j.restartOnly)
    && s.m.res.policy.enabled && s.m.contract && s.m.res.policy.validated
    && j.state == Preparing && s.m.guard.None?
    && Newer(j.version, s.m.res.policy.installedVersion)
  }

  predicate CanRestart(s: State, op: OpId, sid: Sid) {
    var j := s.journal;
    && j.op == Some(op) && j.client == sid
    && RecordedWorkerDead(j, s.workers) && !j.pending
    && (j.state == Preparing || j.state == Deferred)
    && (s.m.guard.Some? ==> s.m.guard == j.op)
    && !j.recoveryAttempted
  }

  predicate SvcEnabled(s: State, v: ServiceStep) {
    var j := s.journal;
    match v
    case Prepare(op, version, _, _, now) => s.svc == SvcIdle && CanPrepareNow(s, op, version, now)
    case Cancel(op, sid) =>
      && s.svc == SvcIdle && j.op == Some(op) && j.client == sid
      && RecordedWorkerDead(j, s.workers) && !j.pending && s.m.guard.None?
      && (j.state == Preparing || j.state == Deferred)
    case BeginStart(op, sid, _) => s.svc == SvcIdle && CanStart(s, op, sid)
    case BeginRestart(op, sid, _, _) => s.svc == SvcIdle && CanRestart(s, op, sid)
    case Discard => s.svc == SvcIdle && Discardable(j, s.workers)
    case Mark =>
      && s.svc == SvcIdle && RecordedWorkerDead(j, s.workers) && CanMark(s)
      && (Discardable(j, s.workers) ==> Discarded(s.m, j) == s.m)
    case BeginRecovery => s.svc == SvcIdle && RecordedWorkerDead(j, s.workers) && j.state == RecoveryRequired
    case SaveRequest => s.svc.SvcSave?
    case CheckWorker => s.svc.SvcHash? && !s.svc.checked && (s.svc.purpose == ForRecovery ==> j.hashed)
    case SaveHash => s.svc.SvcHash? && s.svc.checked
    case CreateWorker(child) => s.svc.SvcSpawn? && child !in s.workers && j.op.Some?
    case RecordWorker => s.svc.SvcRecord?
    case ResumeWorker =>
      && s.svc.SvcResume? && s.svc.child in s.workers && s.workers[s.svc.child].status == Suspended
      && (j.op.Some? ==> j.op.value !in s.m.gone)
    case Fail => !s.svc.SvcIdle?
    case DropGuard => s.svc == SvcUndo
    case ServiceCrash => !s.svc.SvcIdle?
  }

  /** The `catch` clauses around `spawn_worker`; `j` is the record in memory. */
  function FailedSpawn(s: State, j: Journal, purpose: Purpose): State {
    match purpose
    case ForStart => s.(journal := j.(state := Preparing), svc := SvcUndo)
    case ForRestart => s.(svc := SvcIdle)
    case ForRecovery => s.(journal := j.(cancelled := false), svc := SvcIdle)
  }

  function SvcApply(s: State, v: ServiceStep): State
    requires SvcEnabled(s, v)
  {
    var j := s.journal;
    match v
    case Prepare(op, version, setup, sid, _) =>
      s.(journal := Prepared(j, op, version, sid),
         m := s.m.(ops := s.m.ops[op := OpDir(setup, None)], hist := s.m.hist.(issued := s.m.hist.issued + {op})))
    case Cancel(_, _) => s.(journal := j.(state := Deferred, cancelled := true))
    case BeginStart(_, _, app) => s.(m := s.m.(guard := j.op), svc := SvcSave(StartRequest(j, app), ForStart))
    case BeginRestart(_, _, app, now) =>
      s.(m := s.m.(guard := j.op), svc := SvcSave(RestartRequest(j, app, now), ForRestart))
    case Discard => s.(m := Discarded(s.m, j))
    case Mark => s.(journal := Marked(j))
    case BeginRecovery => s.(svc := SvcHash(ForRecovery, false))
    case SaveRequest => s.(journal := s.svc.current, svc := SvcHash(s.svc.purpose, false))
    case CheckWorker => s.(svc := SvcHash(s.svc.purpose, true))
    case SaveHash => s.(journal := j.(hashed := true), svc := SvcSpawn(s.svc.purpose))
    case CreateWorker(child) =>
      s.(workers := s.workers[child := Worker(j.op.value, Suspended, Begin(s.svc.purpose == ForRecovery), Body, j)],
         svc := SvcRecord(child, s.svc.purpose))
    case RecordWorker => s.(journal := j.(worker := Some(s.svc.child)), svc := SvcResume(s.svc.child, s.svc.purpose))
    case ResumeWorker =>
      s.(workers := s.workers[s.svc.child := s.workers[s.svc.child].(status := Running)], svc := SvcIdle)
    case Fail =>
      (match s.svc
       case SvcHash(purpose, checked) => FailedSpawn(s, j.(hashed := j.hashed || checked), purpose)
       case SvcSpawn(purpose) => FailedSpawn(s, j, purpose)
       case SvcRecord(child, purpose) => FailedSpawn(s, j.(worker := Some(child)), purpose)
       case SvcResume(child, purpose) => FailedSpawn(s, j, purpose)
       case _ => s.(svc := SvcIdle))
    case DropGuard => s.(m := s.m.(guard := None), svc := SvcIdle)
    case ServiceCrash => s.(svc := SvcIdle)
  }

  // ----- runs -----

  predicate Enabled(s: State, step: Step) {
    match step
    case EnvStep(e) => EnvEnabled(s.m, e)
    case SvcStep(v) => SvcEnabled(s, v)
    case WrkStep(p, w) => p in s.workers && WorkerEnabled(Local(s.journal, s.m, s.workers[p]), w)
  }

  /** A step that is not enabled is skipped. */
  function Apply(s: State, step: Step): State {
    if !Enabled(s, step) then s else
    match step
    case EnvStep(e) => s.(m := EnvApply(s.m, e))
    case SvcStep(v) => SvcApply(s, v)
    case WrkStep(p, w) =>
      var l := WorkerApply(Local(s.journal, s.m, s.workers[p]), w);
      s.(journal := l.journal, m := l.m, workers := s.workers[p := l.w])
  }

  /** The state a schedule leads to. */
  function After(s: State, steps: seq<Step>): State
    decreases |steps|
  {
    if steps == [] then s else After(Apply(s, steps[0]), steps[1..])
  }

  /** Some schedule leads from an initial state to `s`. */
  ghost predicate Reachable(s: State) {
    exists start, steps :: Init(start) && After(start, steps) == s
  }
}
