/**
 * The service as the program it is (windows/updater/service_main.cpp): request
 * handlers and the reconcile loop, which check, write the guard and the
 * journal, and start workers, and which may fail or stop between any two of
 * these. Every execution is shown to be a run of the protocol.
 */
module ServiceProcess {
  import opened Common
  import opened Versions
  import opened Journals
  import opened Protocol
  import opened Invariants
  import opened Runs
  import opened LostChild

  /** `Reachable`, folded. */
  ghost predicate Arises(s: State) {
    Reachable(s) == true
  }

  /** What a step of the service does when it is possible. */
  function Taken(s: State, v: ServiceStep): Option<State> {
    if SvcEnabled(s, v) then Some(SvcApply(s, v)) else None
  }

  lemma AfterTaken(s: State, steps: seq<Step>, v: ServiceStep)
    requires Taken(After(s, steps), v).Some?
    ensures After(s, steps + [SvcStep(v)]) == Taken(After(s, steps), v).value
  {
    AfterOne(s, steps, SvcStep(v));
  }

  lemma AfterOne(s: State, steps: seq<Step>, step: Step)
    ensures After(s, steps + [step]) == Apply(After(s, steps), step)
  {
    AfterMore(s, steps, [step]);
    assert [step][1..] == [];
  }

  /** The record in memory when a spawn fails. */
  function InMemory(s: State): Journal {
    match s.svc
    case SvcHash(_, checked) => s.journal.(hashed := s.journal.hashed || checked)
    case SvcRecord(child, _) => s.journal.(worker := Some(child))
    case _ => s.journal
  }

  lemma AfterFail(s: State, steps: seq<Step>)
    requires InSpawn(After(s, steps).svc)
    ensures
      var t := After(s, steps); After(s, steps + [SvcStep(Fail)]) == FailedSpawn(t, InMemory(t), t.svc.purpose)
  {
    AfterOne(s, steps, SvcStep(Fail));
  }

  function PreparedState(s: State, op: OpId, version: Version, setup: Blob, sid: Sid): State {
    s.(journal := Prepared(s.journal, op, version, sid),
       m := s.m.(ops := s.m.ops[op := OpDir(setup, None)], hist := s.m.hist.(issued := s.m.hist.issued + {op})))
  }

  datatype Fate = Goes | Fails | Stops

  /** What the others do before the next operation, what becomes of it, and the id of a process it creates. */
  datatype Signal = Signal(others: seq<Step>, fate: Fate, child: Proc)

  class Service {
    var journal: Journal
    var m: Machine
    var workers: map<Proc, Worker>
    var svc: Protocol.Service
    var script: seq<Signal>
    ghost const start: State
    ghost var steps: seq<Step>

    function Now(): State
      reads this
    {
      State(journal, svc, workers, m)
    }

    ghost predicate Valid()
      reads this
    {
      Now() == After(start, steps) && Arises(start)
    }

    constructor (s: State, script: seq<Signal>)
      requires Reachable(s) && s.svc == SvcIdle
      ensures Valid() && start == s && Now() == s && steps == [] && this.script == script
    {
      journal, m, workers, svc := s.journal, s.m, s.workers, s.svc;
      this.script := script;
      start, steps := s, [];
    }

    /** The workers, the application and the administrator move on; without further instructions the service stops. */
    method Tick() returns (signal: Signal)
      requires Valid()
      modifies this`journal, this`m, this`workers, this`script, this`steps
      ensures Valid()
      ensures !svc.SvcIdle? ==> journal == old(journal)
    {
      if script == [] {
        return Signal([], Stops, 0);
      }
      signal, script := script[0], script[1..];
      for i := 0 to |signal.others|
        invariant Valid()
        invariant !svc.SvcIdle? ==> journal == old(journal)
      {
        if !signal.others[i].SvcStep? {
          AfterOne(start, steps, signal.others[i]);
          OthersKeepRecord(start, steps, signal.others[i]);
          var next := Apply(Now(), signal.others[i]);
          OthersKeepService(Now(), signal.others[i]);
          journal, m, workers := next.journal, next.m, next.workers;
          steps := steps + [signal.others[i]];
        }
      }
    }

    /** One write or process effect of the service. */
    method Step(ghost v: ServiceStep, record: Journal, machine: Machine, processes: map<Proc, Worker>,
      next: Protocol.Service)
      requires Valid() && After(start, steps + [SvcStep(v)]) == State(record, next, processes, machine)
      modifies this`journal, this`m, this`workers, this`svc, this`steps
      ensures Valid() && Now() == State(record, next, processes, machine)
    {
      journal, m, workers, svc, steps := record, machine, processes, next, steps + [SvcStep(v)];
    }

    // ----- prepare and cancel -----

    /**
     * The checks of `prepare`, in order. `Ok(false)` acknowledges an operation that
     * is already prepared; `stored` is whether its manifest is the one requested.
     */
    method CheckPrepare(version: Version, sid: Sid, now: int, stored: bool) returns (r: Result<bool>)
      requires svc == SvcIdle
      ensures r == Ok(true) <==> forall op | op !in m.hist.issued :: CanPrepareNow(Now(), op, version, now)
      ensures r == Ok(false) ==>
        journal.state == Preparing && journal.version == version && journal.client == sid && stored
    {
      ghost var unused := FreshId(m.hist.issued);
      if !m.res.policy.enabled {
        return Err("authorization_required");
      }
      if !RecordedWorkerDead(journal, workers) || journal.pending || m.guard.Some? {
        return Err("installation_in_progress");
      }
      if !CanPrepare(journal.state) {
        return Err("recovery_required");
      }
      if journal.restartOnly && journal.version == version && now < journal.retryAfter {
        return Err("application_recovery_cooldown");
      }
      if !Newer(version, m.res.policy.installedVersion) {
        return Err("version_replay_rejected");
      }
      if journal.state == Preparing {
        return if journal.version == version && journal.client == sid && stored then Ok(false)
               else Err("another_update_is_prepared");
      }
      if journal.lastBlocked == Some(version) || version in journal.blocked {
        return Err("version_blocked_after_rollback");
      }
      if |journal.blocked| >= MaxBlocked {
        return Err("administrative_history_review_required");
      }
      if journal.lastHealthy.Some? && !Newer(version, journal.lastHealthy.value) {
        return Err("version_replay_rejected");
      }
      return Ok(true);
    }

    /**
     * `prepare` with the new operation id `op`. `acceptable` stands for the checks
     * of the manifest, the channel, the capabilities and the installer.
     */
    method Prepare(op: OpId, version: Version, setup: Blob, sid: Sid, now: int, stored: bool, acceptable: bool)
      returns (r: Result<bool>)
      requires Valid() && svc == SvcIdle && op !in m.hist.issued
      modifies this
      ensures Valid() && svc == SvcIdle
      ensures r == Ok(true) <==> acceptable && CanPrepareNow(old(Now()), op, version, now)
      ensures Now() == if r == Ok(true) then PreparedState(old(Now()), op, version, setup, sid) else old(Now())
      ensures r == Ok(false) ==>
        journal.state == Preparing && journal.version == version && journal.client == sid && stored
    {
      r := CheckPrepare(version, sid, now, stored);
      if r != Ok(true) {
        return;
      }
      if !acceptable {
        return Err("installer_hash_mismatch");
      }
      var next := PreparedState(Now(), op, version, setup, sid);
      AfterTaken(start, steps, ServiceStep.Prepare(op, version, setup, sid, now));
      Step(ServiceStep.Prepare(op, version, setup, sid, now), next.journal, next.m, workers, SvcIdle);
    }

    /** `cancel`: the record is deferred, and then the staged files are discarded. */
    method Cancel(op: OpId, sid: Sid) returns (r: Result<bool>)
      requires Valid() && svc == SvcIdle
      modifies this
      ensures Valid() && svc == SvcIdle
      ensures SvcEnabled(old(Now()), ServiceStep.Cancel(op, sid)) <==> r.Ok? || r == Err("staging_cleanup_unconfirmed")
      ensures SvcEnabled(old(Now()), ServiceStep.Cancel(op, sid)) ==>
        journal == old(journal).(state := Deferred, cancelled := true) && workers == old(workers)
      ensures m == if r == Ok(true) && Discardable(journal, workers) then Discarded(old(m), journal) else old(m)
      ensures r.Err? && r.reason != "staging_cleanup_unconfirmed" ==> Now() == old(Now())
    {
      if journal.op != Some(op) || journal.client != sid {
        return Err("operation_identity_rejected");
      }
      if !RecordedWorkerDead(journal, workers) || journal.pending || m.guard.Some? {
        return Err("installation_in_progress");
      }
      if journal.state != Preparing && journal.state != Deferred {
        return Err("cancellation_not_safe");
      }
      AfterTaken(start, steps, ServiceStep.Cancel(op, sid));
      Step(ServiceStep.Cancel(op, sid), journal.(state := Deferred, cancelled := true), m, workers, SvcIdle);
      var clean := DiscardCancelled();
      return if clean then Ok(true) else Err("staging_cleanup_unconfirmed");
    }

    /** `discard_cancelled_preparation`; a file that cannot be deleted stops it. */
    method DiscardCancelled() returns (clean: bool)
      requires Valid() && svc == SvcIdle
      modifies this
      ensures Valid() && svc == SvcIdle && journal == old(journal) && workers == old(workers)
      ensures m == if clean && Discardable(journal, workers) then Discarded(old(m), journal) else old(m)
    {
      clean := true;
      if Discardable(journal, workers) {
        var signal := Peek();
        clean := signal.fate == Goes;
        if clean {
          AfterTaken(start, steps, ServiceStep.Discard);
          Step(ServiceStep.Discard, journal, Discarded(m, journal), workers, SvcIdle);
        }
      }
    }

    /** What becomes of the next operation, with nobody else moving. */
    method Peek() returns (signal: Signal)
      requires Valid()
      modifies this`script
      ensures Valid()
    {
      if script == [] {
        return Signal([], Stops, 0);
      }
      signal, script := script[0], script[1..];
    }

    // ----- start and recoverApplication -----

    /** The checks of `start`, in order; `Ok(false)` acknowledges a worker already at work. */
    method CheckStart(op: OpId, sid: Sid) returns (r: Result<bool>)
      ensures r == Ok(true) <==> CanStart(Now(), op, sid)
      ensures r == Ok(false) ==> !RecordedWorkerDead(journal, workers) && !journal.restartOnly
    {
      if journal.op != Some(op) || journal.client != sid {
        return Err("operation_identity_rejected");
      }
      if !RecordedWorkerDead(journal, workers) && !journal.restartOnly {
        return Ok(false);
      }
      if !m.res.policy.enabled {
        return Err("authorization_required");
      }
      if !m.contract || !m.res.policy.validated {
        return Err("transition_validation_required");
      }
      if journal.state != Preparing {
        return Err("operation_not_prepared");
      }
      if m.guard.Some? {
        return Err("update_finalization_pending");
      }
      if !Newer(journal.version, m.res.policy.installedVersion) {
        return Err("version_replay_rejected");
      }
      return Ok(true);
    }

    /**
     * `start`. `identified` stands for the checks of the session, the application
     * process and the snapshot of secrets.
     */
    method Start(op: OpId, sid: Sid, app: Proc, identified: bool) returns (r: Result<bool>)
      requires Valid() && svc == SvcIdle
      modifies this
      ensures Valid() && svc == SvcIdle
      ensures r == Ok(true) ==> identified && CanStart(old(Now()), op, sid) && Dispatched(false)
      ensures r.Err? && !(identified && CanStart(old(Now()), op, sid)) ==> Now() == old(Now())
      ensures r == Ok(false) ==> Now() == old(Now()) && !RecordedWorkerDead(journal, workers) && !journal.restartOnly
    {
      r := CheckStart(op, sid);
      if r != Ok(true) {
        return;
      }
      if !identified {
        return Err("app_identity_rejected");
      }
      AfterTaken(start, steps, BeginStart(op, sid, app));
      Step(BeginStart(op, sid, app), journal, m.(guard := journal.op), workers,
        SvcSave(StartRequest(journal, app), ForStart));
      r := Dispatch();
    }

    /** The checks of `recoverApplication`, in order. */
    method CheckRestart(op: OpId, sid: Sid) returns (r: Result<bool>)
      ensures r == Ok(true) <==> CanRestart(Now(), op, sid)
      ensures r == Ok(false) ==> !RecordedWorkerDead(journal, workers) && journal.restartOnly
    {
      if journal.op != Some(op) || journal.client != sid {
        return Err("operation_identity_rejected");
      }
      if !RecordedWorkerDead(journal, workers) && journal.restartOnly {
        return Ok(false);
      }
      if !RecordedWorkerDead(journal, workers) || journal.pending
        || (journal.state != Preparing && journal.state != Deferred)
      {
        return Err("recovery_not_safe");
      }
      if m.guard.Some? && m.guard != journal.op {
        return Err("boot_guard_identity_rejected");
      }
      if journal.recoveryAttempted {
        return Err("recovery_contract_required");
      }
      return Ok(true);
    }

    /** `recoverApplication`. `identified` stands for the checks of a manual setup and of the application process. */
    method RecoverApplication(op: OpId, sid: Sid, app: Proc, now: int, identified: bool) returns (r: Result<bool>)
      requires Valid() && svc == SvcIdle
      modifies this
      ensures Valid() && svc == SvcIdle
      ensures r == Ok(true) ==> identified && CanRestart(old(Now()), op, sid) && Dispatched(false)
      ensures r.Err? && !(identified && CanRestart(old(Now()), op, sid)) ==> Now() == old(Now())
      ensures r == Ok(false) ==> Now() == old(Now()) && !RecordedWorkerDead(journal, workers) && journal.restartOnly
    {
      r := CheckRestart(op, sid);
      if r != Ok(true) {
        return;
      }
      if !identified {
        return Err("app_identity_rejected");
      }
      AfterTaken(start, steps, BeginRestart(op, sid, app, now));
      Step(BeginRestart(op, sid, app, now), journal, m.(guard := journal.op), workers,
           SvcSave(RestartRequest(journal, app, now), ForRestart));
      r := Dispatch();
    }

    /** A worker for the journal's operation has been recorded and resumed. */
    ghost predicate Dispatched(recovering: bool)
      reads this
    {
      && journal.worker.Some? && journal.worker.value in workers
      && var w := workers[journal.worker.value];
         w.status == Running && (w.pc.Begin? ==> w.pc.recovering == recovering)
    }

    /** Save the request behind the guard, then start its worker. */
    method Dispatch() returns (r: Result<bool>)
      requires Valid() && svc.SvcSave? && svc.purpose != ForRecovery
      modifies this
      ensures Valid() && svc == SvcIdle
      ensures r.Ok? ==> r == Ok(true) && Dispatched(false)
    {
      var signal := Tick();
      if signal.fate != Goes {
        Abandon(signal.fate);
        return Err("request_not_saved");
      }
      var purpose := svc.purpose;
      AfterTaken(start, steps, SaveRequest);
      Step(SaveRequest, svc.current, m, workers, SvcHash(purpose, false));
      r := SpawnWorker(purpose);
    }

    /**
     * `spawn_worker`: check the worker, save its hash, create it suspended, record
     * it, resume it. A recovery compares the hash with the recorded one and throws
     * when there is none.
     */
    method SpawnWorker(purpose: Purpose) returns (r: Result<bool>)
      requires Valid() && svc == SvcHash(purpose, false)
      modifies this
      ensures Valid() && svc == SvcIdle
      ensures r.Ok? ==> r == Ok(true) && Dispatched(purpose == ForRecovery) && journal.hashed
      ensures purpose == ForRecovery && !old(journal).hashed ==> r.Err?
    {
      var signal := Tick();
      if signal.fate == Stops {
        r := Stop();
        return;
      }
      if signal.fate == Fails || (purpose == ForRecovery && !journal.hashed) {
        r := FailSpawn(purpose);
        return;
      }
      AfterTaken(start, steps, CheckWorker);
      Step(CheckWorker, journal, m, workers, SvcHash(purpose, true));
      r := SaveWorkerHash(purpose);
      if r.Ok? {
        DispatchedIsHashed();
      }
    }

    /** Recovery must retain the hash even if process creation fails. */
    method SaveWorkerHash(purpose: Purpose) returns (r: Result<bool>)
      requires Valid() && svc == SvcHash(purpose, true)
      modifies this
      ensures Valid() && svc == SvcIdle
      ensures r.Ok? ==> r == Ok(true) && Dispatched(purpose == ForRecovery)
    {
      var signal := Tick();
      if signal.fate == Stops {
        r := Stop();
        return;
      }
      if signal.fate == Fails {
        r := FailSpawn(purpose);
        return;
      }
      AfterTaken(start, steps, SaveHash);
      Step(SaveHash, journal.(hashed := true), m, workers, SvcSpawn(purpose));
      r := CreateChild(purpose);
    }

    lemma DispatchedIsHashed()
      requires Valid() && (Dispatched(true) || Dispatched(false))
      ensures journal.hashed
    {
      ServiceStaysReachable(this);
      assert WorkerOk(journal.worker.value, journal, m, workers[journal.worker.value]);
    }

    method CreateChild(purpose: Purpose) returns (r: Result<bool>)
      requires Valid() && svc == SvcSpawn(purpose)
      modifies this
      ensures Valid() && svc == SvcIdle
      ensures r.Ok? ==> r == Ok(true) && Dispatched(purpose == ForRecovery)
    {
      var signal := Tick();
      if signal.fate == Stops {
        r := Stop();
        return;
      }
      if signal.fate == Fails || signal.child in workers || journal.op.None? {
        r := FailSpawn(purpose);
        return;
      }
      AfterTaken(start, steps, CreateWorker(signal.child));
      Step(CreateWorker(signal.child), journal, m,
           workers[signal.child := Worker(journal.op.value, Suspended, Begin(purpose == ForRecovery), Body, journal)],
           SvcRecord(signal.child, purpose));
      r := RecordChild(signal.child, purpose);
    }

    method RecordChild(child: Proc, purpose: Purpose) returns (r: Result<bool>)
      requires Valid() && svc == SvcRecord(child, purpose)
      modifies this
      ensures Valid() && svc == SvcIdle
      ensures r.Ok? ==> r == Ok(true) && Dispatched(purpose == ForRecovery)
    {
      var signal := Tick();
      if signal.fate == Stops {
        r := Stop();
        return;
      }
      if signal.fate == Fails {
        r := FailSpawn(purpose);
        return;
      }
      AfterTaken(start, steps, RecordWorker);
      Step(RecordWorker, journal.(worker := Some(child)), m, workers, SvcResume(child, purpose));
      r := ResumeChild(child, purpose);
    }

    method ResumeChild(child: Proc, purpose: Purpose) returns (r: Result<bool>)
      requires Valid() && svc == SvcResume(child, purpose)
      modifies this
      ensures Valid() && svc == SvcIdle
      ensures r.Ok? ==> r == Ok(true) && Dispatched(purpose == ForRecovery)
    {
      var signal := Tick();
      if signal.fate == Stops {
        r := Stop();
        return;
      }
      ChildIsRecorded(start, steps);
      if signal.fate == Fails || workers[child].status != Suspended ||
        (journal.op.Some? && journal.op.value in m.gone) {
        r := FailSpawn(purpose);
        return;
      }
      AfterTaken(start, steps, ResumeWorker);
      Step(ResumeWorker, journal, m, workers[child := workers[child].(status := Running)], SvcIdle);
      return Ok(true);
    }

    /** The service is stopped between two steps. */
    method Stop() returns (r: Result<bool>)
      requires Valid() && !svc.SvcIdle?
      modifies this
      ensures Valid() && svc == SvcIdle && r == Err("service_stopped") && journal == old(journal)
    {
      AfterTaken(start, steps, ServiceCrash);
      Step(ServiceCrash, journal, m, workers, SvcIdle);
      return Err("service_stopped");
    }

    /**
     * A failed `start` takes its request back, unless that is cut short as well.
     * A failed restart stays as it was saved and a failed recovery where it was:
     * the reconcile loop will try again, in vain if the hash is missing.
     */
    method FailSpawn(purpose: Purpose) returns (r: Result<bool>)
      requires Valid() && InSpawn(svc) && svc.purpose == purpose
      modifies this
      ensures Valid() && svc == SvcIdle && r.Err?
      ensures purpose == ForStart ==>
        journal.state == Preparing && (r.reason == "worker_start_failed" ==> m.guard.None?)
      ensures purpose == ForRestart ==> journal == old(journal)
      ensures purpose == ForRecovery ==> journal.state == RecoveryRequired
      ensures purpose != ForStart ==> Unhashed(Now()) == !old(journal).hashed
    {
      SpawnFacts(start, steps);
      match purpose {
        case ForStart => r := TakesBack();
        case ForRestart => r := LeavesRestart();
        case ForRecovery => r := DefersRecovery();
      }
    }

    method TakesBack() returns (r: Result<bool>)
      requires Valid() && InSpawn(svc) && svc.purpose == ForStart
      modifies this
      ensures Valid() && svc == SvcIdle && r.Err? && journal.state == Preparing
      ensures r.reason == "worker_start_failed" ==> m.guard.None?
    {
      AfterFail(start, steps);
      Step(Fail, InMemory(Now()).(state := Preparing), m, workers, SvcUndo);
      r := UndoStart();
    }

    method LeavesRestart() returns (r: Result<bool>)
      requires Valid() && InSpawn(svc) && svc.purpose == ForRestart
      modifies this
      ensures Valid() && svc == SvcIdle && r.Err? && journal == old(journal)
    {
      AfterFail(start, steps);
      Step(Fail, journal, m, workers, SvcIdle);
      return Err("worker_start_failed");
    }

    method DefersRecovery() returns (r: Result<bool>)
      requires Valid() && InSpawn(svc) && svc.purpose == ForRecovery
      modifies this
      ensures Valid() && svc == SvcIdle && r.Err? && journal == old(InMemory(Now())).(cancelled := false)
    {
      AfterFail(start, steps);
      Step(Fail, InMemory(Now()).(cancelled := false), m, workers, SvcIdle);
      return Err("recovery_deferred");
    }

    method UndoStart() returns (r: Result<bool>)
      requires Valid() && svc == SvcUndo
      modifies this
      ensures Valid() && svc == SvcIdle && r.Err? && journal == old(journal)
      ensures r.reason == "worker_start_failed" ==> m.guard.None?
    {
      var signal := Tick();
      if signal.fate != Goes {
        r := Stop();
        return;
      }
      AfterTaken(start, steps, DropGuard);
      Step(DropGuard, journal, m.(guard := None), workers, SvcIdle);
      return Err("worker_start_failed");
    }

    // ----- the reconcile loop -----

    /** Record where a dead worker has left an operation, or a finalization. */
    method MarkInterrupted()
      requires Valid() && svc == SvcIdle && RecordedWorkerDead(journal, workers)
      requires Discardable(journal, workers) ==> Discarded(m, journal) == m
      modifies this
      ensures Valid() && svc == SvcIdle && m == old(m) && workers == old(workers)
      ensures journal == if old(CanMark(Now())) then Marked(old(journal)) else old(journal)
    {
      if CanMark(Now()) {
        AfterTaken(start, steps, Mark);
        Step(Mark, Marked(journal), m, workers, SvcIdle);
      }
    }

    method SpawnRecovery() returns (spawned: bool)
      requires Valid() && svc == SvcIdle && RecordedWorkerDead(journal, workers) && journal.state == RecoveryRequired
      modifies this
      ensures Valid() && svc == SvcIdle
      ensures spawned ==> Dispatched(true) && old(journal).hashed
    {
      AfterTaken(start, steps, BeginRecovery);
      Step(BeginRecovery, journal, m, workers, SvcHash(ForRecovery, false));
      var r := SpawnWorker(ForRecovery);
      spawned := r.Ok?;
    }

    /** `reconcile_interrupted_operation`; `due` is whether the retry interval has passed. */
    method Reconcile(due: bool) returns (spawned: bool)
      requires Valid() && svc == SvcIdle
      modifies this
      ensures Valid() && svc == SvcIdle
      ensures spawned ==> Dispatched(true) && old(journal).hashed
      ensures !RecordedWorkerDead(old(journal), old(workers)) ==> Now() == old(Now()) && !spawned
    {
      spawned := false;
      if RecordedWorkerDead(journal, workers) {
        var clean := DiscardCancelled();
        if clean {
          MarkInterrupted();
          if journal.state == RecoveryRequired && due {
            spawned := SpawnRecovery();
          }
        }
      }
    }

    /** Before anything is spawned, failing and stopping leave the same state. */
    method Abandon(fate: Fate)
      requires Valid() && svc.SvcSave?
      modifies this
      ensures Valid() && svc == SvcIdle
    {
      AfterTaken(start, steps, if fate == Fails then Fail else ServiceCrash);
      Step(if fate == Fails then Fail else ServiceCrash, journal, m, workers, SvcIdle);
    }
  }

  /** What the invariant says of a service about to resume its child. */
  lemma ChildIsRecorded(start: State, steps: seq<Step>)
    requires Arises(start) && After(start, steps).svc.SvcResume?
    ensures
      var s := After(start, steps);
      s.svc.child in s.workers && s.journal.worker == Some(s.svc.child) &&
        s.workers[s.svc.child].pc == Begin(s.svc.purpose == ForRecovery)
  {
    ReachableAfter(start, steps);
    ReachableService(After(start, steps));
  }

  /** What the invariant says of the service. */
  lemma ReachableService(s: State)
    requires Reachable(s)
    ensures ServiceOk(s)
  {
    ReachableInv(s);
  }

  /** What the invariant says of a spawn in progress. */
  lemma SpawnFacts(start: State, steps: seq<Step>)
    requires Arises(start) && InSpawn(After(start, steps).svc)
    ensures
      var s := After(start, steps);
      && s.journal.state == (if s.svc.purpose == ForRecovery then RecoveryRequired else WaitingForExit)
      && (s.svc.SvcHash? && s.svc.checked && s.svc.purpose == ForRecovery ==> s.journal.hashed)
  {
    ReachableAfter(start, steps);
    ReachableService(After(start, steps));
  }

  /** While a request is in progress nobody else writes the journal. */
  lemma OthersKeepRecord(start: State, steps: seq<Step>, step: Step)
    requires Arises(start) && !step.SvcStep?
    ensures var s := After(start, steps); !s.svc.SvcIdle? ==> Apply(s, step).journal == s.journal
  {
    var s := After(start, steps);
    if !s.svc.SvcIdle? {
      ReachableAfter(start, steps);
      ReachableInv(s);
      assert NoWorkers(s.workers);
    }
  }

  /** The program never leaves the reachable states, so all that holds of them holds of it. */
  lemma ServiceStaysReachable(x: Service)
    requires x.Valid()
    ensures Reachable(x.Now()) && Inv(x.Now())
  {
    ReachableAfter(x.start, x.steps);
    ReachableInv(x.Now());
  }

  lemma OthersKeepService(s: State, step: Step)
    requires !step.SvcStep?
    ensures Apply(s, step).svc == s.svc
  {
  }
}
