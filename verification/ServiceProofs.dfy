/** The service keeps the invariant: requests, reconciliation and failed or interrupted spawns. */
module ServiceProofs {
  import opened Common
  import opened Versions
  import opened Journals
  import opened Protocol
  import opened Invariants
  import opened RecordProofs

  /** Looking at the recorded worker alone is enough. */
  lemma RecordedIsOnly(s: State)
    requires forall p | p in s.workers :: WorkerOk(p, s.journal, s.m, s.workers[p])
    requires RecordedWorkerDead(s.journal, s.workers)
    ensures NoWorkers(s.workers)
  {
  }

  /** With no worker running, a new sound and settled record keeps the invariant. */
  lemma Rewrite(s: State, t: State)
    requires NoWorkers(s.workers) && t.workers == s.workers
    requires MachineOk(t.m) && Sound(t.m, t.journal) && Settled(t.m, t.journal) && ServiceOk(t)
    ensures Inv(t)
  {
  }

  function Staged(m: Machine, op: OpId, setup: Blob): Machine {
    m.(ops := m.ops[op := OpDir(setup, None)], hist := m.hist.(issued := m.hist.issued + {op}))
  }

  lemma StagedMachine(m: Machine, op: OpId, setup: Blob)
    requires MachineOk(m) && op !in m.hist.issued
    ensures MachineOk(Staged(m, op, setup))
    ensures op !in m.hist.completed && op !in m.hist.restored && op !in m.gone &&
      forall p :: (op, p) !in m.hist.relaunches
  {
  }

  lemma PreparedVersions(m: Machine, j: Journal, op: OpId, version: Version, sid: Sid)
    requires BlockedOk(j) && HealthyOk(m, j) && version !in j.blocked && |j.blocked| < MaxBlocked
    requires j.lastHealthy.Some? ==> Later(version, j.lastHealthy.value)
    ensures BlockedOk(Prepared(j, op, version, sid)) && HealthyOk(m, Prepared(j, op, version, sid))
  {
  }

  lemma PreparedSound(m: Machine, j: Journal, op: OpId, version: Version, setup: Blob, sid: Sid)
    requires MachineOk(m) && Sound(m, j) && Settled(m, j) && CanPrepare(j.state) && m.guard.None?
    requires op !in m.hist.issued && version !in j.blocked && |j.blocked| < MaxBlocked
    requires j.lastHealthy.Some? ==> Later(version, j.lastHealthy.value)
    requires Later(version, m.res.policy.installedVersion)
    ensures var n := Staged(m, op, setup);
      MachineOk(n) && Sound(n, Prepared(j, op, version, sid)) && Settled(n, Prepared(j, op, version, sid))
  {
    StagedMachine(m, op, setup);
    PreparedVersions(m, j, op, version, sid);
    NothingRuns(m, j);
    PreparedFits(Staged(m, op, setup), Prepared(j, op, version, sid));
  }

  lemma NothingRuns(m: Machine, j: Journal)
    requires Sound(m, j) && Settled(m, j) && CanPrepare(j.state)
    ensures NoSetup(m) && NoValidation(m) && m.res == m.untouched
  {
    assert SetupHeld(m, j) && ValidationHeld(m, j) && Phase(j) == j.state;
  }

  /** A fresh record of an operation the machine has only just issued. */
  lemma PreparedFits(m: Machine, j: Journal)
    requires j.state == Preparing && j.op.Some? && j == Fresh(Preparing, j.op, j.version, j.client)
      .(blocked := j.blocked, lastBlocked := j.lastBlocked, lastHealthy := j.lastHealthy)
    requires j.op.value in m.hist.issued && j.op.value in m.ops && m.guard.None? && NoSetup(m) && NoValidation(m)
    requires j.op.value !in m.hist.completed && j.op.value !in m.hist.restored && j.op.value !in m.gone
    requires Later(j.version, m.res.policy.installedVersion)
    requires forall p :: (j.op.value, p) !in m.hist.relaunches
    requires BlockedOk(j) && HealthyOk(m, j) && m.res == m.untouched
    ensures Sound(m, j) && Settled(m, j)
  {
  }

  lemma PrepareKeeps(s: State, v: ServiceStep)
    requires Inv(s) && v.Prepare? && SvcEnabled(s, v)
    ensures Inv(SvcApply(s, v))
  {
    RecordedIsOnly(s);
    LaterIsNewer(v.version, s.m.res.policy.installedVersion);
    if s.journal.lastHealthy.Some? {
      LaterIsNewer(v.version, s.journal.lastHealthy.value);
    }
    PreparedSound(s.m, s.journal, v.op, v.version, v.setup, v.sid);
    Rewrite(s, SvcApply(s, v));
  }

  lemma CancelSound(m: Machine, j: Journal)
    requires Sound(m, j) && (j.state == Preparing || j.state == Deferred) && m.guard.None? && !j.pending
    ensures Sound(m, j.(state := Deferred, cancelled := true))
  {
  }

  lemma CancelKeeps(s: State, v: ServiceStep)
    requires Inv(s) && v.Cancel? && SvcEnabled(s, v)
    ensures Inv(SvcApply(s, v))
  {
    RecordedIsOnly(s);
    CancelSound(s.m, s.journal);
    Rewrite(s, SvcApply(s, v));
  }

  lemma GuardSet(m: Machine, j: Journal)
    requires MachineOk(m) && Sound(m, j) && Settled(m, j) && j.op.Some?
    ensures var n := m.(guard := j.op); MachineOk(n) && Sound(n, j) && Settled(n, j)
  {
  }

  lemma RequestSound(m: Machine, j: Journal, k: Journal, app: Proc, now: int)
    requires Sound(m, j) && m.guard == j.op && !j.pending
    requires
      || (j.state == Preparing && !j.restartOnly && m.contract && k == StartRequest(j, app))
      || ((j.state == Preparing || j.state == Deferred) && k == RestartRequest(j, app, now))
    ensures Sound(m, k)
  {
  }

  lemma UndoSound(m: Machine, j: Journal, app: Proc)
    requires Sound(m, j) && j.state == Preparing
    ensures Sound(m, StartRequest(j, app).(state := Preparing))
  {
  }

  lemma StartKeeps(s: State, v: ServiceStep)
    requires Inv(s) && v.BeginStart? && SvcEnabled(s, v)
    ensures Inv(SvcApply(s, v))
  {
    RecordedIsOnly(s);
    var t := SvcApply(s, v);
    GuardSet(s.m, s.journal);
    RequestSound(t.m, s.journal, StartRequest(s.journal, v.app), v.app, 0);
    UndoSound(t.m, s.journal, v.app);
    Rewrite(s, t);
  }

  lemma RestartKeeps(s: State, v: ServiceStep)
    requires Inv(s) && v.BeginRestart? && SvcEnabled(s, v)
    ensures Inv(SvcApply(s, v))
  {
    RecordedIsOnly(s);
    var t := SvcApply(s, v);
    GuardSet(s.m, s.journal);
    RequestSound(t.m, s.journal, RestartRequest(s.journal, v.app, v.now), v.app, v.now);
    Rewrite(s, t);
  }

  lemma MarkSound(m: Machine, j: Journal)
    requires Sound(m, j) && (Interruptible(j.state) || (Terminal(j.state) && (j.pending || m.guard.Some?)))
    ensures Sound(m, Marked(j)) && Dirty(Marked(j)) == Dirty(j)
  {
    SamePhase(m, j, Marked(j));
  }

  lemma DiscardSound(m: Machine, j: Journal)
    requires MachineOk(m) && Sound(m, j) && Settled(m, j) && j.state == Deferred && j.cancelled && !j.pending
    ensures var n := Discarded(m, j); MachineOk(n) && Sound(n, j) && Settled(n, j)
  {
  }

  lemma DiscardKeeps(s: State)
    requires Inv(s) && SvcEnabled(s, Discard)
    ensures Inv(SvcApply(s, Discard))
  {
    RecordedIsOnly(s);
    DiscardSound(s.m, s.journal);
    Rewrite(s, SvcApply(s, Discard));
  }

  lemma MarkKeeps(s: State)
    requires Inv(s) && SvcEnabled(s, Mark)
    ensures Inv(SvcApply(s, Mark))
  {
    RecordedIsOnly(s);
    MarkSound(s.m, s.journal);
    Rewrite(s, SvcApply(s, Mark));
  }

  lemma RecoveryKeeps(s: State)
    requires Inv(s) && SvcEnabled(s, ServiceStep.BeginRecovery)
    ensures Inv(SvcApply(s, ServiceStep.BeginRecovery))
  {
    RecordedIsOnly(s);
    Rewrite(s, SvcApply(s, ServiceStep.BeginRecovery));
  }

  lemma SaveRequestKeeps(s: State)
    requires Inv(s) && SvcEnabled(s, SaveRequest)
    ensures Inv(SvcApply(s, SaveRequest))
  {
    Rewrite(s, SvcApply(s, SaveRequest));
  }

  lemma CheckWorkerKeeps(s: State)
    requires Inv(s) && SvcEnabled(s, CheckWorker)
    ensures Inv(SvcApply(s, CheckWorker))
  {
    Rewrite(s, SvcApply(s, CheckWorker));
  }

  lemma HashField(m: Machine, j: Journal, hashed: bool)
    requires Sound(m, j)
    ensures Sound(m, j.(hashed := j.hashed || hashed)) && Dirty(j.(hashed := j.hashed || hashed)) == Dirty(j)
  {
    SamePhase(m, j, j.(hashed := j.hashed || hashed));
  }

  lemma SaveHashKeeps(s: State)
    requires Inv(s) && SvcEnabled(s, SaveHash)
    ensures Inv(SvcApply(s, SaveHash))
  {
    var t := SvcApply(s, SaveHash);
    HashField(s.m, s.journal, true);
    if s.svc.purpose == ForStart {
      HashField(s.m, s.journal.(state := Preparing), true);
      assert t.journal.(state := Preparing) == s.journal.(state := Preparing).(hashed := true);
    }
    assert ServiceOk(t);
    Rewrite(s, t);
  }

  lemma CreateKeeps(s: State, v: ServiceStep)
    requires Inv(s) && v.CreateWorker? && SvcEnabled(s, v)
    ensures Inv(SvcApply(s, v))
  {
    Created(s, v);
    Quiesced(SvcApply(s, v));
  }

  lemma Created(s: State, v: ServiceStep)
    requires ServiceOk(s) && v.CreateWorker? && SvcEnabled(s, v)
    ensures var t := SvcApply(s, v);
      ServiceOk(t) && NoWorkers(t.workers) && t.m == s.m && t.journal == s.journal
  {
  }

  /** With no worker running there is nothing to know about workers. */
  lemma Quiesced(t: State)
    requires NoWorkers(t.workers)
    requires MachineOk(t.m) && Sound(t.m, t.journal) && Settled(t.m, t.journal) && ServiceOk(t)
    ensures Inv(t)
  {
  }

  lemma WorkerField(m: Machine, j: Journal, p: Proc)
    requires Sound(m, j)
    ensures Sound(m, j.(worker := Some(p))) && Dirty(j.(worker := Some(p))) == Dirty(j)
  {
    SamePhase(m, j, j.(worker := Some(p)));
  }

  lemma RecordKeeps(s: State)
    requires Inv(s) && SvcEnabled(s, RecordWorker)
    ensures Inv(SvcApply(s, RecordWorker))
  {
    var t := SvcApply(s, RecordWorker);
    WorkerField(s.m, s.journal, s.svc.child);
    if s.svc.purpose == ForStart {
      WorkerField(s.m, s.journal.(state := Preparing), s.svc.child);
      assert t.journal.(state := Preparing) == s.journal.(state := Preparing).(worker := Some(s.svc.child));
    }
    assert ServiceOk(t);
    Rewrite(s, t);
  }

  /** With no request in progress, only the workers are left to account for. */
  lemma Resting(t: State)
    requires t.svc == SvcIdle && MachineOk(t.m) && Sound(t.m, t.journal) && Settled(t.m, t.journal)
    requires forall p | p in t.workers :: WorkerOk(p, t.journal, t.m, t.workers[p])
    ensures Inv(t)
  {
  }

  lemma ResumeKeeps(s: State)
    requires Inv(s) && SvcEnabled(s, ResumeWorker)
    ensures Inv(SvcApply(s, ResumeWorker))
  {
    Resumed(s);
    Resting(SvcApply(s, ResumeWorker));
  }

  lemma Resumed(s: State)
    requires ServiceOk(s) && SvcEnabled(s, ResumeWorker) && s.journal.op.Some?
    ensures var t := SvcApply(s, ResumeWorker);
      && t.svc == SvcIdle && t.m == s.m && t.journal == s.journal
      && (forall p | p in t.workers :: WorkerOk(p, t.journal, t.m, t.workers[p]))
  {
  }

  lemma ReasonGiven(m: Machine, j: Journal)
    requires Sound(m, j)
    ensures Sound(m, j.(cancelled := false))
  {
    SamePhase(m, j, j.(cancelled := false));
  }

  /** A failed spawn, with `j` the record held in memory. */
  lemma FailedSpawnKeeps(s: State, j: Journal, purpose: Purpose)
    requires Inv(s) && Spawning(s, purpose) && Sound(s.m, j)
    requires j == s.journal.(worker := j.worker, hashed := j.hashed)
    requires purpose == ForStart ==> Sound(s.m, j.(state := Preparing))
    ensures Inv(FailedSpawn(s, j, purpose))
  {
    ReasonGiven(s.m, j);
    Rewrite(s, FailedSpawn(s, j, purpose));
  }

  lemma RecordFailKeeps(s: State)
    requires Inv(s) && s.svc.SvcRecord?
    ensures Inv(FailedSpawn(s, s.journal.(worker := Some(s.svc.child)), s.svc.purpose))
  {
    var j := s.journal.(worker := Some(s.svc.child));
    WorkerField(s.m, s.journal, s.svc.child);
    if s.svc.purpose == ForStart {
      WorkerField(s.m, s.journal.(state := Preparing), s.svc.child);
      assert j.(state := Preparing) == s.journal.(state := Preparing).(worker := Some(s.svc.child));
    }
    FailedSpawnKeeps(s, j, s.svc.purpose);
  }

  lemma HashFailKeeps(s: State)
    requires Inv(s) && s.svc.SvcHash?
    ensures Inv(FailedSpawn(s, s.journal.(hashed := s.journal.hashed || s.svc.checked), s.svc.purpose))
  {
    var j := s.journal.(hashed := s.journal.hashed || s.svc.checked);
    HashField(s.m, s.journal, s.svc.checked);
    if s.svc.purpose == ForStart {
      HashField(s.m, s.journal.(state := Preparing), s.svc.checked);
      assert j.(state := Preparing) == s.journal.(state := Preparing).(hashed := j.hashed);
    }
    FailedSpawnKeeps(s, j, s.svc.purpose);
  }

  lemma FailKeeps(s: State)
    requires Inv(s) && SvcEnabled(s, Fail)
    ensures Inv(SvcApply(s, Fail))
  {
    if s.svc.SvcHash? {
      HashFailKeeps(s);
    } else if s.svc.SvcSpawn? || s.svc.SvcResume? {
      FailedSpawnKeeps(s, s.journal, s.svc.purpose);
    } else if s.svc.SvcRecord? {
      RecordFailKeeps(s);
    } else {
      Rewrite(s, s.(svc := SvcIdle));
    }
  }

  lemma GuardDropped(m: Machine, j: Journal)
    requires MachineOk(m) && Sound(m, j) && Settled(m, j) && j.state == Preparing
    ensures var n := m.(guard := None); MachineOk(n) && Sound(n, j) && Settled(n, j)
  {
  }

  lemma DropGuardKeeps(s: State)
    requires Inv(s) && SvcEnabled(s, DropGuard)
    ensures Inv(SvcApply(s, DropGuard))
  {
    GuardDropped(s.m, s.journal);
    Rewrite(s, SvcApply(s, DropGuard));
  }

  lemma RequestKeeps(s: State, v: ServiceStep)
    requires Inv(s) && SvcEnabled(s, v)
    requires v.Prepare? || v.Cancel? || v.BeginStart? || v.BeginRestart? || v.Discard? || v.Mark? || v.BeginRecovery?
    ensures Inv(SvcApply(s, v))
  {
    match v
    case Prepare(_, _, _, _, _) => PrepareKeeps(s, v);
    case Cancel(_, _) => CancelKeeps(s, v);
    case BeginStart(_, _, _) => StartKeeps(s, v);
    case BeginRestart(_, _, _, _) => RestartKeeps(s, v);
    case Discard => DiscardKeeps(s);
    case Mark => MarkKeeps(s);
    case BeginRecovery => RecoveryKeeps(s);
  }

  lemma CrashKeeps(s: State)
    requires Inv(s) && SvcEnabled(s, ServiceCrash)
    ensures Inv(SvcApply(s, ServiceCrash))
  {
    Rewrite(s, s.(svc := SvcIdle));
  }

  /** Whatever step the service takes, the invariant survives. */
  lemma ServiceKeeps(s: State, v: ServiceStep)
    requires Inv(s) && SvcEnabled(s, v)
    ensures Inv(SvcApply(s, v))
  {
    if v.SaveRequest? {
      SaveRequestKeeps(s);
    } else if v.CheckWorker? {
      CheckWorkerKeeps(s);
    } else if v.SaveHash? {
      SaveHashKeeps(s);
    } else if v.CreateWorker? {
      CreateKeeps(s, v);
    } else if v.RecordWorker? {
      RecordKeeps(s);
    } else if v.ResumeWorker? {
      ResumeKeeps(s);
    } else if v.Fail? {
      FailKeeps(s);
    } else if v.DropGuard? {
      DropGuardKeeps(s);
    } else if v.ServiceCrash? {
      CrashKeeps(s);
    } else {
      RequestKeeps(s, v);
    }
  }
}
