/** The invariant and the monotone facts hold along every run. */
module Runs {
  import opened Common
  import opened Versions
  import opened Journals
  import opened Protocol
  import opened Invariants
  import opened WorkerProofs
  import opened EnvironmentProofs
  import opened ServiceProofs

  lemma InitInv(s: State)
    requires Init(s)
    ensures Inv(s)
  {
  }

  /** A running worker leaves no room for another one or for a service request. */
  lemma RunningIsAlone(s: State, p: Proc)
    requires Inv(s) && p in s.workers && s.workers[p].status == Running
    ensures s.svc == SvcIdle && forall q | q in s.workers && q != p :: s.workers[q].status != Running
  {
    assert WorkerOk(p, s.journal, s.m, s.workers[p]);
    forall q | q in s.workers && q != p
      ensures s.workers[q].status != Running
    {
      assert WorkerOk(q, s.journal, s.m, s.workers[q]);
    }
  }

  lemma AloneKeeps(s: State, p: Proc, l: Local)
    requires s.svc == SvcIdle && p in s.workers
    requires forall q | q in s.workers && q != p :: s.workers[q].status != Running
    requires LocalInv(p, l)
    ensures Inv(s.(journal := l.journal, m := l.m, workers := s.workers[p := l.w]))
  {
  }

  lemma StoppedKeeps(s: State, p: Proc)
    requires Inv(s) && p in s.workers && s.workers[p].status != Running
    ensures Inv(s.(workers := s.workers[p := s.workers[p].(status := Dead)]))
  {
    StoppedService(s, p);
    var t := s.(workers := s.workers[p := s.workers[p].(status := Dead)]);
    forall q | q in t.workers
      ensures WorkerOk(q, t.journal, t.m, t.workers[q])
    {
      assert q != p ==> WorkerOk(q, s.journal, s.m, s.workers[q]);
    }
  }

  lemma StoppedService(s: State, p: Proc)
    requires ServiceOk(s) && p in s.workers && s.workers[p].status != Running
    ensures var t := s.(workers := s.workers[p := s.workers[p].(status := Dead)]);
      ServiceOk(t) && (NoWorkers(s.workers) ==> NoWorkers(t.workers))
  {
    var t := s.(workers := s.workers[p := s.workers[p].(status := Dead)]);
    assert NoWorkers(s.workers) ==> NoWorkers(t.workers);
  }

  lemma WorkerStepKeeps(s: State, p: Proc, step: WorkerStep)
    requires Inv(s) && Enabled(s, WrkStep(p, step))
    ensures Inv(Apply(s, WrkStep(p, step)))
  {
    var l := Local(s.journal, s.m, s.workers[p]);
    if s.workers[p].status == Running {
      RunningIsAlone(s, p);
      WorkerKeeps(p, l, step);
      AloneKeeps(s, p, WorkerApply(l, step));
    } else {
      StoppedKeeps(s, p);
    }
  }

  lemma StepKeeps(s: State, step: Step)
    requires Inv(s)
    ensures Inv(Apply(s, step))
  {
    if Enabled(s, step) {
      match step
      case EnvStep(e) => EnvKeeps(s, e);
      case SvcStep(v) => ServiceKeeps(s, v);
      case WrkStep(p, w) => WorkerStepKeeps(s, p, w);
    }
  }

  lemma {:induction false} RunKeeps(s: State, steps: seq<Step>)
    requires Inv(s)
    ensures Inv(After(s, steps))
    decreases |steps|
  {
    if steps != [] {
      StepKeeps(s, steps[0]);
      RunKeeps(Apply(s, steps[0]), steps[1..]);
    }
  }

  /** Every state of every run satisfies the invariant. */
  lemma ReachableInv(s: State)
    requires Reachable(s)
    ensures Inv(s)
  {
    var start, steps :| Init(start) && After(start, steps) == s;
    InitInv(start);
    RunKeeps(start, steps);
  }

  lemma {:induction false} AfterMore(s: State, a: seq<Step>, b: seq<Step>)
    ensures After(s, a + b) == After(After(s, a), b)
    decreases |a|
  {
    if a == [] {
      assert a + b == b;
    } else {
      assert (a + b)[0] == a[0] && (a + b)[1..] == a[1..] + b;
      AfterMore(Apply(s, a[0]), a[1..], b);
    }
  }

  lemma ReachableAfter(s: State, steps: seq<Step>)
    requires Reachable(s)
    ensures Reachable(After(s, steps))
  {
    var start, before :| Init(start) && After(start, before) == s;
    AfterMore(start, before, steps);
  }

  /** What the invariant says of one worker. */
  lemma ReachableWorker(s: State, p: Proc)
    requires Reachable(s) && p in s.workers
    ensures WorkerOk(p, s.journal, s.m, s.workers[p])
  {
    ReachableInv(s);
  }

  /** What the invariant says of the machine and the durable record. */
  lemma ReachableRecord(s: State)
    requires Reachable(s)
    ensures MachineOk(s.m) && Sound(s.m, s.journal) && Settled(s.m, s.journal)
  {
    ReachableInv(s);
  }

  // ----- what never goes back -----

  ghost predicate HealthyGrows(a: Option<Version>, b: Option<Version>) {
    a.Some? ==> b.Some? && (b == a || Later(b.value, a.value))
  }

  ghost predicate HistoryGrows(a: History, b: History) {
    && a.issued <= b.issued && a.completed <= b.completed && a.healthy <= b.healthy
    && a.restored <= b.restored && a.relaunches <= b.relaunches
  }

  /** Phases that no later record of the same operation leaves. */
  predicate Sticky(x: OpState) {
    x == Completed || x == RolledBack
  }

  ghost predicate RecordAdvances(j: Journal, k: Journal) {
    && (Sticky(Phase(j)) ==> Phase(k) == Phase(j))
    && (j.outcome.Some? ==> k.outcome == j.outcome)
    && (j.relaunched.Some? ==> k.relaunched == j.relaunched)
    && (j.stage == Dispatched ==> k.stage == Dispatched) && (j.skipRelaunch ==> k.skipRelaunch)
    && (k.lastBlocked == j.lastBlocked || k.lastBlocked == Some(k.version))
    && (j.hashed ==> k.hashed) && k.version == j.version
    && (Phase(k) != Completed ==> k.lastHealthy == j.lastHealthy)
    && RestartKept(j, k)
  }

  /** A requested restart of the application stays on record with its cooldown. */
  ghost predicate RestartKept(j: Journal, k: Journal) {
    j.recoveryAttempted ==> k.recoveryAttempted && k.restartOnly == j.restartOnly && k.retryAfter == j.retryAfter
  }

  /** How a later state of a run relates to an earlier one. */
  ghost predicate Advances(s: State, t: State) {
    && t.m.contract == s.m.contract
    && HistoryGrows(s.m.hist, t.m.hist)
    && s.journal.blocked <= t.journal.blocked
    && HealthyGrows(s.journal.lastHealthy, t.journal.lastHealthy)
    && (t.journal.op == s.journal.op ==> RecordAdvances(s.journal, t.journal))
    && (t.journal.op != s.journal.op ==> t.journal.op.Some? && t.journal.op.value !in s.m.hist.issued)
  }

  lemma CommitAdvances(m: Machine, job: Journal)
    ensures HistoryGrows(m.hist, Commit(m, job).hist) && Commit(m, job).contract == m.contract
  {
  }

  lemma SavedAdvances(j: Journal, m: Machine, w: Worker)
    requires HealthyOk(m, j) && j.op.Some? && Follows(j, w.job) && HealthyOk(m, w.job)
    ensures j.blocked <= w.job.blocked && HealthyGrows(j.lastHealthy, w.job.lastHealthy) && RecordAdvances(j, w.job)
  {
    LaterIrreflexive(j.version);
  }

  lemma ProceedAdvances(l: Local, child: Proc)
    requires CanProceed(l, child)
    ensures var n := ProceedStep(l, child);
      && n.journal == l.journal && n.m.contract == l.m.contract && HistoryGrows(l.m.hist, n.m.hist)
      && n.m.gone == l.m.gone && n.w.status == l.w.status
  {
  }

  lemma WorkerAdvances(s: State, p: Proc, step: WorkerStep)
    requires Inv(s) && Enabled(s, WrkStep(p, step))
    ensures Advances(s, Apply(s, WrkStep(p, step)))
  {
    var l, t := Local(s.journal, s.m, s.workers[p]), Apply(s, WrkStep(p, step));
    if step.Save? || step == SaveFail(true) {
      assert WorkerOk(p, s.journal, s.m, l.w);
      SaveAdvances(s, t, l.w);
    } else {
      if step.Proceed? {
        ProceedAdvances(l, step.child);
      }
      MachineAdvances(s, t);
    }
  }

  lemma SaveAdvances(s: State, t: State, w: Worker)
    requires t.journal == w.job && t.m == Commit(s.m, w.job)
    requires Sound(s.m, s.journal) && s.journal.op.Some? && Follows(s.journal, w.job) && Sound(s.m, w.job)
    ensures Advances(s, t)
  {
    CommitAdvances(s.m, w.job);
    assert HealthyOk(s.m, s.journal) && HealthyOk(s.m, w.job);
    SavedAdvances(s.journal, s.m, w);
  }

  lemma MachineAdvances(s: State, t: State)
    requires t.journal == s.journal && t.m.contract == s.m.contract && HistoryGrows(s.m.hist, t.m.hist)
    ensures Advances(s, t)
  {
  }

  lemma WorkerKeepsOperation(s: State, p: Proc, step: WorkerStep)
    requires Inv(s) && Enabled(s, WrkStep(p, step))
    ensures Apply(s, WrkStep(p, step)).journal.op == s.journal.op
  {
    assert WorkerOk(p, s.journal, s.m, s.workers[p]);
    if step.Proceed? {
      ProceedAdvances(Local(s.journal, s.m, s.workers[p]), step.child);
    }
  }

  /** The service changes a record only in ways that keep its outcome. */
  ghost predicate Rewritten(j: Journal, k: Journal) {
    && k.op == j.op && k.version == j.version && k.blocked == j.blocked && k.lastHealthy == j.lastHealthy
    && k.outcome == j.outcome && k.relaunched == j.relaunched && k.stage == j.stage
    && k.skipRelaunch == j.skipRelaunch && k.lastBlocked == j.lastBlocked && (j.hashed ==> k.hashed)
    && (Sticky(Phase(j)) ==> Phase(k) == Phase(j))
    && (Phase(k) == Phase(j) || Phase(k) == Preparing || Phase(k) == WaitingForExit || Phase(k) == Deferred)
    && RestartKept(j, k)
  }

  lemma SaveRewrites(s: State)
    requires ServiceOk(s) && s.svc.SvcSave?
    ensures Rewritten(s.journal, s.svc.current)
  {
  }

  lemma FailRewrites(s: State)
    requires ServiceOk(s) && SvcEnabled(s, Fail)
    ensures Rewritten(s.journal, SvcApply(s, Fail).journal)
  {
    if s.svc.SvcHash? {
      FailedSpawnRewrites(s, s.journal.(hashed := s.journal.hashed || s.svc.checked), s.svc.purpose);
    } else if s.svc.SvcSpawn? || s.svc.SvcResume? {
      FailedSpawnRewrites(s, s.journal, s.svc.purpose);
    } else if s.svc.SvcRecord? {
      FailedSpawnRewrites(s, s.journal.(worker := Some(s.svc.child)), s.svc.purpose);
    }
  }

  lemma FailedSpawnRewrites(s: State, j: Journal, purpose: Purpose)
    requires j == s.journal.(worker := j.worker, hashed := j.hashed) && (s.journal.hashed ==> j.hashed)
    requires s.journal.state == (if purpose == ForRecovery then RecoveryRequired else WaitingForExit)
    ensures Rewritten(s.journal, FailedSpawn(s, j, purpose).journal)
  {
  }

  lemma SpawnRewrites(s: State, v: ServiceStep)
    requires ServiceOk(s) && SvcEnabled(s, v) && (v.SaveRequest? || v.SaveHash? || v.RecordWorker? || v.Fail?)
    ensures Rewritten(s.journal, SvcApply(s, v).journal)
  {
    if v.SaveRequest? {
      SaveRewrites(s);
    } else if v.Fail? {
      FailRewrites(s);
    }
  }

  lemma RequestRewrites(s: State, v: ServiceStep)
    requires SvcEnabled(s, v) && (v.Cancel? || v.Mark?)
    ensures Rewritten(s.journal, SvcApply(s, v).journal)
  {
  }

  lemma ServiceRewrites(s: State, v: ServiceStep)
    requires Inv(s) && SvcEnabled(s, v) && !v.Prepare?
    ensures Rewritten(s.journal, SvcApply(s, v).journal)
  {
    if v.SaveRequest? || v.SaveHash? || v.Fail? || v.RecordWorker? {
      SpawnRewrites(s, v);
    } else if v.Cancel? || v.Mark? {
      RequestRewrites(s, v);
    } else {
      assert SvcApply(s, v).journal == s.journal;
    }
  }

  lemma ServiceMachine(s: State, v: ServiceStep)
    requires SvcEnabled(s, v)
    ensures var n := SvcApply(s, v).m; n.contract == s.m.contract && HistoryGrows(s.m.hist, n.hist)
  {
  }

  lemma ServiceAdvances(s: State, v: ServiceStep)
    requires Inv(s) && SvcEnabled(s, v)
    ensures Advances(s, SvcApply(s, v))
  {
    ServiceMachine(s, v);
    if !v.Prepare? {
      ServiceRewrites(s, v);
    }
  }

  lemma EnvAdvances(s: State, e: EnvironmentStep)
    requires EnvEnabled(s.m, e)
    ensures Advances(s, s.(m := EnvApply(s.m, e)))
  {
  }

  lemma StepAdvances(s: State, step: Step)
    requires Inv(s)
    ensures Advances(s, Apply(s, step))
  {
    if Enabled(s, step) {
      match step
      case EnvStep(e) => EnvAdvances(s, e);
      case SvcStep(v) => ServiceAdvances(s, v);
      case WrkStep(p, w) => WorkerAdvances(s, p, w);
    }
  }

  lemma AdvancesTransitive(s: State, t: State, u: State)
    requires Advances(s, t) && Advances(t, u)
    requires s.journal.op.Some? ==> s.journal.op.value in s.m.hist.issued
    ensures Advances(s, u)
  {
    if s.journal.lastHealthy.Some? {
      var a, b, c := s.journal.lastHealthy, t.journal.lastHealthy, u.journal.lastHealthy;
      if b != a && c != b {
        LaterTransitive(c.value, b.value, a.value);
      }
    }
  }

  lemma {:induction false} RunAdvances(s: State, steps: seq<Step>)
    requires Inv(s)
    ensures Advances(s, After(s, steps))
    decreases |steps|
  {
    if steps != [] {
      var t := Apply(s, steps[0]);
      StepKeeps(s, steps[0]);
      StepAdvances(s, steps[0]);
      RunAdvances(t, steps[1..]);
      AdvancesTransitive(s, t, After(t, steps[1..]));
    }
  }
}
