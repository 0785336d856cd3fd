/**
 * Exactly when an operation can still be brought to an end: from every
 * reachable state some schedule records and finalizes an outcome and releases
 * the boot guard, unless the state is one of the dead ends of `LostChild`.
 */
module Recoverability {
  import opened Common
  import opened Versions
  import opened Journals
  import opened Protocol
  import opened Invariants
  import opened Runs
  import opened Theorems
  import opened Schedules
  import opened Paths
  import opened Requests
  import opened Possibility
  import opened LostChild

  /** The operation has an outcome, nothing is pending, and the machine boots normally. */
  predicate Closed(s: State, op: Option<OpId>) {
    s.journal.op == op && Terminal(s.journal.state) && !s.journal.pending && s.m.guard.None?
  }

  ghost predicate CanClose(s: State) {
    exists t :: Leads(AnySteps, s, t) && Closed(t, s.journal.op)
  }

  // ----- bringing everything to rest -----

  /** What matters of a state on the way. */
  ghost predicate Underway(kind: Kind, o: State, s: State, op: Option<OpId>) {
    && Leads(kind, o, s) && Inv(s) && s.journal.op == op && op.Some?
    && !LostRecord(s.m, s.journal) && !Stuck(s) && Vouched(s.journal)
  }

  ghost predicate AtRest(s: State) {
    s.svc == SvcIdle && RecordedWorkerDead(s.journal, s.workers)
  }

  /** A worker that knows more than the journal saves it. */
  lemma SavesKnowledge(kind: Kind, s: State, p: Proc) returns (t: State)
    requires Inv(s) && p in s.workers && s.workers[p].status == Running && !s.workers[p].pc.Begin?
    requires LostRecord(s.m, s.journal) && !LostRecord(s.m, s.workers[p].job) && s.journal.op.Some? && !Stuck(s)
    ensures Underway(kind, s, t, s.journal.op)
  {
    RunningIsAlone(s, p);
    assert WorkerOk(p, s.journal, s.m, s.workers[p]);
    var g, l := Ground(kind, s, s, p), Local(s.journal, s.m, s.workers[p]);
    LeadsHere(kind, s);
    assert s.workers[p := s.workers[p]] == s.workers;
    assert Placed(g, l) == s;
    var n := SavesJob(g, l);
    t := Placed(g, n);
    LeadsInv(kind, s, t);
  }

  lemma SavesJob(g: Ground, l: Local) returns (n: Local)
    requires Can(g, l) && l.w.status == Running && WorkerOk(g.p, l.journal, l.m, l.w) && !l.w.pc.Begin?
    requires LostRecord(l.m, l.journal) && !LostRecord(l.m, l.w.job)
    ensures Can(g, n) && !LostRecord(n.m, n.journal) && n.journal.op == l.journal.op && n.journal.hashed
    ensures n.m.gone == l.m.gone && n.m.guard == l.m.guard
  {
    assert !Synced(l.w.pc);
    if l.w.pc.Saving? {
      n := SaveNow(g, l);
    } else {
      n := GoAndSave(g, l, 0);
    }
  }

  /** A request saves the hash it is about to compute; nothing else is changed. */
  lemma Vouches(kind: Kind, s: State) returns (t: State)
    requires Inv(s) && !LostRecord(s.m, s.journal) && !Stuck(s) && !Unhashed(s) && s.journal.op.Some?
    requires kind != NoService
    ensures Underway(kind, s, t, s.journal.op)
  {
    LeadsHere(kind, s);
    t := s;
    if !Vouched(s.journal) {
      assert ServiceOk(s) && s.svc.SvcHash?;
      t := Hashes(kind, s, s);
      LeadsInv(kind, s, t);
    }
  }

  /** The recorded worker and a request in progress are cut short. */
  lemma Stops(kind: Kind, o: State, s: State) returns (t: State)
    requires Leads(kind, o, s) && kind != NoService
    ensures Leads(kind, o, t) && AtRest(t) && t.journal == s.journal && t.m == s.m
  {
    t := s;
    if !t.svc.SvcIdle? {
      ServiceNext(kind, o, t, ServiceCrash);
      t := SvcApply(t, ServiceCrash);
    }
    if !RecordedWorkerDead(t.journal, t.workers) {
      LeadsOn(kind, o, t, WrkStep(t.journal.worker.value, Crash));
      t := Apply(t, WrkStep(t.journal.worker.value, Crash));
    }
  }

  lemma ComesToRest(kind: Kind, s: State) returns (t: State)
    requires Inv(s) && s.journal.op.Some? && !DeadEnd(s) && kind != NoService
    ensures Underway(kind, s, t, s.journal.op) && AtRest(t)
  {
    var u;
    if LostRecord(s.m, s.journal) {
      var p :| p in s.workers && !LostWorker(s.m, s.workers[p]);
      u := SavesKnowledge(kind, s, p);
    } else {
      u := Vouches(kind, s);
    }
    t := Stops(kind, s, u);
    LeadsInv(kind, s, t);
  }

  // ----- what is left to do -----

  /** What the invariant says of a record at rest that is not closed. */
  lemma OpenRecord(s: State)
    requires Inv(s) && AtRest(s) && s.journal.op.Some? && !Stuck(s) && !Closed(s, s.journal.op)
    ensures s.journal.op.value !in s.m.gone && (s.m.guard.Some? ==> s.m.guard == s.journal.op)
    ensures s.journal.restartOnly == s.journal.recoveryAttempted
    ensures s.journal.cancelled && s.journal.restartOnly ==> s.journal.outcome.Some?
    ensures s.journal.state == Preparing ==> !s.journal.restartOnly && !s.journal.pending
    ensures s.journal.state != Idle
    ensures s.journal.stage == Created ==> s.journal.pending
    ensures s.journal.hashed || MayLackHash(s.journal)
  {
    assert Shape(s.m, s.journal) && RelaunchShape(s.journal) && Backed(s.m, s.journal) && Guarded(s.m, s.journal);
  }

  /** Nothing was recorded for it yet, so the application can be restarted. */
  predicate Restartable(s: State) {
    && (s.journal.state == Preparing || s.journal.state == Deferred)
    && !s.journal.pending && !s.journal.recoveryAttempted
  }

  /** A restart of the application, carried out, defers the operation. */
  lemma ClosesByRestart(kind: Kind, o: State, s: State) returns (t: State)
    requires Leads(kind, o, s) && AtRest(s) && Restartable(s) && kind != NoService
    requires s.journal.op.Some? && s.journal.op.value !in s.m.gone && s.journal.stage != Created
    requires s.m.guard.Some? ==> s.m.guard == s.journal.op
    ensures Leads(kind, o, t) && Closed(t, s.journal.op)
  {
    var a := AppsExit(kind, o, s);
    var b := RequestsRestart(kind, o, a, s.journal.op.value, s.journal.client, 0, 0);
    var g, begin := Spawns(kind, o, b, ForRestart);
    var l := Go(g, begin, 0);
    var n := Restarts(g, l);
    t := Placed(g, n);
  }

  lemma MarksNow(kind: Kind, o: State, s: State) returns (t: State)
    requires Leads(kind, o, s) && AtRest(s) && CanMark(s) && kind != NoService
    requires Discardable(s.journal, s.workers) ==> s.journal.outcome.Some?
    ensures Leads(kind, o, t) && AtRest(t) && t.journal == Marked(s.journal) && t.m == s.m
  {
    ServiceNext(kind, o, s, Mark);
    t := SvcApply(s, Mark);
  }

  lemma ToRecovery(kind: Kind, o: State, s: State) returns (t: State)
    requires Underway(kind, o, s, s.journal.op) && AtRest(s) && !Closed(s, s.journal.op) && Inv(o)
    requires !Restartable(s) && kind != NoService
    ensures Underway(kind, o, t, s.journal.op) && AtRest(t) && t.journal.state == RecoveryRequired
    ensures s.journal.op.value !in t.m.gone
  {
    OpenRecord(s);
    if s.journal.state == RecoveryRequired {
      t := s;
    } else {
      assert s.journal.hashed;
      t := MarksNow(kind, o, s);
    }
    LeadsInv(kind, o, t);
  }

  // ----- recovery -----

  /** What the invariant says of a record marked for recovery. */
  lemma MarkedRecord(s: State)
    requires Inv(s) && s.journal.state == RecoveryRequired && !LostRecord(s.m, s.journal)
    ensures Terminal(Phase(s.journal)) || (Resumable(s.journal) && s.journal.stage != Created)
    ensures s.journal.stage == Created ==> AppAlive(s.m, s.journal.relaunched)
    ensures s.journal.snapshotComplete ==> HasSnapshot(s.m, s.journal.op)
    ensures s.m.guard.Some? ==> s.m.guard == s.journal.op
  {
    assert Shape(s.m, s.journal) && RelaunchShape(s.journal) && Backed(s.m, s.journal) && Guarded(s.m, s.journal);
  }

  /** Setup has exited, and so has the application unless it is the recorded child. */
  lemma Quiets(kind: Kind, o: State, s: State) returns (t: State)
    requires Leads(kind, o, s)
    ensures Leads(kind, o, t) && t == s.(m := s.m.(apps := t.m.apps, setups := t.m.setups))
    ensures SetupGone(t.m, s.journal.setup)
    ensures if s.journal.stage == Created then t.m.apps == s.m.apps else NoLiveApps(t.m)
  {
    t := RecordedSetupExits(kind, o, s);
    if s.journal.stage != Created {
      t := AppsExit(kind, o, t);
    }
  }

  lemma ClosesByRecovery(kind: Kind, o: State, s: State) returns (t: State)
    requires Underway(kind, o, s, s.journal.op) && AtRest(s) && s.journal.state == RecoveryRequired
    requires s.journal.op.value !in s.m.gone && kind != NoService
    ensures Leads(kind, o, t) && Closed(t, s.journal.op)
  {
    MarkedRecord(s);
    var a := Quiets(kind, o, s);
    ServiceNext(kind, o, a, BeginRecovery);
    var g, l := Spawns(kind, o, SvcApply(a, BeginRecovery), ForRecovery);
    var n := Recovers(g, l);
    t := Placed(g, n);
  }

  /** Away from the dead ends every operation can be brought to an end, preparing and revoking nothing. */
  lemma Closes(kind: Kind, s: State) returns (t: State)
    requires Inv(s) && s.journal.op.Some? && !DeadEnd(s) && kind != NoService
    ensures Leads(kind, s, t) && Closed(t, s.journal.op)
  {
    var a := ComesToRest(kind, s);
    if Closed(a, a.journal.op) {
      t := a;
    } else if Restartable(a) {
      OpenRecord(a);
      t := ClosesByRestart(kind, s, a);
    } else {
      var b := ToRecovery(kind, s, a);
      t := ClosesByRecovery(kind, s, b);
    }
  }

  lemma DeadEndNeverCloses(s: State)
    requires Inv(s) && DeadEnd(s)
    ensures !CanClose(s)
  {
    forall t | Leads(AnySteps, s, t)
      ensures !Closed(t, s.journal.op)
    {
      var steps :| After(s, steps) == t && forall i | 0 <= i < |steps| :: Admits(AnySteps, steps[i]);
      RunKeeps(s, steps);
      if Lost(s) {
        RunKeepsLost(s, steps);
        LostIsPending(t);
      } else if Stuck(s) {
        RunKeepsStuck(s, steps);
      } else {
        RunKeepsUnhashed(s, steps);
      }
    }
  }

  lemma ClosesIffNoDeadEnd(s: State)
    requires Inv(s) && s.journal.op.Some?
    ensures CanClose(s) == !DeadEnd(s)
  {
    if DeadEnd(s) {
      DeadEndNeverCloses(s);
    } else {
      var t := Closes(AnySteps, s);
    }
  }

  /**
   * From every reachable state with an operation, some schedule ends with an
   * outcome recorded and finalized and the guard released if and only if the
   * recorded child is not lost, the directory is not gone under a guard, and no
   * request has ended without the hash of its worker.
   */
  lemma ClosesIffNotLost(s: State)
    requires Reachable(s) && s.journal.op.Some?
    ensures CanClose(s) == (!Lost(s) && !Stuck(s) && !Unhashed(s))
  {
    ReachableInv(s);
    ClosesIffNoDeadEnd(s);
  }

  /** A restart accepted by the service can be carried out exactly when the directory is still there. */
  lemma RestartClosesIffKept(s: State, v: ServiceStep)
    requires Reachable(s) && v.BeginRestart? && SvcEnabled(s, v)
    ensures CanClose(Apply(s, SvcStep(v))) == (v.op !in s.m.gone)
  {
    var t := Apply(s, SvcStep(v));
    ReachableInv(s);
    assert RelaunchShape(s.journal);
    StepKeeps(s, SvcStep(v));
    ClosesIffNoDeadEnd(t);
  }

  // ----- all three happen -----

  /** The exit of the suspended child is enough, for every worker about to resume it. */
  lemma ChildCanBeLost(s: State, p: Proc)
    requires Reachable(s) && p in s.workers && s.workers[p].status == Running && s.workers[p].pc == ResumeRelaunch
    ensures s.journal.relaunched.Some? && Lost(Apply(s, EnvStep(AppExit(s.journal.relaunched.value))))
  {
    ReachableInv(s);
    RunningIsAlone(s, p);
    AboutToResume(s, p);
  }

  lemma AboutToResume(s: State, p: Proc)
    requires Reachable(s) && p in s.workers && s.workers[p].status == Running && s.workers[p].pc == ResumeRelaunch
    ensures s.workers[p].job == s.journal && s.journal.stage == Created && s.journal.relaunched.Some?
    ensures s.journal.relaunched.value in s.m.apps
  {
    ReachableWorker(s, p);
    ResumeFacts(p, s.journal, s.m, s.workers[p]);
  }

  lemma ResumeFacts(p: Proc, j: Journal, m: Machine, w: Worker)
    requires WorkerOk(p, j, m, w) && w.status == Running && w.pc == ResumeRelaunch
    ensures w.job == j && j.stage == Created && j.relaunched.Some? && j.relaunched.value in m.apps
  {
    assert At(m, ResumeRelaunch, w.job) && Backed(m, w.job);
  }

  /** A run to a lost child: an update that completes and loses the process it relaunches. */
  lemma LostArises(start: State, op: OpId, version: Version)
    requires Accepting(start, version)
    ensures exists s :: Reachable(s) && s.journal.op == Some(op) && Lost(s)
  {
    var s, p := RecordsChild(start, op, version);
    InitReachable(start);
    LeadsReachable(AnySteps, start, s);
    ChildCanBeLost(s, p);
    var exit := EnvStep(AppExit(s.journal.relaunched.value));
    LeadsOn(AnySteps, start, s, exit);
    LeadsReachable(AnySteps, start, Apply(s, exit));
  }

  lemma RecordsChild(start: State, op: OpId, version: Version) returns (s: State, p: Proc)
    requires Accepting(start, version)
    ensures Leads(AnySteps, start, s) && s.journal.op == Some(op)
    ensures p in s.workers && s.workers[p].status == Running && s.workers[p].pc == ResumeRelaunch
  {
    var g, l := Dispatches(start, op, version, []);
    var a := Installs(g, l, map[]);
    var b := ThroughPromotion(g, a);
    var c := StatesOutcome(g, b);
    var d := ReleasesGuard(g, c);
    var e, child := CreatesChild(g, d);
    s, p := Placed(g, e), g.p;
  }

  /** A run to a removed directory: prepare, cancel, discard, and a restart request. */
  lemma StuckArises(start: State, op: OpId, version: Version)
    requires Init(start) && start.m.res.policy.enabled && Newer(version, start.m.res.policy.installedVersion)
    ensures exists s :: Reachable(s) && s.journal.op == Some(op) && Stuck(s)
  {
    LeadsHere(AnySteps, start);
    var a := Prepares(start, start, op, version, [], 0, 0);
    var c := CancelsAndDiscards(start, a, op);
    ServiceNext(AnySteps, start, c, BeginRestart(op, 0, 0, 0));
    var d := SvcApply(c, BeginRestart(op, 0, 0, 0));
    InitReachable(start);
    LeadsReachable(AnySteps, start, d);
    assert Stuck(d);
  }

  lemma CancelsAndDiscards(o: State, s: State, op: OpId) returns (t: State)
    requires Leads(AnySteps, o, s) && s.svc == SvcIdle && s.m.guard.None?
    requires s.journal == Fresh(Preparing, Some(op), s.journal.version, 0)
    ensures Leads(AnySteps, o, t) &&
      t == s.(journal := s.journal.(state := Deferred, cancelled := true), m := s.m.(gone := s.m.gone + {op}))
  {
    ServiceNext(AnySteps, o, s, Cancel(op, 0));
    var b := SvcApply(s, Cancel(op, 0));
    ServiceNext(AnySteps, o, b, Discard);
    t := SvcApply(b, Discard);
  }

  /**
   * Whatever ends a request between its own save and that of the hash leaves it
   * without one, except a failing `start`, which takes its request back.
   */
  lemma HashIsMissed(s: State, v: ServiceStep)
    requires Reachable(s) && s.svc.SvcHash? && s.svc.purpose != ForRecovery && !s.journal.hashed
    requires v.Fail? || v.ServiceCrash?
    ensures Unhashed(Apply(s, SvcStep(v))) == (v.ServiceCrash? || s.svc.purpose == ForRestart)
  {
    ReachableInv(s);
    assert ServiceOk(s);
  }

  /** A run to a missing hash without any crash: prepare, and a restart request whose worker is not accepted. */
  lemma UnhashedArises(start: State, op: OpId, version: Version)
    requires Init(start) && start.m.res.policy.enabled && Newer(version, start.m.res.policy.installedVersion)
    ensures exists s :: Reachable(s) && s.journal.op == Some(op) && Unhashed(s)
  {
    LeadsHere(AnySteps, start);
    var a := Prepares(start, start, op, version, [], 0, 0);
    var b := RequestsRestart(AnySteps, start, a, op, 0, 0, 0);
    InitReachable(start);
    LeadsReachable(AnySteps, start, b);
    HashIsMissed(b, Fail);
    LeadsOn(AnySteps, start, b, SvcStep(Fail));
    LeadsReachable(AnySteps, start, Apply(b, SvcStep(Fail)));
    FailKeepsOperation(b);
  }

  lemma FailKeepsOperation(s: State)
    requires Reachable(s) && s.svc.SvcHash?
    ensures Apply(s, SvcStep(Fail)).journal.op == s.journal.op
  {
    ReachableInv(s);
    ServiceRewrites(s, Fail);
  }
}
