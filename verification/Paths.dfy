/** What one worker can do when nothing goes wrong: finalize, update, restart, roll back. */
module Paths {
  import opened Common
  import opened Versions
  import opened Journals
  import opened Protocol
  import opened Schedules

  // ----- finalization -----

  /** The relaunch can be done, or need not be. */
  predicate Relaunchable(m: Machine, job: Journal) {
    || job.skipRelaunch
    || (job.relaunched.Some? && (job.stage == Created ==> AppAlive(m, job.relaunched)))
    || (job.relaunched.None? && NoLiveApps(m))
  }

  predicate ReadyToFinalize(l: Local) {
    && l.w.status == Running && l.w.pc == FinalizeStart && Terminal(l.w.job.state)
    && (l.m.guard.Some? ==> l.m.guard == l.w.job.op) && Relaunchable(l.m, l.w.job)
  }

  /** Nothing but the guard, the application and the history has changed. */
  predicate SameInstallation(m: Machine, n: Machine) {
    && n.contract == m.contract && n.res == m.res && n.ops == m.ops && n.gone == m.gone && n.setups == m.setups
    && n.hist.restored == m.hist.restored && m.hist.completed <= n.hist.completed
  }

  lemma StatesOutcome(g: Ground, l: Local) returns (n: Local)
    requires Can(g, l) && ReadyToFinalize(l)
    ensures Can(g, n) && n.w ==
      l.w.(pc := ReleaseGuard, job := l.w.job.(outcome := Some(l.w.job.state), pending := true))
    ensures SameButHistory(l.m, n.m)
  {
    n := GoAndSave(g, l, 0);
  }

  lemma ReleasesGuard(g: Ground, l: Local) returns (n: Local)
    requires Can(g, l) && l.w.status == Running && l.w.pc == ReleaseGuard
    requires l.m.guard.Some? ==> l.m.guard == l.w.job.op
    ensures Can(g, n) && n.w == l.w.(pc := Relaunch)
    ensures n.m.guard.None? && n.m.apps == l.m.apps && n.m.hist.relaunches == l.m.hist.relaunches
    ensures SameInstallation(l.m, n.m)
  {
    n := GoAndSave(g, l, 0);
  }

  lemma CreatesChild(g: Ground, l: Local) returns (n: Local, c: Proc)
    requires Can(g, l) && l.w.status == Running && l.w.pc == Relaunch && NoLiveApps(l.m)
    requires l.w.job.relaunched.None? && !l.w.job.skipRelaunch
    ensures Can(g, n) && n.w == l.w.(pc := ResumeRelaunch, job := l.w.job.(relaunched := Some(c), stage := Created))
    ensures n.journal == n.w.job && AppAlive(n.m, Some(c)) && n.m.guard == l.m.guard && SameInstallation(l.m, n.m)
  {
    c := FreshId(l.m.apps.Keys);
    n := GoAndSave(g, l, c);
  }

  lemma ResumesChild(g: Ground, l: Local) returns (n: Local)
    requires Can(g, l) && l.w.status == Running && l.w.pc == ResumeRelaunch && AppAlive(l.m, l.w.job.relaunched)
    ensures Can(g, n) && n.w == l.w.(pc := FinalizeEnd, job := l.w.job.(stage := Dispatched))
    ensures n.m.guard == l.m.guard && SameInstallation(l.m, n.m)
    ensures l.w.job.op.Some? ==> (l.w.job.op.value, l.w.job.relaunched.value) in n.m.hist.relaunches
  {
    n := GoAndSave(g, l, 0);
  }

  lemma DispatchesRecorded(g: Ground, l: Local) returns (n: Local)
    requires Can(g, l) && l.w.status == Running && l.w.pc == Relaunch && !l.w.job.skipRelaunch
    requires l.w.job.relaunched.Some? && (l.w.job.stage == Created ==> AppAlive(l.m, l.w.job.relaunched))
    ensures Can(g, n) && n.w == l.w.(pc := FinalizeEnd, job := l.w.job.(stage := Dispatched))
    ensures n.m.guard == l.m.guard && SameInstallation(l.m, n.m)
  {
    n := GoAndSave(g, l, 0);
  }

  /** Finalized: nothing is pending and the worker has nothing left to do. */
  predicate Done(l: Local, job: Journal) {
    && l.w.status == Running && l.w.pc == Retain && l.journal == l.w.job
    && l.journal.op == job.op && l.journal.state == job.state && l.journal.version == job.version
    && l.journal.restartOnly == job.restartOnly && l.journal.retryAfter == job.retryAfter
    && l.journal.recoveryAttempted == job.recoveryAttempted && l.journal.worker == job.worker
    && l.journal.blocked == job.blocked && l.journal.lastBlocked == job.lastBlocked &&
      l.journal.lastHealthy == job.lastHealthy
    && !l.journal.pending
  }

  lemma EndsFinalization(g: Ground, l: Local) returns (n: Local)
    requires Can(g, l) && l.w.status == Running &&
      (l.w.pc == FinalizeEnd || (l.w.pc == Relaunch && l.w.job.skipRelaunch))
    ensures Can(g, n) && n.w == l.w.(pc := Retain, job := l.w.job.(pending := false)) && n.journal == n.w.job
    ensures n.m.guard == l.m.guard && SameInstallation(l.m, n.m) && n.m.hist.relaunches == l.m.hist.relaunches
  {
    n := GoAndSave(g, l, 0);
  }

  lemma PastRelaunch(g: Ground, l: Local) returns (n: Local)
    requires Can(g, l) && l.w.status == Running && l.w.pc == Relaunch && Relaunchable(l.m, l.w.job)
    ensures Can(g, n) && Done(n, l.w.job) && n.w.op == l.w.op
    ensures n.m.guard == l.m.guard && SameInstallation(l.m, n.m)
    ensures !l.w.job.skipRelaunch && l.w.job.relaunched.None? && l.w.job.op.Some? ==>
      n.journal.relaunched.Some? && (l.w.job.op.value, n.journal.relaunched.value) in n.m.hist.relaunches
  {
    if l.w.job.skipRelaunch {
      n := EndsFinalization(g, l);
    } else if l.w.job.relaunched.Some? {
      var a := DispatchesRecorded(g, l);
      n := EndsFinalization(g, a);
    } else {
      n := RelaunchesChild(g, l);
    }
  }

  lemma RelaunchesChild(g: Ground, l: Local) returns (n: Local)
    requires Can(g, l) && l.w.status == Running && l.w.pc == Relaunch && NoLiveApps(l.m)
    requires l.w.job.relaunched.None? && !l.w.job.skipRelaunch
    ensures Can(g, n) && Done(n, l.w.job) && n.w.op == l.w.op
    ensures n.m.guard == l.m.guard && SameInstallation(l.m, n.m)
    ensures n.journal.relaunched.Some?
    ensures l.w.job.op.Some? ==> (l.w.job.op.value, n.journal.relaunched.value) in n.m.hist.relaunches
  {
    var a, c := CreatesChild(g, l);
    var b := ResumesChild(g, a);
    n := EndsFinalization(g, b);
  }

  /** Outcome, guard, relaunch, done. */
  lemma Finalizes(g: Ground, l: Local) returns (n: Local)
    requires Can(g, l) && ReadyToFinalize(l)
    ensures Can(g, n) && Done(n, l.w.job) && n.w.op == l.w.op && n.m.guard.None? && SameInstallation(l.m, n.m)
    ensures !l.w.job.skipRelaunch && l.w.job.relaunched.None? && l.w.job.op.Some? ==>
      n.journal.relaunched.Some? && (l.w.job.op.value, n.journal.relaunched.value) in n.m.hist.relaunches
  {
    var a := StatesOutcome(g, l);
    var b := ReleasesGuard(g, a);
    n := PastRelaunch(g, b);
  }

  // ----- validation children -----

  lemma StartsValidation(g: Ground, l: Local) returns (n: Local, v: Proc)
    requires Can(g, l) && l.w.status == Running && l.w.pc.LaunchValidation?
    ensures Can(g, n) && n.w == l.w.(pc := AwaitValidation(l.w.pc.restoring), job := l.w.job.(validation := Some(v)))
    ensures v !in l.m.apps && SameButHistory(l.m.(apps := l.m.apps[v := App(Validation, Running)]), n.m)
  {
    v := FreshId(l.m.apps.Keys);
    var a := GoAndSave(g, l, v);
    n := Go(g, a, 0);
    assert n.m.apps == l.m.apps[v := App(Validation, Running)];
  }

  /** The validation child runs and exits. */
  lemma Validates(g: Ground, l: Local) returns (n: Local)
    requires Can(g, l) && l.w.status == Running && l.w.pc.LaunchValidation? && NoLiveApps(l.m)
    ensures Can(g, n) && n.w.job.validation.Some?
    ensures n.w == l.w.(pc := AwaitValidation(l.w.pc.restoring), job := l.w.job.(validation := n.w.job.validation))
    ensures n.w.job.validation.value in n.m.apps && NoLiveApps(n.m)
    ensures SameInstallation(l.m, n.m) && n.m.guard == l.m.guard
  {
    var a, v := StartsValidation(g, l);
    n := Outside(g, a, AppExit(v));
  }

  // ----- the update -----

  /** An update on its way, with everything the rest of the run relies on. */
  ghost predicate Standing(l: Local, at: Pc, state: OpState) {
    && l.w.status == Running && l.w.pc == at && l.w.job.state == state
    && l.w.job.op.Some? && l.w.job.op.value in l.m.ops && l.w.job.op == Some(l.w.op)
    && NoLiveApps(l.m) && l.m.res.policy.enabled && l.m.guard == l.w.job.op
    && !l.w.job.restartOnly && !l.w.job.skipRelaunch && l.w.job.relaunched.None?
  }

  predicate SameOperation(l: Local, n: Local) {
    n.w.job.version == l.w.job.version && n.w.op == l.w.op
  }

  lemma ToSnapshot(g: Ground, l: Local) returns (n: Local)
    requires Can(g, l) && Standing(l, AwaitExit, WaitingForExit)
    ensures Can(g, n) && Standing(n, TakeSnapshot, Snapshotting) && SameOperation(l, n)
  {
    n := GoAndSave(g, l, 0);
  }

  lemma ThroughSnapshot(g: Ground, l: Local) returns (n: Local)
    requires Can(g, l) && Standing(l, TakeSnapshot, Snapshotting)
    ensures Can(g, n) && Standing(n, LaunchSetup, Snapshotting) && SameOperation(l, n)
  {
    n := GoAndSave(g, l, 0);
  }

  lemma StartsSetup(g: Ground, l: Local) returns (n: Local, c: Proc)
    requires Can(g, l) && Standing(l, LaunchSetup, Snapshotting)
    ensures Can(g, n) && Standing(n, AwaitSetup, Installing) && SameOperation(l, n)
    ensures n.w.job.setup == Some(c) && c in n.m.setups && n.m.setups[c] == Running
  {
    c := FreshId(l.m.setups.Keys);
    var d := GoAndSave(g, l, c);
    n := Go(g, d, 0);
  }

  /** The setup program writes the new bundle and exits. */
  lemma SetupWrites(g: Ground, l: Local, c: Proc, bundle: Tree) returns (n: Local)
    requires Can(g, l) && Standing(l, AwaitSetup, Installing) && l.w.job.setup == Some(c)
    requires c in l.m.setups && l.m.setups[c] == Running
    ensures Can(g, n) && Standing(n, AwaitSetup, Installing) && n.w == l.w
    ensures n.m.res.bundle == bundle && c in n.m.setups && n.m.setups[c] == Dead
  {
    var a := Outside(g, l, SetupWrite(c, bundle, l.m.res.data, l.m.res.baseline));
    n := Outside(g, a, SetupExit(c));
  }

  lemma ChecksExit(g: Ground, l: Local, c: Proc) returns (n: Local)
    requires Can(g, l) && Standing(l, AwaitSetup, Installing) && l.w.job.setup == Some(c)
    requires c in l.m.setups && l.m.setups[c] == Dead
    ensures Can(g, n) && Standing(n, CheckExit, Installing) && SameOperation(l, n) && n.m.res.bundle == l.m.res.bundle
  {
    n := GoAndSave(g, l, 0);
  }

  lemma BeginsVerifying(g: Ground, l: Local) returns (n: Local)
    requires Can(g, l) && Standing(l, CheckExit, Installing)
    ensures Can(g, n) && Standing(n, LaunchValidation(false), Verifying) && SameOperation(l, n)
    ensures n.m.res.bundle == l.m.res.bundle
  {
    n := GoAndSave(g, l, 0);
  }

  lemma ThroughValidation(g: Ground, l: Local) returns (n: Local)
    requires Can(g, l) && Standing(l, LaunchValidation(false), Verifying)
    ensures Can(g, n) && Standing(n, PromoteBaseline, Verifying) && SameOperation(l, n)
    ensures n.m.res.bundle == l.m.res.bundle
  {
    var a := Validates(g, l);
    n := Go(g, a, 0);
  }

  lemma Completes(g: Ground, l: Local) returns (n: Local)
    requires Can(g, l) && Standing(l, PromotePolicy, Verifying)
    ensures Can(g, n) && Standing(n, FinalizeStart, Completed) && SameOperation(l, n)
    ensures n.m.res.bundle == l.m.res.bundle && n.m.res.policy.installedVersion == l.w.job.version
    ensures l.w.op in n.m.hist.completed
  {
    n := GoAndSave(g, l, 0);
  }

  lemma ThroughPromotion(g: Ground, l: Local) returns (n: Local)
    requires Can(g, l) && Standing(l, PromoteBaseline, Verifying)
    ensures Can(g, n) && Standing(n, FinalizeStart, Completed) && SameOperation(l, n)
    ensures n.m.res.bundle == l.m.res.bundle && n.m.res.policy.installedVersion == l.w.job.version
    ensures l.w.op in n.m.hist.completed
  {
    var a := Go(g, l, 0);
    n := Completes(g, a);
  }

  /** From the end of the wait to the verification of the new release. */
  lemma Installs(g: Ground, l: Local, bundle: Tree) returns (n: Local)
    requires Can(g, l) && Standing(l, AwaitExit, WaitingForExit)
    ensures Can(g, n) && Standing(n, PromoteBaseline, Verifying) && SameOperation(l, n) && n.m.res.bundle == bundle
  {
    var a := ToSnapshot(g, l);
    var b := ThroughSnapshot(g, a);
    var d, c := StartsSetup(g, b);
    var e := SetupWrites(g, d, c, bundle);
    var f := ChecksExit(g, e, c);
    var h := BeginsVerifying(g, f);
    n := ThroughValidation(g, h);
  }

  /** From there to a finalized completion. */
  lemma CompletesAndFinalizes(g: Ground, l: Local) returns (n: Local)
    requires Can(g, l) && Standing(l, PromoteBaseline, Verifying)
    ensures Can(g, n) && Done(n, n.journal) && n.w.op == l.w.op && n.journal.op == Some(l.w.op)
    ensures n.journal.state == Completed && n.journal.version == l.w.job.version && n.m.guard.None?
    ensures n.m.res.bundle == l.m.res.bundle && n.m.res.policy.installedVersion == l.w.job.version
    ensures n.journal.relaunched.Some? && (l.w.op, n.journal.relaunched.value) in n.m.hist.relaunches
    ensures l.w.op in n.m.hist.completed
  {
    var a := ThroughPromotion(g, l);
    n := Finalizes(g, a);
  }

  // ----- restarts -----

  /** A restart-only worker defers as soon as no application runs, and finalizes. */
  lemma Restarts(g: Ground, l: Local) returns (n: Local)
    requires Can(g, l) && l.w.status == Running && l.w.pc == AwaitExit && l.w.job.restartOnly && NoLiveApps(l.m)
    requires (l.m.guard.Some? ==> l.m.guard == l.w.job.op) && l.w.job.stage != Created
    ensures Can(g, n) && Done(n, l.w.job.(state := Deferred)) && n.m.guard.None? && SameInstallation(l.m, n.m)
  {
    var a := GoAndSave(g, l, 0);
    n := Finalizes(g, a);
  }

  // ----- rollback -----

  ghost predicate Restoring(l: Local, at: Pc) {
    && l.w.status == Running && l.w.pc == at && HasSnapshot(l.m, l.w.job.op) && NoLiveApps(l.m)
    && l.w.job.stage != Created && (l.m.guard.Some? ==> l.m.guard == l.w.job.op)
  }

  predicate SameRecord(l: Local, n: Local) {
    n.w.job.op == l.w.job.op && n.w.op == l.w.op
  }

  lemma BeginsRollback(g: Ground, l: Local) returns (n: Local)
    requires Can(g, l) && Restoring(l, RollbackStart) && l.w.job.snapshotComplete
    ensures Can(g, n) && Restoring(n, RestoreBundle) && SameRecord(l, n) && l.m.hist.completed <= n.m.hist.completed
  {
    var a := GoAndSave(g, l, 0);
    n := Go(g, a, 0);
  }

  lemma RestoresBundle(g: Ground, l: Local) returns (n: Local)
    requires Can(g, l) && Restoring(l, RestoreBundle)
    ensures Can(g, n) && Restoring(n, RestoreData) && SameRecord(l, n)
    ensures n.w.job.op.value in n.m.hist.restored && n.m.hist.completed == l.m.hist.completed
  {
    n := Go(g, l, 0);
  }

  lemma RestoresData(g: Ground, l: Local) returns (n: Local)
    requires Can(g, l) && Restoring(l, RestoreData)
    ensures Can(g, n) && Restoring(n, RestoreBaseline) && SameRecord(l, n)
  {
    n := Go(g, l, 0);
  }

  lemma RestoresBaseline(g: Ground, l: Local) returns (n: Local)
    requires Can(g, l) && Restoring(l, RestoreBaseline)
    ensures Can(g, n) && Restoring(n, RestorePolicy) && SameRecord(l, n)
  {
    n := Go(g, l, 0);
  }

  lemma RestoresPolicy(g: Ground, l: Local) returns (n: Local)
    requires Can(g, l) && Restoring(l, RestorePolicy)
    ensures Can(g, n) && Restoring(n, LaunchValidation(true)) && SameRecord(l, n)
  {
    n := GoAndSave(g, l, 0);
  }

  lemma RestoresUser(g: Ground, l: Local) returns (n: Local)
    requires Can(g, l) && Restoring(l, LaunchValidation(true))
    ensures Can(g, n) && ReadyToFinalize(n) && SameRecord(l, n)
  {
    var a := Validates(g, l);
    n := GoAndSave(g, a, 0);
  }

  /** The whole rollback, finalized. */
  lemma RollsBack(g: Ground, l: Local) returns (n: Local)
    requires Can(g, l) && Restoring(l, RollbackStart) && l.w.job.snapshotComplete
    ensures Can(g, n) && Done(n, n.journal) && n.journal.op == l.w.job.op && Terminal(n.journal.state) &&
      n.m.guard.None?
  {
    var a := BeginsRollback(g, l);
    var b := RestoresBundle(g, a);
    var c := RestoresData(g, b);
    var d := RestoresBaseline(g, c);
    var e := RestoresPolicy(g, d);
    var f := RestoresUser(g, e);
    n := Finalizes(g, f);
  }

  // ----- recovery -----

  /** A recovery worker that has just been resumed. */
  predicate Recovering(l: Local) {
    && l.w.status == Running && l.w.pc == Begin(true) && l.journal.op == Some(l.w.op)
    && l.journal.state == RecoveryRequired && SetupGone(l.m, l.journal.setup)
    && (l.m.guard.Some? ==> l.m.guard == l.journal.op)
  }

  lemma ToDecision(g: Ground, l: Local) returns (n: Local)
    requires Can(g, l) && Recovering(l)
    ensures Can(g, n) && n.journal == l.journal && n.m == l.m && n.w == l.w.(pc := RecoverDecide, job := l.journal)
  {
    var a := Go(g, l, 0);
    n := Go(g, a, 0);
  }

  /** An outcome is finished, or the operation deferred. */
  lemma FinishesOrDefers(g: Ground, l: Local) returns (n: Local)
    requires Can(g, l) && l.w.status == Running && l.w.pc == RecoverDecide
    requires Terminal(Phase(l.w.job)) ||
      (NoLiveApps(l.m) && Resumable(l.w.job) && (l.w.job.restartOnly || !l.w.job.snapshotComplete))
    requires Relaunchable(l.m, l.w.job) && (l.m.guard.Some? ==> l.m.guard == l.w.job.op)
    ensures Can(g, n) && Done(n, n.journal) && n.journal.op == l.w.job.op && Terminal(n.journal.state) &&
      n.m.guard.None?
  {
    var a := GoAndSave(g, l, 0);
    n := Finalizes(g, a);
  }

  lemma ToRollback(g: Ground, l: Local) returns (n: Local)
    requires Can(g, l) && l.w.status == Running && l.w.pc == RecoverDecide
    requires !Terminal(Phase(l.w.job)) && NoLiveApps(l.m) && !l.w.job.restartOnly && l.w.job.snapshotComplete
    ensures Can(g, n) && n == l.(w := Goto(l.w, RollbackStart))
  {
    n := Go(g, l, 0);
  }

  /** What `recover` makes of any record it has a branch for. */
  lemma Recovers(g: Ground, l: Local) returns (n: Local)
    requires Can(g, l) && Recovering(l)
    requires Terminal(Phase(l.journal)) || (NoLiveApps(l.m) && Resumable(l.journal))
    requires Relaunchable(l.m, l.journal)
    requires !Terminal(Phase(l.journal)) && l.journal.snapshotComplete && !l.journal.restartOnly ==>
      HasSnapshot(l.m, l.journal.op) && l.journal.stage != Created
    ensures Can(g, n) && Done(n, n.journal) && n.journal.op == l.journal.op && Terminal(n.journal.state) &&
      n.m.guard.None?
  {
    var a := ToDecision(g, l);
    if !Terminal(Phase(l.journal)) && !l.journal.restartOnly && l.journal.snapshotComplete {
      var b := ToRollback(g, a);
      n := RollsBack(g, b);
    } else {
      n := FinishesOrDefers(g, a);
    }
  }
}
