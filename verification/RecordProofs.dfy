/** How soundness of a record survives the changes the code makes to it, on an unchanged machine. */
module RecordProofs {
  import opened Common
  import opened Versions
  import opened Journals
  import opened Protocol
  import opened Invariants

  /** The fields that most clauses of `Sound` depend on. */
  predicate SameCore(j: Journal, k: Journal) {
    && k.op == j.op && k.version == j.version && Phase(k) == Phase(j)
    && k.snapshotComplete == j.snapshotComplete && k.restartOnly == j.restartOnly
    && k.setup == j.setup && k.validation == j.validation
    && k.blocked == j.blocked && k.lastBlocked == j.lastBlocked && k.lastHealthy == j.lastHealthy
  }

  lemma SamePhase(m: Machine, j: Journal, k: Journal)
    requires Sound(m, j) && SameCore(j, k)
    requires Shape(m, k) && RelaunchShape(k) && Backed(m, k) && OutcomeKept(k) && SetupHeld(m, k)
    requires k.relaunched == j.relaunched || m.hist.relaunches == {}
    ensures Sound(m, k)
  {
  }

  /** A worker that holds the durable record may write `k` in its place. */
  ghost predicate Successor(m: Machine, j: Journal, k: Journal) {
    Sound(m, k) && Follows(j, k) && Entering(j, m, k)
  }

  lemma Defer(m: Machine, j: Journal, k: Journal)
    requires Sound(m, j) && j.hashed && !j.snapshotComplete && (Phase(j) == WaitingForExit || Phase(j) == Snapshotting)
    requires k == j.(state := Deferred) || (k == j.(skipRelaunch := true, state := Deferred) && !j.restartOnly)
    requires NoSetup(m)
    ensures Successor(m, j, k)
  {
  }

  lemma BeginSnapshot(m: Machine, j: Journal)
    requires Sound(m, j) && j.hashed && j.state == WaitingForExit && !j.restartOnly && NoLiveApps(m)
    ensures Successor(m, j, j.(state := Snapshotting))
  {
  }

  lemma SnapshotDone(m: Machine, j: Journal)
    requires Sound(m, j) && j.state == Snapshotting && !j.snapshotComplete && SnapshotMatches(m, j.op)
    ensures Successor(m, j, j.(snapshotComplete := true))
  {
  }

  lemma SetupRecorded(m: Machine, j: Journal, q: Proc)
    requires Sound(m, j) && j.state == Snapshotting && j.snapshotComplete
    ensures Successor(m, j, j.(setup := Some(q), state := Installing))
  {
  }

  /** The deadline passed with setup still running: no origin is recorded. */
  lemma SetupOverdue(m: Machine, j: Journal)
    requires Sound(m, j) && j.state == Installing
    ensures Successor(m, j, j.(state := RecoveryRequired))
  {
    var k := j.(state := RecoveryRequired);
    OverdueShape(m, j);
    OverdueProcesses(m, j);
    VersionsKept(m, j, k);
    Assemble(m, k);
  }

  lemma OverdueShape(m: Machine, j: Journal)
    requires Shape(m, j) && RelaunchShape(j) && Backed(m, j) && Ahead(m, j) && ContractKept(m, j) && OutcomeKept(j)
    requires j.state == Installing
    ensures var k := j.(state := RecoveryRequired);
      && Shape(m, k) && RelaunchShape(k) && Backed(m, k) && Ahead(m, k) && ContractKept(m, k) && OutcomeKept(k)
      && Phase(k) == RecoveryRequired && Dirty(k)
  {
  }

  lemma OverdueProcesses(m: Machine, j: Journal)
    requires Guarded(m, j) && SetupHeld(m, j) && ValidationHeld(m, j) && SnapshotHeld(m, j) && HistoryKept(m, j)
    requires j.state == Installing && j.recoveryFrom.None?
    ensures var k := j.(state := RecoveryRequired);
      Guarded(m, k) && SetupHeld(m, k) && ValidationHeld(m, k) && SnapshotHeld(m, k) && HistoryKept(m, k)
  {
  }

  /** The bookkeeping of versions does not depend on which of the states before an outcome is recorded. */
  lemma VersionsKept(m: Machine, j: Journal, k: Journal)
    requires BlockedOk(j) && HealthyOk(m, j) && Undecided(Phase(j)) && Undecided(Phase(k))
    requires k.op == j.op && k.version == j.version
    requires k.blocked == j.blocked && k.lastBlocked == j.lastBlocked && k.lastHealthy == j.lastHealthy
    ensures BlockedOk(k) && HealthyOk(m, k)
  {
  }

  predicate Undecided(x: OpState) {
    !Terminal(x) && x != RollingBack && x != RestoringUserData
  }

  lemma Assemble(m: Machine, j: Journal)
    requires Shape(m, j) && RelaunchShape(j) && Backed(m, j) && Ahead(m, j) && ContractKept(m, j) && OutcomeKept(j)
    requires Guarded(m, j) && SetupHeld(m, j) && ValidationHeld(m, j) && SnapshotHeld(m, j)
    requires OutcomeTrue(m, j) && RelaunchKept(m, j) && HistoryKept(m, j) && BlockedOk(j) && HealthyOk(m, j)
    ensures Sound(m, j)
  {
  }

  lemma SetupLate(m: Machine, j: Journal)
    requires Sound(m, j) && j.hashed && j.state == RecoveryRequired && j.recoveryFrom.None? && NoSetup(m)
    ensures Successor(m, j, j.(state := Installing))
  {
  }

  lemma BeginVerify(m: Machine, j: Journal)
    requires Sound(m, j) && j.state == Installing && NoSetup(m)
    ensures Successor(m, j, j.(state := Verifying))
  {
  }

  lemma ValidationRecorded(m: Machine, j: Journal, q: Proc)
    requires Sound(m, j) && NoValidation(m) && (j.state == Verifying || j.state == RestoringUserData)
    ensures Successor(m, j, j.(validation := Some(q)))
  {
  }

  lemma BeginRollback(m: Machine, j: Journal)
    requires Sound(m, j) && j.hashed && Dirty(j) && NoSetup(m)
    ensures Successor(m, j, j.(state := RollingBack))
  {
  }

  /** The version of an operation in flight is later than every version that ever completed. */
  lemma LaterThanHealthy(m: Machine, j: Journal)
    requires HealthyOk(m, j) && j.op.Some? && Phase(j) != Completed
    ensures forall v | v in m.hist.healthy :: Later(j.version, v) && v != j.version
  {
    forall v | v in m.hist.healthy
      ensures Later(j.version, v) && v != j.version
    {
      if j.lastHealthy.value != v {
        LaterTransitive(j.version, j.lastHealthy.value, v);
      }
      LaterIrreflexive(v);
    }
  }

  lemma RestoreRecorded(m: Machine, j: Journal)
    requires Sound(m, j) && j.state == RollingBack && m.res == m.untouched && NoValidation(m)
    ensures Successor(m, j, Block(j).(state := RestoringUserData))
  {
    LaterThanHealthy(m, j);
    BlockedAdds(j);
    var k := Block(j).(state := RestoringUserData);
    assert HealthyOk(m, k) && Shape(m, k) && SnapshotHeld(m, k);
  }

  lemma BlockedAdds(j: Journal)
    requires BlockedOk(j) && j.state == RollingBack && j.op.Some?
    ensures var k := Block(j).(state := RestoringUserData);
      BlockedOk(k) && j.blocked <= k.blocked && forall v | v in k.blocked :: v in j.blocked || v == j.version
  {
  }

  lemma RollbackRecorded(m: Machine, j: Journal)
    requires Sound(m, j) && j.state == RestoringUserData && NoValidation(m)
    requires m.res.(data := m.untouched.data) == m.untouched
    ensures Successor(m, j, j.(state := RolledBack))
  {
  }

  lemma CompletionRecorded(m: Machine, j: Journal)
    requires Sound(m, j) && j.state == Verifying && NoValidation(m)
    requires OutcomeTrue(m, j.(state := Completed))
    ensures Successor(m, j, j.(lastHealthy := Some(j.version), state := Completed))
  {
    LaterThanHealthy(m, j);
    assert HealthyOk(m, j.(lastHealthy := Some(j.version), state := Completed));
  }

  lemma OutcomeStated(m: Machine, j: Journal)
    requires Sound(m, j) && j.hashed && Terminal(j.state) && (j.op.Some? ==> j.op.value !in m.gone)
    ensures Successor(m, j, j.(outcome := Some(j.state), pending := true))
  {
    SamePhase(m, j, j.(outcome := Some(j.state), pending := true));
  }

  lemma FinalizationStated(m: Machine, j: Journal, k: Journal)
    requires Sound(m, j) && Terminal(j.state) && j.outcome.Some?
    requires
      || k == j || (k == j.(pending := false) && j.stage != Created)
      || (k == j.(stage := Dispatched) && j.relaunched.Some?)
    ensures Successor(m, j, k)
  {
    SamePhase(m, j, k);
  }

  lemma ChildRecorded(m: Machine, j: Journal, q: Proc)
    requires Sound(m, j) && Terminal(j.state) && j.relaunched.None? && j.pending && !j.skipRelaunch && q in m.apps
    ensures Successor(m, j, j.(relaunched := Some(q), stage := Created))
  {
  }

  /** `recover` puts a terminal origin back into `state`. */
  lemma OutcomeResumed(m: Machine, j: Journal)
    requires Sound(m, j) && j.hashed && j.state == RecoveryRequired && Terminal(Phase(j)) && NoSetup(m)
    ensures Successor(m, j, j.(state := Phase(j)))
  {
    SamePhase(m, j, j.(state := Phase(j)));
  }
}
