/**
 * The service reads the journal and then asks whether the recorded worker is
 * alive (windows/updater/service_main.cpp:163-164). `Mark` takes the two as one
 * step. Here they are separated: the record is read while the worker runs, the
 * worker goes on and dies, and the service acts on what it read.
 */
module StaleReads {
  import opened Common
  import opened Versions
  import opened Journals
  import opened Protocol
  import opened Invariants
  import opened RecordProofs
  import opened MachineProofs
  import opened ServiceProofs
  import opened Runs
  import opened Theorems
  import opened Schedules
  import opened Paths
  import opened Requests
  import opened Possibility
  import opened LostChild
  import opened Recoverability

  /** The reconcile loop acting on a record it read earlier. */
  function MarkFrom(s: State, seen: Journal): State {
    s.(journal := Marked(seen))
  }

  /**
   * The journal was read in `s0`, where worker `p` was running; since then
   * everybody but the service has moved, and the worker is dead.
   */
  ghost predicate SplitRead(s0: State, steps: seq<Step>, p: Proc) {
    && Reachable(s0) && p in s0.workers && s0.workers[p].status == Running
    && (forall i | 0 <= i < |steps| :: !steps[i].SvcStep?)
    && var s := After(s0, steps);
       p in s.workers && s.workers[p].status == Dead && CanMark(s.(journal := s0.journal))
  }

  // ----- what cannot have happened since the read -----

  /** Only `p` can be running, and no request is in progress. */
  ghost predicate Alone(s: State, p: Proc) {
    s.svc == SvcIdle && forall q | q in s.workers && q != p :: s.workers[q].status != Running
  }

  /** The service alone records restarts. */
  predicate SameRestart(j: Journal, k: Journal) {
    k.restartOnly == j.restartOnly && k.recoveryAttempted == j.recoveryAttempted && k.retryAfter == j.retryAfter
  }

  lemma WorkerKeepsRestart(p: Proc, l: Local, step: WorkerStep)
    requires WorkerOk(p, l.journal, l.m, l.w) && WorkerEnabled(l, step)
    ensures SameRestart(l.journal, WorkerApply(l, step).journal)
  {
    if step.Proceed? {
      ProceedAdvances(l, step.child);
    }
  }

  lemma StepKeepsAlone(s: State, step: Step, p: Proc)
    requires Inv(s) && Alone(s, p) && !step.SvcStep?
    ensures Alone(Apply(s, step), p) && Apply(s, step).m.gone == s.m.gone && Apply(s, step).journal.op == s.journal.op
    ensures SameRestart(s.journal, Apply(s, step).journal)
  {
    if Enabled(s, step) {
      match step
      case WrkStep(q, w) =>
        WorkerKeepsOperation(s, q, w);
        WorkerKeepsAlone(s, q, w, p);
        WorkerKeepsRestart(q, Local(s.journal, s.m, s.workers[q]), w);
      case EnvStep(e) => EnvKeepsAlone(s, e, p);
    }
  }

  lemma EnvKeepsAlone(s: State, e: EnvironmentStep, p: Proc)
    requires Alone(s, p) && EnvEnabled(s.m, e)
    ensures Alone(s.(m := EnvApply(s.m, e)), p) && EnvApply(s.m, e).gone == s.m.gone
  {
  }

  lemma WorkerKeepsAlone(s: State, q: Proc, step: WorkerStep, p: Proc)
    requires Alone(s, p) && Enabled(s, WrkStep(q, step))
    ensures Alone(Apply(s, WrkStep(q, step)), p) && Apply(s, WrkStep(q, step)).m.gone == s.m.gone
  {
    var l := Local(s.journal, s.m, s.workers[q]);
    WorkerStartsNobody(l, step);
    AloneAfter(s, p, q, WorkerApply(l, step));
  }

  lemma AloneAfter(s: State, p: Proc, q: Proc, n: Local)
    requires Alone(s, p) && q in s.workers && (n.w.status == Running ==> s.workers[q].status == Running)
    ensures Alone(s.(journal := n.journal, m := n.m, workers := s.workers[q := n.w]), p)
  {
  }

  lemma WorkerStartsNobody(l: Local, step: WorkerStep)
    requires WorkerEnabled(l, step)
    ensures var n := WorkerApply(l, step); n.m.gone == l.m.gone && (n.w.status == Running ==> l.w.status == Running)
  {
    if step.Proceed? {
      ProceedAdvances(l, step.child);
    }
  }

  lemma {:induction false} RunKeepsAlone(s: State, steps: seq<Step>, p: Proc)
    requires Inv(s) && Alone(s, p) && forall i | 0 <= i < |steps| :: !steps[i].SvcStep?
    ensures var t := After(s, steps);
      && Alone(t, p) && t.m.gone == s.m.gone && t.journal.op == s.journal.op
      && SameRestart(s.journal, t.journal)
    decreases |steps|
  {
    if steps != [] {
      StepKeeps(s, steps[0]);
      StepKeepsAlone(s, steps[0], p);
      RunKeepsAlone(Apply(s, steps[0]), steps[1..], p);
    }
  }

  /** How a record of the same operation relates to one read earlier. */
  ghost predicate Succeeds(seen: Journal, k: Journal) {
    && k.op == seen.op && seen.blocked <= k.blocked && RecordAdvances(seen, k) && SameRestart(seen, k)
  }

  /** The record that was read fitted its machine then, and the current one fits it now. */
  ghost predicate ReadEarlier(m0: Machine, seen: Journal, k: Journal, m: Machine) {
    && Sound(m0, seen) && Succeeds(seen, k) && m0.contract == m.contract
    && seen.op.Some? && seen.op.value !in m.gone && seen.hashed
  }

  lemma SplitReadFacts(s0: State, steps: seq<Step>, p: Proc)
    requires SplitRead(s0, steps, p)
    ensures var s := After(s0, steps);
      && Inv(s) && s.svc == SvcIdle && NoWorkers(s.workers) && s0.journal.worker == Some(p)
      && ReadEarlier(s0.m, s0.journal, s.journal, s.m) && MachineOk(s.m)
      && Sound(s.m, s.journal) && Settled(s.m, s.journal)
  {
    ReachableInv(s0);
    RunningIsAlone(s0, p);
    ReachableWorker(s0, p);
    RunKeepsAlone(s0, steps, p);
    RunKeeps(s0, steps);
    RunAdvances(s0, steps);
    ReachableRecord(s0);
    ReachableAfter(s0, steps);
    ReachableRecord(After(s0, steps));
  }

  // ----- when acting on it is safe -----

  /** The service sees the record, the guard and the directories, not the files or the history. */
  predicate Indistinguishable(s: State, t: State) {
    && t.journal == s.journal && t.svc == s.svc && t.workers == s.workers
    && t.m.contract == s.m.contract && t.m.guard == s.m.guard && t.m.gone == s.m.gone
  }

  /** Marking from `seen` keeps the invariant and takes nothing back. */
  ghost predicate Forward(t: State, seen: Journal) {
    Inv(MarkFrom(t, seen)) && Advances(t, MarkFrom(t, seen))
  }

  /** Whatever the machine is like behind what the service sees. */
  ghost predicate SafeToAct(s: State, seen: Journal) {
    forall t | Inv(t) && Indistinguishable(s, t) :: Forward(t, seen) == true
  }

  predicate RestoringPhase(x: OpState) {
    x == RollingBack || x == RestoringUserData || x == RolledBack
  }

  /**
   * A comparison of the record that was read with the record read again, and a
   * look at the guard.
   */
  predicate UpToDate(seen: Journal, k: Journal, guarded: bool) {
    var x, y := seen.state, Phase(k);
    && (Interruptible(x) || (seen.restartOnly && seen.outcome.None?) ==> guarded)
    && Dirty(seen) == Dirty(k)
    && (y == Completed ==> x == Completed)
    && (RestoringPhase(y) ==> RestoringPhase(x))
    && (x == Snapshotting ==> Dirty(k) || y == Snapshotting)
    && (SetupMayRun(k) && k.setup.Some? ==> x == Installing && seen.setup == k.setup)
    && (ValidationMayRun(y) && k.validation.Some? ==> ValidationMayRun(x) && seen.validation == k.validation)
    && seen.relaunched == k.relaunched && seen.stage == k.stage && seen.skipRelaunch == k.skipRelaunch
    && seen.outcome == k.outcome && seen.blocked == k.blocked && seen.lastBlocked == k.lastBlocked
  }

  lemma ActsOnShape(m0: Machine, seen: Journal, k: Journal, m: Machine)
    requires ReadEarlier(m0, seen, k, m) && Shape(m, k) && (Interruptible(seen.state) || Terminal(seen.state))
    ensures var j := Marked(seen);
      && Shape(m, j) && RelaunchShape(j) && OutcomeKept(j) && ContractKept(m, j) && BlockedOk(j)
      && Phase(j) == seen.state && Phase(seen) == seen.state && Dirty(j) == Dirty(seen)
  {
    assert Shape(m0, seen) && RelaunchShape(seen) && OutcomeKept(seen) && ContractKept(m0, seen) && BlockedOk(seen);
  }

  lemma ActsOnProcesses(seen: Journal, k: Journal, m: Machine)
    requires UpToDate(seen, k, m.guard.Some?) && k.op == seen.op && (Interruptible(seen.state) || Terminal(seen.state))
    requires Guarded(m, k) && SetupHeld(m, k) && ValidationHeld(m, k) && RelaunchKept(m, k) && SnapshotHeld(m, k)
    ensures var j := Marked(seen);
      Guarded(m, j) && SetupHeld(m, j) && ValidationHeld(m, j) && RelaunchKept(m, j) && SnapshotHeld(m, j)
  {
  }

  lemma ActsOnHistory(m0: Machine, seen: Journal, k: Journal, m: Machine)
    requires ReadEarlier(m0, seen, k, m) && UpToDate(seen, k, m.guard.Some?)
    requires Interruptible(seen.state) || Terminal(seen.state)
    requires Sound(m, k) && Settled(m, k)
    ensures var j := Marked(seen);
      HistoryKept(m, j) && HealthyOk(m, j) && OutcomeTrue(m, j) && Ahead(m, j) && Settled(m, j)
  {
    assert HistoryKept(m, k) && HealthyOk(m, k) && OutcomeTrue(m, k) && Ahead(m, k) && Shape(m, k);
    assert HealthyOk(m0, seen) && Shape(m0, seen);
  }

  lemma ActsOnBacking(m0: Machine, seen: Journal, k: Journal, m: Machine)
    requires ReadEarlier(m0, seen, k, m) && UpToDate(seen, k, m.guard.Some?)
    requires Interruptible(seen.state) || Terminal(seen.state)
    requires Sound(m, k)
    ensures Backed(m, Marked(seen))
  {
    assert Shape(m0, seen) && Shape(m, k) && Backed(m, k) && SnapshotHeld(m, k);
  }

  /** What `Advances` asks of a record that takes the place of `k`. */
  ghost predicate TakesNothingBack(k: Journal, j: Journal) {
    k.blocked <= j.blocked && HealthyGrows(k.lastHealthy, j.lastHealthy) && RecordAdvances(k, j)
  }

  lemma ActsForward(m0: Machine, seen: Journal, k: Journal, m: Machine)
    requires ReadEarlier(m0, seen, k, m) && UpToDate(seen, k, m.guard.Some?) && Sound(m, k)
    requires Interruptible(seen.state) || Terminal(seen.state)
    ensures TakesNothingBack(k, Marked(seen))
  {
    assert HealthyOk(m0, seen) && HealthyOk(m, k);
  }

  lemma ActsSafely(m0: Machine, seen: Journal, t: State)
    requires ReadEarlier(m0, seen, t.journal, t.m) && UpToDate(seen, t.journal, t.m.guard.Some?)
    requires Interruptible(seen.state) || Terminal(seen.state)
    requires Inv(t) && t.svc == SvcIdle && NoWorkers(t.workers)
    ensures Forward(t, seen) == true
  {
    var m, k, j := t.m, t.journal, Marked(seen);
    ActsOnShape(m0, seen, k, m);
    ActsOnProcesses(seen, k, m);
    ActsOnHistory(m0, seen, k, m);
    ActsOnBacking(m0, seen, k, m);
    Assemble(m, j);
    Quiesced(MarkFrom(t, seen));
    ActsForward(m0, seen, k, m);
  }

  // ----- when it is not -----

  /** A machine the service cannot tell from the real one, with no worker running. */
  ghost predicate Variation(s: State, m: Machine) {
    && s.svc == SvcIdle && NoWorkers(s.workers)
    && MachineOk(m) && Sound(m, s.journal) && Settled(m, s.journal)
    && m.contract == s.m.contract && m.guard == s.m.guard && m.gone == s.m.gone
  }

  lemma Unsafe(s: State, seen: Journal, m: Machine)
    requires Variation(s, m) && !(Sound(m, Marked(seen)) && Settled(m, Marked(seen)))
    ensures !SafeToAct(s, seen)
  {
    var t := s.(m := m);
    Quiesced(t);
    assert Inv(t) && Indistinguishable(s, t);
    assert !Inv(MarkFrom(t, seen));
  }

  lemma UnsafeBackwards(s: State, seen: Journal)
    requires Variation(s, s.m) && seen.op == s.journal.op && !TakesNothingBack(s.journal, Marked(seen))
    ensures !SafeToAct(s, seen)
  {
    Quiesced(s);
    assert Inv(s) && Indistinguishable(s, s);
    assert !Advances(s, MarkFrom(s, seen));
  }

  /** What the worker recorded since would be lost. */
  lemma ForgetsWhatIsNew(m0: Machine, seen: Journal, k: Journal, m: Machine)
    requires ReadEarlier(m0, seen, k, m) && RelaunchShape(k)
    requires
      || seen.relaunched != k.relaunched || seen.stage != k.stage || seen.skipRelaunch != k.skipRelaunch
      || seen.outcome != k.outcome || seen.blocked != k.blocked || seen.lastBlocked != k.lastBlocked
    ensures !TakesNothingBack(k, Marked(seen))
  {
    assert RelaunchShape(seen);
    if k.blocked <= seen.blocked {
      assert seen.blocked == k.blocked;
    }
  }

  /** Without the guard, or with a completion that `seen` does not know. */
  lemma UnsafeAsItIs(s: State, seen: Journal)
    requires Variation(s, s.m) && seen.op == s.journal.op && (Interruptible(seen.state) || Terminal(seen.state))
    requires
      || ((Interruptible(seen.state) || (seen.restartOnly && seen.outcome.None?)) && s.m.guard.None?)
      || (Phase(s.journal) == Completed && seen.state != Completed && seen.op.Some?)
    ensures !SafeToAct(s, seen)
  {
    var j := Marked(seen);
    assert Phase(j) == seen.state;
    assert !Guarded(s.m, j) || !Backed(s.m, j) || !HistoryKept(s.m, j);
    Unsafe(s, seen, s.m);
  }

  /** The installation was changed and `seen` is from before. */
  lemma UnsafeWhenWritten(s: State, seen: Journal)
    requires Variation(s, s.m) && Dirty(s.journal) && !Dirty(seen) &&
      (Interruptible(seen.state) || Terminal(seen.state))
    ensures !SafeToAct(s, seen)
  {
    var bundle := Other(s.m.untouched.bundle);
    var res := s.m.res.(bundle := bundle);
    DirtyResources(s.m, s.journal, res);
    assert !Settled(s.m.(res := res), Marked(seen));
    Unsafe(s, seen, s.m.(res := res));
  }

  /** Some other tree. */
  function Other(tree: Tree): (r: Tree)
    ensures r != tree
  {
    var one: Tree := map["" := []];
    assert "" in one;
    if tree == map[] then one else map[]
  }

  lemma DataVaries(m: Machine, j: Journal, data: Tree)
    requires MachineOk(m) && Sound(m, j) && Settled(m, j) && Phase(j) == RolledBack
    ensures var n := m.(res := m.res.(data := data), untouched := m.untouched.(data := data));
      MachineOk(n) && Sound(n, j) && Settled(n, j)
  {
  }

  /** The user's data may have moved on since the rollback. */
  lemma UnsafeAfterRollback(s: State, seen: Journal)
    requires Variation(s, s.m) && Phase(s.journal) == RolledBack && Dirty(seen) && seen.op == s.journal.op
    requires Interruptible(seen.state) || Terminal(seen.state)
    ensures !SafeToAct(s, seen)
  {
    assert Shape(s.m, s.journal) && Backed(s.m, s.journal);
    var data := Other(SnapshotOf(s.m, s.journal.op).data);
    var n := s.m.(res := s.m.res.(data := data), untouched := s.m.untouched.(data := data));
    DataVaries(s.m, s.journal, data);
    assert Dirty(Marked(seen)) && !SnapshotMatches(n, seen.op);
    assert !SnapshotHeld(n, Marked(seen));
    Unsafe(s, seen, n);
  }

  lemma SnapshotVaries(m: Machine, j: Journal, op: OpId)
    requires MachineOk(m) && Sound(m, j) && Settled(m, j) && j.op == Some(op) && op in m.ops
    requires !j.snapshotComplete && !Dirty(j) && Phase(j) != Completed
    ensures var n := m.(ops := m.ops[op := m.ops[op].(snapshot := None)]); MachineOk(n) && Sound(n, j) && Settled(n, j)
  {
  }

  /** There may be no snapshot. */
  lemma UnsafeWithoutSnapshot(s: State, seen: Journal)
    requires Variation(s, s.m) && Dirty(seen) && !Dirty(s.journal) && seen.op == s.journal.op && seen.op.Some?
    requires Phase(s.journal) != Completed && Phase(s.journal) != RolledBack
    requires Interruptible(seen.state) || Terminal(seen.state)
    ensures !SafeToAct(s, seen)
  {
    assert Shape(s.m, s.journal);
    var op := seen.op.value;
    var n := s.m.(ops := s.m.ops[op := s.m.ops[op].(snapshot := None)]);
    SnapshotVaries(s.m, s.journal, op);
    assert Dirty(Marked(seen)) && !HasSnapshot(n, seen.op);
    assert !SnapshotHeld(n, Marked(seen));
    Unsafe(s, seen, n);
  }

  lemma RestoredVaries(m: Machine, j: Journal)
    requires MachineOk(m) && Sound(m, j) && Settled(m, j) && RestoringPhase(Phase(j)) && j.op.Some?
    ensures var n := WithRestored(m, j.op); MachineOk(n) && Sound(n, j) && Settled(n, j)
  {
    assert HistoryKept(m, j) && Shape(m, j) && ContractKept(m, j);
  }

  /** Files may have been restored already. */
  lemma UnsafeWhenRestoring(s: State, seen: Journal)
    requires Variation(s, s.m) && RestoringPhase(Phase(s.journal)) && !RestoringPhase(seen.state)
    requires seen.op == s.journal.op && seen.op.Some? && (Interruptible(seen.state) || Terminal(seen.state))
    ensures !SafeToAct(s, seen)
  {
    var n := WithRestored(s.m, s.journal.op);
    RestoredVaries(s.m, s.journal);
    assert !HistoryKept(n, Marked(seen));
    Unsafe(s, seen, n);
  }

  /** The application may be running. */
  lemma UnsafeWithAgent(s: State, seen: Journal)
    requires Variation(s, s.m) && seen.state == Snapshotting && !Dirty(s.journal) && Phase(s.journal) != Snapshotting
    ensures !SafeToAct(s, seen)
  {
    var q := FreshId(s.m.apps.Keys);
    var n := s.m.(apps := s.m.apps[q := App(Agent, Running)]);
    assert ValidationHeld(s.m, s.journal);
    AppTable(s.m, s.journal, n.apps);
    assert n.apps[q] == App(Agent, Running) && !NoAgents(n);
    assert !SnapshotHeld(n, Marked(seen));
    Unsafe(s, seen, n);
  }

  /** The setup program may be running. */
  lemma UnsafeWithSetup(s: State, seen: Journal)
    requires Variation(s, s.m) && SetupMayRun(s.journal) && s.journal.setup.Some?
    requires seen.state != Installing || seen.setup != s.journal.setup
    requires Interruptible(seen.state) || Terminal(seen.state)
    ensures !SafeToAct(s, seen)
  {
    var q := s.journal.setup.value;
    var n := s.m.(setups := s.m.setups[q := Running]);
    assert SetupHeld(s.m, s.journal);
    SetupTable(s.m, s.journal, n.setups);
    assert n.setups[q] == Running && !SetupHeld(n, Marked(seen));
    Unsafe(s, seen, n);
  }

  /** The validation child may be running. */
  lemma UnsafeWithValidation(s: State, seen: Journal)
    requires Variation(s, s.m) && ValidationMayRun(Phase(s.journal)) && s.journal.validation.Some?
    requires !ValidationMayRun(seen.state) || seen.validation != s.journal.validation
    requires Interruptible(seen.state) || Terminal(seen.state)
    ensures !SafeToAct(s, seen)
  {
    var q := s.journal.validation.value;
    var n := s.m.(apps := s.m.apps[q := App(Validation, Running)]);
    assert ValidationHeld(s.m, s.journal) && SnapshotHeld(s.m, s.journal);
    AppTable(s.m, s.journal, n.apps);
    assert n.apps[q] == App(Validation, Running) && !ValidationHeld(n, Marked(seen));
    Unsafe(s, seen, n);
  }

  lemma UnsafeWhenStale(m0: Machine, s: State, seen: Journal)
    requires Variation(s, s.m) && ReadEarlier(m0, seen, s.journal, s.m)
    requires !UpToDate(seen, s.journal, s.m.guard.Some?) && (Interruptible(seen.state) || Terminal(seen.state))
    ensures !SafeToAct(s, seen)
  {
    var x, k := seen.state, s.journal;
    var y := Phase(k);
    if ((Interruptible(x) || (seen.restartOnly && seen.outcome.None?)) && s.m.guard.None?) ||
      (y == Completed && x != Completed) {
      UnsafeAsItIs(s, seen);
    } else if Dirty(k) && !Dirty(seen) {
      UnsafeWhenWritten(s, seen);
    } else if Dirty(seen) && !Dirty(k) && y == RolledBack {
      UnsafeAfterRollback(s, seen);
    } else if Dirty(seen) && !Dirty(k) {
      assert y != Completed;
      UnsafeWithoutSnapshot(s, seen);
    } else if RestoringPhase(y) && !RestoringPhase(x) {
      UnsafeWhenRestoring(s, seen);
    } else if x == Snapshotting && !Dirty(k) && y != Snapshotting {
      UnsafeWithAgent(s, seen);
    } else if SetupMayRun(k) && k.setup.Some? && (x != Installing || seen.setup != k.setup) {
      UnsafeWithSetup(s, seen);
    } else if ValidationMayRun(y) && k.validation.Some? && (!ValidationMayRun(x) || seen.validation != k.validation) {
      UnsafeWithValidation(s, seen);
    } else {
      assert RelaunchShape(k);
      ForgetsWhatIsNew(m0, seen, k, s.m);
      UnsafeBackwards(s, seen);
    }
  }

  /**
   * After any split read: marking from the record keeps the invariant and takes
   * nothing back in every situation the service cannot tell apart if and only if
   * the record passes the comparison with the record read again. The situations
   * are those of the invariant; not each of them need occur in a run.
   */
  lemma SafeIffUpToDate(s0: State, steps: seq<Step>, p: Proc)
    requires SplitRead(s0, steps, p)
    ensures var s := After(s0, steps); SafeToAct(s, s0.journal) == UpToDate(s0.journal, s.journal, s.m.guard.Some?)
  {
    SplitReadFacts(s0, steps, p);
    var s, seen := After(s0, steps), s0.journal;
    if UpToDate(seen, s.journal, s.m.guard.Some?) {
      forall t | Inv(t) && Indistinguishable(s, t)
        ensures Forward(t, seen) == true
      {
        ActsSafely(s0.m, seen, t);
      }
    } else {
      UnsafeWhenStale(s0.m, s, seen);
    }
  }

  /** A current record is always safe to act on. */
  lemma FreshReadIsSafe(s: State)
    requires Reachable(s) && SvcEnabled(s, Mark)
    ensures MarkFrom(s, s.journal) == Apply(s, SvcStep(Mark))
    ensures Inv(MarkFrom(s, s.journal)) && Advances(s, MarkFrom(s, s.journal))
  {
    ReachableInv(s);
    StepKeeps(s, SvcStep(Mark));
    StepAdvances(s, SvcStep(Mark));
  }

  /** Acting on a record that passes neither opens nor closes a dead end. */
  lemma UpToDateClosesAlike(s0: State, steps: seq<Step>, p: Proc)
    requires SplitRead(s0, steps, p)
    requires var s := After(s0, steps); UpToDate(s0.journal, s.journal, s.m.guard.Some?)
    ensures var s := After(s0, steps); CanClose(MarkFrom(s, s0.journal)) == CanClose(s)
  {
    var s, seen := After(s0, steps), s0.journal;
    SplitReadFacts(s0, steps, p);
    ActsSafely(s0.m, seen, s);
    ClosesIffNoDeadEnd(s);
    ClosesIffNoDeadEnd(MarkFrom(s, seen));
    SameDeadEnds(s0.m, s, seen);
  }

  lemma SameDeadEnds(m0: Machine, s: State, seen: Journal)
    requires ReadEarlier(m0, seen, s.journal, s.m) && UpToDate(seen, s.journal, s.m.guard.Some?)
    requires NoWorkers(s.workers)
    ensures DeadEnd(MarkFrom(s, seen)) == DeadEnd(s)
  {
    var t := MarkFrom(s, seen);
    assert LostRecord(t.m, t.journal) == LostRecord(s.m, s.journal);
    assert Lost(t) == LostRecord(t.m, t.journal);
    assert Lost(s) == LostRecord(s.m, s.journal);
  }

  /** A record that has not changed passes, so reading it again is a remedy. */
  lemma UnchangedIsUpToDate(s: State)
    requires Reachable(s) && CanMark(s)
    ensures UpToDate(s.journal, s.journal, s.m.guard.Some?)
  {
    ReachableRecord(s);
    assert Guarded(s.m, s.journal) && Backed(s.m, s.journal);
  }

  // ----- a completed release is rolled back -----

  /** What is known of a completion that a dirty record was read before. */
  lemma CompletionFacts(s0: State, steps: seq<Step>, p: Proc)
    requires SplitRead(s0, steps, p) && Dirty(s0.journal) && Phase(After(s0, steps).journal) == Completed
    ensures var s, seen := After(s0, steps), s0.journal;
      && seen.op.Some? && seen.op.value in s.m.hist.completed && seen.op.value !in s.m.gone
      && seen.hashed && seen.snapshotComplete && !seen.restartOnly && seen.stage != Created && Interruptible(seen.state)
      && HasSnapshot(s.m, seen.op) && (s.m.guard.Some? ==> s.m.guard == seen.op)
      && s.svc == SvcIdle && RecordedWorkerDead(seen, s.workers)
  {
    SplitReadFacts(s0, steps, p);
    var s, seen := After(s0, steps), s0.journal;
    assert Shape(s0.m, seen) && RelaunchShape(seen);
    assert Shape(s.m, s.journal) && Backed(s.m, s.journal) && Guarded(s.m, s.journal);
  }

  /** The recovery worker that the stale record calls for restores the first file. */
  lemma RollsBackFrom(s: State, seen: Journal) returns (u: State)
    requires seen.op.Some? && seen.op.value in s.m.hist.completed && seen.op.value !in s.m.gone
    requires seen.snapshotComplete && !seen.restartOnly && seen.stage != Created && Interruptible(seen.state)
    requires seen.hashed && HasSnapshot(s.m, seen.op) && (s.m.guard.Some? ==> s.m.guard == seen.op)
    requires s.svc == SvcIdle && RecordedWorkerDead(seen, s.workers)
    ensures Leads(AnySteps, MarkFrom(s, seen), u)
    ensures seen.op.value in u.m.hist.completed && seen.op.value in u.m.hist.restored
  {
    var o := MarkFrom(s, seen);
    LeadsHere(AnySteps, o);
    var a := RecordedSetupExits(AnySteps, o, o);
    var b := AppsExit(AnySteps, o, a);
    var g, l := SpawnsRecovery(o, b);
    u := RestoresFirstFile(g, l);
  }

  lemma SpawnsRecovery(o: State, s: State) returns (g: Ground, l: Local)
    requires Leads(AnySteps, o, s) && s.svc == SvcIdle && s.journal.state == RecoveryRequired
    requires RecordedWorkerDead(s.journal, s.workers) && s.journal.op.Some? && s.journal.op.value !in s.m.gone
    requires s.journal.hashed
    ensures Can(g, l) && g.kind == AnySteps && g.origin == o
    ensures l == Local(s.journal.(worker := Some(g.p)), s.m,
      Worker(s.journal.op.value, Running, Begin(true), Body, s.journal))
  {
    ServiceNext(AnySteps, o, s, BeginRecovery);
    g, l := Spawns(AnySteps, o, SvcApply(s, BeginRecovery), ForRecovery);
  }

  lemma RestoresFirstFile(g: Ground, l: Local) returns (u: State)
    requires Can(g, l) && Recovering(l) && NoLiveApps(l.m) && Interruptible(Phase(l.journal))
    requires l.journal.snapshotComplete && !l.journal.restartOnly && l.journal.stage != Created &&
      HasSnapshot(l.m, l.journal.op)
    ensures Leads(g.kind, g.origin, u) && l.journal.op.value in u.m.hist.restored
    ensures l.m.hist.completed <= u.m.hist.completed
  {
    var c := ToDecision(g, l);
    var d := ToRollback(g, c);
    var e := BeginsRollback(g, d);
    var f := RestoresBundle(g, e);
    u := Placed(g, f);
  }

  /**
   * Whenever a record of an installation in progress was read before its
   * operation completed, acting on it leads to a state in which the operation
   * has been completed and its snapshot is being restored.
   */
  lemma StaleReadReversesCompletion(s0: State, steps: seq<Step>, p: Proc)
    requires SplitRead(s0, steps, p) && Dirty(s0.journal) && Phase(After(s0, steps).journal) == Completed
    ensures s0.journal.op.Some?
    ensures exists u ::
      && Leads(AnySteps, MarkFrom(After(s0, steps), s0.journal), u)
      && s0.journal.op.value in u.m.hist.completed && s0.journal.op.value in u.m.hist.restored
  {
    CompletionFacts(s0, steps, p);
    var u := RollsBackFrom(After(s0, steps), s0.journal);
  }

  /** Such a read is possible in the update to any later version. */
  lemma StaleReadArises(start: State, op: OpId, version: Version, bundle: Tree)
    requires Accepting(start, version)
    ensures exists s0, steps, p ::
      && SplitRead(s0, steps, p) && s0.journal.op == Some(op) && Dirty(s0.journal)
      && Phase(After(s0, steps).journal) == Completed
  {
    var g, l := Verifies(start, op, version, bundle);
    var s0 := Placed(g, l);
    var s := CompletesAndDies(g, l);
    var steps := ReadsBefore(s0, s, g.p);
  }

  lemma ReadsBefore(s0: State, s: State, p: Proc) returns (steps: seq<Step>)
    requires Reachable(s0) && p in s0.workers && s0.workers[p].status == Running && Leads(NoService, s0, s)
    requires p in s.workers && s.workers[p].status == Dead && Interruptible(s0.journal.state)
    ensures SplitRead(s0, steps, p) == true && After(s0, steps) == s
  {
    steps :| After(s0, steps) == s && forall i | 0 <= i < |steps| :: Admits(NoService, steps[i]);
  }

  /** A reachable state in which the new release is verified and the journal says so. */
  lemma Verifies(start: State, op: OpId, version: Version, bundle: Tree) returns (g: Ground, l: Local)
    requires Accepting(start, version)
    ensures Reachable(Placed(g, l)) && Standing(l, PromoteBaseline, Verifying) && l.w.op == op
    ensures l.journal == l.w.job && l.journal.op == Some(op)
  {
    var a;
    g, a := Dispatches(start, op, version, []);
    l := Installs(g, a, bundle);
    InitReachable(start);
    LeadsReachable(AnySteps, start, Placed(g, l));
    RecordIsSynced(Placed(g, l), g.p);
  }

  lemma RecordIsSynced(s: State, p: Proc)
    requires Reachable(s) && p in s.workers && s.workers[p].status == Running && s.workers[p].pc == PromoteBaseline
    ensures s.workers[p].job == s.journal
  {
    ReachableWorker(s, p);
  }

  /** Without any step of the service the worker completes, finalizes and dies. */
  lemma CompletesAndDies(g: Ground, l: Local) returns (s: State)
    requires Standing(l, PromoteBaseline, Verifying)
    ensures Leads(NoService, Placed(g, l), s) && s.journal.state == Completed && s.journal.op == Some(l.w.op)
    ensures g.p in s.workers && s.workers[g.p].status == Dead
  {
    var s0 := Placed(g, l);
    LeadsHere(NoService, s0);
    var h := g.(kind := NoService, origin := s0);
    var n := CompletesAndFinalizes(h, l);
    WorkerNext(h, n, Crash);
    s := Placed(h, n.(w := n.w.(status := Dead)));
  }
}
