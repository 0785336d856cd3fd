/**
 * A restart of the application blocks its version for a quarter of an hour
 * (windows/updater/service_main.cpp:225-227 and 300-301). The block is part of the
 * operation's record and compares version strings; preparing another version, or
 * the same one spelled with another leading zero, replaces the record.
 */
module Cooldown {
  import opened Common
  import opened Versions
  import opened Journals
  import opened Protocol
  import opened Invariants
  import opened Runs
  import opened Theorems
  import opened Schedules
  import opened Paths
  import opened Requests
  import opened Possibility
  import opened LostChild
  import opened Recoverability

  /** `SvcEnabled`, folded. */
  ghost predicate Accepts(s: State, v: ServiceStep) {
    SvcEnabled(s, v) == true
  }

  /** A preparation that is requested before `t`. */
  predicate EarlyPrepare(v: ServiceStep, t: int) {
    v.Prepare? && v.now < t
  }

  /** Every preparation in the schedule is requested before `t`. */
  predicate Early(steps: seq<Step>, t: int) {
    forall i | 0 <= i < |steps| :: steps[i].SvcStep? && steps[i].v.Prepare? ==> steps[i].v.now < t
  }

  /** Behind the schedule, still within the cooldown of `j`, the preparation is accepted. */
  ghost predicate AcceptedEarly(j: Journal, s: State, steps: seq<Step>, v: ServiceStep) {
    Early(steps, j.retryAfter) && EarlyPrepare(v, j.retryAfter) && Accepts(After(s, steps), v)
  }

  /** Within the cooldown, the version that was restarted can be prepared again. */
  ghost predicate Bypassed(s: State) {
    exists steps, v :: AcceptedEarly(s.journal, s, steps, v) && v.version == s.journal.version
  }

  ghost predicate OtherFirst(j: Journal, s: State, steps: seq<Step>, v: ServiceStep) {
    AcceptedEarly(j, s, steps, v) && v.version != j.version && After(s, steps).journal.op == j.op
  }

  /** Within the cooldown, another version can be prepared in place of the operation. */
  ghost predicate OtherPreparable(s: State) {
    exists steps, v :: OtherFirst(s.journal, s, steps, v)
  }

  /** The record keeps its cooldown as long as it is about the same operation. */
  lemma CooldownKept(s: State, step: Step)
    requires Inv(s) && s.journal.restartOnly && Apply(s, step).journal.op == s.journal.op
    ensures var k := Apply(s, step).journal;
      k.restartOnly && k.retryAfter == s.journal.retryAfter && k.version == s.journal.version
  {
    assert Shape(s.m, s.journal) && RelaunchShape(s.journal);
    StepAdvances(s, step);
  }

  /** Only a preparation makes the journal about another operation. */
  lemma OnlyPrepareReplaces(s: State, step: Step)
    requires Inv(s) && Apply(s, step).journal.op != s.journal.op
    ensures step.SvcStep? && step.v.Prepare? && Accepts(s, step.v)
  {
    if Enabled(s, step) && step.SvcStep? && !step.v.Prepare? {
      ServiceRewrites(s, step.v);
    } else if Enabled(s, step) && step.WrkStep? {
      WorkerKeepsOperation(s, step.p, step.w);
    }
  }

  /** The check itself. */
  lemma CooldownRefuses(s: State, v: ServiceStep)
    requires s.journal.restartOnly && v.Prepare? && v.version == s.journal.version && v.now < s.journal.retryAfter
    ensures !Accepts(s, v)
  {
  }

  lemma OneMoreEarly(step: Step, rest: seq<Step>, t: int)
    requires Early([step], t) && Early(rest, t)
    ensures Early([step] + rest, t)
  {
  }

  lemma OneStepEarlier(j: Journal, s: State, step: Step, rest: seq<Step>, v: ServiceStep)
    requires Early([step], j.retryAfter) && OtherFirst(j, Apply(s, step), rest, v) == true
    ensures OtherFirst(j, s, [step] + rest, v) == true
  {
    var a := [step] + rest;
    assert a[1..] == rest;
    assert After(s, a) == After(Apply(s, step), rest);
    OneMoreEarly(step, rest, j.retryAfter);
  }

  lemma OneStepLater(j: Journal, s: State, steps: seq<Step>, v: ServiceStep)
    requires steps != [] && AcceptedEarly(j, s, steps, v) == true
    ensures AcceptedEarly(j, Apply(s, steps[0]), steps[1..], v) == true
    ensures Early(steps, j.retryAfter) && Early([steps[0]], j.retryAfter)
  {
    assert After(s, steps) == After(Apply(s, steps[0]), steps[1..]);
  }

  /** The record still carries the cooldown of `j`. */
  ghost predicate Cooling(s: State, j: Journal) {
    && Inv(s) && s.journal.restartOnly && s.journal.op == j.op && s.journal.version == j.version
    && s.journal.retryAfter == j.retryAfter
  }

  lemma StepKeepsCooling(s: State, step: Step, j: Journal)
    requires Cooling(s, j) && Apply(s, step).journal.op == j.op
    ensures Cooling(Apply(s, step), j) == true
  {
    StepKeeps(s, step);
    CooldownKept(s, step);
  }

  /** On the way to a bypass some other version is prepared first. */
  lemma {:induction false} FirstOther(j: Journal, s: State, steps: seq<Step>, v: ServiceStep)
    returns (a: seq<Step>, u: ServiceStep)
    requires Cooling(s, j) == true && AcceptedEarly(j, s, steps, v) == true && v.version == j.version
    ensures OtherFirst(j, s, a, u) == true
    decreases |steps|
  {
    if steps == [] {
      CooldownRefuses(s, v);
      a, u := [], v;
    } else if Apply(s, steps[0]).journal.op == j.op {
      StepKeepsCooling(s, steps[0], j);
      OneStepLater(j, s, steps, v);
      var rest;
      rest, u := FirstOther(j, Apply(s, steps[0]), steps[1..], v);
      OneStepEarlier(j, s, steps[0], rest, u);
      a := [steps[0]] + rest;
    } else {
      OnlyPrepareReplaces(s, steps[0]);
      a, u := [], steps[0].v;
      OneStepLater(j, s, steps, v);
      ReplacedByOther(j, s, steps, u);
    }
  }

  lemma ReplacedByOther(j: Journal, s: State, steps: seq<Step>, u: ServiceStep)
    requires s.journal.restartOnly && s.journal.op == j.op && s.journal.version == j.version
    requires s.journal.retryAfter == j.retryAfter && steps != [] && Early(steps, j.retryAfter)
    requires steps[0] == SvcStep(u) && u.Prepare? && Accepts(s, u)
    ensures OtherFirst(j, s, [], u) == true
  {
    if u.version == s.journal.version {
      CooldownRefuses(s, u);
    }
    assert After(s, []) == s;
  }

  /** What the invariant says of the restarted version: nothing but the cooldown is against it. */
  lemma StillAcceptable(s: State)
    requires Reachable(s) && s.journal.restartOnly
    ensures Newer(s.journal.version, s.m.res.policy.installedVersion) && s.journal.version !in s.journal.blocked
    ensures s.journal.lastBlocked != Some(s.journal.version)
    ensures s.journal.lastHealthy.Some? ==> Newer(s.journal.version, s.journal.lastHealthy.value)
  {
    ReachableRecord(s);
    var j := s.journal;
    assert Shape(s.m, j) && BlockedOk(j) && HealthyOk(s.m, j) && Ahead(s.m, j) && RelaunchShape(j);
    LaterIsNewer(j.version, s.m.res.policy.installedVersion);
    if j.lastHealthy.Some? {
      LaterIsNewer(j.version, j.lastHealthy.value);
    }
  }

  /** The record of the other version carries no cooldown. */
  lemma OtherCancelled(s: State, u: ServiceStep)
    requires u.Prepare? && SvcEnabled(s, u)
    ensures
      var record := Prepared(s.journal, u.op, u.version, u.sid).(state := Deferred, cancelled := true);
      var a := SvcApply(s, u);
      && SvcEnabled(a, Cancel(u.op, u.sid))
      && SvcApply(a, Cancel(u.op, u.sid)) == a.(journal := record)
  {
  }

  /** A cancelled preparation gives way to any version that nothing is on record against. */
  lemma CancelledGivesWay(s: State, b: OpId, version: Version, now: int)
    requires s.svc == SvcIdle && s.m.res.policy.enabled && s.m.guard.None? && b !in s.m.hist.issued
    requires s.journal.state == Deferred && s.journal.worker.None? && !s.journal.pending && !s.journal.restartOnly
    requires Newer(version, s.m.res.policy.installedVersion) && version !in s.journal.blocked
    requires s.journal.lastBlocked != Some(version) && |s.journal.blocked| < MaxBlocked
    requires s.journal.lastHealthy.Some? ==> Newer(version, s.journal.lastHealthy.value)
    ensures Accepts(s, Prepare(b, version, [], 0, now))
  {
  }

  lemma AcceptedAfterCancel(s: State, u: ServiceStep, b: OpId)
    requires Reachable(s) && s.journal.restartOnly && u.Prepare? && SvcEnabled(s, u)
    requires b !in s.m.hist.issued && b != u.op
    ensures
      var record := Prepared(s.journal, u.op, u.version, u.sid).(state := Deferred, cancelled := true);
      Accepts(SvcApply(s, u).(journal := record), Prepare(b, s.journal.version, [], 0, u.now))
  {
    StillAcceptable(s);
    var record := Prepared(s.journal, u.op, u.version, u.sid).(state := Deferred, cancelled := true);
    CancelledGivesWay(SvcApply(s, u).(journal := record), b, s.journal.version, u.now);
  }

  lemma AfterTwo(s: State, a: Step, b: Step)
    ensures After(s, [a, b]) == Apply(Apply(s, a), b)
  {
    assert [a, b][1..] == [b] && [b][1..] == [];
    assert After(Apply(s, a), [b]) == Apply(Apply(s, a), b);
  }

  /** Preparing and cancelling another version lifts the cooldown. */
  lemma OtherLifts(s: State, u: ServiceStep, b: OpId)
    requires Reachable(s) && s.journal.restartOnly && u.Prepare? && SvcEnabled(s, u)
    requires b !in s.m.hist.issued && b != u.op
    ensures
      var more := [SvcStep(u), SvcStep(Cancel(u.op, u.sid))];
      Accepts(After(s, more), Prepare(b, s.journal.version, [], 0, u.now))
  {
    OtherCancelled(s, u);
    AcceptedAfterCancel(s, u, b);
    AfterTwo(s, SvcStep(u), SvcStep(Cancel(u.op, u.sid)));
  }

  /** Along any run about the same operation the cooldown stays on record. */
  lemma CooldownAlong(s: State, steps: seq<Step>)
    requires Reachable(s) && s.journal.restartOnly && After(s, steps).journal.op == s.journal.op
    ensures var t := After(s, steps);
      && Reachable(t) && t.journal.restartOnly && t.journal.version == s.journal.version
      && t.journal.retryAfter == s.journal.retryAfter
  {
    ReachableInv(s);
    assert Shape(s.m, s.journal) && RelaunchShape(s.journal);
    RunAdvances(s, steps);
    ReachableAfter(s, steps);
  }

  lemma BypassedWhenOther(s: State, steps: seq<Step>, u: ServiceStep)
    requires Reachable(s) && s.journal.restartOnly && AcceptedEarly(s.journal, s, steps, u) == true
    requires After(s, steps).journal.op == s.journal.op
    ensures Bypassed(s)
  {
    var t := After(s, steps);
    CooldownAlong(s, steps);
    var b := FreshId(t.m.hist.issued + {u.op});
    OtherLifts(t, u, b);
    BypassBy(s, steps, u, b);
  }

  lemma BypassBy(s: State, steps: seq<Step>, u: ServiceStep, b: OpId)
    requires Early(steps, s.journal.retryAfter) && EarlyPrepare(u, s.journal.retryAfter)
    requires
      var more := [SvcStep(u), SvcStep(Cancel(u.op, u.sid))];
      Accepts(After(After(s, steps), more), Prepare(b, s.journal.version, [], 0, u.now))
    ensures Bypassed(s)
  {
    var more := [SvcStep(u), SvcStep(Cancel(u.op, u.sid))];
    AfterMore(s, steps, more);
    EarlyMore(steps, u, s.journal.retryAfter);
    BypassWitness(s, steps + more, Prepare(b, s.journal.version, [], 0, u.now));
  }

  lemma EarlyMore(steps: seq<Step>, u: ServiceStep, t: int)
    requires Early(steps, t) && EarlyPrepare(u, t)
    ensures Early(steps + [SvcStep(u), SvcStep(Cancel(u.op, u.sid))], t)
  {
  }

  lemma BypassWitness(s: State, steps: seq<Step>, v: ServiceStep)
    requires Early(steps, s.journal.retryAfter) && EarlyPrepare(v, s.journal.retryAfter)
    requires Accepts(After(s, steps), v) && v.version == s.journal.version
    ensures Bypassed(s)
  {
    assert AcceptedEarly(s.journal, s, steps, v);
  }

  /** A bypass leads through the preparation of another version. */
  lemma BypassedIffOtherPreparable(s: State)
    requires Reachable(s) && s.journal.restartOnly
    ensures Bypassed(s) == OtherPreparable(s)
  {
    if Bypassed(s) {
      var steps, v :| AcceptedEarly(s.journal, s, steps, v) && v.version == s.journal.version;
      ReachableInv(s);
      var a, u := FirstOther(s.journal, s, steps, v);
    }
    if OtherPreparable(s) {
      var steps, u :| OtherFirst(s.journal, s, steps, u);
      BypassedWhenOther(s, steps, u);
    }
  }

  // ----- when there is one -----

  lemma WorkerKeepsEnabled(l: Local, step: WorkerStep)
    requires WorkerEnabled(l, step) && MachineOk(l.m) && MachineOk(WorkerApply(l, step).m)
    ensures WorkerApply(l, step).m.res.policy.enabled == l.m.res.policy.enabled
  {
    if step.Proceed? {
      ProceedKeepsUntouched(l, step.child);
    }
  }

  lemma ServiceKeepsEnabled(s: State, v: ServiceStep)
    requires SvcEnabled(s, v)
    ensures SvcApply(s, v).m.res == s.m.res
  {
  }

  lemma EnvKeepsEnabled(m: Machine, e: EnvironmentStep)
    requires EnvEnabled(m, e)
    ensures EnvApply(m, e).res.policy.enabled == (m.res.policy.enabled && !e.Revoke?)
  {
  }

  lemma InvMachine(s: State)
    requires Inv(s)
    ensures MachineOk(s.m)
  {
  }

  lemma WorkerStepKeepsEnabled(s: State, p: Proc, step: WorkerStep)
    requires Inv(s) && Enabled(s, WrkStep(p, step))
    ensures Apply(s, WrkStep(p, step)).m.res.policy.enabled == s.m.res.policy.enabled
  {
    StepKeeps(s, WrkStep(p, step));
    InvMachine(s);
    InvMachine(Apply(s, WrkStep(p, step)));
    WorkerKeepsEnabled(Local(s.journal, s.m, s.workers[p]), step);
  }

  /** Only the administrator changes the flag, and only to false. */
  lemma StepKeepsEnabled(s: State, step: Step)
    requires Inv(s)
    ensures var e := Apply(s, step).m.res.policy.enabled;
      (e ==> s.m.res.policy.enabled) && (Admits(Closing, step) ==> e == s.m.res.policy.enabled)
  {
    if Enabled(s, step) {
      match step
      case EnvStep(e) => EnvKeepsEnabled(s.m, e);
      case SvcStep(v) => ServiceKeepsEnabled(s, v);
      case WrkStep(p, w) => WorkerStepKeepsEnabled(s, p, w);
    }
  }

  lemma {:induction false} RunKeepsEnabled(s: State, steps: seq<Step>)
    requires Inv(s)
    ensures var e := After(s, steps).m.res.policy.enabled;
      && (e ==> s.m.res.policy.enabled)
      && ((forall i | 0 <= i < |steps| :: Admits(Closing, steps[i])) ==> e == s.m.res.policy.enabled)
    decreases |steps|
  {
    if steps != [] {
      StepKeeps(s, steps[0]);
      StepKeepsEnabled(s, steps[0]);
      RunKeepsEnabled(Apply(s, steps[0]), steps[1..]);
    }
  }

  lemma BypassIsOpen(s: State, steps: seq<Step>, v: ServiceStep)
    requires Reachable(s) && AcceptedEarly(s.journal, s, steps, v) == true
    ensures s.m.res.policy.enabled && !DeadEnd(s)
  {
    ReachableInv(s);
    RunKeepsEnabled(s, steps);
    if Lost(s) {
      LostChildBlocksForever(s, steps, v);
    } else if Stuck(s) {
      StuckForever(s, steps, v);
    } else if Unhashed(s) {
      UnhashedForever(s, steps, v);
    }
  }

  /** The restart is brought to an end, with nothing prepared and nothing revoked on the way. */
  lemma EndsRestart(s: State) returns (t: State, steps: seq<Step>)
    requires Reachable(s) && s.journal.restartOnly && !DeadEnd(s)
    ensures After(s, steps) == t && forall i | 0 <= i < |steps| :: Admits(Closing, steps[i])
    ensures AtRest(t) && Closed(t, s.journal.op)
  {
    ReachableInv(s);
    assert Shape(s.m, s.journal);
    var u := Closes(Closing, s);
    t := Stops(Closing, s, u);
    steps :| After(s, steps) == t && forall i | 0 <= i < |steps| :: Admits(Closing, steps[i]);
  }

  /** What is known of the version of a restart that is over, in another spelling. */
  lemma RespelledVersion(s: State) returns (z: Version)
    requires Reachable(s) && s.journal.restartOnly
    ensures z != s.journal.version && z !in s.journal.blocked && s.journal.lastBlocked != Some(z)
    ensures Newer(z, s.m.res.policy.installedVersion)
    ensures s.journal.lastHealthy.Some? ==> Newer(z, s.journal.lastHealthy.value)
    ensures |s.journal.blocked| < MaxBlocked
  {
    ReachableRecord(s);
    z := RespelledRecord(s.m, s.journal);
    LaterIsNewer(z, s.m.res.policy.installedVersion);
    if s.journal.lastHealthy.Some? {
      LaterIsNewer(z, s.journal.lastHealthy.value);
    }
  }

  lemma RespelledRecord(m: Machine, j: Journal) returns (z: Version)
    requires MachineOk(m) && Sound(m, j) && Settled(m, j) && j.restartOnly
    ensures z != j.version && z !in j.blocked && j.lastBlocked != Some(z) && |j.blocked| < MaxBlocked
    ensures Later(z, m.res.policy.installedVersion)
    ensures j.lastHealthy.Some? ==> Later(z, j.lastHealthy.value)
  {
    assert Shape(m, j) && RelaunchShape(j) && BlockedOk(j) && HealthyOk(m, j) && Ahead(m, j);
    z := Respelled(j.version, j.blocked);
  }

  lemma RespelledAccepted(s: State, op: Option<OpId>) returns (u: ServiceStep)
    requires Reachable(s) && s.journal.restartOnly && s.m.res.policy.enabled && AtRest(s) && Closed(s, op)
    ensures EarlyPrepare(u, s.journal.retryAfter) && Accepts(s, u) && u.version != s.journal.version
  {
    var z := RespelledVersion(s);
    var id := FreshId(s.m.hist.issued);
    u := Prepare(id, z, [], 0, s.journal.retryAfter - 1);
  }

  /** Closed and at rest, the operation gives way to its own version in another spelling. */
  lemma OpenIsPreparable(s: State)
    requires Reachable(s) && s.journal.restartOnly && s.m.res.policy.enabled && !DeadEnd(s)
    ensures OtherPreparable(s)
  {
    var t, steps := EndsRestart(s);
    CooldownAlong(s, steps);
    ReachableInv(s);
    RunKeepsEnabled(s, steps);
    var u := RespelledAccepted(t, s.journal.op);
    assert OtherFirst(s.journal, s, steps, u);
  }

  /**
   * The cooldown of a restarted version can be bypassed if and only if the
   * administrator has not revoked the authorization and the operation can still
   * be brought to an end; the way is to prepare another version first.
   */
  lemma BypassedIffOpen(s: State)
    requires Reachable(s) && s.journal.restartOnly
    ensures Bypassed(s) == (s.m.res.policy.enabled && !Lost(s) && !Stuck(s) && !Unhashed(s))
    ensures Bypassed(s) == OtherPreparable(s)
  {
    BypassedIffOtherPreparable(s);
    if Bypassed(s) {
      var steps, v :| AcceptedEarly(s.journal, s, steps, v) && v.version == s.journal.version;
      BypassIsOpen(s, steps, v);
    } else if s.m.res.policy.enabled && !DeadEnd(s) {
      OpenIsPreparable(s);
    }
  }

  // ----- the bypass happens -----

  /** A restart that was carried out, with its worker gone. */
  lemma RestartEnds(start: State, op: OpId, version: Version) returns (s: State)
    requires Init(start) && NoLiveApps(start.m) && start.m.res.policy.enabled
    requires Newer(version, start.m.res.policy.installedVersion)
    ensures Reachable(s) && s.svc == SvcIdle && RecordedWorkerDead(s.journal, s.workers)
    ensures s.journal.restartOnly && s.journal.version == version && s.journal.retryAfter == RetryDelayMs
    ensures s.journal.state == Deferred && !s.journal.pending && s.m.guard.None? && s.m.res == start.m.res
    ensures s.journal.blocked == [] && s.journal.lastBlocked.None? && s.journal.lastHealthy.None?
  {
    LeadsHere(AnySteps, start);
    var a := Prepares(start, start, op, version, [], 0, 0);
    var b := RequestsRestart(AnySteps, start, a, op, 0, 0, 0);
    var g, begin := Spawns(AnySteps, start, b, ForRestart);
    var l := Go(g, begin, 0);
    var n := Restarts(g, l);
    WorkerNext(g, n, Crash);
    s := Placed(g, n.(w := n.w.(status := Dead)));
    InitReachable(start);
    LeadsReachable(AnySteps, start, s);
    assert n.journal.worker == Some(g.p);
  }

  /** With any two later versions: restart the one, prepare and cancel the other, and the first is accepted again. */
  lemma BypassArises(start: State, op: OpId, version: Version, other: Version)
    requires Init(start) && NoLiveApps(start.m) && start.m.res.policy.enabled && other != version
    requires Newer(version, start.m.res.policy.installedVersion) && Newer(other, start.m.res.policy.installedVersion)
    ensures exists s :: Reachable(s) && s.journal.restartOnly && s.journal.version == version && Bypassed(s)
  {
    var s := RestartEnds(start, op, version);
    var u := OtherAccepted(s, other);
    BypassedWhenOther(s, [], u);
  }

  lemma OtherAccepted(s: State, other: Version) returns (u: ServiceStep)
    requires s.svc == SvcIdle && RecordedWorkerDead(s.journal, s.workers) && s.m.res.policy.enabled
    requires s.journal.state == Deferred && !s.journal.pending && s.m.guard.None? && s.journal.retryAfter > 0
    requires s.journal.blocked == [] && s.journal.lastBlocked.None? && s.journal.lastHealthy.None?
    requires other != s.journal.version && Newer(other, s.m.res.policy.installedVersion)
    ensures AcceptedEarly(s.journal, s, [], u) == true && After(s, []) == s
  {
    var id := FreshId(s.m.hist.issued);
    u := Prepare(id, other, [], 0, 0);
    AcceptsOther(s, id, other);
    AtOnce(s, u);
  }

  lemma AcceptsOther(s: State, id: OpId, other: Version)
    requires s.svc == SvcIdle && RecordedWorkerDead(s.journal, s.workers) && s.m.res.policy.enabled
    requires s.journal.state == Deferred && !s.journal.pending && s.m.guard.None?
    requires s.journal.blocked == [] && s.journal.lastBlocked.None? && s.journal.lastHealthy.None?
    requires other != s.journal.version && Newer(other, s.m.res.policy.installedVersion) && id !in s.m.hist.issued
    ensures Accepts(s, Prepare(id, other, [], 0, 0))
  {
  }

  lemma AtOnce(s: State, u: ServiceStep)
    requires Accepts(s, u) && EarlyPrepare(u, s.journal.retryAfter)
    ensures AcceptedEarly(s.journal, s, [], u) == true && After(s, []) == s
  {
    assert After(s, []) == s;
  }
}
