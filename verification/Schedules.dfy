/** Schedules that exist: one state leads to another, step by step. */
module Schedules {
  import opened Common
  import opened Journals
  import opened Protocol
  import opened Invariants
  import opened Runs
  import opened WorkerSteps

  /** Which steps a schedule may contain. */
  datatype Kind = AnySteps | NoService | Closing

  /** To close an operation nothing need be prepared or revoked. */
  predicate Admits(kind: Kind, step: Step) {
    match kind
    case AnySteps => true
    case NoService => !step.SvcStep?
    case Closing => (step.SvcStep? ==> !step.v.Prepare?) && (step.EnvStep? ==> !step.e.Revoke?)
  }

  ghost predicate SomeSchedule(kind: Kind, s: State, t: State) {
    exists steps :: After(s, steps) == t && forall i | 0 <= i < |steps| :: Admits(kind, steps[i])
  }

  /** `SomeSchedule`, folded. */
  ghost predicate Leads(kind: Kind, s: State, t: State) {
    SomeSchedule(kind, s, t) == true
  }

  lemma LeadsHere(kind: Kind, s: State)
    ensures Leads(kind, s, s)
  {
    assert After(s, []) == s;
  }

  lemma LeadsOn(kind: Kind, s: State, t: State, step: Step)
    requires Leads(kind, s, t) && Admits(kind, step)
    ensures Leads(kind, s, Apply(t, step))
  {
    var steps :| After(s, steps) == t && forall i | 0 <= i < |steps| :: Admits(kind, steps[i]);
    AfterMore(s, steps, [step]);
    assert [step][1..] == [];
    assert After(t, [step]) == Apply(t, step);
  }

  lemma LeadsReachable(kind: Kind, s: State, t: State)
    requires Leads(kind, s, t) && Reachable(s)
    ensures Reachable(t)
  {
    var steps :| After(s, steps) == t && forall i | 0 <= i < |steps| :: Admits(kind, steps[i]);
    ReachableAfter(s, steps);
  }

  lemma LeadsInv(kind: Kind, s: State, t: State)
    requires Leads(kind, s, t) && Inv(s)
    ensures Inv(t)
  {
    var steps :| After(s, steps) == t && forall i | 0 <= i < |steps| :: Admits(kind, steps[i]);
    RunKeeps(s, steps);
  }

  // ----- one worker at work -----

  /** Where a schedule started, and the state around the worker `p`. */
  datatype Ground = Ground(kind: Kind, origin: State, base: State, p: Proc)

  function Placed(g: Ground, l: Local): State {
    State(l.journal, SvcIdle, g.base.workers[g.p := l.w], l.m)
  }

  /** The worker can get from the origin to where `l` has it. */
  ghost predicate Can(g: Ground, l: Local) {
    Leads(g.kind, g.origin, Placed(g, l))
  }

  lemma WorkerNext(g: Ground, l: Local, step: WorkerStep)
    requires Can(g, l) && WorkerEnabled(l, step)
    ensures Can(g, WorkerApply(l, step))
  {
    LeadsOn(g.kind, g.origin, Placed(g, l), WrkStep(g.p, step));
    var n := WorkerApply(l, step);
    assert g.base.workers[g.p := l.w][g.p := n.w] == g.base.workers[g.p := n.w];
  }

  lemma Outside(g: Ground, l: Local, e: EnvironmentStep) returns (n: Local)
    requires Can(g, l) && EnvEnabled(l.m, e) && Admits(g.kind, EnvStep(e))
    ensures Can(g, n) && n == l.(m := EnvApply(l.m, e))
  {
    LeadsOn(g.kind, g.origin, Placed(g, l), EnvStep(e));
    n := l.(m := EnvApply(l.m, e));
  }

  /** The success path of the current operation. */
  lemma Go(g: Ground, l: Local, child: Proc) returns (n: Local)
    requires Can(g, l) && l.w.status == Running && CanProceed(l, child)
    ensures Can(g, n) && n == ProceedStep(l, child)
  {
    WorkerNext(g, l, Proceed(child));
    n := ProceedStep(l, child);
  }

  /** What a save leaves alone. */
  predicate SameButHistory(m: Machine, n: Machine) {
    && n.contract == m.contract && n.guard == m.guard && n.res == m.res
    && n.ops == m.ops && n.gone == m.gone && n.setups == m.setups && n.apps == m.apps
    && n.hist.relaunches == m.hist.relaunches && n.hist.restored == m.hist.restored
    && m.hist.completed <= n.hist.completed
  }

  lemma SaveNow(g: Ground, l: Local) returns (n: Local)
    requires Can(g, l) && l.w.status == Running && l.w.pc.Saving?
    ensures Can(g, n) && n.journal == l.w.job && n.w == Goto(l.w, l.w.pc.next) && SameButHistory(l.m, n.m)
    ensures Phase(l.w.job) == Completed && l.w.job.op.Some? ==> l.w.job.op.value in n.m.hist.completed
  {
    WorkerNext(g, l, Save);
    n := WorkerApply(l, Save);
  }

  lemma GoAndSave(g: Ground, l: Local, child: Proc) returns (n: Local)
    requires Can(g, l) && l.w.status == Running && CanProceed(l, child)
    requires var r := ProceedStep(l, child); r.w.status == Running && r.w.pc.Saving?
    ensures Can(g, n)
    ensures var r := ProceedStep(l, child);
      && n.journal == r.w.job && n.w == Goto(r.w, r.w.pc.next) && SameButHistory(r.m, n.m)
      && (Phase(r.w.job) == Completed && r.w.job.op.Some? ==> r.w.job.op.value in n.m.hist.completed)
  {
    var r := Go(g, l, child);
    n := SaveNow(g, r);
  }
}
