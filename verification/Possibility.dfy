/**
 * The protocol can do what it is for: with the application contract on, an
 * update to any later version runs through to a finalized completion.
 */
module Possibility {
  import opened Common
  import opened Versions
  import opened Journals
  import opened Protocol
  import opened Runs
  import opened Schedules
  import opened Paths
  import opened Requests

  /** An initial machine that accepts an update to `version`. */
  ghost predicate Accepting(start: State, version: Version) {
    && Init(start) && NoLiveApps(start.m) && start.m.contract
    && start.m.res.policy.enabled && start.m.res.policy.validated
    && Newer(version, start.m.res.policy.installedVersion)
  }

  /** Prepared and started, the worker waits for the application. */
  lemma Dispatches(start: State, op: OpId, version: Version, setup: Blob) returns (g: Ground, l: Local)
    requires Accepting(start, version)
    ensures g.kind == AnySteps && g.origin == start && Can(g, l)
    ensures Standing(l, AwaitExit, WaitingForExit) && l.w.op == op && l.w.job.version == version
    ensures l.journal.worker == Some(g.p)
  {
    LeadsHere(AnySteps, start);
    var a := Prepares(start, start, op, version, setup, 0, 0);
    var b := Starts(start, a, op, 0, 0);
    var begin;
    g, begin := Spawns(AnySteps, start, b, ForStart);
    l := Go(g, begin, 0);
  }

  /** Completed, finalized, relaunched once, and the new bundle in place. */
  ghost predicate Finished(s: State, op: OpId, version: Version, bundle: Tree) {
    && s.journal.op == Some(op) && s.journal.state == Completed && !s.journal.pending && s.journal.version == version
    && s.m.guard.None? && s.m.res.bundle == bundle && s.m.res.policy.installedVersion == version
    && s.journal.relaunched.Some? && (op, s.journal.relaunched.value) in s.m.hist.relaunches
  }

  lemma InitReachable(start: State)
    requires Init(start)
    ensures Reachable(start)
  {
    assert After(start, []) == start;
  }

  /**
   * From every initial state with the contract on, an authorized policy and no
   * application running, every later version can be installed with any contents.
   */
  lemma EveryLaterVersionCanBeInstalled(start: State, op: OpId, version: Version, setup: Blob, bundle: Tree)
    requires Accepting(start, version)
    ensures exists s :: Reachable(s) && Finished(s, op, version, bundle)
  {
    var g, l := Dispatches(start, op, version, setup);
    var a := Installs(g, l, bundle);
    var n := CompletesAndFinalizes(g, a);
    InitReachable(start);
    LeadsReachable(AnySteps, start, Placed(g, n));
    assert Finished(Placed(g, n), op, version, bundle);
  }
}
