/** How soundness of a record survives the changes made to the machine. */
module MachineProofs {
  import opened Common
  import opened Versions
  import opened Journals
  import opened Protocol
  import opened Invariants
  import opened RecordProofs

  lemma TakeCopy(m: Machine, j: Journal)
    requires MachineOk(m) && Sound(m, j) && Settled(m, j)
    requires j.state == Snapshotting && !j.snapshotComplete
    ensures var n := WithSnapshot(m, j.op.value);
      MachineOk(n) && Sound(n, j) && Settled(n, j) && SnapshotMatches(n, j.op)
  {
  }

  lemma SetupTable(m: Machine, j: Journal, setups: map<Proc, Status>)
    requires MachineOk(m) && Sound(m, j) && Settled(m, j)
    requires SetupHeld(m.(setups := setups), j)
    ensures var n := m.(setups := setups); MachineOk(n) && Sound(n, j) && Settled(n, j)
  {
    Assemble(m.(setups := setups), j);
  }

  lemma AppTable(m: Machine, j: Journal, apps: map<Proc, App>)
    requires MachineOk(m) && Sound(m, j) && Settled(m, j)
    requires ValidationHeld(m.(apps := apps), j) && m.apps.Keys <= apps.Keys
    requires Dirty(j) || Phase(j) == Snapshotting ==> NoAgents(m.(apps := apps))
    ensures var n := m.(apps := apps); MachineOk(n) && Sound(n, j) && Settled(n, j)
  {
  }

  /** In the dirty phases the resources are not constrained, except for the revocation flag. */
  lemma DirtyResources(m: Machine, j: Journal, res: Resources)
    requires MachineOk(m) && Sound(m, j) && Dirty(j) && res.policy.enabled == m.res.policy.enabled
    ensures var n := m.(res := res); MachineOk(n) && Sound(n, j) && Settled(n, j)
  {
  }

  lemma RestoreStarted(m: Machine, j: Journal)
    requires MachineOk(m) && Sound(m, j) && j.state == RollingBack
    ensures var n := WithRestored(m, j.op); MachineOk(n) && Sound(n, j)
  {
  }

  lemma GuardReleased(m: Machine, j: Journal)
    requires MachineOk(m) && Sound(m, j) && Settled(m, j) && !Active(j) && j.outcome.Some?
    ensures var n := m.(guard := None); MachineOk(n) && Sound(n, j) && Settled(n, j)
  {
  }

  lemma Relaunched(m: Machine, j: Journal, p: Proc)
    requires MachineOk(m) && Sound(m, j) && Settled(m, j) && Terminal(Phase(j)) && j.relaunched == Some(p) && j.op.Some?
    ensures var n := WithRelaunch(m, j.op, p); MachineOk(n) && Sound(n, j) && Settled(n, j)
  {
  }

  lemma Pruned(m: Machine, j: Journal, deleted: set<OpId>)
    requires MachineOk(m) && Sound(m, j) && Settled(m, j) && (j.op.Some? ==> j.op.value !in deleted)
    ensures var n := m.(ops := m.ops - deleted); MachineOk(n) && Sound(n, j) && Settled(n, j)
  {
  }

  lemma CommitCompleted(m: Machine, job: Journal)
    requires MachineOk(m) && Sound(m, job) && Phase(job) == Completed
    ensures var n := Commit(m, job); MachineOk(n) && Sound(n, job) && Settled(n, job)
  {
  }

  lemma CommitRolledBack(m: Machine, job: Journal)
    requires MachineOk(m) && Sound(m, job) && Phase(job) == RolledBack
    ensures var n := Commit(m, job); MachineOk(n) && Sound(n, job) && Settled(n, job)
  {
  }

  /** Replacing the durable record `j` by the record `job` a worker holds. */
  lemma Committed(m: Machine, j: Journal, job: Journal)
    requires MachineOk(m) && Settled(m, j) && Sound(m, job) && Follows(j, job)
    ensures var n := Commit(m, job); MachineOk(n) && Sound(n, job) && Settled(n, job)
  {
    if Phase(job) == Completed {
      CommitCompleted(m, job);
    } else if Phase(job) == RolledBack {
      CommitRolledBack(m, job);
    }
  }
}
