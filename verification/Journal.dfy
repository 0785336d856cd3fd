/**
 * The durable operation record (`journal.json`) and the state predicates of
 * windows/updater/contract.h that the service, the worker and the client share.
 */
module Journals {
  import opened Common
  import opened Versions

  /** `operationId`: a fresh GUID per prepared operation. */
  type OpId = nat

  /** A process identity: a pid together with its creation time, so never reused. */
  type Proc = nat

  /** `clientSid`. */
  type Sid = nat

  datatype OpState =
    | Idle | Preparing | WaitingForExit | Snapshotting | Installing | Verifying
    | RollingBack | RestoringUserData | Completed | RolledBack | Deferred | RecoveryRequired

  /** `relaunchStage`. */
  datatype Stage = NotLaunched | Created | Dispatched

  /** The fields of the record that some code reads back. */
  datatype Journal = Journal(
    state: OpState,
    op: Option<OpId>,
    version: Version,
    client: Sid,
    blocked: seq<Version>,
    lastBlocked: Option<Version>,
    lastHealthy: Option<Version>,
    hashed: bool,          // `workerSha256` is there
    worker: Option<Proc>,
    app: Option<Proc>,
    restartOnly: bool,
    recoveryAttempted: bool,
    retryAfter: int,
    snapshotComplete: bool,
    setup: Option<Proc>,
    validation: Option<Proc>,
    pending: bool,
    outcome: Option<OpState>,
    skipRelaunch: bool,
    relaunched: Option<Proc>,
    stage: Stage,
    recoveryFrom: Option<OpState>,
    cancelled: bool)       // the reason is `cancelled_before_installation`

  /** A record that holds an identity and nothing else. */
  function Fresh(state: OpState, op: Option<OpId>, version: Version, client: Sid): Journal {
    Journal(state, op, version, client, [], None, None, false, None, None, false, false, 0,
            false, None, None, false, None, false, None, NotLaunched, None, false)
  }

  const MaxBlocked := 1024
  const RetryDelayMs := 15 * 60 * 1000

  /** `can_prepare_operation`. */
  predicate CanPrepare(state: OpState) {
    state == Idle || state == Preparing || state == Deferred || state == Completed || state == RolledBack
  }

  /** `terminal_operation`. */
  predicate Terminal(state: OpState) {
    state == Completed || state == RolledBack || state == Deferred
  }

  /** `finalization_needed`. */
  predicate FinalizationNeeded(j: Journal, matchingGuard: bool) {
    Terminal(j.state) && (j.pending || matchingGuard)
  }

  /** The states in which a dead worker leaves work behind. */
  predicate Interruptible(state: OpState) {
    || state == WaitingForExit || state == Snapshotting || state == Installing
    || state == Verifying || state == RollingBack || state == RestoringUserData
  }

  /**
   * What `recover` resumes: the state the operation was in when it was marked
   * `recoveryRequired`, or the state itself.
   */
  function Phase(j: Journal): OpState {
    if j.state == RecoveryRequired && j.recoveryFrom.Some? then j.recoveryFrom.value else j.state
  }

  /** Interrupted or in flight: everything between dispatch and a terminal outcome. */
  predicate Active(j: Journal) {
    Interruptible(Phase(j)) || Phase(j) == RecoveryRequired
  }

  /** The operation may have changed the installation, and its snapshot is complete. */
  predicate Dirty(j: Journal) {
    || Phase(j) == Installing || Phase(j) == Verifying || Phase(j) == RollingBack
    || Phase(j) == RestoringUserData || Phase(j) == RecoveryRequired
    || (Phase(j) == Snapshotting && j.snapshotComplete)
  }
}
