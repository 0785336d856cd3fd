/**
 * The worker as the program it is (windows/updater/worker_main.cpp with
 * finalization.h): a process that changes its record `job`, saves it, touches
 * files and starts processes, and may be thrown out of any of this. Every
 * execution is shown to be a sequence of the protocol's steps.
 */
module WorkerProcess {
  import opened Common
  import opened Journals
  import opened Protocol
  import opened Invariants
  import opened WorkerSteps
  import opened Runs
  import Trees

  // ----- the process -----

  /**
   * What becomes of the next operation. `written` says how far a failing save
   * got; `Tears` stops a restoration after some deletions or copies and leaves
   * a single file with the contents `blob`.
   */
  datatype Fate =
    | Goes | Throws(written: bool) | Dies | Expires
    | Tears(deleting: Trees.Fault, copying: Trees.Fault, blob: Blob)

  /** What the world does before the next operation, its fate, and the id of a process it creates. */
  datatype Signal = Signal(world: seq<EnvironmentStep>, fate: Fate, child: Proc)

  datatype Flow = Continues | Threw | Died

  class Process {
    const op: OpId
    var journal: Journal
    var m: Machine
    var job: Journal
    var script: seq<Signal>
    var status: Status
    var ctx: Ctx
    ghost var pc: Pc
    ghost const start: Local

    ghost function Now(): Local
      reads this
    {
      Local(journal, m, Worker(op, status, pc, ctx, job))
    }

    ghost predicate Valid()
      reads this
    {
      Executes(start, Now())
    }

    /** Alive at `at`, as far as the protocol is concerned. */
    ghost predicate Stands(at: Pc)
      reads this
    {
      Valid() && status == Running && pc == at
    }

    /** What an operation leaves: the process at `next`, in an exception handler, or dead. */
    ghost predicate Ends(flow: Flow, next: Pc, within: Ctx)
      reads this
    {
      && Valid()
      && (flow == Continues ==> status == Running && pc == next && ctx == within)
      && (flow == Threw ==>
            && status == Running && ctx == Handler && within != Handler
            && pc == (if within == Body then Raising else InnerCatch))
      && (flow == Died ==> status == Dead)
    }

    constructor (op: OpId, journal: Journal, m: Machine, script: seq<Signal>, recovering: bool)
      ensures Stands(Begin(recovering)) && ctx == Body
      ensures start == Local(journal, m, Worker(op, Running, Begin(recovering), Body, journal))
      ensures this.journal == journal && this.m == m && this.op == op && this.script == script
    {
      this.op, this.journal, this.m, this.job, this.script := op, journal, m, journal, script;
      status, pc, ctx := Running, Begin(recovering), Body;
      start := Local(journal, m, Worker(op, Running, Begin(recovering), Body, journal));
      ExecutesHere(Local(journal, m, Worker(op, Running, Begin(recovering), Body, journal)));
    }

    /** The world moves on; without further instructions the process dies. */
    method Tick() returns (s: Signal)
      requires Valid()
      modifies this`m, this`script
      ensures Valid()
      ensures |script| < |old(script)| || s.fate == Dies
      ensures |script| <= |old(script)|
    {
      if script == [] {
        return Signal([], Dies, 0);
      }
      s, script := script[0], script[1..];
      for i := 0 to |s.world|
        invariant Valid() && |script| < |old(script)|
      {
        if EnvEnabled(m, s.world[i]) {
          ExecutesOutside(start, Now(), s.world[i]);
          m := EnvApply(m, s.world[i]);
        }
      }
    }

    method Die()
      requires Valid() && status == Running
      modifies this`status
      ensures Valid() && status == Dead
    {
      ExecutesStep(start, Now(), Crash);
      status := Dead;
    }

    /** The current operation succeeds: files and processes are `machine`, the record in memory is `record`. */
    method Step(machine: Machine, record: Journal, ghost next: Pc)
      requires Valid() && status == Running
      requires Executes(Now(), Local(journal, machine, Worker(op, status, next, ctx, record)))
      modifies this`m, this`job, this`pc
      ensures Valid() && m == machine && job == record && pc == next
    {
      ExecutesThrough(start, Now(), Local(journal, machine, Worker(op, status, next, ctx, record)));
      m, job, pc := machine, record, next;
    }

    /** Leave the current operation for its handler, or the process when there is none. */
    method Unwind() returns (flow: Flow)
      requires status == Running
      modifies this`status, this`pc, this`ctx
      ensures Now() == old(Now()).(w := Throw(old(Now()).w))
      ensures flow == if old(ctx) == Handler then Died else Threw
    {
      match ctx {
        case Body => pc, ctx, flow := Raising, Handler, Threw;
        case Inner => pc, ctx, flow := InnerCatch, Handler, Threw;
        case Handler => status, flow := Dead, Died;
      }
    }

    method Raise() returns (flow: Flow)
      requires Valid() && status == Running && CanRaise(pc) && !pc.Begin?
      modifies this`status, this`pc, this`ctx
      ensures flow != Continues && Ends(flow, old(pc), old(ctx))
    {
      ExecutesStep(start, Now(), WorkerStep.Raise);
      flow := Unwind();
    }

    method FailToSave(written: bool) returns (flow: Flow)
      requires Valid() && status == Running && pc.Saving?
      modifies this`journal, this`m, this`status, this`pc, this`ctx
      ensures flow != Continues && Ends(flow, old(pc), old(ctx))
    {
      ExecutesStep(start, Now(), SaveFail(written));
      if written {
        journal, m := job, Commit(m, job);
      }
      flow := Unwind();
    }

    method ReplaceJournal()
      requires Valid() && status == Running && pc.Saving?
      modifies this`journal, this`m, this`pc
      ensures Valid() && pc == old(pc).next && journal == job
    {
      ExecutesStep(start, Now(), WorkerStep.Save);
      journal, m, pc := job, Commit(m, job), pc.next;
    }

    /** `save`: replace the journal by the record in memory. */
    method Save() returns (flow: Flow)
      requires Valid() && status == Running && pc.Saving?
      modifies this
      ensures Ends(flow, old(pc).next, old(ctx)) && job == old(job)
      ensures flow == Continues ==> journal == job
      ensures |script| <= |old(script)|
    {
      var s := Tick();
      if s.fate == Dies {
        Die();
        flow := Died;
      } else if s.fate.Throws? {
        flow := FailToSave(s.fate.written);
      } else {
        ReplaceJournal();
        flow := Continues;
      }
    }

    /** A step of the record in memory that is saved at once. */
    method StepAndSave(machine: Machine, record: Journal, ghost next: Pc) returns (flow: Flow)
      requires Valid() && status == Running
      requires Executes(Now(), Local(journal, machine, Worker(op, status, Saving(next), ctx, record)))
      modifies this
      ensures Ends(flow, next, old(ctx)) && job == record && (flow == Continues ==> journal == job)
      ensures |script| <= |old(script)|
    {
      Step(machine, record, Saving(next));
      flow := Save();
    }

    /** Wait for the world, and for whether the next operation throws or the process dies. */
    method Await() returns (flow: Flow, s: Signal)
      requires Valid() && status == Running && CanRaise(pc) && !pc.Begin?
      modifies this
      ensures Ends(flow, old(pc), old(ctx)) && job == old(job) && journal == old(journal)
      ensures |script| <= |old(script)| && (flow == Continues ==> |script| < |old(script)|)
    {
      s := Tick();
      flow := Continues;
      if s.fate == Dies {
        Die();
        flow := Died;
      } else if s.fate.Throws? {
        flow := Raise();
      }
    }

    // ----- finalization.h -----

    /** `finalize_terminal_job`: outcome, guard, relaunch, done; each made durable before the next. */
    method FinalizeTerminal() returns (flow: Flow)
      requires Stands(FinalizeStart)
      modifies this
      ensures Ends(flow, Retain, old(ctx))
      ensures flow == Continues ==> !journal.pending && journal == job && Terminal(job.state)
    {
      flow := StateOutcome();
      if flow != Continues { return; }
      flow := ReleaseBootGuard();
      if flow != Continues { return; }
      if job.skipRelaunch {
        flow := SkipRelaunch();
        return;
      }
      flow := RelaunchRegisteredApplication();
      if flow != Continues { return; }
      flow := EndFinalization();
    }

    method EndFinalization() returns (flow: Flow)
      requires Stands(FinalizeEnd)
      modifies this
      ensures Ends(flow, Retain, old(ctx))
      ensures flow == Continues ==> !journal.pending && journal == job && job.state == old(job.state)
    {
      var s;
      flow, s := Await();
      if flow != Continues { return; }
      GoesOn(Now(), s.child);
      flow := StepAndSave(m, job.(pending := false), Retain);
    }

    method StateOutcome() returns (flow: Flow)
      requires Stands(FinalizeStart)
      modifies this
      ensures Ends(flow, ReleaseGuard, old(ctx))
      ensures flow == Continues ==> Terminal(job.state) && job == old(job).(outcome := Some(job.state), pending := true)
    {
      var s;
      flow, s := Await();
      if flow != Continues { return; }
      if !Terminal(job.state) { flow := Raise(); return; }
      GoesOn(Now(), s.child);
      flow := StepAndSave(m, job.(outcome := Some(job.state), pending := true), ReleaseGuard);
    }

    /** The guard is removed only if it names this operation. */
    method ReleaseBootGuard() returns (flow: Flow)
      requires Stands(ReleaseGuard)
      modifies this
      ensures Ends(flow, Relaunch, old(ctx)) && job == old(job)
    {
      var s;
      flow, s := Await();
      if flow != Continues { return; }
      if m.guard.Some? && m.guard != job.op { flow := Raise(); return; }
      GoesOn(Now(), s.child);
      flow := StepAndSave(m.(guard := None), job, Relaunch);
    }

    method SkipRelaunch() returns (flow: Flow)
      requires Stands(Relaunch) && job.skipRelaunch && Terminal(job.state)
      modifies this
      ensures Ends(flow, Retain, old(ctx))
      ensures flow == Continues ==> !journal.pending && journal == job && Terminal(job.state)
    {
      var s;
      flow, s := Await();
      if flow != Continues { return; }
      GoesOn(Now(), s.child);
      flow := StepAndSave(m, job.(pending := false), Retain);
    }

    /** `relaunch_registered_application`: resume the recorded child, or create one, record it and resume it. */
    method RelaunchRegisteredApplication() returns (flow: Flow)
      requires Stands(Relaunch) && !job.skipRelaunch
      modifies this
      ensures Ends(flow, FinalizeEnd, old(ctx)) && (flow == Continues ==> job.state == old(job.state))
    {
      var s;
      flow, s := Await();
      if flow != Continues { return; }
      if job.relaunched.None? {
        flow := CreateRelaunched(s.child);
      } else {
        flow := ResumeRecorded(s.child);
      }
    }

    /** A child that was recorded but never resumed must still exist; one that was dispatched is left alone. */
    method ResumeRecorded(child: Proc) returns (flow: Flow)
      requires Stands(Relaunch) && !job.skipRelaunch && job.relaunched.Some?
      modifies this
      ensures Ends(flow, FinalizeEnd, old(ctx)) && (flow == Continues ==> job.state == old(job.state))
    {
      if job.stage == Created && !AppAlive(m, job.relaunched) { flow := Raise(); return; }
      GoesOn(Now(), child);
      flow := StepAndSave(if job.stage == Created then WithRelaunch(m, job.op, job.relaunched.value) else m,
           job.(stage := Dispatched), FinalizeEnd);
    }

    method CreateRelaunched(child: Proc) returns (flow: Flow)
      requires Stands(Relaunch) && !job.skipRelaunch && job.relaunched.None?
      modifies this
      ensures Ends(flow, FinalizeEnd, old(ctx)) && (flow == Continues ==> job.state == old(job.state))
    {
      if !NoLiveApps(m) || child in m.apps { flow := Raise(); return; }
      GoesOn(Now(), child);
      flow := StepAndSave(m.(apps := m.apps[child := App(Agent, Suspended)]),
           job.(relaunched := Some(child), stage := Created), ResumeRelaunch);
      if flow != Continues { return; }
      flow := ResumeRelaunched();
    }

    method ResumeRelaunched() returns (flow: Flow)
      requires Stands(ResumeRelaunch)
      modifies this
      ensures Ends(flow, FinalizeEnd, old(ctx)) && (flow == Continues ==> job.state == old(job.state))
    {
      var s;
      flow, s := Await();
      if flow != Continues { return; }
      if !AppAlive(m, job.relaunched) { flow := Raise(); return; }
      GoesOn(Now(), s.child);
      flow := StepAndSave(WithRelaunch(m, job.op, job.relaunched.value), job.(stage := Dispatched), FinalizeEnd);
    }

    // ----- execute -----

    /** The handler reads the journal itself when the body did not get to it. */
    method RaiseEarly() returns (flow: Flow)
      requires Valid() && status == Running && pc.Begin? && ctx == Body
      modifies this`job, this`status, this`pc, this`ctx
      ensures flow == Threw && Ends(flow, old(pc), Body)
    {
      ExecutesStep(start, Now(), WorkerStep.Raise);
      job := journal;
      flow := Unwind();
    }

    /** Read the journal and check that it is about this operation. */
    method ReadJournal(recovering: bool) returns (flow: Flow)
      requires Stands(Begin(recovering)) && ctx == Body
      modifies this
      ensures Ends(flow, if recovering then RecoverCheck else AwaitExit, Body)
    {
      var s := Tick();
      if s.fate == Dies {
        Die();
        return Died;
      }
      if s.fate.Throws? || journal.op != Some(op) {
        flow := RaiseEarly();
        return;
      }
      GoesOn(Now(), s.child);
      Step(m, journal, if recovering then RecoverCheck else AwaitExit);
      flow := Continues;
    }

    /** The wait for the application: `proceed` says whether an update follows. */
    method WaitForExit() returns (flow: Flow, proceed: bool)
      requires Stands(AwaitExit)
      modifies this
      ensures Ends(flow, if proceed then TakeSnapshot else FinalizeStart, old(ctx))
    {
      var s;
      proceed := false;
      flow, s := Await();
      if flow != Continues { return; }
      if AppAlive(m, job.app) && !job.restartOnly {
        flow := GiveUpWaiting();
      } else if !NoLiveApps(m) {
        flow := Raise();
      } else {
        flow, proceed := EndWait(s.child);
      }
    }

    /** The application did not exit in time: the update is deferred and the application left running. */
    method GiveUpWaiting() returns (flow: Flow)
      requires Stands(AwaitExit) && AppAlive(m, job.app) && !job.restartOnly
      modifies this
      ensures Ends(flow, FinalizeStart, old(ctx))
    {
      ExecutesStep(start, Now(), Timeout);
      job, pc := job.(skipRelaunch := true, state := Deferred), Saving(FinalizeStart);
      flow := Save();
    }

    method EndWait(child: Proc) returns (flow: Flow, proceed: bool)
      requires Stands(AwaitExit) && NoLiveApps(m)
      modifies this
      ensures Ends(flow, if proceed then TakeSnapshot else FinalizeStart, old(ctx))
    {
      GoesOn(Now(), child);
      proceed := !job.restartOnly;
      if proceed {
        flow := StepAndSave(m, job.(state := Snapshotting), TakeSnapshot);
      } else {
        flow := StepAndSave(m, job.(state := Deferred), FinalizeStart);
      }
    }

    /** `snapshot`, as far as it changes the record. */
    method Snapshot() returns (flow: Flow)
      requires Stands(TakeSnapshot)
      modifies this
      ensures Ends(flow, LaunchSetup, old(ctx))
    {
      var s;
      flow, s := Await();
      if flow != Continues { return; }
      if !(m.res.policy.enabled && job.op.Some? && job.op.value in m.ops) { flow := Raise(); return; }
      GoesOn(Now(), s.child);
      flow := StepAndSave(WithSnapshot(m, job.op.value), job.(snapshotComplete := true), LaunchSetup);
    }

    /** `install` up to the suspended setup program. */
    method CreateSetup() returns (flow: Flow)
      requires Stands(LaunchSetup)
      modifies this
      ensures Ends(flow, ResumeSetup, old(ctx))
    {
      var s;
      flow, s := Await();
      if flow != Continues { return; }
      if !(NoLiveApps(m) && m.res.policy.enabled && s.child !in m.setups) { flow := Raise(); return; }
      GoesOn(Now(), s.child);
      flow := StepAndSave(m.(setups := m.setups[s.child := Suspended]),
        job.(setup := Some(s.child), state := Installing), ResumeSetup);
    }

    method StartSetup() returns (flow: Flow)
      requires Stands(ResumeSetup)
      modifies this
      ensures Ends(flow, AwaitSetup, old(ctx))
    {
      var s;
      flow, s := Await();
      if flow != Continues { return; }
      if !(job.setup.Some? && job.setup.value in m.setups && m.setups[job.setup.value] == Suspended) {
        flow := Raise();
        return;
      }
      GoesOn(Now(), s.child);
      Step(m.(setups := m.setups[job.setup.value := Running]), job, AwaitSetup);
    }

    predicate SetupIsDead()
      reads this
    {
      job.setup.Some? && job.setup.value in m.setups && m.setups[job.setup.value] == Dead
    }

    /** The setup program is never interrupted: past the deadline the record changes and the wait goes on. */
    method WaitForSetup() returns (flow: Flow)
      requires Stands(AwaitSetup)
      modifies this
      ensures Ends(flow, CheckExit, old(ctx))
    {
      while true
        invariant Stands(AwaitSetup) && ctx == old(ctx)
        decreases |script|
      {
        var s := Tick();
        if s.fate == Dies {
          Die();
          return Died;
        }
        if SetupIsDead() {
          GoesOn(Now(), s.child);
          flow := StepAndSave(m, job, CheckExit);
          return;
        }
        if s.fate == Expires {
          ExecutesStep(start, Now(), Timeout);
          job, pc := job.(state := RecoveryRequired), Saving(AwaitLateSetup);
          flow := Save();
          if flow == Continues {
            flow := WaitForLateSetup();
          }
          return;
        }
      }
    }

    method WaitForLateSetup() returns (flow: Flow)
      requires Stands(AwaitLateSetup)
      modifies this
      ensures Ends(flow, CheckExit, old(ctx))
    {
      while true
        invariant Stands(AwaitLateSetup) && ctx == old(ctx)
        decreases |script|
      {
        var s := Tick();
        if s.fate == Dies {
          Die();
          return Died;
        }
        if SetupIsDead() {
          GoesOn(Now(), s.child);
          flow := StepAndSave(m, job.(state := Installing), SetupExited);
          if flow == Continues {
            flow := RecordExit();
          }
          return;
        }
      }
    }

    method RecordExit() returns (flow: Flow)
      requires Stands(SetupExited)
      modifies this
      ensures Ends(flow, CheckExit, old(ctx))
    {
      var s;
      flow, s := Await();
      if flow != Continues { return; }
      GoesOn(Now(), s.child);
      flow := StepAndSave(m, job, CheckExit);
    }

    /** A bad exit code throws here. */
    method BeginVerifying() returns (flow: Flow)
      requires Stands(CheckExit)
      modifies this
      ensures Ends(flow, LaunchValidation(false), old(ctx))
    {
      var s;
      flow, s := Await();
      if flow != Continues { return; }
      GoesOn(Now(), s.child);
      flow := StepAndSave(m, job.(state := Verifying), LaunchValidation(false));
    }

    // ----- validation children -----

    method CreateValidation(ghost restoring: bool) returns (flow: Flow)
      requires Stands(LaunchValidation(restoring))
      modifies this
      ensures Ends(flow, ResumeValidation(restoring), old(ctx))
    {
      var s;
      flow, s := Await();
      if flow != Continues { return; }
      if s.child in m.apps { flow := Raise(); return; }
      GoesOn(Now(), s.child);
      flow := StepAndSave(m.(apps := m.apps[s.child := App(Validation, Suspended)]), job.(validation := Some(s.child)),
           ResumeValidation(restoring));
    }

    method StartValidation(ghost restoring: bool) returns (flow: Flow)
      requires Stands(ResumeValidation(restoring))
      modifies this
      ensures Ends(flow, AwaitValidation(restoring), old(ctx))
    {
      var s;
      flow, s := Await();
      if flow != Continues { return; }
      if !(job.validation.Some? && job.validation.value in m.apps && m.apps[job.validation.value].status == Suspended) {
        flow := Raise();
        return;
      }
      GoesOn(Now(), s.child);
      Step(m.(apps := m.apps[job.validation.value := App(Validation, Running)]), job, AwaitValidation(restoring));
    }

    /** `launch_original_user`: create, record, resume and wait for the validation child. */
    method LaunchOriginalUser(restoring: bool) returns (flow: Flow)
      requires Stands(LaunchValidation(restoring))
      modifies this
      ensures Ends(flow, if restoring then FinalizeStart else PromoteBaseline, old(ctx))
    {
      flow := CreateValidation(restoring);
      if flow != Continues { return; }
      flow := StartValidation(restoring);
      if flow != Continues { return; }
      flow := WaitForValidation(restoring);
    }

    method WaitForValidation(restoring: bool) returns (flow: Flow)
      requires Stands(AwaitValidation(restoring))
      modifies this
      ensures Ends(flow, if restoring then FinalizeStart else PromoteBaseline, old(ctx))
    {
      var s;
      flow, s := Await();
      if flow != Continues { return; }
      if !(job.validation.Some? && job.validation.value in m.apps && m.apps[job.validation.value].status == Dead) {
        flow := Raise();
        return;
      }
      if restoring {
        flow := RecordRollback(s.child);
      } else {
        GoesOn(Now(), s.child);
        Step(m, job, PromoteBaseline);
      }
    }

    method RecordRollback(child: Proc) returns (flow: Flow)
      requires Stands(AwaitValidation(true))
      requires job.validation.Some? && job.validation.value in m.apps && m.apps[job.validation.value].status == Dead
      modifies this
      ensures Ends(flow, FinalizeStart, old(ctx))
    {
      GoesOn(Now(), child);
      flow := StepAndSave(m, job.(state := RolledBack), FinalizeStart);
    }

    // ----- promotion -----

    /** A file is left half written and the operation throws. */
    method Tear(tree: Tree, blob: Blob, machine: Machine) returns (flow: Flow)
      requires Valid() && status == Running && CanPartial(m, Now().w) && machine == PartialStep(m, Now().w, tree, blob)
      modifies this
      ensures flow != Continues && Ends(flow, old(pc), old(ctx))
    {
      ExecutesStep(start, Now(), Partial(tree, blob));
      m := machine;
      flow := Raise();
    }

    method CopyBaseline() returns (flow: Flow)
      requires Stands(PromoteBaseline)
      modifies this
      ensures Ends(flow, PromotePolicy, old(ctx))
    {
      var s;
      flow, s := Await();
      if flow != Continues { return; }
      if s.fate.Tears? {
        flow := Tear(map[], s.fate.blob, m.(res := m.res.(baseline := s.fate.blob)));
        return;
      }
      if !(job.op.Some? && job.op.value in m.ops) { flow := Raise(); return; }
      PlaceBaseline(s.child);
    }

    method PlaceBaseline(child: Proc)
      requires Stands(PromoteBaseline) && job.op.Some? && job.op.value in m.ops
      modifies this`m, this`job, this`pc
      ensures Stands(PromotePolicy)
    {
      GoesOn(Now(), child);
      Step(m.(res := m.res.(baseline := m.ops[job.op.value].setup)), job, PromotePolicy);
    }

    method Complete() returns (flow: Flow)
      requires Stands(PromotePolicy)
      modifies this
      ensures Ends(flow, FinalizeStart, old(ctx))
    {
      var s;
      flow, s := Await();
      if flow != Continues { return; }
      GoesOn(Now(), s.child);
      flow := StepAndSave(m.(res := m.res.(policy := PromotedPolicy(m.res.policy, job.version, m.res.baseline))),
           job.(lastHealthy := Some(job.version), state := Completed), FinalizeStart);
    }

    /** `execute`. */
    method Execute() returns (flow: Flow)
      requires Stands(Begin(false)) && ctx == Body
      modifies this
      ensures Ends(flow, Retain, Body)
      ensures flow == Continues ==> journal == job && Terminal(job.state)
    {
      flow := ReadJournal(false);
      if flow != Continues { return; }
      var proceed;
      flow, proceed := WaitForExit();
      if flow != Continues { return; }
      if proceed {
        flow := Update();
        if flow != Continues { return; }
      }
      flow := FinalizeTerminal();
    }

    /** From the snapshot to `completed`. */
    method Update() returns (flow: Flow)
      requires Stands(TakeSnapshot)
      modifies this
      ensures Ends(flow, FinalizeStart, old(ctx))
    {
      flow := Snapshot();
      if flow != Continues { return; }
      flow := CreateSetup();
      if flow != Continues { return; }
      flow := StartSetup();
      if flow != Continues { return; }
      flow := WaitForSetup();
      if flow != Continues { return; }
      flow := BeginVerifying();
      if flow != Continues { return; }
      flow := LaunchOriginalUser(false);
      if flow != Continues { return; }
      flow := CopyBaseline();
      if flow != Continues { return; }
      flow := Complete();
    }

    // ----- rollback and recover -----

    method BeginRollback() returns (flow: Flow)
      requires Stands(RollbackStart)
      modifies this
      ensures Ends(flow, RollbackVerify, old(ctx))
    {
      var s;
      flow, s := Await();
      if flow != Continues { return; }
      if !(job.snapshotComplete) { flow := Raise(); return; }
      GoesOn(Now(), s.child);
      flow := StepAndSave(m, job.(state := RollingBack), RollbackVerify);
    }

    method VerifySnapshot() returns (flow: Flow)
      requires Stands(RollbackVerify)
      modifies this
      ensures Ends(flow, RestoreBundle, old(ctx))
    {
      var s;
      flow, s := Await();
      if flow != Continues { return; }
      if !(NoLiveApps(m) && HasSnapshot(m, job.op)) { flow := Raise(); return; }
      GoesOn(Now(), s.child);
      Step(m, job, RestoreBundle);
    }

    /** `restore_tree` on one of the snapshot's trees: all of it, or what an interruption leaves. */
    method RestoreFrom(snapshot: Tree, current: Tree, fate: Fate) returns (done: bool, tree: Tree)
      ensures done ==> tree == snapshot
      ensures !fate.Tears? ==> done
    {
      var source := new Trees.Directory(snapshot);
      var target := new Trees.Directory(current);
      var deleting, copying := Trees.Never, Trees.Never;
      if fate.Tears? {
        deleting, copying := fate.deleting, fate.copying;
      }
      Trees.VerifiedIffContains(snapshot, snapshot);
      var outcome := Trees.RestoreTree(source, target, Trees.InventoryOf(snapshot), true, deleting, copying);
      done, tree := outcome.Done?, target.files;
    }

    method RestoreBundleTree() returns (flow: Flow)
      requires Stands(RestoreBundle)
      modifies this
      ensures Ends(flow, RestoreData, old(ctx))
    {
      var s;
      flow, s := Await();
      if flow != Continues { return; }
      if !HasSnapshot(m, job.op) { flow := Raise(); return; }
      var done, tree := RestoreFrom(SnapshotOf(m, job.op).bundle, m.res.bundle, s.fate);
      var machine := WithRestored(m, job.op).(res := m.res.(bundle := tree));
      if !done {
        flow := Tear(tree, [], machine);
        return;
      }
      GoesOn(Now(), s.child);
      Step(machine, job, RestoreData);
    }

    method RestoreDataTree() returns (flow: Flow)
      requires Stands(RestoreData)
      modifies this
      ensures Ends(flow, RestoreBaseline, old(ctx))
    {
      var s;
      flow, s := Await();
      if flow != Continues { return; }
      if !HasSnapshot(m, job.op) { flow := Raise(); return; }
      var done, tree := RestoreFrom(SnapshotOf(m, job.op).data, m.res.data, s.fate);
      var machine := WithRestored(m, job.op).(res := m.res.(data := tree));
      if !done {
        flow := Tear(tree, [], machine);
        return;
      }
      GoesOn(Now(), s.child);
      Step(machine, job, RestoreBaseline);
    }

    method RestoreBaselineFile() returns (flow: Flow)
      requires Stands(RestoreBaseline)
      modifies this
      ensures Ends(flow, RestorePolicy, old(ctx))
    {
      var s;
      flow, s := Await();
      if flow != Continues { return; }
      if !HasSnapshot(m, job.op) { flow := Raise(); return; }
      if s.fate.Tears? {
        flow := Tear(map[], s.fate.blob, WithRestored(m, job.op).(res := m.res.(baseline := s.fate.blob)));
        return;
      }
      GoesOn(Now(), s.child);
      Step(WithRestored(m, job.op).(res := m.res.(baseline := SnapshotOf(m, job.op).installer)), job, RestorePolicy);
    }

    method RestorePolicyFile() returns (flow: Flow)
      requires Stands(RestorePolicy)
      modifies this
      ensures Ends(flow, LaunchValidation(true), old(ctx))
    {
      var s;
      flow, s := Await();
      if flow != Continues { return; }
      if !(HasSnapshot(m, job.op)) { flow := Raise(); return; }
      GoesOn(Now(), s.child);
      var policy := RestoredPolicy(SnapshotOf(m, job.op).policy, m.res.policy);
      flow := StepAndSave(WithRestored(m, job.op).(res := m.res.(policy := policy)),
                          Block(job).(state := RestoringUserData), LaunchValidation(true));
    }

    /** `rollback`: bundle, data, baseline, policy, the user's secrets, and the finalization. */
    method Rollback() returns (flow: Flow)
      requires Stands(RollbackStart)
      modifies this
      ensures Ends(flow, Retain, old(ctx))
      ensures flow == Continues ==> journal == job && Terminal(job.state)
    {
      flow := BeginRollback();
      if flow != Continues { return; }
      flow := VerifySnapshot();
      if flow != Continues { return; }
      flow := RestoreBundleTree();
      if flow != Continues { return; }
      flow := RestoreDataTree();
      if flow != Continues { return; }
      flow := RestoreBaselineFile();
      if flow != Continues { return; }
      flow := RestorePolicyFile();
      if flow != Continues { return; }
      flow := LaunchOriginalUser(true);
      if flow != Continues { return; }
      flow := FinalizeTerminal();
    }

    /** The setup program of an interrupted installation must have exited. */
    method CheckSetup() returns (flow: Flow)
      requires Stands(RecoverCheck)
      modifies this
      ensures Ends(flow, RecoverDecide, old(ctx))
    {
      var s;
      flow, s := Await();
      if flow != Continues { return; }
      if !(SetupGone(m, job.setup)) { flow := Raise(); return; }
      GoesOn(Now(), s.child);
      Step(m, job, RecoverDecide);
    }

    /** What `recover` does next: finish an outcome, roll back, or defer. */
    method ChooseRecovery() returns (flow: Flow, rollingBack: bool)
      requires Stands(RecoverDecide)
      modifies this
      ensures Ends(flow, if rollingBack then RollbackStart else FinalizeStart, old(ctx))
    {
      var s;
      rollingBack := false;
      flow, s := Await();
      if flow != Continues { return; }
      if !Terminal(Phase(job)) && (!NoLiveApps(m) || !Resumable(job)) { flow := Raise(); return; }
      rollingBack := !Terminal(Phase(job)) && !job.restartOnly && job.snapshotComplete;
      if rollingBack {
        GoesOn(Now(), s.child);
        Step(m, job, RollbackStart);
      } else {
        flow := FinishRecovery(s.child);
      }
    }

    method FinishRecovery(child: Proc) returns (flow: Flow)
      requires Stands(RecoverDecide)
      requires Terminal(Phase(job)) || (NoLiveApps(m) && Resumable(job) && (job.restartOnly || !job.snapshotComplete))
      modifies this
      ensures Ends(flow, FinalizeStart, old(ctx))
    {
      GoesOn(Now(), child);
      flow := StepAndSave(m, job.(state := if Terminal(Phase(job)) then Phase(job) else Deferred), FinalizeStart);
    }

    /** `recover`. */
    method Recover() returns (flow: Flow)
      requires Stands(Begin(true)) && ctx == Body
      modifies this
      ensures Ends(flow, Retain, Body)
      ensures flow == Continues ==> journal == job && Terminal(job.state)
    {
      flow := ReadJournal(true);
      if flow != Continues { return; }
      flow := CheckSetup();
      if flow != Continues { return; }
      var rollingBack;
      flow, rollingBack := ChooseRecovery();
      if flow != Continues { return; }
      if rollingBack {
        flow := Rollback();
      } else {
        flow := FinalizeTerminal();
      }
    }

    // ----- wmain -----

    /** A step of the exception handlers, which nothing catches. */
    method Pass() returns (flow: Flow, s: Signal)
      requires Valid() && status == Running
      modifies this
      ensures Valid() && pc == old(pc) && ctx == old(ctx) && job == old(job) && journal == old(journal)
      ensures flow != Threw && (flow == Continues ==> status == Running) && (flow == Died ==> status == Dead)
    {
      s := Tick();
      flow := Continues;
      if s.fate == Dies {
        Die();
        flow := Died;
      }
    }

    method StateReason() returns (flow: Flow)
      requires Stands(Raising) && ctx == Handler
      modifies this
      ensures Ends(flow, Handling, Handler) && flow != Threw
      ensures flow == Continues ==> job == old(job).(cancelled := false)
      ensures flow == Continues ==> journal == job
    {
      var s;
      flow, s := Pass();
      if flow != Continues { return; }
      GoesOn(Now(), s.child);
      flow := StepAndSave(m, job.(cancelled := false), Handling);
    }

    method MarkForRecovery() returns (flow: Flow)
      requires Stands(Handling) && ctx == Handler
      requires job.state != Installing && job.state != Verifying && job.state != Deferred
      modifies this
      ensures Ends(flow, Retain, Handler) && flow != Threw
      ensures flow == Continues ==> journal == job && job.state == RecoveryRequired
    {
      var s;
      flow, s := Pass();
      if flow != Continues { return; }
      GoesOn(Now(), s.child);
      flow := StepAndSave(m,
           if job.state == RecoveryRequired then job
             else job.(recoveryFrom := Some(job.state), state := RecoveryRequired),
           Retain);
    }

    /** The handler around the rollback of a failed update. */
    method MarkAfterRollback() returns (flow: Flow)
      requires Stands(InnerCatch) && ctx == Handler
      modifies this
      ensures Ends(flow, Retain, Handler) && flow != Threw
      ensures flow == Continues ==> journal == job && job.state == RecoveryRequired
    {
      var s;
      flow, s := Pass();
      if flow != Continues { return; }
      GoesOn(Now(), s.child);
      flow := StepAndSave(m, job.(recoveryFrom := Some(job.state), state := RecoveryRequired), Retain);
    }

    /** The handler around `execute` and `recover`. */
    method HandleException() returns (flow: Flow)
      requires Stands(Raising) && ctx == Handler
      modifies this
      ensures Valid() && flow != Threw && (flow == Died ==> status == Dead)
      ensures flow == Continues ==> status == Running && pc == Retain
      ensures flow == Continues ==> journal == job && (Terminal(job.state) || job.state == RecoveryRequired)
    {
      flow := StateReason();
      if flow != Continues { return; }
      if job.state == Installing || job.state == Verifying {
        flow := RollbackInHandler();
      } else if job.state == Deferred {
        flow := LeaveDeferred();
      } else {
        flow := MarkForRecovery();
      }
    }

    method LeaveDeferred() returns (flow: Flow)
      requires Stands(Handling) && ctx == Handler && job.state == Deferred && journal == job
      modifies this
      ensures Ends(flow, Retain, Handler) && flow != Threw
      ensures journal == job && job.state == Deferred
    {
      var s;
      flow, s := Pass();
      if flow != Continues { return; }
      Leave(s.child);
    }

    method Leave(child: Proc)
      requires Stands(Handling) && job.state == Deferred
      modifies this`m, this`job, this`pc
      ensures Stands(Retain) && job == old(job)
    {
      GoesOn(Now(), child);
      Step(m, job, Retain);
    }

    method RollbackInHandler() returns (flow: Flow)
      requires Stands(Handling) && ctx == Handler && (job.state == Installing || job.state == Verifying)
      modifies this
      ensures Valid() && flow != Threw && (flow == Died ==> status == Dead)
      ensures flow == Continues ==> status == Running && pc == Retain
      ensures flow == Continues ==> journal == job && (Terminal(job.state) || job.state == RecoveryRequired)
    {
      var s;
      flow, s := Pass();
      if flow != Continues { return; }
      GoesOn(Now(), s.child);
      ExecutesThrough(start, Now(), Now().(w := Now().w.(pc := RollbackStart, ctx := Inner)));
      ctx, pc := Inner, RollbackStart;
      flow := Rollback();
      if flow == Threw {
        flow := MarkAfterRollback();
      }
    }

    /** `retain_confirmed_snapshots` deletes operations other than this one, and the process ends. */
    method Exit(deleted: set<OpId>)
      requires Stands(Retain) && op !in deleted
      requires deleted != {} ==> job.state == Completed || job.state == RolledBack
      modifies this`m, this`status
      ensures Valid() && status == Dead
    {
      ExecutesStep(start, Now(), Prune(deleted));
      m, status := m.(ops := m.ops - deleted), Dead;
    }

    /**
     * `wmain`. Whatever the world does and wherever the process is thrown out or
     * killed, what it did is a sequence of protocol steps; and unless it is cut
     * short, it leaves an outcome or a record marked for recovery.
     */
    method Run(recovering: bool, deleted: set<OpId>) returns (finished: bool)
      requires Stands(Begin(recovering)) && ctx == Body && op !in deleted
      modifies this
      ensures Valid() && status == Dead
      ensures finished ==> Terminal(journal.state) || journal.state == RecoveryRequired
    {
      var flow;
      if recovering {
        flow := Recover();
      } else {
        flow := Execute();
      }
      if flow == Threw {
        flow := HandleException();
      }
      finished := flow == Continues;
      if finished {
        Exit(if job.state == Completed || job.state == RolledBack then deleted else {});
      }
    }
  }

  /** In every reachable state, a running worker stands where the invariant holds. */
  lemma ReachableStart(s: State, p: Proc)
    requires Reachable(s) && p in s.workers
    ensures LocalInv(p, Local(s.journal, s.m, s.workers[p]))
  {
    ReachableRecord(s);
    ReachableWorker(s, p);
  }

  /** Started where the invariant holds, the program is never seen where it does not. */
  lemma ProcessKeepsInvariant(x: Process, p: Proc)
    requires x.Valid() && LocalInv(p, x.start)
    ensures LocalInv(p, x.Now())
  {
    ExecutesKeeps(p, x.start, x.Now());
  }
}
