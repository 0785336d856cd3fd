# A model of the Plug Agente updater and release tools

Plug Agente updates itself on Windows through a service and a worker that share
one durable journal, a boot guard, a policy file, a baseline installer and a
snapshot directory. Either process may die between any two durable writes. This
project states what the update protocol promises over whole runs, crashes and
replays included, and proves it; around it stand the parts with a theorem of
their own: the order of version numbers, command-line quoting, framed pipe
messages, the two manifest validators, the version resource of the executables,
and the resumable publication of a release.

`dafny verify dfyconfig.toml` verifies everything.

## How the protocol is modelled

- `Journal.dfy` holds the journal record and the state predicates; `Protocol.dfy`
  is the transition system. The worker has one program point per durable write
  or process effect, the service one per step of a request (guard, record, hash
  of the worker, worker process), and the setup program, the application and the
  administrator act in between. A schedule is
  any sequence of steps; a step that is not possible is skipped. A worker or the
  service may crash anywhere, and a `save()` may fail before or after the
  journal has been replaced.
- Journal and policy writes are atomic replacements; restored trees and the
  promoted baseline are not, and an interrupted restoration leaves any contents.
  SHA-256 is a collision-free function. `kApplicationContractImplemented` is a
  field, so both settings are covered.
- The machine carries a history and a second copy of the resources, `untouched`:
  what the bundle, the data, the baseline and the policy would be if the current
  operation had never written to them. No step reads either.
- `Invariant.dfy` is the inductive invariant. `RecordProofs`, `MachineProofs`,
  `WorkerProofs`, `ServiceProofs` and `EnvironmentProofs` show that every step
  keeps it, `Runs` carries it along schedules, and `Theorems` and `ManualInstall`
  draw the conclusions.
- `Schedules`, `Paths` and `Requests` build schedules that exist: what a worker,
  the service and the rest of the machine can do when nothing goes wrong. On them
  rest the results of the form "some schedule leads to": `Possibility`,
  `Recoverability` (with `LostChild`), `StaleReads` and `Cooldown`.
- `WorkerProcess.dfy` and `ServiceProcess.dfy` are the two programs in their own
  form: classes whose methods change the record in memory, save it, write files
  and start processes, with exceptions unwinding to the handlers of `wmain` and
  of the request loop. `Valid()` says that the state of the object is one that
  steps of the transition system lead to from where it started, and every change
  of it is such a step. The restorations of trees run through `Trees`.

## What was found in the code

- The service reads the journal and then asks whether the recorded worker is
  alive. The theorems take the two as one step. Separated, a worker that
  completes in between is marked for recovery from the stale record, and a
  recovery worker restores the snapshot of the completed release
  (`StaleReads.StaleReadReversesCompletion`, with a run to it in
  `StaleReads.StaleReadArises`). `StaleReads.SafeIffUpToDate` gives the exact
  comparison with the record read again under which acting on the first read is
  safe: the invariant survives, and nothing is taken back that no step of the
  protocol takes back (outcome, blocked versions, relaunched process and its
  stage, restart). Whether it is safe in one particular state can also depend on
  what the service does not see, such as a setup program that happened to write
  nothing; the condition is therefore exact over all states of the invariant the
  service cannot tell apart. Those states need not be reachable: in the "only if"
  half the unsafe one is a machine that looks the same, not necessarily one that
  some run leads to. A record that passes leaves exactly the same operations
  closable as before (`StaleReads.UpToDateClosesAlike`).
- Finalization records the suspended application process before resuming it and
  never starts a second one. If that process disappears before it is resumed,
  every replay throws, the operation stays pending, and no update can be
  prepared, cancelled, started or installed by hand again
  (`LostChild.LostChildBlocksForever`).
- Cancelling a preparation removes the directory of its operation, but
  `recoverApplication` is still accepted for it: it sets the boot guard, and then
  no worker can be dispatched (`LostChild.StuckForever`).
- A recovery demands the `workerSha256` that only the first spawn of a worker puts
  on record. A crash of the service between the save of a request and that of the
  hash, or any failure there of a restart, leaves a record that is marked for
  recovery and can never be recovered (`LostChild.UnhashedForever`,
  `Recoverability.HashIsMissed`, with a run without any crash in
  `Recoverability.UnhashedArises`).
- These three are the only dead ends: from every other reachable state some
  schedule ends with an outcome finalized and the guard released
  (`Recoverability.ClosesIffNotLost`).
- The cooldown after a restart belongs to the record of the operation and compares
  version strings. Preparing and cancelling another version, be it the same one
  with another leading zero, replaces the record, and the restarted version is
  accepted again at once. That is possible exactly as long as the authorization
  is not revoked and the operation is in none of the dead ends
  (`Cooldown.BypassedIffOpen`).
- `verify_tree` does not see files that are in the tree and not in the inventory
  (`Trees.VerifiedSnapshotIsExact`).
- The C++ validator truncates `data.schema` to 32 bits, so a schema that is a
  multiple of 2^32 can be signed and is refused by every updater
  (`Manifest.SchemaCanBeLost`).
- Publication is bound to the remote tag exactly when the clone has fetched it:
  a rejected push leaves the local tag behind, and the next run publishes assets
  built from another commit under the remote tag
  (`Publish.AlwaysBoundIffSynced`). An interruption between `git tag` and
  `git push` cannot be resumed (`Publish.StrandedForever`).

## Model

| member | source | states |
|---|---|---|
| `Runs.StepKeeps` | windows/updater/worker_main.cpp:299-455 | every step of the worker, the service and the rest of the machine keeps the inductive invariant |
| `Runs.ReachableInv` | windows/updater/worker_main.cpp:339-455 | every state of every run satisfies the invariant |
| `Runs.RunAdvances` | windows/updater/service_main.cpp:161-266 | along every run history and blocked versions only grow, healthy versions only increase, recorded outcomes, relaunches, restarts and worker hashes stay, and a new operation has an id never used before |
| `WorkerProofs.WorkerKeeps` | windows/updater/worker_main.cpp:256-455 | whatever step a worker takes, including crashes, failing saves and exceptions, its part of the invariant survives |
| `ServiceProofs.ServiceKeeps` | windows/updater/service_main.cpp:130-391 | whatever step the service takes, including failed and interrupted spawns, the invariant survives |
| `EnvironmentProofs.EnvKeeps` | windows/runner/main.cpp:282-287 | the application, which does not start while the guard is present, the setup program, the validation child and a revocation keep the invariant |
| `Theorems.RollbackRestoresEverything` | windows/updater/worker_main.cpp:299-334 | when a rollback records `restoringUserData`, bundle, data and baseline are the snapshot's, the policy is the snapshot's except `enabled`, and nothing differs from a machine the operation never touched |
| `Theorems.RolledBackRunLeavesNoTrace` | windows/updater/worker_main.cpp:299-334 | from before the installer to that moment, however often setup wrote and the restoration was interrupted, all four resources end as they began |
| `Theorems.DeferralTouchesNothing` | windows/updater/worker_main.cpp:346-356 | an operation that is deferred, or has not reached its installer, has left all four resources untouched |
| `Theorems.DeferredRunLeavesNoTrace` | windows/updater/worker_main.cpp:392-423 | from dispatch to deferral through any crashes and recoveries the resources are unchanged |
| `Theorems.CompletionIsFinal` | windows/updater/worker_main.cpp:365-385 | once `completed` is durable, no later step of any run restores its snapshot or blocks its version, and the policy and the baseline name the new release |
| `Theorems.EnteredBySave` | windows/updater/worker_main.cpp:11-15 | only a worker's save makes the journal enter a state the service never writes |
| `Theorems.GuardIdentity` | windows/updater/service_main.cpp:305-306 | a present guard names the journal's operation, and no operation is in flight or interrupted without it |
| `Theorems.RecoveryIsTotal` | windows/updater/worker_main.cpp:392-423 | every record marked for recovery has a branch in `recover`, and the snapshot it needs exists |
| `Theorems.NoDeadEnd` | windows/updater/worker_main.cpp:299-323 | `recovery_snapshot_unavailable` and `automatic_rollback_unavailable` are dead branches: with no application running, the worker can proceed at every point of the restoration |
| `Theorems.AtMostOneRelaunch` | windows/updater/worker_main.cpp:17-57 | at most one application process is ever resumed per operation, and it is the recorded one |
| `Theorems.NoRestoreDuringSetup` | windows/updater/worker_main.cpp:269-293 | no restored byte is written while a resumed setup program or an application process is alive |
| `Theorems.AtMostOneWorker` | windows/updater/service_main.cpp:130-160 | two running workers are the same, and then no request is in progress |
| `Theorems.SingleWriter` | windows/updater/service_main.cpp:161-186 | the service changes the journal or the machine only while no worker runs |
| `Theorems.ContractOff` | windows/updater/service_main.cpp:342-344 | with the contract flag off no run snapshots, installs, verifies or restores, all worker activity is restart-only, and no resource is changed |
| `Theorems.RestartedOnce` | windows/updater/service_main.cpp:285-301 | once a restart is recorded for an operation, no later state of any run accepts `recoverApplication` for it; a request stopped before its record is saved may be repeated |
| `Theorems.CooldownHolds` | windows/updater/service_main.cpp:225-227 | after a restart the same version is not prepared again before the retry time as long as the journal is about that operation |
| `Cooldown.BypassedIffOpen` | windows/updater/service_main.cpp:225-260 | within the cooldown the restarted version can be prepared again if and only if the policy is still enabled and the operation is not lost, stuck or unhashed; and that is the same as that some other version can be prepared before the cooldown ends |
| `Cooldown.BypassArises` | windows/updater/service_main.cpp:257-275 | for any two later versions a run restarts the one, prepares and cancels the other, and prepares the first again within its cooldown |
| `Theorems.BlockedOnlyGrows` | windows/updater/worker_main.cpp:329-332 | blocked versions only grow, without duplicates and up to 1024 |
| `Theorems.RolledBackIsNeverPrepared` | windows/updater/service_main.cpp:240-243 | a version string that was rolled back is never prepared again |
| `Theorems.HealthyIncreases` | windows/updater/service_main.cpp:245-246 | successive last healthy versions strictly increase |
| `Theorems.OutcomeIsFinal` | windows/updater/finalization.h:8-20 | a recorded update outcome is never changed or contradicted |
| `ManualInstall.ManualCheckIsSafe` | windows/updater/client_main.cpp:34-70 | when the manual check passes, no setup or validation child runs, a live worker only finishes a terminal outcome, and no run without a new `start` changes bundle, data, baseline or policy |
| `ManualInstall.AutomaticCheckIsSafe` | windows/updater/client_main.cpp:57-66 | the automatic check passes only as LocalSystem in `installing`, with the guard present and a matching snapshot |
| `ManualInstall.CheckNeverInvalid` | windows/updater/client_main.cpp:40-55 | no run leaves a journal or a guard that the check reports as invalid or orphaned |
| `StaleReads.FreshReadIsSafe` | windows/updater/service_main.cpp:161-182 | reconciling a current record is the protocol's step, keeps the invariant and takes nothing back |
| `StaleReads.SafeIffUpToDate` | windows/updater/service_main.cpp:161-182 | for every record read while its worker ran and acted on after the worker died: in all states of the invariant the service cannot tell apart, acting keeps the invariant and takes back no outcome, blocked version, relaunch or restart, if and only if the record passes a comparison with the record read again and the guard |
| `StaleReads.UpToDateClosesAlike` | windows/updater/service_main.cpp:161-182 | after acting on a record that passes, the operation can be brought to an end if and only if it could before |
| `StaleReads.UnchangedIsUpToDate` | windows/updater/service_main.cpp:161-182 | a record that has not changed passes the comparison |
| `StaleReads.StaleReadReversesCompletion` | windows/updater/service_main.cpp:161-192 | whenever a record of an installation in progress was read before its operation completed, acting on it has a continuation in which the completed operation's snapshot is restored |
| `StaleReads.StaleReadArises` | windows/updater/service_main.cpp:163-164 | such a read exists in a run of the update to any later version |
| `Recoverability.ClosesIffNotLost` | windows/updater/worker_main.cpp:392-455 | from every reachable state with an operation some schedule ends with its outcome recorded and finalized and the guard released if and only if the recorded child is not lost, the directory is not gone under a guard, and no request has ended without the hash of its worker |
| `Recoverability.RestartClosesIffKept` | windows/updater/service_main.cpp:276-309 | an accepted restart can be carried out if and only if the directory of the operation is still there |
| `Recoverability.ChildCanBeLost` | windows/updater/worker_main.cpp:48-56 | for every worker about to resume the child, the child's exit is enough to lose the operation |
| `Recoverability.LostArises` | windows/updater/worker_main.cpp:17-57 | a run of the update to any later version leads to a lost child |
| `Recoverability.StuckArises` | windows/updater/service_main.cpp:112-129 | prepare, cancel, discard and a restart request lead to a guard without a directory |
| `Recoverability.HashIsMissed` | windows/updater/service_main.cpp:135-143 | between the save of a request and that of the first hash every crash of the service, and every failure unless of `start`, leaves the operation unhashed |
| `Recoverability.UnhashedArises` | windows/updater/service_main.cpp:276-309 | prepare and a restart request whose worker is not accepted lead there without any crash |
| `LostChild.LostChildBlocksForever` | windows/updater/worker_main.cpp:36-41 | once the recorded suspended child is gone, no later run accepts a request or allows a manual install |
| `LostChild.StuckForever` | windows/updater/service_main.cpp:144-158 | once the guard is set for a removed directory, it stays, no worker runs again, and no update or manual install is accepted |
| `LostChild.UnhashedForever` | windows/updater/service_main.cpp:135-143 | once a request has ended without the hash of its worker, no worker runs again, and no request or manual install is accepted |
| `Possibility.EveryLaterVersionCanBeInstalled` | windows/updater/worker_main.cpp:339-391 | with the contract on, from every authorized initial state every later version can run through to a finalized completion with any installed contents |
| `WorkerSteps.AlongKeeps` | windows/updater/worker_main.cpp:339-455 | the invariant holds along every execution of one worker interleaved with the world |
| `WorkerProcess.ProcessKeepsInvariant` | windows/updater/worker_main.cpp:425-455 | the worker program, started where the invariant holds, is never where it does not |
| `WorkerProcess.ReachableStart` | windows/updater/service_main.cpp:144-160 | every worker of a reachable state is started there |
| `WorkerProcess.Process.Save` | windows/updater/worker_main.cpp:11-15 | the journal becomes the record in memory, or the save fails before or after the replacement, as the protocol's save steps do |
| `WorkerProcess.Process.FinalizeTerminal` | windows/updater/finalization.h:8-20 | every execution is a trace of finalization steps; success leaves a durable terminal record that is no longer pending |
| `WorkerProcess.Process.ReleaseBootGuard` | windows/updater/worker_main.cpp:58-66 | the guard is removed only if it names the operation, as one protocol step and one save |
| `WorkerProcess.Process.RelaunchRegisteredApplication` | windows/updater/worker_main.cpp:17-57 | resuming the recorded child, or creating, recording and resuming one, is a trace of relaunch steps |
| `WorkerProcess.Process.LaunchOriginalUser` | windows/updater/worker_main.cpp:67-106 | the validation child is created, recorded, resumed and awaited as a trace of protocol steps |
| `WorkerProcess.Process.WaitForSetup` | windows/updater/worker_main.cpp:279-297 | the setup program is awaited, past the deadline too, and left only dead or with the worker |
| `WorkerProcess.Process.Update` | windows/updater/worker_main.cpp:357-385 | snapshot, install, verify and promote are a trace of protocol steps ending before the finalization of `completed` |
| `WorkerProcess.Process.Execute` | windows/updater/worker_main.cpp:339-391 | `execute` is a trace of protocol steps; success leaves a durable terminal record |
| `WorkerProcess.Process.Rollback` | windows/updater/worker_main.cpp:299-338 | `rollback` is a trace of protocol steps; success leaves a durable terminal record |
| `WorkerProcess.Process.Recover` | windows/updater/worker_main.cpp:392-423 | `recover` is a trace of protocol steps; success leaves a durable terminal record |
| `WorkerProcess.Process.HandleException` | windows/updater/worker_main.cpp:433-446 | the handler of `wmain` is a trace of protocol steps and ends with an outcome or a record marked for recovery |
| `WorkerProcess.Process.Run` | windows/updater/worker_main.cpp:425-455 | the whole worker is a trace of protocol steps; unless it is cut short it leaves a terminal record or `recoveryRequired` |
| `ServiceProcess.ServiceStaysReachable` | windows/updater/service_main.cpp:193-391 | the service program never leaves the reachable states, so all theorems hold of it |
| `ServiceProcess.Service.CheckPrepare` | windows/updater/service_main.cpp:218-247 | the checks of `prepare` pass exactly when the protocol allows the preparation; an existing preparation is acknowledged to its owner for the same manifest |
| `ServiceProcess.Service.Prepare` | windows/updater/service_main.cpp:218-263 | `prepare` succeeds exactly when allowed and then installs the new record and directory; otherwise nothing changes |
| `ServiceProcess.Service.Cancel` | windows/updater/service_main.cpp:264-275 | `cancel` defers the record exactly when allowed and then discards the staged files, and with them the directory of an operation no worker has saved to |
| `ServiceProcess.Service.DiscardCancelled` | windows/updater/service_main.cpp:112-129 | the directory goes exactly when the record is a cancelled preparation and nothing prevents the deletion |
| `ServiceProcess.Service.CheckRestart` | windows/updater/service_main.cpp:264-288 | the checks of `recoverApplication` pass exactly when the protocol allows the restart |
| `ServiceProcess.Service.CheckStart` | windows/updater/service_main.cpp:337-357 | the checks of `start` pass exactly when the protocol allows the start |
| `ServiceProcess.Service.RecoverApplication` | windows/updater/service_main.cpp:276-309 | success means the restart was allowed and a recorded worker is running for it; a refusal changes nothing |
| `ServiceProcess.Service.Start` | windows/updater/service_main.cpp:337-391 | success means the start was allowed and a recorded worker is running for it; a refusal changes nothing |
| `ServiceProcess.Service.SpawnWorker` | windows/updater/service_main.cpp:130-160 | the worker is hashed, the hash saved, the worker created suspended, recorded and only then resumed; success leaves the hash on record, a recovery without one always fails, and every failure leaves no request in progress |
| `ServiceProcess.Service.FailSpawn` | windows/updater/service_main.cpp:381-388 | a failed `start` takes its request back; a failed restart leaves its record as it was saved and a failed recovery leaves its own marked, either of them recoverable exactly when the hash is on record |
| `ServiceProcess.Service.Reconcile` | windows/updater/service_main.cpp:161-192 | nothing happens while the recorded worker lives; otherwise discarding, marking and spawning are protocol steps, and a recovery worker is spawned only for a record with the hash |
| `ServiceProcess.Service.MarkInterrupted` | windows/updater/service_main.cpp:169-182 | the record is marked for recovery exactly when a dead worker or an unfinished finalization left it, and nothing else changes |
| `Trees.CopyTree` | windows/updater/worker_main.cpp:132-150 | a finished copy adds exactly the source's files and inventories them; an existing file is never overwritten |
| `Trees.DeleteContents` | windows/updater/worker_main.cpp:151-165 | a finished deletion leaves nothing, an interrupted one a subset |
| `Trees.VerifyTree` | windows/updater/worker_main.cpp:195-202 | passes exactly when every inventoried file is there with its digest and size |
| `Trees.RestoreTree` | windows/updater/worker_main.cpp:203-215 | success makes the target the source, file for file; a damaged snapshot or foreign target is refused before anything is deleted; only an interruption prevents success otherwise |
| `Trees.RestoreRepeatedly` | windows/updater/worker_main.cpp:203-215 | after any interrupted attempts the first uninterrupted one restores the source |
| `Trees.TakeSnapshot` | windows/updater/worker_main.cpp:228-247 | a finished snapshot adds the source's files and inventories them; it fails only over files that were already there |
| `Trees.SnapshotAndRollback` | windows/updater/worker_main.cpp:216-338 | snapshot, arbitrary writes and a restoration interrupted any number of times give back the original tree |
| `Trees.VerifiedIffContains` | windows/updater/worker_main.cpp:195-202 | a tree passes against an inventory if and only if it contains the original files unchanged |
| `Trees.VerifiedSnapshotIsExact` | windows/updater/worker_main.cpp:195-202 | a passing tree is the original exactly when no file was added |
| `Versions.WellFormedIffMatches` | windows/updater/contract.h:77-79 | the parser accepts exactly the language of the version pattern |
| `Versions.ParseRender` | windows/updater/contract.h:77-79 | parsing inverts rendering, so the four fields are unique |
| `Versions.StrippedOrder` | windows/updater/contract.h:87-96 | comparing digit strings without leading zeros by length and then by characters is the order of the numbers, for any number of digits |
| `Versions.NewerVersion` | windows/updater/contract.h:76-100 | the loop returns the strict lexicographic order of the four numbers and refuses malformed versions |
| `Versions.NewerIrreflexive` | windows/updater/contract.h:76-100 | no version is newer than itself |
| `Versions.NewerTransitive` | windows/updater/contract.h:76-100 | the order is transitive |
| `Versions.NewerTotal` | windows/updater/contract.h:76-100 | two versions are ordered or numerically equal |
| `Quoting.Quote` | windows/updater/win_security.cpp:294-302 | the loop with the backslash counter computes the escaping of each run |
| `Quoting.SplitCommandLine` | windows/updater/win_security.cpp:294-302 | for every list of strings, splitting the quoted, space-separated command line by the Microsoft argument rules returns the list |
| `Quoting.CommandLineInjective` | windows/updater/win_security.cpp:294-302 | different argument lists have different command lines |
| `Pipes.Transfer` | windows/updater/win_security.cpp:373-396 | under any schedule of partial transfers the bytes moved are the first ones in order and once; success means all of them; never more rounds than bytes |
| `Pipes.Send` | windows/updater/win_security.cpp:397-408 | success means exactly one frame was written, failure a prefix of it; empty and oversized messages are not sent; the receipt makes no difference |
| `Pipes.Receive` | windows/updater/service_main.cpp:416-419 | a received message and what is left make up what arrived; an oversized length is refused |
| `Pipes.FramesAreUnambiguous` | windows/updater/win_security.cpp:397-402 | a frame determines its message, whatever follows it |
| `Pipes.Deliver` | windows/updater/service_main.cpp:416-428 | a message sent and received successfully is unchanged, however the transfers were split |
| `Patterns.VersionPatternIff` | tool/updater/manifest.py:28-29 | the version pattern describes exactly the strings the version comparison parses |
| `Patterns.AsciiTransparent` | windows/updater/contract.h:107-139 | a string is ASCII if and only if its UTF-8 bytes are, and then they are the string |
| `Manifest.ValidateManifest` | windows/updater/contract.h:107-139 | the C++ checks accept exactly the manifests of their specification |
| `Manifest.RequireFields` | windows/updater/contract.h:102-105 | comparing the number of fields and looking each one up is equality of the key sets |
| `Manifest.IsHex` | windows/updater/contract.h:54-56 | the scan accepts exactly the hexadecimal strings of that length |
| `Manifest.ValidateItems` | windows/updater/contract.h:131-138 | the loop with the set of names accepts exactly the lists of distinct capability names |
| `Manifest.HexMatches` | tool/updater/manifest.py:33-42 | the character scan and the pattern accept the same strings |
| `Manifest.CapabilityMatches` | tool/updater/manifest.py:50-51 | the character loop and the pattern for capabilities accept the same strings |
| `Manifest.DistinctIffSetSize` | tool/updater/manifest.py:48-49 | comparing the length of a list with the size of its set is the absence of duplicates |
| `Manifest.ValidatorsAgree` | tool/updater/manifest.py:24-54 | for every JSON value the C++ validator accepts it if and only if the Python one does, `size` and `schema` are below 2^64 and `schema` is not a multiple of 2^32 |
| `Manifest.SchemaCanBeLost` | windows/updater/contract.h:127-130 | changing the schema of any signable manifest to a multiple of 2^32 keeps it signable and makes the updater refuse it |
| `VersionInfo.Block` | tool/release/windows_version_info.py:34-41 | packing fails exactly when the block exceeds a 16-bit length, and lays out key, value and children at the walker's offsets |
| `VersionInfo.EncodeFits` | tool/release/windows_version_info.py:34-41 | every block has a length divisible by four, and a tree is packed if and only if it fits 16 bits |
| `VersionInfo.DecodeEncode` | tool/release/windows_version_info.py:34-63 | walking a packed tree returns the tree and what follows it |
| `VersionInfo.RoundTripIff` | tool/release/windows_version_info.py:34-63 | a packed tree comes back if and only if its keys are free of NUL and its text values have even length |
| `VersionInfo.PropertiesReadBack` | tool/release/windows_version_info.py:92-121 | every property of every such resource is found through its own translation entry |
| `VersionInfo.VersionResourceReadsBack` | tool/release/windows_version_info.py:44-63 | if `version_resource` returns, its eight properties and the fixed version information can be read back from the bytes |
| `Publish.Publisher.Publish` | tool/release/publish_release.py:126-165 | the commands of a run, stopped anywhere, change tag, draft and assets as the run's specification says; the remote tag stays, a public release is unchanged, and going public means the verified artifacts |
| `Publish.PublicationIsFinal` | tool/release/publish_release.py:126-165 | over any sequence of runs the remote tag stays and a public release stays as it is |
| `Publish.AlwaysBoundIffSynced` | tool/release/publish_release.py:54-68 | no sequence of interrupted runs ever publishes assets not bound to the remote tag if and only if the clone has that tag |
| `Publish.StrandedForever` | tool/release/publish_release.py:141-159 | after an interruption between tagging and pushing, no sequence of runs changes anything |

## Left out

- Journal reads and the liveness question of the service are one step, as is the worker's reading and rewriting of the policy; `StaleReads` shows what the first of these assumes.
- Checks that only reject (signatures, publishers, ACLs, reparse points, protected trees, sessions, free disk space, health nonces, capabilities, channel) appear as an operation that may always fail, or as a Boolean parameter of a request.
- `TerminateProcess` is not assumed to succeed: a suspended child whose creation failed to be recorded stays, which only adds runs.
- Reasons, exit codes, nonces, session ids, `bootReleased`, `binaryHashes` and the copies in `job.json` are not represented; no modelled decision depends on them. Of `workerSha256` only its presence is: that the worker no longer has the recorded hash is one of the failures a spawn may always have.
- The setup program writes the bundle, the data and the baseline in any way but not the policy, which in the model only the worker and the administrator write; "whatever setup wrote" means those three.
- The snapshot is taken in one step of the protocol, because an incomplete one is never used; its copying, with interruptions, is `Trees`. Empty directories and attributes are not represented.
- `retain_confirmed_snapshots` may delete any operations but the worker's own; the order by age is not modelled.
- Of a discarded preparation only the removal of its directory is represented; the deleted files are of no use to a deferred operation.
- The schedules of `Recoverability` may end processes, among them a suspended worker that a stopped service has left behind and that the service otherwise takes for alive.
- The requests `status`, `capabilities`, `validationContext`, `health` and `restored` change nothing that is modelled; what the validation child reports decides only whether the worker's wait succeeds.
- Enrollment, manifest-policy migration, service registration and a manual reinstallation are not steps of the protocol.
- Deadlines and retry intervals are nondeterministic, except `retryAfterUnixMillis`, which is compared with the time of the request.
- ServiceProcess.Service.Prepare: the checks of the manifest, the channel, the capabilities and the installer are one Boolean and one code; ServiceProcess.Service.Start and ServiceProcess.Service.RecoverApplication do the same with the identity of the application, the session and the secrets.
- ManualInstall.CheckNeverInvalid: operation ids and SIDs are typed, so the syntax of `operationId` and `clientSid` is not represented.
- VersionInfo.VersionResourceReadsBack: version components are ASCII digits, while Python's `\d` also accepts other decimal digits; the suffix-free file name is a parameter; editing the executable and its overlay are not modelled.
- Parsing of JSON text, duplicate keys, canonical form and Ed25519 are outside the model; manifests are JSON values, and object keys are compared as code points.
- Publish.Publisher.Publish: a command that fails without effect is an interruption before it; the push of `main`, release notes and the `latest` mark are not represented.
- The Flutter application, the installer build, the feed, benchmarks and git hooks are not part of this model; of the runner only that a present guard prevents a normal start is used.
