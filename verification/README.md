# Kuasar: a verified model

Kuasar runs pods in sandboxes: micro-VMs, or plain processes, that a *sandboxer* on the host starts,
restores from snapshots, and deletes, with a *task agent* inside each guest. This project models the parts
of it where a mistake would be hard to see by reading, and proves what they guarantee for every input, every
pattern of failures and every interleaving.

| module | what it models |
|---|---|
| `InjectTask` | one WarmFork injection: the agent's two phases, its reply, the host's check of the reply |
| `WarmForkProtocol`, `WarmForkRollback` | agent and workloads as a state machine: any number of requests, targets and probes, messages in flight, closes and timeouts anywhere |
| `Templates`, `TemplateRefs` | the reference counters of the template pool over every run of restores, failed restores, deletes, evictions, crashes and recoveries, in either lease mode |
| `TemplateEviction`, `TemplateFiles`, `TemplateFailures` | which templates those runs can evict, exactly when the files of every VM stay, and runs in which they do not |
| `RestoreFlow` | one restore and one delete, statement by statement, with a failure possible at every call |
| `StartPolicy` | which snapshots `start` tries, and when it boots afresh |
| `ExitCodeParser`, `ShellQuote` | `kuasar-ctl exec`: the exit marker in the output stream, the quoting of the command |
| `Framing` | length-prefixed messages under any segmentation of the stream |
| `ForkRequest`, `ForkProtocol` | the 512-byte fork request, and the two processes that exchange it through pipes |
| `Cpuset`, `CpusetLoss` | CPU lists as text, their merge, and when the merge loses CPUs |
| `LinkRename` | renaming the guest's network links |
| `Fletcher` | the checksum of a DAX info block |
| `RuntimeLog` | the backward and the forward search for the last runtime error |
| `Storages` | reference-counted storage mounts |
| `ClockSync` | the estimate and correction of the guest's clock |

`Wrappers`, `Basics` and `Numbers` hold a few shared types, facts and decimal text.

State that the program updates in place is a class whose methods are proved against functions of the old
state; the laws are then lemmas about those functions. The two protocols and the reference counters are
transition systems with an inductive invariant. Lemmas switch automatic induction off, so that each is proved by
its own body.

## What the code does not guarantee

Several properties one would expect hold only under a condition. In each case the code is modelled as it is,
a lemma exhibits the failure, and the condition is proved:

- The host's count and id-set guards force a one-to-one match of results to tasks exactly when the requested
  container ids are all different (or all equal): `InjectTask.GuardsForceMatch`, `InjectTask.GuardsMiss`.
- An injection that commits nothing cancels the targets it counted READY if and only if its prepare phase did not
  time out (`WarmForkRollback.RollbackIsComplete`); after a timeout a READY workload is left waiting
  (`WarmForkRollback.TimeoutLeavesReady`). The document
  `docs/proposals/warmfork_readiness_and_injection_protocol.md` (line 394) says a timeout sends CANCEL; the model
  follows the code.
- A template that backs a sandbox can be chosen for eviction if and only if it is a WarmFork template in the pool, the
  pool is Exclusive and the eviction is by kind (`TemplateEviction.BackingIsEvictable`). The lease mode is read again at
  every start, so this happens: a sandbox restored under Shared survives a restart under Exclusive, and then its files go
  by an eviction (`TemplateFailures.ModeChangeLosesFiles`) or by the delete of a second sandbox that takes the same
  template exclusively (`TemplateFailures.ModeChangeSharesExclusive`). While the mode stays the same it cannot
  (`TemplateEviction.BackingIsNotEvictable`).
- A VM goes on needing the files of its template if it pages its memory in from them, or if its disks are links to them,
  as after an Exclusive WarmFork restore of a template with disk images; one whose memory was copied and whose disks are its
  own needs none. The files of a VM that needs them can be lost in three ways. A restore acquires a template already
  chosen for eviction, whose directory is removed afterwards; a restart takes such a sandbox restored under Shared into an Exclusive pool that holds its template; or
  such a VM is left that no sandbox records, because a rollback gave the pin back without stopping it, because its sandbox was
  restored again, or because it outlived a restart (`TemplateEviction.EvictableExactly` says when its template is chosen).
  After any run without such steps the files of every such VM are there (`TemplateFiles.VmFilesStay`, and for recorded VMs
  `TemplateFiles.BackingFilesStay`), and any such step can be followed by a loss, so the condition is exact:
  `TemplateFiles.SafeExactly`. Concrete runs are `TemplateFailures.WindowIsReachable` and `TemplateFailures.StrayLosesFiles`
  besides the two above.
- Restoring by template id a template of the wrong kind counts a restore that does not end until the sandboxer restarts,
  and blocks the eviction of that template until then: `TemplateEviction.LeakBlocksEviction`,
  `TemplateFailures.LeakIsReachable`.
- Restoring a sandbox that holds a reference already overwrites its record, and the reference stays counted until a restart.
  The count is the live pins and shared leases if and only if that has not happened since the last restart
  (`TemplateEviction.LostExactly`, `TemplateEviction.CountsWithoutLoss`); it does happen
  (`TemplateFailures.LossIsReachable`) and then keeps the template from
  every eviction but one by kind from an Exclusive pool (`TemplateEviction.LossBlocksEviction`).
- A restore that fails after its VM ran leaves the sandbox marked running, with its VM and network gone unless the stop
  failed; one that fails before the metadata is written leaves old metadata as it was:
  `RestoreFlow.Sandbox.StartFromSnapshot`.
- With environment restore switched off an Environment template is restored all the same, exactly if the pod gives a
  template key and no template id, under an explicit warm-fork type or none, and the key finds one: `StartPolicy.Start`,
  `StartPolicy.SwitchedOffButRestored`. A WarmFork template is never restored with warm-fork restore off.
- A network namespace path that fills its 448-byte field is read as empty: `ForkRequest.RoundTrip`. A call whose parent
  process dies returns a pid all the same: `ForkProtocol.DeadParentAnswersZero`.
- Merging CPU lists can lose CPUs when a range of the second list meets an earlier one without lying within it
  (`Cpuset.MergeIsUnion`, `Cpuset.TwoRanges`). Whether a second list is safe with every first list is decided by the
  first lists of at most two ranges: `CpusetLoss.TwoSuffice`.
- Renaming links fails if a temporary name is taken when it is needed; the loop's exact condition is
  `LinkRename.UpdateInterfaces`.
- The backward log scan never looks at the first line: `RuntimeLog.ScansAgree`, `RuntimeLog.SingleErrorIsMissed`.
- A storage is released when the containers it *arrived* referring to are, not those that use it. A mount outlives its uses
  if it arrives with the reference of a container that is gone: `Storages.NewEntrySurvives`, `Storages.ArrivalAgrees`,
  `Storages.StaleReferenceLeaks`.

## Model

| member | source | states |
|---|---|---|
| InjectTask.PrepareOne | vmm/task/src/sandbox_service.rs:633-724 | A target is good exactly if it connected, offered the right version, took PREPARE and answered READY; every failure is a prepare-phase result under the target's own id and never STARTED. |
| InjectTask.CommitOne | vmm/task/src/sandbox_service.rs:726-768 | Good exactly if COMMIT was written and STARTED came back; failures are commit-phase results of the same id. |
| InjectTask.AutonomousOne | vmm/task/src/sandbox_service.rs:770-841 | Without PREPARE: good exactly if connected, right version and STARTED. |
| InjectTask.Partition | vmm/task/src/sandbox_service.rs:366-379 | The loop splits the outcomes into ready ids and failed results, in order. |
| InjectTask.InjectTask | vmm/task/src/sandbox_service.rs:246-458 | The branches of the coordinator give the reply, the committed and the cancelled targets of the specification `Coordinate`. |
| InjectTask.PartitionKeepsIds | vmm/task/src/sandbox_service.rs:366-379 | No id is lost or invented by the split. |
| InjectTask.RolledBackKeepsIds | vmm/task/src/sandbox_service.rs:381-410 | The rolled-back reply holds each outcome's id as often as the outcomes do. |
| InjectTask.ReplyKeepsIds | vmm/task/src/sandbox_service.rs:275-458 | In every branch the ids of the reply are, as a multiset, those of the request. |
| InjectTask.CoordinatorIsTwoPhase | vmm/task/src/sandbox_service.rs:331-458 | COMMIT goes to all targets or none, only after every READY; CANCEL goes to exactly the READY targets if some target failed and to nobody otherwise; the reply is all STARTED exactly when both phases were good; a prepare-phase result exactly when nothing was committed. |
| InjectTask.HostCheck | vmm/sandbox/src/sandbox.rs:1603-1655 | The three guards as coded decide: same count, same set of ids, all STARTED. |
| InjectTask.HostAcceptsAgentReply | vmm/sandbox/src/sandbox.rs:1603-1655 | The host accepts a reply the agent can build exactly when every target answered READY and STARTED. |
| InjectTask.HostAcceptsAutonomousReply | vmm/sandbox/src/sandbox.rs:1603-1655 | The same for autonomous mode, whose results are all of the commit phase. |
| InjectTask.GuardsForceMatch | vmm/sandbox/src/sandbox.rs:1603-1639 | The count and id-set guards force equal multisets of ids if and only if the requested ids are all different or all equal. |
| InjectTask.GuardsMiss | vmm/sandbox/src/sandbox.rs:1603-1639 | Otherwise some wrong reply passes them: for every such request one is constructed. |
| InjectTask.AcceptedMeansEachStarted | vmm/sandbox/src/sandbox.rs:1603-1655 | With different ids, an accepted reply has for every task exactly one result, and it is STARTED. |
| WarmForkProtocol.StepInv | vmm/task/src/sandbox_service.rs:246-458 | Every step of agent or workload keeps the protocol invariant. |
| WarmForkProtocol.RunInv | vmm/task/src/sandbox_service.rs:246-458 | The invariant holds in every state of every run. |
| WarmForkProtocol.TwoPhaseSafety | vmm/task/src/sandbox_service.rs:331-458 | In injection mode no COMMIT is sent, no STARTED answered and no task begun unless every target of the request answered READY; no request sends both COMMIT and CANCEL. |
| WarmForkProtocol.BegunWithItsTask | examples/warmfork-workload/python/warmfork.py:73-218 | A workload that began was sent COMMIT by an injection to its own socket and holds the non-empty task it was prepared with (none in autonomous mode); one that exited was sent CANCEL. |
| WarmForkProtocol.ProbesChangeNothing | examples/warmfork-workload/python/warmfork.py:113-130 | Any number of probes leaves every workload waiting. |
| WarmForkProtocol.EmptyTaskIdBlocks | examples/warmfork-workload/python/warmfork.py:169-212 | One empty task id in an injection keeps COMMIT from all its targets. |
| WarmForkProtocol.HostVerdictIsTrue | vmm/sandbox/src/sandbox.rs:1603-1655 | If the host accepts a reply, every target's workload has begun on that request; a prepare-phase result means no target was sent COMMIT. |
| WarmForkProtocol.PrepareTimeoutIsSilent | vmm/task/src/sandbox_service.rs:346-366 | After a prepare timeout neither COMMIT nor CANCEL was sent to anyone. |
| WarmForkRollback.RunRoll | vmm/task/src/sandbox_service.rs:366-410 | In every run, each connection of a request being rolled back has the outcome it was counted with, and is cancelled or failed once the request is done. |
| WarmForkRollback.RollbackIsComplete | vmm/task/src/sandbox_service.rs:346-410 | In every run, a finished injection that committed nothing has cancelled a target counted READY if and only if its prepare phase did not time out; otherwise the cancelled targets are exactly the good ones. |
| WarmForkRollback.TimeoutLeavesReady | vmm/task/src/sandbox_service.rs:346-366 | A concrete run: one target READY, one silent, a timeout; the READY workload still waits for COMMIT. |
| WarmForkRollback.PrepareIsSteps | vmm/task/src/sandbox_service.rs:633-724 | The outcome of `inject_prepare_one` is that of the protocol steps, for every pair of messages and every connection error. |
| WarmForkRollback.CommitIsStep | vmm/task/src/sandbox_service.rs:726-768 | The same for `inject_commit_one`. |
| WarmForkRollback.AutonomousIsSteps | vmm/task/src/sandbox_service.rs:770-841 | The same for `inject_autonomous_one`. |
| Templates.Increment | vmm/sandbox/src/template/pool.rs:980-994 | Raises one count by one and no other. |
| Templates.Decrement | vmm/sandbox/src/template/pool.rs:936-978 | Lowers one positive count by one, ignores an unknown one, keeps no zero entries. |
| Templates.UpThenDown | vmm/sandbox/src/template/pool.rs:936-994 | Counting up and down again restores the counter map exactly. |
| Templates.FailUndoesAcquire | vmm/sandbox/src/template/pool.rs:151-168 | Failing a lease of any kind brings back the pool as it was before the acquire. |
| TemplateRefs.RebuildActiveRefs | vmm/sandbox/src/template/pool.rs:996-1026 | Each id counts as often as the two lists hold it. |
| TemplateRefs.RecoverRefs | vmm/sandbox/src/sandbox.rs:344-374 | After recovery each template counts the recovered sandboxes that own a reference to it, in whatever order they are visited. |
| TemplateRefs.ReleaseMatchesRebuild | vmm/sandbox/src/sandbox.rs:754-789 | For any metadata, what recovery counts is what delete releases, namely the WarmFork-Shared and Environment-non-Copy references. |
| TemplateRefs.StepInv | vmm/sandbox/src/sandbox.rs:838-971 | Every step, a crash and a recovery in either lease mode included, keeps the accounting invariant. |
| TemplateRefs.RunInv | vmm/sandbox/src/sandbox.rs:244-381 | The invariant holds after every run. |
| TemplateRefs.CountsAreExact | vmm/sandbox/src/sandbox.rs:332-374 | After every run, with restarts in either lease mode and rollbacks whose stop fails, the lifetime count is the number of live sandboxes pinning the template plus the shared leases in flight plus the references overwritten by a second restore; the in-flight count is the restores in progress plus the leaked ones. |
| TemplateEviction.EvictableExactly | vmm/sandbox/src/template/pool.rs:1028-1110 | After every run, which sandboxes must not hold a template for each of the five evictors to pass it, as an if and only if. |
| TemplateEviction.RunOwnInv | vmm/sandbox/src/template/pool.rs:775-839 | In every run a template taken exclusively has one owner, in memory and on disk, carries the consumed marker and is out of the pool. |
| TemplateEviction.BackingIsEvictable | vmm/sandbox/src/template/pool.rs:1314-1352 | After every run a template that backs a sandbox, by a shared or an exclusive lease or by its record, can be chosen if and only if it is a WarmFork template in the pool, the pool is Exclusive and the eviction is by kind. |
| TemplateEviction.BackingIsNotEvictable | vmm/sandbox/src/sandbox.rs:2553-2561 | If no restart changes the lease mode, no evictor ever chooses a template that backs a sandbox. |
| TemplateEviction.LeakedExactly | vmm/sandbox/src/sandbox.rs:3276-3295 | The leaked restores of a template are the acquires of the wrong kind since the last restart. |
| TemplateEviction.LeakBlocksEviction | vmm/sandbox/src/sandbox.rs:3276-3295 | After such an acquire, whatever follows short of a restart, the in-flight count is not zero and no evictor chooses the template. |
| TemplateEviction.LostExactly | vmm/sandbox/src/sandbox.rs:873-877 | The lost references of a template are the restores since the last restart that wrote their metadata over metadata holding one. |
| TemplateEviction.CountsWithoutLoss | vmm/sandbox/src/sandbox.rs:873-877 | The lifetime count is the live pins and the shared leases in flight if and only if there was no such restore. |
| TemplateEviction.LossBlocksEviction | vmm/sandbox/src/template/pool.rs:1028-1110 | After such a restore, whatever follows short of a restart, the count is not zero, and only eviction by kind from an Exclusive pool can choose the template. |
| TemplateFiles.BackingFilesStay | vmm/sandbox/src/template/pool.rs:1028-1110 | In every run in which no restore acquires an already chosen template and no restart puts a WarmFork template into an Exclusive pool beside a sandbox whose memory is paged in from it since it was restored under Shared, the files that any sandbox needs, however often restored, are there, be it against eviction, clean-up or the sweep after a restart. |
| TemplateFiles.VmFilesStay | vmm/sandbox/src/sandbox.rs:1196-1201 | If moreover no step leaves an unrecorded VM running that needs its template, the files of every VM that needs them are there; a VM whose memory was copied and whose disks are its own needs none. |
| TemplateFiles.UnsafeCanLose | vmm/sandbox/src/template/pool.rs:1028-1110 | In every state with the invariants, each step that breaks one of these conditions can be followed by steps that remove files a VM needs. |
| TemplateFiles.SafeExactly | vmm/sandbox/src/template/pool.rs:1028-1110 | After a run that keeps them, a step keeps them if and only if no steps that keep them can make a VM lose files it needs from there. |
| TemplateFailures.WindowIsReachable | vmm/sandbox/src/template/pool.rs:1028-1110 | A run from boot in which a template is chosen, acquired and evicted. |
| TemplateFailures.ModeChangeLosesFiles | vmm/sandbox/src/template/pool.rs:1314-1352 | A run in which a sandbox restored under Shared loses its files under Exclusive although its reference is counted. |
| TemplateFailures.ModeChangeSharesExclusive | vmm/sandbox/src/sandbox.rs:764-774 | A run in which deleting a second sandbox removes them. |
| TemplateFailures.StrayLosesFiles | vmm/sandbox/src/sandbox.rs:934-949 | A run in which a VM that could not be stopped loses its files. |
| TemplateFailures.LeakIsReachable | vmm/sandbox/src/sandbox.rs:3276-3295 | Two steps from boot leak a restore; a restart makes the template evictable again. |
| TemplateFailures.LossIsReachable | vmm/sandbox/src/sandbox.rs:873-877 | A run in which a second restore leaves a count of two with one holder. |
| RestoreFlow.TemplatePool.constructor | vmm/sandbox/src/template/pool.rs:171-182 | A pool starts with nothing available and nothing counted. |
| RestoreFlow.TemplatePool.Acquire | vmm/sandbox/src/template/pool.rs:633-658 | Acquiring changes the pool as the shared specification of leases says, and marks an exclusive template consumed. |
| RestoreFlow.TemplatePool.Complete | vmm/sandbox/src/template/pool.rs:151-158 | So does completing a lease. |
| RestoreFlow.TemplatePool.Fail | vmm/sandbox/src/template/pool.rs:160-168 | So does failing one; the consumed marker goes unless it cannot be removed. |
| RestoreFlow.TemplatePool.CleanupConsumed | vmm/sandbox/src/template/pool.rs:1397-1434 | Removes the directory of the template with that id exactly if it is marked and the removal works. |
| RestoreFlow.Sandbox.Stop | vmm/sandbox/src/sandbox.rs:1404-1444 | A forced stop by status: what fails, when the VM is stopped, when the network goes. |
| RestoreFlow.Sandbox.Inject | vmm/sandbox/src/sandbox.rs:1564-1678 | Injection works exactly if a reply came and the host accepts it. |
| RestoreFlow.Sandbox.TryRestore | vmm/sandbox/src/sandbox.rs:1078-1204 | For every pattern of failures: running exactly if every step worked, and for WarmFork only on an accepted reply; a failure once the VM is up issues one stop and never sets Running, and the VM then runs on exactly if that stop failed. |
| RestoreFlow.Sandbox.RollBack | vmm/sandbox/src/sandbox.rs:934-949 | Gives the pin back, clears the metadata, stops the VM; the network survives only a failed stop. |
| RestoreFlow.Sandbox.FinishStart | vmm/sandbox/src/sandbox.rs:951-969 | A failure in cgroup, hook or dump rolls back; the file is the new metadata, the old one or unreadable by how far the last steps got. |
| RestoreFlow.Sandbox.Dump | vmm/sandbox/src/sandbox.rs:1280-1306 | A missing directory counts as done and a file that cannot be opened is an error, both leaving the file as it was; a failed write leaves it unreadable. |
| RestoreFlow.Sandbox.StartFromSnapshot | vmm/sandbox/src/sandbox.rs:838-971 | For every pattern of failures and every state an earlier attempt left: how far it gets, and for each case the metadata, file, status, VM, network and counts at the end. |
| RestoreFlow.Sandbox.ConnectNetwork | vmm/sandbox/src/sandbox.rs:853-864 | The network is made unless the snapshot brings its own; if that fails nothing of it is left. |
| RestoreFlow.Sandbox.RestoreOrClear | vmm/sandbox/src/sandbox.rs:898-902 | A failed restore leaves neither metadata nor network; the VM is there only if it was before or could not be stopped. |
| RestoreFlow.Sandbox.RunRestored | vmm/sandbox/src/sandbox.rs:904-969 | After the restore: the pin is taken if memory stays backed, and taken back by any later failure. |
| RestoreFlow.RestoreFromTemplate | vmm/sandbox/src/sandbox.rs:2892-3084 | A failed attempt leaves every counter and the pool as before, and the marker unless it cannot be removed; metadata and file are kept, cleared or set by how far it got; network and VM are gone unless the stop failed. |
| RestoreFlow.AttemptLeavesOneReference | vmm/sandbox/src/sandbox.rs:746-789 | A successful attempt adds exactly the reference that delete will release, and ends its restore in flight. |
| RestoreFlow.AttemptIsRun | vmm/sandbox/src/sandbox.rs:838-971 | For every pattern of failures the attempt is a run of the steps of `TemplateRefs`, with the same pool, markers, metadata and file at its end. |
| RestoreFlow.Delete | vmm/sandbox/src/sandbox.rs:722-793 | The reference is released, and a consumed template removed, exactly when everything before it worked and the metadata calls for it; for every pattern of failures the delete is a run of the steps of `TemplateRefs`, with the same pool, markers, metadata and file at its end. |
| StartPolicy.ParseIntent | vmm/sandbox/src/sandbox.rs:138-217 | Error exactly for an unknown type or an unreadable generation of a workload to be continued; otherwise the type, identity and template the annotations mean. |
| StartPolicy.Start | vmm/sandbox/src/sandbox.rs:497-631 | A pod to be continued restores its continuation or is refused; explicit warm-fork never falls through; with a restore enabled and no fallback there is no fresh boot; the exact condition for a fresh boot; no WarmFork template is restored with the switch off; the exact condition for an Environment template with its switch off: for all contents of the pool and all outcomes. |
| StartPolicy.StartIntended | vmm/sandbox/src/sandbox.rs:503-602 | What the annotations decide, and exactly when the rest is left to be tried. |
| StartPolicy.StartBare | vmm/sandbox/src/sandbox.rs:604-631 | The environment template, else a fresh boot exactly if allowed. |
| StartPolicy.StartExplicit | vmm/sandbox/src/sandbox.rs:506-558 | An explicit type is tried once, with its own kind of snapshot, or refused. |
| StartPolicy.StartWithTemplateKey | vmm/sandbox/src/sandbox.rs:3087-3146 | Whatever the key finds, a WarmFork template is refused with the switch off and an Environment template is not. |
| StartPolicy.StartWithTemplateId | vmm/sandbox/src/sandbox.rs:3265-3338 | Only a WarmFork template, of the key given if any, and only with the switch on. |
| StartPolicy.SwitchedOffButRestored | vmm/sandbox/src/sandbox.rs:3087-3146 | An input that meets that condition. |
| ExitCodeParser.Rfind | tools/kuasar-ctl/src/main.rs:687-695 | The last match of the needle, and no later one exists. |
| ExitCodeParser.Parser.constructor | tools/kuasar-ctl/src/main.rs:639-647 | The marker prefix is marker, colon, token, colon; nothing is pending. |
| ExitCodeParser.Parser.Push | tools/kuasar-ctl/src/main.rs:649-657 | What was emitted and what is kept back are together the stream so far, and what is kept back never exceeds the marker length. |
| ExitCodeParser.Parser.Finish | tools/kuasar-ctl/src/main.rs:659-684 | Everything emitted and reported is a function of the whole stream, not of its chunks. |
| ExitCodeParser.MarkerIsStripped | tools/kuasar-ctl/src/main.rs:638-684 | For every payload, markers in it or not, every token, code and line ending: the output is the payload and the code is reported. |
| ExitCodeParser.CodeMeansMarker | tools/kuasar-ctl/src/main.rs:659-684 | For any stream, a code is reported only off a marker at its very end, and otherwise nothing is withheld. |
| ShellQuote.ShellEscapeArg | tools/kuasar-ctl/src/main.rs:592-607 | The loop builds the quoted form of the argument. |
| ShellQuote.BuildExecPayload | tools/kuasar-ctl/src/main.rs:571-590 | Builds the payload of the specification; an empty command is refused. |
| ShellQuote.LexEscapedWord | tools/kuasar-ctl/src/main.rs:592-607 | A POSIX shell reads any escaped argument back as one word, unchanged. |
| ShellQuote.PayloadKeepsArguments | tools/kuasar-ctl/src/main.rs:571-607 | For every command and token a POSIX shell reads the payload as exec, sh, -c, the wrapper, sh and the arguments, all unchanged. |
| Framing.Conn.RecvExact | examples/warmfork-workload/python/warmfork.py:244-252 | Under any segmentation: the next bytes asked for, or none if the stream ends first. |
| Framing.Conn.ReadMsg | examples/warmfork-workload/python/warmfork.py:221-235 | The next frame, a clean close, a frame too large or a broken frame, and where the stream then stands. |
| Framing.Conn.WriteMsg | vmm/common/src/warmfork/message.rs:193-203 | Appends one frame to what was sent. |
| Framing.Conn.WriteAll | examples/warmfork-workload/python/warmfork.py:238-241 | Several writes put the frames on the wire one after the other. |
| Framing.Conn.ReadAll | examples/warmfork-workload/python/warmfork.py:221-235 | Reading until there is no message gives `Received` of the stream under any segmentation. |
| Framing.RoundTrip | examples/warmfork-workload/python/warmfork.py:221-252 | A sequence of frames is read back whole, in order and with a clean end if and only if every body is at most 4 MiB. |
| Framing.FramesThenRest | examples/warmfork-workload/python/warmfork.py:221-252 | Fitting frames are read back whatever bytes follow them. |
| Framing.Truncated | examples/warmfork-workload/python/warmfork.py:221-252 | Of any prefix of the stream exactly the frames wholly inside are read; it ends as a clean close inside a header and as an error inside a body. |
| Framing.ReadersAgree | vmm/common/src/warmfork/message.rs:171-186 | The agent's reader accepts the same frames as the workload's, and what is accepted re-encodes to the bytes read. |
| ForkRequest.BuildRequest | runc/src/sandbox.rs:87-91 | Filling the buffer in place gives the request, or an error if a field is too long. |
| ForkRequest.ParseRequest | runc/src/main.rs:117-129 | The scan for the first zero byte decodes the request. |
| ForkRequest.RoundTrip | runc/src/main.rs:117-129 | A call survives encoding if and only if its id has 64 bytes and its namespace path is free of zero bytes and shorter than 448. |
| ForkRequest.PidRoundTrip | runc/src/sandbox.rs:92-96 | Every 32-bit pid, negative ones too, survives its four bytes. |
| ForkRequest.ReadCount | runc/src/main.rs:138-157 | Under any schedule of short reads and signals: the bytes asked for, or at the end of the stream what there was and zeros. |
| ForkRequest.WriteAll | runc/src/main.rs:159-178 | Under any schedule of short writes and signals the whole buffer is written, or on an error a prefix of it. |
| ForkProtocol.StepInv | runc/src/main.rs:117-178 | Every transfer of bytes by either process, and the death of the parent, keeps the invariant on what is in the pipes. |
| ForkProtocol.RunInv | runc/src/main.rs:117-178 | The invariant holds in every state of every run. |
| ForkProtocol.CallsAreAnswered | runc/src/sandbox.rs:87-97 | While the parent lives, the k-th call returns the pid of the k-th fork, and that fork is for the id and namespace asked for if and only if the call is proper. |
| ForkProtocol.IdlePipesAreEmpty | runc/src/sandbox.rs:87-97 | Between calls both pipes are empty and the parent is at a request boundary. |
| ForkProtocol.WrongPidMeansDeath | runc/src/main.rs:138-157 | A wrong pid is returned only after the parent died, and is zero or the fork's pid with high bytes missing. |
| ForkProtocol.DeadParentAnswersZero | runc/src/main.rs:138-157 | For every call there is a run in which it returns pid 0 with nothing forked. |
| ForkProtocol.NeverStuck | runc/src/main.rs:117-178 | A call in progress can always move on. |
| ForkProtocol.Progress | runc/src/main.rs:117-178 | Every step but a signal, the death of the parent included, brings the end of the call nearer. |
| ForkProtocol.CallsAreBounded | runc/src/main.rs:117-178 | In every run at most 1035 steps that change anything are made before the next call begins. |
| Cpuset.MergeCpuset | vmm/sandbox/src/utils.rs:225-240 | The base becomes the union with a range that meets it, and is unchanged otherwise. |
| Cpuset.GrowRanges | vmm/sandbox/src/utils.rs:201-207 | The first loop grows every range of the first list over the second. |
| Cpuset.AppendRest | vmm/sandbox/src/utils.rs:208-216 | The second loop adds the ranges that meet nothing so far. |
| Cpuset.MergeInventsNothing | vmm/sandbox/src/utils.rs:197-223 | For any two lists the merge has every CPU of the first and none that is in neither. |
| Cpuset.MergeIsUnion | vmm/sandbox/src/utils.rs:197-223 | If every range of the second list lies within any earlier one it meets, as disjoint ones do, the merge denotes exactly the union. |
| Cpuset.TwoRanges | vmm/sandbox/src/utils.rs:197-223 | For two ranges, the merge is the union for every first list if and only if they are disjoint or the second lies within the first. |
| Cpuset.OverlapLosesCpus | vmm/sandbox/src/utils.rs:208-216 | A concrete overlap that loses CPUs. |
| CpusetLoss.LossNeedsTwo | vmm/sandbox/src/utils.rs:197-240 | A CPU lost in a merge is lost already when the first list is cut down to at most two of its ranges. |
| CpusetLoss.TwoSuffice | vmm/sandbox/src/utils.rs:197-240 | For any second list, the merge is the union for every first list if and only if no first list of at most two ranges loses a CPU. |
| Cpuset.CpusetParts | vmm/sandbox/src/utils.rs:252-262 | The loop parses the list, failing on the first bad part. |
| Cpuset.PrintThenParse | vmm/sandbox/src/utils.rs:252-284 | Printing any list of ranges and parsing it gives the list back. |
| Cpuset.MergeCpusets | vmm/sandbox/src/utils.rs:197-223 | Fails exactly if an argument does not parse; the text it returns parses to the merged list, and to the union if the second list is nested. |
| LinkRename.Links.Rename | vmm/task/src/netlink.rs:127-148 | The kernel's rule: a rename works if the name is unchanged, or acceptable and free; names stay distinct. |
| LinkRename.UpdateName | vmm/task/src/netlink.rs:119-150 | One interface, for any names: it works if and only if the name can be had, directly or by moving its holder aside, and what all names then are. |
| LinkRename.UpdateInterfaces | vmm/task/src/netlink.rs:82-153 | For any request: names are distinct after every rename; the loop succeeds if and only if every interface finds its link and can be given its name after the ones before it; every link then has the name traced for it alone. |
| LinkRename.RequestIsMet | vmm/task/src/netlink.rs:82-153 | A link ends with the name asked for, swaps and cycles included, unless a later interface is for the same link or name. |
| LinkRename.ProperIsFeasible | vmm/task/src/netlink.rs:82-153 | Distinct existing links, distinct acceptable names and free temporary names of contested names make every interface feasible. |
| LinkRename.EveryRequestIsMet | vmm/task/src/netlink.rs:82-153 | After such a request every link asked for bears the name asked for. |
| LinkRename.OthersKeepTheirNames | vmm/task/src/netlink.rs:127-139 | A link no interface is for keeps its name if and only if nobody asks for it. |
| LinkRename.TmpClash | vmm/task/src/netlink.rs:127-139 | A taken temporary name makes an interface fail. |
| Fletcher.NdFletcher64 | vmm/scripts/image/nsdax.gpl.c:71-84 | The wrapping loop computes the sum of b[i] in the low and of (n-i)*b[i] in the high half, modulo 2^32. |
| Fletcher.WeightedIsSpread | vmm/scripts/image/nsdax.gpl.c:71-84 | The running total of running sums is the sum weighted by n-i. |
| Fletcher.DetectsOneWord | vmm/scripts/image/nsdax.gpl.c:71-84 | Changing any one word changes the checksum. |
| Fletcher.SwapDetection | vmm/scripts/image/nsdax.gpl.c:71-84 | A swap goes unnoticed if and only if distance times difference is a multiple of 2^32. |
| Fletcher.DetectsOddSwap | vmm/scripts/image/nsdax.gpl.c:71-84 | Swapping different words an odd distance apart is always noticed. |
| Fletcher.NdSbChecksum | vmm/scripts/image/nsdax.gpl.c:88-103 | Leaves the block as it was and sums it with the stored checksum blank. |
| Fletcher.StoredChecksumIsIgnored | vmm/scripts/image/nsdax.gpl.c:88-103 | Blocks that agree outside the stored checksum have the same checksum. |
| Fletcher.BlockDetectsOneWord | vmm/scripts/image/nsdax.gpl.c:88-103 | A change of one word outside the stored checksum changes the block's checksum. |
| RuntimeLog.RuntimeError | runc/src/runc.rs:781-799 | The forward scan returns the message of the last error line. |
| RuntimeLog.GetLastRuntimeError | vmm/task/src/container.rs:322-367 | The byte-offset scan is the line-by-line backward search over exactly the lines after the first newline at offset 1 or later. |
| RuntimeLog.BackMeansLast | vmm/task/src/container.rs:350-363 | That search finds the last error, and fails if and only if a line that does not parse has no error after it. |
| RuntimeLog.ScansAgree | vmm/task/src/container.rs:322-367 | For every log the two scans give the same message if and only if every examined line that does not parse is followed by an error, and there is an examined error or no message among the skipped lines. |
| RuntimeLog.AgreeOnCleanLogs | vmm/task/src/container.rs:322-367 | They agree on every log of non-blank lines that parse, unless the first line is the only error. |
| RuntimeLog.SingleErrorIsMissed | vmm/task/src/container.rs:322-367 | On a log of one error line they differ. |
| Storages.RefCount | vmm/common/src/storage.rs:71-73 | The count is zero exactly if no container refers to the storage. |
| Storages.SandboxResources.AddStorage | vmm/task/src/sandbox.rs:107-141 | The new entries, mounts and outcome, with every failure leaving both unchanged. |
| Storages.SandboxResources.AddStorages | vmm/task/src/sandbox.rs:92-97 | Adds in order up to the first failure; the earlier ones stay. |
| Storages.SandboxResources.DeferStorages | vmm/task/src/sandbox.rs:99-105 | The container leaves every entry, entries without references are dropped and unmounted, failed unmounts leave the mount. |
| Storages.SandboxResources.Retain | vmm/task/src/sandbox.rs:143-152 | Splits the entries by whether anyone refers to them, in order. |
| Storages.AddOutcome | vmm/task/src/sandbox.rs:107-141 | An add succeeds exactly if the key is there or its driver is known and the mount works; a failure changes nothing; keys stay unique. |
| Storages.AddedRefs | vmm/task/src/sandbox.rs:107-141 | A successful add counts one more reference of one container to a key that is there; a new entry starts from the references it arrives with; only a new key is mounted. |
| Storages.ReleaseForgets | vmm/task/src/sandbox.rs:99-105 | A release takes the container out of every key, changes no other count, and keeps exactly the keys that still have a reference. |
| Storages.ReleaseUnmounts | vmm/task/src/sandbox.rs:143-160 | It unmounts exactly the keys it drops, except where unmounting fails. |
| Storages.EntriesAreCounted | vmm/task/src/sandbox.rs:92-160 | After every run, of any arrivals, there is one entry for each key present and none besides, and its counts are those of the history. |
| Storages.MountsAreEntries | vmm/task/src/sandbox.rs:92-160 | After every run a key is mounted once if present, plus once per failed unmount. |
| Storages.ReleaseKeepsOthers | vmm/task/src/sandbox.rs:99-105 | After a release exactly the keys counted for another container remain. |
| Storages.NewEntrySurvives | vmm/common/src/storage.rs:71-86 | A new entry survives the release of a container if and only if it arrived with a reference of another. |
| Storages.ArrivalAgrees | vmm/task/src/sandbox.rs:107-141 | A new entry counts a container's uses if and only if it arrives with just that count. |
| Storages.PresentWhileUsed | vmm/task/src/sandbox.rs:92-160 | If new storages arrive with references of their own container only, however many, an entry is there exactly while some container uses it. |
| Storages.CountsAreUses | vmm/task/src/sandbox.rs:92-160 | If each also arrives with just one, the counts are the uses. |
| Storages.StaleReferenceLeaks | vmm/sandbox/src/storage/mod.rs:98-125 | A storage arriving with a reference of a container that is gone stays mounted when nobody uses it. |
| ClockSync.CheckedComputeDelta | vmm/sandbox/src/client.rs:381-400 | A result exactly when the three intermediate values fit 64 bits, and its absolute value then fits too. |
| ClockSync.DoOnceSyncClock | vmm/sandbox/src/client.rs:347-378 | For any offset and delays the estimate is right to within half their asymmetry, a correction is sent exactly beyond the tolerance and is never taken for a query, and the guest ends within tolerance plus half the asymmetry. |
| ClockSync.Correct | vmm/task/src/sandbox_service.rs:180-206 | The guest passes the delta on as an unsigned duration, its clock moves by the delta, and it takes the packet for a query exactly if the delta is zero. |

## Left out

- Sockets, namespaces, fork, netlink messages, mount calls, hypervisor and RPC calls: each is an outcome that may be any.
- JSON: messages are values, and a frame's body is any bytes; the log parser is any parser that ignores a line's ending.
- UTF-8: text is text; lossy decoding of ids and paths and a log that is not UTF-8 are not modelled.
- TemplateRefs.StepInv: requests on one sandbox come one at a time, an acquire is one step, and a template added has a new id.
- TemplateFiles.SafeExactly: a VM that outlives a crash in the middle of copying its memory is taken to need no files; whether a template has disk images is open at each restore, and that disks are links is kept with the metadata, while the source has the links in the sandbox's directory.
- RestoreFlow.RestoreFromTemplate: starts from a template already found in the pool and covers Environment and WarmFork; the store of continuation snapshots is not modelled.
- RestoreFlow.Sandbox.TryRestore: the transaction object appears only as the phase reached; its error texts and working directory are not modelled.
- ForkProtocol.CallsAreAnswered: a fork that fails ends the parent and is its death.
- Framing.Conn.WriteMsg: cuts the length to 32 bits as the agent does; the workload's writer raises an error for bodies of 4 GiB and more instead.
- LinkRename.UpdateInterfaces: addresses, MTU and flags are one outcome per interface; which names the kernel accepts is left open.
- Storages.RefCount: counts are unbounded, while the source adds 32-bit numbers.
- ClockSync.Correct: takes the library's addition of an unsigned duration to wrap in signed 64-bit nanoseconds.
- StartPolicy.Start: ends where the sandbox is restored, refused or booted; the steps of a fresh boot are not modelled.
- Readiness checks of one target, parsing of container names and environment overrides, and the route flags: they would only add easy members.
- Huge-page merging, shim port release, device monitoring, the wasm and quark sandboxers, cgroups, configuration and tracing.
