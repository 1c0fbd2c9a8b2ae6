# GardenLiminal in Dafny

A model of GardenLiminal's control plane, with proofs. `dafny verify dfyconfig.toml` checks all of it.

- **Bootstrap protocol** (`Bootstrap*`, `Namespaces`, `Notices`, `ProcessRunner`). `ProcessRunner::run` and the child
  it clones are two programs side by side. They share a socket pair; every system call and every store call is one
  step and may fail; the kernel may end the child at any moment. `Bootstrap` gives the steps, `BootstrapInvariants`
  what holds where, and `BootstrapSafety` the proof that it does. What follows for every run is in
  `BootstrapTheorems`, `BootstrapKills`, `BootstrapCleanup`, `BootstrapLiveness`, `BootstrapResult`,
  `BootstrapFaults`, `BootstrapSuccess` and `BootstrapCapabilities`; `BootstrapWitness` spells out whole runs.
  `ProcessRunner` has the statements of `run` as methods that change fields, each shown to be one step of the protocol
  while the child moves in between; its `Run` is shown to return.
- **Evidence framing** (`Utf8`, `Lines`, `Framing`, `Json`, `Overwritten`, `Channel`, `Decimal`, `Text`). Messages as
  lines of UTF-8 bytes, with the reading loop, over any encoding of one message; notices as such lines of JSON, with a
  writer and a reader; and the lines of the protocol against the bytes that a child gets out.
- **Pod supervisor** (`Pod`, `PodSafety`, `PodTheorems`, `PodSupervisor`, `PodWitness`). A step system for containers,
  PIDs, backoff and the crash-loop window under any mix of calls, the class `PodSupervisor` whose methods are shown to
  take its steps, and a run that shows what its crash-loop stop leaves behind.
- **Capabilities** (`Capabilities`, `CapabilityBits`, `CapabilityNames`, `CapabilityDrop`). The kernel's five sets and
  no_new_privs, the two-word layout, the names, and `drop_capabilities` as a method.
- **Outbox** (`Outbox`). The LiminalDB queue, the connections it is replayed over, what the peer gets on each, and
  `LiminalStore` as a class.
- **Indexes** (`IpAllocator`, `Dns`, `Dotted`). The address pool and the service registry.

## Assumptions

- The supervisor is the only one to wait for its children, and waitpid fails only with ECHILD or EINTR.
- Only a finite number of orphans arrive and of waits are interrupted while one reap pass runs; between passes any
  number.
- A pod is started once, by `start` on a new supervisor.
- Clocks do not run backwards. Times are in nanoseconds.
- A WebSocket write that reports success has been taken by the local transport, and no more. A connection delivers its
  frames in order; when its socket is lost, a suffix of those in transit is lost with it, and which is settled then.
- The kernel obeys capabilities(7). Where it may also fail for no reason given there, the model says so (`faulty`).
- A store call that fails may have kept its record.

## Where the code differs from its own documentation

- `README.md:200` of the repository puts IDMAP_APPLIED after MOUNT_DONE. The code logs it with the first notice, before
  MOUNT_DONE; the proved log grammar has the code's order.
- A run recorded as failed can return 0 (`BootstrapResult.FailedRunsThatReturnZero` says exactly when).
- A cgroup can stay behind. When a limit cannot be set after its directory was made, or the socket pair cannot be set
  up, `?` returns without trying to remove it; and a removal that fails is only logged
  (`BootstrapCleanup.CgroupLeftBehindExactly` says that there is no other way, and `BootstrapWitness` has a run of
  each).
- `stop_all` forgets running processes without signalling them, and nothing signals them later
  (`PodWitness.StopLeavesProcess`, `PodTheorems.ForgottenIsLeftAlone`). A crash loop is not latched: once the window has
  moved on, a later tick schedules restarts again (`PodTheorems.StopIsNotLatched`, `PodWitness.StoppedPodRestarts`).
- A full outbox never flushes again, even when the link is back (`Outbox.FullIsReachable`, `Outbox.CallDrainsExactly`).
- A payload that was reported as sent can be lost, and the ones after it arrive (`Outbox.SentPayloadCanVanish`); the
  source claims no more than acceptance by the local transport (`src/store/liminal.rs:44-47`).
- Pod names with dots break the registry (`Dns.DottedPodsCollide`); the exact conditions are proved.

## Model

| member | source | states |
|---|---|---|
| BootstrapSafety.StepKeepsInv | src/process.rs:141-542 | Every step of the supervisor, of the child and of the kernel, with every way a call can end, keeps one proof outline: what holds at each place of `run` and of the child, and how the two agree |
| BootstrapSafety.ReachableInv | src/process.rs:141-542 | The proof outline holds in every state of every run, over all interleavings and faults |
| BootstrapTheorems.EvidenceIsSound | src/process.rs:304-351 | Whatever is in the log is true: NS_CREATED means the namespaces differ from the supervisor's exactly as cloned and the hand-over is complete, IDMAP_APPLIED that the map was installed and the identity entered, CAPS_DROPPED and SECCOMP_ENABLED that no_new_privs (and capabilities) came first, PROCESS_START that the whole policy is in force, PROCESS_EXIT that the child really ended with that code |
| BootstrapTheorems.LogGrammar | src/process.rs:152-417 | In every reachable state, whichever store calls fail, the log is a prefix of the one script for the Seed, possibly with PROCESS_FAILED put where it stops, or the whole script followed by PROCESS_EXIT; IDMAP_APPLIED stands before MOUNT_DONE |
| BootstrapTheorems.GateIsSafe | src/process.rs:230-273 | A child past its gate is mapped if the Seed is rootless and sits in its cgroup if one was prepared |
| BootstrapTheorems.ExecIsConfined | src/process.rs:427-480 | A workload that has exec'd was handed over completely and runs under the whole policy: identity, host name, mounts, no_new_privs, capabilities, seccomp |
| BootstrapTheorems.StackOutlivesChild | src/process.rs:41-113 | On every way out after clone the stack is freed only when the child has ended and was reaped |
| BootstrapKills.KillIsSafe | src/process.rs:78-98 | Over every run SIGKILL is sent at most once, to a child that exists and has not been reaped, and that child is reaped before `run` returns: the history of the calls, written by the steps that make them, says so |
| BootstrapKills.KillsExactly | src/process.rs:82-98 | A step of the supervisor sends SIGKILL if and only if evidence was refused or the guard has just seen the child alive; a step that sends it does not reap, and the target is unreaped before and after it |
| BootstrapTheorems.CleanupIsExact | src/process.rs:102-111 | On every way out after clone exactly one removal of the cgroup is tried if one was asked for, and it comes after reaping |
| BootstrapCleanup.CleanupByCause | src/process.rs:155-223 | Over whole runs: exactly one removal is tried of a cgroup whose directory was made, after a failed clone and on every way out after clone, unless a limit could not be set or the socket pair could not be set up; then none is |
| BootstrapCleanup.CgroupLeftBehindExactly | src/isolate/cgroups.rs:17-57 | When `run` returns, a cgroup whose directory it made is still there if and only if a limit could not be set after that, the socket pair could not be set up, or its removal was tried and failed; one it did not make is there iff it was before |
| BootstrapWitness.CgroupIsLeftBehind | src/process.rs:155-167 | A concrete run that makes and prepares its cgroup, returns after the socket error, and never tries to remove it |
| BootstrapWitness.HalfMadeIsLeftBehind | src/isolate/cgroups.rs:20-32 | A concrete run that makes the directory, cannot set a limit, and returns without trying to remove it |
| BootstrapWitness.UnremovedIsLeftBehind | src/process.rs:212-221 | A concrete run whose clone fails, whose removal of the cgroup is tried and fails too, and that returns with the cgroup there |
| BootstrapTheorems.OutcomeIsExact | src/process.rs:377-417 | An Ok return is on record, last and with the matching status: an exit iff all three notices were seen, nothing was refused or reported, the supervisor's namespaces are unchanged and the child exited normally, and then with the code returned; else a failure |
| BootstrapTheorems.OutcomeIsUnique | src/process.rs:377-417 | No event that ends a run stands anywhere but last in a log |
| BootstrapTheorems.RecordedExitMeansExec | src/process.rs:392-404 | A recorded exit is the child's own under the whole policy, and the child exec'd unless the code is 125 |
| BootstrapResult.ReturnedCode | src/process.rs:377-417 | An Ok return carries the child's own exit code or 128 plus its signal, or 125 exactly if evidence is merely missing |
| BootstrapResult.FailedRunsThatReturnZero | src/process.rs:377-391 | A run recorded as failed returns 0 if and only if the child exited with 0 and its evidence was refuted |
| BootstrapSuccess.RunsSucceedExactly | src/process.rs:141-425 | For every Seed: a run in which every call succeeds and no signal comes but the supervisor's accepts all the evidence of a child isolated as asked, and then its log is the whole script and PROCESS_EXIT, its status and result have the workload's code, the workload did exec and SIGKILL was never sent; if the child is not isolated as asked, the log is the opening events and PROCESS_FAILED and the status is failed |
| BootstrapFaults.VerdictIsExact | src/process.rs:304-354 | The verdict on one line: a namespace report is accepted iff PID 1 and the namespaces are as asked, an isolation report always, a start iff PID 1; a reported failure only ends the loop, and anything else is a protocol error |
| BootstrapFaults.SuccessMeansNoFault | src/process.rs:141-480 | Conversely, an Ok run with the exit of an exec'd workload on record has seen no fault: no call of the supervisor failed but a removal of the cgroup, no call of the child failed and no signal came; so every other failed call ends the run or stops the child |
| BootstrapFaults.ErrorsAreExact | src/process.rs:141-425 | `run` returns an error iff one of the calls under `?` failed: not for the hand-over calls that give the child up, a failed read, changed namespaces or a cgroup that stays |
| BootstrapFaults.ManifestComesFirst | src/process.rs:146-155 | There is no record, no event and no child of a run whose Seed manifest was not stored before |
| BootstrapWitness.FailedRunReturnsZero | src/process.rs:287-386 | A concrete run that is recorded as failed and returns 0 |
| BootstrapWitness.SuccessfulRun | src/process.rs:141-425 | A concrete run of the whole protocol that succeeds, with its whole log |
| BootstrapLiveness.StepShortens | src/process.rs:141-542 | Every step of either side makes one measure smaller, the reader loop included |
| BootstrapLiveness.RunsAreShort | src/process.rs:141-542 | No run has more than 63 steps |
| BootstrapLiveness.NoDeadlock | src/process.rs:164-302 | Until `run` returns some step that needs no fault is enabled: neither waitpid nor read_line nor the child's gate ever waits for something that cannot come |
| BootstrapLiveness.MaximalRunsReturn | src/process.rs:141-425 | A run that cannot go on has returned, with the child ended and reaped and the stack freed |
| Namespaces.ValidationIsExact | src/process.rs:583-622 | The boundary check accepts exactly a PID 1 whose namespaces differ from the supervisor's in those the clone flags name and in no other |
| Namespaces.NamesMatchFlags | src/isolate/ns.rs:32-58 | The names in an NS_CREATED message are the namespaces cloned, each once |
| BootstrapCapabilities.CapsDroppedIsForever | src/process.rs:337-342 | Once CAPS_DROPPED is logged the requested capabilities are in none of the child's five sets, then and in every later state, through exec and whatever moves the kernel allows the workload |
| BootstrapCapabilities.WorkloadLacksCaps | src/process.rs:427-480 | A workload whose Seed asks for the drop never runs with a requested capability, logged or not |
| ProcessRunner.ProcessRunner.Run | src/process.rs:141-425 | The body of `run` with the child moving between its statements: it returns, and leaves things as every theorem about reachable states demands (log grammar, clean-up, stack, outcome on record, code); and if no call failed, with the whole script and the exit of a child isolated as asked, and otherwise as failed |
| ProcessRunner.ProcessRunner.SetUp | src/process.rs:142-223 | The statements up to clone end either with an error, no child and at most the opening events logged, or with a child, exactly the two opening events and the cgroup prepared iff asked for; each is a step of the protocol |
| ProcessRunner.ProcessRunner.PrepareChannel | src/process.rs:155-167 | The cgroup and then the socket pair: an error return here has tried no removal, and on success the directory is there if a cgroup was asked for |
| ProcessRunner.ProcessRunner.CloneTask | src/process.rs:176-223 | Either there is a child, or an error is returned with one removal tried on the spot iff a cgroup was prepared; nothing else touches the directory |
| ProcessRunner.ProcessRunner.HandOver | src/process.rs:230-273 | The reader loop is reached only with the map installed, the child in its cgroup, the start byte written, the write side shut and CGROUP_APPLIED logged; when the child is given up the start byte was never written |
| ProcessRunner.ProcessRunner.AbortBlockedChild | src/process.rs:489-506 | Closing the channel ends a child that was never released: it is reaped, PROCESS_FAILED and the failed status are recorded in that order, and the result is 125, or an error if a store call fails |
| ProcessRunner.ProcessRunner.ReadEvidence | src/process.rs:283-357 | The reader loop ends, and unless the store failed the log then holds the events of exactly the notices that were accepted |
| ProcessRunner.ProcessRunner.LogEvidence | src/process.rs:317-349 | What is added to the log is a prefix of the events the admitted notice stands for, in order, and all of them if the loop goes on |
| ProcessRunner.ProcessRunner.Inspect | src/process.rs:294-355 | The loop's branches on one line: a notice is admitted iff it is good evidence (PID 1 and namespaces as asked; a start as PID 1), a report of failure is noted, and any other line is a protocol error |
| ProcessRunner.ProcessRunner.AwaitLine | src/process.rs:285-295 | read_line never blocks for ever: a line or the end of the stream comes |
| ProcessRunner.ProcessRunner.AwaitDeath | src/process.rs:567-581 | waitpid never blocks for ever: the child ends or has been killed |
| ProcessRunner.ProcessRunner.Settle | src/process.rs:357-391 | After the loop the child is sent SIGKILL, once, iff the evidence was refused, reaped, and the outcome is decided: an exit only for a clean run, with the code it ended with, and otherwise a failure with 125 exactly if evidence is merely missing |
| ProcessRunner.ProcessRunner.RecordFailedRun | src/process.rs:508-517 | PROCESS_FAILED and then the failed status are recorded; the result stays iff both calls succeed |
| ProcessRunner.ProcessRunner.RecordExit | src/process.rs:393-404 | PROCESS_EXIT and then the status with the same code are recorded; the result stays iff both calls succeed |
| ProcessRunner.ProcessRunner.Conclude | src/process.rs:368-417 | The nested decision on the outcome equals the protocol's verdict |
| ProcessRunner.ProcessRunner.DropWorkload | src/process.rs:82-113 | Drop sends SIGKILL only to a child not yet reaped that its poll saw alive, and says whether it did; it ends with the child dead and reaped, one removal tried iff a cgroup was asked for, and the stack freed, and leaves log, status and result alone |
| ProcessRunner.ReturnedMeansWell | src/process.rs:141-425 | Every reachable returned state is one that `Run` promises |
| Framing.NoticesAreHeard | src/process.rs:283-302 | Any sequence of notices, with any text in them, is heard in full and in order |
| Framing.CutNoticesAreHeard | src/process.rs:283-302 | Cut the stream after any number of bytes: the reader hears exactly the notices whose text is complete, and the loop ends well iff the cut is inside no notice; inside one, read_line fails iff the cut is inside a character, and otherwise the parser refuses the line |
| Framing.NoticeReadsBack | src/process.rs:546-553 | A notice written by send_notice reads back as itself, with its newline or, as the last line, without |
| Framing.CutLineIsRefused | src/process.rs:297-302 | No proper prefix of a notice's text is taken for a notice |
| Framing.IsolationText | src/process.rs:25-39 | The text of an isolation report, as serde_json writes the unit variant |
| Framing.StartText | src/process.rs:25-39 | The text of a start report for any PID: the tag, then the field, without blanks |
| Framing.FailureText | src/process.rs:25-39 | The text of a failure report for any message, escaped |
| Framing.NoticesAreCodec | src/process.rs:25-39 | The notices' text is one line each, reads back, and is refused when cut: what the line protocol needs of it |
| Channel.LinesAreHeard | src/process.rs:283-302 | However many bytes each call of send_notice gets out, a report on an unfinished line included: the supervisor hears exactly the notices that the protocol's lines hold up to a garbled one, and complains iff one is garbled |
| Channel.LinesAreProtocol | src/process.rs:546-553 | Those lines are what the protocol's steps for a notice and a report add: whole, whole without a newline, cut short, or spoilt by the report |
| Channel.MixedIsRefused | src/process.rs:297-302 | A notice's text, cut anywhere or whole, with any part of a report after it on the line is never taken for a notice |
| Overwritten.OverwrittenIsBad | src/process.rs:297-302 | A written object that is cut anywhere and followed by the start of another, or all of one, does not read |
| Lines.CutStreamIsHeard | src/process.rs:283-302 | The same, message by message, for any encoding with that property |
| Lines.CutIsExact | src/process.rs:283-302 | What is heard of a cut stream, stated by byte counts alone: which messages, and which of the three endings |
| Lines.StreamIsHeard | src/process.rs:283-302 | A stream of whole lines is heard in full |
| Lines.ReadLines | src/process.rs:283-302 | The reading loop over bytes hears what the recursive definition says, for any way to decode one line, and ends for the reason it gives |
| Utf8.DecodeIsExact | src/process.rs:285-295 | read_line takes a line for a text iff its bytes are the UTF-8 of that text (sections 3 and 4 of RFC 3629): every text reads back, and overlong forms, surrogates and stray bytes are refused |
| Utf8.StandardExamples | src/process.rs:285-295 | The encoding gives the examples of section 7 of RFC 3629, with characters of one to four bytes |
| Utf8.CutIsTextOrNone | src/process.rs:285-295 | UTF-8 cut after any number of bytes is the text so far if the cut is between two characters, and no text at all if it is inside one |
| Framing.FieldsReadBack | src/process.rs:25-39 | The tagged form of each notice decodes to that notice |
| Json.ReadWritten | src/process.rs:546-549 | Reading written JSON gives back the value and leaves what follows |
| Json.ReadStable | src/process.rs:297-302 | More input never changes a value already read, unless it was a number at the end of the input |
| Json.NoPrefixReads | src/process.rs:297-302 | No proper prefix of a written object reads at all |
| Json.StandardEscapes | src/process.rs:546-549 | Each character that must be escaped is written with the escape that section 7 of RFC 8259 gives it, and the others as they are |
| Json.ReadEscapedAll | src/process.rs:36-38 | Escaped text reads back for every string, quotes, backslashes and control characters included (section 7 of RFC 8259) |
| PodSafety.StepKeepsInv | src/pod.rs:157-653 | Every step of start, tick, reap, stop_all and stop_graceful, and of the world outside, keeps the pod invariant |
| PodTheorems.RestartRateIsBounded | src/pod.rs:489-518 | Every half-open ten-minute window holds at most max_restarts_per_10m restarts, over all containers and any run |
| PodTheorems.PruningLosesNothing | src/pod.rs:489-497 | The pruned list answers every later check as the full history would; it stays sorted and within the limit |
| PodTheorems.RecentCounts | src/pod.rs:489-497 | What the check keeps of a list is as long as the list has times less than ten minutes old |
| PodTheorems.LastStartIsLatest | src/pod.rs:224-227 | A container's start time is that of its latest start, in every run |
| PodTheorems.ResetIsExact | src/pod.rs:85-95 | The backoff of a container can be reset iff it runs and its latest start is more than ten seconds ago, and then delay and count start again and nothing else changes |
| PodTheorems.PidsAreCoherent | src/pod.rs:222-486 | A container records a PID iff it is running, no two the same, and each is an unreaped child |
| PodTheorems.SignalsHitChildren | src/pod.rs:530-591 | Every SIGTERM and SIGKILL ever sent went to an unreaped child |
| PodTheorems.ForksAndExitsBalance | src/pod.rs:251-457 | With a store that keeps every event, forks minus exits in the log is 1 for a running container and else 0 |
| PodTheorems.LogTellsEveryStory | src/pod.rs:251-639 | With such a store the log tells of each container exactly its forks and ends, in order, with PIDs and codes |
| PodTheorems.BackoffIsExact | src/pod.rs:75-95 | The delay is 2^restart_count seconds, at most 30, through restarts and resets; and that is the delay a container backs off with |
| PodTheorems.NeverMeansOnce | src/pod.rs:61-72 | Under Never no container backs off and each forks at most once |
| PodTheorems.OnFailureRestartsFailures | src/pod.rs:61-72 | Under OnFailure every restart, pending or done, follows a nonzero exit code |
| PodTheorems.NeverFailed | src/pod.rs:14-72 | A container is due for a restart iff its last turn was an end after which the policy restarts: the Failed half of the rule is never met |
| PodTheorems.ForgottenIsLeftAlone | src/pod.rs:625-639 | A child that no container records, such as one that stop_all forgot, is recorded by none and signalled by nobody until it is reaped, whatever the supervisor does in between |
| PodTheorems.StopIsNotLatched | src/pod.rs:403-418 | A run that has logged POD_EXIT has, for each container that the policy restarts, a continuation that schedules it again and logs nothing in between, iff the limit allows any restart at all |
| PodTheorems.DueIsScheduledUnlessFull | src/pod.rs:403-418 | At a tick a due container is scheduled iff fewer than the limit of restarts are in the window |
| PodWitness.StopLeavesProcess | src/pod.rs:409-413 | A concrete run whose crash-loop stop ends with POD_EXIT while a container's process still runs, recorded by nobody and never signalled |
| PodWitness.StoppedPodRestarts | src/pod.rs:403-418 | The same run going on: the stopped pod schedules that container again |
| PodWitness.TwoProcessesOfOne | src/pod.rs:500-518 | And further: when that restart is carried out, two processes of one container run at once |
| PodSupervisor.PodSupervisor.StartContainer | src/pod.rs:223-264 | Start leaves the container running as a new unreaped child and logged, or starting without a PID; the others untouched |
| PodSupervisor.PodSupervisor.StartAll | src/pod.rs:181-184 | On success every container runs and the log has the forks in order |
| PodSupervisor.PodSupervisor.ReapExitedProcesses | src/pod.rs:424-486 | The loop ends with no child left unreaped; each logged exit is of a container that was recorded, with its code |
| PodSupervisor.PodSupervisor.WaitAny | src/pod.rs:428-482 | One waitpid: what it may report, and that it uses up the finite number of arrivals and interruptions |
| PodSupervisor.PodSupervisor.FinishReaped | src/pod.rs:431-460 | The end of a process goes to the one container that recorded it, as exit code or 128 plus signal; no other container records it |
| PodSupervisor.PodSupervisor.IsCrashLooping | src/pod.rs:489-497 | True iff the restarts of the last ten minutes reach the limit, counted over the whole history |
| PodSupervisor.PodSupervisor.ScheduleRestart | src/pod.rs:500-518 | The container backs off with the doubled delay and the time is recorded |
| PodSupervisor.PodSupervisor.ResetBackoffIfStable | src/pod.rs:85-95 | Delay and count are reset iff the container has run for more than ten seconds |
| PodSupervisor.PodSupervisor.StopAll | src/pod.rs:625-653 | Every recorded process is forgotten and logged with code 0, in order, and POD_EXIT ends the log; no child is signalled or reaped, and those newly left without a container are exactly those that had one |
| PodSupervisor.PodSupervisor.Tick | src/pod.rs:391-421 | What a tick makes of every container; it stops the pod iff the check of some due container, in order, finds the window full, counting the restarts scheduled before it in the same tick |
| PodSupervisor.PodSupervisor.TickContainers | src/pod.rs:398-420 | The due containers are checked in order, each check but a full one is followed by one restart, and the loop breaks off at the first full one, or else makes them all |
| PodSupervisor.PodSupervisor.TickContainer | src/pod.rs:398-418 | One pass: a stable container is settled, and a due one is backed off unless its check finds the window full, which is when the pass says so |
| PodSupervisor.ForgetLogIsExact | src/pod.rs:625-639 | What stop_all logs before POD_EXIT: exit code 0 for each container that records a process, once, in order, and nothing else |
| PodSupervisor.ForwardsAreExact | src/pod.rs:531-591 | One round of a signal: SIGNAL_FORWARD of that signal for each container that records a process, once, in order, and nothing else; and the j-th call of kill sends that signal to the process of the container that the j-th event names |
| PodSupervisor.DueIsExact | src/pod.rs:404-407 | The list of due containers has exactly those that the policy restarts |
| PodSupervisor.PodSupervisor.ForwardAll | src/pod.rs:531-547 | One event and one kill of the given signal for each recorded process and no other, in order and matching one by one |
| PodSupervisor.PodSupervisor.AwaitExits | src/pod.rs:550-565 | The waiting loop ends by the clock: all exited, or the timeout has passed |
| PodSupervisor.PodSupervisor.KillRest | src/pod.rs:568-601 | SIGKILL goes, and is logged, exactly for what is still recorded; after that all have exited, or a second has passed and everything still recorded has been sent SIGKILL |
| PodSupervisor.PodSupervisor.StopGraceful | src/pod.rs:521-606 | The log and the kill calls of a completed graceful stop, over all exit timings: SIGTERM for each recorded process first, and after the timeout SIGKILL for exactly those still recorded; at the end all have exited, or the timeout and a second more have passed and whatever is still recorded was sent SIGKILL |
| PodSupervisor.KilledWereTold | src/pod.rs:531-591 | Whatever gets SIGKILL in the second phase got SIGTERM in the first |
| PodSupervisor.ExitsEndOnce | src/pod.rs:435-460 | A reap pass ends a container at most once, with the code it logs, and leaves the others |
| PodSupervisor.PodSupervisor.ExitCodeIsPrimary | src/pod.rs:688-698 | The pod's exit code is the code with which the primary container ended, or 0 while it has not; it is nonzero iff that container's last turn was an end with that code |
| CapabilityDrop.Caller.DropCapabilities | src/isolate/caps.rs:56-154 | On success the capability that each name denotes is in none of the five sets; whatever the result, one that no name denotes is in each set iff it was before; an unenforceable policy is refused with nothing changed; without faults failure means exactly that; with faults only requested capabilities can be lost |
| CapabilityDrop.ValuesAreDenoted | src/isolate/caps.rs:65-77 | The numbers requested are those that some name denotes, each of them and no other |
| CapabilityDrop.EnforceableByName | src/isolate/caps.rs:65-97 | A policy can be carried out iff it is empty, or every name is known to this kernel and none denotes a bounding capability unless CAP_SETPCAP is effective |
| CapabilityDrop.Caller.Enforce | src/isolate/caps.rs:99-147 | The bounding, ambient and capset transitions and the read-back, even when CAP_SETPCAP itself goes |
| CapabilityDrop.Caller.CheckPolicy | src/isolate/caps.rs:65-77 | The whole policy is checked before any change, and yields the set of numbers |
| CapabilityDrop.Caller.NeedsBoundingDrop | src/isolate/caps.rs:85-91 | The preflight asks whether any requested number is in the bounding set |
| CapabilityDrop.Caller.ReadStates | src/isolate/caps.rs:131-147 | The read-back says whether any requested number is left in any of the five sets |
| CapabilityDrop.SameNumbersSamePolicy | src/isolate/caps.rs:65-77 | Only the numbers denoted matter, not order or repetition of names |
| CapabilityBits.ClearCapabilityBits | src/isolate/caps.rs:339-353 | Clearing a capability in the two words, in place, removes that number from the three sets and no other; from 64 on it is refused |
| CapabilityBits.DenotesBits | src/isolate/caps.rs:327-337 | The mask test reads exactly the bit of that number in the 64 bits |
| CapabilityBits.ClearedField | src/isolate/caps.rs:339-345 | Masking one word removes one number from the set the two words denote |
| CapabilityNames.ParseIsExact | src/isolate/caps.rs:156-175 | A string that neither begins nor ends in whitespace, padded or not, denotes number n iff it is the n-th name of the table up to the case of ASCII letters, in full or without CAP_ |
| CapabilityNames.BlankIsUnknown | src/isolate/caps.rs:156-160 | A string of whitespace denotes nothing |
| CapabilityNames.PaddingIsIgnored | src/isolate/caps.rs:156-160 | Whitespace around a name does not matter |
| CapabilityNames.CaseIsIgnored | src/isolate/caps.rs:162-167 | Letter case does not matter |
| CapabilityNames.PrefixIsOptional | src/isolate/caps.rs:163-167 | The CAP_ prefix is optional |
| CapabilityNames.NumbersAreExact | src/isolate/caps.rs:355-400 | Exactly the 41 names are known; each has the number of its place, up to 40, and no two names share a number |
| Capabilities.DroppedStaysDropped | src/isolate/caps.rs:104-147 | A capability in none of the five sets stays out of all of them through any sequence of execve, capset, prctl and identity changes |
| Capabilities.DropIsForever | src/isolate/caps.rs:104-147 | So what a successful drop removed never comes back |
| Capabilities.BoundingDecides | src/isolate/caps.rs:104-111 | If only the bounding set were left out of the drop, the process could get the capability back: it can iff the bounding set still has it and no_new_privs is not set |
| Capabilities.NothingIsGained | src/isolate/mod.rs:54-57 | Under no_new_privs, which the child sets before the drop, a capability that is not permitted never is again, whatever the bounding set has |
| Capabilities.MovesKeepValid | src/isolate/caps.rs:113-115 | The kernel's own invariant on the sets holds through such a life |
| Outbox.NothingAcceptedIsDropped | src/store/liminal.rs:129-199 | Over any calls and any link: accepted is sent followed by pending, and is what was offered until the queue first filled |
| Outbox.PeerMissesExactly | src/store/liminal.rs:44-47 | Over any run the peer misses a payload that has left the queue iff it was reported as sent, was still in transit when its socket was lost, and no failed write of it had got through |
| Outbox.MissedForEver | src/store/liminal.rs:147-199 | What the peer has missed is never sent again |
| Outbox.ConnectionShowsRun | src/store/liminal.rs:147-199 | Over any run of a new store: what the peer gets on a connection is a stretch of the offered payloads, in order and without a gap, from the connection's first one on |
| Outbox.OrderNeverBreaks | src/store/liminal.rs:147-199 | Over any run of a new store: from connection to connection the peer never goes back, and it sees a payload twice only if the write that cost a connection had reached it all the same |
| Outbox.SentPayloadCanVanish | src/store/liminal.rs:147-199 | A concrete run in which a payload is reported as sent, the peer never gets it, and gets the ones after it |
| Outbox.CallIsSafe | src/store/liminal.rs:129-145 | One call keeps the invariant; a refused call changes nothing; after an accepted one the queue is empty or the socket gone |
| Outbox.AcceptedIsPrefix | src/store/liminal.rs:137-144 | Payloads are accepted until the queue first fills, and none after |
| Outbox.FullIsForever | src/store/liminal.rs:137-142 | A full queue stays full whatever the link does later |
| Outbox.FullIsReachable | src/store/liminal.rs:129-145 | 1024 calls while the link is down fill the queue of a new store with exactly their payloads, and no later call changes anything, whatever the link does |
| Outbox.WorkingLinkDrains | src/store/liminal.rs:147-199 | Over a link that works one call empties a queue that was not full, in order |
| Outbox.CallDrainsExactly | src/store/liminal.rs:137-199 | A call over a link that works empties the queue if and only if it held fewer than 1024 payloads |
| Outbox.LiminalStore.SendImpulse | src/store/liminal.rs:129-145 | The method takes the step of the model; it succeeds iff fewer than 1024 payloads were pending, and a refusal leaves queue and socket alone |
| Outbox.LiminalStore.FlushPending | src/store/liminal.rs:147-199 | The loop ends, never writes without a socket, and takes the recursive flush's result |
| Outbox.LiminalStore.WithUrl | src/store/liminal.rs:72-95 | The store opens whether or not the link is up |
| IpAllocator.IpAllocator.Allocate | src/isolate/net.rs:29-53 | The k-th success hands out the k-th address of the pool whatever was released, and its text reads 10, 44, 1 + k / 244 and 10 + k % 244 between its dots; 61,976 succeed and every later call fails; the loop ends |
| IpAllocator.AddressReads | src/isolate/net.rs:43-44 | The text of every address splits at its dots into those four numerals |
| IpAllocator.FirstAddress | src/isolate/net.rs:29-44 | The first address is 10.44.1.10 |
| IpAllocator.IpAllocator.Release | src/isolate/net.rs:56-64 | A release removes the address from those in use and brings none back |
| IpAllocator.AddressesAreDistinct | src/isolate/net.rs:43-44 | No two places of the pool have the same address text |
| Dns.FqdnReads | src/isolate/dns.rs:97-105 | The full name of a service splits at its dots into service, pod and garden |
| Dns.UnregisterIsExact | src/isolate/dns.rs:112-130 | Removing by suffix removes one pod's entries and no others, if and only if no entry of another pod clashes with its name |
| Dns.RegisterIsExact | src/isolate/dns.rs:97-109 | Registering updates one entry of the map on pairs, if and only if no other entry has the name with another address |
| Dns.CallsAreExact | src/isolate/dns.rs:97-130 | Over any sequence of calls and whatever the names: the string-keyed registry is at every moment the map on (service, pod) that the calls mean iff each call was harmless, as the two lemmas above have it, when it was made |
| Dns.DotFreeNamesRefine | src/isolate/dns.rs:97-130 | Among pods without dots in their names every sequence of calls is harmless, so the registry is that map after it |
| Dns.LookupIsExact | src/isolate/dns.rs:41-43 | A lookup of the full name of a dot-free pod's service finds the address of that very service, or nothing |
| Dns.SuffixMatches | src/isolate/dns.rs:112-123 | Exactly when the name of one pod's service ends in another pod's suffix, for any names |
| Dns.DottedPodsCollide | src/isolate/dns.rs:97-123 | Names with dots for which removal and registration go wrong |
| Dns.ServiceRegistry.UnregisterPodServices | src/isolate/dns.rs:112-130 | The removal loop takes one pod's entries away and leaves the registry representing the rest, iff no other pod's entry clashes; among dot-free pods always |
| Dns.ServiceRegistry.RegisterService | src/isolate/dns.rs:97-109 | A registration leaves the registry representing the map with that one entry changed, iff no other entry goes by the name with another address; among dot-free pods always |

## Left out

- Mounts, pivot_root, overlay, `ip`, cgroup and /proc file contents, and seccomp filters: each is a step that succeeds or fails.
- WebSocket and serde internals; `encode_lifecycle_impulse`: the outbox carries its payloads as opaque text.
- The poisoned-lock error of the outbox: nothing panics while the lock is held (`FlushPending` never writes without a socket).
- Room on the socket is counted in lines; a garbled line of the protocol stands for one that read_line refuses as well as for one that the parser refuses (`Channel.LinesAreHeard`), and the text of a failure report is left out.
- Json: arrays, literals, fractions, exponents, surrogate pairs and duplicate keys are refused or ignored; no notice has any.
- `child_exec_static`, `apply_child` and the clone closure are a step function on values, not methods: the child interleaves with the supervisor, whose program is the one in imperative form.
- `cgroups_requested`, `map_rootless`, `enable` and the like are flags of a configuration; the socket holds at least one line.
- Stopped and continued children of `run`; a waitpid that fails and lets the kill path of `abort_blocked_child` run.
- The restart after backoff, a TODO in the source, is a step that starts a container again from Backoff at any time.
- `restart_count` is a u32 in the source and unbounded here: twenty restarts in ten minutes do not reach its end.
- Events that a forked pod child writes through its own copy of the store, network set-up, and the run status record of a pod.
- CapabilityDrop.Caller.DropCapabilities: takes the requested capabilities in any order, of which the source's ascending order is one.
- Capabilities: securebits and file ownership only restrict execve further; new user namespaces, where a process has other capabilities, are outside the model.
- `allocated_count`, `allocated_ips`, `list` and `lookup`: they read one field.
- The CLI, metrics, DNS server thread, OCI import, CAS, pacts, key store, volumes and Seed parsing.
