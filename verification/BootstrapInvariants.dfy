/** The proof outline of the bootstrap protocol: what holds at each place of each
    task. `SupervisorInv` speaks of what only the supervisor changes, `ChildInv`
    of what only the child changes, and `Agreement` ties the two together. */
module BootstrapInvariants {
  import opened Namespaces
  import opened Notices
  import opened Options
  import opened Processes
  import opened Bootstrap

  // ---------------------------------------------------------------- the evidence log

  function Head(cfg: Config): seq<Event> {
    [RunCreated, SeedLoaded] + if cfg.cgroups then [CgroupApplied] else []
  }

  function NamespacePart(cfg: Config): seq<Event> {
    [NsCreated] + if cfg.mapRootless then [IdmapApplied] else []
  }

  function IsolationPart(cfg: Config): seq<Event> {
    [MountDone] + (if cfg.dropCaps then [CapsDropped] else []) + if cfg.seccomp then [SeccompEnabled] else []
  }

  /** The events of a run that reaches the workload. */
  function Script(cfg: Config): seq<Event> {
    Head(cfg) + NamespacePart(cfg) + IsolationPart(cfg) + [ProcessStarted]
  }

  /** The log once `k` notices have been handled. */
  function LogAfter(cfg: Config, k: nat): seq<Event> {
    if k == 0 then Head(cfg)
    else if k == 1 then Head(cfg) + NamespacePart(cfg)
    else if k == 2 then Head(cfg) + NamespacePart(cfg) + IsolationPart(cfg)
    else Script(cfg)
  }

  /** The log at a place of the reader loop where `accepted` notices have passed. */
  function Written(cfg: Config, pc: SupervisorPc, accepted: nat): seq<Event> {
    match pc
    case LogNamespace => LogAfter(cfg, 0)
    case LogIdmap => LogAfter(cfg, 0) + [NsCreated]
    case LogMount => LogAfter(cfg, 1)
    case LogCaps => LogAfter(cfg, 1) + [MountDone]
    case LogSeccomp => LogAfter(cfg, 1) + [MountDone] + if cfg.dropCaps then [CapsDropped] else []
    case LogStart => LogAfter(cfg, 2)
    case _ => LogAfter(cfg, accepted)
  }

  predicate EndsRun(e: Event) { e.ProcessExit? || e.ProcessFailed? }

  /** The log without the event that ends the run. */
  function Body(log: seq<Event>): seq<Event> {
    if 0 < |log| && EndsRun(log[|log| - 1]) then log[..|log| - 1] else log
  }

  // ---------------------------------------------------------------- the supervisor

  predicate NothingSeen(s: Supervisor) {
    && !s.sawNamespace && !s.sawIsolation && !s.sawProcessStart && s.accepted == 0
    && !s.reportedFailure && !s.protocolError && !s.namespacesChanged
  }

  predicate GuardFresh(s: Supervisor) {
    s.waitStatus.None? && s.cleanups == 0 && !s.stackFreed
  }

  predicate BeforeClone(s: Supervisor, h: Host) {
    NothingSeen(s) && GuardFresh(s) && s.result.Pending? && h == IDLE_HOST
  }

  /** The host side of the hand-over is complete. */
  predicate HandedOver(cfg: Config, h: Host) {
    (cfg.mapRootless ==> h.idMapped) && (cfg.cgroups ==> h.cgroupMoved)
  }

  predicate Blocked(cfg: Config, s: Supervisor, h: Host) {
    && NothingSeen(s) && GuardFresh(s) && s.result.Pending? && s.prepared == cfg.cgroups
    && h.task.Some? && !h.startWritten && !h.writeShut && h.received == 0
  }

  predicate Vouched(cfg: Config, s: Supervisor, h: Host) {
    h.task.Some? && IsolatedAsRequested(s.ids, h.task.value.ids, cfg.mapRootless, cfg.enableNet, h.task.value.pid)
  }

  /** From the start byte on, whatever happens. */
  predicate Launched(cfg: Config, s: Supervisor, h: Host) {
    && h.task.Some? && HandedOver(cfg, h) && h.startWritten && s.prepared == cfg.cgroups
    && s.accepted <= 3 && s.accepted <= h.received && (1 <= s.accepted ==> Vouched(cfg, s, h))
  }

  /** In the reader loop, with `k` notices handled and `n` lines taken. */
  predicate Reading(cfg: Config, s: Supervisor, h: Host, k: nat, n: nat) {
    && Launched(cfg, s, h) && GuardFresh(s) && s.result.Pending? && h.writeShut && h.endOpen
    && s.sawNamespace == (1 <= k) && s.sawIsolation == (2 <= k) && s.sawProcessStart == (3 <= k)
    && s.accepted == n == h.received
    && !s.reportedFailure && !s.protocolError && !s.namespacesChanged
  }

  /** The reader loop is over. */
  predicate Closed(cfg: Config, s: Supervisor, h: Host, log: seq<Event>) {
    && Launched(cfg, s, h) && s.cleanups == 0 && !s.stackFreed && s.accepted <= 3
    && s.sawNamespace == (1 <= s.accepted) && s.sawIsolation == (2 <= s.accepted)
    && s.sawProcessStart == (3 <= s.accepted)
    && log == LogAfter(cfg, s.accepted)
  }

  /** Everything `run` demands before it records an exit. */
  predicate Clean(s: Supervisor) {
    && s.sawNamespace && s.sawIsolation && s.sawProcessStart
    && !s.protocolError && !s.reportedFailure && !s.namespacesChanged
    && s.waitStatus.Some? && s.waitStatus.value.Exited?
  }

  /** The exit code `run` may record, if it may record one. */
  function CleanExit(s: Supervisor): Option<int> {
    if Clean(s) then Some(s.waitStatus.value.code) else None
  }

  /** What every place after clone may rely on about the log: its body is backed by
      accepted notices, and an event that ends the run by the clean exit code. */
  predicate LogBacked(cfg: Config, accepted: nat, exit: Option<int>, reaped: bool, handedOver: bool, log: seq<Event>) {
    && Body(log) <= LogAfter(cfg, accepted)
    && (2 < |Body(log)| ==> handedOver)
    && (Body(log) != log && log[|log| - 1].ProcessFailed? ==> reaped && exit.None?)
    && (Body(log) != log && log[|log| - 1].ProcessExit? ==>
          reaped && exit == Some(log[|log| - 1].code) && accepted == 3 && Body(log) == Script(cfg))
  }

  predicate Backed(cfg: Config, s: Supervisor, h: Host, log: seq<Event>) {
    && LogBacked(cfg, s.accepted, CleanExit(s), s.Reaped(), HandedOver(cfg, h), log)
    && s.accepted <= 3 && (1 <= s.accepted ==> Launched(cfg, s, h))
  }

  /** Status and log name the same outcome, the one the checks of `run` call for. */
  predicate Recorded(exit: Option<int>, result: RunResult, log: seq<Event>, status: RunStatus) {
    && 0 < |log| && result.Code?
    && match exit
       case Some(code) => result == Code(code) && status == StatusExited(code) && log[|log| - 1] == ProcessExit(code)
       case None => status == StatusFailed && log[|log| - 1] == ProcessFailed
  }

  predicate Unwinding(cfg: Config, s: Supervisor, h: Host, log: seq<Event>, status: RunStatus) {
    && Backed(cfg, s, h, log) && h.task.Some? && s.prepared == cfg.cgroups && !s.result.Pending?
    && (s.result.Code? ==> s.Reaped() && Recorded(CleanExit(s), s.result, log, status))
  }

  predicate SupervisorInv(cfg: Config, s: Supervisor, h: Host, log: seq<Event>, status: RunStatus) {
    var started := [RunCreated, SeedLoaded];
    match s.pc
    case CaptureBefore => BeforeClone(s, h) && !s.prepared && log == []
    case StoreSeed => BeforeClone(s, h) && !s.prepared && log == []
    case CreateRun => BeforeClone(s, h) && !s.prepared && log == []
    case LogRunCreated => BeforeClone(s, h) && !s.prepared && log == []
    case LogSeedLoaded => BeforeClone(s, h) && !s.prepared && log == [RunCreated]
    case PrepareCgroup => BeforeClone(s, h) && !s.prepared && log == started
    case OpenSocket => BeforeClone(s, h) && s.prepared == cfg.cgroups && log == started
    case Clone => BeforeClone(s, h) && s.prepared == cfg.cgroups && log == started
    case MapIds => Blocked(cfg, s, h) && h.endOpen && cfg.mapRootless && log == started
    case MoveCgroup =>
      Blocked(cfg, s, h) && h.endOpen && cfg.cgroups && (cfg.mapRootless ==> h.idMapped) && log == started
    case LogCgroup => Blocked(cfg, s, h) && h.endOpen && cfg.cgroups && HandedOver(cfg, h) && log == started
    case SetRunning => Blocked(cfg, s, h) && h.endOpen && HandedOver(cfg, h) && log == Head(cfg)
    case Release => Blocked(cfg, s, h) && h.endOpen && HandedOver(cfg, h) && log == Head(cfg)
    case ShutWrite =>
      && NothingSeen(s) && GuardFresh(s) && s.result.Pending? && Launched(cfg, s, h)
      && h.endOpen && h.received == 0 && log == Head(cfg)
    case Read => Reading(cfg, s, h, s.accepted, s.accepted) && log == Written(cfg, s.pc, s.accepted)
    case LogNamespace => Reading(cfg, s, h, 0, 1) && log == Written(cfg, s.pc, 1)
    case LogIdmap => Reading(cfg, s, h, 0, 1) && cfg.mapRootless && log == Written(cfg, s.pc, 1)
    case LogMount => Reading(cfg, s, h, 1, 2) && log == Written(cfg, s.pc, 2)
    case LogCaps => Reading(cfg, s, h, 1, 2) && cfg.dropCaps && log == Written(cfg, s.pc, 2)
    case LogSeccomp => Reading(cfg, s, h, 1, 2) && cfg.seccomp && log == Written(cfg, s.pc, 2)
    case LogStart => Reading(cfg, s, h, 2, 3) && log == Written(cfg, s.pc, 3)
    case Judge =>
      Closed(cfg, s, h, log) && s.waitStatus.None? && s.result.Pending? && !s.namespacesChanged
    case Wait =>
      && Closed(cfg, s, h, log) && s.waitStatus.None? && s.result.Pending? && !s.namespacesChanged
      && (s.protocolError ==> s.kills != [])
    case CaptureAfter(observed) =>
      && Closed(cfg, s, h, log) && s.waitStatus == Some(observed) && s.result.Pending? && !s.namespacesChanged
    case AbortClose => Blocked(cfg, s, h) && h.endOpen && Backed(cfg, s, h, log) && Body(log) == log
    case AbortWait => Blocked(cfg, s, h) && !h.endOpen && Backed(cfg, s, h, log) && Body(log) == log
    case RecordFailed =>
      && Backed(cfg, s, h, log) && Body(log) == log && h.task.Some? && s.prepared == cfg.cgroups
      && s.Reaped() && !Clean(s) && s.result.Code? && s.cleanups == 0 && !s.stackFreed
    case SetFailed =>
      && Backed(cfg, s, h, log) && 0 < |log| && log[|log| - 1] == ProcessFailed
      && h.task.Some? && s.prepared == cfg.cgroups
      && s.Reaped() && !Clean(s) && s.result.Code? && s.cleanups == 0 && !s.stackFreed
    case LogExit(code) =>
      && Closed(cfg, s, h, log) && Clean(s) && s.waitStatus == Some(Exited(code)) && s.result == Code(code)
    case SetExited(code) =>
      && Backed(cfg, s, h, log) && log == Script(cfg) + [ProcessExit(code)]
      && h.task.Some? && s.prepared == cfg.cgroups && s.cleanups == 0 && !s.stackFreed
      && Clean(s) && s.waitStatus == Some(Exited(code)) && s.result == Code(code)
    case DropGuard => Unwinding(cfg, s, h, log, status) && s.cleanups == 0 && !s.stackFreed
    case GuardWait =>
      Unwinding(cfg, s, h, log, status) && s.cleanups == 0 && !s.stackFreed && !s.Reaped() && s.kills != []
    case Cleanup => Unwinding(cfg, s, h, log, status) && s.cleanups == 0 && !s.stackFreed && s.Reaped()
    case FreeStack =>
      && Unwinding(cfg, s, h, log, status) && !s.stackFreed && s.Reaped()
      && s.cleanups == if cfg.cgroups then 1 else 0
    case Returned =>
      if h.task.None? then
        && h == IDLE_HOST && s.result.Failure? && !s.Reaped() && !s.stackFreed && NothingSeen(s)
        && log <= started
      else
        && Unwinding(cfg, s, h, log, status) && s.stackFreed && s.Reaped()
        && s.cleanups == if cfg.cgroups then 1 else 0
  }

  // ---------------------------------------------------------------- the child

  predicate NamespaceFacts(cfg: Config, f: Facts) { f.released && (cfg.mapRootless ==> f.identity) }

  predicate IsolationFacts(cfg: Config, f: Facts) {
    && NamespaceFacts(cfg, f) && f.mounts && f.noNewPrivs && (cfg.mapRootless ==> f.verified)
    && (cfg.hostname ==> f.hostname) && (cfg.dropCaps ==> f.capsDropped) && (cfg.seccomp ==> f.seccomp)
  }

  predicate StartFacts(cfg: Config, f: Facts) { IsolationFacts(cfg, f) && f.prepared }

  /** no_new_privs before the capability drop before seccomp, and all of it before exec. */
  predicate Ordered(cfg: Config, f: Facts) {
    && (f.capsDropped || f.seccomp ==> f.noNewPrivs)
    && (f.seccomp && cfg.dropCaps ==> f.capsDropped)
    && (f.execed ==> StartFacts(cfg, f))
  }

  /** Program order; `ReportFailure` and `Exiting` lie off the straight path. */
  function Rank(pc: ChildPc): nat {
    match pc
    case CloseDuplicate => 0 case Gate => 1 case EnterIdentity => 2 case CaptureNs => 3
    case SendNamespace => 4 case VerifyIdentity => 5 case SetHostname => 6 case SetupMounts => 7
    case NoNewPrivs => 8 case DropCaps => 9 case Seccomp => 10 case SendIsolation => 11
    case Prepare => 12 case SendStart => 13 case Exec => 14 case Workload => 15
    case ReportFailure => 16 case Exiting => 17
  }

  predicate Straight(pc: ChildPc) { !pc.ReportFailure? && !pc.Exiting? }

  /** What the straight path has established on reaching rank `n`. */
  predicate FactsAt(cfg: Config, n: nat, f: Facts) {
    && f.released == (1 < n)
    && f.identity == (cfg.mapRootless && 2 < n) && f.verified == (cfg.mapRootless && 5 < n)
    && f.hostname == (cfg.hostname && 6 < n)
    && f.mounts == (7 < n)
    && f.noNewPrivs == (8 < n)
    && f.capsDropped == (cfg.dropCaps && 9 < n)
    && f.seccomp == (cfg.seccomp && 10 < n)
    && f.prepared == (12 < n)
    && f.execed == (14 < n)
  }

  function Plan(task: Task, i: nat): ChildNotice {
    if i == 0 then NamespaceReady(task.ids, task.pid) else if i == 1 then IsolationReady else ProcessStart(task.pid)
  }

  predicate EndsTalk(l: Line) { l.Garbled? || l.notice.Failed? }

  /** How many of the planned notices have been sent whole. */
  function Progress(sent: seq<Line>): nat {
    if 0 < |sent| && EndsTalk(sent[|sent| - 1]) then |sent| - 1 else |sent|
  }

  function Due(pc: ChildPc): nat {
    if Rank(pc) <= 4 then 0 else if Rank(pc) <= 11 then 1 else if Rank(pc) <= 13 then 2 else 3
  }

  /** The lines are the planned notices in order, then at most one that ends the talk. */
  predicate Talk(task: Task, sent: seq<Line>) {
    && Progress(sent) <= 3
    && forall i :: 0 <= i < Progress(sent) ==> sent[i] == Whole(Plan(task, i))
  }

  predicate ChildInv(cfg: Config, task: Task, c: Child) {
    && Ordered(cfg, c.facts) && Talk(task, c.sent)
    && (1 <= Progress(c.sent) ==> NamespaceFacts(cfg, c.facts))
    && (2 <= Progress(c.sent) ==> IsolationFacts(cfg, c.facts))
    && (3 <= Progress(c.sent) ==> StartFacts(cfg, c.facts))
    && (c.lineOpen ==> 0 < |c.sent|) && (Straight(c.pc) ==> !c.lineOpen)
    && (Straight(c.pc) ==> Progress(c.sent) == |c.sent| == Due(c.pc) && FactsAt(cfg, Rank(c.pc), c.facts))
    && (c.pc.ReportFailure? ==> c.facts.released && !c.facts.execed && (Progress(c.sent) < |c.sent| ==> c.lineOpen))
    && (c.pc.Exiting? ==> !c.facts.execed)
    && (Progress(c.sent) < |c.sent| && c.sent[|c.sent| - 1].Whole? ==> c.pc.Exiting?)
    && c.duplicateOpen == (c.pc.CloseDuplicate? && c.dead.None?)
    && c.endOpen == (!c.pc.Workload? && c.dead.None?)
    && (c.dead.Some? && c.dead.value.Exited? ==>
          c.pc.Workload? || (c.pc.Exiting? && c.dead.value.code == BOOTSTRAP_FAILURE))
  }

  // ---------------------------------------------------------------- between the two

  /** The reader loop has met the end of the stream. */
  predicate LoopEnded(s: Supervisor) {
    (s.pc.Judge? || s.pc.Wait?) && !s.protocolError && !s.reportedFailure
  }

  predicate Agreement(cfg: Config, w: World) {
    && 1 <= cfg.capacity
    && (w.host.task.None? ==> w.child == NEW_CHILD)
    && (w.sup.Reaped() ==> w.child.dead == w.sup.waitStatus)
    && w.host.received <= |w.child.sent| && |w.child.sent| - w.host.received <= cfg.capacity
    && w.sup.accepted <= Progress(w.child.sent) && w.sup.accepted <= w.host.received
    && (w.child.lineOpen && w.child.endOpen ==> w.host.received < |w.child.sent|)
    && (w.host.startWritten ==> HandedOver(cfg, w.host))
    && (w.child.facts.released ==> w.host.startWritten)
    && (w.sup.reportedFailure ==> w.child.pc.Exiting?)
    && (LoopEnded(w.sup) ==> !w.child.endOpen)
  }

  predicate Inv(cfg: Config, w: World) {
    && SupervisorInv(cfg, w.sup, w.host, w.log, w.status)
    && (w.host.task.Some? ==> ChildInv(cfg, w.host.task.value, w.child))
    && Agreement(cfg, w)
  }
}
