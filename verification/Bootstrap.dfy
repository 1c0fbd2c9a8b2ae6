/** The supervisor/workload bootstrap protocol of src/process.rs as a step system.

    Two tasks run side by side: the supervisor (`ProcessRunner::run`, with
    `abort_blocked_child` and the Drop of `ClonedWorkload`) and the cloned task
    (the clone closure, `child_exec_static` and `IsolationConfig::apply_child`).
    They share a socket pair. Every system call and every store call is one
    step, and each may fail. An `Action` names the side that moves and how its
    call ends, so `Can` and `Do` range over every interleaving and every fault. */
module Bootstrap {
  import opened Namespaces
  import opened Notices
  import opened Options
  import opened Processes

  /** What the Seed asks for; `capacity` is how many unread notices the socket holds. */
  datatype Config = Config(
    mapRootless: bool, enableNet: bool, hostname: bool, cgroups: bool,
    dropCaps: bool, seccomp: bool, capacity: nat)

  datatype Event =
    | RunCreated | SeedLoaded | CgroupApplied | NsCreated | IdmapApplied
    | MountDone | CapsDropped | SeccompEnabled | ProcessStarted
    | ProcessExit(code: int) | ProcessFailed

  datatype RunStatus = NoRecord | StatusInit | StatusRunning | StatusExited(code: int) | StatusFailed

  const BOOTSTRAP_FAILURE := 125

  // ---------------------------------------------------------------- state

  datatype ChildPc =
    | CloseDuplicate | Gate | EnterIdentity | CaptureNs | SendNamespace
    | VerifyIdentity | SetHostname | SetupMounts | NoNewPrivs | DropCaps | Seccomp | SendIsolation
    | Prepare | SendStart | Exec | Workload
    | ReportFailure | Exiting

  /** What has really happened to the cloned task. */
  datatype Facts = Facts(
    released: bool, identity: bool, verified: bool, hostname: bool, mounts: bool, noNewPrivs: bool,
    capsDropped: bool, seccomp: bool, prepared: bool, execed: bool)

  /** One line of the evidence channel: a whole notice, or one cut short. */
  datatype Line = Whole(notice: ChildNotice) | Garbled

  /** The cloned task and what it owns. `sent` is every line it has begun and
      `lineOpen` says the last one has no newline yet; `duplicateOpen` is its copy
      of the supervisor's socket end, `endOpen` its own end. */
  datatype Child = Child(
    pc: ChildPc, dead: Option<WaitStatus>, facts: Facts,
    sent: seq<Line>, lineOpen: bool, duplicateOpen: bool, endOpen: bool)

  /** The identity the kernel gives the cloned task. */
  datatype Task = Task(ids: NamespaceIds, pid: int)

  /** What the supervisor has done to the host: the child it cloned, the hand-over
      steps, its socket end, and how many lines it has taken from that end. */
  datatype Host = Host(
    task: Option<Task>, idMapped: bool, cgroupMoved: bool,
    startWritten: bool, writeShut: bool, endOpen: bool, received: nat)

  datatype SupervisorPc =
    | CaptureBefore | StoreSeed | CreateRun | LogRunCreated | LogSeedLoaded
    | PrepareCgroup | OpenSocket | Clone
    | MapIds | MoveCgroup | LogCgroup | SetRunning | Release | ShutWrite
    | Read | LogNamespace | LogIdmap | LogMount | LogCaps | LogSeccomp | LogStart
    | Judge | Wait | CaptureAfter(observed: WaitStatus)
    | AbortClose | AbortWait
    | RecordFailed | SetFailed | LogExit(exitCode: int) | SetExited(exitCode: int)
    | DropGuard | GuardWait | Cleanup | FreeStack | Returned

  datatype RunResult = Pending | Code(code: int) | Failure

  /** A call of kill on the cloned task, and whether that was then a child not yet reaped. */
  datatype Kill = Kill(unreaped: bool)

  /** The locals of `run`, then the fields of the ClonedWorkload guard. `stored` says that the
      Seed's manifest was stored, `accepted` counts the notices that passed the reader's
      checks, and `kills` is the history of the calls of kill. */
  datatype Supervisor = Supervisor(
    pc: SupervisorPc, ids: NamespaceIds, stored: bool,
    sawNamespace: bool, sawIsolation: bool, sawProcessStart: bool, accepted: nat,
    reportedFailure: bool, protocolError: bool, namespacesChanged: bool, result: RunResult,
    waitStatus: Option<WaitStatus>, prepared: bool, kills: seq<Kill>, cleanups: nat, stackFreed: bool)
  {
    predicate Reaped() { waitStatus.Some? }
  }

  /** `cgroup` says that the run's cgroup directory exists; an earlier run may have left it. */
  datatype World = World(
    sup: Supervisor, host: Host, log: seq<Event>, status: RunStatus, child: Child, cgroup: bool)
  {
    predicate Alive() { host.task.Some? && child.dead.None? }

    predicate LineWaiting() { host.received < |child.sent| }

    /** The next line can be returned: its newline is there, or no writer is left. */
    predicate LineReady() {
      LineWaiting() && (host.received + 1 < |child.sent| || !child.lineOpen || !child.endOpen)
    }

    predicate EndOfStream() { !LineWaiting() && !child.endOpen }
  }

  const NO_FACTS := Facts(false, false, false, false, false, false, false, false, false, false)
  const NEW_CHILD := Child(CloseDuplicate, None, NO_FACTS, [], false, true, true)
  const IDLE_HOST := Host(None, false, false, false, false, false, 0)

  function NewSupervisor(ids: NamespaceIds): Supervisor {
    Supervisor(CaptureBefore, ids, false, false, false, false, 0, false, false, false, RunResult.Pending,
               None, false, [], 0, false)
  }

  predicate Init(cfg: Config, w: World) {
    1 <= cfg.capacity && w == World(NewSupervisor(w.sup.ids), IDLE_HOST, [], NoRecord, NEW_CHILD, w.cgroup)
  }

  /** How the call that a step makes ends. `Torn` is a failed call that took effect in part:
      a store error after the record was kept, a notice cut short, a cgroup whose directory
      was made and whose limits were not all set, or a clone whose clean-up failed too; at
      `CaptureAfter` it is a successful read that shows changed namespaces. `Bare` is a
      notice whose whole text was written, and not its newline. */
  datatype Outcome = Good | Bad | Torn | Bare | Cloned(task: Task) | Ends(status: WaitStatus)

  /** `Signal` is the kernel ending a live task by a signal, whoever sent it. */
  datatype Action = Sup(outcome: Outcome) | Kid(outcome: Outcome) | Signal(signal: nat)

  // ---------------------------------------------------------------- the child's steps

  /** A notice may be written in full, without its newline, cut short, or not at all; only the
      last when nobody can read it. A new line waits for room; the rest of an open line does not. */
  predicate CanSend(cfg: Config, h: Host, c: Child, o: Outcome) {
    if h.endOpen
    then (c.lineOpen || |c.sent| - h.received < cfg.capacity) && (o.Good? || o.Bad? || o.Torn? || o.Bare?)
    else o.Bad?
  }

  /** read_exact at the gate sees end of file. */
  predicate GateClosed(h: Host, c: Child) {
    !h.startWritten && (h.writeShut || (!h.endOpen && !c.duplicateOpen))
  }

  predicate KidCan(cfg: Config, h: Host, c: Child, o: Outcome) {
    match c.pc
    case CloseDuplicate => o.Good?
    case Gate => o.Bad? || (o.Good? && (h.startWritten || GateClosed(h, c)))
    case EnterIdentity => o.Good? || (o.Bad? && cfg.mapRootless)
    case CaptureNs => o.Good? || o.Bad?
    case SendNamespace => CanSend(cfg, h, c, o)
    case VerifyIdentity => o.Good? || (o.Bad? && cfg.mapRootless)
    case SetHostname => o.Good? || (o.Bad? && cfg.hostname)
    case SetupMounts => o.Good? || o.Bad?
    case NoNewPrivs => o.Good? || o.Bad?
    case DropCaps => o.Good? || (o.Bad? && cfg.dropCaps)
    case Seccomp => o.Good? || (o.Bad? && cfg.seccomp)
    case SendIsolation => CanSend(cfg, h, c, o)
    case Prepare => o.Good? || o.Bad?
    case SendStart => CanSend(cfg, h, c, o)
    case Exec => o.Good? || o.Bad?
    case Workload => o.Ends?
    case ReportFailure => CanSend(cfg, h, c, o)
    case Exiting => o.Good?
  }

  function Die(c: Child, status: WaitStatus): Child {
    c.(dead := Some(status), duplicateOpen := false, endOpen := false)
  }

  /** On success go on to `pc`; `?` in `child_exec_static` reports the error and returns 125. */
  function Goes(c: Child, o: Outcome, pc: ChildPc, facts: Facts): Child {
    c.(pc := if o.Good? then pc else ReportFailure, facts := if o.Good? then facts else c.facts)
  }

  /** The line that a call of send_notice begins, if it writes anything. */
  function Begins(notice: ChildNotice, o: Outcome): seq<Line> {
    if o.Good? || o.Bare? then [Whole(notice)] else if o.Torn? then [Garbled] else []
  }

  function Sends(c: Child, notice: ChildNotice, o: Outcome, next: ChildPc): Child {
    c.(pc := if o.Good? then next else ReportFailure,
       sent := c.sent + Begins(notice, o),
       lineOpen := o.Torn? || o.Bare?)
  }

  /** Whatever is written after the start of a line makes it unreadable. */
  function Spoilt(sent: seq<Line>): seq<Line> {
    if sent == [] then [] else sent[..|sent| - 1] + [Garbled]
  }

  function KidDo(cfg: Config, h: Host, c: Child, o: Outcome): Child
    requires KidCan(cfg, h, c, o) && h.task.Some?
  {
    var f, task := c.facts, h.task.value;
    match c.pc
    case CloseDuplicate => c.(pc := Gate, duplicateOpen := false)
    case Gate =>
      var passed := o.Good? && h.startWritten;
      c.(pc := if passed then EnterIdentity else Exiting, facts := f.(released := passed))
    case EnterIdentity => Goes(c, o, CaptureNs, f.(identity := cfg.mapRootless))
    case CaptureNs => Goes(c, o, SendNamespace, f)
    case SendNamespace => Sends(c, NamespaceReady(task.ids, task.pid), o, VerifyIdentity)
    case VerifyIdentity => Goes(c, o, SetHostname, f.(verified := cfg.mapRootless))
    case SetHostname => Goes(c, o, SetupMounts, f.(hostname := cfg.hostname))
    case SetupMounts => Goes(c, o, NoNewPrivs, f.(mounts := true))
    case NoNewPrivs => Goes(c, o, DropCaps, f.(noNewPrivs := true))
    case DropCaps => Goes(c, o, Seccomp, f.(capsDropped := cfg.dropCaps))
    case Seccomp => Goes(c, o, SendIsolation, f.(seccomp := cfg.seccomp))
    case SendIsolation => Sends(c, IsolationReady, o, Prepare)
    case Prepare => Goes(c, o, SendStart, f.(prepared := true))
    case SendStart => Sends(c, ProcessStart(task.pid), o, Exec)
    case Exec =>
      // FD_CLOEXEC: the new program does not inherit the evidence channel.
      Goes(c, o, Workload, f.(execed := true)).(endOpen := !o.Good?)
    case Workload => Die(c, o.status)
    case ReportFailure =>
      // After a notice without its newline the report lands on the same line, and at best ends it.
      c.(pc := Exiting,
         sent := if c.lineOpen then (if o.Bad? then c.sent else Spoilt(c.sent)) else c.sent + Begins(Failed(""), o),
         lineOpen := if c.lineOpen then !o.Good? else o.Torn? || o.Bare?)
    case Exiting => Die(c, Exited(BOOTSTRAP_FAILURE))
  }

  // ---------------------------------------------------------------- the supervisor's steps

  predicate StoreCall(o: Outcome) { o.Good? || o.Bad? || o.Torn? }

  predicate SupCan(cfg: Config, w: World, o: Outcome) {
    match w.sup.pc
    case CaptureBefore => o.Good? || o.Bad?
    case StoreSeed => StoreCall(o)
    case CreateRun => StoreCall(o)
    case LogRunCreated => StoreCall(o)
    case LogSeedLoaded => StoreCall(o)
    case PrepareCgroup => o.Good? || ((o.Bad? || o.Torn?) && cfg.cgroups)
    case OpenSocket => o.Good? || o.Bad?
    case Clone => o.Cloned? || o.Bad? || o.Torn?
    case MapIds => o.Good? || o.Bad?
    case MoveCgroup => o.Good? || o.Bad?
    case LogCgroup => StoreCall(o)
    case SetRunning => StoreCall(o)
    case Release => o.Good? || o.Bad?
    case ShutWrite => o.Good? || o.Bad?
    case Read => o.Bad? || (o.Good? && (w.LineReady() || w.EndOfStream()))
    case LogNamespace => StoreCall(o)
    case LogIdmap => StoreCall(o)
    case LogMount => StoreCall(o)
    case LogCaps => StoreCall(o)
    case LogSeccomp => StoreCall(o)
    case LogStart => StoreCall(o)
    case Judge => o.Good?
    case Wait => o.Good? && w.child.dead.Some?
    case CaptureAfter(_) => o.Good? || o.Bad? || o.Torn?
    case AbortClose => o.Good?
    case AbortWait => o.Good? && w.child.dead.Some?
    case RecordFailed => StoreCall(o)
    case SetFailed => StoreCall(o)
    case LogExit(_) => StoreCall(o)
    case SetExited(_) => StoreCall(o)
    case DropGuard => o.Good?
    case GuardWait => o.Good? && w.child.dead.Some?
    case Cleanup => o.Good? || o.Bad?
    case FreeStack => o.Good?
    case Returned => false
  }

  function At(w: World, pc: SupervisorPc): World { w.(sup := w.sup.(pc := pc)) }

  /** Before clone: on to `next`, or an error return; nothing of the workload exists yet. */
  function Tries(w: World, o: Outcome, next: SupervisorPc): World {
    w.(sup := w.sup.(pc := if o.Good? then next else Returned,
                     result := if o.Good? then w.sup.result else Failure))
  }

  /** store_seed_manifest; a call that fails may have stored the manifest all the same. */
  function Stores(w: World, o: Outcome): World {
    w.(sup := w.sup.(pc := if o.Good? then CreateRun else Returned,
                     result := if o.Good? then w.sup.result else Failure, stored := w.sup.stored || !o.Bad?))
  }

  /** apply_parent prepares a cgroup if the Seed asks for one: it makes the directory and then
      sets the limits. */
  function Prepares(cfg: Config, w: World, o: Outcome): World {
    w.(sup := w.sup.(pc := if o.Good? then OpenSocket else Returned,
                     result := if o.Good? then w.sup.result else Failure,
                     prepared := cfg.cgroups && o.Good?),
       cgroup := w.cgroup || (cfg.cgroups && !o.Bad?))
  }

  /** After clone: on to `next`, or an error return through the guard. Once the
      reader owns the supervisor's socket end it is dropped before the guard,
      otherwise after it. */
  function Unwinds(w: World, o: Outcome, next: SupervisorPc, readerOwnsEnd: bool): World {
    w.(sup := w.sup.(pc := if o.Good? then next else DropGuard,
                     result := if o.Good? then w.sup.result else Failure),
       host := w.host.(endOpen := w.host.endOpen && (o.Good? || !readerOwnsEnd)))
  }

  /** Hand-over steps that fail tell the blocked child to give up. */
  function Aborts(w: World, o: Outcome, next: SupervisorPc): World {
    At(w, if o.Good? then next else AbortClose)
  }

  function Kept(log: seq<Event>, e: Event, o: Outcome): seq<Event> {
    if o.Bad? then log else log + [e]
  }

  function Logs(w: World, e: Event, o: Outcome, next: SupervisorPc, readerOwnsEnd: bool): World {
    Unwinds(w, o, next, readerOwnsEnd).(log := Kept(w.log, e, o))
  }

  function SetsStatus(w: World, s: RunStatus, o: Outcome, next: SupervisorPc, readerOwnsEnd: bool): World {
    Unwinds(w, o, next, readerOwnsEnd).(status := if o.Bad? then w.status else s)
  }

  function AfterClone(cfg: Config): SupervisorPc {
    if cfg.mapRootless then MapIds else AfterMap(cfg)
  }

  function AfterMap(cfg: Config): SupervisorPc {
    if cfg.cgroups then MoveCgroup else SetRunning
  }

  function AfterNamespace(cfg: Config): SupervisorPc {
    if cfg.mapRootless then LogIdmap else Read
  }

  function AfterMount(cfg: Config): SupervisorPc {
    if cfg.dropCaps then LogCaps else AfterCaps(cfg)
  }

  function AfterCaps(cfg: Config): SupervisorPc {
    if cfg.seccomp then LogSeccomp else Read
  }

  /** `saw_namespace` and `saw_isolation` are set once the last of a notice's events is kept. */
  function SawNamespace(w: World): World {
    w.(sup := w.sup.(sawNamespace := w.sup.sawNamespace || w.sup.pc.Read?))
  }

  function SawIsolation(w: World): World {
    w.(sup := w.sup.(sawIsolation := w.sup.sawIsolation || w.sup.pc.Read?))
  }

  /** One pass of the reader loop over a line: a line that does not parse, fails a
      check or reports a failure ends the loop. */
  function Consume(cfg: Config, s: Supervisor, line: Line): Supervisor {
    var accepted :=
      line.Whole? &&
      match line.notice
      case NamespaceReady(ids, pid) => ValidateBoundary(s.ids, ids, cfg.mapRootless, cfg.enableNet, pid).Accepted?
      case IsolationReady => true
      case ProcessStart(pid) => pid == 1
      case Failed(_) => false;
    var failure := line.Whole? && line.notice.Failed?;
    s.(pc := if accepted then PlaceOf(line.notice) else Judge,
       accepted := s.accepted + if accepted then 1 else 0,
       reportedFailure := failure,
       protocolError := !accepted && !failure)
  }

  function PlaceOf(notice: ChildNotice): SupervisorPc {
    match notice
    case NamespaceReady(_, _) => LogNamespace
    case IsolationReady => LogMount
    case ProcessStart(_) => LogStart
    case Failed(_) => Judge
  }

  /** What `run` decides once the child is reaped and its own namespaces are read again. */
  function Decide(s: Supervisor, status: WaitStatus): Supervisor {
    var error := s.namespacesChanged || s.protocolError || s.reportedFailure;
    var incomplete := !s.sawNamespace || !s.sawIsolation || !s.sawProcessStart;
    s.(pc := if error || incomplete || status.Signaled? then RecordFailed else LogExit(status.code),
       result := Code(if !error && incomplete then BOOTSTRAP_FAILURE else CodeOf(status)))
  }

  /** waitpid returns: the child is a zombie no longer. */
  function Reaps(w: World, next: SupervisorPc): World {
    w.(sup := w.sup.(pc := next, waitStatus := w.child.dead))
  }

  /** clone; a failed one cleans up the cgroup on the spot. */
  function Clones(cfg: Config, w: World, o: Outcome): World {
    var s, cloned := w.sup, o.Cloned?;
    w.(sup := s.(pc := if cloned then AfterClone(cfg) else Returned,
                 result := if cloned then s.result else Failure,
                 cleanups := if !cloned && s.prepared then 1 else 0),
       host := w.host.(task := if cloned then Some(o.task) else None, endOpen := cloned),
       cgroup := w.cgroup && (cloned || !s.prepared || o.Torn?))
  }

  /** From the first line of `run` to clone. */
  function SetupDo(cfg: Config, w: World, o: Outcome): World {
    match w.sup.pc
    case CaptureBefore => Tries(w, o, StoreSeed)
    case StoreSeed => Stores(w, o)
    case CreateRun => Tries(w, o, LogRunCreated).(status := if o.Bad? then w.status else StatusInit)
    case LogRunCreated => Tries(w, o, LogSeedLoaded).(log := Kept(w.log, RunCreated, o))
    case LogSeedLoaded => Tries(w, o, PrepareCgroup).(log := Kept(w.log, SeedLoaded, o))
    case PrepareCgroup => Prepares(cfg, w, o)
    case OpenSocket => Tries(w, o, Clone)
    case _ => Clones(cfg, w, o)
  }

  /** While the child is blocked at its gate. */
  function HandOverDo(cfg: Config, w: World, o: Outcome): World {
    var h := w.host;
    match w.sup.pc
    case MapIds => Aborts(w, o, AfterMap(cfg)).(host := h.(idMapped := h.idMapped || o.Good?))
    case MoveCgroup => Aborts(w, o, LogCgroup).(host := h.(cgroupMoved := h.cgroupMoved || o.Good?))
    case LogCgroup => Logs(w, CgroupApplied, o, SetRunning, false)
    case SetRunning => SetsStatus(w, StatusRunning, o, Release, false)
    case Release => Aborts(w, o, ShutWrite).(host := h.(startWritten := h.startWritten || o.Good?))
    case ShutWrite => Unwinds(w, o, Read, false).(host := h.(writeShut := o.Good?))
    case AbortClose => At(w, AbortWait).(host := h.(endOpen := false))
    case _ =>
      var v := Reaps(w, RecordFailed);
      v.(sup := v.sup.(result := Code(BOOTSTRAP_FAILURE)))
  }

  /** The loop over the evidence channel, except for its `read_line`. */
  function EvidenceDo(cfg: Config, w: World, o: Outcome): World {
    match w.sup.pc
    case LogNamespace => SawNamespace(Logs(w, NsCreated, o, AfterNamespace(cfg), true))
    case LogIdmap => SawNamespace(Logs(w, IdmapApplied, o, Read, true))
    case LogMount => SawIsolation(Logs(w, MountDone, o, AfterMount(cfg), true))
    case LogCaps => SawIsolation(Logs(w, CapsDropped, o, AfterCaps(cfg), true))
    case LogSeccomp => SawIsolation(Logs(w, SeccompEnabled, o, Read, true))
    case _ =>
      var v := Logs(w, ProcessStarted, o, Read, true);
      v.(sup := v.sup.(sawProcessStart := o.Good?))
  }

  /** `read_line`, then what the loop does with the line. */
  function ReadDo(cfg: Config, w: World, o: Outcome): World {
    if o.Good? && w.LineReady() then
      w.(sup := Consume(cfg, w.sup, w.child.sent[w.host.received]),
         host := w.host.(received := w.host.received + 1))
    else
      w.(sup := w.sup.(pc := Judge, protocolError := o.Bad?))
  }

  /** `terminate`, when waitpid has so far returned `reaped`. */
  function KillOf(h: Host, reaped: Option<WaitStatus>): Kill {
    Kill(h.task.Some? && reaped.None?)
  }

  /** From the end of the loop to the recorded outcome. */
  function OutcomeDo(cfg: Config, w: World, o: Outcome): World {
    var s := w.sup;
    match s.pc
    case Judge =>
      w.(sup := s.(pc := Wait,
                   kills := if s.protocolError then s.kills + [KillOf(w.host, s.waitStatus)] else s.kills))
    case Wait => if w.child.dead.Some? then Reaps(w, CaptureAfter(w.child.dead.value)) else w
    case CaptureAfter(observed) =>
      if o.Bad? then Unwinds(w, o, Returned, true)
      else w.(sup := Decide(s.(namespacesChanged := o.Torn?), observed))
    case RecordFailed => Logs(w, ProcessFailed, o, SetFailed, true)
    case SetFailed => SetsStatus(w, StatusFailed, o, DropGuard, true)
    case LogExit(code) => Logs(w, ProcessExit(code), o, SetExited(code), true)
    case SetExited(code) => SetsStatus(w, StatusExited(code), o, DropGuard, true)
    case _ => w
  }

  /** Drop polls first, and kills only a child that is still running. */
  function Polled(s: Supervisor, h: Host, dead: Option<WaitStatus>): Supervisor {
    var polled := if s.Reaped() then s.waitStatus else dead;
    s.(pc := if polled.Some? then Cleanup else GuardWait,
       waitStatus := polled, kills := if polled.None? then s.kills + [KillOf(h, polled)] else s.kills)
  }

  /** The Drop of ClonedWorkload, then the release of its stack. */
  function GuardDo(cfg: Config, w: World, o: Outcome): World {
    var s := w.sup;
    match s.pc
    case DropGuard => w.(sup := Polled(s, w.host, w.child.dead))
    case GuardWait => Reaps(w, Cleanup)
    case Cleanup =>
      w.(sup := s.(pc := FreeStack, cleanups := s.cleanups + if s.prepared then 1 else 0),
         cgroup := w.cgroup && !(s.prepared && o.Good?))
    case FreeStack => w.(sup := s.(pc := Returned, stackFreed := true), host := w.host.(endOpen := false))
    case _ => w
  }

  predicate InSetup(pc: SupervisorPc) {
    || pc.CaptureBefore? || pc.StoreSeed? || pc.CreateRun? || pc.LogRunCreated? || pc.LogSeedLoaded?
    || pc.PrepareCgroup? || pc.OpenSocket? || pc.Clone?
  }

  predicate InHandOver(pc: SupervisorPc) {
    || pc.MapIds? || pc.MoveCgroup? || pc.LogCgroup? || pc.SetRunning? || pc.Release? || pc.ShutWrite?
    || pc.AbortClose? || pc.AbortWait?
  }

  predicate InEvidence(pc: SupervisorPc) {
    pc.LogNamespace? || pc.LogIdmap? || pc.LogMount? || pc.LogCaps? || pc.LogSeccomp? || pc.LogStart?
  }

  predicate InOutcome(pc: SupervisorPc) {
    || pc.Judge? || pc.Wait? || pc.CaptureAfter? || pc.RecordFailed? || pc.SetFailed?
    || pc.LogExit? || pc.SetExited?
  }

  function SupDo(cfg: Config, w: World, o: Outcome): World
    requires SupCan(cfg, w, o)
  {
    if InSetup(w.sup.pc) then SetupDo(cfg, w, o)
    else if InHandOver(w.sup.pc) then HandOverDo(cfg, w, o)
    else if w.sup.pc.Read? then ReadDo(cfg, w, o)
    else if InEvidence(w.sup.pc) then EvidenceDo(cfg, w, o)
    else if InOutcome(w.sup.pc) then OutcomeDo(cfg, w, o)
    else GuardDo(cfg, w, o)
  }

  // ---------------------------------------------------------------- the product

  predicate Can(cfg: Config, w: World, a: Action) {
    match a
    case Sup(o) => SupCan(cfg, w, o)
    case Kid(o) => w.Alive() && KidCan(cfg, w.host, w.child, o)
    case Signal(_) => w.Alive()
  }

  function Do(cfg: Config, w: World, a: Action): World
    requires Can(cfg, w, a)
  {
    match a
    case Sup(o) => SupDo(cfg, w, o)
    case Kid(o) => w.(child := KidDo(cfg, w.host, w.child, o))
    case Signal(signal) => w.(child := Die(w.child, Signaled(signal)))
  }

  /** `run` is a run of the protocol: `run[i]` becomes `run[i + 1]` by `acts[i]`. */
  predicate IsRun(cfg: Config, run: seq<World>, acts: seq<Action>) {
    && |run| == |acts| + 1
    && Init(cfg, run[0])
    && forall i {:trigger acts[i]} :: 0 <= i < |acts| ==>
         Can(cfg, run[i], acts[i]) && run[i + 1] == Do(cfg, run[i], acts[i])
  }

  ghost predicate Reachable(cfg: Config, w: World) {
    exists run, acts :: IsRun(cfg, run, acts) && run[|acts|] == w
  }
}
