/** `ProcessRunner::run` in its own imperative form (src/process.rs), with the cloned
    task moving between its statements. Each statement is shown to be one step of the
    system in module Bootstrap, so what BootstrapTheorems proves holds of `Run`; and
    `Run` itself is shown to return. */
module ProcessRunner {
  import opened Namespaces
  import opened Notices
  import opened Options
  import opened Processes
  import opened Bootstrap
  import opened BootstrapInvariants
  import opened BootstrapSafety
  import opened BootstrapTheorems
  import opened BootstrapLiveness
  import opened BootstrapResult
  import opened BootstrapKills
  import opened BootstrapFaults
  import opened BootstrapSuccess

  const OPENING := [RunCreated, SeedLoaded]

  /** The events that an admitted notice stands for, in order. */
  function NoticeEvents(cfg: Config, notice: ChildNotice): seq<Event>
    requires !notice.Failed?
  {
    match notice
    case NamespaceReady(_, _) => NamespacePart(cfg)
    case IsolationReady => IsolationPart(cfg)
    case ProcessStart(_) => [ProcessStarted]
  }

  function PolicyPart(cfg: Config): seq<Event> {
    (if cfg.dropCaps then [CapsDropped] else []) + if cfg.seccomp then [SeccompEnabled] else []
  }

  lemma PolicyComesLast(cfg: Config)
    ensures IsolationPart(cfg) == [MountDone] + PolicyPart(cfg)
  {
  }

  /** `after` adds the events of `part` to `before`, in order; all of them, if `all`. */
  predicate Extends(before: seq<Event>, part: seq<Event>, after: seq<Event>, all: bool) {
    before <= after && after[|before|..] <= part && (all ==> after[|before|..] == part)
  }

  lemma KeptExtends(log: seq<Event>, e: Event, o: Outcome)
    requires StoreCall(o)
    ensures Extends(log, [e], Kept(log, e, o), o.Good?)
  {
  }

  /** One batch of events, and then, if all of it is there, another. */
  lemma ExtendsOn(
    before: seq<Event>, first: seq<Event>, second: seq<Event>, mid: seq<Event>, after: seq<Event>, on: bool, all: bool)
    requires Extends(before, first, mid, on)
    requires if on then Extends(mid, second, after, all) else after == mid && !all
    ensures Extends(before, first + second, after, all)
  {
    if on { assert after[|before|..] == first + after[|mid|..]; }
  }

  /** The code that `run` decides on once the child is reaped. */
  function DecidedCode(s: Supervisor): int
    requires s.waitStatus.Some?
  {
    if !Refuted(s) && Incomplete(s) then BOOTSTRAP_FAILURE else CodeOf(s.waitStatus.value)
  }

  /** How `run` may leave things. Nothing of the child is left. An Ok result is on record,
      once and last: an exit exactly when all the evidence was seen and good, and then
      with the code that is returned; otherwise a failure. */
  ghost predicate WellReturned(cfg: Config, w: World) {
    && w.sup.pc.Returned? && !w.sup.result.Pending?
    && Grammar(cfg, w.log)
    && (w.host.task.Some? ==>
          w.child.dead.Some? && w.sup.Reaped() && w.sup.stackFreed && w.sup.cleanups == if cfg.cgroups then 1 else 0)
    && (w.sup.result.Code? ==>
          && w.log != [] && w.sup.waitStatus.Some?
          && w.sup.result == Code(DecidedCode(w.sup))
          && if Clean(w.sup) then
               && w.sup.waitStatus == Some(Exited(w.sup.result.code)) && w.status == StatusExited(w.sup.result.code)
               && w.log[|w.log| - 1] == ProcessExit(w.sup.result.code)
             else w.status == StatusFailed && w.log[|w.log| - 1] == ProcessFailed)
  }

  lemma ReturnedMeansWell(cfg: Config, w: World)
    requires Reachable(cfg, w) && w.sup.pc.Returned?
    ensures WellReturned(cfg, w)
  {
    LogGrammar(cfg, w);
    if w.sup.stackFreed { StackOutlivesChild(cfg, w); }
    ResultIsSet(cfg, w);
    if w.host.task.Some? { CleanupIsExact(cfg, w); }
    if w.sup.result.Code? {
      OutcomeIsExact(cfg, w);
      ReturnedCode(cfg, w);
    }
  }

  lemma ResultIsSet(cfg: Config, w: World)
    requires Reachable(cfg, w) && w.sup.pc.Returned?
    ensures !w.sup.result.Pending?
  {
    ReachableInv(cfg, w);
  }

  class ProcessRunner {
    const cfg: Config

    // The locals of `run` with the fields of its guard, and where `run` is; what it has
    // done to the host; the store; the cloned task; and whether the cgroup directory exists.
    var sup: Supervisor
    var host: Host
    var log: seq<Event>
    var status: RunStatus
    var child: Child
    var cgroup: bool

    ghost var run: seq<World>
    ghost var acts: seq<Action>

    function Abs(): World
      reads this
    {
      World(sup, host, log, status, child, cgroup)
    }

    /** The present state is the last of a run of the protocol. */
    ghost predicate Valid()
      reads this
    {
      IsRun(cfg, run, acts) && run[|acts|] == Abs()
    }

    constructor (cfg: Config, ids: NamespaceIds, cgroup: bool)
      requires 1 <= cfg.capacity
      ensures Valid() && this.cfg == cfg && sup.pc == CaptureBefore && this.cgroup == cgroup
    {
      this.cfg, this.cgroup, sup := cfg, cgroup, NewSupervisor(ids);
      log, status, host, child := [], NoRecord, IDLE_HOST, NEW_CHILD;
      run, acts := [World(NewSupervisor(ids), IDLE_HOST, [], NoRecord, NEW_CHILD, cgroup)], [];
    }

    /** Extend the run by the step that the fields have just taken from `w`. */
    ghost method Record(w: World, a: Action)
      requires IsRun(cfg, run, acts) && run[|acts|] == w && Can(cfg, w, a) && Do(cfg, w, a) == Abs()
      modifies `run, `acts
      ensures Valid() && |acts| == old(|acts|) + 1 <= MAX_STEPS
    {
      run, acts := run + [Abs()], acts + [a];
      RunsAreShort(cfg, run, acts);
    }

    /** The supervisor's step, whose call ended with `o`. */
    ghost method Step(w: World, o: Outcome)
      requires IsRun(cfg, run, acts) && run[|acts|] == w && SupCan(cfg, w, o) && SupDo(cfg, w, o) == Abs()
      modifies `run, `acts
      ensures Valid() && |acts| == old(|acts|) + 1 <= MAX_STEPS
    {
      Record(w, Sup(o));
    }

    lemma ValidInv()
      requires Valid()
      ensures Inv(cfg, Abs()) && Reachable(cfg, Abs())
    {
      RunKeepsInv(cfg, run, acts, |acts|);
    }

    // -------------------------------------------------------------- the cloned task

    method KidMoves(o: Outcome)
      requires Valid() && host.task.Some? && child.dead.None? && KidCan(cfg, host, child, o)
      modifies `child, `run, `acts
      ensures Valid() && |acts| == old(|acts|) + 1 <= MAX_STEPS
    {
      ghost var w := Abs();
      child := KidDo(cfg, host, child, o);
      Record(w, Kid(o));
    }

    method KidIsKilled(signal: nat)
      requires Valid() && host.task.Some? && child.dead.None?
      modifies `child, `run, `acts
      ensures Valid() && |acts| == old(|acts|) + 1 <= MAX_STEPS && child.dead.Some?
    {
      ghost var w := Abs();
      child := Die(child, Signaled(signal));
      Record(w, Action.Signal(signal));
    }

    /** Between two calls of the supervisor the child makes any number of steps, or dies. */
    method Others()
      requires Valid()
      modifies `child, `run, `acts
      ensures Valid() && old(|acts|) <= |acts| <= MAX_STEPS
      ensures old(child.dead).Some? ==> child == old(child)
    {
      RunsAreShort(cfg, run, acts);
      var more: bool := *;
      while more && host.task.Some? && child.dead.None?
        invariant Valid() && old(|acts|) <= |acts| <= MAX_STEPS
        invariant old(child.dead).Some? ==> child == old(child)
        decreases MAX_STEPS - |acts|
      {
        var o: Outcome, dies: bool, signal: int := *, *, *;
        if dies { KidIsKilled(if signal > 0 then signal else SIGKILL); }
        else if KidCan(cfg, host, child, o) { KidMoves(o); }
        else { return; }
        more := *;
      }
    }

    /** waitpid blocks until the child has ended: it always can, or has been killed. */
    method AwaitDeath()
      requires Valid() && (sup.pc.Wait? || sup.pc.AbortWait? || sup.pc.GuardWait?)
      modifies `child, `run, `acts
      ensures Valid() && child.dead.Some?
    {
      Others();
      while child.dead.None?
        invariant Valid() && |acts| <= MAX_STEPS
        decreases MAX_STEPS - |acts|
      {
        ValidInv();
        WaiterIsFed(cfg, Abs());
        var o := KidNext(host, child);
        if KidCan(cfg, host, child, o) { KidMoves(o); } else { KidIsKilled(SIGKILL); }
      }
    }

    /** Where a wait for the child goes on once it is over. */
    function AfterWait(pc: SupervisorPc, status: WaitStatus): SupervisorPc {
      match pc
      case AbortWait => RecordFailed
      case GuardWait => Cleanup
      case _ => CaptureAfter(status)
    }

    /** Wait for the child at any of the three places, and note how it ended. */
    method Reap()
      requires Valid() && (sup.pc.Wait? || sup.pc.AbortWait? || sup.pc.GuardWait?)
      modifies `child, `sup, `run, `acts
      ensures Valid() && child.dead.Some? && sup.waitStatus == child.dead
      ensures sup.pc == AfterWait(old(sup.pc), child.dead.value)
      ensures sup.result == if old(sup.pc).AbortWait? then Code(BOOTSTRAP_FAILURE) else old(sup.result)
      ensures sup.kills == old(sup.kills)
    {
      AwaitDeath();
      ghost var w := Abs();
      NoteDeath(child.dead.value);
      WaitIsStep(w);
      Step(w, Good);
    }

    lemma WaitIsStep(w: World)
      requires w.child.dead.Some? && (w.sup.pc.Wait? || w.sup.pc.AbortWait? || w.sup.pc.GuardWait?)
      ensures SupCan(cfg, w, Good) && SupDo(cfg, w, Good) == w.(sup := Waited(w.sup, w.child.dead.value))
    {
    }

    function Waited(s: Supervisor, status: WaitStatus): Supervisor {
      s.(pc := AfterWait(s.pc, status), waitStatus := Some(status),
         result := if s.pc.AbortWait? then Code(BOOTSTRAP_FAILURE) else s.result)
    }

    method NoteDeath(status: WaitStatus)
      modifies `sup
      ensures sup == Waited(old(sup), status)
    {
      if sup.pc.AbortWait? { sup := sup.(result := Code(BOOTSTRAP_FAILURE)); }
      sup := sup.(pc := AfterWait(sup.pc, status), waitStatus := Some(status));
    }

    method FeedReader()
      requires Valid() && sup.pc == Read && !Abs().LineReady() && !Abs().EndOfStream()
      modifies `child, `run, `acts
      ensures Valid() && |acts| == old(|acts|) + 1 <= MAX_STEPS
    {
      ValidInv();
      ReaderIsFed(cfg, Abs());
      KidMoves(KidNext(host, child));
    }

    /** read_line blocks until there is a line or the end of the stream: one of them comes. */
    method AwaitLine() returns (ready: bool)
      requires Valid() && sup.pc == Read
      modifies `child, `run, `acts
      ensures Valid() && |acts| >= old(|acts|)
      ensures ready <==> Abs().LineReady()
      ensures !ready ==> Abs().EndOfStream()
    {
      Others();
      ready := Abs().LineReady();
      while !ready && !(|child.sent| <= host.received && !child.endOpen)
        invariant Valid() && old(|acts|) <= |acts| <= MAX_STEPS
        invariant ready <==> Abs().LineReady()
        decreases MAX_STEPS - |acts|
      {
        FeedReader();
        ready := Abs().LineReady();
      }
    }

    // -------------------------------------------------------------- calls

    method StoreOutcome() returns (o: Outcome)
      ensures StoreCall(o)
    {
      var fails: bool, kept: bool := *, *;
      o := if !fails then Good else if kept then Torn else Bad;
    }

    method CallOutcome() returns (o: Outcome)
      ensures o.Good? || o.Bad?
    {
      var fails: bool := *;
      o := if fails then Bad else Good;
    }

    /** `?` before clone: on to `next`, or return the error. */
    method GoOn(o: Outcome, next: SupervisorPc)
      modifies `sup
      ensures Abs() == Tries(old(Abs()), o, next)
    {
      if o.Good? { sup := sup.(pc := next); } else { sup := sup.(pc := Returned, result := Failure); }
    }

    method ReturnError(readerOwnsEnd: bool)
      modifies `sup, `host
      ensures sup == old(sup).(pc := DropGuard, result := Failure)
      ensures host == old(host).(endOpen := old(host).endOpen && !readerOwnsEnd)
    {
      sup := sup.(pc := DropGuard, result := Failure);
      if readerOwnsEnd { host := host.(endOpen := false); }
    }

    /** `?` after clone: on to `next`, or unwind through the guard. The reader, once it owns
        the supervisor's socket end, is dropped before the guard. */
    method GoOnGuarded(o: Outcome, next: SupervisorPc, readerOwnsEnd: bool)
      modifies `sup, `host
      ensures Abs() == Unwinds(old(Abs()), o, next, readerOwnsEnd)
    {
      if o.Good? { sup := sup.(pc := next); } else { ReturnError(readerOwnsEnd); }
    }

    /** A failed hand-over step makes `run` give the blocked child up. */
    method GoOnOrAbort(o: Outcome, next: SupervisorPc)
      modifies `sup
      ensures Abs() == Aborts(old(Abs()), o, next)
    {
      sup := sup.(pc := if o.Good? then next else AbortClose);
    }

    method AppendEarly(e: Event, next: SupervisorPc) returns (o: Outcome)
      modifies `log, `sup
      ensures StoreCall(o) && Abs() == Tries(old(Abs()), o, next).(log := Kept(old(log), e, o))
    {
      o := StoreOutcome();
      log := Kept(log, e, o);
      GoOn(o, next);
    }

    method AppendEvent(e: Event, next: SupervisorPc, readerOwnsEnd: bool) returns (o: Outcome)
      modifies `log, `sup, `host
      ensures StoreCall(o) && Abs() == Logs(old(Abs()), e, o, next, readerOwnsEnd)
    {
      o := StoreOutcome();
      log := Kept(log, e, o);
      GoOnGuarded(o, next, readerOwnsEnd);
    }

    method UpdateRunStatus(s: RunStatus, next: SupervisorPc, readerOwnsEnd: bool) returns (o: Outcome)
      modifies `status, `sup, `host
      ensures StoreCall(o) && Abs() == SetsStatus(old(Abs()), s, o, next, readerOwnsEnd)
    {
      o := StoreOutcome();
      if !o.Bad? { status := s; }
      GoOnGuarded(o, next, readerOwnsEnd);
    }

    // -------------------------------------------------------------- up to clone

    /** The supervisor's own namespaces. */
    method CaptureOwn()
      requires Valid() && sup.pc == CaptureBefore
      modifies `child, `sup, `run, `acts
      ensures Valid() && (sup.pc == Returned || sup.pc == StoreSeed)
    {
      Others();
      ghost var w := Abs();
      var o := CallOutcome();
      GoOn(o, StoreSeed);
      Step(w, o);
    }

    /** The Seed's manifest. */
    method StoreManifest()
      requires Valid() && sup.pc == StoreSeed
      modifies `child, `sup, `run, `acts
      ensures Valid() && (sup.pc == Returned || (sup.pc == CreateRun && sup.stored))
    {
      Others();
      ghost var w := Abs();
      var o := KeepManifest();
      ManifestIsStep(w, o);
      Step(w, o);
    }

    method KeepManifest() returns (o: Outcome)
      modifies `sup
      ensures StoreCall(o) && Abs() == Stores(old(Abs()), o)
    {
      o := StoreOutcome();
      sup := sup.(pc := if o.Good? then CreateRun else Returned, result := if o.Good? then sup.result else Failure,
                  stored := sup.stored || !o.Bad?);
    }

    lemma ManifestIsStep(w: World, o: Outcome)
      requires w.sup.pc == StoreSeed && StoreCall(o)
      ensures SupCan(cfg, w, o) && SupDo(cfg, w, o) == Stores(w, o)
    {
    }

    method CreateRecord()
      requires Valid() && sup.pc == CreateRun
      modifies `child, `status, `sup, `run, `acts
      ensures Valid() && (sup.pc == Returned || (sup.pc == LogRunCreated && status == StatusInit))
    {
      Others();
      ghost var w := Abs();
      var o := StoreOutcome();
      if !o.Bad? { status := StatusInit; }
      GoOn(o, LogRunCreated);
      Step(w, o);
    }

    method LogOpening()
      requires Valid() && sup.pc == LogRunCreated
      modifies `child, `log, `sup, `run, `acts
      ensures Valid() && (sup.pc == Returned || sup.pc == PrepareCgroup)
    {
      Others();
      ghost var w := Abs();
      var o := AppendEarly(RunCreated, LogSeedLoaded);
      Step(w, o);
      if !o.Good? { return; }
      Others();
      w := Abs();
      o := AppendEarly(SeedLoaded, PrepareCgroup);
      Step(w, o);
    }

    /** The cgroup, if the Seed asks for one, and the socket pair. When a limit or the socket
        pair fails, `?` returns without trying to remove the cgroup. */
    method PrepareChannel()
      requires Valid() && sup.pc == PrepareCgroup
      modifies `child, `cgroup, `sup, `run, `acts
      ensures Valid() && (sup.pc == Returned || (sup.pc == Clone && sup.prepared == cfg.cgroups))
      ensures sup.pc == Returned ==> sup.result.Failure? && sup.cleanups == 0
      ensures old(cgroup) ==> cgroup
      ensures sup.pc == Clone ==> cgroup == (old(cgroup) || cfg.cgroups)
    {
      ValidInv();
      Others();
      ghost var w := Abs();
      var o := PrepareResources();
      Step(w, o);
      if !o.Good? { return; }
      Others();
      w := Abs();
      o := CallOutcome();
      GoOn(o, Clone);
      Step(w, o);
    }

    method PrepareResources() returns (o: Outcome)
      modifies `cgroup, `sup
      ensures o.Good? || ((o.Bad? || o.Torn?) && cfg.cgroups)
      ensures Abs() == Prepares(cfg, old(Abs()), o)
    {
      o := Good;
      if cfg.cgroups {
        var made: bool, limited: bool := *, *;
        if made { cgroup := true; }
        o := if !made then Bad else if !limited then Torn else Good;
      }
      if o.Good? {
        sup := sup.(pc := OpenSocket, prepared := cfg.cgroups);
      } else {
        sup := sup.(pc := Returned, result := Failure, prepared := false);
      }
    }

    method CloneTask()
      requires Valid() && sup.pc == Clone
      modifies `child, `host, `cgroup, `sup, `run, `acts
      ensures Valid() && sup.prepared == old(sup.prepared)
      ensures if host.task.Some? then sup.pc == AfterClone(cfg)
              else sup.pc == Returned && sup.result.Failure? && sup.cleanups == if sup.prepared then 1 else 0
      ensures host.task.Some? || !sup.prepared ==> cgroup == old(cgroup)
    {
      Others();
      ghost var w := Abs();
      var o := Fork();
      Step(w, o);
    }

    /** cleanup_cgroup, whose error is logged and dropped. */
    method RemoveCgroup() returns (o: Outcome)
      modifies `cgroup
      ensures (o.Good? || o.Bad?) && cgroup == (old(cgroup) && o.Bad?)
    {
      o := CallOutcome();
      if o.Good? { cgroup := false; }
    }

    /** A failed clone cleans up the prepared cgroup on the spot. */
    method Fork() returns (o: Outcome)
      modifies `host, `cgroup, `sup
      ensures (o.Cloned? || o.Bad? || o.Torn?) && Abs() == Clones(cfg, old(Abs()), o)
    {
      var fails: bool, pid: int, ids: NamespaceIds := *, *, *;
      if fails {
        o := Bad;
        if sup.prepared {
          var removed := RemoveCgroup();
          if removed.Bad? { o := Torn; }
        }
        sup := sup.(pc := Returned, result := Failure, cleanups := if sup.prepared then 1 else 0);
        host := host.(task := None, endOpen := false);
      } else {
        o := Cloned(Task(ids, pid));
        sup := sup.(pc := AfterClone(cfg), cleanups := 0);
        host := host.(task := Some(o.task), endOpen := true);
      }
    }

    /** Everything up to the two opening events. */
    method Announce()
      requires Valid() && sup.pc == CaptureBefore
      modifies `child, `log, `status, `sup, `run, `acts
      ensures Valid() && (sup.pc == Returned || sup.pc == PrepareCgroup)
    {
      CaptureOwn();
      if sup.pc == StoreSeed { StoreManifest(); }
      if sup.pc == CreateRun { CreateRecord(); }
      if sup.pc == LogRunCreated { LogOpening(); }
    }

    method Launch()
      requires Valid() && sup.pc == PrepareCgroup
      modifies `child, `host, `cgroup, `sup, `run, `acts
      ensures Valid() && sup.pc == if host.task.Some? then AfterClone(cfg) else Returned
    {
      SetUpFacts();
      PrepareChannel();
      if sup.pc == Clone { CloneTask(); }
    }

    /** On success the child exists, and the log has the two opening events. */
    method SetUp()
      requires Valid() && sup.pc == CaptureBefore
      modifies this
      ensures Valid() && log <= OPENING
      ensures if host.task.Some? then sup.pc == AfterClone(cfg) && log == OPENING && sup.prepared == cfg.cgroups
              else sup.pc == Returned && sup.result.Failure?
    {
      SetUpFacts();
      Announce();
      if sup.pc == PrepareCgroup { Launch(); }
      SetUpFacts();
      ClonedFacts();
    }

    /** What the protocol's invariant says at single places. */
    lemma SetUpFacts()
      requires Valid()
      ensures sup.pc == CaptureBefore || sup.pc == PrepareCgroup ==> host.task.None?
      ensures sup.pc == Returned && host.task.None? ==> log <= OPENING && sup.result.Failure?
    {
      ValidInv();
    }

    lemma ClonedFacts()
      requires Valid()
      ensures sup.pc == AfterClone(cfg) ==> log == OPENING && sup.prepared == cfg.cgroups
    {
      ValidInv();
    }

    lemma HandOverFacts()
      requires Valid()
      ensures sup.pc == SetRunning ==> HandedOver(cfg, host) && log == Head(cfg)
      ensures sup.pc == AbortClose ==> !host.startWritten
      ensures sup.pc == Read && log <= Head(cfg) ==>
        HandedOver(cfg, host) && host.startWritten && host.writeShut && log == Head(cfg)
    {
      ValidInv();
    }

    lemma JudgeFacts()
      requires Valid() && sup.pc == Judge
      ensures sup.accepted <= 3 && log == LogAfter(cfg, sup.accepted)
    {
      ValidInv();
    }

    lemma EndFacts()
      requires Valid() && sup.pc == Returned && sup.stackFreed
      ensures child.dead.Some? && sup.waitStatus == child.dead && sup.cleanups == if cfg.cgroups then 1 else 0
    {
      ValidInv();
    }

    // -------------------------------------------------------------- hand-over

    /** The identity map and the cgroup, while the child waits at its gate. */
    method Confine()
      requires Valid() && sup.pc == AfterClone(cfg)
      modifies `child, `host, `log, `sup, `run, `acts
      ensures Valid() && (sup.pc == AbortClose || sup.pc == DropGuard || sup.pc == SetRunning)
    {
      if cfg.mapRootless { MapIdentity(); }
      if sup.pc == MoveCgroup { MoveIntoCgroup(); }
      if sup.pc == LogCgroup { LogCgroupApplied(); }
    }

    method MapIdentity()
      requires Valid() && sup.pc == MapIds
      modifies `child, `host, `sup, `run, `acts
      ensures Valid() && (sup.pc == AbortClose || (sup.pc == AfterMap(cfg) && host.idMapped))
    {
      Others();
      ghost var w := Abs();
      var o := CallOutcome();
      GoOnOrAbort(o, AfterMap(cfg));
      host := host.(idMapped := host.idMapped || o.Good?);
      Step(w, o);
    }

    method MoveIntoCgroup()
      requires Valid() && sup.pc == MoveCgroup
      modifies `child, `host, `sup, `run, `acts
      ensures Valid() && (sup.pc == AbortClose || (sup.pc == LogCgroup && host.cgroupMoved))
    {
      Others();
      ghost var w := Abs();
      var o := CallOutcome();
      GoOnOrAbort(o, LogCgroup);
      host := host.(cgroupMoved := host.cgroupMoved || o.Good?);
      Step(w, o);
    }

    method LogCgroupApplied()
      requires Valid() && sup.pc == LogCgroup
      modifies `child, `host, `log, `sup, `run, `acts
      ensures Valid() && (sup.pc == DropGuard || sup.pc == SetRunning)
    {
      Others();
      ghost var w := Abs();
      var o := AppendEvent(CgroupApplied, SetRunning, false);
      Step(w, o);
    }

    method MarkRunning()
      requires Valid() && sup.pc == SetRunning
      modifies `child, `host, `status, `sup, `run, `acts
      ensures Valid() && (sup.pc == DropGuard || (sup.pc == Release && status == StatusRunning))
    {
      Others();
      ghost var w := Abs();
      var o := UpdateRunStatus(StatusRunning, Release, false);
      Step(w, o);
    }

    /** The start byte lets the child through its gate. */
    method ReleaseChild()
      requires Valid() && sup.pc == Release
      modifies `child, `host, `sup, `run, `acts
      ensures Valid() && (sup.pc == AbortClose || (sup.pc == ShutWrite && host.startWritten))
    {
      Others();
      ghost var w := Abs();
      var o := CallOutcome();
      GoOnOrAbort(o, ShutWrite);
      host := host.(startWritten := host.startWritten || o.Good?);
      Step(w, o);
    }

    method ShutDownWrite()
      requires Valid() && sup.pc == ShutWrite
      modifies `child, `host, `sup, `run, `acts
      ensures Valid() && (sup.pc == DropGuard || (sup.pc == Read && host.startWritten == old(host.startWritten)))
    {
      Others();
      ghost var w := Abs();
      var o := CallOutcome();
      GoOnGuarded(o, Read, false);
      host := host.(writeShut := o.Good?);
      Step(w, o);
    }

    method Start()
      requires Valid() && sup.pc == SetRunning
      modifies `child, `host, `status, `sup, `run, `acts
      ensures Valid() && (sup.pc == AbortClose || sup.pc == DropGuard || (sup.pc == Read && host.startWritten))
    {
      MarkRunning();
      if sup.pc == Release { ReleaseChild(); }
      if sup.pc == ShutWrite { ShutDownWrite(); }
    }

    /** The gate opens only after the identity map and the cgroup move; when a step before
        that fails, the start byte has not been written. */
    method HandOver()
      requires Valid() && sup.pc == AfterClone(cfg)
      modifies this
      ensures Valid() && (sup.pc == AbortClose || sup.pc == DropGuard || sup.pc == Read)
      ensures sup.pc == AbortClose ==> !host.startWritten
      ensures sup.pc == Read ==> HandedOver(cfg, host) && host.startWritten && host.writeShut && log == Head(cfg)
    {
      Confine();
      if sup.pc == SetRunning {
        HandOverFacts();
        Start();
      }
      HandOverFacts();
    }

    /** abort_blocked_child: close the control end, wait for the child, record the failure. */
    method AbortBlockedChild()
      requires Valid() && sup.pc == AbortClose
      modifies `child, `host, `log, `status, `sup, `run, `acts
      ensures Valid() && sup.pc == DropGuard
      ensures child.dead.Some? && sup.waitStatus == child.dead
      ensures log == old(log) || log == old(log) + [ProcessFailed]
      ensures sup.result == Failure ||
              (sup.result == Code(BOOTSTRAP_FAILURE) && log == old(log) + [ProcessFailed] && status == StatusFailed)
    {
      GiveUp();
      RecordFailedRun();
    }

    method GiveUp()
      requires Valid() && sup.pc == AbortClose
      modifies `child, `host, `sup, `run, `acts
      ensures Valid() && sup.pc == RecordFailed && sup.result == Code(BOOTSTRAP_FAILURE)
      ensures child.dead.Some? && sup.waitStatus == child.dead
    {
      CloseControl();
      ReapGivenUp();
    }

    method ReapGivenUp()
      requires Valid() && sup.pc == AbortWait
      modifies `child, `sup, `run, `acts
      ensures Valid() && sup.pc == RecordFailed && sup.result == Code(BOOTSTRAP_FAILURE)
      ensures child.dead.Some? && sup.waitStatus == child.dead
    {
      Reap();
    }

    method CloseControl()
      requires Valid() && sup.pc == AbortClose
      modifies `child, `host, `sup, `run, `acts
      ensures Valid() && sup.pc == AbortWait
    {
      Others();
      ghost var w := Abs();
      host := host.(endOpen := false);
      sup := sup.(pc := AbortWait);
      Step(w, Good);
    }

    // -------------------------------------------------------------- the evidence loop

    /** One pass up to the events: None when the loop is over. */
    method ReadNotice() returns (notice: Option<ChildNotice>)
      requires Valid() && sup.pc == Read
      modifies `child, `host, `sup, `run, `acts
      ensures Valid() && |acts| > old(|acts|)
      ensures sup.pc == if notice.Some? then PlaceOf(notice.value) else Judge
      ensures notice.Some? ==> !notice.value.Failed?
    {
      var ready := AwaitLine();
      var fails: bool := *;
      if fails || !ready {
        EndReading(fails);
        return None;
      }
      notice := TakeLine();
    }

    method TakeLine() returns (notice: Option<ChildNotice>)
      requires Valid() && sup.pc == Read && Abs().LineReady()
      modifies `host, `sup, `run, `acts
      ensures Valid() && |acts| > old(|acts|)
      ensures sup.pc == if notice.Some? then PlaceOf(notice.value) else Judge
      ensures notice.Some? ==> !notice.value.Failed?
    {
      ghost var w := Abs();
      notice := Inspect(child.sent[host.received]);
      host := host.(received := host.received + 1);
      LineIsStep(w);
      Step(w, Good);
    }

    lemma LineIsStep(w: World)
      requires w.sup.pc == Read && w.LineReady()
      ensures SupCan(cfg, w, Good) && SupDo(cfg, w, Good) ==
        w.(sup := Consume(cfg, w.sup, w.child.sent[w.host.received]),
           host := w.host.(received := w.host.received + 1))
    {
    }

    /** A read error, or the end of the stream. */
    method EndReading(fails: bool)
      requires Valid() && sup.pc == Read && (fails || Abs().EndOfStream())
      modifies `sup, `run, `acts
      ensures Valid() && sup.pc == Judge && |acts| > old(|acts|)
    {
      ghost var w := Abs();
      sup := sup.(pc := Judge, protocolError := fails);
      Step(w, if fails then Bad else Good);
    }

    /** What the loop makes of a line, before it logs anything: good evidence is admitted, the
        child's own report of a failure is noted, and anything else is a protocol error. */
    method Inspect(line: Line) returns (notice: Option<ChildNotice>)
      modifies `sup
      ensures notice.Some? <==> GoodEvidence(cfg, old(sup.ids), line)
      ensures sup.reportedFailure <==> Reports(line)
      ensures sup.protocolError <==> notice.None? && !Reports(line)
      ensures sup == Consume(cfg, old(sup), line)
      ensures sup.pc == if notice.Some? then PlaceOf(notice.value) else Judge
      ensures notice.Some? ==> line == Whole(notice.value) && !notice.value.Failed?
    {
      VerdictIsExact(cfg, sup, line);
      var admitted := false;
      match line {
        case Whole(NamespaceReady(ids, pid)) =>
          var verdict := ValidateBoundary(sup.ids, ids, cfg.mapRootless, cfg.enableNet, pid);
          admitted := verdict.Accepted?;
        case Whole(IsolationReady) => admitted := true;
        case Whole(ProcessStart(pid)) => admitted := pid == 1;
        case _ =>
      }
      if admitted {
        sup := sup.(pc := PlaceOf(line.notice), accepted := sup.accepted + 1,
                    reportedFailure := false, protocolError := false);
        return Some(line.notice);
      }
      var failure := line.Whole? && line.notice.Failed?;
      sup := sup.(pc := Judge, reportedFailure := failure, protocolError := !failure);
      notice := None;
    }

    /** `saw_namespace` and `saw_isolation` are set when the loop goes on to the next line. */
    method NoteNamespace()
      modifies `sup
      ensures Abs() == SawNamespace(old(Abs()))
    {
      if sup.pc == Read { sup := sup.(sawNamespace := true); }
    }

    method NoteIsolation()
      modifies `sup
      ensures Abs() == SawIsolation(old(Abs()))
    {
      if sup.pc == Read { sup := sup.(sawIsolation := true); }
    }

    lemma NamespaceEventIsStep(w: World, e: Event, next: SupervisorPc, o: Outcome)
      requires StoreCall(o)
      requires (w.sup.pc == LogNamespace && e == NsCreated && next == AfterNamespace(cfg))
               || (w.sup.pc == LogIdmap && e == IdmapApplied && next == Read)
      ensures SupCan(cfg, w, o) && SupDo(cfg, w, o) == SawNamespace(Logs(w, e, o, next, true))
    {
    }

    lemma PolicyEventIsStep(w: World, e: Event, next: SupervisorPc, o: Outcome)
      requires StoreCall(o)
      requires (w.sup.pc == LogCaps && e == CapsDropped && next == AfterCaps(cfg))
               || (w.sup.pc == LogSeccomp && e == SeccompEnabled && next == Read)
      ensures SupCan(cfg, w, o) && SupDo(cfg, w, o) == SawIsolation(Logs(w, e, o, next, true))
    {
    }

    method LogNamespaceEvent(e: Event, next: SupervisorPc)
      requires Valid()
      requires (sup.pc == LogNamespace && e == NsCreated && next == AfterNamespace(cfg))
               || (sup.pc == LogIdmap && e == IdmapApplied && next == Read)
      modifies `child, `host, `log, `sup, `run, `acts
      ensures Valid() && (sup.pc == DropGuard || sup.pc == next) && |acts| > old(|acts|)
      ensures Extends(old(log), [e], log, sup.pc != DropGuard)
    {
      Others();
      ghost var w := Abs();
      var o := AppendEvent(e, next, true);
      NoteNamespace();
      NamespaceEventIsStep(w, e, next, o);
      Step(w, o);
      KeptExtends(w.log, e, o);
    }

    method LogMountDone()
      requires Valid() && sup.pc == LogMount
      modifies `child, `host, `log, `sup, `run, `acts
      ensures Valid() && (sup.pc == DropGuard || sup.pc == AfterMount(cfg)) && |acts| > old(|acts|)
      ensures Extends(old(log), [MountDone], log, sup.pc != DropGuard)
    {
      Others();
      ghost var w := Abs();
      var o := AppendEvent(MountDone, AfterMount(cfg), true);
      NoteIsolation();
      Step(w, o);
      KeptExtends(w.log, MountDone, o);
    }

    method LogPolicyEvent(e: Event, next: SupervisorPc)
      requires Valid()
      requires (sup.pc == LogCaps && e == CapsDropped && next == AfterCaps(cfg))
               || (sup.pc == LogSeccomp && e == SeccompEnabled && next == Read)
      modifies `child, `host, `log, `sup, `run, `acts
      ensures Valid() && (sup.pc == DropGuard || sup.pc == next) && |acts| > old(|acts|)
      ensures Extends(old(log), [e], log, sup.pc != DropGuard)
    {
      Others();
      ghost var w := Abs();
      var o := AppendEvent(e, next, true);
      NoteIsolation();
      PolicyEventIsStep(w, e, next, o);
      Step(w, o);
      KeptExtends(w.log, e, o);
    }

    method LogProcessStart()
      requires Valid() && sup.pc == LogStart
      modifies `child, `host, `log, `sup, `run, `acts
      ensures Valid() && (sup.pc == DropGuard || sup.pc == Read) && |acts| > old(|acts|)
      ensures Extends(old(log), [ProcessStarted], log, sup.pc == Read)
    {
      Others();
      ghost var w := Abs();
      var o := AppendEvent(ProcessStarted, Read, true);
      sup := sup.(sawProcessStart := o.Good?);
      Step(w, o);
    }

    /** The events of one admitted notice, in order, up to the first call that fails. */
    method LogEvidence(notice: ChildNotice)
      requires Valid() && !notice.Failed? && sup.pc == PlaceOf(notice)
      modifies `child, `host, `log, `sup, `run, `acts
      ensures Valid() && (sup.pc == DropGuard || sup.pc == Read) && |acts| > old(|acts|)
      ensures Extends(old(log), NoticeEvents(cfg, notice), log, sup.pc == Read)
    {
      match notice
      case NamespaceReady(_, _) => LogNamespaceReady();
      case IsolationReady => LogIsolationReady();
      case ProcessStart(_) => LogProcessStart();
    }

    method LogNamespaceReady()
      requires Valid() && sup.pc == LogNamespace
      modifies `child, `host, `log, `sup, `run, `acts
      ensures Valid() && (sup.pc == DropGuard || sup.pc == Read) && |acts| > old(|acts|)
      ensures Extends(old(log), NamespacePart(cfg), log, sup.pc == Read)
    {
      LogNamespaceEvent(NsCreated, AfterNamespace(cfg));
      ghost var on, mid := sup.pc != DropGuard, log;
      if sup.pc == LogIdmap { LogNamespaceEvent(IdmapApplied, Read); }
      ExtendsOn(old(log), [NsCreated], if cfg.mapRootless then [IdmapApplied] else [], mid, log, on, sup.pc == Read);
    }

    method LogIsolationReady()
      requires Valid() && sup.pc == LogMount
      modifies `child, `host, `log, `sup, `run, `acts
      ensures Valid() && (sup.pc == DropGuard || sup.pc == Read) && |acts| > old(|acts|)
      ensures Extends(old(log), IsolationPart(cfg), log, sup.pc == Read)
    {
      LogMountDone();
      ghost var on, mid := sup.pc != DropGuard, log;
      if sup.pc != DropGuard { LogPolicy(); }
      ExtendsOn(old(log), [MountDone], PolicyPart(cfg), mid, log, on, sup.pc == Read);
      PolicyComesLast(cfg);
    }

    /** The capability drop and the filter, as far as the Seed asks for them. */
    method LogPolicy()
      requires Valid() && sup.pc == AfterMount(cfg)
      modifies `child, `host, `log, `sup, `run, `acts
      ensures Valid() && (sup.pc == DropGuard || sup.pc == Read) && |acts| >= old(|acts|)
      ensures Extends(old(log), PolicyPart(cfg), log, sup.pc == Read)
    {
      if cfg.dropCaps { LogPolicyEvent(CapsDropped, AfterCaps(cfg)); }
      ghost var on, mid := sup.pc != DropGuard, log;
      if sup.pc == LogSeccomp { LogPolicyEvent(SeccompEnabled, Read); }
      ghost var caps := if cfg.dropCaps then [CapsDropped] else [];
      ghost var filter := if cfg.seccomp then [SeccompEnabled] else [];
      ExtendsOn(old(log), caps, filter, mid, log, on, sup.pc == Read);
    }

    /** The loop ends at the decision, with the events of exactly the notices it accepted in
        the log, or, when the store fails, at the guard. */
    method ReadEvidence()
      requires Valid() && sup.pc == Read
      modifies `child, `host, `log, `sup, `run, `acts
      ensures Valid() && (sup.pc == DropGuard || sup.pc == Judge) && old(log) <= log
      ensures sup.pc == Judge ==> sup.accepted <= 3 && log == LogAfter(cfg, sup.accepted)
    {
      RunsAreShort(cfg, run, acts);
      while sup.pc == Read
        invariant Valid() && |acts| <= MAX_STEPS && old(log) <= log
        invariant sup.pc == DropGuard || sup.pc == Judge || sup.pc == Read
        decreases MAX_STEPS - |acts|
      {
        var notice := ReadNotice();
        if notice.Some? { LogEvidence(notice.value); }
        RunsAreShort(cfg, run, acts);
      }
      if sup.pc == Judge { JudgeFacts(); }
    }

    // -------------------------------------------------------------- the outcome

    /** After the loop: kill on an error, reap, look at the own namespaces again, decide. */
    method Settle()
      requires Valid() && sup.pc == Judge
      modifies `child, `host, `sup, `run, `acts
      ensures Valid() && child.dead.Some? && sup.waitStatus == child.dead
      ensures sup.kills == if old(sup.protocolError) then [Kill(true)] else []
      ensures sup.pc == DropGuard || sup.pc == RecordFailed || sup.pc.LogExit?
      ensures sup.pc == DropGuard ==> sup.result.Failure?
      ensures sup.pc == RecordFailed ==> !Clean(sup) && sup.result == Code(DecidedCode(sup))
      ensures sup.pc.LogExit? ==> Clean(sup) && sup.waitStatus == Some(Exited(sup.pc.exitCode))
    {
      KillOnError();
      Reap();
      CaptureAgain(sup.pc.observed);
    }

    method KillOnError()
      requires Valid() && sup.pc == Judge
      modifies `child, `sup, `run, `acts
      ensures Valid() && sup.pc == Wait
      ensures sup.kills == if old(sup.protocolError) then [Kill(true)] else []
    {
      Others();
      KillRefused();
    }

    method KillRefused()
      requires Valid() && sup.pc == Judge
      modifies `sup, `run, `acts
      ensures Valid() && sup.pc == Wait
      ensures sup.kills == if old(sup.protocolError) then [Kill(true)] else []
    {
      KillFacts();
      ghost var w := Abs();
      if sup.protocolError { Terminate(); }
      sup := sup.(pc := Wait);
      JudgeIsStep(w);
      Step(w, Good);
    }

    lemma JudgeIsStep(w: World)
      requires w.sup.pc == Judge
      ensures SupCan(cfg, w, Good) && SupDo(cfg, w, Good) ==
        w.(sup := w.sup.(pc := Wait,
             kills := if w.sup.protocolError then w.sup.kills + [KillOf(w.host, w.sup.waitStatus)] else w.sup.kills))
    {
    }

    /** SIGKILL to the cloned task; its result is dropped. */
    method Terminate()
      modifies `sup
      ensures sup == old(sup).(kills := old(sup).kills + [KillOf(host, old(sup).waitStatus)])
    {
      sup := sup.(kills := sup.kills + [KillOf(host, sup.waitStatus)]);
    }

    lemma KillFacts()
      requires Valid() && (sup.pc == Judge || sup.pc == DropGuard)
      ensures MustKill(Abs()) ==> host.task.Some? && sup.waitStatus.None?
      ensures sup.waitStatus.None? ==> sup.kills == []
      ensures sup.pc == Judge ==> sup.waitStatus.None?
    {
      ValidInv();
      KillIsSafe(cfg, Abs());
      RunKeepsKills(cfg, run, acts, |acts|);
    }

    /** Look at the supervisor's own namespaces again, and decide. */
    method CaptureAgain(observed: WaitStatus)
      requires Valid() && sup.pc == CaptureAfter(observed) && sup.waitStatus == Some(observed)
      modifies `host, `sup, `run, `acts
      ensures Valid() && sup.waitStatus == old(sup.waitStatus) && sup.kills == old(sup.kills)
      ensures sup.pc == DropGuard || sup.pc == RecordFailed || sup.pc.LogExit?
      ensures sup.pc == DropGuard ==> sup.result.Failure?
      ensures sup.pc == RecordFailed ==> !Clean(sup) && sup.result == Code(DecidedCode(sup))
      ensures sup.pc.LogExit? ==> Clean(sup) && sup.waitStatus == Some(Exited(sup.pc.exitCode))
    {
      var o := CallOutcome();
      if o.Bad? {
        ghost var w := Abs();
        GoOnGuarded(o, Returned, true);
        Step(w, o);
      } else {
        var changed: bool := *;
        ConcludeRun(changed, observed);
      }
    }

    method ConcludeRun(changed: bool, observed: WaitStatus)
      requires Valid() && sup.pc == CaptureAfter(observed) && sup.waitStatus == Some(observed)
      modifies `sup, `run, `acts
      ensures Valid() && sup.waitStatus == old(sup.waitStatus) && sup.kills == old(sup.kills)
      ensures sup.pc == RecordFailed || sup.pc.LogExit?
      ensures sup.pc == RecordFailed ==> !Clean(sup) && sup.result == Code(DecidedCode(sup))
      ensures sup.pc.LogExit? ==> Clean(sup) && sup.waitStatus == Some(Exited(sup.pc.exitCode))
    {
      ghost var w := Abs();
      Conclude(changed, observed);
      DecisionFacts(w.sup.(namespacesChanged := changed), observed);
      DecisionIsStep(w, changed);
      Step(w, if changed then Torn else Good);
    }

    lemma DecisionIsStep(w: World, changed: bool)
      requires w.sup.pc.CaptureAfter?
      ensures var o := if changed then Torn else Good;
              && SupCan(cfg, w, o)
              && SupDo(cfg, w, o) == w.(sup := Decide(w.sup.(namespacesChanged := changed), w.sup.pc.observed))
    {
    }

    lemma DecisionFacts(s: Supervisor, observed: WaitStatus)
      requires s.waitStatus == Some(observed)
      ensures var d := Decide(s, observed);
              && (d.pc == RecordFailed || d.pc.LogExit?) && d.waitStatus == s.waitStatus && d.kills == s.kills
              && (d.pc == RecordFailed ==> !Clean(d) && d.result == Code(DecidedCode(d)))
              && (d.pc.LogExit? ==> Clean(d) && d.waitStatus == Some(Exited(d.pc.exitCode)))
    {
    }

    method Conclude(changed: bool, observed: WaitStatus)
      modifies `sup
      ensures sup == Decide(old(sup).(namespacesChanged := changed), observed)
    {
      sup := sup.(namespacesChanged := changed);
      if sup.namespacesChanged || sup.protocolError || sup.reportedFailure {
        sup := sup.(pc := RecordFailed, result := Code(CodeOf(observed)));
      } else if !sup.sawNamespace || !sup.sawIsolation || !sup.sawProcessStart {
        sup := sup.(pc := RecordFailed, result := Code(BOOTSTRAP_FAILURE));
      } else {
        match observed
        case Exited(code) => sup := sup.(pc := LogExit(code), result := Code(code));
        case Signaled(signal) => sup := sup.(pc := RecordFailed, result := Code(128 + signal));
      }
    }

    /** record_failed_run: the event and the status, in this order. */
    method RecordFailedRun()
      requires Valid() && sup.pc == RecordFailed && child.dead.Some?
      modifies `child, `host, `log, `status, `sup, `run, `acts
      ensures Valid() && sup.pc == DropGuard && child == old(child) && sup.waitStatus == old(sup.waitStatus)
      ensures log == old(log) || log == old(log) + [ProcessFailed]
      ensures sup.result == Failure ||
              (sup.result == old(sup.result) && log == old(log) + [ProcessFailed] && status == StatusFailed)
    {
      LogFailedRun();
      if sup.pc == SetFailed { MarkFailedRun(); }
    }

    method LogFailedRun()
      requires Valid() && sup.pc == RecordFailed && child.dead.Some?
      modifies `child, `host, `log, `sup, `run, `acts
      ensures Valid() && child == old(child) && sup.waitStatus == old(sup.waitStatus)
      ensures sup.pc == DropGuard ||
              (sup.pc == SetFailed && log == old(log) + [ProcessFailed] && sup.result == old(sup.result))
      ensures sup.pc == DropGuard ==> sup.result == Failure && (log == old(log) || log == old(log) + [ProcessFailed])
    {
      Others();
      ghost var w := Abs();
      var o := AppendEvent(ProcessFailed, SetFailed, true);
      Step(w, o);
    }

    method MarkFailedRun()
      requires Valid() && sup.pc == SetFailed && child.dead.Some?
      modifies `child, `host, `status, `sup, `run, `acts
      ensures Valid() && sup.pc == DropGuard && child == old(child) && sup.waitStatus == old(sup.waitStatus)
      ensures sup.result == Failure || (sup.result == old(sup.result) && status == StatusFailed)
    {
      Others();
      ghost var w := Abs();
      var o := UpdateRunStatus(StatusFailed, DropGuard, true);
      Step(w, o);
    }

    /** The exit of a clean run: the event and the status, in this order. */
    method RecordExit(code: int)
      requires Valid() && sup.pc == LogExit(code) && child.dead.Some?
      modifies `child, `host, `log, `status, `sup, `run, `acts
      ensures Valid() && sup.pc == DropGuard && child == old(child) && sup.waitStatus == old(sup.waitStatus)
      ensures log == old(log) || log == old(log) + [ProcessExit(code)]
      ensures sup.result == Failure ||
              (sup.result == old(sup.result) && log == old(log) + [ProcessExit(code)] && status == StatusExited(code))
    {
      LogExitOf(code);
      if sup.pc == SetExited(code) { MarkExitOf(code); }
    }

    method LogExitOf(code: int)
      requires Valid() && sup.pc == LogExit(code) && child.dead.Some?
      modifies `child, `host, `log, `sup, `run, `acts
      ensures Valid() && child == old(child) && sup.waitStatus == old(sup.waitStatus)
      ensures sup.pc == DropGuard ||
              (sup.pc == SetExited(code) && log == old(log) + [ProcessExit(code)] && sup.result == old(sup.result))
      ensures sup.pc == DropGuard ==>
        sup.result == Failure && (log == old(log) || log == old(log) + [ProcessExit(code)])
    {
      Others();
      ghost var w := Abs();
      var o := AppendEvent(ProcessExit(code), SetExited(code), true);
      Step(w, o);
    }

    method MarkExitOf(code: int)
      requires Valid() && sup.pc == SetExited(code) && child.dead.Some?
      modifies `child, `host, `status, `sup, `run, `acts
      ensures Valid() && sup.pc == DropGuard && child == old(child) && sup.waitStatus == old(sup.waitStatus)
      ensures sup.result == Failure || (sup.result == old(sup.result) && status == StatusExited(code))
    {
      Others();
      ghost var w := Abs();
      var o := UpdateRunStatus(StatusExited(code), DropGuard, true);
      Step(w, o);
    }

    // -------------------------------------------------------------- the guard

    /** The Drop of ClonedWorkload: poll, kill and reap if need be, clean up; then free the
        stack. It sends SIGKILL only to a child that `run` has not reaped and that its poll has
        seen alive, and then reaps it. What is on record stays. */
    method DropWorkload() returns (killed: bool)
      requires Valid() && sup.pc == DropGuard
      modifies `child, `host, `cgroup, `sup, `run, `acts
      ensures Valid() && sup.pc == Returned && sup.result == old(sup.result)
      ensures child.dead.Some? && sup.waitStatus == child.dead && sup.stackFreed
      ensures killed ==> !old(sup.Reaped()) && old(child.dead).None?
      ensures sup.kills == if killed then old(sup.kills) + [Kill(true)] else old(sup.kills)
      ensures sup.cleanups == if cfg.cgroups then 1 else 0
      ensures cgroup ==> old(cgroup)
    {
      killed := EnsureReaped();
      FreeResources();
      EndFacts();
    }

    method EnsureReaped() returns (killed: bool)
      requires Valid() && sup.pc == DropGuard
      modifies `child, `sup, `run, `acts
      ensures Valid() && sup.pc == Cleanup && sup.result == old(sup.result)
      ensures killed ==> !old(sup.Reaped()) && old(child.dead).None?
      ensures sup.kills == if killed then old(sup.kills) + [Kill(true)] else old(sup.kills)
    {
      killed := PollOrKill();
      if killed { ReapKilled(); }
    }

    method ReapKilled()
      requires Valid() && sup.pc == GuardWait
      modifies `child, `sup, `run, `acts
      ensures Valid() && sup.pc == Cleanup && sup.result == old(sup.result) && sup.kills == old(sup.kills)
    {
      Reap();
    }

    method FreeResources()
      requires Valid() && sup.pc == Cleanup
      modifies `host, `cgroup, `sup, `run, `acts
      ensures Valid() && sup.pc == Returned && sup.stackFreed
      ensures sup.result == old(sup.result) && sup.kills == old(sup.kills)
      ensures cgroup ==> old(cgroup)
    {
      CleanUpCgroup();
      ReleaseStack();
    }

    /** The poll, and SIGKILL if it finds the child alive: then it is still to be reaped. */
    method PollOrKill() returns (killed: bool)
      requires Valid() && sup.pc == DropGuard
      modifies `child, `sup, `run, `acts
      ensures Valid() && sup.pc == (if killed then GuardWait else Cleanup) && sup.result == old(sup.result)
      ensures killed ==> !old(sup.Reaped()) && old(child.dead).None? && child.dead.None? && !sup.Reaped()
      ensures sup.kills == if killed then old(sup.kills) + [Kill(true)] else old(sup.kills)
    {
      Others();
      KillFacts();
      ghost var w := Abs();
      Poll();
      killed := sup.pc == GuardWait;
      PollIsStep(w);
      Step(w, Good);
    }

    lemma PollIsStep(w: World)
      requires w.sup.pc == DropGuard
      ensures SupCan(cfg, w, Good) && SupDo(cfg, w, Good) == w.(sup := Polled(w.sup, w.host, w.child.dead))
    {
    }

    method CleanUpCgroup()
      requires Valid() && sup.pc == Cleanup
      modifies `cgroup, `sup, `run, `acts
      ensures Valid() && sup.pc == FreeStack && (cgroup ==> old(cgroup))
      ensures sup.result == old(sup.result) && sup.kills == old(sup.kills)
    {
      ghost var w := Abs();
      var o := Good;
      if sup.prepared { o := RemoveCgroup(); }
      sup := sup.(pc := FreeStack, cleanups := sup.cleanups + if sup.prepared then 1 else 0);
      Step(w, o);
    }

    method ReleaseStack()
      requires Valid() && sup.pc == FreeStack
      modifies `host, `sup, `run, `acts
      ensures Valid() && sup.pc == Returned && sup.stackFreed
      ensures sup.result == old(sup.result) && sup.kills == old(sup.kills)
    {
      ghost var w := Abs();
      sup := sup.(pc := Returned, stackFreed := true);
      host := host.(endOpen := false);
      Step(w, Good);
    }

    method Poll()
      modifies `sup
      ensures sup == Polled(old(sup), host, child.dead)
    {
      if sup.waitStatus.Some? {
        sup := sup.(pc := Cleanup);
      } else if child.dead.Some? {
        sup := sup.(pc := Cleanup, waitStatus := child.dead);
      } else {
        Terminate();
        sup := sup.(pc := GuardWait);
      }
    }

    // -------------------------------------------------------------- run

    /** All that follows the hand-over, up to the guard. */
    method Supervise()
      requires Valid() && (sup.pc == AbortClose || sup.pc == DropGuard || sup.pc == Read)
      modifies this
      ensures Valid() && sup.pc == DropGuard
    {
      if sup.pc == AbortClose { AbortBlockedChild(); }
      if sup.pc == Read { ReadEvidence(); }
      if sup.pc == Judge {
        Settle();
        if sup.pc == RecordFailed { RecordFailedRun(); }
        if sup.pc.LogExit? { RecordExit(sup.pc.exitCode); }
      }
    }

    /** `run` returns, whatever fails and however the child behaves; and when nothing fails, with
        the exit of an isolated workload, or, exactly when it is not isolated, a failure. */
    method Run() returns (r: RunResult)
      requires Valid() && sup.pc == CaptureBefore
      modifies this
      ensures Valid() && WellReturned(cfg, Abs()) && r == sup.result
      ensures forall code :: NoFaults(run, acts, code) ==> EndsRight(cfg, run[0].sup.ids, code, Abs())
    {
      SetUp();
      if sup.pc != Returned {
        HandOver();
        Supervise();
        var killed := DropWorkload();
      }
      r := sup.result;
      ResultFacts();
    }

    lemma ResultFacts()
      requires Valid() && sup.pc == Returned
      ensures WellReturned(cfg, Abs())
      ensures forall code :: NoFaults(run, acts, code) ==> EndsRight(cfg, run[0].sup.ids, code, Abs())
    {
      assert Reachable(cfg, Abs());
      ReturnedMeansWell(cfg, Abs());
      forall code | NoFaults(run, acts, code) ensures EndsRight(cfg, run[0].sup.ids, code, Abs()) {
        RunsSucceedExactly(cfg, run, acts, code);
      }
    }
  }
}
