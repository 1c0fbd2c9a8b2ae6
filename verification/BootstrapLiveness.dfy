/** Every run of the bootstrap protocol is short, and none of them gets stuck. */
module BootstrapLiveness {
  import opened Namespaces
  import opened Notices
  import opened Options
  import opened Processes
  import opened Bootstrap
  import opened BootstrapInvariants
  import opened BootstrapSafety

  // ---------------------------------------------------------------- termination

  /** Lines the child may still begin. */
  function Coming(c: Child): nat {
    if c.dead.Some? || c.pc.Workload? || c.pc.Exiting? then 0
    else if c.pc.ReportFailure? then (if c.lineOpen then 0 else 1)
    else 4 - Due(c.pc)
  }

  function ChildLeft(c: Child): nat {
    if c.dead.Some? then 0 else if Straight(c.pc) then 20 - Rank(c.pc) else 18 - Rank(c.pc)
  }

  /** Steps the supervisor may still take, apart from those that coming lines cause. */
  function SupervisorLeft(pc: SupervisorPc): nat {
    match pc
    case CaptureBefore => 27 case StoreSeed => 26 case CreateRun => 25 case LogRunCreated => 24
    case LogSeedLoaded => 23 case PrepareCgroup => 22 case OpenSocket => 21 case Clone => 20
    case MapIds => 19 case MoveCgroup => 18 case LogCgroup => 17 case SetRunning => 16
    case Release => 15 case ShutWrite => 14 case Read => 13
    case LogNamespace => 15 case LogIdmap => 14
    case LogMount => 16 case LogCaps => 15 case LogSeccomp => 14 case LogStart => 14
    case Judge => 12 case Wait => 11 case AbortClose => 11 case AbortWait => 10 case CaptureAfter(_) => 10
    case RecordFailed => 9 case LogExit(_) => 9 case SetFailed => 8 case SetExited(_) => 8
    case DropGuard => 7 case GuardWait => 6 case Cleanup => 5 case FreeStack => 4 case Returned => 0
  }

  /** Lines can still be read: each is good for a read and at most three events. */
  predicate StillReads(pc: SupervisorPc) { 13 <= SupervisorLeft(pc) }

  function LinesLeft(w: World): nat
    requires w.host.received <= |w.child.sent|
  {
    |w.child.sent| - w.host.received + Coming(w.child)
  }

  function StepsLeft(w: World): nat
    requires w.host.received <= |w.child.sent|
  {
    SupervisorLeft(w.sup.pc) + (if StillReads(w.sup.pc) then 4 * LinesLeft(w) else 0) + ChildLeft(w.child)
  }

  const MAX_STEPS: nat := 63

  /** A supervisor step that takes no line. */
  predicate Advances(w: World, v: World) {
    v.child == w.child && v.host.received == w.host.received && SupervisorLeft(v.sup.pc) < SupervisorLeft(w.sup.pc)
  }

  lemma BeginAdvances(cfg: Config, w: World, o: Outcome)
    requires w.sup.pc.CaptureBefore? || w.sup.pc.StoreSeed? || w.sup.pc.CreateRun? || w.sup.pc.LogRunCreated?
    requires SupCan(cfg, w, o)
    ensures Advances(w, SetupDo(cfg, w, o))
  {
  }

  lemma CloneAdvances(cfg: Config, w: World, o: Outcome)
    requires w.sup.pc.LogSeedLoaded? || w.sup.pc.PrepareCgroup? || w.sup.pc.OpenSocket? || w.sup.pc.Clone?
    requires SupCan(cfg, w, o)
    ensures Advances(w, SetupDo(cfg, w, o))
  {
  }

  lemma ConfineAdvances(cfg: Config, w: World, o: Outcome)
    requires SupCan(cfg, w, o) && (w.sup.pc.MapIds? || w.sup.pc.MoveCgroup?)
    ensures Advances(w, HandOverDo(cfg, w, o))
  {
  }

  lemma CgroupLogAdvances(cfg: Config, w: World, o: Outcome)
    requires SupCan(cfg, w, o) && w.sup.pc.LogCgroup?
    ensures Advances(w, HandOverDo(cfg, w, o))
  {
  }

  lemma RunningAdvances(cfg: Config, w: World, o: Outcome)
    requires SupCan(cfg, w, o) && w.sup.pc.SetRunning?
    ensures Advances(w, HandOverDo(cfg, w, o))
  {
  }

  lemma ReleaseAdvances(cfg: Config, w: World, o: Outcome)
    requires SupCan(cfg, w, o) && (w.sup.pc.Release? || w.sup.pc.ShutWrite?)
    ensures Advances(w, HandOverDo(cfg, w, o))
  {
  }

  lemma AbortAdvances(cfg: Config, w: World, o: Outcome)
    requires SupCan(cfg, w, o) && (w.sup.pc.AbortClose? || w.sup.pc.AbortWait?)
    ensures Advances(w, HandOverDo(cfg, w, o))
  {
  }

  lemma NamespaceAdvances(cfg: Config, w: World, o: Outcome)
    requires SupCan(cfg, w, o) && w.sup.pc.LogNamespace?
    ensures Advances(w, EvidenceDo(cfg, w, o))
  {
  }

  lemma IdmapAdvances(cfg: Config, w: World, o: Outcome)
    requires SupCan(cfg, w, o) && w.sup.pc.LogIdmap?
    ensures Advances(w, EvidenceDo(cfg, w, o))
  {
  }

  lemma StartAdvances(cfg: Config, w: World, o: Outcome)
    requires SupCan(cfg, w, o) && w.sup.pc.LogStart?
    ensures Advances(w, EvidenceDo(cfg, w, o))
  {
  }

  lemma MountAdvances(cfg: Config, w: World, o: Outcome)
    requires SupCan(cfg, w, o) && w.sup.pc.LogMount?
    ensures Advances(w, EvidenceDo(cfg, w, o))
  {
  }

  lemma CapsAdvances(cfg: Config, w: World, o: Outcome)
    requires SupCan(cfg, w, o) && w.sup.pc.LogCaps?
    ensures Advances(w, EvidenceDo(cfg, w, o))
  {
  }

  lemma SeccompAdvances(cfg: Config, w: World, o: Outcome)
    requires SupCan(cfg, w, o) && w.sup.pc.LogSeccomp?
    ensures Advances(w, EvidenceDo(cfg, w, o))
  {
  }

  lemma WaitAdvances(cfg: Config, w: World, o: Outcome)
    requires SupCan(cfg, w, o) && (w.sup.pc.Judge? || w.sup.pc.Wait? || w.sup.pc.CaptureAfter?)
    ensures Advances(w, OutcomeDo(cfg, w, o))
  {
  }

  lemma FailureLogAdvances(cfg: Config, w: World, o: Outcome)
    requires SupCan(cfg, w, o) && w.sup.pc.RecordFailed?
    ensures Advances(w, OutcomeDo(cfg, w, o))
  {
  }

  lemma ExitLogAdvances(cfg: Config, w: World, o: Outcome)
    requires SupCan(cfg, w, o) && w.sup.pc.LogExit?
    ensures Advances(w, OutcomeDo(cfg, w, o))
  {
    var v := OutcomeDo(cfg, w, o);
    assert v.sup.pc == if o.Good? then SetExited(w.sup.pc.exitCode) else DropGuard;
  }

  lemma FailureStatusAdvances(cfg: Config, w: World, o: Outcome)
    requires SupCan(cfg, w, o) && w.sup.pc.SetFailed?
    ensures Advances(w, OutcomeDo(cfg, w, o))
  {
  }

  lemma ExitStatusAdvances(cfg: Config, w: World, o: Outcome)
    requires SupCan(cfg, w, o) && w.sup.pc.SetExited?
    ensures Advances(w, OutcomeDo(cfg, w, o))
  {
  }

  lemma GuardAdvances(cfg: Config, w: World, o: Outcome)
    requires SupCan(cfg, w, o) && (w.sup.pc.DropGuard? || w.sup.pc.GuardWait?)
    ensures Advances(w, GuardDo(cfg, w, o))
  {
  }

  lemma FreeingAdvances(cfg: Config, w: World, o: Outcome)
    requires SupCan(cfg, w, o) && (w.sup.pc.Cleanup? || w.sup.pc.FreeStack?)
    ensures Advances(w, GuardDo(cfg, w, o))
  {
  }

  lemma SupAdvances(cfg: Config, w: World, o: Outcome)
    requires SupCan(cfg, w, o) && !w.sup.pc.Read?
    ensures Advances(w, SupDo(cfg, w, o))
  {
    match w.sup.pc
    case CaptureBefore | StoreSeed | CreateRun | LogRunCreated => BeginAdvances(cfg, w, o);
    case LogSeedLoaded | PrepareCgroup | OpenSocket | Clone => CloneAdvances(cfg, w, o);
    case MapIds | MoveCgroup => ConfineAdvances(cfg, w, o);
    case LogCgroup => CgroupLogAdvances(cfg, w, o);
    case SetRunning => RunningAdvances(cfg, w, o);
    case Release | ShutWrite => ReleaseAdvances(cfg, w, o);
    case AbortClose | AbortWait => AbortAdvances(cfg, w, o);
    case LogNamespace => NamespaceAdvances(cfg, w, o);
    case LogIdmap => IdmapAdvances(cfg, w, o);
    case LogStart => StartAdvances(cfg, w, o);
    case LogMount => MountAdvances(cfg, w, o);
    case LogCaps => CapsAdvances(cfg, w, o);
    case LogSeccomp => SeccompAdvances(cfg, w, o);
    case Judge | Wait | CaptureAfter(_) => WaitAdvances(cfg, w, o);
    case RecordFailed => FailureLogAdvances(cfg, w, o);
    case LogExit(_) => ExitLogAdvances(cfg, w, o);
    case SetFailed => FailureStatusAdvances(cfg, w, o);
    case SetExited(_) => ExitStatusAdvances(cfg, w, o);
    case DropGuard | GuardWait => GuardAdvances(cfg, w, o);
    case _ => FreeingAdvances(cfg, w, o);
  }

  /** A line taken from the channel pays for the events it may cause. */
  lemma LineShortens(cfg: Config, w: World)
    requires w.sup.pc.Read? && w.LineReady()
    ensures var v := ReadDo(cfg, w, Good); v.host.received <= |v.child.sent| && StepsLeft(v) < StepsLeft(w)
  {
    var v := ReadDo(cfg, w, Good);
    assert v.sup.pc == Consume(cfg, w.sup, w.child.sent[w.host.received]).pc;
    assert LinesLeft(v) + 1 == LinesLeft(w);
  }

  lemma LoopEndShortens(cfg: Config, w: World, o: Outcome)
    requires w.sup.pc.Read? && w.host.received <= |w.child.sent| && !(o.Good? && w.LineReady())
    ensures var v := ReadDo(cfg, w, o); v.host.received <= |v.child.sent| && StepsLeft(v) < StepsLeft(w)
  {
  }

  /** The child's step costs the supervisor nothing. */
  predicate Shorter(c: Child, d: Child) {
    |c.sent| <= |d.sent| && |d.sent| + Coming(d) <= |c.sent| + Coming(c) && ChildLeft(d) < ChildLeft(c)
  }

  lemma EntryShortens(cfg: Config, h: Host, c: Child, o: Outcome)
    requires c.dead.None? && h.task.Some? && KidCan(cfg, h, c, o) && Rank(c.pc) <= 4
    ensures Shorter(c, KidDo(cfg, h, c, o))
  {
  }

  lemma BootShortens(cfg: Config, h: Host, c: Child, o: Outcome)
    requires c.dead.None? && h.task.Some? && KidCan(cfg, h, c, o) && 5 <= Rank(c.pc) <= 8
    ensures Shorter(c, KidDo(cfg, h, c, o))
  {
  }

  lemma LateShortens(cfg: Config, h: Host, c: Child, o: Outcome)
    requires c.dead.None? && h.task.Some? && KidCan(cfg, h, c, o) && 9 <= Rank(c.pc) <= 13
    ensures Shorter(c, KidDo(cfg, h, c, o))
  {
  }

  lemma LastShortens(cfg: Config, h: Host, c: Child, o: Outcome)
    requires c.dead.None? && h.task.Some? && KidCan(cfg, h, c, o) && 14 <= Rank(c.pc)
    ensures Shorter(c, KidDo(cfg, h, c, o))
  {
  }

  lemma StepShortens(cfg: Config, w: World, a: Action)
    requires Can(cfg, w, a) && w.host.received <= |w.child.sent|
    ensures var v := Do(cfg, w, a); v.host.received <= |v.child.sent| && StepsLeft(v) < StepsLeft(w)
  {
    match a
    case Sup(o) =>
      if !w.sup.pc.Read? { SupAdvances(cfg, w, o); }
      else if o.Good? && w.LineReady() { LineShortens(cfg, w); }
      else { LoopEndShortens(cfg, w, o); }
    case Kid(o) =>
      assert Shorter(w.child, KidDo(cfg, w.host, w.child, o)) by {
        if Rank(w.child.pc) <= 4 { EntryShortens(cfg, w.host, w.child, o); }
        else if Rank(w.child.pc) <= 8 { BootShortens(cfg, w.host, w.child, o); }
        else if Rank(w.child.pc) <= 13 { LateShortens(cfg, w.host, w.child, o); }
        else { LastShortens(cfg, w.host, w.child, o); }
      }
    case Signal(_) =>
  }

  lemma {:induction false} RunShortens(cfg: Config, run: seq<World>, acts: seq<Action>, n: nat)
    requires IsRun(cfg, run, acts) && n <= |acts|
    ensures run[n].host.received <= |run[n].child.sent| && n + StepsLeft(run[n]) <= MAX_STEPS
  {
    if n > 0 {
      RunShortens(cfg, run, acts, n - 1);
      StepShortens(cfg, run[n - 1], acts[n - 1]);
    }
  }

  /** No run, faulty or not, has more than 63 steps. */
  lemma RunsAreShort(cfg: Config, run: seq<World>, acts: seq<Action>)
    requires IsRun(cfg, run, acts)
    ensures |acts| <= MAX_STEPS
  {
    RunShortens(cfg, run, acts, |acts|);
  }

  // ---------------------------------------------------------------- deadlock freedom

  /** A step that does not rely on a fault: the calls that block are over, the workload
      may end, and a signal arrives only if the supervisor has sent SIGKILL. */
  predicate Driven(w: World, a: Action) {
    match a
    case Sup(o) => o.Good? || o.Cloned?
    case Kid(o) => o.Good? || (o.Bad? && !w.host.endOpen) || o.Ends?
    case Signal(signal) => w.sup.kills != [] && signal == SIGKILL
  }

  function KidNext(h: Host, c: Child): Outcome {
    if c.pc.Workload? then Ends(Exited(0))
    else if (c.pc.SendNamespace? || c.pc.SendIsolation? || c.pc.SendStart? || c.pc.ReportFailure?) && !h.endOpen
    then Bad
    else Good
  }

  /** The supervisor's next call, if it does not block. */
  function SupNext(w: World): Outcome {
    if w.sup.pc.Clone? then Cloned(Task(w.sup.ids, 1)) else Good
  }

  predicate Blocks(w: World) {
    || (w.sup.pc.Read? && !w.LineReady() && !w.EndOfStream())
    || ((w.sup.pc.Wait? || w.sup.pc.AbortWait? || w.sup.pc.GuardWait?) && w.child.dead.None?)
  }

  lemma OnlyWaitsBlock(cfg: Config, w: World)
    requires !w.sup.pc.Returned? && !Blocks(w)
    ensures SupCan(cfg, w, SupNext(w))
  {
  }

  /** While the supervisor waits for a line, the child can move. */
  lemma ReaderIsFed(cfg: Config, w: World)
    requires Inv(cfg, w) && w.sup.pc.Read? && Blocks(w)
    ensures w.Alive() && KidCan(cfg, w.host, w.child, KidNext(w.host, w.child))
  {
  }

  /** While the supervisor waits for the child to end, the child can move or has been killed. */
  lemma WaiterIsFed(cfg: Config, w: World)
    requires Inv(cfg, w) && !w.sup.pc.Read? && Blocks(w)
    ensures w.Alive() && (w.sup.kills != [] || KidCan(cfg, w.host, w.child, KidNext(w.host, w.child)))
  {
  }

  function NextAction(w: World): Action {
    if !Blocks(w) then Sup(SupNext(w))
    else if w.sup.kills != [] then Signal(SIGKILL)
    else Kid(KidNext(w.host, w.child))
  }

  /** Until `run` returns some task can move, without any fault: neither waitpid nor
      read_line nor the child's gate ever waits for something that cannot come. */
  lemma NoDeadlock(cfg: Config, w: World)
    requires Reachable(cfg, w) && !w.sup.pc.Returned?
    ensures Can(cfg, w, NextAction(w)) && Driven(w, NextAction(w))
  {
    ReachableInv(cfg, w);
    if !Blocks(w) { OnlyWaitsBlock(cfg, w); }
    else if w.sup.pc.Read? { ReaderIsFed(cfg, w); }
    else { WaiterIsFed(cfg, w); }
  }

  /** A run that cannot be continued has returned, and left no task behind. */
  lemma MaximalRunsReturn(cfg: Config, run: seq<World>, acts: seq<Action>)
    requires IsRun(cfg, run, acts)
    requires forall a: Action :: Driven(run[|acts|], a) ==> !Can(cfg, run[|acts|], a)
    ensures |acts| <= MAX_STEPS
    ensures var w := run[|acts|];
      w.sup.pc.Returned? && (w.host.task.Some? ==> w.child.dead.Some? && w.sup.Reaped() && w.sup.stackFreed)
  {
    var w := run[|acts|];
    RunsAreShort(cfg, run, acts);
    assert Reachable(cfg, w);
    if !w.sup.pc.Returned? {
      NoDeadlock(cfg, w);
    }
    ReachableInv(cfg, w);
  }
}
