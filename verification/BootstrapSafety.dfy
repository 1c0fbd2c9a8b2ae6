/** Every step of the bootstrap protocol keeps the proof outline. */
module BootstrapSafety {
  import opened Namespaces
  import opened Notices
  import opened Options
  import opened Processes
  import opened Bootstrap
  import opened BootstrapInvariants

  predicate Sound(cfg: Config, w: World) {
    SupervisorInv(cfg, w.sup, w.host, w.log, w.status)
  }

  /** Evidence was refused, or an error return found the child still running. */
  predicate MustKill(w: World) {
    || (w.sup.pc.Judge? && w.sup.protocolError)
    || (w.sup.pc.DropGuard? && !w.sup.Reaped() && w.child.dead.None?)
  }

  /** A supervisor step other than a read leaves the child alone and undoes nothing, and
      calls kill only when it must, on an unreaped child. */
  predicate Frame(cfg: Config, w: World, v: World) {
    && v.child == w.child
    && (w.host.task.Some? ==> v.host.task == w.host.task)
    && (w.host.idMapped ==> v.host.idMapped) && (w.host.cgroupMoved ==> v.host.cgroupMoved)
    && (w.host.startWritten ==> v.host.startWritten)
    && (v.host.startWritten && !w.host.startWritten ==> HandedOver(cfg, v.host))
    && v.host.received == w.host.received && v.sup.accepted == w.sup.accepted
    && (v.sup.waitStatus == w.sup.waitStatus || v.sup.waitStatus == w.child.dead)
    && v.sup.reportedFailure == w.sup.reportedFailure && (LoopEnded(v.sup) ==> LoopEnded(w.sup))
    && (w.host.task.Some? && !w.sup.pc.Cleanup? ==> LeavesCgroup(w, v))
    && v.sup.kills == if MustKill(w) then w.sup.kills + [Kill(true)] else w.sup.kills
  }

  predicate PastCleanup(pc: SupervisorPc) { pc.FreeStack? || pc.Returned? }

  /** From clone to the guard's clean-up, and after it, nobody touches the cgroup. */
  predicate LeavesCgroup(w: World, v: World) {
    v.cgroup == w.cgroup && (PastCleanup(v.sup.pc) <==> PastCleanup(w.sup.pc))
  }

  // ---------------------------------------------------------------- the log

  /** A log that is still on the script is backed, whatever the outcome will be. */
  lemma OpenLogIsBacked(cfg: Config, accepted: nat, exit: Option<int>, reaped: bool, handedOver: bool, log: seq<Event>)
    requires log <= LogAfter(cfg, accepted) && (2 < |log| ==> handedOver)
    ensures Body(log) == log && LogBacked(cfg, accepted, exit, reaped, handedOver, log)
  {
    if 0 < |log| {
      ScriptGoesOn(cfg, accepted, |log| - 1);
      assert log[|log| - 1] == LogAfter(cfg, accepted)[|log| - 1];
    }
  }

  lemma PartsGoOn(cfg: Config, e: Event)
    requires e in Head(cfg) || e in NamespacePart(cfg) || e in IsolationPart(cfg)
    ensures !EndsRun(e)
  {
  }

  /** Nothing before the end of the script ends the run. */
  lemma ScriptGoesOn(cfg: Config, accepted: nat, i: nat)
    requires i < |LogAfter(cfg, accepted)|
    ensures !EndsRun(LogAfter(cfg, accepted)[i])
  {
    var e, h, n := LogAfter(cfg, accepted)[i], |Head(cfg)|, |NamespacePart(cfg)|;
    if i < h { assert e == Head(cfg)[i]; PartsGoOn(cfg, e); }
    else if i < h + n { assert e == NamespacePart(cfg)[i - h]; PartsGoOn(cfg, e); }
    else if i < h + n + |IsolationPart(cfg)| { assert e == IsolationPart(cfg)[i - h - n]; PartsGoOn(cfg, e); }
  }

  lemma ReapingKeepsBacking(
    cfg: Config, accepted: nat, exit: Option<int>, later: Option<int>, handedOver: bool, log: seq<Event>)
    requires LogBacked(cfg, accepted, exit, false, handedOver, log)
    ensures LogBacked(cfg, accepted, later, true, handedOver, log)
  {
  }

  lemma EndingIsBacked(cfg: Config, accepted: nat, exit: Option<int>, handedOver: bool, log: seq<Event>, e: Event)
    requires LogBacked(cfg, accepted, exit, true, handedOver, log) && Body(log) == log
    requires (e.ProcessFailed? && exit.None?) ||
             (e.ProcessExit? && exit == Some(e.code) && accepted == 3 && log == Script(cfg))
    ensures LogBacked(cfg, accepted, exit, true, handedOver, log + [e])
  {
    assert (log + [e])[..|log|] == log;
  }

  lemma FailureIsBacked(cfg: Config, s: Supervisor, h: Host, log: seq<Event>)
    requires Backed(cfg, s, h, log) && Body(log) == log && s.Reaped() && CleanExit(s).None?
    ensures Backed(cfg, s, h, log + [ProcessFailed])
  {
    EndingIsBacked(cfg, s.accepted, CleanExit(s), HandedOver(cfg, h), log, ProcessFailed);
  }

  /** A log that has just received the failure that ends the run. */
  lemma FailureEndingIsSound(cfg: Config, v: World, log: seq<Event>)
    requires v.log == log + [ProcessFailed] && Backed(cfg, v.sup, v.host, log) && Body(log) == log && v.sup.Reaped()
    requires CleanExit(v.sup).None?
    requires v.host.task.Some? && v.sup.prepared == cfg.cgroups && v.sup.cleanups == 0 && !v.sup.stackFreed
    requires if v.sup.pc.SetFailed? then v.sup.result.Code? else v.sup.pc.DropGuard? && v.sup.result.Failure?
    ensures Sound(cfg, v)
  {
    FailureIsBacked(cfg, v.sup, v.host, log);
    assert v.sup.result.Failure? || v.sup.pc.SetFailed?;
  }

  /** A log that has just received the exit that ends the run. */
  lemma ExitEndingIsSound(cfg: Config, v: World, log: seq<Event>, code: int)
    requires v.log == log + [ProcessExit(code)] && Backed(cfg, v.sup, v.host, log) && Body(log) == log && v.sup.Reaped()
    requires CleanExit(v.sup) == Some(code) && v.sup.accepted == 3 && log == Script(cfg)
    requires v.host.task.Some? && v.sup.prepared == cfg.cgroups && v.sup.cleanups == 0 && !v.sup.stackFreed
    requires if v.sup.pc.SetExited? then v.sup.pc.exitCode == code && v.sup.result == Code(code)
             else v.sup.pc.DropGuard? && v.sup.result.Failure?
    ensures Sound(cfg, v)
  {
    EndingIsBacked(cfg, v.sup.accepted, CleanExit(v.sup), HandedOver(cfg, v.host), log, ProcessExit(code));
    assert Backed(cfg, v.sup, v.host, v.log);
  }

  /** An error return whose log is still on the script. */
  lemma UnwindingIsSound(cfg: Config, v: World)
    requires v.sup.pc.DropGuard? && v.sup.result.Failure? && v.host.task.Some?
    requires v.log <= LogAfter(cfg, v.sup.accepted) && (2 < |v.log| ==> HandedOver(cfg, v.host))
    requires v.sup.accepted <= 3 && (1 <= v.sup.accepted ==> Launched(cfg, v.sup, v.host))
    requires v.sup.prepared == cfg.cgroups && v.sup.cleanups == 0 && !v.sup.stackFreed
    ensures Sound(cfg, v)
  {
    OpenLogIsBacked(cfg, v.sup.accepted, CleanExit(v.sup), v.sup.Reaped(), HandedOver(cfg, v.host), v.log);
  }

  // ---------------------------------------------------------------- supervisor steps

  lemma OpeningKeeps(cfg: Config, w: World, o: Outcome)
    requires w.sup.pc.CaptureBefore? || w.sup.pc.StoreSeed? || w.sup.pc.CreateRun? || w.sup.pc.LogRunCreated?
    requires SupCan(cfg, w, o) && Sound(cfg, w)
    ensures Sound(cfg, SetupDo(cfg, w, o)) && Frame(cfg, w, SetupDo(cfg, w, o))
  {
  }

  lemma ForkingKeeps(cfg: Config, w: World, o: Outcome)
    requires w.sup.pc.OpenSocket? || w.sup.pc.Clone?
    requires SupCan(cfg, w, o) && Sound(cfg, w)
    ensures Sound(cfg, SetupDo(cfg, w, o)) && Frame(cfg, w, SetupDo(cfg, w, o))
  {
  }

  lemma SetupKeeps(cfg: Config, w: World, o: Outcome)
    requires InSetup(w.sup.pc) && SupCan(cfg, w, o) && Sound(cfg, w)
    ensures Sound(cfg, SetupDo(cfg, w, o)) && Frame(cfg, w, SetupDo(cfg, w, o))
  {
    if w.sup.pc.CaptureBefore? || w.sup.pc.StoreSeed? || w.sup.pc.CreateRun? || w.sup.pc.LogRunCreated? {
      OpeningKeeps(cfg, w, o);
    } else if w.sup.pc.OpenSocket? || w.sup.pc.Clone? {
      ForkingKeeps(cfg, w, o);
    }
  }

  lemma HandOverKeeps(cfg: Config, w: World, o: Outcome)
    requires w.sup.pc.MapIds? || w.sup.pc.MoveCgroup?
    requires SupCan(cfg, w, o) && Sound(cfg, w)
    ensures Sound(cfg, HandOverDo(cfg, w, o)) && Frame(cfg, w, HandOverDo(cfg, w, o))
  {
  }

  lemma RunningKeeps(cfg: Config, w: World, o: Outcome)
    requires w.sup.pc.SetRunning? && SupCan(cfg, w, o) && Sound(cfg, w)
    ensures Sound(cfg, HandOverDo(cfg, w, o)) && Frame(cfg, w, HandOverDo(cfg, w, o))
  {
  }

  lemma CgroupRecordKeeps(cfg: Config, w: World, o: Outcome)
    requires w.sup.pc.LogCgroup? && SupCan(cfg, w, o) && Sound(cfg, w)
    ensures Sound(cfg, HandOverDo(cfg, w, o)) && Frame(cfg, w, HandOverDo(cfg, w, o))
  {
    if !o.Good? { UnwindingIsSound(cfg, HandOverDo(cfg, w, o)); }
  }

  lemma ReleaseKeeps(cfg: Config, w: World, o: Outcome)
    requires w.sup.pc.Release? && SupCan(cfg, w, o) && Sound(cfg, w)
    ensures Sound(cfg, HandOverDo(cfg, w, o)) && Frame(cfg, w, HandOverDo(cfg, w, o))
  {
  }

  lemma ShutWriteKeeps(cfg: Config, w: World, o: Outcome)
    requires w.sup.pc.ShutWrite? && SupCan(cfg, w, o) && Sound(cfg, w)
    ensures Sound(cfg, HandOverDo(cfg, w, o)) && Frame(cfg, w, HandOverDo(cfg, w, o))
  {
  }

  lemma AbortCloseKeeps(cfg: Config, w: World, o: Outcome)
    requires w.sup.pc.AbortClose? && SupCan(cfg, w, o) && Sound(cfg, w)
    ensures Sound(cfg, HandOverDo(cfg, w, o)) && Frame(cfg, w, HandOverDo(cfg, w, o))
  {
  }

  lemma AbortWaitKeeps(cfg: Config, w: World, o: Outcome)
    requires w.sup.pc.AbortWait? && SupCan(cfg, w, o) && Sound(cfg, w)
    ensures Sound(cfg, HandOverDo(cfg, w, o)) && Frame(cfg, w, HandOverDo(cfg, w, o))
  {
  }

  lemma BlockedKeeps(cfg: Config, w: World, o: Outcome)
    requires InHandOver(w.sup.pc) && SupCan(cfg, w, o) && Sound(cfg, w)
    ensures Sound(cfg, HandOverDo(cfg, w, o)) && Frame(cfg, w, HandOverDo(cfg, w, o))
  {
    match w.sup.pc
    case LogCgroup => CgroupRecordKeeps(cfg, w, o);
    case SetRunning => RunningKeeps(cfg, w, o);
    case Release => ReleaseKeeps(cfg, w, o);
    case ShutWrite => ShutWriteKeeps(cfg, w, o);
    case AbortClose => AbortCloseKeeps(cfg, w, o);
    case AbortWait => AbortWaitKeeps(cfg, w, o);
    case _ => HandOverKeeps(cfg, w, o);
  }

  function EventAt(pc: SupervisorPc): Event
    requires InEvidence(pc)
  {
    match pc
    case LogNamespace => NsCreated
    case LogIdmap => IdmapApplied
    case LogMount => MountDone
    case LogCaps => CapsDropped
    case LogSeccomp => SeccompEnabled
    case LogStart => ProcessStarted
  }

  function NoticeAt(pc: SupervisorPc): nat
    requires InEvidence(pc)
  {
    if pc.LogNamespace? || pc.LogIdmap? then 1 else if pc.LogStart? then 3 else 2
  }

  function NextPlace(cfg: Config, pc: SupervisorPc): SupervisorPc {
    match pc
    case LogNamespace => AfterNamespace(cfg)
    case LogMount => AfterMount(cfg)
    case LogCaps => AfterCaps(cfg)
    case _ => Read
  }

  /** The next event of the script at each place of the reader loop. */
  lemma WrittenGrows(cfg: Config, pc: SupervisorPc)
    requires InEvidence(pc)
    requires pc.LogIdmap? ==> cfg.mapRootless
    requires pc.LogCaps? ==> cfg.dropCaps
    requires pc.LogSeccomp? ==> cfg.seccomp
    ensures Written(cfg, pc, NoticeAt(pc)) + [EventAt(pc)] == Written(cfg, NextPlace(cfg, pc), NoticeAt(pc))
    ensures Written(cfg, pc, NoticeAt(pc)) + [EventAt(pc)] <= LogAfter(cfg, NoticeAt(pc))
  {
  }

  lemma StartEvidenceKeeps(cfg: Config, w: World)
    requires w.sup.pc.LogStart? && Sound(cfg, w)
    ensures Sound(cfg, EvidenceDo(cfg, w, Good)) && Frame(cfg, w, EvidenceDo(cfg, w, Good))
  {
    WrittenGrows(cfg, w.sup.pc);
  }

  lemma NamespaceEvidenceKeeps(cfg: Config, w: World)
    requires w.sup.pc.LogNamespace? || w.sup.pc.LogIdmap? || w.sup.pc.LogStart?
    requires Sound(cfg, w)
    ensures Sound(cfg, EvidenceDo(cfg, w, Good)) && Frame(cfg, w, EvidenceDo(cfg, w, Good))
  {
    if w.sup.pc.LogStart? { StartEvidenceKeeps(cfg, w); }
    else if w.sup.pc.LogIdmap? { IdmapEvidenceKeeps(cfg, w); }
    else { WrittenGrows(cfg, w.sup.pc); }
  }

  lemma IdmapEvidenceKeeps(cfg: Config, w: World)
    requires w.sup.pc.LogIdmap? && Sound(cfg, w)
    ensures Sound(cfg, EvidenceDo(cfg, w, Good)) && Frame(cfg, w, EvidenceDo(cfg, w, Good))
  {
    WrittenGrows(cfg, w.sup.pc);
  }

  lemma MountEvidenceKeeps(cfg: Config, w: World)
    requires w.sup.pc.LogMount? && Sound(cfg, w)
    ensures Sound(cfg, EvidenceDo(cfg, w, Good)) && Frame(cfg, w, EvidenceDo(cfg, w, Good))
  {
    WrittenGrows(cfg, w.sup.pc);
  }

  lemma IsolationEvidenceKeeps(cfg: Config, w: World)
    requires w.sup.pc.LogMount? || w.sup.pc.LogCaps? || w.sup.pc.LogSeccomp?
    requires Sound(cfg, w)
    ensures Sound(cfg, EvidenceDo(cfg, w, Good)) && Frame(cfg, w, EvidenceDo(cfg, w, Good))
  {
    if w.sup.pc.LogMount? { MountEvidenceKeeps(cfg, w); } else { WrittenGrows(cfg, w.sup.pc); }
  }

  lemma StartEvidenceErrKeeps(cfg: Config, w: World, o: Outcome)
    requires w.sup.pc.LogStart? && Sound(cfg, w) && (o.Bad? || o.Torn?)
    ensures Sound(cfg, EvidenceDo(cfg, w, o)) && Frame(cfg, w, EvidenceDo(cfg, w, o))
  {
    WrittenGrows(cfg, w.sup.pc);
    UnwindingIsSound(cfg, EvidenceDo(cfg, w, o));
  }

  lemma NamespaceEvidenceErrKeeps(cfg: Config, w: World, o: Outcome)
    requires w.sup.pc.LogNamespace? || w.sup.pc.LogIdmap?
    requires Sound(cfg, w) && (o.Bad? || o.Torn?)
    ensures Sound(cfg, EvidenceDo(cfg, w, o)) && Frame(cfg, w, EvidenceDo(cfg, w, o))
  {
    WrittenGrows(cfg, w.sup.pc);
    UnwindingIsSound(cfg, EvidenceDo(cfg, w, o));
  }

  lemma IsolationEvidenceErrKeeps(cfg: Config, w: World, o: Outcome)
    requires w.sup.pc.LogMount? || w.sup.pc.LogCaps? || w.sup.pc.LogSeccomp?
    requires Sound(cfg, w) && (o.Bad? || o.Torn?)
    ensures Sound(cfg, EvidenceDo(cfg, w, o)) && Frame(cfg, w, EvidenceDo(cfg, w, o))
  {
    WrittenGrows(cfg, w.sup.pc);
    UnwindingIsSound(cfg, EvidenceDo(cfg, w, o));
  }

  /** What the reader can meet: the next planned notice, or a line that ends the talk. */
  predicate Expected(w: World, line: Line) {
    EndsTalk(line) ||
    (w.host.task.Some? && w.host.received < 3 && line == Whole(Plan(w.host.task.value, w.host.received)))
  }

  /** The world after the loop body has seen `line`. */
  function Takes(cfg: Config, w: World, line: Line): World {
    w.(sup := Consume(cfg, w.sup, line), host := w.host.(received := w.host.received + 1))
  }

  lemma ConsumeNamespaceKeeps(cfg: Config, w: World, line: Line)
    requires w.sup.pc.Read? && Sound(cfg, w) && Expected(w, line)
    requires line.Whole? && line.notice.NamespaceReady?
    ensures Sound(cfg, Takes(cfg, w, line))
  {
    ValidationIsExact(w.sup.ids, line.notice.ids, cfg.mapRootless, cfg.enableNet, line.notice.namespacePid);
  }

  lemma ConsumePlannedKeeps(cfg: Config, w: World, line: Line)
    requires w.sup.pc.Read? && Sound(cfg, w) && Expected(w, line)
    requires line.Whole? && (line.notice.IsolationReady? || line.notice.ProcessStart?)
    ensures Sound(cfg, Takes(cfg, w, line))
  {
  }

  lemma ConsumeEndKeeps(cfg: Config, w: World, line: Line)
    requires w.sup.pc.Read? && Sound(cfg, w) && EndsTalk(line)
    ensures Sound(cfg, Takes(cfg, w, line))
  {
  }

  lemma ReadEndKeeps(cfg: Config, w: World, o: Outcome)
    requires w.sup.pc.Read? && Sound(cfg, w) && (o.Bad? || !w.LineReady())
    ensures Sound(cfg, ReadDo(cfg, w, o)) && ReadDo(cfg, w, o).host == w.host
  {
  }

  lemma JudgeKeeps(cfg: Config, w: World, o: Outcome)
    requires w.sup.pc.Judge? && SupCan(cfg, w, o) && Sound(cfg, w)
    ensures Sound(cfg, OutcomeDo(cfg, w, o)) && Frame(cfg, w, OutcomeDo(cfg, w, o))
  {
  }

  lemma WaitKeeps(cfg: Config, w: World, o: Outcome)
    requires w.sup.pc.Wait? && SupCan(cfg, w, o) && Sound(cfg, w)
    ensures Sound(cfg, OutcomeDo(cfg, w, o)) && Frame(cfg, w, OutcomeDo(cfg, w, o))
  {
  }

  /** A run about to be recorded as failed, its log still on the script. */
  lemma FailureIsSound(cfg: Config, v: World)
    requires v.sup.pc.RecordFailed? && Launched(cfg, v.sup, v.host) && v.log <= LogAfter(cfg, v.sup.accepted)
    requires v.sup.Reaped() && !Clean(v.sup) && v.sup.result.Code? && v.sup.cleanups == 0 && !v.sup.stackFreed
    ensures Sound(cfg, v)
  {
    OpenLogIsBacked(cfg, v.sup.accepted, CleanExit(v.sup), true, HandedOver(cfg, v.host), v.log);
  }

  lemma DecisionKeeps(cfg: Config, w: World, o: Outcome)
    requires w.sup.pc.CaptureAfter? && SupCan(cfg, w, o) && Sound(cfg, w) && !o.Bad?
    requires OutcomeDo(cfg, w, o).sup.pc.RecordFailed?
    ensures Sound(cfg, OutcomeDo(cfg, w, o)) && Frame(cfg, w, OutcomeDo(cfg, w, o))
  {
    FailureIsSound(cfg, OutcomeDo(cfg, w, o));
  }

  lemma ExitDecisionKeeps(cfg: Config, w: World, o: Outcome)
    requires w.sup.pc.CaptureAfter? && SupCan(cfg, w, o) && Sound(cfg, w) && !o.Bad?
    requires !OutcomeDo(cfg, w, o).sup.pc.RecordFailed?
    ensures Sound(cfg, OutcomeDo(cfg, w, o)) && Frame(cfg, w, OutcomeDo(cfg, w, o))
  {
  }

  lemma NoDecisionKeeps(cfg: Config, w: World)
    requires w.sup.pc.CaptureAfter? && Sound(cfg, w)
    ensures Sound(cfg, OutcomeDo(cfg, w, Bad)) && Frame(cfg, w, OutcomeDo(cfg, w, Bad))
  {
    UnwindingIsSound(cfg, OutcomeDo(cfg, w, Bad));
  }

  lemma FailureRecordKeeps(cfg: Config, w: World, o: Outcome)
    requires w.sup.pc.RecordFailed? && (o.Good? || o.Torn?) && Sound(cfg, w)
    ensures Sound(cfg, OutcomeDo(cfg, w, o)) && Frame(cfg, w, OutcomeDo(cfg, w, o))
  {
    FailureEndingIsSound(cfg, OutcomeDo(cfg, w, o), w.log);
  }

  lemma NoFailureRecordKeeps(cfg: Config, w: World)
    requires w.sup.pc.RecordFailed? && Sound(cfg, w)
    ensures Sound(cfg, OutcomeDo(cfg, w, Bad)) && Frame(cfg, w, OutcomeDo(cfg, w, Bad))
  {
    UnwindingIsSound(cfg, OutcomeDo(cfg, w, Bad));
  }

  lemma ExitRecordKeeps(cfg: Config, w: World, o: Outcome)
    requires w.sup.pc.LogExit? && SupCan(cfg, w, o) && Sound(cfg, w) && !o.Bad?
    ensures Sound(cfg, OutcomeDo(cfg, w, o)) && Frame(cfg, w, OutcomeDo(cfg, w, o))
  {
    var s := w.sup;
    OpenLogIsBacked(cfg, s.accepted, CleanExit(s), true, HandedOver(cfg, w.host), w.log);
    ExitEndingIsSound(cfg, OutcomeDo(cfg, w, o), w.log, s.pc.exitCode);
  }

  lemma NoExitRecordKeeps(cfg: Config, w: World)
    requires w.sup.pc.LogExit? && Sound(cfg, w)
    ensures Sound(cfg, OutcomeDo(cfg, w, Bad)) && Frame(cfg, w, OutcomeDo(cfg, w, Bad))
  {
    UnwindingIsSound(cfg, OutcomeDo(cfg, w, Bad));
  }

  lemma NoFailedStatusKeeps(cfg: Config, w: World, o: Outcome)
    requires w.sup.pc.SetFailed? && SupCan(cfg, w, o) && Sound(cfg, w) && !o.Good?
    ensures Sound(cfg, OutcomeDo(cfg, w, o)) && Frame(cfg, w, OutcomeDo(cfg, w, o))
  {
    var v := OutcomeDo(cfg, w, o);
    assert v.sup == w.sup.(pc := DropGuard, result := Failure) && v.log == w.log;
    assert CleanExit(v.sup) == CleanExit(w.sup) == None;
    assert Backed(cfg, v.sup, v.host, v.log);
  }

  /** The failure is on record: log, status and result name the same outcome. */
  lemma FailureIsRecorded(cfg: Config, w: World)
    requires w.sup.pc.SetFailed? && Sound(cfg, w)
    ensures Sound(cfg, OutcomeDo(cfg, w, Good)) && Frame(cfg, w, OutcomeDo(cfg, w, Good))
  {
    var v := OutcomeDo(cfg, w, Good);
    assert v.sup == w.sup.(pc := DropGuard) && v.log == w.log && v.host == w.host;
    assert CleanExit(v.sup) == CleanExit(w.sup) == None;
    assert Backed(cfg, v.sup, v.host, v.log);
  }

  lemma FailedStatusKeeps(cfg: Config, w: World, o: Outcome)
    requires w.sup.pc.SetFailed? && SupCan(cfg, w, o) && Sound(cfg, w)
    ensures Sound(cfg, OutcomeDo(cfg, w, o)) && Frame(cfg, w, OutcomeDo(cfg, w, o))
  {
    if o.Good? { FailureIsRecorded(cfg, w); } else { NoFailedStatusKeeps(cfg, w, o); }
  }

  lemma NoExitStatusKeeps(cfg: Config, w: World, o: Outcome)
    requires w.sup.pc.SetExited? && SupCan(cfg, w, o) && Sound(cfg, w) && !o.Good?
    ensures Sound(cfg, OutcomeDo(cfg, w, o)) && Frame(cfg, w, OutcomeDo(cfg, w, o))
  {
    var v := OutcomeDo(cfg, w, o);
    assert v.sup == w.sup.(pc := DropGuard, result := Failure) && v.log == w.log;
    assert CleanExit(v.sup) == CleanExit(w.sup);
    assert Backed(cfg, v.sup, v.host, v.log);
  }

  /** The exit is on record: log, status and result name the same outcome. */
  lemma ExitIsRecorded(cfg: Config, w: World)
    requires w.sup.pc.SetExited? && Sound(cfg, w)
    ensures Sound(cfg, OutcomeDo(cfg, w, Good)) && Frame(cfg, w, OutcomeDo(cfg, w, Good))
  {
    var v, code := OutcomeDo(cfg, w, Good), w.sup.pc.exitCode;
    assert v.sup == w.sup.(pc := DropGuard) && v.log == w.log && v.host == w.host;
    assert CleanExit(v.sup) == CleanExit(w.sup);
    assert Backed(cfg, v.sup, v.host, v.log);
    ExitUnwinds(cfg, v, code);
  }

  lemma ExitUnwinds(cfg: Config, v: World, code: int)
    requires v.sup.pc.DropGuard? && Backed(cfg, v.sup, v.host, v.log) && v.host.task.Some? && v.sup.Reaped()
    requires v.sup.prepared == cfg.cgroups && v.sup.cleanups == 0 && !v.sup.stackFreed
    requires CleanExit(v.sup) == Some(code) && v.sup.result == Code(code) && v.status == StatusExited(code)
    requires v.log == Script(cfg) + [ProcessExit(code)]
    ensures Sound(cfg, v)
  {
    assert v.log[|v.log| - 1] == ProcessExit(code);
  }

  lemma ExitStatusKeeps(cfg: Config, w: World, o: Outcome)
    requires w.sup.pc.SetExited? && SupCan(cfg, w, o) && Sound(cfg, w)
    ensures Sound(cfg, OutcomeDo(cfg, w, o)) && Frame(cfg, w, OutcomeDo(cfg, w, o))
  {
    if o.Good? { ExitIsRecorded(cfg, w); } else { NoExitStatusKeeps(cfg, w, o); }
  }

  /** The guard reaps: nothing about the log depends on the wait status yet. */
  lemma ReapedIsSound(cfg: Config, w: World, v: World)
    requires Backed(cfg, w.sup, w.host, w.log) && w.sup.result.Failure? && !w.sup.Reaped() && w.host.task.Some?
    requires w.sup.prepared == cfg.cgroups && w.sup.cleanups == 0 && !w.sup.stackFreed
    requires v == w.(sup := w.sup.(pc := Cleanup, waitStatus := v.sup.waitStatus)) && v.sup.Reaped()
    ensures Sound(cfg, v)
  {
    ReapingKeepsBacking(cfg, w.sup.accepted, CleanExit(w.sup), CleanExit(v.sup), HandedOver(cfg, w.host), w.log);
  }

  /** Drop of a guard whose child `run` has already reaped. */
  lemma DropReapedKeeps(cfg: Config, w: World, o: Outcome)
    requires w.sup.pc.DropGuard? && Sound(cfg, w) && w.sup.Reaped()
    ensures Sound(cfg, GuardDo(cfg, w, o)) && Frame(cfg, w, GuardDo(cfg, w, o))
  {
    var v := GuardDo(cfg, w, o);
    assert v == w.(sup := w.sup.(pc := Cleanup)) && CleanExit(v.sup) == CleanExit(w.sup);
    assert Unwinding(cfg, v.sup, v.host, v.log, v.status);
  }

  lemma DropKillKeeps(cfg: Config, w: World, o: Outcome)
    requires w.sup.pc.DropGuard? && Sound(cfg, w) && !w.sup.Reaped() && w.child.dead.None?
    ensures Sound(cfg, GuardDo(cfg, w, o)) && Frame(cfg, w, GuardDo(cfg, w, o))
  {
    var v := GuardDo(cfg, w, o);
    assert v == w.(sup := w.sup.(pc := GuardWait, kills := v.sup.kills)) && CleanExit(v.sup) == CleanExit(w.sup);
    assert Unwinding(cfg, v.sup, v.host, v.log, v.status);
  }

  lemma DropReapKeeps(cfg: Config, w: World, o: Outcome)
    requires w.sup.pc.DropGuard? && w.child.dead.Some? && Sound(cfg, w) && !w.sup.Reaped()
    ensures Sound(cfg, GuardDo(cfg, w, o)) && Frame(cfg, w, GuardDo(cfg, w, o))
  {
    ReapedIsSound(cfg, w, GuardDo(cfg, w, o));
  }

  lemma KilledReapKeeps(cfg: Config, w: World, o: Outcome)
    requires w.sup.pc.GuardWait? && w.child.dead.Some? && Sound(cfg, w) && !w.sup.Reaped()
    ensures Sound(cfg, GuardDo(cfg, w, o)) && Frame(cfg, w, GuardDo(cfg, w, o))
  {
    ReapedIsSound(cfg, w, GuardDo(cfg, w, o));
  }

  lemma CleanupKeeps(cfg: Config, w: World, o: Outcome)
    requires w.sup.pc.Cleanup? && Sound(cfg, w)
    ensures Sound(cfg, GuardDo(cfg, w, o)) && Frame(cfg, w, GuardDo(cfg, w, o))
  {
    var v := GuardDo(cfg, w, o);
    assert v.sup == w.sup.(pc := FreeStack, cleanups := v.sup.cleanups) && CleanExit(v.sup) == CleanExit(w.sup);
    assert Unwinding(cfg, v.sup, v.host, v.log, v.status);
  }

  lemma FreeingUnwinds(cfg: Config, s: Supervisor, h: Host, log: seq<Event>, status: RunStatus)
    requires Unwinding(cfg, s, h, log, status)
    ensures Unwinding(cfg, s.(pc := Returned, stackFreed := true), h.(endOpen := false), log, status)
  {
    assert CleanExit(s.(pc := Returned, stackFreed := true)) == CleanExit(s);
  }

  lemma FreeKeeps(cfg: Config, w: World, o: Outcome)
    requires w.sup.pc.FreeStack? && Sound(cfg, w)
    ensures Sound(cfg, GuardDo(cfg, w, o)) && Frame(cfg, w, GuardDo(cfg, w, o))
  {
    var v := GuardDo(cfg, w, o);
    assert v.sup == w.sup.(pc := Returned, stackFreed := true) && v.host == w.host.(endOpen := false);
    FreeingUnwinds(cfg, w.sup, w.host, w.log, w.status);
  }

  // ---------------------------------------------------------------- child steps

  predicate KidSound(cfg: Config, h: Host, c: Child) { h.task.Some? && ChildInv(cfg, h.task.value, c) }

  predicate KidMoves(cfg: Config, h: Host, c: Child, o: Outcome) {
    KidSound(cfg, h, c) && c.dead.None? && KidCan(cfg, h, c, o)
  }

  lemma GateKeeps(cfg: Config, h: Host, c: Child, o: Outcome)
    requires KidMoves(cfg, h, c, o) && Rank(c.pc) <= 2
    ensures KidSound(cfg, h, KidDo(cfg, h, c, o))
  {
  }

  lemma EntryKeeps(cfg: Config, h: Host, c: Child, o: Outcome)
    requires KidMoves(cfg, h, c, o) && 3 <= Rank(c.pc) <= 4
    ensures KidSound(cfg, h, KidDo(cfg, h, c, o))
  {
  }

  lemma MountsKeep(cfg: Config, h: Host, c: Child, o: Outcome)
    requires KidMoves(cfg, h, c, o) && 5 <= Rank(c.pc) <= 7
    ensures KidSound(cfg, h, KidDo(cfg, h, c, o))
  {
  }

  lemma PrivilegesKeep(cfg: Config, h: Host, c: Child, o: Outcome)
    requires KidMoves(cfg, h, c, o) && 8 <= Rank(c.pc) <= 10
    ensures KidSound(cfg, h, KidDo(cfg, h, c, o))
  {
  }

  lemma IsolationNoticeKeeps(cfg: Config, h: Host, c: Child, o: Outcome)
    requires KidMoves(cfg, h, c, o) && c.pc.SendIsolation?
    ensures KidSound(cfg, h, KidDo(cfg, h, c, o))
  {
  }

  lemma PreparationKeeps(cfg: Config, h: Host, c: Child, o: Outcome)
    requires KidMoves(cfg, h, c, o) && c.pc.Prepare?
    ensures KidSound(cfg, h, KidDo(cfg, h, c, o))
  {
  }

  lemma StartNoticeKeeps(cfg: Config, h: Host, c: Child, o: Outcome)
    requires KidMoves(cfg, h, c, o) && c.pc.SendStart?
    ensures KidSound(cfg, h, KidDo(cfg, h, c, o))
  {
  }

  lemma ExecKeeps(cfg: Config, h: Host, c: Child, o: Outcome)
    requires KidMoves(cfg, h, c, o) && 14 <= Rank(c.pc) <= 15
    ensures KidSound(cfg, h, KidDo(cfg, h, c, o))
  {
  }

  lemma ReportKeeps(cfg: Config, h: Host, c: Child, o: Outcome)
    requires KidMoves(cfg, h, c, o) && 16 <= Rank(c.pc)
    ensures KidSound(cfg, h, KidDo(cfg, h, c, o))
  {
  }

  lemma ChildKeeps(cfg: Config, h: Host, c: Child, o: Outcome)
    requires KidMoves(cfg, h, c, o)
    ensures KidSound(cfg, h, KidDo(cfg, h, c, o))
  {
    if Rank(c.pc) <= 2 { GateKeeps(cfg, h, c, o); }
    else if Rank(c.pc) <= 4 { EntryKeeps(cfg, h, c, o); }
    else if Rank(c.pc) <= 7 { MountsKeep(cfg, h, c, o); }
    else if Rank(c.pc) <= 10 { PrivilegesKeep(cfg, h, c, o); }
    else if c.pc.SendIsolation? { IsolationNoticeKeeps(cfg, h, c, o); }
    else if c.pc.Prepare? { PreparationKeeps(cfg, h, c, o); }
    else if c.pc.SendStart? { StartNoticeKeeps(cfg, h, c, o); }
    else if Rank(c.pc) <= 15 { ExecKeeps(cfg, h, c, o); }
    else { ReportKeeps(cfg, h, c, o); }
  }

  /** One more line. */
  predicate Adds(cfg: Config, h: Host, c: Child, d: Child) {
    && |d.sent| == |c.sent| + 1 && c.sent <= d.sent && |c.sent| - h.received < cfg.capacity
    && Progress(c.sent) <= Progress(d.sent)
  }

  /** The open line becomes unreadable. */
  predicate Spoils(c: Child, d: Child) {
    && c.lineOpen && c.endOpen && |d.sent| == |c.sent| > 0 && d.sent[..|c.sent| - 1] == c.sent[..|c.sent| - 1]
    && |c.sent| - 1 <= Progress(d.sent)
  }

  /** The child never takes a line or a fact back, unless the line is still open, and writes
      only what somebody can read. */
  predicate Grows(cfg: Config, h: Host, c: Child, d: Child) {
    && (d.sent == c.sent || Adds(cfg, h, c, d) || Spoils(c, d))
    && (d.lineOpen ==> c.lineOpen || |d.sent| == |c.sent| + 1)
    && (d.facts.released ==> c.facts.released || h.startWritten)
    && (c.pc.Exiting? ==> d.pc.Exiting?) && (d.endOpen ==> c.endOpen)
  }

  lemma EntryGrows(cfg: Config, h: Host, c: Child, o: Outcome)
    requires KidMoves(cfg, h, c, o) && Rank(c.pc) <= 4
    ensures Grows(cfg, h, c, KidDo(cfg, h, c, o))
  {
  }

  lemma BootGrows(cfg: Config, h: Host, c: Child, o: Outcome)
    requires KidMoves(cfg, h, c, o) && Rank(c.pc) <= 8
    ensures Grows(cfg, h, c, KidDo(cfg, h, c, o))
  {
    if Rank(c.pc) <= 4 { EntryGrows(cfg, h, c, o); }
  }

  lemma PolicyGrows(cfg: Config, h: Host, c: Child, o: Outcome)
    requires KidMoves(cfg, h, c, o) && 9 <= Rank(c.pc) <= 11
    ensures Grows(cfg, h, c, KidDo(cfg, h, c, o))
  {
  }

  lemma LateGrows(cfg: Config, h: Host, c: Child, o: Outcome)
    requires KidMoves(cfg, h, c, o) && 9 <= Rank(c.pc) <= 13
    ensures Grows(cfg, h, c, KidDo(cfg, h, c, o))
  {
    if Rank(c.pc) <= 11 { PolicyGrows(cfg, h, c, o); }
  }

  lemma ExecGrows(cfg: Config, h: Host, c: Child, o: Outcome)
    requires c.dead.None? && KidCan(cfg, h, c, o) && h.task.Some? && (14 <= Rank(c.pc) <= 15 || c.pc.Exiting?)
    requires c.pc.Exec? ==> c.endOpen
    ensures Grows(cfg, h, c, KidDo(cfg, h, c, o))
  {
  }

  lemma SpoiltSpoils(sent: seq<Line>)
    requires sent != []
    ensures |Spoilt(sent)| == |sent| && Spoilt(sent)[..|sent| - 1] == sent[..|sent| - 1]
    ensures Progress(Spoilt(sent)) == |sent| - 1
  {
  }

  lemma ReportOpensLine(cfg: Config, h: Host, c: Child, o: Outcome)
    requires c.pc.ReportFailure? && KidCan(cfg, h, c, o) && h.task.Some? && !c.lineOpen
    ensures Grows(cfg, h, c, KidDo(cfg, h, c, o))
  {
    var d := KidDo(cfg, h, c, o);
    assert d.sent == c.sent + Begins(Failed(""), o);
  }

  lemma ReportSpoilsLine(cfg: Config, h: Host, c: Child, o: Outcome)
    requires c.pc.ReportFailure? && KidCan(cfg, h, c, o) && h.task.Some?
    requires c.lineOpen && c.endOpen && c.sent != []
    ensures Grows(cfg, h, c, KidDo(cfg, h, c, o))
  {
    var d := KidDo(cfg, h, c, o);
    SpoiltSpoils(c.sent);
    assert d.sent == c.sent || d.sent == Spoilt(c.sent);
  }

  lemma BootingIsOpen(cfg: Config, h: Host, c: Child)
    requires KidSound(cfg, h, c) && c.dead.None? && !c.pc.Workload?
    ensures c.endOpen && (c.lineOpen ==> c.sent != [])
  {
  }

  lemma LastGrows(cfg: Config, h: Host, c: Child, o: Outcome)
    requires KidMoves(cfg, h, c, o) && 14 <= Rank(c.pc)
    ensures Grows(cfg, h, c, KidDo(cfg, h, c, o))
  {
    if !c.pc.Workload? { BootingIsOpen(cfg, h, c); }
    if !c.pc.ReportFailure? { ExecGrows(cfg, h, c, o); }
    else if !c.lineOpen { ReportOpensLine(cfg, h, c, o); }
    else { ReportSpoilsLine(cfg, h, c, o); }
  }

  lemma GrowthAgrees(cfg: Config, w: World, d: Child)
    requires Agreement(cfg, w) && w.host.task.Some? && w.sup.waitStatus.None? && Grows(cfg, w.host, w.child, d)
    ensures Agreement(cfg, w.(child := d))
  {
  }

  // ---------------------------------------------------------------- every step

  lemma OtherSupKeeps(cfg: Config, w: World, o: Outcome)
    requires SupCan(cfg, w, o) && Sound(cfg, w) && !w.sup.pc.Read?
    ensures Sound(cfg, SupDo(cfg, w, o)) && Frame(cfg, w, SupDo(cfg, w, o))
  {
    var pc := w.sup.pc;
    if InSetup(pc) { SetupKeeps(cfg, w, o); }
    else if InHandOver(pc) { BlockedKeeps(cfg, w, o); }
    else if InEvidence(pc) { EvidenceKeeps(cfg, w, o); }
    else if InOutcome(pc) { OutcomeKeeps(cfg, w, o); }
    else { GuardKeeps(cfg, w, o); }
  }

  lemma EvidenceKeeps(cfg: Config, w: World, o: Outcome)
    requires InEvidence(w.sup.pc) && SupCan(cfg, w, o) && Sound(cfg, w)
    ensures Sound(cfg, EvidenceDo(cfg, w, o)) && Frame(cfg, w, EvidenceDo(cfg, w, o))
  {
    if w.sup.pc.LogMount? || w.sup.pc.LogCaps? || w.sup.pc.LogSeccomp? {
      if o.Good? { IsolationEvidenceKeeps(cfg, w); } else { IsolationEvidenceErrKeeps(cfg, w, o); }
    } else {
      if o.Good? { NamespaceEvidenceKeeps(cfg, w); }
      else if w.sup.pc.LogStart? { StartEvidenceErrKeeps(cfg, w, o); }
      else { NamespaceEvidenceErrKeeps(cfg, w, o); }
    }
  }

  lemma ConcludeKeeps(cfg: Config, w: World, o: Outcome)
    requires w.sup.pc.CaptureAfter? && SupCan(cfg, w, o) && Sound(cfg, w)
    ensures Sound(cfg, OutcomeDo(cfg, w, o)) && Frame(cfg, w, OutcomeDo(cfg, w, o))
  {
    if o.Bad? { NoDecisionKeeps(cfg, w); }
    else if OutcomeDo(cfg, w, o).sup.pc.RecordFailed? { DecisionKeeps(cfg, w, o); }
    else { ExitDecisionKeeps(cfg, w, o); }
  }

  lemma OutcomeKeeps(cfg: Config, w: World, o: Outcome)
    requires InOutcome(w.sup.pc) && SupCan(cfg, w, o) && Sound(cfg, w)
    ensures Sound(cfg, OutcomeDo(cfg, w, o)) && Frame(cfg, w, OutcomeDo(cfg, w, o))
  {
    match w.sup.pc
    case CaptureAfter(_) => ConcludeKeeps(cfg, w, o);
    case RecordFailed => if o.Bad? { NoFailureRecordKeeps(cfg, w); } else { FailureRecordKeeps(cfg, w, o); }
    case SetFailed => FailedStatusKeeps(cfg, w, o);
    case LogExit(_) => if o.Bad? { NoExitRecordKeeps(cfg, w); } else { ExitRecordKeeps(cfg, w, o); }
    case SetExited(_) => ExitStatusKeeps(cfg, w, o);
    case Judge => JudgeKeeps(cfg, w, o);
    case _ => WaitKeeps(cfg, w, o);
  }

  lemma GuardKeeps(cfg: Config, w: World, o: Outcome)
    requires w.sup.pc.DropGuard? || w.sup.pc.GuardWait? || w.sup.pc.Cleanup? || w.sup.pc.FreeStack?
    requires SupCan(cfg, w, o) && Sound(cfg, w)
    ensures Sound(cfg, GuardDo(cfg, w, o)) && Frame(cfg, w, GuardDo(cfg, w, o))
  {
    if w.sup.pc.Cleanup? { CleanupKeeps(cfg, w, o); }
    else if w.sup.pc.FreeStack? { FreeKeeps(cfg, w, o); }
    else if w.sup.Reaped() { DropReapedKeeps(cfg, w, o); }
    else if w.sup.pc.GuardWait? { KilledReapKeeps(cfg, w, o); }
    else if w.child.dead.Some? { DropReapKeeps(cfg, w, o); }
    else { DropKillKeeps(cfg, w, o); }
  }

  lemma FrameAgrees(cfg: Config, w: World, v: World)
    requires Inv(cfg, w) && Frame(cfg, w, v)
    ensures Agreement(cfg, v) && (v.host.task.Some? ==> KidSound(cfg, v.host, v.child))
  {
  }

  /** The channel holds nothing but what the child planned to say. */
  lemma NextLineExpected(cfg: Config, w: World)
    requires Inv(cfg, w) && w.sup.pc.Read? && w.LineWaiting()
    ensures var line := w.child.sent[w.host.received];
      && Expected(w, line) && (EndsTalk(line) || w.sup.accepted < Progress(w.child.sent))
      && (line.Whole? && line.notice.Failed? ==> w.child.pc.Exiting?)
  {
  }

  lemma ReadKeeps(cfg: Config, w: World, o: Outcome)
    requires w.sup.pc.Read? && SupCan(cfg, w, o) && Inv(cfg, w)
    ensures Inv(cfg, ReadDo(cfg, w, o))
  {
    if o.Bad? || !w.LineReady() {
      ReadEndKeeps(cfg, w, o);
      ReadEndAgrees(cfg, w, o);
    } else {
      LineKeeps(cfg, w, w.child.sent[w.host.received]);
    }
  }

  lemma ReadIsStep(cfg: Config, w: World, o: Outcome)
    requires w.sup.pc.Read? && SupCan(cfg, w, o)
    ensures Do(cfg, w, Sup(o)) == ReadDo(cfg, w, o)
  {
  }

  lemma ReadStepKeeps(cfg: Config, w: World, o: Outcome)
    requires w.sup.pc.Read? && SupCan(cfg, w, o) && Inv(cfg, w)
    ensures Inv(cfg, Do(cfg, w, Sup(o)))
  {
    ReadIsStep(cfg, w, o);
    ReadKeeps(cfg, w, o);
  }

  lemma LineKeeps(cfg: Config, w: World, line: Line)
    requires w.sup.pc.Read? && w.LineReady() && line == w.child.sent[w.host.received] && Inv(cfg, w)
    ensures Inv(cfg, Takes(cfg, w, line))
  {
    NextLineExpected(cfg, w);
    TakingIsSound(cfg, w, line);
    TakingAgrees(cfg, w, line);
    TakingLeavesChild(cfg, w, line);
  }

  lemma TakingIsSound(cfg: Config, w: World, line: Line)
    requires w.sup.pc.Read? && Sound(cfg, w) && Expected(w, line)
    ensures Sound(cfg, Takes(cfg, w, line))
  {
    if EndsTalk(line) { ConsumeEndKeeps(cfg, w, line); }
    else if line.notice.NamespaceReady? { ConsumeNamespaceKeeps(cfg, w, line); }
    else { ConsumePlannedKeeps(cfg, w, line); }
  }

  lemma TakingLeavesChild(cfg: Config, w: World, line: Line)
    requires w.host.task.Some? ==> ChildInv(cfg, w.host.task.value, w.child)
    ensures var v := Takes(cfg, w, line); v.host.task.Some? ==> ChildInv(cfg, v.host.task.value, v.child)
  {
  }

  lemma TakingAgrees(cfg: Config, w: World, line: Line)
    requires Agreement(cfg, w) && w.LineReady() && w.sup.pc.Read?
    requires EndsTalk(line) || w.sup.accepted < Progress(w.child.sent)
    requires line.Whole? && line.notice.Failed? ==> w.child.pc.Exiting?
    ensures Agreement(cfg, Takes(cfg, w, line))
  {
  }

  lemma ReadEndAgrees(cfg: Config, w: World, o: Outcome)
    requires Agreement(cfg, w) && w.sup.pc.Read? && Sound(cfg, w)
    requires o.Bad? || (o.Good? && !w.LineReady() && w.EndOfStream())
    ensures Agreement(cfg, ReadDo(cfg, w, o))
  {
  }

  lemma SignalKeeps(cfg: Config, w: World, a: Action)
    requires Inv(cfg, w) && Can(cfg, w, a) && a.Signal?
    ensures Inv(cfg, Do(cfg, w, a))
  {
  }

  lemma CallKeeps(cfg: Config, w: World, o: Outcome)
    requires Inv(cfg, w) && SupCan(cfg, w, o) && !w.sup.pc.Read?
    ensures Inv(cfg, SupDo(cfg, w, o))
  {
    OtherSupKeeps(cfg, w, o);
    FrameAgrees(cfg, w, SupDo(cfg, w, o));
  }

  lemma KidKeeps(cfg: Config, w: World, o: Outcome)
    requires Inv(cfg, w) && w.Alive() && KidCan(cfg, w.host, w.child, o)
    ensures Inv(cfg, w.(child := KidDo(cfg, w.host, w.child, o)))
  {
    var d := KidDo(cfg, w.host, w.child, o);
    ChildKeeps(cfg, w.host, w.child, o);
    assert Grows(cfg, w.host, w.child, d) by {
      if Rank(w.child.pc) <= 8 { BootGrows(cfg, w.host, w.child, o); }
      else if Rank(w.child.pc) <= 13 { LateGrows(cfg, w.host, w.child, o); }
      else { LastGrows(cfg, w.host, w.child, o); }
    }
    GrowthAgrees(cfg, w, d);
  }

  lemma CallStepKeeps(cfg: Config, w: World, o: Outcome)
    requires Inv(cfg, w) && SupCan(cfg, w, o)
    ensures Inv(cfg, Do(cfg, w, Sup(o)))
  {
    if w.sup.pc.Read? { ReadStepKeeps(cfg, w, o); } else { CallKeeps(cfg, w, o); }
  }

  /** The proof outline is inductive. */
  lemma StepKeepsInv(cfg: Config, w: World, a: Action)
    requires Inv(cfg, w) && Can(cfg, w, a)
    ensures Inv(cfg, Do(cfg, w, a))
  {
    match a
    case Sup(o) => CallStepKeeps(cfg, w, o);
    case Kid(o) => KidKeeps(cfg, w, o);
    case Signal(_) => SignalKeeps(cfg, w, a);
  }

  lemma {:induction false} RunKeepsInv(cfg: Config, run: seq<World>, acts: seq<Action>, n: nat)
    requires IsRun(cfg, run, acts) && n <= |acts|
    ensures Inv(cfg, run[n])
  {
    if n > 0 {
      RunKeepsInv(cfg, run, acts, n - 1);
      StepKeepsInv(cfg, run[n - 1], acts[n - 1]);
    }
  }

  lemma ReachableInv(cfg: Config, w: World)
    requires Reachable(cfg, w)
    ensures Inv(cfg, w)
  {
    var run, acts :| IsRun(cfg, run, acts) && run[|acts|] == w;
    RunKeepsInv(cfg, run, acts, |acts|);
  }
}
