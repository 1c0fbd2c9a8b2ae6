/** What the bootstrap protocol guarantees, over every interleaving and every fault. */
module BootstrapTheorems {
  import opened Namespaces
  import opened Notices
  import opened Options
  import opened Processes
  import opened Bootstrap
  import opened BootstrapInvariants
  import opened BootstrapSafety

  // ---------------------------------------------------------------- the log is backed

  lemma BlockedBacked(cfg: Config, w: World)
    requires Sound(cfg, w) && InHandOver(w.sup.pc) && !w.sup.pc.AbortClose? && !w.sup.pc.AbortWait?
    ensures Backed(cfg, w.sup, w.host, w.log)
  {
    OpenLogIsBacked(cfg, w.sup.accepted, CleanExit(w.sup), w.sup.Reaped(), HandedOver(cfg, w.host), w.log);
  }

  lemma AbortingBacked(cfg: Config, w: World)
    requires Sound(cfg, w) && w.sup.pc.AbortClose?
    ensures Backed(cfg, w.sup, w.host, w.log)
  {
  }

  lemma AbortedBacked(cfg: Config, w: World)
    requires Sound(cfg, w) && w.sup.pc.AbortWait?
    ensures Backed(cfg, w.sup, w.host, w.log)
  {
  }

  lemma ReadingBacked(cfg: Config, w: World)
    requires Sound(cfg, w) && w.sup.pc.Read?
    ensures Backed(cfg, w.sup, w.host, w.log)
  {
    OpenLogIsBacked(cfg, w.sup.accepted, CleanExit(w.sup), w.sup.Reaped(), HandedOver(cfg, w.host), w.log);
  }

  lemma IsolationBacked(cfg: Config, w: World)
    requires Sound(cfg, w) && (w.sup.pc.LogMount? || w.sup.pc.LogCaps? || w.sup.pc.LogSeccomp?)
    ensures Backed(cfg, w.sup, w.host, w.log)
  {
    WrittenGrows(cfg, w.sup.pc);
    OpenLogIsBacked(cfg, w.sup.accepted, CleanExit(w.sup), w.sup.Reaped(), HandedOver(cfg, w.host), w.log);
  }

  lemma NoticeBacked(cfg: Config, w: World)
    requires Sound(cfg, w) && (w.sup.pc.LogNamespace? || w.sup.pc.LogIdmap? || w.sup.pc.LogStart?)
    ensures Backed(cfg, w.sup, w.host, w.log)
  {
    WrittenGrows(cfg, w.sup.pc);
    OpenLogIsBacked(cfg, w.sup.accepted, CleanExit(w.sup), w.sup.Reaped(), HandedOver(cfg, w.host), w.log);
  }

  lemma ClosedBacked(cfg: Config, w: World)
    requires Sound(cfg, w) && (w.sup.pc.Judge? || w.sup.pc.Wait? || w.sup.pc.CaptureAfter? || w.sup.pc.LogExit?)
    ensures Backed(cfg, w.sup, w.host, w.log)
  {
    assert Closed(cfg, w.sup, w.host, w.log);
    OpenLogIsBacked(cfg, w.sup.accepted, CleanExit(w.sup), w.sup.Reaped(), HandedOver(cfg, w.host), w.log);
  }

  lemma RecordingBacked(cfg: Config, w: World)
    requires Sound(cfg, w) && (w.sup.pc.RecordFailed? || w.sup.pc.SetFailed?)
    ensures Backed(cfg, w.sup, w.host, w.log)
  {
  }

  lemma ExitRecordedBacked(cfg: Config, w: World)
    requires Sound(cfg, w) && w.sup.pc.SetExited?
    ensures Backed(cfg, w.sup, w.host, w.log)
  {
  }

  lemma PollingBacked(cfg: Config, w: World)
    requires Sound(cfg, w) && w.host.task.Some? && w.sup.pc.DropGuard?
    ensures Backed(cfg, w.sup, w.host, w.log)
  {
    assert Unwinding(cfg, w.sup, w.host, w.log, w.status);
  }

  lemma KilledBacked(cfg: Config, w: World)
    requires Sound(cfg, w) && w.host.task.Some? && w.sup.pc.GuardWait?
    ensures Backed(cfg, w.sup, w.host, w.log)
  {
    assert Unwinding(cfg, w.sup, w.host, w.log, w.status);
  }

  lemma CleaningBacked(cfg: Config, w: World)
    requires Sound(cfg, w) && w.host.task.Some? && (w.sup.pc.Cleanup? || w.sup.pc.FreeStack?)
    ensures Backed(cfg, w.sup, w.host, w.log)
  {
    assert Unwinding(cfg, w.sup, w.host, w.log, w.status);
  }

  lemma ReturnedBacked(cfg: Config, w: World)
    requires Sound(cfg, w) && w.host.task.Some? && w.sup.pc.Returned?
    ensures Backed(cfg, w.sup, w.host, w.log)
  {
    assert Unwinding(cfg, w.sup, w.host, w.log, w.status);
  }

  lemma SetupLog(cfg: Config, w: World)
    requires Sound(cfg, w) && w.host.task.None?
    ensures w.log <= [RunCreated, SeedLoaded] && w.log <= LogAfter(cfg, 0)
  {
  }

  /** After clone the log is on the script, or on it up to a final event. */
  lemma InvBacked(cfg: Config, w: World)
    requires Sound(cfg, w) && w.host.task.Some?
    ensures Backed(cfg, w.sup, w.host, w.log)
  {
    if w.sup.pc.AbortClose? { AbortingBacked(cfg, w); }
    else if w.sup.pc.AbortWait? { AbortedBacked(cfg, w); }
    else if InHandOver(w.sup.pc) { BlockedBacked(cfg, w); }
    else if w.sup.pc.Read? { ReadingBacked(cfg, w); }
    else if w.sup.pc.LogMount? || w.sup.pc.LogCaps? || w.sup.pc.LogSeccomp? { IsolationBacked(cfg, w); }
    else if InEvidence(w.sup.pc) { NoticeBacked(cfg, w); }
    else if w.sup.pc.RecordFailed? || w.sup.pc.SetFailed? { RecordingBacked(cfg, w); }
    else if w.sup.pc.SetExited? { ExitRecordedBacked(cfg, w); }
    else if InOutcome(w.sup.pc) { ClosedBacked(cfg, w); }
    else if w.sup.pc.DropGuard? { PollingBacked(cfg, w); }
    else if w.sup.pc.GuardWait? { KilledBacked(cfg, w); }
    else if w.sup.pc.Returned? { ReturnedBacked(cfg, w); }
    else { CleaningBacked(cfg, w); }
  }

  // ---------------------------------------------------------------- evidence

  /** What an event of the log claims. */
  predicate Holds(cfg: Config, w: World, e: Event) {
    var h, f := w.host, w.child.facts;
    match e
    case RunCreated => true
    case SeedLoaded => true
    case CgroupApplied => cfg.cgroups && h.cgroupMoved
    case NsCreated => Vouched(cfg, w.sup, h) && HandedOver(cfg, h) && NamespaceFacts(cfg, f)
    case IdmapApplied => cfg.mapRootless && h.idMapped && f.identity
    case MountDone => IsolationFacts(cfg, f)
    case CapsDropped => cfg.dropCaps && f.capsDropped && f.noNewPrivs
    case SeccompEnabled => cfg.seccomp && f.seccomp && f.noNewPrivs && (cfg.dropCaps ==> f.capsDropped)
    case ProcessStarted => StartFacts(cfg, f) && h.task.Some? && h.task.value.pid == 1
    case ProcessExit(code) => w.child.dead == Some(Exited(code)) && (f.execed || code == BOOTSTRAP_FAILURE)
    case ProcessFailed => w.child.dead.Some? && !Clean(w.sup)
  }

  lemma EventsOf(cfg: Config, k: nat, e: Event)
    requires e in LogAfter(cfg, k)
    ensures e in Head(cfg) || (1 <= k && e in NamespacePart(cfg)) || (2 <= k && e in IsolationPart(cfg))
            || (3 <= k && e == ProcessStarted)
  {
  }

  lemma HeadEventHolds(cfg: Config, w: World, e: Event)
    requires Backed(cfg, w.sup, w.host, w.log) && e in Body(w.log) && e in Head(cfg)
    ensures Holds(cfg, w, e)
  {
    assert e == CgroupApplied ==> 2 < |Body(w.log)|;
  }

  lemma NoticeEventHolds(cfg: Config, w: World, e: Event)
    requires Inv(cfg, w) && w.host.task.Some? && Backed(cfg, w.sup, w.host, w.log)
    requires || (1 <= w.sup.accepted && e in NamespacePart(cfg))
             || (2 <= w.sup.accepted && e in IsolationPart(cfg))
             || (3 <= w.sup.accepted && e == ProcessStarted)
    ensures Holds(cfg, w, e)
  {
  }

  lemma ScriptedEventHolds(cfg: Config, w: World, e: Event)
    requires Inv(cfg, w) && w.host.task.Some? && e in Body(w.log)
    ensures Holds(cfg, w, e)
  {
    InvBacked(cfg, w);
    EventsOf(cfg, w.sup.accepted, e);
    if e in Head(cfg) { HeadEventHolds(cfg, w, e); } else { NoticeEventHolds(cfg, w, e); }
  }

  lemma FinalEventHolds(cfg: Config, w: World)
    requires Inv(cfg, w) && w.host.task.Some? && Body(w.log) != w.log
    ensures Holds(cfg, w, w.log[|w.log| - 1])
  {
    InvBacked(cfg, w);
  }

  /** Every event in the log was true of the child when it was logged and still is. */
  lemma EvidenceIsSound(cfg: Config, w: World, e: Event)
    requires Reachable(cfg, w) && e in w.log
    ensures Holds(cfg, w, e)
  {
    ReachableInv(cfg, w);
    LoggedEventHolds(cfg, w, e);
  }

  lemma LoggedEventHolds(cfg: Config, w: World, e: Event)
    requires Inv(cfg, w) && e in w.log
    ensures Holds(cfg, w, e)
  {
    if w.host.task.None? {
      SetupLog(cfg, w);
    } else if e in Body(w.log) {
      ScriptedEventHolds(cfg, w, e);
    } else {
      FinalEventHolds(cfg, w);
    }
  }

  // ---------------------------------------------------------------- the log's grammar

  /** The only shapes a persisted log can have, whichever store calls fail. */
  predicate Grammar(cfg: Config, log: seq<Event>) {
    || log <= Script(cfg)
    || (0 < |log| && log[|log| - 1].ProcessFailed? && log[..|log| - 1] <= Script(cfg))
    || (0 < |log| && log[|log| - 1].ProcessExit? && log[..|log| - 1] == Script(cfg))
  }

  lemma LogAfterIsScripted(cfg: Config, k: nat)
    ensures LogAfter(cfg, k) <= Script(cfg)
  {
  }

  lemma LogGrammar(cfg: Config, w: World)
    requires Reachable(cfg, w)
    ensures Grammar(cfg, w.log)
  {
    ReachableInv(cfg, w);
    if w.host.task.None? {
      SetupLog(cfg, w);
      LogAfterIsScripted(cfg, 0);
    } else {
      InvBacked(cfg, w);
      LogAfterIsScripted(cfg, w.sup.accepted);
    }
  }

  // ---------------------------------------------------------------- the gate

  /** A child past its gate is fully handed over: mapped if rootless, in its cgroup if one was prepared. */
  lemma GateIsSafe(cfg: Config, w: World)
    requires Reachable(cfg, w) && w.child.facts.released
    ensures HandedOver(cfg, w.host)
  {
    ReachableInv(cfg, w);
  }

  /** The workload runs only with its whole policy in force. */
  lemma ExecIsConfined(cfg: Config, w: World)
    requires Reachable(cfg, w) && w.child.facts.execed
    ensures HandedOver(cfg, w.host) && StartFacts(cfg, w.child.facts)
  {
    ReachableInv(cfg, w);
  }

  // ---------------------------------------------------------------- the guard

  /** The stack outlives the child. */
  lemma StackOutlivesChild(cfg: Config, w: World)
    requires Reachable(cfg, w) && w.sup.stackFreed
    ensures w.child.dead.Some? && w.sup.Reaped()
  {
    ReachableInv(cfg, w);
  }

  lemma CleanupFollowsReap(cfg: Config, w: World)
    requires Inv(cfg, w) && w.host.task.Some? && 0 < w.sup.cleanups
    ensures w.sup.Reaped()
  {
  }

  lemma ReturnedIsCleanedUp(cfg: Config, w: World)
    requires Inv(cfg, w) && w.host.task.Some? && w.sup.pc.Returned?
    ensures w.sup.stackFreed && w.sup.prepared == cfg.cgroups && w.sup.cleanups == if cfg.cgroups then 1 else 0
  {
  }

  /** A prepared cgroup is cleaned up exactly once, after the child is reaped, on every way out. */
  lemma CleanupIsExact(cfg: Config, w: World)
    requires Reachable(cfg, w) && w.host.task.Some?
    ensures 0 < w.sup.cleanups ==> w.sup.Reaped()
    ensures w.sup.pc.Returned? ==> w.sup.stackFreed && w.sup.cleanups == if cfg.cgroups then 1 else 0
  {
    ReachableInv(cfg, w);
    if 0 < w.sup.cleanups { CleanupFollowsReap(cfg, w); }
    if w.sup.pc.Returned? { ReturnedIsCleanedUp(cfg, w); }
  }

  // ---------------------------------------------------------------- the outcome

  lemma ReturnedIsRecorded(cfg: Config, w: World)
    requires Inv(cfg, w) && w.sup.pc.Returned? && w.sup.result.Code?
    ensures Recorded(CleanExit(w.sup), w.sup.result, w.log, w.status)
  {
  }

  /** `run` returns Ok only with its outcome on record: an exit exactly when every
      check passed, and then the returned code is the exit code; else a failure. */
  lemma OutcomeIsExact(cfg: Config, w: World)
    requires Reachable(cfg, w) && w.sup.pc.Returned? && w.sup.result.Code?
    ensures 0 < |w.log|
    ensures Clean(w.sup) ==>
              && w.log[|w.log| - 1] == ProcessExit(w.sup.waitStatus.value.code)
              && w.status == StatusExited(w.sup.waitStatus.value.code)
              && w.sup.result == Code(w.sup.waitStatus.value.code)
    ensures !Clean(w.sup) ==> w.log[|w.log| - 1] == ProcessFailed && w.status == StatusFailed
  {
    ReachableInv(cfg, w);
    ReturnedIsRecorded(cfg, w);
  }

  lemma GrammarEndsLast(cfg: Config, log: seq<Event>, i: nat)
    requires Grammar(cfg, log) && i < |log| - 1
    ensures !EndsRun(log[i])
  {
    assert log[i] == log[..|log| - 1][i] == LogAfter(cfg, 3)[i];
    ScriptGoesOn(cfg, 3, i);
  }

  /** At most one event ends the run, and it is the last. */
  lemma OutcomeIsUnique(cfg: Config, w: World, i: nat)
    requires Reachable(cfg, w) && i < |w.log| - 1
    ensures !EndsRun(w.log[i])
  {
    LogGrammar(cfg, w);
    GrammarEndsLast(cfg, w.log, i);
  }

  /** A recorded exit is the workload's own, unless exec failed and the child could not say so. */
  lemma RecordedExitMeansExec(cfg: Config, w: World, code: int)
    requires Reachable(cfg, w) && w.sup.pc.Returned? && w.sup.result.Code? && w.status == StatusExited(code)
    ensures w.child.dead == Some(Exited(code)) && StartFacts(cfg, w.child.facts)
    ensures w.child.facts.execed || code == BOOTSTRAP_FAILURE
  {
    OutcomeIsExact(cfg, w);
    ReachableInv(cfg, w);
    assert w.log[|w.log| - 1] == ProcessExit(code);
    EvidenceIsSound(cfg, w, ProcessExit(code));
    InvBacked(cfg, w);
  }
}
