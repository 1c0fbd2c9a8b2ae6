/** What code `run` returns, and that a recorded failure may come with code 0. */
module BootstrapResult {
  import opened Namespaces
  import opened Notices
  import opened Options
  import opened Processes
  import opened Bootstrap
  import opened BootstrapInvariants
  import opened BootstrapSafety
  import opened BootstrapTheorems

  predicate Refuted(s: Supervisor) {
    s.protocolError || s.reportedFailure || s.namespacesChanged
  }

  predicate Incomplete(s: Supervisor) {
    !s.sawNamespace || !s.sawIsolation || !s.sawProcessStart
  }

  /** The child's own code, except that a run which merely lacks evidence gives 125. */
  predicate ResultInv(s: Supervisor) {
    s.result.Code? ==>
      && s.waitStatus.Some?
      && s.result.code == if !Refuted(s) && Incomplete(s) then BOOTSTRAP_FAILURE else CodeOf(s.waitStatus.value)
  }

  /** Until `run` decides, it has no result; and it gives up only a child it has not heard from. */
  predicate Undecided(s: Supervisor) {
    s.result.Pending? && (s.pc.AbortWait? ==> !Refuted(s) && Incomplete(s))
  }

  lemma OpeningUndecided(cfg: Config, w: World)
    requires Inv(cfg, w) && (InSetup(w.sup.pc) || InHandOver(w.sup.pc))
    ensures Undecided(w.sup)
  {
  }

  lemma ReadingUndecided(cfg: Config, w: World)
    requires Inv(cfg, w)
    requires w.sup.pc.Read? || InEvidence(w.sup.pc) || w.sup.pc.Judge? || w.sup.pc.Wait? || w.sup.pc.CaptureAfter?
    ensures Undecided(w.sup)
    ensures w.sup.pc.CaptureAfter? ==> w.sup.waitStatus == Some(w.sup.pc.observed)
  {
  }

  lemma OpeningResult(cfg: Config, w: World, o: Outcome)
    requires w.sup.result.Pending? && SupCan(cfg, w, o)
    requires w.sup.pc.CaptureBefore? || w.sup.pc.StoreSeed? || w.sup.pc.CreateRun? || w.sup.pc.LogRunCreated?
    ensures !SetupDo(cfg, w, o).sup.result.Code?
  {
  }

  lemma CloningResult(cfg: Config, w: World, o: Outcome)
    requires w.sup.result.Pending? && SupCan(cfg, w, o)
    requires w.sup.pc.LogSeedLoaded? || w.sup.pc.PrepareCgroup? || w.sup.pc.OpenSocket? || w.sup.pc.Clone?
    ensures !SetupDo(cfg, w, o).sup.result.Code?
  {
  }

  lemma MappingResult(cfg: Config, w: World, o: Outcome)
    requires w.sup.result.Pending? && SupCan(cfg, w, o)
    requires w.sup.pc.MapIds? || w.sup.pc.MoveCgroup? || w.sup.pc.LogCgroup?
    ensures !HandOverDo(cfg, w, o).sup.result.Code?
  {
  }

  lemma ReleasingResult(cfg: Config, w: World, o: Outcome)
    requires w.sup.result.Pending? && SupCan(cfg, w, o)
    requires w.sup.pc.SetRunning? || w.sup.pc.Release? || w.sup.pc.ShutWrite? || w.sup.pc.AbortClose?
    ensures !HandOverDo(cfg, w, o).sup.result.Code?
  {
  }

  lemma NamespaceResult(cfg: Config, w: World, o: Outcome)
    requires w.sup.result.Pending? && SupCan(cfg, w, o)
    requires w.sup.pc.LogNamespace? || w.sup.pc.LogIdmap? || w.sup.pc.LogStart?
    ensures !EvidenceDo(cfg, w, o).sup.result.Code?
  {
  }

  lemma IsolationResult(cfg: Config, w: World, o: Outcome)
    requires w.sup.result.Pending? && SupCan(cfg, w, o)
    requires w.sup.pc.LogMount? || w.sup.pc.LogCaps? || w.sup.pc.LogSeccomp?
    ensures !EvidenceDo(cfg, w, o).sup.result.Code?
  {
  }

  lemma ConsumeResult(cfg: Config, s: Supervisor, line: Line)
    ensures Consume(cfg, s, line).result == s.result
  {
  }

  lemma ReadResult(cfg: Config, w: World, o: Outcome)
    requires w.sup.result.Pending? && SupCan(cfg, w, o) && w.sup.pc.Read?
    ensures !ReadDo(cfg, w, o).sup.result.Code?
  {
    if o.Good? && w.LineReady() { ConsumeResult(cfg, w.sup, w.child.sent[w.host.received]); }
  }

  lemma AbortResult(cfg: Config, w: World, o: Outcome)
    requires Undecided(w.sup) && SupCan(cfg, w, o) && w.sup.pc.AbortWait?
    ensures ResultInv(HandOverDo(cfg, w, o).sup)
  {
  }

  lemma EarlyResult(cfg: Config, w: World, o: Outcome)
    requires Undecided(w.sup) && SupCan(cfg, w, o) && (InSetup(w.sup.pc) || InHandOver(w.sup.pc))
    ensures ResultInv((if InSetup(w.sup.pc) then SetupDo(cfg, w, o) else HandOverDo(cfg, w, o)).sup)
  {
    var pc := w.sup.pc;
    if pc.CaptureBefore? || pc.StoreSeed? || pc.CreateRun? || pc.LogRunCreated? { OpeningResult(cfg, w, o); }
    else if InSetup(pc) { CloningResult(cfg, w, o); }
    else if pc.MapIds? || pc.MoveCgroup? || pc.LogCgroup? { MappingResult(cfg, w, o); }
    else if pc.AbortWait? { AbortResult(cfg, w, o); }
    else { ReleasingResult(cfg, w, o); }
  }

  lemma ReadingResult(cfg: Config, w: World, o: Outcome)
    requires Undecided(w.sup) && SupCan(cfg, w, o) && (w.sup.pc.Read? || InEvidence(w.sup.pc))
    ensures ResultInv((if w.sup.pc.Read? then ReadDo(cfg, w, o) else EvidenceDo(cfg, w, o)).sup)
  {
    var pc := w.sup.pc;
    if pc.Read? { ReadResult(cfg, w, o); }
    else if pc.LogNamespace? || pc.LogIdmap? || pc.LogStart? { NamespaceResult(cfg, w, o); }
    else { IsolationResult(cfg, w, o); }
  }

  lemma DecidingResult(cfg: Config, w: World, o: Outcome)
    requires Undecided(w.sup) && SupCan(cfg, w, o) && (w.sup.pc.Judge? || w.sup.pc.Wait? || w.sup.pc.CaptureAfter?)
    requires w.sup.pc.CaptureAfter? ==> w.sup.waitStatus == Some(w.sup.pc.observed)
    ensures ResultInv(OutcomeDo(cfg, w, o).sup)
  {
  }

  lemma RecordingResult(cfg: Config, w: World, o: Outcome)
    requires ResultInv(w.sup) && SupCan(cfg, w, o)
    requires w.sup.pc.RecordFailed? || w.sup.pc.SetFailed? || w.sup.pc.LogExit? || w.sup.pc.SetExited?
    ensures ResultInv(OutcomeDo(cfg, w, o).sup)
  {
  }

  lemma GuardResult(cfg: Config, w: World, o: Outcome)
    requires ResultInv(w.sup) && SupCan(cfg, w, o) && (w.sup.pc.GuardWait? ==> w.sup.result.Failure?)
    requires w.sup.pc.DropGuard? || w.sup.pc.GuardWait? || w.sup.pc.Cleanup? || w.sup.pc.FreeStack?
    ensures ResultInv(GuardDo(cfg, w, o).sup)
  {
  }

  lemma GuardWaitFailed(cfg: Config, w: World)
    requires Inv(cfg, w) && w.sup.pc.GuardWait?
    ensures w.sup.result.Failure?
  {
  }

  lemma UndecidedKeepsResult(cfg: Config, w: World, o: Outcome)
    requires Inv(cfg, w) && SupCan(cfg, w, o)
    requires InSetup(w.sup.pc) || InHandOver(w.sup.pc) || w.sup.pc.Read? || InEvidence(w.sup.pc)
    ensures ResultInv(SupDo(cfg, w, o).sup)
  {
    if InSetup(w.sup.pc) || InHandOver(w.sup.pc) {
      OpeningUndecided(cfg, w);
      EarlyResult(cfg, w, o);
    } else {
      ReadingUndecided(cfg, w);
      ReadingResult(cfg, w, o);
    }
  }

  lemma SupKeepsResult(cfg: Config, w: World, o: Outcome)
    requires Inv(cfg, w) && ResultInv(w.sup) && SupCan(cfg, w, o)
    ensures ResultInv(SupDo(cfg, w, o).sup)
  {
    var pc := w.sup.pc;
    if InSetup(pc) || InHandOver(pc) || pc.Read? || InEvidence(pc) {
      UndecidedKeepsResult(cfg, w, o);
    } else if pc.Judge? || pc.Wait? || pc.CaptureAfter? {
      ReadingUndecided(cfg, w);
      DecidingResult(cfg, w, o);
    } else if InOutcome(pc) {
      RecordingResult(cfg, w, o);
    } else {
      if pc.GuardWait? { GuardWaitFailed(cfg, w); }
      GuardResult(cfg, w, o);
    }
  }

  lemma StepKeepsResult(cfg: Config, w: World, a: Action)
    requires Inv(cfg, w) && ResultInv(w.sup) && Can(cfg, w, a)
    ensures ResultInv(Do(cfg, w, a).sup)
  {
    if a.Sup? { SupKeepsResult(cfg, w, a.outcome); }
  }

  lemma {:induction false} RunKeepsResult(cfg: Config, run: seq<World>, acts: seq<Action>, n: nat)
    requires IsRun(cfg, run, acts) && n <= |acts|
    ensures ResultInv(run[n].sup)
  {
    if n > 0 {
      RunKeepsResult(cfg, run, acts, n - 1);
      RunKeepsInv(cfg, run, acts, n - 1);
      StepKeepsResult(cfg, run[n - 1], acts[n - 1]);
    }
  }

  /** An Ok result is the child's own exit code, or 128 and the signal that ended it, or 125
      if evidence is merely missing. */
  lemma ReturnedCode(cfg: Config, w: World)
    requires Reachable(cfg, w) && w.sup.pc.Returned? && w.sup.result.Code?
    ensures w.sup.waitStatus.Some?
    ensures w.sup.result.code ==
            if !Refuted(w.sup) && Incomplete(w.sup) then 125
            else match w.sup.waitStatus.value
              case Exited(code) => code
              case Signaled(signal) => 128 + signal
  {
    var run, acts :| IsRun(cfg, run, acts) && run[|acts|] == w;
    RunKeepsResult(cfg, run, acts, |acts|);
  }

  /** A run recorded as failed returns 0 exactly if the child exited with 0 and its
      evidence was refuted: the caller cannot tell a failed run by its code. */
  lemma FailedRunsThatReturnZero(cfg: Config, w: World)
    requires Reachable(cfg, w) && w.sup.pc.Returned? && w.sup.result.Code?
    ensures w.status == StatusFailed && w.sup.result.code == 0 <==>
            w.sup.waitStatus == Some(Exited(0)) && Refuted(w.sup)
  {
    ReturnedCode(cfg, w);
    OutcomeIsExact(cfg, w);
    if w.status == StatusFailed && w.sup.result.code == 0 {
      match w.sup.waitStatus.value
      case Exited(_) =>
      case Signaled(_) =>
    }
  }
}
