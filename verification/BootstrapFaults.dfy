/** When a run of the bootstrap protocol succeeds: exactly if no call fails and the child is
    isolated as the Seed asks. */
module BootstrapFaults {
  import opened Namespaces
  import opened Notices
  import opened Options
  import opened Processes
  import opened Bootstrap
  import opened BootstrapInvariants
  import opened BootstrapSafety
  import opened BootstrapTheorems
  import opened BootstrapLiveness

  // ---------------------------------------------------------------- one line

  /** What the channel may say at any time: the child is isolated as the Seed asks, or it has
      applied its policy, or it is about to exec as PID 1. */
  predicate GoodEvidence(cfg: Config, ids: NamespaceIds, line: Line) {
    line.Whole? &&
    match line.notice
    case NamespaceReady(workload, pid) => IsolatedAsRequested(ids, workload, cfg.mapRootless, cfg.enableNet, pid)
    case IsolationReady => true
    case ProcessStart(pid) => pid == 1
    case Failed(_) => false
  }

  predicate Reports(line: Line) { line.Whole? && line.notice.Failed? }

  /** `t` is `s` after a line that is good evidence, a reported failure, or neither. */
  predicate Judged(s: Supervisor, line: Line, good: bool, t: Supervisor) {
    && t.accepted == s.accepted + (if good then 1 else 0)
    && t.pc == (if good && line.Whole? then PlaceOf(line.notice) else Judge)
    && (t.reportedFailure <==> Reports(line))
    && (t.protocolError <==> !good && !Reports(line))
    && t == s.(pc := t.pc, accepted := t.accepted,
               reportedFailure := t.reportedFailure, protocolError := t.protocolError)
  }

  lemma NamespaceVerdict(cfg: Config, s: Supervisor, ids: NamespaceIds, pid: int)
    ensures var line := Whole(NamespaceReady(ids, pid));
            Judged(s, line, ValidateBoundary(s.ids, ids, cfg.mapRootless, cfg.enableNet, pid).Accepted?,
                   Consume(cfg, s, line))
  {
  }

  /** A line is accepted if and only if it is good evidence; any other ends the loop, as a
      protocol error unless the child reports its own failure. */
  lemma VerdictIsExact(cfg: Config, s: Supervisor, line: Line)
    ensures Judged(s, line, GoodEvidence(cfg, s.ids, line), Consume(cfg, s, line))
  {
    match line
    case Whole(NamespaceReady(ids, pid)) =>
      NamespaceVerdict(cfg, s, ids, pid);
      ValidationIsExact(s.ids, ids, cfg.mapRootless, cfg.enableNet, pid);
    case _ =>
  }

  // ---------------------------------------------------------------- the fate of a run

  predicate Succeeds(o: Outcome) { o.Good? || o.Cloned? }

  /** The run can no longer end with a recorded exit and an Ok result. */
  predicate Doomed(s: Supervisor) {
    || s.result.Failure? || Aborting(s.pc)
    || s.protocolError || s.reportedFailure || s.namespacesChanged
    || (s.result.Code? && !Clean(s))
  }

  predicate PastLoop(pc: SupervisorPc) {
    || InOutcome(pc) || pc.DropGuard? || pc.GuardWait? || pc.Cleanup? || pc.FreeStack? || pc.Returned?
  }

  /** The call fails, and `?` makes it the error that `run` returns: all but the hand-over calls
      that make `run` give the child up, a read, a removal of the cgroup, and a namespace
      check that succeeds and shows a change. */
  predicate Errs(w: World, o: Outcome) {
    && !Succeeds(o) && !GivesUp(w.sup.pc) && !w.sup.pc.Read? && !w.sup.pc.Cleanup?
    && (w.sup.pc.CaptureAfter? ==> o.Bad?)
  }

  /** The calls whose failure makes `run` give the blocked child up. */
  predicate GivesUp(pc: SupervisorPc) { pc.MapIds? || pc.MoveCgroup? || pc.Release? }

  /** What a supervisor step whose call ends with `o` does to the fate of the run. */
  predicate Tells(w: World, o: Outcome, v: World) {
    && v.sup.ids == w.sup.ids && (w.sup.stored ==> v.sup.stored)
    && (Doomed(w.sup) ==> Doomed(v.sup))
    && (!Succeeds(o) && !w.sup.pc.Cleanup? ==> Doomed(v.sup))
    && (v.sup.result.Failure? <==> w.sup.result.Failure? || Errs(w, o))
    && (v.sup.pc.AbortClose? <==> !Succeeds(o) && GivesUp(w.sup.pc))
  }

  predicate Aborting(pc: SupervisorPc) { pc.AbortClose? || pc.AbortWait? }

  /** A supervisor step whose call succeeds: it dooms no run, and does not leave the reader loop. */
  predicate GoesWell(w: World, v: World) {
    && (Doomed(v.sup) ==> Doomed(w.sup)) && (Aborting(v.sup.pc) ==> Aborting(w.sup.pc))
    && (PastLoop(v.sup.pc) && !Aborting(w.sup.pc) ==> PastLoop(w.sup.pc))
    && (PastLoop(w.sup.pc) && !w.sup.pc.RecordFailed? && !w.sup.pc.LogExit? ==> v.log == w.log)
    && (v.host.task.Some? && !Doomed(w.sup) && (w.host.task.Some? ==> w.host.endOpen) ==>
          v.host.endOpen || v.sup.pc.Returned?)
  }

  lemma OpeningTells(cfg: Config, w: World, o: Outcome)
    requires w.sup.pc.CaptureBefore? || w.sup.pc.StoreSeed? || w.sup.pc.CreateRun? || w.sup.pc.LogRunCreated?
    requires SupCan(cfg, w, o) && Sound(cfg, w)
    ensures Tells(w, o, SetupDo(cfg, w, o))
    ensures Succeeds(o) ==> GoesWell(w, SetupDo(cfg, w, o))
  {
  }

  lemma PreparingTells(cfg: Config, w: World, o: Outcome)
    requires w.sup.pc.LogSeedLoaded? || w.sup.pc.PrepareCgroup?
    requires SupCan(cfg, w, o) && Sound(cfg, w)
    ensures Tells(w, o, SetupDo(cfg, w, o))
    ensures Succeeds(o) ==> GoesWell(w, SetupDo(cfg, w, o))
  {
  }

  lemma ForkingTells(cfg: Config, w: World, o: Outcome)
    requires w.sup.pc.OpenSocket? || w.sup.pc.Clone?
    requires SupCan(cfg, w, o) && Sound(cfg, w)
    ensures Tells(w, o, SetupDo(cfg, w, o))
    ensures Succeeds(o) ==> GoesWell(w, SetupDo(cfg, w, o))
  {
  }

  lemma ConfiningTells(cfg: Config, w: World, o: Outcome)
    requires w.sup.pc.MapIds? || w.sup.pc.MoveCgroup?
    requires SupCan(cfg, w, o) && Sound(cfg, w)
    ensures Tells(w, o, HandOverDo(cfg, w, o))
    ensures Succeeds(o) ==> GoesWell(w, HandOverDo(cfg, w, o))
  {
  }

  lemma RunningTells(cfg: Config, w: World, o: Outcome)
    requires w.sup.pc.LogCgroup? || w.sup.pc.SetRunning?
    requires SupCan(cfg, w, o) && Sound(cfg, w)
    ensures Tells(w, o, HandOverDo(cfg, w, o))
    ensures Succeeds(o) ==> GoesWell(w, HandOverDo(cfg, w, o))
  {
  }

  lemma ReleaseTells(cfg: Config, w: World, o: Outcome)
    requires w.sup.pc.Release? || w.sup.pc.ShutWrite?
    requires SupCan(cfg, w, o) && Sound(cfg, w)
    ensures Tells(w, o, HandOverDo(cfg, w, o))
    ensures Succeeds(o) ==> GoesWell(w, HandOverDo(cfg, w, o))
  {
  }

  lemma AbortTells(cfg: Config, w: World, o: Outcome)
    requires w.sup.pc.AbortClose? || w.sup.pc.AbortWait?
    requires SupCan(cfg, w, o) && Sound(cfg, w)
    ensures Tells(w, o, HandOverDo(cfg, w, o))
    ensures Succeeds(o) ==> GoesWell(w, HandOverDo(cfg, w, o))
  {
  }

  lemma NamespaceGoesOn(cfg: Config, w: World, o: Outcome)
    requires w.sup.pc.LogNamespace? && o.Good?
    requires SupCan(cfg, w, o) && Sound(cfg, w)
    ensures Tells(w, o, EvidenceDo(cfg, w, o))
    ensures Succeeds(o) ==> GoesWell(w, EvidenceDo(cfg, w, o))
  {
    var v := EvidenceDo(cfg, w, o);
    assert v.sup == w.sup.(pc := AfterNamespace(cfg), sawNamespace := v.sup.sawNamespace) && v.host == w.host;
    assert w.sup.result.Pending? && (v.sup.pc.LogIdmap? || v.sup.pc.Read?);
  }

  lemma NamespaceErrs(cfg: Config, w: World, o: Outcome)
    requires w.sup.pc.LogNamespace? && !o.Good?
    requires SupCan(cfg, w, o) && Sound(cfg, w)
    ensures Tells(w, o, EvidenceDo(cfg, w, o))
    ensures Succeeds(o) ==> GoesWell(w, EvidenceDo(cfg, w, o))
  {
  }

  lemma IdmapGoesOn(cfg: Config, w: World, o: Outcome)
    requires w.sup.pc.LogIdmap? && o.Good?
    requires SupCan(cfg, w, o) && Sound(cfg, w)
    ensures Tells(w, o, EvidenceDo(cfg, w, o))
    ensures Succeeds(o) ==> GoesWell(w, EvidenceDo(cfg, w, o))
  {
  }

  lemma IdmapErrs(cfg: Config, w: World, o: Outcome)
    requires w.sup.pc.LogIdmap? && !o.Good?
    requires SupCan(cfg, w, o) && Sound(cfg, w)
    ensures Tells(w, o, EvidenceDo(cfg, w, o))
    ensures Succeeds(o) ==> GoesWell(w, EvidenceDo(cfg, w, o))
  {
  }

  lemma StartTells(cfg: Config, w: World, o: Outcome)
    requires w.sup.pc.LogStart?
    requires SupCan(cfg, w, o) && Sound(cfg, w)
    ensures Tells(w, o, EvidenceDo(cfg, w, o))
    ensures Succeeds(o) ==> GoesWell(w, EvidenceDo(cfg, w, o))
  {
  }

  lemma MountTells(cfg: Config, w: World, o: Outcome)
    requires w.sup.pc.LogMount?
    requires SupCan(cfg, w, o) && Sound(cfg, w)
    ensures Tells(w, o, EvidenceDo(cfg, w, o))
    ensures Succeeds(o) ==> GoesWell(w, EvidenceDo(cfg, w, o))
  {
  }

  lemma CapsTells(cfg: Config, w: World, o: Outcome)
    requires w.sup.pc.LogCaps?
    requires SupCan(cfg, w, o) && Sound(cfg, w)
    ensures Tells(w, o, EvidenceDo(cfg, w, o))
    ensures Succeeds(o) ==> GoesWell(w, EvidenceDo(cfg, w, o))
  {
  }

  lemma SeccompTells(cfg: Config, w: World, o: Outcome)
    requires w.sup.pc.LogSeccomp?
    requires SupCan(cfg, w, o) && Sound(cfg, w)
    ensures Tells(w, o, EvidenceDo(cfg, w, o))
    ensures Succeeds(o) ==> GoesWell(w, EvidenceDo(cfg, w, o))
  {
  }

  lemma WaitTells(cfg: Config, w: World, o: Outcome)
    requires w.sup.pc.Judge? || w.sup.pc.Wait?
    requires SupCan(cfg, w, o) && Sound(cfg, w)
    ensures Tells(w, o, OutcomeDo(cfg, w, o))
    ensures Succeeds(o) ==> GoesWell(w, OutcomeDo(cfg, w, o))
  {
  }

  lemma DecisionTells(cfg: Config, w: World, o: Outcome)
    requires w.sup.pc.CaptureAfter?
    requires SupCan(cfg, w, o) && Sound(cfg, w)
    ensures Tells(w, o, OutcomeDo(cfg, w, o))
  {
  }

  lemma FailureLogTells(cfg: Config, w: World, o: Outcome)
    requires w.sup.pc.RecordFailed?
    requires SupCan(cfg, w, o) && Sound(cfg, w)
    ensures Tells(w, o, OutcomeDo(cfg, w, o))
    ensures Succeeds(o) ==> GoesWell(w, OutcomeDo(cfg, w, o))
  {
  }

  lemma FailureStatusTells(cfg: Config, w: World, o: Outcome)
    requires w.sup.pc.SetFailed?
    requires SupCan(cfg, w, o) && Sound(cfg, w)
    ensures Tells(w, o, OutcomeDo(cfg, w, o))
    ensures Succeeds(o) ==> GoesWell(w, OutcomeDo(cfg, w, o))
  {
  }

  lemma ExitLogTells(cfg: Config, w: World, o: Outcome)
    requires w.sup.pc.LogExit?
    requires SupCan(cfg, w, o) && Sound(cfg, w)
    ensures Tells(w, o, OutcomeDo(cfg, w, o))
    ensures Succeeds(o) ==> GoesWell(w, OutcomeDo(cfg, w, o))
  {
  }

  lemma ExitStatusTells(cfg: Config, w: World, o: Outcome)
    requires w.sup.pc.SetExited?
    requires SupCan(cfg, w, o) && Sound(cfg, w)
    ensures Tells(w, o, OutcomeDo(cfg, w, o))
    ensures Succeeds(o) ==> GoesWell(w, OutcomeDo(cfg, w, o))
  {
  }

  lemma DropReapedTells(cfg: Config, w: World, o: Outcome)
    requires w.sup.pc.DropGuard? && w.sup.Reaped()
    requires SupCan(cfg, w, o) && Sound(cfg, w)
    ensures Tells(w, o, GuardDo(cfg, w, o))
    ensures Succeeds(o) ==> GoesWell(w, GuardDo(cfg, w, o))
  {
    var v := GuardDo(cfg, w, o);
    assert v == w.(sup := w.sup.(pc := Cleanup)) && Clean(v.sup) == Clean(w.sup);
  }

  lemma DropPolledTells(cfg: Config, w: World, o: Outcome)
    requires w.sup.pc.DropGuard? && !w.sup.Reaped() && w.child.dead.Some?
    requires SupCan(cfg, w, o) && Sound(cfg, w)
    ensures Tells(w, o, GuardDo(cfg, w, o))
    ensures Succeeds(o) ==> GoesWell(w, GuardDo(cfg, w, o))
  {
    var v := GuardDo(cfg, w, o);
    assert v == w.(sup := w.sup.(pc := Cleanup, waitStatus := w.child.dead)) && w.sup.result.Failure?;
  }

  lemma DropKilledTells(cfg: Config, w: World, o: Outcome)
    requires w.sup.pc.DropGuard? && !w.sup.Reaped() && w.child.dead.None?
    requires SupCan(cfg, w, o) && Sound(cfg, w)
    ensures Tells(w, o, GuardDo(cfg, w, o))
    ensures Succeeds(o) ==> GoesWell(w, GuardDo(cfg, w, o))
  {
    var v := GuardDo(cfg, w, o);
    assert v == w.(sup := w.sup.(pc := GuardWait, kills := v.sup.kills)) && w.sup.result.Failure?;
  }

  lemma GuardWaitTells(cfg: Config, w: World, o: Outcome)
    requires w.sup.pc.GuardWait?
    requires SupCan(cfg, w, o) && Sound(cfg, w)
    ensures Tells(w, o, GuardDo(cfg, w, o))
    ensures Succeeds(o) ==> GoesWell(w, GuardDo(cfg, w, o))
  {
  }

  lemma CleanupTells(cfg: Config, w: World, o: Outcome)
    requires w.sup.pc.Cleanup?
    requires SupCan(cfg, w, o) && Sound(cfg, w)
    ensures Tells(w, o, GuardDo(cfg, w, o))
    ensures Succeeds(o) ==> GoesWell(w, GuardDo(cfg, w, o))
  {
    var s := GuardDo(cfg, w, o).sup;
    assert s == w.sup.(pc := FreeStack, cleanups := s.cleanups) && Clean(s) == Clean(w.sup);
  }

  lemma FreeTells(cfg: Config, w: World, o: Outcome)
    requires w.sup.pc.FreeStack?
    requires SupCan(cfg, w, o) && Sound(cfg, w)
    ensures Tells(w, o, GuardDo(cfg, w, o))
    ensures Succeeds(o) ==> GoesWell(w, GuardDo(cfg, w, o))
  {
  }

  lemma ReadTells(cfg: Config, w: World, o: Outcome)
    requires w.sup.pc.Read? && SupCan(cfg, w, o) && Sound(cfg, w)
    ensures Tells(w, o, ReadDo(cfg, w, o))
  {
  }

  lemma SetupTells(cfg: Config, w: World, o: Outcome)
    requires InSetup(w.sup.pc) && SupCan(cfg, w, o) && Sound(cfg, w)
    ensures Tells(w, o, SetupDo(cfg, w, o))
    ensures Succeeds(o) ==> GoesWell(w, SetupDo(cfg, w, o))
  {
    match w.sup.pc
    case CaptureBefore | StoreSeed | CreateRun | LogRunCreated => OpeningTells(cfg, w, o);
    case LogSeedLoaded | PrepareCgroup => PreparingTells(cfg, w, o);
    case _ => ForkingTells(cfg, w, o);
  }

  lemma HandOverTells(cfg: Config, w: World, o: Outcome)
    requires InHandOver(w.sup.pc) && SupCan(cfg, w, o) && Sound(cfg, w)
    ensures Tells(w, o, HandOverDo(cfg, w, o))
    ensures Succeeds(o) ==> GoesWell(w, HandOverDo(cfg, w, o))
  {
    match w.sup.pc
    case MapIds | MoveCgroup => ConfiningTells(cfg, w, o);
    case LogCgroup | SetRunning => RunningTells(cfg, w, o);
    case Release | ShutWrite => ReleaseTells(cfg, w, o);
    case _ => AbortTells(cfg, w, o);
  }

  lemma EvidenceTells(cfg: Config, w: World, o: Outcome)
    requires InEvidence(w.sup.pc) && SupCan(cfg, w, o) && Sound(cfg, w)
    ensures Tells(w, o, EvidenceDo(cfg, w, o))
    ensures Succeeds(o) ==> GoesWell(w, EvidenceDo(cfg, w, o))
  {
    match w.sup.pc
    case LogNamespace => if o.Good? { NamespaceGoesOn(cfg, w, o); } else { NamespaceErrs(cfg, w, o); }
    case LogIdmap => if o.Good? { IdmapGoesOn(cfg, w, o); } else { IdmapErrs(cfg, w, o); }
    case LogMount => MountTells(cfg, w, o);
    case LogCaps => CapsTells(cfg, w, o);
    case LogSeccomp => SeccompTells(cfg, w, o);
    case _ => StartTells(cfg, w, o);
  }

  lemma OutcomeTells(cfg: Config, w: World, o: Outcome)
    requires InOutcome(w.sup.pc) && SupCan(cfg, w, o) && Sound(cfg, w)
    ensures Tells(w, o, OutcomeDo(cfg, w, o))
    ensures Succeeds(o) && !w.sup.pc.CaptureAfter? ==> GoesWell(w, OutcomeDo(cfg, w, o))
  {
    match w.sup.pc
    case Judge | Wait => WaitTells(cfg, w, o);
    case CaptureAfter(_) => DecisionTells(cfg, w, o);
    case RecordFailed => FailureLogTells(cfg, w, o);
    case SetFailed => FailureStatusTells(cfg, w, o);
    case LogExit(_) => ExitLogTells(cfg, w, o);
    case _ => ExitStatusTells(cfg, w, o);
  }

  lemma GuardTells(cfg: Config, w: World, o: Outcome)
    requires w.sup.pc.DropGuard? || w.sup.pc.GuardWait? || w.sup.pc.Cleanup? || w.sup.pc.FreeStack?
    requires SupCan(cfg, w, o) && Sound(cfg, w)
    ensures Tells(w, o, GuardDo(cfg, w, o))
    ensures Succeeds(o) ==> GoesWell(w, GuardDo(cfg, w, o))
  {
    match w.sup.pc
    case DropGuard =>
      if w.sup.Reaped() { DropReapedTells(cfg, w, o); }
      else if w.child.dead.Some? { DropPolledTells(cfg, w, o); }
      else { DropKilledTells(cfg, w, o); }
    case GuardWait => GuardWaitTells(cfg, w, o);
    case Cleanup => CleanupTells(cfg, w, o);
    case _ => FreeTells(cfg, w, o);
  }

  lemma SupTells(cfg: Config, w: World, o: Outcome)
    requires SupCan(cfg, w, o) && Sound(cfg, w)
    ensures Tells(w, o, SupDo(cfg, w, o))
    ensures Succeeds(o) && !w.sup.pc.Read? && !w.sup.pc.CaptureAfter? ==> GoesWell(w, SupDo(cfg, w, o))
  {
    var pc := w.sup.pc;
    if InSetup(pc) { SetupTells(cfg, w, o); }
    else if InHandOver(pc) { HandOverTells(cfg, w, o); }
    else if pc.Read? { ReadTells(cfg, w, o); }
    else if InEvidence(pc) { EvidenceTells(cfg, w, o); }
    else if InOutcome(pc) { OutcomeTells(cfg, w, o); }
    else { GuardTells(cfg, w, o); }
  }

  // ---------------------------------------------------------------- error returns

  /** One of the first `n` steps is a supervisor call that fails with an error return. */
  predicate Erred(run: seq<World>, acts: seq<Action>, n: nat)
    requires |run| == |acts| + 1 && n <= |acts|
  {
    exists k :: 0 <= k < n && acts[k].Sup? && Errs(run[k], acts[k].outcome)
  }

  lemma {:induction false} FailureMeansErred(cfg: Config, run: seq<World>, acts: seq<Action>, n: nat)
    requires IsRun(cfg, run, acts) && n <= |acts|
    ensures run[n].sup.result.Failure? <==> Erred(run, acts, n)
  {
    if n > 0 {
      FailureMeansErred(cfg, run, acts, n - 1);
      RunKeepsInv(cfg, run, acts, n - 1);
      ErredStep(run, acts, n);
      if acts[n - 1].Sup? { SupTells(cfg, run[n - 1], acts[n - 1].outcome); }
    }
  }

  lemma ErredStep(run: seq<World>, acts: seq<Action>, n: nat)
    requires |run| == |acts| + 1 && 0 < n <= |acts|
    ensures Erred(run, acts, n) <==>
            Erred(run, acts, n - 1) || (acts[n - 1].Sup? && Errs(run[n - 1], acts[n - 1].outcome))
  {
  }

  /** `run` returns an error exactly if one of those calls failed; every other run returns Ok. */
  lemma ErrorsAreExact(cfg: Config, run: seq<World>, acts: seq<Action>)
    requires IsRun(cfg, run, acts) && run[|acts|].sup.pc.Returned?
    ensures run[|acts|].sup.result.Failure? <==> Erred(run, acts, |acts|)
    ensures !run[|acts|].sup.result.Failure? ==> run[|acts|].sup.result.Code?
  {
    FailureMeansErred(cfg, run, acts, |acts|);
    RunKeepsInv(cfg, run, acts, |acts|);
    ReturnedIsDecided(cfg, run[|acts|]);
  }

  lemma ReturnedIsDecided(cfg: Config, w: World)
    requires Sound(cfg, w) && w.sup.pc.Returned?
    ensures !w.sup.result.Pending?
  {
  }

  // ---------------------------------------------------------------- the manifest

  /** Nothing of the run exists before the Seed's manifest does. */
  predicate StoredFirst(w: World) {
    w.sup.stored ||
    (w.log == [] && w.status == NoRecord && w.host.task.None?
     && (w.sup.pc.CaptureBefore? || w.sup.pc.StoreSeed? || w.sup.pc.Returned?))
  }

  lemma OpeningStores(cfg: Config, w: World, o: Outcome)
    requires w.sup.pc.CaptureBefore? || w.sup.pc.StoreSeed?
    requires StoredFirst(w) && !w.sup.stored && SupCan(cfg, w, o)
    ensures StoredFirst(SetupDo(cfg, w, o))
  {
  }

  lemma StepStores(cfg: Config, w: World, a: Action)
    requires Inv(cfg, w) && StoredFirst(w) && Can(cfg, w, a)
    ensures StoredFirst(Do(cfg, w, a))
  {
    if a.Sup? {
      if w.sup.stored { SupTells(cfg, w, a.outcome); } else { OpeningStores(cfg, w, a.outcome); }
    }
  }

  lemma {:induction false} RunStores(cfg: Config, run: seq<World>, acts: seq<Action>, n: nat)
    requires IsRun(cfg, run, acts) && n <= |acts|
    ensures StoredFirst(run[n])
  {
    if n > 0 {
      RunStores(cfg, run, acts, n - 1);
      RunKeepsInv(cfg, run, acts, n - 1);
      StepStores(cfg, run[n - 1], acts[n - 1]);
    }
  }

  /** The manifest is stored before there is a record, an event or a child of the run. */
  lemma ManifestComesFirst(cfg: Config, w: World)
    requires Reachable(cfg, w) && (w.log != [] || w.status != NoRecord || w.host.task.Some?)
    ensures w.sup.stored
  {
    var run, acts :| IsRun(cfg, run, acts) && run[|acts|] == w;
    RunStores(cfg, run, acts, |acts|);
  }

  // ---------------------------------------------------------------- faults

  /** The child will not exec. */
  predicate Lost(c: Child) { c.pc.ReportFailure? || c.pc.Exiting? }

  lemma KidTells(cfg: Config, h: Host, c: Child, o: Outcome)
    requires h.task.Some? && KidCan(cfg, h, c, o)
    ensures Lost(c) ==> Lost(KidDo(cfg, h, c, o))
    ensures !o.Good? && !o.Ends? ==> Lost(KidDo(cfg, h, c, o))
  {
  }

  /** A step that is no fault: its call succeeds, the workload exits, or the cgroup is not
      removed, which `run` only notes. */
  predicate Harmless(w: World, a: Action) {
    match a
    case Sup(o) => Succeeds(o) || w.sup.pc.Cleanup?
    case Kid(o) => o.Good? || (o.Ends? && o.status.Exited?)
    case Signal(_) => false
  }

  /** The fault of a step shows in every later state. */
  predicate Spoiled(w: World) {
    Doomed(w.sup) || Lost(w.child) || (w.child.dead.Some? && w.child.dead.value.Signaled?)
  }

  lemma StepSpoils(cfg: Config, w: World, a: Action)
    requires Inv(cfg, w) && Can(cfg, w, a) && (Spoiled(w) || !Harmless(w, a))
    ensures Spoiled(Do(cfg, w, a))
  {
    match a
    case Sup(o) => SupTells(cfg, w, o); ChildStays(cfg, w, o);
    case Kid(o) => KidTells(cfg, w.host, w.child, o);
    case Signal(_) =>
  }

  lemma ChildStays(cfg: Config, w: World, o: Outcome)
    requires Inv(cfg, w) && SupCan(cfg, w, o)
    ensures SupDo(cfg, w, o).child == w.child
  {
    if !w.sup.pc.Read? { OtherSupKeeps(cfg, w, o); }
  }

  lemma {:induction false} SpoiltStays(cfg: Config, run: seq<World>, acts: seq<Action>, k: nat, n: nat)
    requires IsRun(cfg, run, acts) && k < n <= |acts| && !Harmless(run[k], acts[k])
    ensures Spoiled(run[n])
  {
    if k < n - 1 { SpoiltStays(cfg, run, acts, k, n - 1); }
    RunKeepsInv(cfg, run, acts, n - 1);
    StepSpoils(cfg, run[n - 1], acts[n - 1]);
  }

  lemma SuccessIsUnspoiled(cfg: Config, w: World, code: int)
    requires Inv(cfg, w) && w.sup.pc.Returned? && w.sup.result.Code? && w.status == StatusExited(code)
    requires w.child.facts.execed
    ensures !Spoiled(w)
  {
  }

  /** A run that returns Ok, with the exit of a workload that did exec on record, has seen no
      fault at all: no call of either side failed but for the removal of the cgroup, and no
      signal arrived. So every other failed call ends the run or stops the child. */
  lemma SuccessMeansNoFault(cfg: Config, run: seq<World>, acts: seq<Action>, k: nat)
    requires IsRun(cfg, run, acts) && k < |acts|
    requires var w := run[|acts|];
             w.sup.pc.Returned? && w.sup.result.Code? && w.status.StatusExited? && w.child.facts.execed
    ensures Harmless(run[k], acts[k])
  {
    var w := run[|acts|];
    RunKeepsInv(cfg, run, acts, |acts|);
    SuccessIsUnspoiled(cfg, w, w.status.code);
    if !Harmless(run[k], acts[k]) { SpoiltStays(cfg, run, acts, k, |acts|); }
  }
}
