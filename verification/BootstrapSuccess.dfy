/** Runs without faults: `run` accepts good evidence and records the workload's exit. */
module BootstrapSuccess {
  import opened Namespaces
  import opened Notices
  import opened Options
  import opened Processes
  import opened Bootstrap
  import opened BootstrapInvariants
  import opened BootstrapSafety
  import opened BootstrapTheorems
  import opened BootstrapLiveness
  import opened BootstrapFaults

  predicate IsolatedTask(cfg: Config, ids: NamespaceIds, task: Task) {
    IsolatedAsRequested(ids, task.ids, cfg.mapRootless, cfg.enableNet, task.pid)
  }

  /** Where a run without faults is, if its child is isolated as the Seed asks and its
      workload exits with `code`. */
  predicate OnTrack(cfg: Config, code: int, w: World) {
    && !Doomed(w.sup) && w.sup.kills == []
    && (w.host.task.Some? ==>
          && IsolatedTask(cfg, w.sup.ids, w.host.task.value) && w.host.received == w.sup.accepted
          && (w.host.endOpen || w.sup.pc.Returned?))
    && Straight(w.child.pc) && (w.child.dead.Some? ==> w.child.pc.Workload? && w.child.dead == Some(Exited(code)))
    && (PastLoop(w.sup.pc) ==> w.sup.accepted == 3)
  }

  // ---------------------------------------------------------------- the supervisor

  lemma NobodyToKill(cfg: Config, w: World)
    requires Sound(cfg, w) && !Doomed(w.sup)
    ensures !MustKill(w)
  {
  }

  lemma CloneOnTrack(cfg: Config, code: int, w: World, o: Outcome)
    requires Inv(cfg, w) && OnTrack(cfg, code, w) && w.sup.pc.Clone? && o.Cloned?
    requires IsolatedTask(cfg, w.sup.ids, o.task)
    ensures OnTrack(cfg, code, SupDo(cfg, w, o))
  {
  }

  lemma NoTaskBeforeClone(cfg: Config, w: World, o: Outcome)
    requires Sound(cfg, w) && SupCan(cfg, w, o) && InSetup(w.sup.pc) && !w.sup.pc.Clone?
    ensures w.host.task.None? && SetupDo(cfg, w, o).host.task.None?
  {
  }

  lemma TaskAfterClone(cfg: Config, w: World)
    requires Sound(cfg, w) && !InSetup(w.sup.pc) && !w.sup.pc.Returned?
    ensures w.host.task.Some?
  {
  }

  lemma CallOnTrack(cfg: Config, code: int, w: World, o: Outcome)
    requires Inv(cfg, w) && OnTrack(cfg, code, w) && SupCan(cfg, w, o) && Succeeds(o)
    requires !w.sup.pc.Read? && !w.sup.pc.CaptureAfter? && !w.sup.pc.Clone?
    ensures OnTrack(cfg, code, SupDo(cfg, w, o))
  {
    SupTells(cfg, w, o);
    OtherSupKeeps(cfg, w, o);
    NobodyToKill(cfg, w);
    if InSetup(w.sup.pc) { NoTaskBeforeClone(cfg, w, o); } else { TaskAfterClone(cfg, w); }
  }

  /** A child on its straight path says what it planned, and closes the channel when it has
      said all of it. */
  lemma LineIsGood(cfg: Config, code: int, w: World)
    requires Inv(cfg, w) && OnTrack(cfg, code, w) && w.sup.pc.Read? && w.LineReady()
    ensures w.host.received < 3 && GoodEvidence(cfg, w.sup.ids, w.child.sent[w.host.received])
  {
  }

  lemma StreamEndsComplete(cfg: Config, code: int, w: World)
    requires Inv(cfg, w) && OnTrack(cfg, code, w) && w.sup.pc.Read? && w.EndOfStream()
    ensures w.sup.accepted == 3
  {
  }

  lemma ReadOnTrack(cfg: Config, code: int, w: World)
    requires Inv(cfg, w) && OnTrack(cfg, code, w) && w.sup.pc.Read? && SupCan(cfg, w, Good)
    ensures OnTrack(cfg, code, ReadDo(cfg, w, Good))
  {
    if w.LineReady() {
      LineIsGood(cfg, code, w);
      VerdictIsExact(cfg, w.sup, w.child.sent[w.host.received]);
    } else {
      StreamEndsComplete(cfg, code, w);
    }
  }

  lemma DecisionOnTrack(cfg: Config, code: int, w: World)
    requires Inv(cfg, w) && OnTrack(cfg, code, w) && w.sup.pc.CaptureAfter?
    ensures OnTrack(cfg, code, SupDo(cfg, w, Good))
  {
  }

  lemma LoopOnTrack(cfg: Config, code: int, w: World)
    requires Inv(cfg, w) && OnTrack(cfg, code, w) && w.sup.pc.Read? && SupCan(cfg, w, Good)
    ensures OnTrack(cfg, code, SupDo(cfg, w, Good))
  {
    ReadOnTrack(cfg, code, w);
  }

  lemma SupOnTrack(cfg: Config, code: int, w: World, o: Outcome)
    requires Inv(cfg, w) && OnTrack(cfg, code, w) && SupCan(cfg, w, o) && Succeeds(o)
    requires o.Cloned? ==> IsolatedTask(cfg, w.sup.ids, o.task)
    ensures OnTrack(cfg, code, SupDo(cfg, w, o))
  {
    if w.sup.pc.Read? { LoopOnTrack(cfg, code, w); }
    else if w.sup.pc.CaptureAfter? { DecisionOnTrack(cfg, code, w); }
    else if w.sup.pc.Clone? { CloneOnTrack(cfg, code, w, o); }
    else { CallOnTrack(cfg, code, w, o); }
  }

  // ---------------------------------------------------------------- the child

  /** The gate opens by the start byte, and is not closed before. */
  lemma GateStaysOpen(cfg: Config, code: int, w: World)
    requires Inv(cfg, w) && OnTrack(cfg, code, w) && w.Alive() && w.child.pc.Gate?
    ensures !GateClosed(w.host, w.child)
  {
  }

  lemma KidOnTrack(cfg: Config, code: int, w: World, o: Outcome)
    requires Inv(cfg, w) && OnTrack(cfg, code, w) && w.Alive() && KidCan(cfg, w.host, w.child, o)
    requires o.Good? || (o.Bad? && !w.host.endOpen) || o == Ends(Exited(code))
    ensures OnTrack(cfg, code, w.(child := KidDo(cfg, w.host, w.child, o)))
  {
    ChildIsHeard(cfg, code, w);
    if w.child.pc.Gate? { GateStaysOpen(cfg, code, w); }
    StraightStays(cfg, w.host, w.child, o);
  }

  lemma ChildIsHeard(cfg: Config, code: int, w: World)
    requires Inv(cfg, w) && OnTrack(cfg, code, w) && w.Alive()
    ensures w.host.endOpen
  {
  }

  /** A step that is no fault keeps the child on its straight path. */
  lemma StraightStays(cfg: Config, h: Host, c: Child, o: Outcome)
    requires h.task.Some? && KidCan(cfg, h, c, o) && Straight(c.pc) && c.dead.None?
    requires o.Good? || (o.Ends? && o.status.Exited?)
    requires c.pc.Gate? ==> h.startWritten
    ensures var d := KidDo(cfg, h, c, o); Straight(d.pc) && (d.dead.Some? ==> d.pc.Workload? && o == Ends(d.dead.value))
  {
  }

  // ---------------------------------------------------------------- every call of the supervisor succeeds

  /** What holds whatever the child does and says. */
  predicate WellCalled(cfg: Config, w: World) {
    && !w.sup.result.Failure? && !Aborting(w.sup.pc)
    && (PastLoop(w.sup.pc) ==> Body(w.log) == LogAfter(cfg, w.sup.accepted))
  }

  lemma ClosedLog(cfg: Config, v: World)
    requires v.sup.pc.Judge? && Sound(cfg, v)
    ensures Body(v.log) == LogAfter(cfg, v.sup.accepted)
  {
    assert Closed(cfg, v.sup, v.host, v.log);
    OpenLogIsBacked(cfg, v.sup.accepted, None, false, HandedOver(cfg, v.host), v.log);
  }

  /** After a read the loop goes on with an event, or is over. */
  lemma ReadLeaves(cfg: Config, w: World)
    ensures var s := ReadDo(cfg, w, Good).sup;
            s.result == w.sup.result && !Aborting(s.pc) && (PastLoop(s.pc) ==> s.pc.Judge?)
  {
    if w.LineReady() {
      var line := w.child.sent[w.host.received];
      VerdictIsExact(cfg, w.sup, line);
      PlacesInLoop(line);
    }
  }

  lemma PlacesInLoop(line: Line)
    ensures line.Whole? ==> var pc := PlaceOf(line.notice); !Aborting(pc) && (PastLoop(pc) ==> pc.Judge?)
  {
  }

  /** The event that ends the run follows the script so far. */
  lemma EndingWell(log: seq<Event>, e: Event)
    requires EndsRun(e)
    ensures Body(log + [e]) == log
  {
    assert (log + [e])[..|log|] == log;
  }

  lemma FailureWell(cfg: Config, w: World)
    requires w.sup.pc.RecordFailed? && Sound(cfg, w) && WellCalled(cfg, w)
    ensures WellCalled(cfg, SupDo(cfg, w, Good))
  {
    EndingWell(w.log, ProcessFailed);
  }

  lemma ExitWell(cfg: Config, w: World)
    requires w.sup.pc.LogExit? && Sound(cfg, w) && WellCalled(cfg, w)
    ensures WellCalled(cfg, SupDo(cfg, w, Good))
  {
    assert w.log == LogAfter(cfg, w.sup.accepted);
    EndingWell(w.log, ProcessExit(w.sup.pc.exitCode));
  }

  lemma DecideWell(cfg: Config, w: World)
    requires w.sup.pc.CaptureAfter? && WellCalled(cfg, w)
    ensures WellCalled(cfg, SupDo(cfg, w, Good))
  {
  }

  lemma LoopWell(cfg: Config, w: World)
    requires w.sup.pc.Read? && Inv(cfg, w) && WellCalled(cfg, w) && SupCan(cfg, w, Good)
    ensures WellCalled(cfg, SupDo(cfg, w, Good))
  {
    ReadKeeps(cfg, w, Good);
    ReadLeaves(cfg, w);
    if ReadDo(cfg, w, Good).sup.pc.Judge? { ClosedLog(cfg, ReadDo(cfg, w, Good)); }
  }

  lemma OtherWell(cfg: Config, w: World, o: Outcome)
    requires Inv(cfg, w) && WellCalled(cfg, w) && SupCan(cfg, w, o) && Succeeds(o) && !w.sup.pc.Read?
    requires !w.sup.pc.RecordFailed? && !w.sup.pc.LogExit? && !w.sup.pc.CaptureAfter?
    ensures WellCalled(cfg, SupDo(cfg, w, o))
  {
    SupTells(cfg, w, o);
    OtherSupKeeps(cfg, w, o);
  }

  lemma CallWell(cfg: Config, w: World, o: Outcome)
    requires Inv(cfg, w) && WellCalled(cfg, w) && SupCan(cfg, w, o) && Succeeds(o)
    ensures WellCalled(cfg, SupDo(cfg, w, o))
  {
    var pc := w.sup.pc;
    if pc.Read? { LoopWell(cfg, w); }
    else if pc.RecordFailed? { FailureWell(cfg, w); }
    else if pc.LogExit? { ExitWell(cfg, w); }
    else if pc.CaptureAfter? { DecideWell(cfg, w); }
    else { OtherWell(cfg, w, o); }
  }

  // ---------------------------------------------------------------- whole runs

  /** No step of the run is a fault, and a workload that exits does so with `code`. */
  predicate NoFaults(run: seq<World>, acts: seq<Action>, code: int)
    requires |run| == |acts| + 1
  {
    forall i :: 0 <= i < |acts| ==>
      Driven(run[i], acts[i]) && (acts[i].Kid? && acts[i].outcome.Ends? ==> acts[i].outcome.status == Exited(code))
  }

  lemma StepKeepsTask(cfg: Config, w: World, a: Action)
    requires Inv(cfg, w) && Can(cfg, w, a)
    ensures var v := Do(cfg, w, a); v.sup.ids == w.sup.ids && (w.host.task.Some? ==> v.host.task == w.host.task)
  {
    if a.Sup? {
      SupTells(cfg, w, a.outcome);
      if !w.sup.pc.Read? { OtherSupKeeps(cfg, w, a.outcome); }
    }
  }

  lemma StepOnTrack(cfg: Config, code: int, w: World, a: Action)
    requires Inv(cfg, w) && OnTrack(cfg, code, w) && Can(cfg, w, a) && Driven(w, a)
    requires a.Kid? && a.outcome.Ends? ==> a.outcome.status == Exited(code)
    requires a.Sup? && a.outcome.Cloned? ==> IsolatedTask(cfg, w.sup.ids, a.outcome.task)
    ensures OnTrack(cfg, code, Do(cfg, w, a))
  {
    match a
    case Sup(o) => SupOnTrack(cfg, code, w, o);
    case Kid(o) => KidOnTrack(cfg, code, w, o);
    case Signal(_) => assert false;
  }

  /** What a run without faults keeps, whatever child it clones. */
  predicate Going(cfg: Config, code: int, ids: NamespaceIds, w: World) {
    && w.sup.ids == ids && WellCalled(cfg, w)
    && ((w.host.task.Some? ==> IsolatedTask(cfg, ids, w.host.task.value)) ==> OnTrack(cfg, code, w))
  }

  lemma StepGoesOn(cfg: Config, code: int, ids: NamespaceIds, w: World, a: Action)
    requires Inv(cfg, w) && Going(cfg, code, ids, w) && Can(cfg, w, a) && Driven(w, a)
    requires a.Kid? && a.outcome.Ends? ==> a.outcome.status == Exited(code)
    ensures Going(cfg, code, ids, Do(cfg, w, a))
  {
    var v := Do(cfg, w, a);
    StepKeepsTask(cfg, w, a);
    StepIsWell(cfg, w, a);
    if v.host.task.Some? ==> IsolatedTask(cfg, ids, v.host.task.value) {
      if a.Sup? && a.outcome.Cloned? { ClonedTask(cfg, w, a); }
      StepOnTrack(cfg, code, w, a);
    }
  }

  lemma StepIsWell(cfg: Config, w: World, a: Action)
    requires Inv(cfg, w) && WellCalled(cfg, w) && Can(cfg, w, a) && Driven(w, a)
    ensures WellCalled(cfg, Do(cfg, w, a))
  {
    if a.Sup? { CallWell(cfg, w, a.outcome); }
  }

  lemma ClonedTask(cfg: Config, w: World, a: Action)
    requires Can(cfg, w, a) && a.Sup? && a.outcome.Cloned?
    ensures Do(cfg, w, a).host.task == Some(a.outcome.task)
  {
  }

  lemma InitGoes(cfg: Config, code: int, w: World)
    requires Init(cfg, w)
    ensures Going(cfg, code, w.sup.ids, w)
  {
  }

  lemma {:induction false} RunGoesOn(cfg: Config, run: seq<World>, acts: seq<Action>, code: int, n: nat)
    requires IsRun(cfg, run, acts) && n <= |acts| && NoFaults(run, acts, code)
    ensures Going(cfg, code, run[0].sup.ids, run[n])
  {
    if n == 0 {
      InitGoes(cfg, code, run[0]);
    } else {
      RunGoesOn(cfg, run, acts, code, n - 1);
      RunKeepsInv(cfg, run, acts, n - 1);
      StepGoesOn(cfg, code, run[0].sup.ids, run[n - 1], acts[n - 1]);
    }
  }

  lemma TrackEnds(cfg: Config, code: int, w: World)
    requires Inv(cfg, w) && OnTrack(cfg, code, w) && w.sup.pc.Returned?
    ensures w.log == Script(cfg) + [ProcessExit(code)] && w.status == StatusExited(code) && w.sup.result == Code(code)
    ensures w.sup.kills == [] && w.child.facts.execed
  {
    assert Unwinding(cfg, w.sup, w.host, w.log, w.status);
    CleanEnds(cfg, code, w);
    EndedHasExeced(cfg, code, w);
  }

  lemma CleanEnds(cfg: Config, code: int, w: World)
    requires Unwinding(cfg, w.sup, w.host, w.log, w.status) && Clean(w.sup) && w.sup.result.Code?
    requires w.sup.waitStatus == Some(Exited(code))
    ensures w.log == Script(cfg) + [ProcessExit(code)] && w.status == StatusExited(code) && w.sup.result == Code(code)
  {
    assert CleanExit(w.sup) == Some(code);
    assert w.log == Body(w.log) + [w.log[|w.log| - 1]];
  }

  lemma EndedHasExeced(cfg: Config, code: int, w: World)
    requires Inv(cfg, w) && OnTrack(cfg, code, w) && w.host.task.Some? && w.child.dead.Some?
    ensures w.child.facts.execed
  {
  }

  lemma OffTrackEnds(cfg: Config, w: World)
    requires Inv(cfg, w) && WellCalled(cfg, w) && w.sup.pc.Returned? && w.host.task.Some?
    requires !IsolatedTask(cfg, w.sup.ids, w.host.task.value)
    ensures w.log == Head(cfg) + [ProcessFailed] && w.status == StatusFailed && w.sup.result.Code?
  {
    assert Unwinding(cfg, w.sup, w.host, w.log, w.status);
    assert w.sup.accepted == 0;
    assert !Clean(w.sup);
    assert w.log == Body(w.log) + [w.log[|w.log| - 1]];
  }

  /** How a run without faults leaves things, by the child that it cloned. */
  predicate EndsRight(cfg: Config, ids: NamespaceIds, code: int, w: World) {
    && w.host.task.Some?
    && if IsolatedTask(cfg, ids, w.host.task.value) then
         && w.log == Script(cfg) + [ProcessExit(code)] && w.status == StatusExited(code)
         && w.sup.result == Code(code) && w.sup.kills == [] && w.child.facts.execed
       else w.log == Head(cfg) + [ProcessFailed] && w.status == StatusFailed && w.sup.result.Code?
  }

  /** A run without faults clones a child. If that child is isolated exactly as the Seed asks,
      all of its evidence is accepted, and the whole script, the workload's exit and its code
      are what is logged, recorded and returned; if not, its first notice is refused, and the
      run is recorded as failed. */
  lemma RunsSucceedExactly(cfg: Config, run: seq<World>, acts: seq<Action>, code: int)
    requires IsRun(cfg, run, acts) && NoFaults(run, acts, code) && run[|acts|].sup.pc.Returned?
    ensures EndsRight(cfg, run[0].sup.ids, code, run[|acts|])
  {
    var w := run[|acts|];
    RunKeepsInv(cfg, run, acts, |acts|);
    RunGoesOn(cfg, run, acts, code, |acts|);
    ReturnsWithChild(cfg, w);
    if IsolatedTask(cfg, run[0].sup.ids, w.host.task.value) { TrackEnds(cfg, code, w); } else { OffTrackEnds(cfg, w); }
  }

  lemma ReturnsWithChild(cfg: Config, w: World)
    requires Inv(cfg, w) && WellCalled(cfg, w) && w.sup.pc.Returned?
    ensures w.host.task.Some?
  {
  }
}
