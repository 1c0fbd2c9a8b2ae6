/** What becomes of the run's cgroup, on every way out of `run` (src/process.rs and
    src/isolate/cgroups.rs). */
module BootstrapCleanup {
  import opened Namespaces
  import opened Notices
  import opened Options
  import opened Processes
  import opened Bootstrap
  import opened BootstrapInvariants
  import opened BootstrapSafety
  import opened BootstrapTheorems

  /** What can happen to the cgroup: its directory is made; it is made, but a limit cannot be
      set; it is prepared, but the socket pair cannot be set up; its removal is tried and fails. */
  datatype Turn = Made | HalfMade | NoSocket | NotRemoved

  predicate IsTurn(cfg: Config, turn: Turn, w: World, a: Action) {
    match turn
    case Made => cfg.cgroups && w.sup.pc.PrepareCgroup? && (a == Sup(Good) || a == Sup(Torn))
    case HalfMade => cfg.cgroups && w.sup.pc.PrepareCgroup? && a == Sup(Torn)
    case NoSocket => w.sup.prepared && w.sup.pc.OpenSocket? && a == Sup(Bad)
    case NotRemoved =>
      w.sup.prepared && ((w.sup.pc.Clone? && a == Sup(Torn)) || (w.sup.pc.Cleanup? && a == Sup(Bad)))
  }

  /** One of the first `n` steps of the run is such a turn. */
  predicate Happened(cfg: Config, run: seq<World>, acts: seq<Action>, n: nat, turn: Turn)
    requires |run| == |acts| + 1 && n <= |acts|
  {
    exists k :: 0 <= k < n && IsTurn(cfg, turn, run[k], acts[k])
  }

  lemma HappenedStep(cfg: Config, run: seq<World>, acts: seq<Action>, n: nat, turn: Turn)
    requires |run| == |acts| + 1 && 0 < n <= |acts|
    ensures Happened(cfg, run, acts, n, turn) <==>
            Happened(cfg, run, acts, n - 1, turn) || IsTurn(cfg, turn, run[n - 1], acts[n - 1])
  {
  }

  // ---------------------------------------------------------------- one step

  datatype Past = Past(made: bool, halfMade: bool, noSocket: bool, notRemoved: bool)
  {
    function Then(cfg: Config, w: World, a: Action): Past {
      Past(made || IsTurn(cfg, Made, w, a), halfMade || IsTurn(cfg, HalfMade, w, a),
           noSocket || IsTurn(cfg, NoSocket, w, a), notRemoved || IsTurn(cfg, NotRemoved, w, a))
    }
  }

  /** Before clone, after a return without a child, and with a child. `before` says whether
      the directory was there when the run began. */
  predicate CgroupSoFar(cfg: Config, before: bool, p: Past, w: World) {
    if w.host.task.Some? then
      && p.made == cfg.cgroups && !p.halfMade && !p.noSocket
      && if PastCleanup(w.sup.pc) then w.cgroup == (if p.made then p.notRemoved else before)
         else !p.notRemoved && w.cgroup == (before || p.made)
    else if w.sup.pc.Returned? then
      && w.cgroup == (if p.made then p.halfMade || p.noSocket || p.notRemoved else before)
      && w.sup.cleanups == (if p.made && !p.halfMade && !p.noSocket then 1 else 0)
    else
      && !p.halfMade && !p.noSocket && !p.notRemoved && w.sup.cleanups == 0
      && p.made == w.sup.prepared && w.cgroup == (before || p.made)
  }

  lemma EarlyStep(cfg: Config, before: bool, p: Past, w: World, o: Outcome)
    requires CgroupSoFar(cfg, before, p, w) && SupCan(cfg, w, o) && w.host.task.None? && !w.sup.prepared
    requires w.sup.pc.CaptureBefore? || w.sup.pc.StoreSeed? || w.sup.pc.CreateRun? || w.sup.pc.LogRunCreated?
             || w.sup.pc.LogSeedLoaded?
    ensures CgroupSoFar(cfg, before, p.Then(cfg, w, Sup(o)), SetupDo(cfg, w, o))
  {
  }

  lemma PrepareStep(cfg: Config, before: bool, p: Past, w: World, o: Outcome)
    requires CgroupSoFar(cfg, before, p, w) && SupCan(cfg, w, o) && w.host.task.None? && !w.sup.prepared
    requires w.sup.pc.PrepareCgroup?
    ensures CgroupSoFar(cfg, before, p.Then(cfg, w, Sup(o)), SetupDo(cfg, w, o))
  {
  }

  lemma ForkStep(cfg: Config, before: bool, p: Past, w: World, o: Outcome)
    requires CgroupSoFar(cfg, before, p, w) && SupCan(cfg, w, o) && w.host.task.None?
    requires w.sup.prepared == cfg.cgroups && (w.sup.pc.OpenSocket? || w.sup.pc.Clone?)
    ensures CgroupSoFar(cfg, before, p.Then(cfg, w, Sup(o)), SetupDo(cfg, w, o))
  {
  }

  lemma SetupStep(cfg: Config, before: bool, p: Past, w: World, o: Outcome)
    requires Inv(cfg, w) && CgroupSoFar(cfg, before, p, w) && SupCan(cfg, w, o) && InSetup(w.sup.pc)
    ensures CgroupSoFar(cfg, before, p.Then(cfg, w, Sup(o)), SetupDo(cfg, w, o))
  {
    if w.sup.pc.PrepareCgroup? { PrepareStep(cfg, before, p, w, o); }
    else if w.sup.pc.OpenSocket? || w.sup.pc.Clone? { ForkStep(cfg, before, p, w, o); }
    else { EarlyStep(cfg, before, p, w, o); }
  }

  lemma CleanupStep(cfg: Config, before: bool, p: Past, w: World, o: Outcome)
    requires CgroupSoFar(cfg, before, p, w) && SupCan(cfg, w, o) && w.sup.pc.Cleanup?
    requires w.host.task.Some? && w.sup.prepared == cfg.cgroups
    ensures CgroupSoFar(cfg, before, p.Then(cfg, w, Sup(o)), SupDo(cfg, w, o))
  {
  }

  lemma LeavingStep(cfg: Config, before: bool, p: Past, w: World, v: World)
    requires CgroupSoFar(cfg, before, p, w) && w.host.task.Some? && v.host.task == w.host.task && LeavesCgroup(w, v)
    ensures CgroupSoFar(cfg, before, p, v)
  {
  }

  lemma ReadGoesOn(cfg: Config, s: Supervisor, line: Line)
    ensures !PastCleanup(Consume(cfg, s, line).pc)
  {
  }

  lemma ReadStep(cfg: Config, before: bool, p: Past, w: World, o: Outcome)
    requires CgroupSoFar(cfg, before, p, w) && SupCan(cfg, w, o) && w.host.task.Some? && w.sup.pc.Read?
    ensures CgroupSoFar(cfg, before, p, SupDo(cfg, w, o))
  {
    if o.Good? && w.LineReady() { ReadGoesOn(cfg, w.sup, w.child.sent[w.host.received]); }
  }

  lemma ServiceStep(cfg: Config, before: bool, p: Past, w: World, o: Outcome)
    requires Sound(cfg, w) && CgroupSoFar(cfg, before, p, w) && SupCan(cfg, w, o)
    requires w.host.task.Some? && !w.sup.pc.Cleanup? && !w.sup.pc.Read?
    ensures CgroupSoFar(cfg, before, p, SupDo(cfg, w, o))
  {
    OtherSupKeeps(cfg, w, o);
    LeavingStep(cfg, before, p, w, SupDo(cfg, w, o));
  }

  lemma NoTurn(cfg: Config, p: Past, w: World, o: Outcome)
    requires !InSetup(w.sup.pc) && !w.sup.pc.Cleanup?
    ensures p.Then(cfg, w, Sup(o)) == p
  {
  }

  lemma AfterCloneStep(cfg: Config, before: bool, p: Past, w: World, o: Outcome)
    requires Inv(cfg, w) && CgroupSoFar(cfg, before, p, w) && SupCan(cfg, w, o) && !InSetup(w.sup.pc)
    ensures CgroupSoFar(cfg, before, p.Then(cfg, w, Sup(o)), SupDo(cfg, w, o))
  {
    ChildExists(cfg, w);
    if w.sup.pc.Cleanup? {
      CleanupStep(cfg, before, p, w, o);
    } else {
      NoTurn(cfg, p, w, o);
      if w.sup.pc.Read? { ReadStep(cfg, before, p, w, o); } else { ServiceStep(cfg, before, p, w, o); }
    }
  }

  lemma ChildExists(cfg: Config, w: World)
    requires Inv(cfg, w) && !InSetup(w.sup.pc) && !w.sup.pc.Returned?
    ensures w.host.task.Some? && (w.sup.pc.Cleanup? ==> w.sup.prepared == cfg.cgroups)
  {
  }

  lemma StepCgroup(cfg: Config, before: bool, p: Past, w: World, a: Action)
    requires Inv(cfg, w) && Can(cfg, w, a) && CgroupSoFar(cfg, before, p, w)
    ensures CgroupSoFar(cfg, before, p.Then(cfg, w, a), Do(cfg, w, a))
  {
    match a
    case Sup(o) =>
      if InSetup(w.sup.pc) { SetupStep(cfg, before, p, w, o); } else { AfterCloneStep(cfg, before, p, w, o); }
    case _ =>
  }

  // ---------------------------------------------------------------- every run

  /** What has happened in the first `n` steps of the run. */
  function PastOf(cfg: Config, run: seq<World>, acts: seq<Action>, n: nat): Past
    requires |run| == |acts| + 1 && n <= |acts|
  {
    if n == 0 then Past(false, false, false, false)
    else PastOf(cfg, run, acts, n - 1).Then(cfg, run[n - 1], acts[n - 1])
  }

  lemma {:induction false} PastIsExact(cfg: Config, run: seq<World>, acts: seq<Action>, n: nat)
    requires |run| == |acts| + 1 && n <= |acts|
    ensures var p := PastOf(cfg, run, acts, n);
            && p.made == Happened(cfg, run, acts, n, Made) && p.halfMade == Happened(cfg, run, acts, n, HalfMade)
            && p.noSocket == Happened(cfg, run, acts, n, NoSocket)
            && p.notRemoved == Happened(cfg, run, acts, n, NotRemoved)
  {
    if n > 0 {
      PastIsExact(cfg, run, acts, n - 1);
      HappenedStep(cfg, run, acts, n, Made);
      HappenedStep(cfg, run, acts, n, HalfMade);
      HappenedStep(cfg, run, acts, n, NoSocket);
      HappenedStep(cfg, run, acts, n, NotRemoved);
    }
  }

  lemma InitCgroup(cfg: Config, w: World)
    requires Init(cfg, w)
    ensures CgroupSoFar(cfg, w.cgroup, Past(false, false, false, false), w)
  {
  }

  lemma CgroupAt(cfg: Config, run: seq<World>, acts: seq<Action>, k: nat)
    requires IsRun(cfg, run, acts) && k < |acts| && CgroupSoFar(cfg, run[0].cgroup, PastOf(cfg, run, acts, k), run[k])
    ensures CgroupSoFar(cfg, run[0].cgroup, PastOf(cfg, run, acts, k + 1), run[k + 1])
  {
    RunKeepsInv(cfg, run, acts, k);
    StepCgroup(cfg, run[0].cgroup, PastOf(cfg, run, acts, k), run[k], acts[k]);
  }

  lemma {:induction false} RunCgroup(cfg: Config, run: seq<World>, acts: seq<Action>, n: nat)
    requires IsRun(cfg, run, acts) && n <= |acts|
    ensures CgroupSoFar(cfg, run[0].cgroup, PastOf(cfg, run, acts, n), run[n])
  {
    if n == 0 {
      InitCgroup(cfg, run[0]);
    } else {
      RunCgroup(cfg, run, acts, n - 1);
      CgroupAt(cfg, run, acts, n - 1);
    }
  }

  /** Exactly one removal of the cgroup is tried, whether clone fails or `run` goes on from
      there, if its directory was made, unless a limit could not be set or the socket pair
      could not be set up; then none is. */
  lemma CleanupByCause(cfg: Config, run: seq<World>, acts: seq<Action>)
    requires IsRun(cfg, run, acts) && run[|acts|].sup.pc.Returned?
    ensures var n := |acts|;
            run[n].sup.cleanups ==
              if Happened(cfg, run, acts, n, Made) && !Happened(cfg, run, acts, n, HalfMade)
                 && !Happened(cfg, run, acts, n, NoSocket)
              then 1 else 0
  {
    RunCgroup(cfg, run, acts, |acts|);
    PastIsExact(cfg, run, acts, |acts|);
    RunKeepsInv(cfg, run, acts, |acts|);
    if run[|acts|].host.task.Some? { ReturnedIsCleanedUp(cfg, run[|acts|]); }
  }

  /** When `run` returns, a cgroup whose directory it made is still there if and only if a limit
      could not be set, the socket pair could not be set up, or the removal was tried and
      failed; and one that it did not make is there if and only if it was before. */
  lemma CgroupLeftBehindExactly(cfg: Config, run: seq<World>, acts: seq<Action>)
    requires IsRun(cfg, run, acts) && run[|acts|].sup.pc.Returned?
    ensures var n := |acts|;
            run[n].cgroup <==>
              if Happened(cfg, run, acts, n, Made)
              then Happened(cfg, run, acts, n, HalfMade) || Happened(cfg, run, acts, n, NoSocket)
                   || Happened(cfg, run, acts, n, NotRemoved)
              else run[0].cgroup
  {
    RunCgroup(cfg, run, acts, |acts|);
    PastIsExact(cfg, run, acts, |acts|);
  }
}
