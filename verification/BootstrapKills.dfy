/** When the supervisor sends SIGKILL, and to whom (src/process.rs:78-98, 357-360). */
module BootstrapKills {
  import opened Namespaces
  import opened Notices
  import opened Options
  import opened Processes
  import opened Bootstrap
  import opened BootstrapInvariants
  import opened BootstrapSafety

  lemma TargetExists(cfg: Config, w: World)
    requires Sound(cfg, w) && MustKill(w)
    ensures w.host.task.Some? && !w.sup.Reaped()
  {
  }

  lemma LineKillsNobody(cfg: Config, s: Supervisor, line: Line)
    ensures Consume(cfg, s, line).kills == s.kills
  {
  }

  lemma ReadKillsNobody(cfg: Config, w: World, o: Outcome)
    ensures ReadDo(cfg, w, o).sup.kills == w.sup.kills
  {
    if o.Good? && w.LineReady() { LineKillsNobody(cfg, w.sup, w.child.sent[w.host.received]); }
  }

  lemma KillingReapsNobody(cfg: Config, w: World, o: Outcome)
    requires SupCan(cfg, w, o) && MustKill(w) && !w.sup.Reaped()
    ensures !SupDo(cfg, w, o).sup.Reaped() && SupDo(cfg, w, o).host == w.host
  {
  }

  /** A step of the supervisor calls kill if and only if it must: evidence was refused, or the
      guard has just seen the child alive. Then the target exists and has not been reaped, nor
      does the step reap it. */
  lemma KillsExactly(cfg: Config, w: World, o: Outcome)
    requires Inv(cfg, w) && SupCan(cfg, w, o)
    ensures var v := SupDo(cfg, w, o);
            && v.sup.kills == (if MustKill(w) then w.sup.kills + [Kill(true)] else w.sup.kills)
            && (MustKill(w) ==> v.host.task.Some? && !w.sup.Reaped() && !v.sup.Reaped())
  {
    if w.sup.pc.Read? { ReadKillsNobody(cfg, w, o); } else { OtherSupKeeps(cfg, w, o); }
    if MustKill(w) {
      TargetExists(cfg, w);
      KillingReapsNobody(cfg, w, o);
    }
  }

  // ---------------------------------------------------------------- every run

  /** At most one call, and then a wait. */
  predicate KillsInv(s: Supervisor) {
    && (s.kills == [] || s.kills == [Kill(true)])
    && (s.kills != [] ==> s.Reaped() || s.pc.Wait? || s.pc.GuardWait?)
  }

  lemma ReapedStays(cfg: Config, w: World, o: Outcome)
    requires Inv(cfg, w) && SupCan(cfg, w, o) && w.sup.Reaped()
    ensures SupDo(cfg, w, o).sup.Reaped()
  {
    if !w.sup.pc.Read? { OtherSupKeeps(cfg, w, o); }
  }

  lemma WaitReaps(cfg: Config, w: World, o: Outcome)
    requires SupCan(cfg, w, o) && w.sup.pc.Wait?
    ensures OutcomeDo(cfg, w, o).sup.Reaped()
  {
  }

  lemma GuardReaps(cfg: Config, w: World, o: Outcome)
    requires SupCan(cfg, w, o) && w.sup.pc.GuardWait?
    ensures GuardDo(cfg, w, o).sup.Reaped()
  {
  }

  lemma JudgeWaits(cfg: Config, w: World, o: Outcome)
    requires SupCan(cfg, w, o) && w.sup.pc.Judge?
    ensures SupDo(cfg, w, o).sup.pc.Wait?
  {
  }

  lemma GuardWaits(cfg: Config, w: World, o: Outcome)
    requires SupCan(cfg, w, o) && w.sup.pc.DropGuard? && !w.sup.Reaped() && w.child.dead.None?
    ensures SupDo(cfg, w, o).sup.pc.GuardWait?
  {
  }

  lemma StepKeepsKills(cfg: Config, w: World, a: Action)
    requires Inv(cfg, w) && KillsInv(w.sup) && Can(cfg, w, a)
    ensures KillsInv(Do(cfg, w, a).sup)
  {
    if a.Sup? {
      var o := a.outcome;
      KillsExactly(cfg, w, o);
      if w.sup.Reaped() { ReapedStays(cfg, w, o); }
      else if w.sup.pc.Wait? { WaitReaps(cfg, w, o); }
      else if w.sup.pc.GuardWait? { GuardReaps(cfg, w, o); }
      if w.sup.pc.Judge? { JudgeWaits(cfg, w, o); }
      else if MustKill(w) { GuardWaits(cfg, w, o); }
    }
  }

  lemma {:induction false} RunKeepsKills(cfg: Config, run: seq<World>, acts: seq<Action>, n: nat)
    requires IsRun(cfg, run, acts) && n <= |acts|
    ensures KillsInv(run[n].sup)
  {
    if n > 0 {
      RunKeepsKills(cfg, run, acts, n - 1);
      RunKeepsInv(cfg, run, acts, n - 1);
      StepKeepsKills(cfg, run[n - 1], acts[n - 1]);
    }
  }

  /** Over every run: kill is called at most once, on an existing child not yet reaped, and
      whoever is waited for after it. */
  lemma KillIsSafe(cfg: Config, w: World)
    requires Reachable(cfg, w)
    ensures |w.sup.kills| <= 1 && forall k :: 0 <= k < |w.sup.kills| ==> w.sup.kills[k].unreaped
    ensures w.sup.kills != [] && w.sup.pc.Returned? ==> w.sup.Reaped()
    ensures MustKill(w) ==> w.sup.kills == [] && w.host.task.Some? && !w.sup.Reaped()
  {
    var run, acts :| IsRun(cfg, run, acts) && run[|acts|] == w;
    RunKeepsInv(cfg, run, acts, |acts|);
    RunKeepsKills(cfg, run, acts, |acts|);
    if MustKill(w) { TargetExists(cfg, w); }
  }
}
