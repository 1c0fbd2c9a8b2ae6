/** `PodSupervisor` in its own imperative form (src/pod.rs). Every method is shown to
    take steps of the system in module Pod, so what PodTheorems proves of every run
    holds of every mix of calls; its contract adds what that one call does. */
module PodSupervisor {
  import opened Options
  import opened Processes
  import opened Pod
  import opened PodSafety
  import opened PodTheorems

  const POLL := SECOND / 10
  const KILL_ROUNDS := 10

  // ---------------------------------------------------------------- what calls do to the containers

  /** The containers after the exits that `es` reports. */
  function AfterExits(cs: seq<Container>, es: seq<Event>): (after: seq<Container>)
    ensures |after| == |cs|
  {
    if es == [] then cs
    else
      var before, e := AfterExits(cs, es[..|es| - 1]), es[|es| - 1];
      if e.ContainerExit? && e.index < |cs| then before[e.index := before[e.index].Finished(e.code)] else before
  }

  /** `es` holds exits only, each of a container that still records a process. */
  predicate ExitsFit(cs: seq<Container>, es: seq<Event>) {
    es == [] ||
    (var e := es[|es| - 1];
     && ExitsFit(cs, es[..|es| - 1])
     && e.ContainerExit? && e.index < |cs| && AfterExits(cs, es[..|es| - 1])[e.index].pid.Some?)
  }

  lemma ExitsGrow(cs: seq<Container>, es: seq<Event>, i: nat, code: int)
    requires ExitsFit(cs, es) && i < |cs| && AfterExits(cs, es)[i].pid.Some?
    ensures ExitsFit(cs, es + [ContainerExit(i, code)])
    ensures AfterExits(cs, es + [ContainerExit(i, code)])
            == AfterExits(cs, es)[i := AfterExits(cs, es)[i].Finished(code)]
  {
    assert (es + [ContainerExit(i, code)])[..|es|] == es;
  }

  /** Exits leave a container as it was, or end it, once, with the code they report. */
  lemma {:induction false} ExitsEndOnce(cs: seq<Container>, es: seq<Event>, i: nat)
    requires ExitsFit(cs, es) && i < |cs|
    ensures var after := AfterExits(cs, es)[i];
            if after.pid.Some? || cs[i].pid.None? then after == cs[i] && Exits(es, i) == 0
            else Exits(es, i) == 1 && exists code :: ContainerExit(i, code) in es && after == cs[i].Finished(code)
  {
    if es != [] {
      var before, e := es[..|es| - 1], es[|es| - 1];
      ExitsEndOnce(cs, before, i);
      assert e in es;
      if e.index != i && cs[i].pid.Some? && AfterExits(cs, before)[i].pid.None? {
        var code :| ContainerExit(i, code) in before && AfterExits(cs, before)[i] == cs[i].Finished(code);
        assert ContainerExit(i, code) in es;
      }
    }
  }

  /** One signal event for each of the first `n` containers that record a process, in order. */
  function Forwards(cs: seq<Container>, n: nat, signal: nat): seq<Event>
    requires n <= |cs|
  {
    if n == 0 then []
    else Forwards(cs, n - 1, signal) + (if cs[n - 1].pid.Some? then [SignalForward(signal, n - 1)] else [])
  }

  /** The calls of kill that go with them. */
  function KillCalls(cs: seq<Container>, n: nat, signal: nat): seq<Kill>
    requires n <= |cs|
  {
    if n == 0 then []
    else KillCalls(cs, n - 1, signal) + (if cs[n - 1].pid.Some? then [Kill(cs[n - 1].pid.value, signal, true)] else [])
  }

  /** `es` has the event of one `signal` for each container that records a process, in order,
      and no other event; and `ks` are the calls of kill that go with them, one by one. */
  ghost predicate SignalsAll(cs: seq<Container>, signal: nat, es: seq<Event>, ks: seq<Kill>) {
    && |es| == |ks|
    && (forall j :: 0 <= j < |es| ==>
          && es[j].SignalForward? && es[j].signal == signal && es[j].index < |cs| && cs[es[j].index].pid.Some?
          && ks[j] == Kill(cs[es[j].index].pid.value, signal, true))
    && (forall j, k :: 0 <= j < k < |es| ==> es[j].index < es[k].index)
    && (forall i :: 0 <= i < |cs| && cs[i].pid.Some? ==> SignalForward(signal, i) in es)
  }

  lemma {:induction false} ForwardsSignal(cs: seq<Container>, n: nat, signal: nat)
    requires n <= |cs|
    ensures var es, ks := Forwards(cs, n, signal), KillCalls(cs, n, signal);
            && |es| == |ks|
            && (forall j :: 0 <= j < |es| ==>
                  && es[j].SignalForward? && es[j].signal == signal && es[j].index < n && cs[es[j].index].pid.Some?
                  && ks[j] == Kill(cs[es[j].index].pid.value, signal, true))
            && (forall j, k :: 0 <= j < k < |es| ==> es[j].index < es[k].index)
            && (forall i :: 0 <= i < n && cs[i].pid.Some? ==> SignalForward(signal, i) in es)
  {
    if n > 0 {
      ForwardsSignal(cs, n - 1, signal);
      var before, es := Forwards(cs, n - 1, signal), Forwards(cs, n, signal);
      if cs[n - 1].pid.Some? {
        assert es == before + [SignalForward(signal, n - 1)];
        assert es[|before|] in es;
      }
      forall i | 0 <= i < n - 1 && cs[i].pid.Some? ensures SignalForward(signal, i) in es {
        assert SignalForward(signal, i) in before;
      }
    }
  }

  /** The events and the calls of one round of signals, read without their definitions. */
  lemma ForwardsAreExact(cs: seq<Container>, signal: nat)
    ensures SignalsAll(cs, signal, Forwards(cs, |cs|, signal), KillCalls(cs, |cs|, signal))
  {
    ForwardsSignal(cs, |cs|, signal);
  }

  lemma {:induction false} CallsReachAll(cs: seq<Container>, n: nat, signal: nat, i: nat)
    requires i < n <= |cs| && cs[i].pid.Some?
    ensures Kill(cs[i].pid.value, signal, true) in KillCalls(cs, n, signal)
  {
    if i < n - 1 { CallsReachAll(cs, n - 1, signal, i); }
  }

  /** What stop_all makes of the first `n` containers, and what it logs. */
  function Forgotten(cs: seq<Container>, n: nat): (after: seq<Container>)
    requires n <= |cs|
    ensures |after| == |cs|
  {
    if n == 0 then cs
    else
      var before := Forgotten(cs, n - 1);
      if before[n - 1].pid.Some? then before[n - 1 := before[n - 1].Finished(0)] else before
  }

  function ForgetLog(cs: seq<Container>, n: nat): seq<Event>
    requires n <= |cs|
  {
    if n == 0 then []
    else ForgetLog(cs, n - 1) + (if cs[n - 1].pid.Some? then [ContainerExit(n - 1, 0)] else [])
  }

  lemma {:induction false} ForgottenAt(cs: seq<Container>, n: nat, i: nat)
    requires n <= |cs| && i < |cs|
    ensures Forgotten(cs, n)[i] == if i < n && cs[i].pid.Some? then cs[i].Finished(0) else cs[i]
  {
    if n > 0 { ForgottenAt(cs, n - 1, i); if i != n - 1 { ForgottenAt(cs, n - 1, n - 1); } }
  }

  /** `es` has exit code 0 for each container that records a process, in order, and nothing else. */
  ghost predicate ForgetsAll(cs: seq<Container>, es: seq<Event>) {
    && (forall j :: 0 <= j < |es| ==>
          es[j].ContainerExit? && es[j].code == 0 && es[j].index < |cs| && cs[es[j].index].pid.Some?)
    && (forall j, k :: 0 <= j < k < |es| ==> es[j].index < es[k].index)
    && (forall i :: 0 <= i < |cs| && cs[i].pid.Some? ==> ContainerExit(i, 0) in es)
  }

  lemma {:induction false} ForgetLogForgets(cs: seq<Container>, n: nat)
    requires n <= |cs|
    ensures var es := ForgetLog(cs, n);
            && (forall j :: 0 <= j < |es| ==>
                  es[j].ContainerExit? && es[j].code == 0 && es[j].index < n && cs[es[j].index].pid.Some?)
            && (forall j, k :: 0 <= j < k < |es| ==> es[j].index < es[k].index)
            && (forall i :: 0 <= i < n && cs[i].pid.Some? ==> ContainerExit(i, 0) in es)
  {
    if n > 0 {
      ForgetLogForgets(cs, n - 1);
      var before, es := ForgetLog(cs, n - 1), ForgetLog(cs, n);
      if cs[n - 1].pid.Some? {
        assert es == before + [ContainerExit(n - 1, 0)];
        assert es[|before|] in es;
      }
      forall i | 0 <= i < n - 1 && cs[i].pid.Some? ensures ContainerExit(i, 0) in es {
        assert ContainerExit(i, 0) in before;
      }
    }
  }

  lemma ForgetLogIsExact(cs: seq<Container>)
    ensures ForgetsAll(cs, ForgetLog(cs, |cs|))
  {
    ForgetLogForgets(cs, |cs|);
  }

  lemma {:induction false} ForgetLogSame(cs: seq<Container>, ds: seq<Container>, n: nat)
    requires n <= |cs| == |ds| && forall i :: 0 <= i < n ==> (cs[i].pid.Some? <==> ds[i].pid.Some?)
    ensures ForgetLog(cs, n) == ForgetLog(ds, n)
  {
    if n > 0 { ForgetLogSame(cs, ds, n - 1); }
  }

  /** Exits in two batches are exits in one. */
  lemma {:induction false} ExitsJoin(cs: seq<Container>, es: seq<Event>, fs: seq<Event>)
    requires ExitsFit(cs, es) && ExitsFit(AfterExits(cs, es), fs)
    ensures ExitsFit(cs, es + fs) && AfterExits(cs, es + fs) == AfterExits(AfterExits(cs, es), fs)
  {
    if fs == [] {
      assert es + fs == es;
    } else {
      ExitsJoin(cs, es, fs[..|fs| - 1]);
      assert (es + fs)[..|es + fs| - 1] == es + fs[..|fs| - 1];
    }
  }

  /** Whatever the policy, what one pass of tick may make of `c`, reading the clock
      between `from` and `to`. */
  predicate Ticked(policy: RestartPolicy, from: int, to: int, c: Container, d: Container) {
    if c.state.Running? then (d == c && !Stable(c, from)) || (d == c.Settled() && Stable(c, to))
    else if ShouldRestart(policy, c.state) then d == c.BackedOff()
    else d == c
  }

  /** Those of the first `n` containers that are due for a restart, in order. */
  function Due(policy: RestartPolicy, cs: seq<Container>, n: nat): seq<nat>
    requires n <= |cs|
  {
    if n == 0 then []
    else if ShouldRestart(policy, cs[n - 1].state) then Due(policy, cs, n - 1) + [n - 1]
    else Due(policy, cs, n - 1)
  }

  lemma {:induction false} DueIsExact(policy: RestartPolicy, cs: seq<Container>, n: nat, i: nat)
    requires n <= |cs|
    ensures i in Due(policy, cs, n) <==> i < n && ShouldRestart(policy, cs[i].state)
  {
    if n > 0 { DueIsExact(policy, cs, n - 1, i); }
  }

  lemma {:induction false} DueGrows(policy: RestartPolicy, cs: seq<Container>, m: nat, n: nat)
    requires m <= n <= |cs|
    ensures Due(policy, cs, m) <= Due(policy, cs, n)
  {
    if m < n { DueGrows(policy, cs, m, n - 1); }
  }

  /** A check at time `at` finds the window full, when these restarts were scheduled before it. */
  ghost predicate IsFull(max: nat, scheduled: seq<int>, at: int) {
    |RestartsSince(scheduled, at)| >= max
  }

  /** The checks of a tick: one for each of the first due containers, the k-th at `ats[k]`,
      when the checks before it have each scheduled one restart. `looping` says that a check
      found the window full; then it was the last one, and otherwise all were made. */
  ghost predicate Checked(
    max: nat, due: seq<nat>, before: seq<int>, after: seq<int>, ats: seq<int>, looping: bool)
  {
    && |ats| <= |due| && before <= after
    && |after| == |before| + |ats| - (if looping then 1 else 0)
    && (forall k :: 0 <= k < |ats| ==> (IsFull(max, after[..|before| + k], ats[k]) <==> looping && k == |ats| - 1))
    && if looping then ats != [] else |ats| == |due|
  }

  /** The first `n` containers of `cs` have had their tick, and the rest are untouched. */
  predicate TickedUpTo(
    policy: RestartPolicy, from: int, to: int, cs: seq<Container>, ds: seq<Container>, n: nat)
  {
    && n <= |cs| == |ds|
    && (forall j :: 0 <= j < n ==> Ticked(policy, from, to, cs[j], ds[j]))
    && (forall j :: n <= j < |cs| ==> ds[j] == cs[j])
    && (forall j :: 0 <= j < |cs| ==> ds[j].pid == cs[j].pid)
  }

  /** One more check, after which either one more restart is scheduled or the loop breaks off. */
  lemma CheckMade(
    max: nat, due: seq<nat>, i: nat, before: seq<int>, mid: seq<int>, after: seq<int>, ats: seq<int>, at: int,
    looping: bool)
    requires Checked(max, due, before, mid, ats, false) && (looping <==> IsFull(max, mid, at))
    requires if looping then after == mid else |after| == |mid| + 1 && mid <= after
    ensures Checked(max, due + [i], before, after, ats + [at], looping)
  {
    assert after[..|before| + |ats|] == mid;
    forall k | 0 <= k < |ats| + 1
      ensures IsFull(max, after[..|before| + k], (ats + [at])[k]) <==> looping && k == |ats|
    {
      if k < |ats| { assert after[..|before| + k] == mid[..|before| + k]; }
    }
  }

  lemma TickedGrows(
    policy: RestartPolicy, from: int, to: int, to': int, cs: seq<Container>, ds: seq<Container>, i: nat, d: Container)
    requires TickedUpTo(policy, from, to, cs, ds, i) && i < |cs| && to <= to'
    requires Ticked(policy, from, to', cs[i], d)
    ensures TickedUpTo(policy, from, to', cs, ds[i := d], i + 1)
  {
  }

  predicate AllExited(cs: seq<Container>) {
    forall i :: 0 <= i < |cs| ==> cs[i].pid.None?
  }

  /** The processes that the containers record. */
  function Recorded(cs: seq<Container>): set<int> {
    set i | 0 <= i < |cs| && cs[i].pid.Some? :: cs[i].pid.value
  }

  predicate NoZombies(children: map<int, Process>) {
    forall pid :: pid in children ==> children[pid].Alive?
  }

  // ---------------------------------------------------------------- the supervisor

  datatype Waited = Reaped(pid: int, status: WaitStatus) | Nothing | Interrupted

  class PodSupervisor {
    const rules: Rules
    var containers: seq<Container>
    var restartTimes: seq<int>

    // The host: the log in the store, the unreaped children, the clock, and how many
    // more orphans and interrupted waits there will be before the supervisor next sleeps.
    var log: seq<Event>
    var children: map<int, Process>
    var now: int
    var patience: nat

    ghost var scheduled: seq<int>
    ghost var kills: seq<Kill>
    ghost var run: seq<Pod>
    ghost var acts: seq<Action>

    ghost function Abs(): Pod
      reads this
    {
      Pod(containers, restartTimes, log, children, now, scheduled, kills)
    }

    /** The object's life so far is a run of the pod system that ends in its present state. */
    ghost predicate Valid()
      reads this
    {
      IsRun(rules, run, acts) && run[|acts|] == Abs()
    }

    constructor (rules: Rules, n: nat, children: map<int, Process>, now: int)
      ensures Valid() && this.rules == rules && |containers| == n && log == []
      ensures forall i :: 0 <= i < n ==> containers[i] == NEW_CONTAINER
    {
      this.rules, this.children, this.now := rules, children, now;
      containers := seq(n, i => NEW_CONTAINER);
      restartTimes, log, scheduled, kills, patience := [], [], [], [], 0;
      run := [Pod(seq(n, i => NEW_CONTAINER), [], [], children, now, [], [])];
      acts := [];
    }

    /** Extend the run by the step that the fields have just taken. */
    ghost method Record(a: Action)
      requires IsRun(rules, run, acts) && Can(rules, run[|acts|], a) && Do(rules, run[|acts|], a) == Abs()
      modifies `run, `acts
      ensures Valid() && acts == old(acts) + [a] && run == old(run) + [Abs()]
    {
      run, acts := run + [Abs()], acts + [a];
    }

    lemma ValidInv()
      requires Valid()
      ensures Inv(rules, Abs())
    {
      RunKeepsInv(rules, run, acts, |acts|);
    }

    // -------------------------------------------------------------- system and store calls

    /** The world moves on while the supervisor sleeps or works. */
    method Elapse(atLeast: nat)
      requires Valid()
      modifies `children, `now, `patience, `run, `acts
      ensures Valid() && old(run) <= run
      ensures old(now) + atLeast <= now && Evolves(old(children), children)
    {
      var later: map<int, Process> := *;
      var extra: int, more: int := *, *;
      if Evolves(children, later) { children := later; }
      now := now + atLeast + if extra > 0 then extra else 0;
      patience := if more > 0 then more else 0;
      Record(Action.Elapse(children, now));
    }

    /** append_event: on success the event is kept; a failed call may have kept it too. */
    method AppendEvent(e: Event) returns (ok: bool, kept: bool)
      modifies `log
      ensures log == old(log) + Kept(e, kept)
      ensures (ok ==> kept) && (rules.workingStore ==> ok)
    {
      ok, kept := *, *;
      ok := ok || rules.workingStore;
      kept := kept || ok;
      if kept { log := log + [e]; }
    }

    method LogEvent(e: Event) returns (ok: bool)
      requires Valid() && !e.ContainerForked? && !e.ContainerExit?
      modifies `log, `run, `acts
      ensures Valid() && old(run) <= run
      ensures old(log) <= log && (ok ==> log == old(log) + [e]) && (rules.workingStore ==> ok)
    {
      var kept;
      ok, kept := AppendEvent(e);
      Record(Append(e, kept));
    }

    /** The world moves on during one wait, which uses up some of its patience. */
    method ElapseBriefly()
      requires Valid()
      modifies `children, `now, `patience, `run, `acts
      ensures Valid() && old(run) <= run
      ensures old(now) <= now && Evolves(old(children), children)
      ensures |children| + patience <= old(|children| + patience)
    {
      var later: map<int, Process> := *;
      var extra: int := *;
      if Evolves(children, later) && |later| <= |children| + patience {
        children, patience := later, |children| + patience - |later|;
      }
      now := now + if extra > 0 then extra else 0;
      Record(Action.Elapse(children, now));
    }

    /** waitpid(-1, WNOHANG), with stopped children and EINTR as `Interrupted`. The
        reaped child is gone when it returns; the caller records the step. */
    method WaitAny() returns (w: Waited)
      requires Valid()
      modifies `children, `now, `patience, `run, `acts
      ensures IsRun(rules, run, acts) && old(run) <= run && now >= old(now)
      ensures |children| + patience <= old(|children| + patience)
      ensures !w.Nothing? ==> |children| + patience < old(|children| + patience)
      ensures !w.Reaped? ==> Valid()
      ensures w.Nothing? ==> NoZombies(children)
      ensures w.Reaped? ==>
        w.pid !in children && run[|acts|] == Abs().(children := children[w.pid := Zombie(w.status)])
    {
      ElapseBriefly();
      var interrupted: bool := *;
      if interrupted && patience > 0 {
        patience := patience - 1;
        return Interrupted;
      }
      if pid :| pid in children && children[pid].Zombie? {
        var status := Collect(pid);
        w := Reaped(pid, status);
      } else {
        w := Nothing;
      }
    }

    /** The kernel's part of reaping a child. */
    method Collect(pid: int) returns (status: WaitStatus)
      requires pid in children && children[pid].Zombie?
      modifies `children
      ensures pid !in children && |children| == old(|children|) - 1
      ensures old(children) == children[pid := Zombie(status)]
    {
      ghost var was := children;
      status := children[pid].status;
      children := children - {pid};
      assert was.Keys == children.Keys + {pid};
      assert |was| == |was.Keys| && |children| == |children.Keys|;
    }

    // -------------------------------------------------------------- starting

    method StartContainer(i: nat) returns (ok: bool)
      requires Valid() && i < |containers|
      requires containers[i].state.Fresh? || containers[i].state.Backoff?
      modifies `containers, `log, `children, `now, `patience, `run, `acts
      ensures Valid() && old(run) <= run && old(now) <= now
      ensures |containers| == old(|containers|) && containers == old(containers)[i := containers[i]]
      ensures var c, begun := containers[i], old(containers[i]).StartingAt(old(now));
              if c.pid.Some? then
                && c == begun.ForkedAs(c.pid.value)
                && c.pid.value !in old(children) && c.pid.value in children
                && old(log) <= log && (ok ==> log == old(log) + [ContainerForked(i, c.pid.value)])
              else !ok && c == begun && log == old(log)
    {
      ValidInv();
      assert ContainerInv(rules.policy, containers[i]);
      containers := containers[i := containers[i].StartingAt(now)];
      Record(Start(i));
      Elapse(0);
      // Preparing the root file system or the cgroup may fail, and so may fork.
      var prepared: bool, pid: int := *, *;
      if !prepared || pid in children { return false; }
      children := children[pid := Alive];
      containers := containers[i := containers[i].ForkedAs(pid)];
      var kept;
      ok, kept := AppendEvent(ContainerForked(i, pid));
      Record(Fork(i, pid, kept));
    }

    /** The loop at the end of start: on success every container runs, in log order. */
    method StartAll() returns (ok: bool)
      requires Valid() && forall i :: 0 <= i < |containers| ==> containers[i].state.Fresh?
      modifies `containers, `log, `children, `now, `patience, `run, `acts
      ensures Valid() && old(run) <= run && |containers| == old(|containers|)
      ensures ok ==> |log| == old(|log|) + |containers| && old(log) <= log
      ensures ok ==> forall i :: 0 <= i < |containers| ==>
        && containers[i].state.Running? && containers[i].pid.Some?
        && log[old(|log|) + i] == ContainerForked(i, containers[i].pid.value)
    {
      for i := 0 to |containers|
        invariant Valid() && old(run) <= run && |containers| == old(|containers|)
        invariant old(log) <= log && |log| == old(|log|) + i
        invariant forall j :: i <= j < |containers| ==> containers[j].state.Fresh?
        invariant forall j :: 0 <= j < i ==>
          && containers[j].state.Running? && containers[j].pid.Some?
          && log[old(|log|) + j] == ContainerForked(j, containers[j].pid.value)
      {
        ok := StartContainer(i);
        if !ok { return; }
      }
      ok := true;
    }

    // -------------------------------------------------------------- reaping

    /** Give a reaped process's end to the container that recorded it, if one did. */
    method FinishReaped(pid: int, status: WaitStatus) returns (ok: bool)
      requires IsRun(rules, run, acts) && pid !in children
      requires run[|acts|] == Abs().(children := children[pid := Zombie(status)])
      modifies `containers, `log, `run, `acts
      ensures Valid() && old(run) <= run && (rules.workingStore ==> ok)
      ensures CodeOf(status) == if status.Signaled? then 128 + status.signal else status.code
      ensures forall j :: 0 <= j < |old(containers)| ==>
        (old(containers)[j].pid == Some(pid) <==> j == Holder(old(containers), pid))
      ensures var i := Holder(old(containers), pid);
              if i == |old(containers)| then ok && containers == old(containers) && log == old(log)
              else
                && containers == old(containers)[i := old(containers)[i].Finished(CodeOf(status))]
                && old(log) <= log && (ok ==> log == old(log) + [ContainerExit(i, CodeOf(status))])
    {
      RunKeepsInv(rules, run, acts, |acts|);
      forall j | 0 <= j < |containers| && containers[j].pid == Some(pid) ensures j == Holder(containers, pid) {
        HolderIsUnique(run[|acts|], pid, j);
      }
      assert children[pid := Zombie(status)] - {pid} == children;
      var i := Holder(containers, pid);
      var kept := true;
      ok := true;
      if i < |containers| {
        containers := containers[i := containers[i].Finished(CodeOf(status))];
        ok, kept := AppendEvent(ContainerExit(i, CodeOf(status)));
      }
      Record(Reap(pid, kept));
    }

    /** FinishReaped, in terms of the exits since `cs`. */
    method FinishFor(ghost cs: seq<Container>, ghost es: seq<Event>, pid: int, status: WaitStatus)
      returns (ok: bool, ghost fs: seq<Event>)
      requires IsRun(rules, run, acts) && pid !in children
      requires run[|acts|] == Abs().(children := children[pid := Zombie(status)])
      requires ExitsFit(cs, es) && containers == AfterExits(cs, es)
      modifies `containers, `log, `run, `acts
      ensures Valid() && old(run) <= run && old(log) <= log && (rules.workingStore ==> ok)
      ensures es <= fs && ExitsFit(cs, fs) && containers == AfterExits(cs, fs)
      ensures ok ==> log == old(log) + fs[|es|..]
    {
      fs := es;
      var i := Holder(containers, pid);
      if i < |containers| {
        ExitsGrow(cs, es, i, CodeOf(status));
        fs := es + [ContainerExit(i, CodeOf(status))];
      }
      ok := FinishReaped(pid, status);
    }

    /** One pass of the loop: the exits since `cs` are then `fs`. `more` says to go on. */
    method ReapOne(ghost cs: seq<Container>, ghost es: seq<Event>)
      returns (ok: bool, more: bool, ghost fs: seq<Event>)
      requires Valid() && ExitsFit(cs, es) && containers == AfterExits(cs, es)
      modifies `containers, `log, `children, `now, `patience, `run, `acts
      ensures Valid() && old(run) <= run && old(now) <= now && old(log) <= log
      ensures es <= fs && ExitsFit(cs, fs) && containers == AfterExits(cs, fs)
      ensures ok ==> log == old(log) + fs[|es|..]
      ensures ok && more ==> |children| + patience < old(|children| + patience)
      ensures !more ==> ok && NoZombies(children)
      ensures rules.workingStore ==> ok
    {
      ok, more, fs := true, true, es;
      var w := WaitAny();
      match w
      case Nothing => more := false;
      case Interrupted =>
      case Reaped(pid, status) =>
        ok, fs := FinishFor(cs, es, pid, status);
    }

    /** Reap until waitpid finds nothing: `es` are the exits, each of a container that
        was recorded, and on success the log has them and no child is left unreaped. */
    method ReapExitedProcesses() returns (ok: bool, ghost es: seq<Event>)
      requires Valid()
      modifies `containers, `log, `children, `now, `patience, `run, `acts
      ensures Valid() && old(run) <= run && old(now) <= now
      ensures ExitsFit(old(containers), es) && containers == AfterExits(old(containers), es)
      ensures old(log) <= log && (rules.workingStore ==> ok)
      ensures ok ==> log == old(log) + es && NoZombies(children)
    {
      ghost var cs, told := containers, log;
      var more := true;
      ok, es := true, [];
      while more
        invariant Valid() && old(run) <= run && old(now) <= now && ok
        invariant ExitsFit(cs, es) && containers == AfterExits(cs, es) && log == told + es
        invariant !more ==> NoZombies(children)
        decreases more, |children| + patience
      {
        ghost var fs;
        ok, more, fs := ReapOne(cs, es);
        assert es + fs[|es|..] == fs;
        es := fs;
        if !ok { return; }
      }
    }

    // -------------------------------------------------------------- restarts

    /** The check prunes the list, and still counts every restart of the last ten minutes. */
    method IsCrashLooping() returns (looping: bool)
      requires Valid()
      modifies `restartTimes, `children, `now, `patience, `run, `acts
      ensures Valid() && old(run) <= run && old(now) <= now
      ensures looping <==> |RestartsSince(scheduled, now)| >= rules.maxRestarts
      ensures |restartTimes| == |RestartsSince(scheduled, now)|
    {
      Elapse(0);
      assert Reachable(rules, Abs());
      PruningLosesNothing(rules, Abs(), now);
      RecentCounts(scheduled, now);
      restartTimes := Recent(restartTimes, now);
      Record(Prune);
      looping := |restartTimes| >= rules.maxRestarts;
    }

    method ScheduleRestart(i: nat)
      requires Valid() && i < |containers|
      requires ShouldRestart(rules.policy, containers[i].state) && |restartTimes| < rules.maxRestarts
      modifies `containers, `restartTimes, `children, `now, `patience, `scheduled, `run, `acts
      ensures Valid() && old(run) <= run && old(now) <= now
      ensures containers == old(containers)[i := old(containers)[i].BackedOff()]
      ensures restartTimes == old(restartTimes) + [now] && scheduled == old(scheduled) + [now]
    {
      Elapse(0);
      containers := containers[i := containers[i].BackedOff()];
      restartTimes, scheduled := restartTimes + [now], scheduled + [now];
      Record(Schedule(i));
    }

    method ResetBackoffIfStable(i: nat)
      requires Valid() && i < |containers| && containers[i].state.Running?
      modifies `containers, `children, `now, `patience, `run, `acts
      ensures Valid() && old(run) <= run && old(now) <= now
      ensures var c := old(containers)[i];
              containers == old(containers)[i := if Stable(c, now) then c.Settled() else c]
      ensures containers[i] != old(containers)[i] ==>
        && containers[i] == old(containers)[i].(backoff := 1, restartCount := 0)
        && containers[i].lastStart.Some? && now - containers[i].lastStart.value > 10_000_000_000
    {
      Elapse(0);
      if Stable(containers[i], now) {
        containers := containers[i := containers[i].Settled()];
        Record(Settle(i));
      }
    }

    // -------------------------------------------------------------- stopping at once

    /** Network clean-up, POD_EXIT, and the final run status; only the last two can fail. */
    method CleanupAfterStop() returns (ok: bool)
      requires Valid()
      modifies `log, `run, `acts
      ensures Valid() && old(run) <= run && old(log) <= log
      ensures ok ==> log == old(log) + [PodExit]
    {
      ok := LogEvent(PodExit);
      if ok { ok := *; }
    }

    /** The loop of stop_all. */
    method ForgetRecorded() returns (ok: bool)
      requires Valid()
      modifies `containers, `log, `run, `acts
      ensures Valid() && old(run) <= run && old(log) <= log && |containers| == old(|containers|)
      ensures ok ==> containers == Forgotten(old(containers), |containers|)
      ensures ok ==> log == old(log) + ForgetLog(old(containers), |containers|)
    {
      ghost var cs := containers;
      for i := 0 to |containers|
        invariant Valid() && old(run) <= run && i <= |cs| == |containers|
        invariant containers == Forgotten(cs, i) && log == old(log) + ForgetLog(cs, i)
      {
        ForgottenAt(cs, i, i);
        if containers[i].pid.Some? {
          containers := containers[i := containers[i].Finished(0)];
          var kept;
          ok, kept := AppendEvent(ContainerExit(i, 0));
          Record(Forget(i, kept));
          if !ok { return; }
        }
      }
      ok := true;
    }

    /** stop_all forgets every recorded process, logs exit code 0 for it, and signals none:
        afterwards no child is recorded, and those left behind are the ones that were. */
    method StopAll() returns (ok: bool)
      requires Valid()
      modifies `containers, `log, `run, `acts
      ensures Valid() && old(run) <= run && old(log) <= log && |containers| == old(|containers|)
      ensures ok ==> AllExited(containers) && containers == Forgotten(old(containers), old(|containers|))
      ensures ok ==> log == old(log) + ForgetLog(old(containers), old(|containers|)) + [PodExit]
      ensures ForgetsAll(old(containers), ForgetLog(old(containers), old(|containers|)))
      ensures children == old(children) && kills == old(kills)
      ensures ok ==> children.Keys - Recorded(containers)
                     == old(children.Keys - Recorded(containers)) + old(Recorded(containers))
    {
      ValidInv();
      ForgetLogIsExact(containers);
      ghost var cs := containers;
      ok := ForgetRecorded();
      if !ok { return; }
      forall i | 0 <= i < |cs| ensures containers[i].pid.None? { ForgottenAt(cs, |cs|, i); }
      ok := CleanupAfterStop();
    }

    // -------------------------------------------------------------- tick

    /** The body of tick's loop, up to stop_all. A due container is backed off, unless the
        check, made at `at`, finds the window full. */
    method TickContainer(i: nat, ghost from: int) returns (looping: bool, ghost at: int)
      requires Valid() && i < |containers| && from <= now
      modifies `containers, `restartTimes, `children, `now, `patience, `scheduled, `run, `acts
      ensures Valid() && old(run) <= run && old(now) <= at <= now
      ensures |containers| == old(|containers|) && containers == old(containers)[i := containers[i]]
      ensures looping <==>
        ShouldRestart(rules.policy, old(containers)[i].state) && IsFull(rules.maxRestarts, old(scheduled), at)
      ensures looping ==> containers == old(containers)
      ensures !looping ==> Ticked(rules.policy, from, now, old(containers)[i], containers[i])
      ensures scheduled ==
        if ShouldRestart(rules.policy, old(containers)[i].state) && !looping then old(scheduled) + [now]
        else old(scheduled)
    {
      looping := false;
      if containers[i].state.Running? { ResetBackoffIfStable(i); }
      at := now;
      if ShouldRestart(rules.policy, containers[i].state) {
        looping := IsCrashLooping();
        at := now;
        if !looping { ScheduleRestart(i); }
      }
    }

    /** tick's loop has dealt with the first `n` of the containers `cs`, and when `looping`
        it has also found the window full at the next one, which is due. */
    ghost predicate Ticking(cs: seq<Container>, from: int, times: seq<int>, ats: seq<int>, n: nat, looping: bool)
      reads this
    {
      && TickedUpTo(rules.policy, from, now, cs, containers, n) && from <= now
      && (forall k :: 0 <= k < |ats| ==> from <= ats[k] <= now)
      && (looping ==> n < |cs| && ShouldRestart(rules.policy, cs[n].state))
      && var due := Due(rules.policy, cs, if looping then n + 1 else n);
         |ats| == |due| && Checked(rules.maxRestarts, due, times, scheduled, ats, looping)
    }

    method TickNext(i: nat, ghost cs: seq<Container>, ghost from: int, ghost times: seq<int>, ghost ats: seq<int>)
      returns (looping: bool, ghost more: seq<int>)
      requires Valid() && i < |cs| && Ticking(cs, from, times, ats, i, false)
      modifies `containers, `restartTimes, `children, `now, `patience, `scheduled, `run, `acts
      ensures Valid() && old(run) <= run && Ticking(cs, from, times, more, if looping then i else i + 1, looping)
    {
      ghost var at, ds, before, clock := from, containers, scheduled, now;
      looping, at := TickContainer(i, from);
      more := ats;
      if ShouldRestart(rules.policy, cs[i].state) {
        CheckMade(rules.maxRestarts, Due(rules.policy, cs, i), i, times, before, scheduled, ats, at, looping);
        more := ats + [at];
      }
      if !looping { TickedGrows(rules.policy, from, clock, now, cs, ds, i, containers[i]); }
    }

    /** tick's loop, up to stop_all. It checks the due containers in order, the k-th at
        `ats[k]`; every check but the last is followed by a restart, and the loop breaks off
        exactly at the first one that finds the window full. */
    method TickContainers() returns (looping: bool, ghost ats: seq<int>)
      requires Valid()
      modifies `containers, `restartTimes, `children, `now, `patience, `scheduled, `run, `acts
      ensures Valid() && old(run) <= run && old(now) <= now && |containers| == old(|containers|)
      ensures var due := Due(rules.policy, old(containers), |containers|);
              && Checked(rules.maxRestarts, due, old(scheduled), scheduled, ats, looping)
              && TickedUpTo(rules.policy, old(now), now, old(containers), containers,
                            if looping then due[|ats| - 1] else |containers|)
      ensures forall k :: 0 <= k < |ats| ==> old(now) <= ats[k] <= now
    {
      ghost var cs, from, times := containers, now, scheduled;
      looping, ats := false, [];
      for i := 0 to |containers|
        invariant Valid() && old(run) <= run && |cs| == |containers| && !looping
        invariant Ticking(cs, from, times, ats, i, false)
      {
        looping, ats := TickNext(i, cs, from, times, ats);
        if looping {
          DueGrows(rules.policy, cs, i + 1, |cs|);
          return;
        }
      }
    }

    /** One tick: reap, then tick the containers, and stop all of them at once exactly if
        a check finds the window full. `es` are the exits reaped, from which the checks
        start at `from`; `ats` are the times of the checks, and `mid` the containers after them. */
    method Tick() returns (
        ok: bool, crashed: bool, ghost es: seq<Event>, ghost from: int, ghost ats: seq<int>, ghost mid: seq<Container>)
      requires Valid()
      modifies `containers, `restartTimes, `log, `children, `now, `patience, `scheduled, `run, `acts
      ensures Valid() && old(run) <= run && old(now) <= from <= now && |containers| == old(|containers|)
      ensures ExitsFit(old(containers), es)
      ensures !ok && !crashed ==> scheduled == old(scheduled) && containers == AfterExits(old(containers), es)
      ensures ok || crashed ==>
        var cs := AfterExits(old(containers), es);
        var due := Due(rules.policy, cs, |cs|);
        && Checked(rules.maxRestarts, due, old(scheduled), scheduled, ats, crashed)
        && (forall k :: 0 <= k < |ats| ==> from <= ats[k] <= now)
        && TickedUpTo(rules.policy, from, now, cs, mid, if crashed then due[|ats| - 1] else |cs|)
      ensures ok && !crashed ==> containers == mid && log == old(log) + es
      ensures ok && crashed ==>
        && log == old(log) + es + ForgetLog(AfterExits(old(containers), es), |containers|) + [PodExit]
        && |mid| == |containers| && containers == Forgotten(mid, |mid|) && AllExited(containers)
        && children.Keys - Recorded(containers) == children.Keys
    {
      crashed, ats := false, [];
      ok, es := ReapExitedProcesses();
      from, mid := now, containers;
      if !ok { return; }
      crashed, ats := TickContainers();
      mid := containers;
      if crashed {
        ForgetLogSame(containers, AfterExits(old(containers), es), |containers|);
        ok := StopAll();
      }
    }

    // -------------------------------------------------------------- graceful stop

    /** Log and send `signal` to every container that records a process, in order. */
    method ForwardAll(signal: nat) returns (ok: bool)
      requires Valid()
      modifies `log, `kills, `run, `acts
      ensures Valid() && old(run) <= run && old(log) <= log
      ensures ok ==> log == old(log) + Forwards(containers, |containers|, signal)
      ensures ok ==> kills == old(kills) + KillCalls(containers, |containers|, signal)
      ensures ok ==> SignalsAll(containers, signal, log[old(|log|)..], kills[old(|kills|)..])
    {
      for i := 0 to |containers|
        invariant Valid() && old(run) <= run
        invariant log == old(log) + Forwards(containers, i, signal)
        invariant kills == old(kills) + KillCalls(containers, i, signal)
      {
        if containers[i].pid.Some? {
          ok := LogEvent(SignalForward(signal, i));
          if !ok { return; }
          ValidInv();
          kills := kills + [Kill(containers[i].pid.value, signal, containers[i].pid.value in children)];
          Record(Forward(i, signal));
        }
      }
      ForwardsAreExact(containers, signal);
      ok := true;
    }

    /** Reap once more: the exits since `cs` are then `fs`, which extends `es`. */
    method ReapRound(ghost cs: seq<Container>, ghost es: seq<Event>)
      returns (ok: bool, allExited: bool, ghost fs: seq<Event>)
      requires Valid() && ExitsFit(cs, es) && containers == AfterExits(cs, es)
      modifies `containers, `log, `children, `now, `patience, `run, `acts
      ensures Valid() && old(run) <= run && old(log) <= log && old(now) <= now
      ensures es <= fs && ExitsFit(cs, fs) && containers == AfterExits(cs, fs)
      ensures ok ==> log == old(log) + fs[|es|..]
      ensures allExited <==> AllExited(containers)
    {
      ghost var more;
      ok, more := ReapExitedProcesses();
      ExitsJoin(cs, es, more);
      fs := es + more;
      allExited := AllExited(containers);
    }

    /** Reap again and again until every container has exited or `timeout` has passed. */
    method AwaitExits(timeout: int) returns (ok: bool, allExited: bool, ghost es: seq<Event>)
      requires Valid()
      modifies `containers, `log, `children, `now, `patience, `run, `acts
      ensures Valid() && old(run) <= run && old(log) <= log && old(now) <= now
      ensures ExitsFit(old(containers), es) && containers == AfterExits(old(containers), es)
      ensures ok ==> log == old(log) + es
      ensures ok && allExited ==> AllExited(containers)
      ensures ok && !allExited ==> now >= old(now) + timeout
    {
      ghost var cs, told := containers, log;
      ok, allExited, es := true, false, [];
      Elapse(0);
      var start := now;
      var elapsed := 0;
      while elapsed < timeout
        invariant Valid() && old(run) <= run && old(now) <= start && ok && !allExited
        invariant elapsed <= now - start
        invariant ExitsFit(cs, es) && containers == AfterExits(cs, es) && log == told + es
        decreases timeout - elapsed
      {
        ok, allExited, es := ReapRound(cs, es);
        if !ok || allExited { return; }
        Elapse(POLL);
        elapsed := now - start;
      }
    }

    /** Reap until every container has exited, or for ten polls of a tenth of a second. */
    method AwaitKills() returns (ok: bool, ghost es: seq<Event>)
      requires Valid()
      modifies `containers, `log, `children, `now, `patience, `run, `acts
      ensures Valid() && old(run) <= run && old(log) <= log && old(now) <= now
      ensures ExitsFit(old(containers), es) && containers == AfterExits(old(containers), es)
      ensures ok ==> log == old(log) + es && (AllExited(containers) || now >= old(now) + 1_000_000_000)
    {
      ghost var cs, told := containers, log;
      ok, es := true, [];
      for round := 0 to KILL_ROUNDS
        invariant Valid() && old(run) <= run && now >= old(now) + round * POLL && ok
        invariant ExitsFit(cs, es) && containers == AfterExits(cs, es) && log == told + es
      {
        var allExited;
        ok, allExited, es := ReapRound(cs, es);
        if !ok || allExited { return; }
        Elapse(POLL);
      }
    }

    /** After the timeout: SIGKILL to what is left, and a last second of reaping. A process
        that is still recorded then has been sent SIGKILL. */
    method KillRest() returns (ok: bool, ghost fs: seq<Event>)
      requires Valid()
      modifies `containers, `log, `children, `now, `patience, `kills, `run, `acts
      ensures Valid() && old(run) <= run && old(log) <= log && old(now) <= now
      ensures ExitsFit(old(containers), fs) && containers == AfterExits(old(containers), fs)
      ensures ok ==>
        && (AllExited(containers) || now >= old(now) + 1_000_000_000)
        && log == old(log) + [PodTimeout] + Forwards(old(containers), |containers|, SIGKILL) + fs
        && kills == old(kills) + KillCalls(old(containers), |containers|, SIGKILL)
      ensures var cs := old(containers);
              SignalsAll(cs, SIGKILL, Forwards(cs, |cs|, SIGKILL), KillCalls(cs, |cs|, SIGKILL))
      ensures ok ==> forall i :: 0 <= i < |containers| && containers[i].pid.Some? ==>
        Kill(containers[i].pid.value, SIGKILL, true) in kills
    {
      fs := [];
      ForwardsAreExact(containers, SIGKILL);
      ok := LogEvent(PodTimeout);
      if !ok { return; }
      ok := ForwardAll(SIGKILL);
      if !ok { return; }
      ghost var left := containers;
      ok, fs := AwaitKills();
      forall i | 0 <= i < |containers| && containers[i].pid.Some?
        ensures Kill(containers[i].pid.value, SIGKILL, true) in KillCalls(left, |left|, SIGKILL)
      {
        ExitsEndOnce(left, fs, i);
        CallsReachAll(left, |left|, SIGKILL, i);
      }
    }

    /** The request, and SIGTERM to every recorded process. */
    method TellAll() returns (ok: bool)
      requires Valid()
      modifies `log, `kills, `run, `acts
      ensures Valid() && old(run) <= run && old(log) <= log
      ensures ok ==>
        && log == old(log) + [PodStopRequested] + Forwards(containers, |containers|, SIGTERM)
        && kills == old(kills) + KillCalls(containers, |containers|, SIGTERM)
      ensures SignalsAll(
        containers, SIGTERM, Forwards(containers, |containers|, SIGTERM), KillCalls(containers, |containers|, SIGTERM))
    {
      ForwardsAreExact(containers, SIGTERM);
      ok := LogEvent(PodStopRequested);
      if !ok { return; }
      ok := ForwardAll(SIGTERM);
    }

    /** A completed graceful stop: SIGTERM to every recorded process, the exits within the
        timeout `es`, and, if some are left, SIGKILL to exactly those and the exits `fs`
        of at least one more second or until all have exited; POD_EXIT ends the log. What
        each round logs and sends is spelled out by SignalsAll. */
    method StopGraceful(timeout: int)
      returns (ok: bool, ghost timedOut: bool, ghost es: seq<Event>, ghost fs: seq<Event>)
      requires Valid()
      modifies `containers, `log, `children, `now, `patience, `kills, `run, `acts
      ensures Valid() && old(run) <= run
      ensures ExitsFit(old(containers), es) && ExitsFit(AfterExits(old(containers), es), fs)
      ensures containers == AfterExits(AfterExits(old(containers), es), fs)
      ensures ok && !timedOut ==>
        && AllExited(containers) && fs == []
        && log == old(log) + [PodStopRequested] + Forwards(old(containers), |containers|, SIGTERM) + es + [PodExit]
        && kills == old(kills) + KillCalls(old(containers), |containers|, SIGTERM)
      ensures ok && timedOut ==>
        var left := AfterExits(old(containers), es);
        && now >= old(now) + timeout
        && (AllExited(containers) || now >= old(now) + timeout + 1_000_000_000)
        && log == old(log) + [PodStopRequested] + Forwards(old(containers), |containers|, SIGTERM) + es
                  + [PodTimeout] + Forwards(left, |left|, SIGKILL) + fs + [PodExit]
        && kills == old(kills) + KillCalls(old(containers), |containers|, SIGTERM) + KillCalls(left, |left|, SIGKILL)
      ensures ok ==> forall i :: 0 <= i < |containers| && containers[i].pid.Some? ==>
        Kill(containers[i].pid.value, SIGKILL, true) in kills
      ensures ok ==>
        var cs := old(containers);
        SignalsAll(cs, SIGTERM, Forwards(cs, |cs|, SIGTERM), KillCalls(cs, |cs|, SIGTERM))
      ensures ok && timedOut ==>
        var left := AfterExits(old(containers), es);
        SignalsAll(left, SIGKILL, Forwards(left, |left|, SIGKILL), KillCalls(left, |left|, SIGKILL))
    {
      timedOut, es, fs := false, [], [];
      ok := TellAll();
      if !ok { return; }
      var allExited;
      ok, allExited, es := AwaitExits(timeout);
      if !ok { return; }
      timedOut := !allExited;
      if !allExited {
        ok, fs := KillRest();
        if !ok { return; }
      }
      ok := CleanupAfterStop();
    }

    // -------------------------------------------------------------- exit code

    function GetExitCode(): int
      reads this
    {
      if containers == [] then 0 else
        match containers[0].state
        case Ended(code) => code
        case Failed => 1
        case _ => 0
    }

    /** The pod's exit code is the code with which the primary container ended, or 0 as long as
        it has not; so a nonzero one is how that container last ended, and it is not running again. */
    lemma ExitCodeIsPrimary()
      requires Valid()
      ensures GetExitCode() ==
        if containers != [] && containers[0].state.Ended? then containers[0].state.code else 0
      ensures GetExitCode() != 0 <==>
        && containers != [] && containers[0].state.Ended?
        && containers[0].story != [] && containers[0].story[|containers[0].story| - 1] == Over(GetExitCode())
        && containers[0].story[|containers[0].story| - 1] != Over(0)
    {
      ValidInv();
      if containers != [] { assert ContainerInv(rules.policy, containers[0]); }
    }
  }

  /** Every process that gets SIGKILL in the second phase got SIGTERM in the first. */
  lemma {:induction false} KilledWereTold(cs: seq<Container>, es: seq<Event>, n: nat, k: Kill)
    requires ExitsFit(cs, es) && n <= |cs| && k in KillCalls(AfterExits(cs, es), n, SIGKILL)
    ensures Kill(k.pid, SIGTERM, true) in KillCalls(cs, n, SIGTERM)
  {
    if k !in KillCalls(AfterExits(cs, es), n - 1, SIGKILL) {
      ExitsEndOnce(cs, es, n - 1);
    } else {
      KilledWereTold(cs, es, n - 1, k);
    }
  }
}
