/** The pod supervisor's invariant, and its proof over every run. */
module PodSafety {
  import opened Options
  import opened Processes
  import opened Pod

  // ---------------------------------------------------------------- one container

  function PowerOfTwo(n: nat): nat {
    if n == 0 then 1 else 2 * PowerOfTwo(n - 1)
  }

  /** The delay, in seconds, after `n` restarts in a row. */
  function DelayAfter(n: nat): nat {
    if PowerOfTwo(n) < 30 then PowerOfTwo(n) else 30
  }

  predicate MayRestartAfter(policy: RestartPolicy, code: int) {
    match policy
    case Never => false
    case OnFailure => code != 0
    case Always => true
  }

  /** Forks and ends take turns, and every fork after the first follows an end
      after which the policy allows a restart. */
  predicate WellTold(policy: RestartPolicy, story: seq<Turn>) {
    && (forall k :: 0 <= k < |story| ==> (story[k].Begun? <==> k % 2 == 0))
    && (forall k :: 0 < k < |story| && story[k].Begun? && story[k - 1].Over? ==>
          MayRestartAfter(policy, story[k - 1].code))
  }

  /** The next fork of a container with this story would be well told. */
  predicate MayBegin(policy: RestartPolicy, story: seq<Turn>) {
    |story| % 2 == 0 && (story != [] ==> story[|story| - 1].Over? && MayRestartAfter(policy, story[|story| - 1].code))
  }

  predicate ContainerInv(policy: RestartPolicy, c: Container) {
    && WellTold(policy, c.story)
    && c.backoff == DelayAfter(c.restartCount)
    && (c.pid.Some? <==> c.state.Running?)
    && match c.state
       case Fresh => c.story == []
       case Starting => MayBegin(policy, c.story)
       case Running => |c.story| % 2 == 1 && c.pid == Some(c.story[|c.story| - 1].pid)
       case Ended(code) => |c.story| % 2 == 0 && c.story != [] && c.story[|c.story| - 1] == Over(code)
       case Failed => false
       case Backoff(seconds) => c.story != [] && MayBegin(policy, c.story) && seconds == c.backoff && c.restartCount > 0
  }

  // ---------------------------------------------------------------- the pod

  predicate PidsInv(p: Pod) {
    && (forall i :: 0 <= i < |p.containers| && p.containers[i].pid.Some? ==> p.containers[i].pid.value in p.children)
    && (forall i, j :: 0 <= i < j < |p.containers| && p.containers[i].pid.Some? ==>
          p.containers[i].pid != p.containers[j].pid)
    && (forall k :: 0 <= k < |p.kills| ==> p.kills[k].unreaped)
  }

  predicate Sorted(times: seq<int>) {
    forall i, j :: 0 <= i < j < |times| ==> times[i] <= times[j]
  }

  /** `restarts` is what is left of `scheduled` after dropping times that no later
      check counts; and any `max + 1` restarts in a row span a whole window. */
  predicate RestartsInv(max: nat, scheduled: seq<int>, restarts: seq<int>, now: int) {
    && Sorted(scheduled)
    && (forall k :: 0 <= k < |scheduled| ==> scheduled[k] <= now)
    && |restarts| <= |scheduled| && |restarts| <= max
    && restarts == scheduled[|scheduled| - |restarts|..]
    && (forall k :: 0 <= k < |scheduled| - |restarts| ==> scheduled[k] <= now - WINDOW)
    && (forall k :: max <= k < |scheduled| ==> scheduled[k] - scheduled[k - max] >= WINDOW)
  }

  function TurnOf(e: Event, i: nat): seq<Turn> {
    match e
    case ContainerForked(index, pid) => if index == i then [Begun(pid)] else []
    case ContainerExit(index, code) => if index == i then [Over(code)] else []
    case _ => []
  }

  /** What a log says about container `i`. */
  function Told(log: seq<Event>, i: nat): seq<Turn> {
    if log == [] then [] else Told(log[..|log| - 1], i) + TurnOf(log[|log| - 1], i)
  }

  function StoryOf(cs: seq<Container>, i: nat): seq<Turn> {
    if i < |cs| then cs[i].story else []
  }

  ghost predicate LogInv(p: Pod) {
    forall i: nat :: Told(p.log, i) == StoryOf(p.containers, i)
  }

  ghost predicate Inv(r: Rules, p: Pod) {
    && (forall i :: 0 <= i < |p.containers| ==> ContainerInv(r.policy, p.containers[i]))
    && PidsInv(p)
    && RestartsInv(r.maxRestarts, p.scheduled, p.restarts, p.now)
    && (r.workingStore ==> LogInv(p))
  }

  // ---------------------------------------------------------------- containers

  lemma StoryGrows(policy: RestartPolicy, story: seq<Turn>, t: Turn)
    requires WellTold(policy, story)
    requires if t.Begun? then MayBegin(policy, story) else |story| % 2 == 1
    ensures WellTold(policy, story + [t])
  {
  }

  lemma BegunKeeps(policy: RestartPolicy, c: Container, pid: int)
    requires ContainerInv(policy, c) && c.state.Starting?
    ensures ContainerInv(policy, c.ForkedAs(pid))
  {
    StoryGrows(policy, c.story, Begun(pid));
  }

  lemma FinishedKeeps(policy: RestartPolicy, c: Container, code: int)
    requires ContainerInv(policy, c) && c.pid.Some?
    ensures ContainerInv(policy, c.Finished(code))
  {
    StoryGrows(policy, c.story, Over(code));
  }

  lemma BackoffKeeps(policy: RestartPolicy, c: Container)
    requires ContainerInv(policy, c) && ShouldRestart(policy, c.state)
    ensures ContainerInv(policy, c.BackedOff())
  {
  }

  lemma ContainersKeep(r: Rules, p: Pod, a: Action, i: nat)
    requires Inv(r, p) && Can(r, p, a) && i < |p.containers|
    ensures ContainerInv(r.policy, Do(r, p, a).containers[i])
  {
    var c := p.containers[i];
    match a
    case Fork(j, pid, _) =>
      if j == i { BegunKeeps(r.policy, c, pid); }
    case Reap(pid, _) =>
      if Holder(p.containers, pid) == i { FinishedKeeps(r.policy, c, CodeOf(p.children[pid].status)); }
    case Forget(j, _) =>
      if j == i { FinishedKeeps(r.policy, c, 0); }
    case Schedule(j) =>
      if j == i { BackoffKeeps(r.policy, c); }
    case _ =>
  }

  // ---------------------------------------------------------------- process identifiers

  /** At most one container records a process, so the one found is the only one. */
  lemma HolderIsUnique(p: Pod, pid: int, j: nat)
    requires PidsInv(p) && j < |p.containers| && p.containers[j].pid == Some(pid)
    ensures Holder(p.containers, pid) == j
  {
  }

  lemma PidsKeep(r: Rules, p: Pod, a: Action)
    requires Inv(r, p) && Can(r, p, a)
    ensures PidsInv(Do(r, p, a))
  {
  }

  // ---------------------------------------------------------------- restarts

  /** How many of the first times are outside the window. */
  function Stale(times: seq<int>, now: int): (d: nat)
    ensures d <= |times| && (d < |times| ==> times[d] > now - WINDOW)
    ensures forall k :: 0 <= k < d ==> times[k] <= now - WINDOW
  {
    if times == [] || times[0] > now - WINDOW then 0 else 1 + Stale(times[1..], now)
  }

  /** Dropping a prefix that is outside the window does not change what is recent. */
  lemma {:induction false} RecentSkips(times: seq<int>, d: nat, now: int)
    requires d <= |times| && forall k :: 0 <= k < d ==> times[k] <= now - WINDOW
    ensures Recent(times[d..], now) == Recent(times, now)
  {
    if d > 0 {
      RecentSkips(times[1..], d - 1, now);
      assert times[1..][d - 1..] == times[d..];
    } else {
      assert times[d..] == times;
    }
  }

  lemma {:induction false} RecentKeepsAll(times: seq<int>, now: int)
    requires forall k :: 0 <= k < |times| ==> times[k] > now - WINDOW
    ensures Recent(times, now) == times
  {
    if times != [] {
      RecentKeepsAll(times[1..], now);
      assert [times[0]] + times[1..] == times;
    }
  }

  lemma FreshFrom(times: seq<int>, now: int, k: nat)
    requires Sorted(times) && Stale(times, now) <= k < |times|
    ensures times[k] > now - WINDOW
  {
    var d := Stale(times, now);
    assert d < k ==> times[d] <= times[k];
  }

  /** On sorted times, pruning drops exactly the stale prefix. */
  lemma RecentIsSuffix(times: seq<int>, now: int)
    requires Sorted(times)
    ensures Recent(times, now) == times[Stale(times, now)..]
  {
    var d := Stale(times, now);
    var rest := times[d..];
    forall k | 0 <= k < |rest| ensures rest[k] > now - WINDOW {
      FreshFrom(times, now, d + k);
    }
    RecentSkips(times, d, now);
    RecentKeepsAll(rest, now);
  }

  lemma SuffixIsSorted(times: seq<int>, d: nat)
    requires Sorted(times) && d <= |times|
    ensures Sorted(times[d..])
  {
  }

  lemma StaleIsOld(times: seq<int>, d: nat, k: nat, now: int)
    requires d <= |times| && d <= k < d + Stale(times[d..], now)
    ensures times[k] <= now - WINDOW
  {
    assert times[k] == times[d..][k - d];
  }

  lemma PrunedIsSuffix(times: seq<int>, d: nat, now: int)
    requires Sorted(times) && d <= |times|
    ensures Recent(times[d..], now) == times[d + Stale(times[d..], now)..]
  {
    SuffixIsSorted(times, d);
    RecentIsSuffix(times[d..], now);
    assert times[d..][Stale(times[d..], now)..] == times[d + Stale(times[d..], now)..];
  }

  lemma PruneKeeps(max: nat, scheduled: seq<int>, restarts: seq<int>, now: int)
    requires RestartsInv(max, scheduled, restarts, now)
    ensures RestartsInv(max, scheduled, Recent(restarts, now), now)
  {
    var d := |scheduled| - |restarts|;
    PrunedIsSuffix(scheduled, d, now);
    var e := d + Stale(scheduled[d..], now);
    forall k | d <= k < e ensures scheduled[k] <= now - WINDOW {
      StaleIsOld(scheduled, d, k, now);
    }
    assert |Recent(restarts, now)| == |scheduled| - e;
  }

  lemma ScheduleKeeps(max: nat, scheduled: seq<int>, restarts: seq<int>, now: int)
    requires RestartsInv(max, scheduled, restarts, now) && |restarts| < max
    ensures RestartsInv(max, scheduled + [now], restarts + [now], now)
  {
    var s, t := scheduled + [now], restarts + [now];
    assert t == s[|s| - |t|..];
    forall k | max <= k < |s| ensures s[k] - s[k - max] >= WINDOW {
      if k == |scheduled| { assert k - max < |scheduled| - |restarts|; }
    }
  }

  lemma RestartsKeep(r: Rules, p: Pod, a: Action)
    requires Inv(r, p) && Can(r, p, a)
    ensures var q := Do(r, p, a); RestartsInv(r.maxRestarts, q.scheduled, q.restarts, q.now)
  {
    match a
    case Prune => PruneKeeps(r.maxRestarts, p.scheduled, p.restarts, p.now);
    case Schedule(_) => ScheduleKeeps(r.maxRestarts, p.scheduled, p.restarts, p.now);
    case _ =>
  }

  // ---------------------------------------------------------------- the log

  lemma ToldOne(log: seq<Event>, e: Event, i: nat)
    ensures Told(log + [e], i) == Told(log, i) + TurnOf(e, i)
  {
    assert (log + [e])[..|log|] == log;
  }

  /** An event that tells a container's new turn. */
  lemma TurnIsTold(log: seq<Event>, cs: seq<Container>, j: nat, c: Container, e: Event, i: nat)
    requires j < |cs| && (e.ContainerForked? || e.ContainerExit?) && e.index == j
    requires Told(log, i) == StoryOf(cs, i) && c.story == cs[j].story + TurnOf(e, j)
    ensures Told(log + [e], i) == StoryOf(cs[j := c], i)
  {
    ToldOne(log, e, i);
  }

  /** A step of one container that is no turn. */
  lemma NoTurnTold(log: seq<Event>, cs: seq<Container>, j: nat, c: Container, i: nat)
    requires j < |cs| && c.story == cs[j].story && Told(log, i) == StoryOf(cs, i)
    ensures Told(log, i) == StoryOf(cs[j := c], i)
  {
  }

  lemma LogKeepsAt(r: Rules, p: Pod, a: Action, i: nat)
    requires Can(r, p, a) && r.workingStore && Told(p.log, i) == StoryOf(p.containers, i)
    ensures Told(Do(r, p, a).log, i) == StoryOf(Do(r, p, a).containers, i)
  {
    var cs := p.containers;
    match a
    case Start(j) => NoTurnTold(p.log, cs, j, cs[j].StartingAt(p.now), i);
    case Settle(j) => NoTurnTold(p.log, cs, j, cs[j].Settled(), i);
    case Schedule(j) => NoTurnTold(p.log, cs, j, cs[j].BackedOff(), i);
    case Fork(j, pid, _) => TurnIsTold(p.log, cs, j, cs[j].ForkedAs(pid), ContainerForked(j, pid), i);
    case Reap(pid, _) =>
      var j, code := Holder(cs, pid), CodeOf(p.children[pid].status);
      if j < |cs| { TurnIsTold(p.log, cs, j, cs[j].Finished(code), ContainerExit(j, code), i); }
      else { assert p.log + [] == p.log; }
    case Forget(j, _) => TurnIsTold(p.log, cs, j, cs[j].Finished(0), ContainerExit(j, 0), i);
    case Append(event, _) => ToldOne(p.log, event, i);
    case _ =>
  }

  lemma LogKeeps(r: Rules, p: Pod, a: Action)
    requires LogInv(p) && Can(r, p, a) && r.workingStore
    ensures LogInv(Do(r, p, a))
  {
    forall i: nat
      ensures Told(Do(r, p, a).log, i) == StoryOf(Do(r, p, a).containers, i)
    {
      LogKeepsAt(r, p, a, i);
    }
  }

  // ---------------------------------------------------------------- every run

  lemma StepKeepsInv(r: Rules, p: Pod, a: Action)
    requires Inv(r, p) && Can(r, p, a)
    ensures Inv(r, Do(r, p, a))
  {
    forall i | 0 <= i < |p.containers| ensures ContainerInv(r.policy, Do(r, p, a).containers[i]) {
      ContainersKeep(r, p, a, i);
    }
    PidsKeep(r, p, a);
    RestartsKeep(r, p, a);
    if r.workingStore { LogKeeps(r, p, a); }
  }

  lemma InitInv(r: Rules, p: Pod)
    requires Init(p)
    ensures Inv(r, p)
  {
    forall i: nat ensures Told(p.log, i) == StoryOf(p.containers, i) {}
  }

  lemma {:induction false} RunKeepsInv(r: Rules, run: seq<Pod>, acts: seq<Action>, n: nat)
    requires IsRun(r, run, acts) && n <= |acts|
    ensures Inv(r, run[n])
  {
    if n == 0 {
      InitInv(r, run[0]);
    } else {
      RunKeepsInv(r, run, acts, n - 1);
      StepKeepsInv(r, run[n - 1], acts[n - 1]);
    }
  }
}
