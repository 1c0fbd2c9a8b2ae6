/** What the pod supervisor guarantees in every state of every run. */
module PodTheorems {
  import opened Options
  import opened Processes
  import opened Pod
  import opened PodSafety

  ghost predicate Reachable(r: Rules, p: Pod) {
    exists run, acts :: IsRun(r, run, acts) && run[|acts|] == p
  }

  lemma ReachableInv(r: Rules, p: Pod)
    requires Reachable(r, p)
    ensures Inv(r, p)
  {
    var run, acts :| IsRun(r, run, acts) && run[|acts|] == p;
    RunKeepsInv(r, run, acts, |acts|);
  }

  // ---------------------------------------------------------------- crash loops

  /** The restarts, by position, that fall into the half-open window from `t`. */
  ghost function RestartsIn(p: Pod, t: int): set<nat> {
    set k: nat | k < |p.scheduled| && t <= p.scheduled[k] < t + 600_000_000_000
  }

  lemma {:induction false} IntervalCard(s: set<nat>, low: nat, n: nat)
    requires forall k :: k in s ==> low <= k < low + n
    ensures |s| <= n
  {
    if n == 0 {
      assert s == {};
    } else {
      var last := low + n - 1;
      IntervalCard(s - {last}, low, n - 1);
      assert s == s - {last} || s == (s - {last}) + {last};
    }
  }

  /** The position of the first time that is not before `t`, or the number of times. */
  function FirstFrom(times: seq<int>, t: int): (k: nat)
    ensures k <= |times| && (k < |times| ==> times[k] >= t)
    ensures forall j :: 0 <= j < k ==> times[j] < t
  {
    if times == [] || times[0] >= t then 0 else 1 + FirstFrom(times[1..], t)
  }

  lemma FarApart(r: Rules, p: Pod, i: nat, j: nat)
    requires Inv(r, p) && i + r.maxRestarts <= j < |p.scheduled|
    ensures p.scheduled[j] - p.scheduled[i] >= WINDOW
  {
    assert p.scheduled[j] - p.scheduled[j - r.maxRestarts] >= WINDOW;
  }

  /** However many containers fail and however often the list is pruned, no window
      of ten minutes holds more restarts than the limit. */
  lemma RestartRateIsBounded(r: Rules, p: Pod, t: int)
    requires Reachable(r, p)
    ensures |RestartsIn(p, t)| <= r.maxRestarts
  {
    ReachableInv(r, p);
    var max, k := r.maxRestarts, FirstFrom(p.scheduled, t);
    forall j | j in RestartsIn(p, t) ensures k <= j < k + max {
      if j >= k + max { FarApart(r, p, k, j); }
    }
    IntervalCard(RestartsIn(p, t), k, max);
  }

  /** The pruned list answers every later crash-loop check as the full history would. */
  lemma PruningLosesNothing(r: Rules, p: Pod, now: int)
    requires Reachable(r, p) && p.now <= now
    ensures Recent(p.restarts, now) == Recent(p.scheduled, now)
    ensures |p.restarts| <= r.maxRestarts && Sorted(p.restarts)
  {
    ReachableInv(r, p);
    RecentSkips(p.scheduled, |p.scheduled| - |p.restarts|, now);
  }

  /** The restarts, by position, scheduled less than ten minutes before `now`. */
  ghost function RestartsSince(times: seq<int>, now: int): set<nat> {
    set k: nat | k < |times| && now - times[k] < 600_000_000_000
  }

  lemma {:induction false} RecentCounts(times: seq<int>, now: int)
    ensures |Recent(times, now)| == |RestartsSince(times, now)|
  {
    if times == [] {
      assert RestartsSince(times, now) == {};
    } else {
      var n, s := |times| - 1, RestartsSince(times, now);
      RecentOfLast(times[..n], times[n], now);
      assert times == times[..n] + [times[n]];
      RecentCounts(times[..n], now);
      assert s == RestartsSince(times[..n], now) + if now - times[n] < 600_000_000_000 then {n} else {};
    }
  }

  lemma {:induction false} RecentOfLast(times: seq<int>, last: int, now: int)
    ensures Recent(times + [last], now) == Recent(times, now) + if last > now - WINDOW then [last] else []
  {
    if times != [] {
      assert (times + [last])[1..] == times[1..] + [last];
      RecentOfLast(times[1..], last, now);
    }
  }

  // ---------------------------------------------------------------- processes

  /** A container records a process iff it is running; no two record the same one;
      and each recorded process is a child not yet reaped. */
  lemma PidsAreCoherent(r: Rules, p: Pod, i: nat, j: nat)
    requires Reachable(r, p) && i < |p.containers| && j < |p.containers|
    ensures p.containers[i].pid.Some? <==> p.containers[i].state.Running?
    ensures p.containers[i].pid.Some? ==> p.containers[i].pid.value in p.children
    ensures p.containers[i].pid.Some? && p.containers[i].pid == p.containers[j].pid ==> i == j
  {
    ReachableInv(r, p);
    assert ContainerInv(r.policy, p.containers[i]);
  }

  /** No signal of either phase of a shutdown ever goes to a reaped process. */
  lemma SignalsHitChildren(r: Rules, p: Pod, k: nat)
    requires Reachable(r, p) && k < |p.kills|
    ensures p.kills[k].unreaped
  {
    ReachableInv(r, p);
  }

  // ---------------------------------------------------------------- forks and exits

  function Forks(log: seq<Event>, i: nat): nat {
    if log == [] then 0
    else Forks(log[..|log| - 1], i) + (if log[|log| - 1].ContainerForked? && log[|log| - 1].index == i then 1 else 0)
  }

  function Exits(log: seq<Event>, i: nat): nat {
    if log == [] then 0
    else Exits(log[..|log| - 1], i) + (if log[|log| - 1].ContainerExit? && log[|log| - 1].index == i then 1 else 0)
  }

  lemma {:induction false} CountsOf(log: seq<Event>, i: nat)
    requires WellTold(Always, Told(log, i))
    ensures Forks(log, i) == (|Told(log, i)| + 1) / 2 && Exits(log, i) == |Told(log, i)| / 2
  {
    if log != [] {
      var before, e := log[..|log| - 1], log[|log| - 1];
      assert Told(log, i) == Told(before, i) + TurnOf(e, i);
      forall k | 0 <= k < |Told(before, i)| ensures Told(before, i)[k] == Told(log, i)[k] {}
      CountsOf(before, i);
      assert TurnOf(e, i) != [] ==> Told(log, i)[|Told(before, i)|] == TurnOf(e, i)[0];
    }
  }

  /** With a store that keeps every event, the log has one fork more than exits for
      a running container and as many of both for any other. */
  lemma ForksAndExitsBalance(r: Rules, p: Pod, i: nat)
    requires Reachable(r, p) && r.workingStore && i < |p.containers|
    ensures Forks(p.log, i) - Exits(p.log, i) == if p.containers[i].state.Running? then 1 else 0
  {
    ReachableInv(r, p);
    assert ContainerInv(r.policy, p.containers[i]);
    assert Told(p.log, i) == p.containers[i].story;
    CountsOf(p.log, i);
  }

  /** The log of such a store tells each container's story and nothing else. */
  lemma LogTellsEveryStory(r: Rules, p: Pod, i: nat)
    requires Reachable(r, p) && r.workingStore
    ensures Told(p.log, i) == StoryOf(p.containers, i)
  {
    ReachableInv(r, p);
  }

  // ---------------------------------------------------------------- backoff and policy

  /** The delay is two to the number of restarts in a row, at most thirty seconds. */
  lemma BackoffIsExact(r: Rules, p: Pod, i: nat)
    requires Reachable(r, p) && i < |p.containers|
    ensures var c := p.containers[i]; c.backoff == DelayAfter(c.restartCount)
    ensures var c := p.containers[i];
            c.state.Backoff? ==> c.restartCount > 0 && c.state.seconds == DelayAfter(c.restartCount)
  {
    ReachableInv(r, p);
    assert ContainerInv(r.policy, p.containers[i]);
  }

  lemma SecondForkIsRestart(policy: RestartPolicy, story: seq<Turn>)
    requires WellTold(policy, story) && |story| > 2
    ensures story[1].Over? && MayRestartAfter(policy, story[1].code)
  {
    assert story[2].Begun?;
  }

  lemma NeverMeansOnce(r: Rules, p: Pod, i: nat)
    requires Reachable(r, p) && r.policy.Never? && i < |p.containers|
    ensures !p.containers[i].state.Backoff? && |p.containers[i].story| <= 2
    ensures r.workingStore ==> Forks(p.log, i) <= 1
  {
    ReachableInv(r, p);
    var story := p.containers[i].story;
    assert ContainerInv(r.policy, p.containers[i]);
    if |story| > 2 { SecondForkIsRestart(r.policy, story); }
    if r.workingStore {
      assert Told(p.log, i) == story;
      CountsOf(p.log, i);
    }
  }

  /** Under OnFailure every restart, pending or done, follows a nonzero exit code. */
  lemma OnFailureRestartsFailures(r: Rules, p: Pod, i: nat, k: nat)
    requires Reachable(r, p) && r.policy.OnFailure? && i < |p.containers|
    requires k < |p.containers[i].story| && p.containers[i].story[k].Over?
    requires k + 1 < |p.containers[i].story| || p.containers[i].state.Backoff? || p.containers[i].state.Starting?
    ensures p.containers[i].story[k].code != 0
  {
    ReachableInv(r, p);
    var story := p.containers[i].story;
    assert ContainerInv(r.policy, p.containers[i]);
    assert k + 1 < |story| ==> story[k + 1].Begun?;
  }

  /** A container is due for a restart iff it has ended in a way the policy restarts: the
      Failed half of the rule is never met, because nothing marks a container as Failed. */
  lemma NeverFailed(r: Rules, p: Pod, i: nat)
    requires Reachable(r, p) && i < |p.containers|
    ensures !p.containers[i].state.Failed?
    ensures var c := p.containers[i];
            ShouldRestart(r.policy, c.state) <==>
              c.state.Ended? && c.story != [] && c.story[|c.story| - 1].Over?
              && MayRestartAfter(r.policy, c.story[|c.story| - 1].code)
  {
    ReachableInv(r, p);
    assert ContainerInv(r.policy, p.containers[i]);
  }

  // ---------------------------------------------------------------- stability

  /** When container `i` was last started, in the first `n` steps of a run. */
  function StartedAt(run: seq<Pod>, acts: seq<Action>, n: nat, i: nat): Option<int>
    requires |run| == |acts| + 1 && n <= |acts|
  {
    if n == 0 then None
    else if acts[n - 1] == Start(i) then Some(run[n - 1].now)
    else StartedAt(run, acts, n - 1, i)
  }

  lemma StartIsNoted(r: Rules, p: Pod, a: Action, i: nat)
    requires Can(r, p, a) && i < |p.containers|
    ensures Do(r, p, a).containers[i].lastStart == if a == Start(i) then Some(p.now) else p.containers[i].lastStart
  {
  }

  lemma {:induction false} LastStartIsLatest(r: Rules, run: seq<Pod>, acts: seq<Action>, n: nat, i: nat)
    requires IsRun(r, run, acts) && n <= |acts| && i < |run[0].containers|
    ensures |run[n].containers| == |run[0].containers|
    ensures run[n].containers[i].lastStart == StartedAt(run, acts, n, i)
  {
    if n > 0 {
      LastStartIsLatest(r, run, acts, n - 1, i);
      StartIsNoted(r, run[n - 1], acts[n - 1], i);
    }
  }

  /** The backoff of a container is reset only while it runs, and only if its latest start is
      more than ten seconds ago; then it is one second again. */
  lemma ResetIsExact(r: Rules, run: seq<Pod>, acts: seq<Action>, i: nat)
    requires IsRun(r, run, acts) && i < |run[0].containers|
    ensures |run[|acts|].containers| == |run[0].containers|
    ensures var p, start := run[|acts|], StartedAt(run, acts, |acts|, i);
            && (Can(r, p, Settle(i)) <==>
                  p.containers[i].state.Running? && start.Some? && p.now - start.value > 10_000_000_000)
            && (Can(r, p, Settle(i)) ==>
                  var c := Do(r, p, Settle(i)).containers[i];
                  && c.backoff == 1 && c.restartCount == 0
                  && c.state == p.containers[i].state && c.pid == p.containers[i].pid && c.lastStart == start)
  {
    LastStartIsLatest(r, run, acts, |acts|, i);
  }

  // ---------------------------------------------------------------- after a stop

  predicate Unrecorded(p: Pod, pid: int) {
    forall i :: 0 <= i < |p.containers| ==> p.containers[i].pid != Some(pid)
  }

  predicate Reaps(a: Action, pid: int) { a.Reap? && a.pid == pid }

  /** A step that does not reap it leaves an unrecorded child a child, unrecorded and unsignalled. */
  lemma StepLeavesAlone(r: Rules, p: Pod, a: Action, pid: int)
    requires Can(r, p, a) && pid in p.children && Unrecorded(p, pid) && !Reaps(a, pid)
    ensures var q := Do(r, p, a);
            pid in q.children && Unrecorded(q, pid) && p.kills <= q.kills
            && forall k :: |p.kills| <= k < |q.kills| ==> q.kills[k].pid != pid
  {
  }

  /** A child that no container records, such as one that stop_all forgot, is recorded by
      none and signalled by nobody until it is reaped, whatever else the supervisor does. */
  lemma {:induction false} ForgottenIsLeftAlone(
    r: Rules, run: seq<Pod>, acts: seq<Action>, m: nat, n: nat, pid: int)
    requires IsRun(r, run, acts) && m <= n <= |acts|
    requires pid in run[m].children && Unrecorded(run[m], pid)
    requires forall k :: m <= k < n ==> !Reaps(acts[k], pid)
    ensures pid in run[n].children && Unrecorded(run[n], pid)
    ensures run[m].kills <= run[n].kills
    ensures forall k :: |run[m].kills| <= k < |run[n].kills| ==> run[n].kills[k].pid != pid
  {
    if m < n {
      ForgottenIsLeftAlone(r, run, acts, m, n - 1, pid);
      StepLeavesAlone(r, run[n - 1], acts[n - 1], pid);
    }
  }

  /** At a tick a due container is scheduled iff the window is not full then. */
  lemma DueIsScheduledUnlessFull(r: Rules, p: Pod, i: nat)
    requires Reachable(r, p) && i < |p.containers| && ShouldRestart(r.policy, p.containers[i].state)
    ensures Can(r, Do(r, p, Prune), Schedule(i)) <==> |RestartsSince(p.scheduled, p.now)| < r.maxRestarts
  {
    PruningLosesNothing(r, p, p.now);
    RecentCounts(p.scheduled, p.now);
  }

  /** `more` and `steps` go on from `run` and `acts`, log nothing, and end by scheduling container `i`. */
  predicate GoesOnToSchedule(
    r: Rules, run: seq<Pod>, acts: seq<Action>, more: seq<Pod>, steps: seq<Action>, i: nat)
    requires |run| == |acts| + 1
  {
    && IsRun(r, more, steps) && run <= more && acts < steps && steps[|steps| - 1] == Schedule(i)
    && more[|steps|].log == run[|acts|].log
  }

  /** Some continuation of the run schedules container `i`, and logs nothing on the way. */
  ghost predicate SchedulesLater(r: Rules, run: seq<Pod>, acts: seq<Action>, i: nat)
    requires |run| == |acts| + 1
  {
    exists more, steps :: GoesOnToSchedule(r, run, acts, more, steps, i)
  }

  lemma Goes(r: Rules, run: seq<Pod>, acts: seq<Action>, a: Action) returns (run': seq<Pod>, acts': seq<Action>)
    requires IsRun(r, run, acts) && Can(r, run[|acts|], a)
    ensures IsRun(r, run', acts') && run' == run + [Do(r, run[|acts|], a)] && acts' == acts + [a]
  {
    run', acts' := run + [Do(r, run[|acts|], a)], acts + [a];
  }

  lemma {:induction false} OldIsNotRecent(times: seq<int>, now: int)
    requires forall k :: 0 <= k < |times| ==> times[k] <= now - WINDOW
    ensures Recent(times, now) == []
  {
    if times != [] { OldIsNotRecent(times[1..], now); }
  }

  /** When a whole window has passed, no restart counts any more. */
  lemma WindowPasses(r: Rules, p: Pod, children: map<int, Process>)
    requires Reachable(r, p) && Evolves(p.children, children)
    ensures var q := Do(r, p, Elapse(children, p.now + WINDOW)); Do(r, q, Prune).restarts == []
  {
    ReachableInv(r, p);
    var gone := |p.scheduled| - |p.restarts|;
    forall k | 0 <= k < |p.restarts| ensures p.restarts[k] <= p.now {
      assert p.restarts[k] == p.scheduled[gone + k];
    }
    OldIsNotRecent(p.restarts, p.now + WINDOW);
  }

  lemma StoppedPodGoesOn(r: Rules, run: seq<Pod>, acts: seq<Action>, i: nat)
    requires IsRun(r, run, acts) && r.maxRestarts > 0
    requires i < |run[|acts|].containers| && ShouldRestart(r.policy, run[|acts|].containers[i].state)
    ensures SchedulesLater(r, run, acts, i)
  {
    var p := run[|acts|];
    assert Reachable(r, p);
    WindowPasses(r, p, p.children);
    var run1, acts1 := Goes(r, run, acts, Elapse(p.children, p.now + WINDOW));
    var run2, acts2 := Goes(r, run1, acts1, Prune);
    var run3, acts3 := Goes(r, run2, acts2, Schedule(i));
    assert GoesOnToSchedule(r, run, acts, run3, acts3, i);
  }

  /** A stopped pod does not stay stopped: whatever the run has logged, POD_EXIT included, any
      container that the policy restarts is scheduled again in some continuation, once the
      window has passed, iff the limit allows any restart at all. */
  lemma StopIsNotLatched(r: Rules, run: seq<Pod>, acts: seq<Action>, i: nat)
    requires IsRun(r, run, acts) && PodExit in run[|acts|].log
    requires i < |run[|acts|].containers| && ShouldRestart(r.policy, run[|acts|].containers[i].state)
    ensures SchedulesLater(r, run, acts, i) <==> r.maxRestarts > 0
  {
    if SchedulesLater(r, run, acts, i) {
      var more, steps :| GoesOnToSchedule(r, run, acts, more, steps, i);
      assert Can(r, more[|steps| - 1], steps[|steps| - 1]);
    }
    if r.maxRestarts > 0 { StoppedPodGoesOn(r, run, acts, i); }
  }
}
