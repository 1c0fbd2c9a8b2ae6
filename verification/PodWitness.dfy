/** A run in which the crash-loop stop leaves a process behind, and the pod restarts later.

    Three containers under Always, with at most one restart in ten minutes. Two of them
    fail at once; the tick schedules the first, finds the window full at the second, and
    stops the pod, which forgets the third container's process. Once the window has
    passed, the next tick schedules that container although its process still runs. */
module PodWitness {
  import opened Options
  import opened Processes
  import opened Pod
  import opened PodSafety
  import opened PodTheorems

  const RULES := Rules(Always, 1, true)

  lemma Extend(p: Pod, a: Action, q: Pod)
    requires Reachable(RULES, p) && Can(RULES, p, a) && q == Do(RULES, p, a)
    ensures Reachable(RULES, q)
  {
    var run, acts :| IsRun(RULES, run, acts) && run[|acts|] == p;
    var run', acts' := run + [q], acts + [a];
    assert IsRun(RULES, run', acts') && run'[|acts'|] == q;
  }

  /** Start and fork a container that is fresh or backing off. */
  lemma Launch(p: Pod, i: nat, pid: int, q: Pod)
    requires Reachable(RULES, p) && Can(RULES, p, Start(i)) && pid !in p.children
    requires q == p.(containers := p.containers[i := p.containers[i].StartingAt(p.now).ForkedAs(pid)],
                     children := p.children[pid := Alive], log := p.log + [ContainerForked(i, pid)])
    ensures Reachable(RULES, q)
  {
    var begun := Do(RULES, p, Start(i));
    Extend(p, Start(i), begun);
    Extend(begun, Fork(i, pid, true), q);
  }

  /** Reap the ended process of container `i`. */
  lemma Collect(p: Pod, pid: int, i: nat, q: Pod)
    requires Reachable(RULES, p) && pid in p.children && p.children[pid] == FAILURE
    requires i < |p.containers| && p.containers[i].pid == Some(pid)
    requires q.children == p.children - {pid}
    requires q == p.(containers := p.containers[i := p.containers[i].Finished(1)],
                     children := q.children, log := p.log + [ContainerExit(i, 1)])
    ensures Reachable(RULES, q)
  {
    ReachableInv(RULES, p);
    HolderIsUnique(p, pid, i);
    Extend(p, Reap(pid, true), q);
  }

  // ---------------------------------------------------------------- before the stop

  const FRESH := Pod([NEW_CONTAINER, NEW_CONTAINER, NEW_CONTAINER], [], [], map[], 0, [], [])
  const BEGUN := NEW_CONTAINER.StartingAt(0)
  const STARTED := [ContainerForked(0, 7), ContainerForked(1, 8), ContainerForked(2, 9)]

  const RUNNING := Pod(
    [BEGUN.ForkedAs(7), BEGUN.ForkedAs(8), BEGUN.ForkedAs(9)], [], STARTED,
    map[7 := Alive, 8 := Alive, 9 := Alive], 0, [], [])

  lemma AllStart()
    ensures Reachable(RULES, RUNNING)
  {
    var one := Pod([BEGUN.ForkedAs(7), NEW_CONTAINER, NEW_CONTAINER], [], [ContainerForked(0, 7)],
                   map[7 := Alive], 0, [], []);
    var two := Pod([BEGUN.ForkedAs(7), BEGUN.ForkedAs(8), NEW_CONTAINER], [],
                   [ContainerForked(0, 7), ContainerForked(1, 8)], map[7 := Alive, 8 := Alive], 0, [], []);
    assert IsRun(RULES, [FRESH], []) && [FRESH][0] == FRESH;
    Launch(FRESH, 0, 7, one);
    Launch(one, 1, 8, two);
    Launch(two, 2, 9, RUNNING);
  }

  const FAILURE := Zombie(Exited(1))
  const ONE_REAPED := Pod(
    [BEGUN.ForkedAs(7), BEGUN.ForkedAs(8).Finished(1), BEGUN.ForkedAs(9)], [],
    STARTED + [ContainerExit(1, 1)], map[7 := Alive, 9 := FAILURE], 0, [], [])
  const REAPED := Pod(
    [BEGUN.ForkedAs(7), BEGUN.ForkedAs(8).Finished(1), BEGUN.ForkedAs(9).Finished(1)], [],
    STARTED + [ContainerExit(1, 1), ContainerExit(2, 1)], map[7 := Alive], 0, [], [])

  const FAILING := RUNNING.(children := map[7 := Alive, 8 := FAILURE, 9 := FAILURE])

  lemma BothEnd()
    ensures Reachable(RULES, FAILING)
  {
    AllStart();
    Extend(RUNNING, Elapse(FAILING.children, 0), FAILING);
  }

  lemma OneFails()
    ensures Reachable(RULES, ONE_REAPED)
  {
    BothEnd();
    assert FAILING.children - {8} == ONE_REAPED.children;
    Collect(FAILING, 8, 1, ONE_REAPED);
  }

  lemma TwoFail()
    ensures Reachable(RULES, REAPED)
  {
    OneFails();
    assert ONE_REAPED.children - {9} == REAPED.children;
    Collect(ONE_REAPED, 9, 2, REAPED);
  }

  // ---------------------------------------------------------------- the stop

  const STOPPED := Pod(
    [BEGUN.ForkedAs(7).Finished(0), BEGUN.ForkedAs(8).Finished(1).BackedOff(), BEGUN.ForkedAs(9).Finished(1)],
    [0], REAPED.log + [ContainerExit(0, 0), PodExit], map[7 := Alive], 0, [0], [])

  const SCHEDULED := REAPED.(
    containers := REAPED.containers[1 := REAPED.containers[1].BackedOff()], restarts := [0], scheduled := [0])

  lemma FirstIsScheduled()
    ensures Reachable(RULES, SCHEDULED)
  {
    TwoFail();
    Extend(REAPED, Prune, REAPED);
    Extend(REAPED, Schedule(1), SCHEDULED);
  }

  /** The window is full at container 2, so the tick stops the pod; the process of container 0
      runs on, its container ended with code 0, and no signal is ever sent. */
  lemma StopLeavesProcess()
    ensures |Recent(SCHEDULED.scheduled, 0)| >= RULES.maxRestarts
    ensures Reachable(RULES, STOPPED) && STOPPED.log[|STOPPED.log| - 1] == PodExit
    ensures STOPPED.children == map[7 := Alive] && STOPPED.kills == []
    ensures Unrecorded(STOPPED, 7) && STOPPED.containers[0].state == Ended(0)
  {
    FirstIsScheduled();
    var forgotten := SCHEDULED.(containers := STOPPED.containers, log := REAPED.log + [ContainerExit(0, 0)]);
    assert Recent([0], 0) == [0];
    Extend(SCHEDULED, Prune, SCHEDULED);
    Extend(SCHEDULED, Forget(0, true), forgotten);
    Extend(forgotten, Append(PodExit, true), STOPPED);
  }

  // ---------------------------------------------------------------- after the stop

  const LATER := 601 * SECOND
  const RESTARTED := STOPPED.(
    containers := STOPPED.containers[0 := STOPPED.containers[0].BackedOff()],
    restarts := [LATER], now := LATER, scheduled := [0, LATER])

  /** After the window, the stopped pod schedules the container that left its process behind. */
  lemma StoppedPodRestarts()
    ensures Reachable(RULES, RESTARTED) && RESTARTED.log == STOPPED.log
    ensures RESTARTED.containers[0].state.Backoff? && RESTARTED.children == map[7 := Alive]
  {
    StopLeavesProcess();
    var later := STOPPED.(now := LATER);
    var pruned := later.(restarts := []);
    Extend(STOPPED, Elapse(STOPPED.children, LATER), later);
    assert Recent([0], LATER) == [];
    Extend(later, Prune, pruned);
    Extend(pruned, Schedule(0), RESTARTED);
  }

  /** When that restart is carried out, two processes of one container run at once. */
  lemma TwoProcessesOfOne(p: Pod)
    requires p == RESTARTED.(
      containers := RESTARTED.containers[0 := RESTARTED.containers[0].StartingAt(LATER).ForkedAs(10)],
      children := map[7 := Alive, 10 := Alive], log := RESTARTED.log + [ContainerForked(0, 10)])
    ensures Reachable(RULES, p) && p.kills == []
    ensures p.log[|STOPPED.log| - 1] == PodExit && p.log[|STOPPED.log|] == ContainerForked(0, 10)
    ensures p.containers[0].story == [Begun(7), Over(0), Begun(10)] && p.children[7] == p.children[10] == Alive
  {
    StoppedPodRestarts();
    Launch(RESTARTED, 0, 10, p);
  }
}
