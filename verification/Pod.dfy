/** The pod supervisor of src/pod.rs as a step system.

    Each step is one action of `PodSupervisor` between two system or store calls,
    or a move of the world outside (processes end, orphans arrive, time passes).
    `Can` and `Do` range over every mix of start, tick, reap, stop_all and
    stop_graceful, over every store fault, and over unboundedly many restarts:
    a container in Backoff may be started again. */
module Pod {
  import opened Options
  import opened Processes

  // ---------------------------------------------------------------- containers

  datatype RestartPolicy = Never | OnFailure | Always

  /** Instants and durations are in nanoseconds, as the source's clock reads them. */
  const SECOND := 1_000_000_000
  const STABLE := 10 * SECOND
  const WINDOW := 600 * SECOND
  const MAX_BACKOFF := 30

  datatype ContainerState = Fresh | Starting | Running | Ended(code: int) | Failed | Backoff(seconds: nat)

  /** What happens to a container: its fork, or the end the supervisor gave it. */
  datatype Turn = Begun(pid: int) | Over(code: int)

  /** The run-time part of a ContainerHandle, with `backoff` in seconds, and the
      history of the container's turns, which no step reads. */
  datatype Container = Container(
    state: ContainerState, pid: Option<int>, restartCount: nat, lastStart: Option<int>, backoff: nat,
    story: seq<Turn>)
  {
    function StartingAt(now: int): Container { this.(state := Starting, lastStart := Some(now)) }

    function ForkedAs(pid: int): Container {
      this.(state := Running, pid := Some(pid), story := story + [Begun(pid)])
    }

    /** The supervisor is done with the container's process, which ended with `code`. */
    function Finished(code: int): Container {
      this.(state := ContainerState.Ended(code), pid := None, story := story + [Over(code)])
    }

    function Settled(): Container { this.(backoff := 1, restartCount := 0) }

    function BackedOff(): Container {
      this.(state := Backoff(NextBackoff(backoff)), backoff := NextBackoff(backoff), restartCount := restartCount + 1)
    }
  }

  const NEW_CONTAINER := Container(Fresh, None, 0, None, 1, [])

  predicate ShouldRestart(policy: RestartPolicy, state: ContainerState) {
    match policy
    case Never => false
    case OnFailure => (state.Ended? && state.code != 0) || state.Failed?
    case Always => state.Ended? || state.Failed?
  }

  function NextBackoff(backoff: nat): nat {
    if 2 * backoff < MAX_BACKOFF then 2 * backoff else MAX_BACKOFF
  }

  predicate Stable(c: Container, now: int) {
    c.lastStart.Some? && now - c.lastStart.value > STABLE
  }

  /** The first container that records `pid`, or the number of containers if none does. */
  function Holder(cs: seq<Container>, pid: int): (i: nat)
    ensures i <= |cs|
    ensures i < |cs| ==> cs[i].pid == Some(pid)
    ensures forall j :: 0 <= j < i ==> cs[j].pid != Some(pid)
  {
    if |cs| == 0 then 0 else if cs[0].pid == Some(pid) then 0 else 1 + Holder(cs[1..], pid)
  }

  /** The entries of `times` that the crash-loop check keeps, in order. */
  function Recent(times: seq<int>, now: int): seq<int> {
    if times == [] then []
    else (if times[0] > now - WINDOW then [times[0]] else []) + Recent(times[1..], now)
  }

  // ---------------------------------------------------------------- state

  datatype Event =
    | ContainerForked(index: nat, pid: int) | ContainerExit(index: nat, code: int)
    | SignalForward(signal: nat, index: nat)
    | PodStopRequested | PodTimeout | PodExit

  /** A child of the supervisor that has not been reaped. */
  datatype Process = Alive | Zombie(status: WaitStatus)

  /** A call of kill, and whether its target was then an unreaped child. */
  datatype Kill = Kill(pid: int, signal: nat, unreaped: bool)

  datatype Rules = Rules(policy: RestartPolicy, maxRestarts: nat, workingStore: bool)

  /** The supervisor's fields, the log it wrote, its children, and the clock; then
      two histories that no step reads: the time of every restart scheduled, and
      every call of kill. */
  datatype Pod = Pod(
    containers: seq<Container>, restarts: seq<int>, log: seq<Event>,
    children: map<int, Process>, now: int, scheduled: seq<int>, kills: seq<Kill>)

  predicate Init(p: Pod) {
    && (forall i :: 0 <= i < |p.containers| ==> p.containers[i] == NEW_CONTAINER)
    && p.restarts == [] && p.log == [] && p.scheduled == [] && p.kills == []
  }

  // ---------------------------------------------------------------- steps

  /** `kept` says whether the store kept the event that the step appends. */
  datatype Action =
    | Start(i: nat) | Fork(i: nat, pid: int, kept: bool)
    | Reap(pid: int, kept: bool) | Forget(i: nat, kept: bool)
    | Settle(i: nat) | Prune | Schedule(i: nat)
    | Forward(i: nat, signal: nat)
    | Append(event: Event, kept: bool)
    | Elapse(children: map<int, Process>, now: int)

  /** Children may end and new ones may arrive; none goes away unreaped. */
  predicate Evolves(before: map<int, Process>, after: map<int, Process>) {
    forall pid :: pid in before ==> pid in after && (before[pid].Zombie? ==> after[pid] == before[pid])
  }

  predicate Can(r: Rules, p: Pod, a: Action) {
    match a
    case Start(i) =>
      i < |p.containers| && (p.containers[i].state.Fresh? || p.containers[i].state.Backoff?)
    case Fork(i, pid, kept) =>
      i < |p.containers| && p.containers[i].state.Starting? && pid !in p.children && (r.workingStore ==> kept)
    case Reap(pid, kept) =>
      pid in p.children && p.children[pid].Zombie? && (r.workingStore ==> kept)
    case Forget(i, kept) =>
      i < |p.containers| && p.containers[i].pid.Some? && (r.workingStore ==> kept)
    case Settle(i) =>
      i < |p.containers| && p.containers[i].state.Running? && Stable(p.containers[i], p.now)
    case Prune => true
    case Schedule(i) =>
      i < |p.containers| && ShouldRestart(r.policy, p.containers[i].state) && |p.restarts| < r.maxRestarts
    case Forward(i, _) =>
      i < |p.containers| && p.containers[i].pid.Some?
    case Append(event, kept) =>
      !event.ContainerForked? && !event.ContainerExit? && (r.workingStore ==> kept)
    case Elapse(children, now) =>
      p.now <= now && Evolves(p.children, children)
  }

  function Kept(event: Event, kept: bool): seq<Event> { if kept then [event] else [] }

  function Do(r: Rules, p: Pod, a: Action): Pod
    requires Can(r, p, a)
  {
    match a
    case Start(i) =>
      p.(containers := p.containers[i := p.containers[i].StartingAt(p.now)])
    case Fork(i, pid, kept) =>
      p.(containers := p.containers[i := p.containers[i].ForkedAs(pid)],
         children := p.children[pid := Alive],
         log := p.log + Kept(ContainerForked(i, pid), kept))
    case Reap(pid, kept) =>
      var i := Holder(p.containers, pid);
      var code := CodeOf(p.children[pid].status);
      var held := i < |p.containers|;
      p.(containers := if held then p.containers[i := p.containers[i].Finished(code)] else p.containers,
         children := p.children - {pid},
         log := p.log + (if held then Kept(ContainerExit(i, code), kept) else []))
    case Forget(i, kept) =>
      p.(containers := p.containers[i := p.containers[i].Finished(0)],
         log := p.log + Kept(ContainerExit(i, 0), kept))
    case Settle(i) =>
      p.(containers := p.containers[i := p.containers[i].Settled()])
    case Prune =>
      p.(restarts := Recent(p.restarts, p.now))
    case Schedule(i) =>
      p.(containers := p.containers[i := p.containers[i].BackedOff()],
         restarts := p.restarts + [p.now], scheduled := p.scheduled + [p.now])
    case Forward(i, signal) =>
      var pid := p.containers[i].pid.value;
      p.(kills := p.kills + [Kill(pid, signal, pid in p.children)])
    case Append(event, kept) =>
      p.(log := p.log + Kept(event, kept))
    case Elapse(children, now) =>
      p.(children := children, now := now)
  }

  /** `run` is a run of a pod: `run[k]` becomes `run[k + 1]` by `acts[k]`. */
  predicate IsRun(r: Rules, run: seq<Pod>, acts: seq<Action>) {
    && |run| == |acts| + 1
    && Init(run[0])
    && forall k {:trigger acts[k]} :: 0 <= k < |acts| ==>
         Can(r, run[k], acts[k]) && run[k + 1] == Do(r, run[k], acts[k])
  }
}
