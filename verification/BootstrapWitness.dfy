/** Whole runs of the bootstrap protocol, step by step: one that succeeds, one that is
    recorded as failed and yet returns 0, and three that leave a cgroup behind. */
module BootstrapWitness {
  import opened Namespaces
  import opened Notices
  import opened Options
  import opened Processes
  import opened Bootstrap

  const PLAIN := Config(false, false, false, false, false, false, 3)
  const HOST_IDS := NamespaceIds("0", "0", "0", "0", "0", "0")
  const TASK := Task(NamespaceIds("0", "1", "1", "1", "1", "0"), 1)

  lemma Extend(cfg: Config, w: World, a: Action, v: World)
    requires Reachable(cfg, w) && Can(cfg, w, a) && v == Do(cfg, w, a)
    ensures Reachable(cfg, v)
  {
    var run, acts :| IsRun(cfg, run, acts) && run[|acts|] == w;
    var run', acts' := run + [v], acts + [a];
    assert IsRun(cfg, run', acts') && run'[|acts'|] == v;
  }

  /** The supervisor's next call succeeds. */
  lemma Sups(w: World, v: World)
    requires Reachable(PLAIN, w) && SupCan(PLAIN, w, Good) && v == SupDo(PLAIN, w, Good)
    ensures Reachable(PLAIN, v)
  {
    Extend(PLAIN, w, Sup(Good), v);
  }

  /** The child's next call succeeds. */
  lemma Kids(w: World, c: Child)
    requires Reachable(PLAIN, w) && w.Alive() && KidCan(PLAIN, w.host, w.child, Good)
    requires c == KidDo(PLAIN, w.host, w.child, Good)
    ensures Reachable(PLAIN, w.(child := c))
  {
    Extend(PLAIN, w, Kid(Good), w.(child := c));
  }

  function At(pc: SupervisorPc): Supervisor {
    NewSupervisor(HOST_IDS).(pc := pc, stored := !pc.CaptureBefore? && !pc.StoreSeed?)
  }

  const FORKED := Host(Some(TASK), false, false, false, false, true, 0)
  const RELEASED := Host(Some(TASK), false, false, true, true, true, 0)
  const OPENED := [RunCreated, SeedLoaded]

  const CREATED := World(At(LogRunCreated), IDLE_HOST, [], StatusInit, NEW_CHILD, false)

  lemma Created()
    ensures Reachable(PLAIN, CREATED)
  {
    var w := World(At(CaptureBefore), IDLE_HOST, [], NoRecord, NEW_CHILD, false);
    assert IsRun(PLAIN, [w], []) && [w][0] == w;
    Sups(w, w.(sup := At(StoreSeed)));
    Sups(w.(sup := At(StoreSeed)), w.(sup := At(CreateRun)));
    Sups(w.(sup := At(CreateRun)), CREATED);
  }

  lemma Opening()
    ensures Reachable(PLAIN, World(At(PrepareCgroup), IDLE_HOST, OPENED, StatusInit, NEW_CHILD, false))
  {
    Created();
    var w := CREATED.(sup := At(LogSeedLoaded), log := [RunCreated]);
    Sups(CREATED, w);
    Sups(w, w.(sup := At(PrepareCgroup), log := OPENED));
  }

  const LAUNCHED := World(At(SetRunning), FORKED, OPENED, StatusInit, NEW_CHILD, false)

  lemma Launches()
    ensures Reachable(PLAIN, LAUNCHED)
  {
    Opening();
    var w := World(At(PrepareCgroup), IDLE_HOST, OPENED, StatusInit, NEW_CHILD, false);
    Sups(w, w.(sup := At(OpenSocket)));
    Sups(w.(sup := At(OpenSocket)), w.(sup := At(Clone)));
    Extend(PLAIN, w.(sup := At(Clone)), Sup(Cloned(TASK)), LAUNCHED);
  }

  lemma Released()
    ensures Reachable(PLAIN, World(At(Read), RELEASED, OPENED, StatusRunning, NEW_CHILD, false))
  {
    Launches();
    var w := LAUNCHED.(sup := At(Release), status := StatusRunning);
    var v := w.(sup := At(ShutWrite), host := FORKED.(startWritten := true));
    Sups(LAUNCHED, w);
    Sups(w, v);
    Sups(v, v.(sup := At(Read), host := RELEASED));
  }

  // ---------------------------------------------------------------- the child's part

  const SAID := [Whole(NamespaceReady(TASK.ids, 1)), Whole(IsolationReady), Whole(ProcessStart(1))]
  const GATED := Child(EnterIdentity, None, NO_FACTS.(released := true), [], false, false, true)
  const CONFINED := NO_FACTS.(released := true, mounts := true, noNewPrivs := true)
  const ENDED :=
    Child(Workload, Some(Exited(0)), CONFINED.(prepared := true, execed := true), SAID, false, false, false)

  lemma Entered()
    ensures Reachable(PLAIN, World(At(Read), RELEASED, OPENED, StatusRunning,
                                   GATED.(pc := VerifyIdentity, sent := SAID[..1]), false))
  {
    Released();
    var w := World(At(Read), RELEASED, OPENED, StatusRunning, NEW_CHILD, false);
    var c := NEW_CHILD.(pc := Gate, duplicateOpen := false);
    Kids(w, c);
    Kids(w.(child := c), GATED);
    Kids(w.(child := GATED), GATED.(pc := CaptureNs));
    Kids(w.(child := GATED.(pc := CaptureNs)), GATED.(pc := SendNamespace));
    Kids(w.(child := GATED.(pc := SendNamespace)), GATED.(pc := VerifyIdentity, sent := SAID[..1]));
  }

  lemma Confined()
    ensures Reachable(PLAIN, World(At(Read), RELEASED, OPENED, StatusRunning,
                                   GATED.(pc := SendIsolation, sent := SAID[..1], facts := CONFINED), false))
  {
    Entered();
    var c := GATED.(pc := VerifyIdentity, sent := SAID[..1]);
    var w := World(At(Read), RELEASED, OPENED, StatusRunning, c, false);
    var d := c.(facts := c.facts.(mounts := true));
    var e := c.(facts := CONFINED);
    Kids(w, c.(pc := SetHostname));
    Kids(w.(child := c.(pc := SetHostname)), c.(pc := SetupMounts));
    Kids(w.(child := c.(pc := SetupMounts)), d.(pc := NoNewPrivs));
    Kids(w.(child := d.(pc := NoNewPrivs)), e.(pc := DropCaps));
    Kids(w.(child := e.(pc := DropCaps)), e.(pc := Seccomp));
    Kids(w.(child := e.(pc := Seccomp)), e.(pc := SendIsolation));
  }

  lemma Ended()
    ensures Reachable(PLAIN, World(At(Read), RELEASED, OPENED, StatusRunning, ENDED, false))
  {
    Confined();
    var c := GATED.(pc := SendIsolation, sent := SAID[..1], facts := CONFINED);
    var w := World(At(Read), RELEASED, OPENED, StatusRunning, c, false);
    var d := c.(sent := SAID[..2]);
    var e := d.(facts := CONFINED.(prepared := true));
    var f := e.(pc := Workload, sent := SAID, facts := ENDED.facts, endOpen := false);
    Kids(w, d.(pc := Prepare));
    Kids(w.(child := d.(pc := Prepare)), e.(pc := SendStart));
    Kids(w.(child := e.(pc := SendStart)), e.(pc := Exec, sent := SAID));
    Kids(w.(child := e.(pc := Exec, sent := SAID)), f);
    Extend(PLAIN, w.(child := f), Kid(Ends(Exited(0))), w.(child := ENDED));
  }

  // ---------------------------------------------------------------- a failure that returns 0

  /** The channel cannot be read, but the child exits with 0 before SIGKILL reaches it. */
  lemma FailedRunReturnsZero() returns (w: World)
    ensures Reachable(PLAIN, w) && w.sup.pc.Returned? && w.status == StatusFailed && w.sup.result == Code(0)
  {
    var decided := Unreadable();
    var u := World(decided, RELEASED, OPENED, StatusRunning, ENDED, false);
    var v := u.(log := OPENED + [ProcessFailed], sup := decided.(pc := SetFailed));
    Sups(u, v);
    Sups(v, v.(status := StatusFailed, sup := decided.(pc := DropGuard)));
    w := Unwound(v.(status := StatusFailed), decided);
  }

  const UNREAD := At(Wait).(protocolError := true, kills := [Kill(true)])

  lemma Unread()
    ensures Reachable(PLAIN, World(UNREAD, RELEASED, OPENED, StatusRunning, ENDED, false))
  {
    Ended();
    var w := World(At(Read), RELEASED, OPENED, StatusRunning, ENDED, false);
    var s := At(Judge).(protocolError := true);
    Extend(PLAIN, w, Sup(Bad), w.(sup := s));
    Sups(w.(sup := s), w.(sup := UNREAD));
  }

  lemma Unreadable() returns (decided: Supervisor)
    ensures decided == UNREAD.(pc := RecordFailed, waitStatus := Some(Exited(0)), result := Code(0))
    ensures Reachable(PLAIN, World(decided, RELEASED, OPENED, StatusRunning, ENDED, false))
  {
    Unread();
    var w := World(UNREAD, RELEASED, OPENED, StatusRunning, ENDED, false);
    var r := UNREAD.(pc := CaptureAfter(Exited(0)), waitStatus := Some(Exited(0)));
    decided := r.(pc := RecordFailed, result := Code(0));
    Sups(w, w.(sup := r));
    Sups(w.(sup := r), w.(sup := decided));
  }

  // ---------------------------------------------------------------- a success

  const LOG1 := [RunCreated, SeedLoaded, NsCreated]
  const LOG2 := [RunCreated, SeedLoaded, NsCreated, MountDone]
  const LOG3 := [RunCreated, SeedLoaded, NsCreated, MountDone, ProcessStarted]
  const LOG4 := [RunCreated, SeedLoaded, NsCreated, MountDone, ProcessStarted, ProcessExit(0)]

  /** The supervisor with `n` notices accepted and `k` of them handled. */
  function Handled(pc: SupervisorPc, k: nat, n: nat): Supervisor {
    At(pc).(sawNamespace := 1 <= k, sawIsolation := 2 <= k, sawProcessStart := 3 <= k, accepted := n)
  }

  function Reads(s: Supervisor, n: nat, log: seq<Event>): World {
    World(s, RELEASED.(received := n), log, StatusRunning, ENDED, false)
  }

  lemma HeardNamespace()
    ensures Reachable(PLAIN, Reads(Handled(Read, 1, 1), 1, LOG1))
  {
    Ended();
    var w, u := Reads(Handled(Read, 0, 0), 0, OPENED), Reads(Handled(LogNamespace, 0, 1), 1, OPENED);
    assert ValidateBoundary(HOST_IDS, TASK.ids, false, false, 1).Accepted?;
    Sups(w, u);
    assert OPENED + [NsCreated] == LOG1;
    Sups(u, Reads(Handled(Read, 1, 1), 1, LOG1));
  }

  lemma HeardIsolation()
    ensures Reachable(PLAIN, Reads(Handled(Read, 2, 2), 2, LOG2))
  {
    HeardNamespace();
    var w, u := Reads(Handled(Read, 1, 1), 1, LOG1), Reads(Handled(LogMount, 1, 2), 2, LOG1);
    Sups(w, u);
    assert LOG1 + [MountDone] == LOG2;
    Sups(u, Reads(Handled(Read, 2, 2), 2, LOG2));
  }

  lemma HeardStart()
    ensures Reachable(PLAIN, Reads(Handled(Judge, 3, 3), 3, LOG3))
  {
    HeardIsolation();
    var w, u := Reads(Handled(Read, 2, 2), 2, LOG2), Reads(Handled(LogStart, 2, 3), 3, LOG2);
    Sups(w, u);
    assert LOG2 + [ProcessStarted] == LOG3;
    Sups(u, Reads(Handled(Read, 3, 3), 3, LOG3));
    Sups(Reads(Handled(Read, 3, 3), 3, LOG3), Reads(Handled(Judge, 3, 3), 3, LOG3));
  }

  const DONE := Handled(LogExit(0), 3, 3).(waitStatus := Some(Exited(0)), result := Code(0))

  const REAPED := Handled(CaptureAfter(Exited(0)), 3, 3).(waitStatus := Some(Exited(0)))

  lemma Reaped()
    ensures Reachable(PLAIN, Reads(REAPED, 3, LOG3))
  {
    HeardStart();
    Sups(Reads(Handled(Judge, 3, 3), 3, LOG3), Reads(Handled(Wait, 3, 3), 3, LOG3));
    Sups(Reads(Handled(Wait, 3, 3), 3, LOG3), Reads(REAPED, 3, LOG3));
  }

  lemma Judged()
    ensures Reachable(PLAIN, Reads(DONE, 3, LOG3))
  {
    Reaped();
    Sups(Reads(REAPED, 3, LOG3), Reads(DONE, 3, LOG3));
  }

  /** The whole protocol can succeed: the workload runs, exits with 0, and that is on record. */
  lemma SuccessfulRun() returns (w: World)
    ensures Reachable(PLAIN, w) && w.sup.pc.Returned? && w.child.facts.execed
    ensures w.sup.result == Code(0) && w.status == StatusExited(0) && w.log == LOG4
  {
    Judged();
    var v, u := Reads(DONE, 3, LOG3), Reads(DONE, 3, LOG4);
    assert LOG3 + [ProcessExit(0)] == LOG4;
    Sups(v, u.(sup := DONE.(pc := SetExited(0))));
    Sups(u.(sup := DONE.(pc := SetExited(0))), u.(status := StatusExited(0), sup := DONE.(pc := DropGuard)));
    w := Unwound(u.(status := StatusExited(0)), DONE);
  }

  lemma Polls(u: World, r: Supervisor)
    requires Reachable(PLAIN, u.(sup := r.(pc := DropGuard))) && r.Reaped()
    ensures Reachable(PLAIN, u.(sup := r.(pc := Cleanup)))
  {
    assert Polled(r.(pc := DropGuard), u.host, u.child.dead) == r.(pc := Cleanup);
    Sups(u.(sup := r.(pc := DropGuard)), u.(sup := r.(pc := Cleanup)));
  }

  lemma Cleans(u: World, r: Supervisor)
    requires Reachable(PLAIN, u.(sup := r.(pc := Cleanup))) && !r.prepared
    ensures Reachable(PLAIN, u.(sup := r.(pc := FreeStack)))
  {
    Sups(u.(sup := r.(pc := Cleanup)), u.(sup := r.(pc := FreeStack)));
  }

  lemma Unwound(u: World, r: Supervisor) returns (w: World)
    requires Reachable(PLAIN, u.(sup := r.(pc := DropGuard))) && r.Reaped() && !r.prepared
    ensures Reachable(PLAIN, w) && w.log == u.log && w.status == u.status && w.child == u.child
    ensures w.sup == r.(pc := Returned, stackFreed := true)
  {
    Polls(u, r);
    Cleans(u, r);
    w := u.(sup := r.(pc := Returned, stackFreed := true), host := u.host.(endOpen := false));
    Sups(u.(sup := r.(pc := FreeStack)), w);
  }

  // ---------------------------------------------------------------- cgroups left behind

  const LIMITED := PLAIN.(cgroups := true)

  /** `w` is reached by a run that began without the cgroup directory. */
  ghost predicate ReachedAfresh(w: World) {
    exists run: seq<World>, acts :: IsRun(LIMITED, run, acts) && run[|acts|] == w && !run[0].cgroup
  }

  lemma Goes(w: World, o: Outcome, v: World)
    requires ReachedAfresh(w) && SupCan(LIMITED, w, o) && v == SupDo(LIMITED, w, o)
    ensures ReachedAfresh(v)
  {
    var run: seq<World>, acts :| IsRun(LIMITED, run, acts) && run[|acts|] == w && !run[0].cgroup;
    var run', acts' := run + [v], acts + [Sup(o)];
    assert IsRun(LIMITED, run', acts') && run'[|acts'|] == v;
  }

  const READY := World(At(PrepareCgroup), IDLE_HOST, OPENED, StatusInit, NEW_CHILD, false)
  const PREPARED := READY.(sup := At(OpenSocket).(prepared := true), cgroup := true)

  lemma Announced()
    ensures ReachedAfresh(READY.(sup := At(LogRunCreated), log := []))
  {
    var w0 := World(At(CaptureBefore), IDLE_HOST, [], NoRecord, NEW_CHILD, false);
    assert IsRun(LIMITED, [w0], []) && [w0][0] == w0;
    Goes(w0, Good, w0.(sup := At(StoreSeed)));
    Goes(w0.(sup := At(StoreSeed)), Good, w0.(sup := At(CreateRun)));
    Goes(w0.(sup := At(CreateRun)), Good, READY.(sup := At(LogRunCreated), log := []));
  }

  lemma OpeningLimited()
    ensures ReachedAfresh(READY)
  {
    Announced();
    var w := READY.(sup := At(LogSeedLoaded), log := [RunCreated]);
    Goes(READY.(sup := At(LogRunCreated), log := []), Good, w);
    Goes(w, Good, READY);
  }

  /** The cgroup's directory is made, a limit cannot be set, and `run` returns the error. */
  lemma HalfMadeIsLeftBehind() returns (w: World)
    ensures ReachedAfresh(w) && w.sup.pc.Returned? && w.cgroup && !w.sup.prepared && w.sup.cleanups == 0
  {
    OpeningLimited();
    w := READY.(sup := At(Returned).(result := Failure), cgroup := true);
    Goes(READY, Torn, w);
  }

  /** The cgroup is prepared, the socket pair cannot be set up, and `run` returns the error. */
  lemma CgroupIsLeftBehind() returns (w: World)
    ensures ReachedAfresh(w) && w.sup.pc.Returned? && w.cgroup && w.sup.prepared && w.sup.cleanups == 0
  {
    OpeningLimited();
    w := PREPARED.(sup := At(Returned).(prepared := true, result := Failure));
    Goes(READY, Good, PREPARED);
    Goes(PREPARED, Bad, w);
  }

  /** The cgroup is prepared, clone fails, and so does the removal of the cgroup. */
  lemma UnremovedIsLeftBehind() returns (w: World)
    ensures ReachedAfresh(w) && w.sup.pc.Returned? && w.cgroup && w.sup.prepared && w.sup.cleanups == 1
  {
    OpeningLimited();
    var v := PREPARED.(sup := At(Clone).(prepared := true));
    w := PREPARED.(sup := At(Returned).(prepared := true, result := Failure, cleanups := 1));
    Goes(READY, Good, PREPARED);
    Goes(PREPARED, Good, v);
    Goes(v, Torn, w);
  }
}
