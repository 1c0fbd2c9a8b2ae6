/** The evidence CAPS_DROPPED, joined to the capability sets of the child (src/process.rs
    with src/isolate/caps.rs). */
module BootstrapCapabilities {
  import opened Capabilities
  import opened Bootstrap
  import opened BootstrapInvariants
  import opened BootstrapLiveness
  import opened BootstrapSafety
  import opened BootstrapTheorems

  /** The child's drop_capabilities returns Ok. */
  predicate Drops(cfg: Config, w: World, a: Action) {
    cfg.dropCaps && w.child.pc.DropCaps? && a == Kid(Good)
  }

  /** A successful drop takes the requested capabilities out of all five sets, as the
      contract of `CapabilityDrop.Caller.DropCapabilities` has it. Any other step of the run,
      exec and the workload's life among them, may change the sets by any number of moves
      that the kernel allows. */
  ghost predicate Changes(k: Process, l: Process, request: set<Capability>, drops: bool) {
    if drops then l == k.(creds := k.creds.Without(request)) else exists ms :: CanRun(k, ms) && Ran(k, ms) == l
  }

  /** `sets[k]` are the child's sets in state `k` of the run. */
  ghost predicate SetsOf(cfg: Config, run: seq<World>, acts: seq<Action>, sets: seq<Process>, request: set<Capability>)
    requires |run| == |acts| + 1
  {
    && |sets| == |run|
    && forall k {:trigger acts[k]} :: 0 <= k < |acts| ==>
         Changes(sets[k], sets[k + 1], request, Drops(cfg, run[k], acts[k]))
  }

  predicate LacksAll(k: Process, request: set<Capability>) {
    forall c :: c in request ==> k.creds.Lacks(c)
  }

  lemma ChangesKeepOut(k: Process, l: Process, request: set<Capability>, drops: bool)
    requires Changes(k, l, request, drops) && (drops || LacksAll(k, request))
    ensures LacksAll(l, request)
  {
    if !drops {
      var ms :| CanRun(k, ms) && Ran(k, ms) == l;
      forall c | c in request ensures l.creds.Lacks(c) {
        DroppedStaysDropped(k, c, ms);
      }
    }
  }

  lemma KidDropsOnce(cfg: Config, w: World, o: Outcome)
    requires w.Alive() && KidCan(cfg, w.host, w.child, o)
    ensures KidDo(cfg, w.host, w.child, o).facts.capsDropped ==> w.child.facts.capsDropped || Drops(cfg, w, Kid(o))
  {
  }

  /** The fact behind the evidence comes from a successful drop and from nothing else. */
  lemma FactMeansDrop(cfg: Config, w: World, a: Action)
    requires Can(cfg, w, a) && Do(cfg, w, a).child.facts.capsDropped
    ensures w.child.facts.capsDropped || Drops(cfg, w, a)
  {
    match a
    case Sup(o) => if w.sup.pc.Read? { ReadIsStep(cfg, w, o); } else { SupAdvances(cfg, w, o); }
    case Kid(o) => KidDropsOnce(cfg, w, o);
    case Signal(_) =>
  }

  lemma {:induction false} FactKeepsOut(
    cfg: Config, run: seq<World>, acts: seq<Action>, sets: seq<Process>, request: set<Capability>, n: nat)
    requires IsRun(cfg, run, acts) && SetsOf(cfg, run, acts, sets, request) && n <= |acts|
    ensures run[n].child.facts.capsDropped ==> LacksAll(sets[n], request)
  {
    if n > 0 && run[n].child.facts.capsDropped {
      var a := acts[n - 1];
      FactKeepsOut(cfg, run, acts, sets, request, n - 1);
      FactMeansDrop(cfg, run[n - 1], a);
      ChangesKeepOut(sets[n - 1], sets[n], request, Drops(cfg, run[n - 1], a));
    }
  }

  lemma {:induction false} OutStaysOut(
    cfg: Config, run: seq<World>, acts: seq<Action>, sets: seq<Process>, request: set<Capability>, m: nat, n: nat)
    requires IsRun(cfg, run, acts) && SetsOf(cfg, run, acts, sets, request) && m <= n <= |acts|
    requires LacksAll(sets[m], request)
    ensures LacksAll(sets[n], request)
  {
    if m < n {
      OutStaysOut(cfg, run, acts, sets, request, m, n - 1);
      var a := acts[n - 1];
      ChangesKeepOut(sets[n - 1], sets[n], request, Drops(cfg, run[n - 1], a));
    }
  }

  /** Once CAPS_DROPPED is logged, the requested capabilities are in none of the child's five
      sets, and they stay out through exec and all that the workload does. */
  lemma CapsDroppedIsForever(
    cfg: Config, run: seq<World>, acts: seq<Action>, sets: seq<Process>, request: set<Capability>, m: nat, n: nat)
    requires IsRun(cfg, run, acts) && SetsOf(cfg, run, acts, sets, request) && m <= n <= |acts|
    requires CapsDropped in run[m].log
    ensures LacksAll(sets[n], request)
  {
    assert IsRun(cfg, run[..m + 1], acts[..m]) && run[..m + 1][m] == run[m];
    EvidenceIsSound(cfg, run[m], CapsDropped);
    FactKeepsOut(cfg, run, acts, sets, request, m);
    OutStaysOut(cfg, run, acts, sets, request, m, n);
  }

  /** A workload whose Seed asks for the drop never runs with a requested capability,
      whether or not the evidence reached the log. */
  lemma WorkloadLacksCaps(
    cfg: Config, run: seq<World>, acts: seq<Action>, sets: seq<Process>, request: set<Capability>, n: nat)
    requires IsRun(cfg, run, acts) && SetsOf(cfg, run, acts, sets, request) && n <= |acts|
    requires cfg.dropCaps && run[n].child.facts.execed
    ensures LacksAll(sets[n], request)
  {
    assert IsRun(cfg, run[..n + 1], acts[..n]) && run[..n + 1][n] == run[n];
    ExecIsConfined(cfg, run[n]);
    FactKeepsOut(cfg, run, acts, sets, request, n);
  }
}
