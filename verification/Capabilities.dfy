/** The capability sets of one Linux process, and the rules of capabilities(7) for
    changing them. A capability is its number. */
module Capabilities {

  type Capability = nat

  const CAP_SETPCAP: Capability := 8
  const WIDTH: Capability := 64

  predicate Narrow(caps: set<Capability>) {
    forall c :: c in caps ==> c < WIDTH
  }

  datatype Creds = Creds(
    effective: set<Capability>, permitted: set<Capability>, inheritable: set<Capability>,
    bounding: set<Capability>, ambient: set<Capability>)
  {
    /** What the kernel keeps true of every process. */
    predicate Valid() {
      && effective <= permitted
      && ambient <= permitted * inheritable
      && Narrow(permitted) && Narrow(inheritable) && Narrow(bounding)
    }

    function Without(caps: set<Capability>): Creds {
      Creds(effective - caps, permitted - caps, inheritable - caps, bounding - caps, ambient - caps)
    }

    predicate Lacks(c: Capability) {
      c !in effective && c !in permitted && c !in inheritable && c !in bounding && c !in ambient
    }

    /** `c` is in the same sets here and there. */
    predicate Agrees(there: Creds, c: Capability) {
      && (c in effective <==> c in there.effective) && (c in permitted <==> c in there.permitted)
      && (c in inheritable <==> c in there.inheritable)
      && (c in bounding <==> c in there.bounding) && (c in ambient <==> c in there.ambient)
    }
  }

  // ---------------------------------------------------------------- capset and prctl

  predicate MayDropBounding(k: Creds) { CAP_SETPCAP in k.effective }

  predicate MayCapset(k: Creds, e: set<Capability>, p: set<Capability>, i: set<Capability>) {
    && p <= k.permitted && e <= p
    && i <= k.inheritable + k.bounding
    && (CAP_SETPCAP in k.effective || i <= k.inheritable + k.permitted)
  }

  /** capset also lowers the ambient capabilities that would exceed the new sets. */
  function Capset(k: Creds, e: set<Capability>, p: set<Capability>, i: set<Capability>): Creds {
    k.(effective := e, permitted := p, inheritable := i, ambient := k.ambient * p * i)
  }

  // ---------------------------------------------------------------- a process's later life

  /** The capabilities of a program file. `privileged` says that it has file
      capabilities or a set-id bit; a set-uid-root file is one with full sets. */
  datatype File = File(permitted: set<Capability>, inheritable: set<Capability>, effective: bool, privileged: bool)

  /** A process, with the bit that prctl(PR_SET_NO_NEW_PRIVS) sets for good. */
  datatype Process = Process(creds: Creds, noNewPrivs: bool)

  datatype Move =
    | Execve(file: File)
    | SetCaps(e: set<Capability>, p: set<Capability>, i: set<Capability>)
    | RaiseAmbient(cap: Capability) | LowerAmbient(cap: Capability) | ClearAmbient
    | DropBounding(cap: Capability)
    | LeaveRoot | DropEuid | RegainEuid
    | SetNoNewPrivs

  predicate CanMove(q: Process, m: Move) {
    var k := q.creds;
    match m
    case SetCaps(e, p, i) => MayCapset(k, e, p, i)
    case RaiseAmbient(cap) => cap in k.permitted && cap in k.inheritable
    case DropBounding(_) => MayDropBounding(k)
    case _ => true
  }

  /** The transformation of capabilities during execve. Under no_new_privs a program file
      gives nothing that the process did not have. */
  function AfterExec(q: Process, f: File): Creds {
    var k := q.creds;
    var ambient := if f.privileged then {} else k.ambient;
    var gained := k.inheritable * f.inheritable + f.permitted * k.bounding;
    var permitted := (if q.noNewPrivs then gained * k.permitted else gained) + ambient;
    k.(ambient := ambient, permitted := permitted, effective := if f.effective then permitted else ambient)
  }

  function MovedCreds(q: Process, m: Move): Creds {
    var k := q.creds;
    match m
    case Execve(f) => AfterExec(q, f)
    case SetCaps(e, p, i) => Capset(k, e, p, i)
    case RaiseAmbient(cap) => k.(ambient := k.ambient + {cap})
    case LowerAmbient(cap) => k.(ambient := k.ambient - {cap})
    case ClearAmbient => k.(ambient := {})
    case DropBounding(cap) => k.(bounding := k.bounding - {cap})
    // Changes of user identifiers: all of them away from 0, the effective one away from 0, and back.
    case LeaveRoot => k.(permitted := {}, effective := {}, ambient := {})
    case DropEuid => k.(effective := {})
    case RegainEuid => k.(effective := k.permitted)
    case SetNoNewPrivs => k
  }

  function Moved(q: Process, m: Move): Process {
    Process(MovedCreds(q, m), q.noNewPrivs || m.SetNoNewPrivs?)
  }

  predicate CanRun(q: Process, ms: seq<Move>)
    decreases |ms|
  {
    ms == [] || (CanMove(q, ms[0]) && CanRun(Moved(q, ms[0]), ms[1..]))
  }

  function Ran(q: Process, ms: seq<Move>): Process
    decreases |ms|
  {
    if ms == [] then q else Ran(Moved(q, ms[0]), ms[1..])
  }

  /** A capability that is in no set of a process never comes back into any of them. */
  lemma {:induction false} DroppedStaysDropped(q: Process, c: Capability, ms: seq<Move>)
    requires q.creds.Lacks(c) && CanRun(q, ms)
    ensures Ran(q, ms).creds.Lacks(c)
    decreases |ms|
  {
    if ms != [] {
      DroppedStaysDropped(Moved(q, ms[0]), c, ms[1..]);
    }
  }

  /** Capabilities dropped from all five sets are gone for the rest of the process's life. */
  lemma DropIsForever(q: Process, caps: set<Capability>, c: Capability, ms: seq<Move>)
    requires c in caps && CanRun(q.(creds := q.creds.Without(caps)), ms)
    ensures Ran(q.(creds := q.creds.Without(caps)), ms).creds.Lacks(c)
  {
    DroppedStaysDropped(q.(creds := q.creds.Without(caps)), c, ms);
  }

  predicate Regains(q: Process, c: Capability, ms: seq<Move>) {
    CanRun(q, ms) && c in Ran(q, ms).creds.effective
  }

  predicate OutOfReach(q: Process, c: Capability) {
    q.noNewPrivs && c !in q.creds.permitted && c !in q.creds.effective && c !in q.creds.ambient
  }

  /** Under no_new_privs a capability that is not permitted never is again. */
  lemma {:induction false} NothingIsGained(q: Process, c: Capability, ms: seq<Move>)
    requires OutOfReach(q, c) && CanRun(q, ms)
    ensures OutOfReach(Ran(q, ms), c)
    decreases |ms|
  {
    if ms != [] { NothingIsGained(Moved(q, ms[0]), c, ms[1..]); }
  }

  /** An execve of a file that grants `c` gives it back. */
  lemma ExecGivesBack(q: Process, c: Capability)
    requires !q.noNewPrivs && c in q.creds.bounding
    ensures Regains(q, c, [Execve(File({c}, {}, true, true))])
  {
    var f := File({c}, {}, true, true);
    var ms := [Execve(f)];
    assert c in f.permitted * q.creds.bounding;
    assert ms[0] == Execve(f) && ms[1..] == [];
    assert Ran(q, ms) == Ran(Moved(q, ms[0]), ms[1..]) == Moved(q, Execve(f));
  }

  /** Clearing the other four sets is not enough in general: the process can get the capability
      back exactly if it is still in the bounding set and no_new_privs is not set. */
  lemma BoundingDecides(q: Process, c: Capability)
    requires c !in q.creds.effective && c !in q.creds.permitted && c !in q.creds.inheritable && c !in q.creds.ambient
    ensures (exists ms :: Regains(q, c, ms)) <==> c in q.creds.bounding && !q.noNewPrivs
  {
    if c in q.creds.bounding && !q.noNewPrivs {
      ExecGivesBack(q, c);
    } else {
      forall ms ensures !Regains(q, c, ms) {
        if CanRun(q, ms) {
          if q.noNewPrivs { NothingIsGained(q, c, ms); } else { DroppedStaysDropped(q, c, ms); }
        }
      }
    }
  }

  predicate FitsWidth(m: Move) {
    m.Execve? ==> Narrow(m.file.permitted) && Narrow(m.file.inheritable)
  }

  lemma MoveKeepsValid(q: Process, m: Move)
    requires q.creds.Valid() && CanMove(q, m) && FitsWidth(m)
    ensures Moved(q, m).creds.Valid()
  {
  }

  /** The kernel's invariant on a process holds over its whole life. */
  lemma {:induction false} MovesKeepValid(q: Process, ms: seq<Move>)
    requires q.creds.Valid() && CanRun(q, ms) && forall i :: 0 <= i < |ms| ==> FitsWidth(ms[i])
    ensures Ran(q, ms).creds.Valid()
    decreases |ms|
  {
    if ms != [] {
      MoveKeepsValid(q, ms[0]);
      MovesKeepValid(Moved(q, ms[0]), ms[1..]);
    }
  }
}
