/** Namespace identities and the boundary check between supervisor and workload
    (src/isolate/ns.rs and the validator at the end of src/process.rs). */
module Namespaces {

  datatype Kind = User | Pid | Uts | Ipc | Mnt | Net

  /** The targets of the six links under /proc/thread-self/ns. */
  datatype NamespaceIds = NamespaceIds(
    user: string, pid: string, uts: string, ipc: string, mnt: string, net: string)
  {
    function Of(k: Kind): string {
      match k
      case User => user
      case Pid => pid
      case Uts => uts
      case Ipc => ipc
      case Mnt => mnt
      case Net => net
    }
  }

  function WorkloadCloneFlags(mapRootless: bool, enableNet: bool): set<Kind> {
    {Pid, Uts, Ipc, Mnt}
    + (if mapRootless then {User} else {})
    + (if enableNet then {Net} else {})
  }

  /** The namespaces an NS_CREATED message names, in the order it names them. */
  function WorkloadNamespaceNames(mapRootless: bool, enableNet: bool): seq<Kind> {
    (if mapRootless then [User] else [])
    + [Pid, Uts, Ipc, Mnt]
    + (if enableNet then [Net] else [])
  }

  /** The first check that a reported identity fails. */
  datatype Violation =
    | NotPidOne
    | NotDistinct(kind: Kind)
    | UnexpectedlyDistinct(kind: Kind)

  datatype Verdict = Accepted | Rejected(why: Violation)

  function ValidateBoundary(
    supervisor: NamespaceIds, workload: NamespaceIds, mapRootless: bool, enableNet: bool, namespacePid: int): Verdict
  {
    if namespacePid != 1 then Rejected(NotPidOne)
    else if supervisor.pid == workload.pid then Rejected(NotDistinct(Pid))
    else if supervisor.uts == workload.uts then Rejected(NotDistinct(Uts))
    else if supervisor.ipc == workload.ipc then Rejected(NotDistinct(Ipc))
    else if supervisor.mnt == workload.mnt then Rejected(NotDistinct(Mnt))
    else if mapRootless && supervisor.user == workload.user then Rejected(NotDistinct(User))
    else if !mapRootless && supervisor.user != workload.user then Rejected(UnexpectedlyDistinct(User))
    else if enableNet && supervisor.net == workload.net then Rejected(NotDistinct(Net))
    else if !enableNet && supervisor.net != workload.net then Rejected(UnexpectedlyDistinct(Net))
    else Accepted
  }

  /** The namespaces in which two tasks differ. */
  function Differing(a: NamespaceIds, b: NamespaceIds): set<Kind> {
    set k: Kind | a.Of(k) != b.Of(k)
  }

  /** Isolated exactly as the clone flags ask: PID 1 of its own namespace, and
      distinct from the supervisor in the cloned namespaces and in no other. */
  predicate IsolatedAsRequested(
    supervisor: NamespaceIds, workload: NamespaceIds, mapRootless: bool, enableNet: bool, namespacePid: int)
  {
    namespacePid == 1 && Differing(supervisor, workload) == WorkloadCloneFlags(mapRootless, enableNet)
  }

  /** The validator accepts exactly the workloads that the clone flags describe. */
  lemma ValidationIsExact(
    supervisor: NamespaceIds, workload: NamespaceIds, mapRootless: bool, enableNet: bool, namespacePid: int)
    ensures ValidateBoundary(supervisor, workload, mapRootless, enableNet, namespacePid).Accepted?
            <==> IsolatedAsRequested(supervisor, workload, mapRootless, enableNet, namespacePid)
  {
    var d, f := Differing(supervisor, workload), WorkloadCloneFlags(mapRootless, enableNet);
    forall k: Kind
      ensures k in d <==> supervisor.Of(k) != workload.Of(k)
    {}
    assert Pid in f && Uts in f && Ipc in f && Mnt in f;
    assert (User in f <==> mapRootless) && (Net in f <==> enableNet);
    if ValidateBoundary(supervisor, workload, mapRootless, enableNet, namespacePid).Accepted? {
      forall k: Kind ensures k in d <==> k in f {
        match k { case User => case Pid => case Uts => case Ipc => case Mnt => case Net => }
      }
    } else if namespacePid == 1 {
      assert exists k: Kind :: (k in d) != (k in f) by {
        var why := ValidateBoundary(supervisor, workload, mapRootless, enableNet, namespacePid).why;
        assert (why.kind in d) != (why.kind in f);
      }
    }
  }

  lemma NamesAreFlags(mapRootless: bool, enableNet: bool, k: Kind)
    ensures k in WorkloadNamespaceNames(mapRootless, enableNet) <==> k in WorkloadCloneFlags(mapRootless, enableNet)
  {
    var names := WorkloadNamespaceNames(mapRootless, enableNet);
    var u := if mapRootless then 1 else 0;
    assert mapRootless ==> names[0] == User;
    assert names[u] == Pid && names[u + 1] == Uts && names[u + 2] == Ipc && names[u + 3] == Mnt;
    assert enableNet ==> names[u + 4] == Net;
  }

  lemma FlagCount(mapRootless: bool, enableNet: bool)
    ensures |WorkloadCloneFlags(mapRootless, enableNet)| == |WorkloadNamespaceNames(mapRootless, enableNet)|
  {
    var base := {Pid, Uts, Ipc, Mnt};
    var mapped := base + if mapRootless then {User} else {};
    assert |base| == 4;
    assert mapRootless ==> |base + {User}| == 5;
    assert !mapRootless ==> mapped == base;
    assert enableNet ==> |mapped + {Net}| == |mapped| + 1;
    assert !enableNet ==> mapped + {} == mapped;
  }

  /** An NS_CREATED message names each cloned namespace once and no other. */
  lemma NamesMatchFlags(mapRootless: bool, enableNet: bool)
    ensures (set k | k in WorkloadNamespaceNames(mapRootless, enableNet)) == WorkloadCloneFlags(mapRootless, enableNet)
    ensures |WorkloadNamespaceNames(mapRootless, enableNet)| == |WorkloadCloneFlags(mapRootless, enableNet)|
  {
    FlagCount(mapRootless, enableNet);
    forall k: Kind
      ensures k in WorkloadNamespaceNames(mapRootless, enableNet) <==> k in WorkloadCloneFlags(mapRootless, enableNet)
    {
      NamesAreFlags(mapRootless, enableNet, k);
    }
  }
}
