module Notices {
  import opened Namespaces

  /** What the workload task tells the supervisor before it execs (src/process.rs:25-39). */
  datatype ChildNotice =
    | NamespaceReady(ids: NamespaceIds, namespacePid: int)
    | IsolationReady
    | ProcessStart(namespacePid: int)
    | Failed(error: string)
}
