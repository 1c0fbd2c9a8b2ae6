/** What waitpid and kill have in common for both supervisors. */
module Processes {

  /** The terminal states that waitpid reports. */
  datatype WaitStatus = Exited(code: int) | Signaled(signal: nat)

  const SIGKILL: nat := 9
  const SIGTERM: nat := 15

  /** The exit code a shell would report. */
  function CodeOf(s: WaitStatus): int {
    match s
    case Exited(code) => code
    case Signaled(signal) => 128 + signal
  }
}
