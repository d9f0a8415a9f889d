/** Names and answers the whole model shares. */
module Runs {
  type RunId = string

  /** A store write lands, is lost, or lands and is still reported as failed. */
  datatype Io = Landed | Lost | Unsure

  /** Why a process ended. */
  datatype Reason = Exited | CancelRequested | HardTimeout | OutputLimit | OutputError

  datatype Signal = SIGTERM | SIGKILL
}
