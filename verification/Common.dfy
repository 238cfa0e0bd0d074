/** Small vocabulary shared by every component: optional values, results and
    the daemon's error codes. */
module Common {

  datatype Option<+T> = None | Some(value: T)

  datatype Result<+T, +E> = Ok(value: T) | Err(error: E)

  /** The codes a DaemonError can carry, and any other thrown value. */
  datatype Error =
    | InvalidParams
    | NotFound
    | Busy
    | Capacity
    | ExternalWriterDetected
    | WorkerCrashed
    | PiRpcError
    | Timeout
    | StreamOverflow
    | StreamInterrupted
    | EventHistoryLost
    | Remote(code: string, message: string)
    | Foreign(tag: int)

  function Min(a: int, b: int): int {
    if a <= b then a else b
  }

  function Max(a: int, b: int): int {
    if a <= b then b else a
  }
}
