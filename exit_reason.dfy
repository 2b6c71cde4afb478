// How a finished child process is classified (fuzz_runner/src/exitreason.rs).
module ExitReason {
  import opened Types
  import opened Wrappers

  datatype ExitReason =
    | Normal(code: i32)
    | Timeout
    | Signaled(signal: i32)
    | Crash(crashData: seq<u8>)
    | Asan
    | Stopped(signal: i32)
    | FuzzerError
    | InvalidWriteToPayload(writeData: seq<u8>)

  /** The statuses `waitpid` reports; only the first three carry an exit reason. */
  datatype WaitStatus =
    | Exited(pid: int, exitCode: i32)
    | KilledBy(pid: int, killSignal: i32, coreDumped: bool)
    | StoppedBy(pid: int, stopSignal: i32)
    | PtraceEvent(pid: int, eventSignal: i32, event: int)
    | PtraceSyscall(pid: int)
    | Continued(pid: int)
    | StillAlive

  /** `ExitReason::from_wait_status`; any other status panics (None here). */
  function FromWaitStatus(status: WaitStatus): (r: Option<ExitReason>)
    ensures status.Exited? <==> r.Some? && r.value.Normal?
    ensures status.Exited? ==> r == Some(Normal(status.exitCode))
    ensures status.KilledBy? ==> r == Some(Signaled(status.killSignal))
    ensures status.StoppedBy? ==> r == Some(Stopped(status.stopSignal))
    ensures r.None? <==> !(status.Exited? || status.KilledBy? || status.StoppedBy?)
  {
    match status
    case Exited(_, code) => Some(Normal(code))
    case KilledBy(_, signal, _) => Some(Signaled(signal))
    case StoppedBy(_, signal) => Some(Stopped(signal))
    case _ => None
  }

  /** `ExitReason::is_normal`. */
  predicate IsNormal(e: ExitReason) {
    e.Normal?
  }

  /** `ExitReason::name`; `FuzzerError` is `unreachable!()` (None here). */
  function Name(e: ExitReason): (r: Option<string>)
    ensures r.None? <==> e.FuzzerError?
    ensures r.Some? ==> |r.value| > 0
  {
    match e
    case Normal(_) => Some("normal")
    case Timeout => Some("timeout")
    case Signaled(_) => Some("signal")
    case Crash(_) => Some("crash")
    case Asan => Some("asan")
    case Stopped(_) => Some("stop")
    case InvalidWriteToPayload(_) => Some("invalid_write_to_payload_buffer")
    case FuzzerError => None
  }

  /** Two exit reasons share a name only if they are the same kind of reason. */
  lemma NamesDistinct(e1: ExitReason, e2: ExitReason)
    requires Name(e1).Some? && Name(e1) == Name(e2)
    ensures e1.Normal? == e2.Normal? && e1.Timeout? == e2.Timeout?
    ensures e1.Signaled? == e2.Signaled? && e1.Crash? == e2.Crash?
    ensures e1.Asan? == e2.Asan? && e1.Stopped? == e2.Stopped?
    ensures e1.InvalidWriteToPayload? == e2.InvalidWriteToPayload?
  {
    var n1, n2 := Name(e1).value, Name(e2).value;
    assert n1 == n2;
    // the names differ in length or in their first letters
    assert |n1| == |n2| && n1[0] == n2[0] && n1[|n1| - 1] == n2[|n2| - 1];
  }

  /** A process that exited normally is classified as normal, and nothing else is. */
  lemma NormalIffExited(status: WaitStatus)
    requires FromWaitStatus(status).Some?
    ensures IsNormal(FromWaitStatus(status).value) <==> status.Exited?
  {
  }
}
