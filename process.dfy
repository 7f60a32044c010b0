/** Running programs, as abstract verdicts. Nothing is executed: what a run of an invocation
    reports is an input of the model. */
module Process {

  import opened Options
  import opened Paths
  import opened Errors
  import opened Fs
  import opened Compilers
  import opened Passes

  /** What `Command::status` reports: the program could not be started, or it exited. */
  datatype Status = SpawnFailed | Exited(success: bool)

  /** What `spawn` followed by `wait_timeout(secs)` gives: no child, a failed wait, an exit
      within the limit, or a child still running when the limit expired, which is then killed
      (the kill itself may fail). */
  datatype Waited = WaitSpawnFailed | WaitFailed | Finished(success: bool) | Expired(killed: bool)

  /** The host's answers: `status` for a run to completion, `waitTimeout` for a bounded run,
      `dump` for the text a gccrs run leaves in `gccrs.ast-pretty.dump` (`None`: it writes
      nothing), and `astRun` for the per-file outcome of the AST export `Run` sub-strategy,
      whose adapt step is not part of this model. */
  datatype Runner = Runner(
    status: Invocation -> Status,
    waitTimeout: (Invocation, nat) -> Waited,
    dump: Invocation -> Option<Content>,
    astRun: Path -> Result<TestCase>)

  /** `cmd.status()?.success()`. */
  function StatusOf(runner: Runner, inv: Invocation): (r: Result<bool>)
    ensures r.Ok? <==> runner.status(inv).Exited?
    ensures r.Ok? ==> r.value == runner.status(inv).success
  {
    match runner.status(inv)
    case SpawnFailed => Err(Io(NotFound))
    case Exited(success) => Ok(success)
  }

  method RunStatus(runner: Runner, cmd: Command) returns (r: Result<bool>)
    ensures r == StatusOf(runner, cmd.Snapshot())
  {
    r := StatusOf(runner, cmd.Snapshot());
  }

  /** `spawn()?`, then `wait_timeout(secs)?`: the child's success if it exited in time;
      `false` for a child still running at the limit, once `kill()?` has stopped it; otherwise
      the error of the step that failed. */
  function TimedRun(runner: Runner, inv: Invocation, secs: nat): (r: Result<bool>)
    ensures r.Ok? <==> runner.waitTimeout(inv, secs).Finished? || runner.waitTimeout(inv, secs) == Expired(true)
    ensures r == Ok(true) <==> runner.waitTimeout(inv, secs) == Finished(true)
  {
    match runner.waitTimeout(inv, secs)
    case WaitSpawnFailed => Err(Io(NotFound))
    case WaitFailed => Err(Io(Other))
    case Finished(success) => Ok(success)
    case Expired(killed) => if killed then Ok(false) else Err(Io(Other))
  }

  /** Spawning `cmd`, waiting at most `secs` seconds, and killing the child if it outlives
      the limit. */
  method RunWithTimeout(runner: Runner, cmd: Command, secs: nat) returns (r: Result<bool>)
    ensures r == TimedRun(runner, cmd.Snapshot(), secs)
  {
    var waited := runner.waitTimeout(cmd.Snapshot(), secs);
    if waited.WaitSpawnFailed? {
      return Err(Io(NotFound));
    }
    if waited.WaitFailed? {
      return Err(Io(Other));
    }
    if waited.Finished? {
      return Ok(waited.success);
    }
    if !waited.killed {
      return Err(Io(Other));
    }
    r := Ok(false);
  }
}
