/** `commandrunner.CommandRunner`: runs a command and reduces what happened to
    its output and one error. */
module CommandRunner {
  import opened Errors

  /** How `exec.Cmd.Output` failed: not at all, with a non-zero exit status
      (an `*exec.ExitError` holding the captured stderr), or otherwise. */
  datatype ExecError = NoError | ExitError(stderr: string) | StartError(e: Err)

  /** One execution: the captured stdout, its error, and whether the context's
      deadline had passed when it returned. */
  datatype Execution = Execution(output: string, error: ExecError, deadlineExceeded: bool)

  /** The operating system: what running `command` with `args` does. */
  type Exec = (string, seq<string>) -> Execution

  /** `([]byte, error)`. */
  datatype Outcome = Outcome(output: string, err: Option<Err>)

  /** The classification of `CommandRunner.Run`: the deadline wins, then the
      exit status; any other failure is not reported. */
  function Classify(x: Execution): (r: Outcome)
    ensures r.output == x.output
    ensures r.err == Some(Deadline) <==> x.deadlineExceeded
    ensures r.err.None? <==> !x.deadlineExceeded && !x.error.ExitError?
    ensures r.err.Some? && r.err != Some(Deadline) ==>
              x.error.ExitError? && r.err.value.Text() == x.error.stderr
  {
    if x.deadlineExceeded then Outcome(x.output, Some(Deadline))
    else if x.error.ExitError? then Outcome(x.output, Some(Other(x.error.stderr)))
    else Outcome(x.output, None)
  }

  /** `CommandRunner{}.Run(ctx, command, args...)`. */
  function Run(exec: Exec, command: string, args: seq<string>): (r: Outcome)
    ensures r.output == exec(command, args).output
    ensures r.err.None? <==> !exec(command, args).deadlineExceeded && !exec(command, args).error.ExitError?
  {
    Classify(exec(command, args))
  }
}
