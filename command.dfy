/** `collectors/command`: runs a shell command, keeps its output in a file of
    the report and echoes it to the collector's sink. */
module CommandCollector {
  import opened Errors
  import opened Paths
  import opened Io
  import CommandRunner

  datatype Collector = Collector(cmd: string, filename: string)

  /** `command.New(cmd, filename)`. */
  function New(cmd: string, filename: string): (c: Collector)
    ensures c.cmd == cmd && c.filename == filename
  {
    Collector(cmd, filename)
  }

  /** What the collector returns for an execution before it writes anything:
      the deadline first, then a non-zero exit (as its stderr), then any other
      execution error as it is. */
  function Failure(x: CommandRunner.Execution): (r: Option<Err>)
    ensures x.deadlineExceeded ==> r == Some(Deadline)
    ensures !x.deadlineExceeded && x.error.ExitError? ==> r == Some(Other(x.error.stderr))
    ensures !x.deadlineExceeded && x.error.StartError? ==> r == Some(x.error.e)
    ensures r.None? <==> !x.deadlineExceeded && x.error.NoError?
  {
    if x.deadlineExceeded then Some(Deadline)
    else match x.error
      case ExitError(stderr) => Some(Other(stderr))
      case StartError(e) => Some(e)
      case NoError => None
  }

  /** The collector agrees with `CommandRunner` wherever the runner reports an
      error, and differs only in also reporting errors that are not exit errors. */
  lemma FailureExtendsClassify(x: CommandRunner.Execution)
    ensures CommandRunner.Classify(x).err.Some? ==> Failure(x) == CommandRunner.Classify(x).err
    ensures Failure(x).None? ==> CommandRunner.Classify(x).err.None?
    ensures Failure(x) != CommandRunner.Classify(x).err <==> !x.deadlineExceeded && x.error.StartError?
  {
  }

  /** The file the output goes to. */
  function OutPath(c: Collector, destPath: string): string {
    Join(destPath, c.filename)
  }

  /** `Collector.Run(ctx, destPath, stdout)`: on success the file at
      `OutPath` holds exactly the command's stdout, and the same bytes then go to
      the sink; each failing step returns its error and skips the later ones. */
  method Run(c: Collector, exec: CommandRunner.Exec, destPath: string, fs: FileSystem, stdout: Writer)
    returns (err: Option<Err>)
    modifies fs, stdout
    ensures var x := exec("sh", ["-c", c.cmd]);
      var out := OutPath(c, destPath);
      var ran := Failure(x).None?;
      var made := ran && fs.mkdirFault(Dir(out)).None?;
      var wrote := made && fs.writeFault(out).None?;
      && err == FirstError([Failure(x), fs.mkdirFault(Dir(out)), fs.writeFault(out), stdout.fault])
      && fs.dirs == (if made then old(fs.dirs) + {Dir(out)} else old(fs.dirs))
      && fs.files == (if wrote then old(fs.files)[out := x.output] else old(fs.files))
      && stdout.written == (if wrote && stdout.fault.None? then old(stdout.written) + [x.output]
                            else old(stdout.written))
  {
    var x := exec("sh", ["-c", c.cmd]);
    var f := Failure(x);
    var outPath := Join(destPath, c.filename);
    ghost var steps := [f, fs.mkdirFault(Dir(outPath)), fs.writeFault(outPath), stdout.fault];
    assert steps[1..] == [fs.mkdirFault(Dir(outPath)), fs.writeFault(outPath), stdout.fault];
    assert steps[2..] == [fs.writeFault(outPath), stdout.fault] == steps[1..][1..];
    assert steps[3..] == [stdout.fault] == steps[2..][1..];
    if f.Some? {
      return f;
    }
    err := fs.MkdirAll(Dir(outPath));
    if err.Some? {
      assert FirstError(steps) == FirstError(steps[1..]) == err;
      return;
    }
    err := fs.WriteFile(outPath, x.output);
    assert FirstError(steps) == FirstError(steps[1..]) == FirstError(steps[2..]);
    if err.Some? {
      return;
    }
    err := stdout.Write(x.output);
    assert FirstError(steps[2..]) == FirstError(steps[3..]) == err;
  }
}
