/** `collectors/file`: copies a file or a directory into the report with `cp`. */
module FileCollector {
  import opened Errors
  import opened Strings
  import opened Paths
  import CommandRunner

  datatype Collector = Collector(sourcePath: string, destinationPath: string, archive: bool)

  /** `file.NewCollector`: copies a single file. */
  function NewCollector(sourcePath: string, destinationPath: string): (c: Collector)
    ensures c.sourcePath == sourcePath && c.destinationPath == destinationPath && !c.archive
  {
    Collector(sourcePath, destinationPath, false)
  }

  /** `file.NewDirCollector`: copies recursively, keeping attributes. */
  function NewDirCollector(sourcePath: string, destinationPath: string): (c: Collector)
    ensures c.sourcePath == sourcePath && c.destinationPath == destinationPath && c.archive
  {
    Collector(sourcePath, destinationPath, true)
  }

  function Destination(c: Collector, reportDir: string): string {
    Join(reportDir, c.destinationPath)
  }

  /** The directory made before copying: the destination itself when the
      destination path ends in a slash, otherwise its parent. */
  function DirToMake(c: Collector, reportDir: string): string {
    var dest := Destination(c, reportDir);
    if HasSuffix(c.destinationPath, "/") then dest else Dir(dest)
  }

  function ArchiveFlag(c: Collector): string {
    if c.archive then "-a" else ""
  }

  /** `fmt.Sprintf("cp %s %s %s", archive, source, destination)`: the four
      words joined by single spaces. */
  function CopyCommand(c: Collector, reportDir: string): string {
    Intercalate(["cp", ArchiveFlag(c), c.sourcePath, Destination(c, reportDir)], " ")
  }

  /** What one run did: the directory it made, the command it ran, its result. */
  datatype Effects = Effects(made: Option<string>, command: Option<string>, err: Option<Err>)

  /** `Collector.Run(ctx, reportDir, stdout)`, with `mkdir(p)` the error of
      `os.MkdirAll(p)`: a failed mkdir is returned and nothing is run; otherwise
      the result is the runner's error, and its output is dropped. */
  function Run(c: Collector, reportDir: string, mkdir: string -> Option<Err>, exec: CommandRunner.Exec)
    : (r: Effects)
    ensures r.made.Some? <==> mkdir(DirToMake(c, reportDir)).None?
    ensures r.made.Some? ==> r.made.value == DirToMake(c, reportDir)
    ensures r.command.Some? <==> r.made.Some?
    ensures r.made.None? ==> r.err == mkdir(DirToMake(c, reportDir))
    ensures r.command.Some? ==>
              r.command.value == CopyCommand(c, reportDir)
              && r.err == CommandRunner.Run(exec, "sh", ["-c", r.command.value]).err
  {
    var dir := DirToMake(c, reportDir);
    match mkdir(dir)
    case Some(e) => Effects(None, None, Some(e))
    case None =>
      var cmd := CopyCommand(c, reportDir);
      Effects(Some(dir), Some(cmd), CommandRunner.Run(exec, "sh", ["-c", cmd]).err)
  }

  /** A destination written as a directory (`name/`) is made itself. */
  lemma DirDestinationIsMade(c: Collector, reportDir: string, name: string)
    requires reportDir != "" && IsName(name) && c.destinationPath == name + "/"
    ensures DirToMake(c, reportDir) == Join(reportDir, name)
    ensures Destination(c, reportDir) == Join(reportDir, name)
  {
    assert HasSuffix(name + "/", "/");
    JoinTrailingSlash(reportDir, name);
  }

  /** A destination written as a file name gets its parent, the report
      directory, made. */
  lemma FileDestinationParentIsMade(c: Collector, reportDir: string, name: string)
    requires reportDir != "" && IsName(name) && c.destinationPath == name
    ensures DirToMake(c, reportDir) == Clean(reportDir)
  {
    assert name[|name| - 1] in name;
    JoinedNameSplits(reportDir, name);
  }

  /** The command has four space-separated words: `cp`, the flag (empty for a
      plain file, which leaves two spaces in a row), the source and the destination. */
  lemma CopyCommandWords(c: Collector, reportDir: string)
    requires ' ' !in c.sourcePath && ' ' !in Destination(c, reportDir)
    ensures Split(CopyCommand(c, reportDir), ' ')
         == ["cp", ArchiveFlag(c), c.sourcePath, Destination(c, reportDir)]
  {
    assert ' ' !in "cp" && ' ' !in ArchiveFlag(c);
    SplitFour("cp", ArchiveFlag(c), c.sourcePath, Destination(c, reportDir), ' ');
  }
}
