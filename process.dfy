/** `collectors/process`: for every thread the kernel lists, a directory of the
    report holding what `/proc` says about it. */
module ProcessCollector {
  import opened Errors
  import opened Strings
  import opened Paths
  import opened Io
  import CommandRunner

  datatype Collector = Collector(destinationPath: string)

  /** `process.NewCollector(destinationPath)`. */
  function NewCollector(destinationPath: string): (c: Collector)
    ensures c.destinationPath == destinationPath
  {
    Collector(destinationPath)
  }

  /** The shell pipeline that lists one thread id per line. */
  const ListCommand: string := "ps -eLo tid | awk 'NR>1'"

  /** One piece of process data: the shell command that prints it and the file it goes to. */
  datatype Item = Item(command: string, file: string)

  /** The five items of a process, in the order they are collected. */
  function Items(proc: string, procDir: string): seq<Item> {
    [ Item("ls -lah /proc/" + proc + "/fd", Join(procDir, "fd")),
      Item("ls -lah /proc/" + proc + "/ns", Join(procDir, "ns")),
      Item("cat /proc/" + proc + "/cgroup", Join(procDir, "cgroup")),
      Item("cat /proc/" + proc + "/status", Join(procDir, "status")),
      Item("cat /proc/" + proc + "/stack", Join(procDir, "stack")) ]
  }

  /** What running an item's command through `sh -c` gives. */
  function RunItem(exec: CommandRunner.Exec, item: Item): CommandRunner.Outcome {
    CommandRunner.Run(exec, "sh", ["-c", item.command])
  }

  /** The files after collecting `items` in order; the first item whose
      command or write fails ends the collection for this process. */
  function CollectItems(items: seq<Item>, exec: CommandRunner.Exec,
                        writeFault: string -> Option<Err>, files: map<string, string>)
    : map<string, string>
    decreases |items|
  {
    if items == [] then files
    else
      var o := RunItem(exec, items[0]);
      if o.err.Some? || writeFault(items[0].file).Some? then files
      else CollectItems(items[1..], exec, writeFault, files[items[0].file := o.output])
  }

  /** The directories and files of the report. */
  datatype State = State(dirs: set<string>, files: map<string, string>)

  /** The directory of the process on `line`: the line without its spaces,
      under the collector's destination. */
  function ProcDir(c: Collector, reportDir: string, line: string): string {
    JoinAll([reportDir, c.destinationPath, Trim(line, ' ')])
  }

  /** A process of the listing: its directory and its items. */
  datatype Proc = Proc(dir: string, items: seq<Item>)

  /** The process on `line`. */
  function ProcOf(c: Collector, reportDir: string, line: string): Proc {
    var dir := ProcDir(c, reportDir, line);
    Proc(dir, Items(Trim(line, ' '), dir))
  }

  /** The processes of the listing's lines, one per line, in order. */
  function Procs(c: Collector, reportDir: string, lines: seq<string>): (ps: seq<Proc>)
    ensures |ps| == |lines|
    ensures forall k :: 0 <= k < |lines| ==> ps[k] == ProcOf(c, reportDir, lines[k])
  {
    if lines == [] then [] else [ProcOf(c, reportDir, lines[0])] + Procs(c, reportDir, lines[1..])
  }

  /** The loop over the processes of the listing: make each process's directory
      and collect its items; a directory that cannot be made ends the whole run. */
  function CollectLines(procs: seq<Proc>, exec: CommandRunner.Exec, mkdirFault: string -> Option<Err>,
                        writeFault: string -> Option<Err>, st: State)
    : (Option<Err>, State)
    decreases |procs|
  {
    if procs == [] then (None, st)
    else
      match mkdirFault(procs[0].dir)
      case Some(e) => (Some(e), st)
      case None =>
        var files := CollectItems(procs[0].items, exec, writeFault, st.files);
        CollectLines(procs[1..], exec, mkdirFault, writeFault, State(st.dirs + {procs[0].dir}, files))
  }

  /** The lines of a successful listing. */
  function Lines(exec: CommandRunner.Exec): seq<string> {
    Split(CommandRunner.Run(exec, "sh", ["-c", ListCommand]).output, '\n')
  }

  /** `Collector.Run(ctx, reportDir, stdout)` from state `st`: a failed listing
      is returned as it is and changes nothing. */
  function Collect(c: Collector, exec: CommandRunner.Exec,
                   mkdirFault: string -> Option<Err>, writeFault: string -> Option<Err>,
                   reportDir: string, st: State)
    : (r: (Option<Err>, State))
    ensures var listing := CommandRunner.Run(exec, "sh", ["-c", ListCommand]);
      listing.err.Some? ==> r == (listing.err, st)
  {
    var listing := CommandRunner.Run(exec, "sh", ["-c", ListCommand]);
    if listing.err.Some? then (listing.err, st)
    else CollectLines(Procs(c, reportDir, Lines(exec)), exec, mkdirFault, writeFault, st)
  }

  /** A run fails only when the listing fails or the directory of one of its
      lines cannot be made; the items collected never decide the result. */
  lemma CollectErrorSource(c: Collector, exec: CommandRunner.Exec,
                           mkdirFault: string -> Option<Err>, writeFault: string -> Option<Err>,
                           reportDir: string, st: State)
    ensures var r := Collect(c, exec, mkdirFault, writeFault, reportDir, st);
      r.0.Some? ==> r.0 == CommandRunner.Run(exec, "sh", ["-c", ListCommand]).err
                    || exists k :: FailingLine(c, reportDir, Lines(exec), mkdirFault, k, r.0.value)
  {
    var listing := CommandRunner.Run(exec, "sh", ["-c", ListCommand]);
    var r := Collect(c, exec, mkdirFault, writeFault, reportDir, st);
    if listing.err.None? && r.0.Some? {
      var procs := Procs(c, reportDir, Lines(exec));
      var k := CollectLinesError(procs, exec, mkdirFault, writeFault, st);
      assert FailingLine(c, reportDir, Lines(exec), mkdirFault, k, r.0.value);
    }
  }

  /** Line `k` is a process whose directory failed with `e`. */
  ghost predicate FailingLine(c: Collector, reportDir: string, lines: seq<string>,
                              mkdirFault: string -> Option<Err>, k: int, e: Err)
  {
    0 <= k < |lines| && mkdirFault(ProcDir(c, reportDir, lines[k])) == Some(e)
  }

  /** The error of the loop is the mkdir error of one of its processes. */
  lemma {:induction false} CollectLinesError(procs: seq<Proc>, exec: CommandRunner.Exec,
                                             mkdirFault: string -> Option<Err>,
                                             writeFault: string -> Option<Err>, st: State)
    returns (k: nat)
    requires CollectLines(procs, exec, mkdirFault, writeFault, st).0.Some?
    ensures k < |procs|
    ensures mkdirFault(procs[k].dir) == CollectLines(procs, exec, mkdirFault, writeFault, st).0
    decreases |procs|
  {
    if mkdirFault(procs[0].dir).Some? {
      k := 0;
    } else {
      var files := CollectItems(procs[0].items, exec, writeFault, st.files);
      var k' := CollectLinesError(procs[1..], exec, mkdirFault, writeFault, State(st.dirs + {procs[0].dir}, files));
      k := k' + 1;
    }
  }

  /** `collectProcData`: run one item's command and write its output. */
  method CollectProcData(exec: CommandRunner.Exec, command: string, destFile: string, fs: FileSystem)
    returns (err: Option<Err>)
    modifies fs
    ensures var o := RunItem(exec, Item(command, destFile));
      && err == FirstError([o.err, fs.writeFault(destFile)])
      && fs.files == (if err.None? then old(fs.files)[destFile := o.output] else old(fs.files))
      && fs.dirs == old(fs.dirs)
  {
    var o := CommandRunner.Run(exec, "sh", ["-c", command]);
    if o.err.Some? {
      return o.err;
    }
    err := fs.WriteFile(destFile, o.output);
    assert [o.err, fs.writeFault(destFile)][1..] == [fs.writeFault(destFile)];
  }

  /** The first of `items`, collected; `stop` says whether the rest are skipped. */
  method CollectFirst(exec: CommandRunner.Exec, items: seq<Item>, fs: FileSystem) returns (stop: bool)
    requires items != []
    modifies fs
    ensures CollectItems(items, exec, fs.writeFault, old(fs.files))
         == if stop then fs.files else CollectItems(items[1..], exec, fs.writeFault, fs.files)
    ensures fs.dirs == old(fs.dirs)
  {
    var err := CollectProcData(exec, items[0].command, items[0].file, fs);
    stop := err.Some?;
  }

  /** The five items of one process, each tried only when the one before it
      was collected: the `continue` statements of the loop body. */
  method CollectProcess(exec: CommandRunner.Exec, proc: string, procDir: string, fs: FileSystem)
    modifies fs
    ensures fs.files == CollectItems(Items(proc, procDir), exec, fs.writeFault, old(fs.files))
    ensures fs.dirs == old(fs.dirs)
  {
    var items := Items(proc, procDir);
    var stop := CollectFirst(exec, items, fs);
    if stop {
      return;
    }
    stop := CollectFirst(exec, items[1..], fs);
    if stop {
      return;
    }
    assert items[1..][1..] == items[2..];
    stop := CollectFirst(exec, items[2..], fs);
    if stop {
      return;
    }
    assert items[2..][1..] == items[3..];
    stop := CollectFirst(exec, items[3..], fs);
    if stop {
      return;
    }
    assert items[3..][1..] == items[4..];
    stop := CollectFirst(exec, items[4..], fs);
    if stop {
      return;
    }
    assert items[4..][1..] == [];
  }

  /** `Collector.Run(ctx, reportDir, stdout)`: the new directories, files and
      result are those that `Collect` describes. */
  method Run(c: Collector, exec: CommandRunner.Exec, reportDir: string, fs: FileSystem)
    returns (err: Option<Err>)
    modifies fs
    ensures (err, State(fs.dirs, fs.files))
         == Collect(c, exec, fs.mkdirFault, fs.writeFault, reportDir, State(old(fs.dirs), old(fs.files)))
  {
    var procs := CommandRunner.Run(exec, "sh", ["-c", ListCommand]);
    if procs.err.Some? {
      return procs.err;
    }
    var lines := Split(procs.output, '\n');
    ghost var ps := Procs(c, reportDir, lines);
    ghost var goal := CollectLines(ps, exec, fs.mkdirFault, fs.writeFault, State(fs.dirs, fs.files));
    var i := 0;
    while i < |lines|
      invariant 0 <= i <= |lines|
      invariant goal == CollectLines(ps[i..], exec, fs.mkdirFault, fs.writeFault, State(fs.dirs, fs.files))
    {
      var proc := Trim(lines[i], ' ');
      var procDir := JoinAll([reportDir, c.destinationPath, proc]);
      assert ps[i..][0] == ps[i] == Proc(procDir, Items(proc, procDir));
      assert ps[i..][1..] == ps[i + 1..];
      err := fs.MkdirAll(procDir);
      if err.Some? {
        return;
      }
      CollectProcess(exec, proc, procDir, fs);
      i := i + 1;
    }
    return None;
  }

  /** Once an item fails, the items after it are not collected for that process. */
  lemma {:induction false} CollectItemsStopsAt(items: seq<Item>, k: nat, exec: CommandRunner.Exec,
                                              writeFault: string -> Option<Err>, files: map<string, string>)
    requires k < |items|
    requires RunItem(exec, items[k]).err.Some? || writeFault(items[k].file).Some?
    ensures CollectItems(items, exec, writeFault, files) == CollectItems(items[..k], exec, writeFault, files)
    decreases k
  {
    if k == 0 {
      assert items[..0] == [];
    } else {
      var o := RunItem(exec, items[0]);
      if !(o.err.Some? || writeFault(items[0].file).Some?) {
        CollectItemsStopsAt(items[1..], k - 1, exec, writeFault, files[items[0].file := o.output]);
        assert items[..k][1..] == items[1..][..k - 1];
      }
    }
  }

  /** Item `j` produced the value `v` of file `p`. */
  ghost predicate WrittenBy(items: seq<Item>, exec: CommandRunner.Exec, j: int, p: string, v: string) {
    0 <= j < |items| && items[j].file == p
    && RunItem(exec, items[j]).err.None? && RunItem(exec, items[j]).output == v
  }

  /** A file is written only by an item whose command succeeded, and holds
      that command's output; every other file stays as it was. */
  lemma {:induction false} CollectItemsWritesOutputs(items: seq<Item>, exec: CommandRunner.Exec,
                                                    writeFault: string -> Option<Err>, files: map<string, string>)
    ensures var r := CollectItems(items, exec, writeFault, files);
      forall p :: p in r ==> (p in files && r[p] == files[p]) || exists j :: WrittenBy(items, exec, j, p, r[p])
    ensures files.Keys <= CollectItems(items, exec, writeFault, files).Keys
    decreases |items|
  {
    if items != [] {
      var o := RunItem(exec, items[0]);
      if !(o.err.Some? || writeFault(items[0].file).Some?) {
        var files' := files[items[0].file := o.output];
        CollectItemsWritesOutputs(items[1..], exec, writeFault, files');
        var r := CollectItems(items, exec, writeFault, files);
        forall p | p in r
          ensures (p in files && r[p] == files[p]) || exists j :: WrittenBy(items, exec, j, p, r[p])
        {
          if p in files' && r[p] == files'[p] {
            if p == items[0].file {
              assert WrittenBy(items, exec, 0, p, r[p]);
            }
          } else {
            var j :| WrittenBy(items[1..], exec, j, p, r[p]);
            assert WrittenBy(items, exec, j + 1, p, r[p]);
          }
        }
      }
    }
  }

  /** When every directory can be made, the loop succeeds and makes exactly
      the directory of every process. */
  lemma {:induction false} CollectLinesMakesEveryDir(procs: seq<Proc>, exec: CommandRunner.Exec,
                                                    mkdirFault: string -> Option<Err>,
                                                    writeFault: string -> Option<Err>, st: State)
    requires forall k :: 0 <= k < |procs| ==> mkdirFault(procs[k].dir).None?
    ensures var r := CollectLines(procs, exec, mkdirFault, writeFault, st);
      r.0 == None && r.1.dirs == st.dirs + (set k | 0 <= k < |procs| :: procs[k].dir)
    decreases |procs|
  {
    if procs != [] {
      var dir := procs[0].dir;
      var files := CollectItems(procs[0].items, exec, writeFault, st.files);
      CollectLinesMakesEveryDir(procs[1..], exec, mkdirFault, writeFault, State(st.dirs + {dir}, files));
      var rest := set k | 0 <= k < |procs[1..]| :: procs[1..][k].dir;
      var all := set k | 0 <= k < |procs| :: procs[k].dir;
      assert all == {dir} + rest by {
        forall d | d in all ensures d in {dir} + rest {
          var k :| 0 <= k < |procs| && d == procs[k].dir;
          if k > 0 {
            assert d == procs[1..][k - 1].dir;
          }
        }
        forall d | d in rest ensures d in all {
          var k :| 0 <= k < |procs[1..]| && d == procs[1..][k].dir;
          assert d == procs[k + 1].dir;
        }
      }
    }
  }

  /** A mkdir failure at process `k` ends the run there: no later process is looked at. */
  lemma {:induction false} CollectLinesStopsAt(procs: seq<Proc>, k: nat, exec: CommandRunner.Exec,
                                              mkdirFault: string -> Option<Err>,
                                              writeFault: string -> Option<Err>, st: State)
    requires k < |procs| && mkdirFault(procs[k].dir).Some?
    ensures CollectLines(procs, exec, mkdirFault, writeFault, st).0.Some?
    ensures CollectLines(procs, exec, mkdirFault, writeFault, st)
         == CollectLines(procs[..k + 1], exec, mkdirFault, writeFault, st)
    decreases k
  {
    if k > 0 && mkdirFault(procs[0].dir).None? {
      var files := CollectItems(procs[0].items, exec, writeFault, st.files);
      CollectLinesStopsAt(procs[1..], k - 1, exec, mkdirFault, writeFault, State(st.dirs + {procs[0].dir}, files));
      assert procs[..k + 1][1..] == procs[1..][..k];
    }
  }

  /** A listing that ends in a newline has an empty last line, which is
      processed too. */
  lemma TrailingNewlineLine(tids: string)
    requires '\n' !in tids
    ensures Split(tids + "\n", '\n') == [tids, ""]
  {
    SplitAround(tids, '\n', "");
    assert tids + "\n" == tids + ['\n'] + "";
    assert Split("", '\n') == [""];
  }

  /** The directory of an empty line is the destination directory itself. */
  lemma EmptyLineDir(c: Collector, reportDir: string)
    requires reportDir != ""
    ensures ProcDir(c, reportDir, "") == Join(reportDir, c.destinationPath)
  {
    assert Trim("", ' ') == "";
    JoinAllEmptyLast(reportDir, c.destinationPath);
  }
}
