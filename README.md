# dontpanic: the collection orchestrator and its collectors, in Dafny

`dontpanic` gathers diagnostics from a Cloud Foundry host. It runs an ordered list of
collectors, and each collector either produces output or fails. Each collector's output goes
into a per-run report directory. A failing collector is reported and skipped. At the end the
directory is archived with `tar`. This project models that program in Dafny and proves what it
promises.

The project covers:

- **`Reporter`** (`reporter.dfy`, for `osreporter/reporter.go`). This is the collector-based
  orchestrator. It is a class holding an append-only sequence of `RegisteredCollector`
  records. `RegisterCollector` and `RegisterNoisyCollector` append one record each; a record
  gets the default timeout of 10s when none is given.
  `Run` prints a banner, then runs each collector in turn. For each one it prints a
  `## <name>` header and calls the collector once. The collector gets stdout when it is noisy
  and `ioutil.Discard` otherwise. An error is printed as `Failure: <msg>`, and a
  `context.DeadlineExceeded` is first rewritten to `timed out after <timeout>`. `Run`'s
  result is that of the `tar` step only.
  The console is a `Writer` object whose state is the sequence of chunks written to it.
  `Transcript` specifies that state as a sequence of typed lines. The lemmas about
  `Transcript` give the headers, failure lines and echoed output in registration order.
- **`PluginRunner`** (`runner.dfy`, for `osreporter/runner.go` and `osreporter/plugins.go`).
  This is the older plugin-based runner in the same package. It names the report directory
  `os-report-<host>-<YYYY-MM-DD-hh-mm-ss>` inside the base directory. It refuses to run unless
  root, and only once it has made that directory. It writes each successful plugin's bytes to
  `<report dir>/<filename>` and keeps going after a failed plugin or write.
  `RegisterStream` and `RegisterEchoStream` return a handle to the record they appended.
  Records are objects of class `RegisteredPlugin`, so setting `echoOutput` through the handle
  changes the stored record too. `Run` never reads that flag, so an echo stream's bytes are
  not printed on the writer; only its file receives them.
- **Shared parts** (`osreporter.dfy`): the default timeout, the banner, how each kind of line
  is printed, and a helper that emits lines on a writer.
- **Leaf collectors**, each given the outcomes of the commands it runs:
  - `GrootfsUsage` (`grootfs.dfy`): the eight-line fixed-width disk-usage report. It covers
    `du` arguments and parsing, sums that stop at the first failure, image and
    used/unused-volume listings, and the partial report left behind by an error.
  - `ProcessCollector` (`process.dfy`): one directory per line of the thread listing, and five
    `/proc` items per thread. The first failing item ends that thread's items.
  - `FileCollector` (`file.dfy`): the trailing-slash rule for the directory to make, and the
    `cp` command line.
  - `CommandCollector` (`command.dfy`): the deadline, exit-status and other-error
    classification, then mkdir, write file and write sink, in that order.
  - `CommandRunner` (`commandrunner.dfy`): the three-way outcome of running a command.
  - `BpmChecker` (`bpmchecker.dfy`): the default `/proc/1/cmdline` path and the
    `garden_start` substring test.
- **Helpers**: `Errors` (Go errors as `Deadline | Other(msg)`, and `Result`/`Option`);
  `Numbers` (`%d`, `strconv.ParseInt` in base 10 for 64 bits, `time.Duration.String`);
  `Strings` (`strings.Split`/`Join`/`Trim`, `bytes.Contains`, padding); `Paths`
  (`filepath.Join`/`Clean`/`Dir`/`Base` on `/`-separated strings, with `Join` dropping a
  trailing slash as Go's does); `Io` (a `Writer` that records what it was given, and a
  `FileSystem` class with `files: map<string, string>` and `dirs: set<string>` whose mkdir and
  write failures are fixed when it is made); `Seqs` (small facts about
  sequences and maps that several proofs share).

Anything the program receives from outside is a parameter of the model: command outcomes, file
reads, the result of `tar`, the user id, the clock reading and the collectors themselves.

Where the repository's tests or comments and the code disagree, the model follows the code:

- failures print as `Failure: <msg>`, not `>> <name> failed: <msg>`;
- the archive is made with `tar cf` (no compression), even though it is named `.tar.gz`;
- the report directory is not removed after archiving;
- `Reporter.Run` does not make the report directory itself;
- the collectors persist their own output in `Reporter`, while `PluginRunner` writes plugin
  output itself.

The three files of the `osreporter` package do not compile together:

- `New` is declared in both `reporter.go` and `runner.go`;
- `plugins.go` sets fields that the `RegisteredPlugin` of `runner.go` lacks;
- `plugins.go` appends a pointer to a slice of values.

They are therefore modelled as two modules. The plugin record has the shape `plugins.go` uses:
name, filename, plugin, timeout and echo flag, kept in the runner's list as handles.

## Model

| member | source | states |
|---|---|---|
| `Reporter.Reporter.constructor` | osreporter/reporter.go:24-29 | a new reporter keeps the report path and stdout it is given and has no collectors |
| `Reporter.Reporter.Register` | osreporter/reporter.go:39-52 | appends exactly one record (collector, name, echo flag, first timeout given or 10s) at the end; earlier records are unchanged |
| `Reporter.Reporter.RegisterCollector` | osreporter/reporter.go:31-33 | appends one record with the given name and collector and `echoOutput == false` |
| `Reporter.Reporter.RegisterNoisyCollector` | osreporter/reporter.go:35-37 | appends one record with the given name and collector and `echoOutput == true` |
| `Osreporter.TimeoutOfNone` | osreporter/reporter.go:40 | with no timeout given the stored deadline is 10 s, printed `10s` |
| `Osreporter.TimeoutOfFirst` | osreporter/reporter.go:41-43 | documents, by unfolding `TimeoutOf`, that of several timeouts the first is stored and the rest are ignored |
| `Reporter.Translate` | osreporter/reporter.go:94-98 | `DeadlineExceeded` becomes `timed out after <that record's timeout>`, any other error is returned unchanged, success stays success, and the result is never `DeadlineExceeded` |
| `Reporter.TimedOutMessages` | osreporter/reporter.go:95 | the timeout message reads `timed out after 10s` for the default deadline and `timed out after <n>ms` for a deadline of 1 to 9 milliseconds, the cases the tests use |
| `Reporter.RegisteredCollector.Run` | osreporter/reporter.go:89-99 | the collector is invoked once, under the record's own timeout and with the sink its echo flag picks; its error goes through `Translate` |
| `Reporter.Reporter.RunCollector` | osreporter/reporter.go:57-69 | one loop turn calls the collector with the report path, the record's timeout and stdout exactly when it is noisy; it appends that collector's section (header, echoed output, failure line) to stdout |
| `Reporter.Reporter.Run` | osreporter/reporter.go:54-76 | every collector is called exactly once, in order, with the report path, its own timeout and stdout iff noisy; stdout receives the banner and then each section; the result is the `tar` step's whatever the collectors did |
| `Reporter.TranscriptSnoc` | osreporter/reporter.go:57-69 | a further collector adds its section after all lines of the collectors before it, so a failure line sits after its own header and before the next one |
| `Reporter.SectionHeaders` | osreporter/reporter.go:58 | a collector's section holds exactly one header, its own name, and no banner |
| `Reporter.SectionFailure` | osreporter/reporter.go:60-68 | a section holds exactly the collector's translated error text as a failure line, and none when the collector succeeded |
| `Reporter.SectionEcho` | osreporter/reporter.go:60-68 | a section shows the collector's output when and only when the collector is noisy |
| `Reporter.OneBanner` | osreporter/reporter.go:55 | the output starts with the banner, and the banner appears exactly once |
| `Reporter.HeadersAreNames` | osreporter/reporter.go:57-58 | there is one header per registered collector, naming it, in registration order, whatever the collectors return |
| `Reporter.FailuresAreErrors` | osreporter/reporter.go:65-68 | the failure lines are exactly the errors the collectors returned, one per failing collector, in order |
| `Reporter.EchoesAreNoisyOutput` | osreporter/reporter.go:60-63 | stdout shows exactly what the noisy collectors wrote, and nothing a quiet collector wrote |
| `Reporter.TarArgsOfJoined` | osreporter/reporter.go:78-80 | for a report path `dir/name` the archive is `dir/name.tar.gz`, built from inside `dir` and holding `name` |
| `Osreporter.Emit` | osreporter/runner.go:57 | a sequence of `fmt.Fprintln` calls appends each rendered line to the writer, or nothing when the writer refuses writes |
| `PluginRunner.Runner.constructor` | osreporter/runner.go:33-43 | a new runner keeps its inputs, has no plugins, and has its report and tarball paths set as `SetPaths` sets them |
| `PluginRunner.Runner.SetPaths` | osreporter/runner.go:45-50 | `ReportPath` is `Join(baseReportDir, "os-report-" + hostname + "-" + timestamp)` and `TarballPath` is `ReportPath + ".tar.gz"`; plugins untouched |
| `PluginRunner.StampExample` | osreporter/runner.go:46 | the layout `2006-01-02-15-04-05` prints 17 June 2019 09:12:49 as `2019-06-17-09-12-49` |
| `PluginRunner.StampChars` | osreporter/runner.go:46 | a formatted timestamp holds only digits and dashes, so no slash |
| `PluginRunner.StampWidth` | osreporter/runner.go:46 | a formatted timestamp of a valid date and time is 19 characters |
| `PluginRunner.ReportDirIsName` | osreporter/runner.go:47 | with a slash-free host name the report directory name is a single path element |
| `PluginRunner.ArchivesReportDir` | osreporter/runner.go:95-98 | `tar` archives the report directory by its own name from inside the base directory, and the report directory's parent is the cleaned base directory |
| `PluginRunner.RegisteredPlugin.constructor` | osreporter/plugins.go:18-23 | a new record holds the given plugin, name, filename and timeout and does not echo |
| `PluginRunner.Runner.RegisterStream` | osreporter/plugins.go:12-26 | appends exactly one fresh record holding the given name, filename, plugin and the first timeout given or 10s, with echo off; earlier records are untouched; the returned handle is that last element |
| `PluginRunner.Runner.RegisterEchoStream` | osreporter/plugins.go:28-32 | the same record `RegisterStream` would append, with `echoOutput` set through the handle, so the last stored record has the flag set |
| `PluginRunner.Runner.SanityCheck` | osreporter/runner.go:82-93 | fails with `must be run as root` when the uid is not 0, else with the mkdir error of the report path, printing the matching complaint on stderr; only a passing check makes the directory |
| `PluginRunner.Runner.RunPlugin` | osreporter/runner.go:60-72 | prints the header; a failing plugin prints `Failure:` and writes nothing; a successful one has its bytes written to `Join(ReportPath, filename)`, or prints `Failed to write file:`; a record without a plugin gets only its header |
| `PluginRunner.Runner.Run` | osreporter/runner.go:52-80 | a failing guard is returned before the banner, any plugin call or any file write; otherwise the banner and each plugin's section are printed, the files are those `Stored` gives, and the result is the `tar` step's |
| `PluginRunner.TranscriptSnoc` | osreporter/runner.go:59-73 | each further plugin adds its own section at the end of the output |
| `PluginRunner.SectionOf` | osreporter/runner.go:60-71 | a plugin's section holds its header and exactly the failure its step reported |
| `PluginRunner.HeadersAreNames` | osreporter/runner.go:59-60 | once the guard passes, there is one header per plugin, naming it, in registration order |
| `PluginRunner.FailuresShown` | osreporter/runner.go:62-71 | the `Failure:` and `Failed to write file:` lines are exactly the plugin and write failures, in order, and the banner appears once |
| `PluginRunner.WrotePath` | osreporter/runner.go:61-71 | documents, by unfolding `StepOf`, that a file is written iff the record has a plugin, the plugin succeeds and the write succeeds; it is written at `Join(ReportPath, filename)` with the plugin's bytes |
| `PluginRunner.StoredLast` | osreporter/runner.go:67-68 | after the run, a file written by a plugin, and not overwritten by a later one, holds that plugin's bytes verbatim |
| `PluginRunner.StoredFrom` | osreporter/runner.go:67-68 | every file after the run either was there before, unchanged, or was written by some plugin with its own bytes |
| `CommandRunner.Classify` | commandrunner/commandrunner.go:12-24 | the output is returned in every branch; the error is `DeadlineExceeded` iff the deadline passed; otherwise an exit error becomes its stderr text, and every other case gives no error |
| `CommandRunner.Run` | commandrunner/commandrunner.go:12-24 | the captured output is returned, and there is no error iff the deadline has not passed and the command did not exit non-zero |
| `CommandCollector.New` | collectors/command/command.go:18-20 | the collector keeps the command and file name given |
| `CommandCollector.Failure` | collectors/command/command.go:26-36 | the deadline is checked first, then a non-zero exit (its stderr as the error), then any other exec error unchanged; no error only for a clean run |
| `CommandCollector.FailureExtendsClassify` | collectors/command/command.go:26-36 | the collector reports every error `CommandRunner` reports, identically, and differs only by also reporting non-exit exec errors |
| `CommandCollector.Run` | collectors/command/command.go:22-56 | the result is the first failure among execution, mkdir of the parent, file write and sink write; on success the file at `Join(destPath, filename)` holds exactly stdout and the sink gets the same bytes; each failure skips the later steps |
| `FileCollector.NewCollector` | collectors/file/file.go:22-28 | keeps both paths and does not archive |
| `FileCollector.NewDirCollector` | collectors/file/file.go:30-37 | keeps both paths and archives |
| `FileCollector.Run` | collectors/file/file.go:39-56 | the directory to make is attempted; if it fails its error is returned and no command runs; otherwise `cp <flag> <src> <dest>` runs and the result is exactly the runner's error, its output dropped |
| `FileCollector.DirDestinationIsMade` | collectors/file/file.go:40-44 | a destination path `name/` makes the destination directory itself, and the destination has no trailing slash |
| `FileCollector.FileDestinationParentIsMade` | collectors/file/file.go:40-44 | a destination path without a trailing slash makes its parent, the report directory |
| `FileCollector.CopyCommandWords` | collectors/file/file.go:49-53 | the command splits on spaces into `cp`, the flag (`-a` or empty, leaving two adjacent spaces), the source and the destination |
| `ProcessCollector.NewCollector` | collectors/process/process.go:21-26 | keeps the destination path |
| `ProcessCollector.Procs` | collectors/process/process.go:34-37 | one process per listing line, in order, with its directory `Join(reportDir, destinationPath, trimmed line)` |
| `ProcessCollector.Collect` | collectors/process/process.go:28-32 | a failed tid listing is returned unchanged and changes no directory or file |
| `ProcessCollector.CollectErrorSource` | collectors/process/process.go:28-64 | the run fails only with the listing's error or the mkdir error of one line's directory; item failures never decide the result |
| `ProcessCollector.CollectLinesError` | collectors/process/process.go:37-40 | an error of the loop is the mkdir error of one of its processes |
| `ProcessCollector.CollectLinesStopsAt` | collectors/process/process.go:38-40 | a mkdir failure ends the whole run; no later process is looked at |
| `ProcessCollector.CollectLinesMakesEveryDir` | collectors/process/process.go:34-40 | when every mkdir succeeds the run returns nil and makes exactly one directory per listing line |
| `ProcessCollector.CollectProcData` | collectors/process/process.go:66-77 | the item file is written only when the command succeeds, with the command's output; the error is the command's, else the write's |
| `ProcessCollector.CollectFirst` | collectors/process/process.go:42-44 | collecting the first item either stops the process's items or continues with the rest |
| `ProcessCollector.CollectProcess` | collectors/process/process.go:42-60 | items fd, ns, cgroup, status and stack are tried in order; the first failing item skips the rest of that process only |
| `ProcessCollector.Run` | collectors/process/process.go:28-64 | the directories, files and result are exactly those `Collect` describes from the state before the run |
| `ProcessCollector.CollectItemsStopsAt` | collectors/process/process.go:42-60 | once an item fails, no item after it is collected for that process |
| `ProcessCollector.CollectItemsWritesOutputs` | collectors/process/process.go:66-77 | every file afterwards was there before, unchanged, or was written by an item whose command succeeded, holding that command's output |
| `ProcessCollector.TrailingNewlineLine` | collectors/process/process.go:34 | a listing ending in a newline has an empty last line, which is processed too |
| `ProcessCollector.EmptyLineDir` | collectors/process/process.go:35-37 | the directory of an empty line is the destination directory itself |
| `GrootfsUsage.ParseConfig` | collectors/grootfs/usage.go:43-57 | a read failure is wrapped with the quoted config path; success iff the file reads and decodes; the config keeps the decoded store and the fixed grootfs binary path |
| `GrootfsUsage.DuArgs` | collectors/grootfs/usage.go:301-306 | the `du` arguments are exactly `-B1 -s path`, or `-B1 --apparent-size -s path` |
| `GrootfsUsage.ParseDu` | collectors/grootfs/usage.go:312-320 | output without a tab fails with `unexpected `du` output %q`; with a tab it succeeds exactly when `strconv.ParseInt` accepts the text before the first tab, with that value whatever follows, and otherwise fails with `failed to parse int %q: ` and the parse error |
| `GrootfsUsage.ParseDuReadsSize` | collectors/grootfs/usage.go:312-320 | `du`'s own output, an int64 size, a tab and anything after, parses back to that size |
| `GrootfsUsage.VolumesSize` | collectors/grootfs/usage.go:323-335 | the loop's result is `Total` of the per-id sizes: their sum, or the first error |
| `GrootfsUsage.TotalFirstFailure` | collectors/grootfs/usage.go:326-330 | the first failing size decides the result, which is that error, whatever the sizes after it |
| `GrootfsUsage.TotalAllOk` | collectors/grootfs/usage.go:323-335 | when every lookup succeeds the sum succeeds |
| `GrootfsUsage.TotalAppend` | collectors/grootfs/usage.go:331 | sums over consecutive pieces add up |
| `GrootfsUsage.TotalUniform` | collectors/grootfs/usage.go:146-156 | n sizes all equal to v sum to n times v (two images of 3040 give 6080) |
| `GrootfsUsage.SizesOfAt` | collectors/grootfs/usage.go:326-327 | the size at each position is the closure applied to the id at that position |
| `GrootfsUsage.DirNames` | collectors/grootfs/usage.go:168-173 | an id is kept iff some entry is a directory of that name, and there are no more ids than entries |
| `GrootfsUsage.GetImageIDs` | collectors/grootfs/usage.go:159-176 | a listing failure is wrapped; otherwise the ids are the directory entries only, in listing order |
| `GrootfsUsage.ImagesSize` | collectors/grootfs/usage.go:140-157 | an id-listing failure is wrapped; otherwise the sum of each image's exclusive bytes, stopping at the first failure |
| `GrootfsUsage.DependencyPaths` | collectors/grootfs/usage.go:239-240 | one dependency-file path per entry, `Join(dependenciesDir, name)`, in listing order |
| `GrootfsUsage.ReadDependencies` | collectors/grootfs/usage.go:240-251 | one loop turn reads and decodes one dependencies file, wrapping either failure |
| `GrootfsUsage.GetUsedVolumes` | collectors/grootfs/usage.go:231-254 | the used volumes are the concatenation, in directory order and with duplicates kept, of every dependency file's ids; the first failing file fails it |
| `GrootfsUsage.ConcatIdsSnoc` | collectors/grootfs/usage.go:239-252 | one more dependency file appends its ids after all earlier ones, or fails with its own error |
| `GrootfsUsage.ConcatIdsFailSnoc` | collectors/grootfs/usage.go:241-249 | once a file fails, later files do not change the error |
| `GrootfsUsage.ConcatIdsPrefixFail` | collectors/grootfs/usage.go:241-249 | a failing prefix of the files fails the whole list the same way |
| `GrootfsUsage.EntryNames` | collectors/grootfs/usage.go:264-266 | a name is in the set iff some entry has it |
| `GrootfsUsage.NameSet` | collectors/grootfs/usage.go:264-266 | the first loop builds exactly the set of entry names |
| `GrootfsUsage.RemoveUsed` | collectors/grootfs/usage.go:268-270 | the second loop leaves the names minus every used id |
| `GrootfsUsage.Keys` | collectors/grootfs/usage.go:272-275 | the last loop lists each remaining name exactly once, in some order |
| `GrootfsUsage.GetUnusedVolumes` | collectors/grootfs/usage.go:256-278 | a listing failure is wrapped; otherwise the result lists each volume-dir entry name not used, exactly once, with no guaranteed order |
| `GrootfsUsage.FormatColumns` | collectors/grootfs/usage.go:111 | a line with a number of at most 12 characters is 50 characters: the label padded with spaces to column 31, the number right-aligned in 12 columns, then ` bytes\n` |
| `GrootfsUsage.VolumeSizesLabelled` | collectors/grootfs/usage.go:111-116 | the five volume lines carry the first five labels, in order |
| `GrootfsUsage.StoreLinesLabelled` | collectors/grootfs/usage.go:118-135 | the image and backing-store steps give up to three more lines with the last three labels; all three exactly when none failed |
| `GrootfsUsage.VolumeLinesLabelled` | collectors/grootfs/usage.go:80-116 | the volume steps give five labelled lines or an error |
| `GrootfsUsage.MeasureLinesArePrefix` | collectors/grootfs/usage.go:80-135 | the report holds none, five, six, seven or all eight lines in the fixed order, and all eight exactly when no step failed |
| `GrootfsUsage.UsageFileIsReportPrefix` | collectors/grootfs/usage.go:59-138 | the usage file holds a labelled prefix of the eight lines; no file means no lines and an error; success iff the file exists with all eight lines |
| `GrootfsUsage.MeasureVolumes` | collectors/grootfs/usage.go:80-109 | the steps between creating the output file and the first line give `VolumeLines` for the order the unused volumes came out in, which lists each unused volume once |
| `GrootfsUsage.WriteLines` | collectors/grootfs/usage.go:111-116 | one `Fprintf` per line appends the formatted lines to the output file, in order |
| `GrootfsUsage.MeasureStore` | collectors/grootfs/usage.go:118-135 | the image total and both backing-store sizes give their lines in order, stopping at the first error |
| `GrootfsUsage.MeasureFromVolumes` | collectors/grootfs/usage.go:80-135 | a volume-step error leaves no lines; otherwise the report is the five volume lines followed by the store lines |
| `GrootfsUsage.WriteMeasurements` | collectors/grootfs/usage.go:80-137 | lines already written stay and no later line is written; the file gains exactly the text of `Measure`'s lines and the result is its error |
| `GrootfsUsage.Run` | collectors/grootfs/usage.go:59-138 | the result, the grootfs directory made and the file `Join(reportDir, "grootfs", Base(store) + "-usage.txt")` with its text are exactly those `Usage` describes |
| `BpmChecker.New` | bpmchecker/bpmchecker.go:12-18 | no argument gives `/proc/1/cmdline`; otherwise the first argument, the rest ignored |
| `BpmChecker.HasGardenPid1` | bpmchecker/bpmchecker.go:20-31 | a read error gives `(false, err)`; otherwise no error, and true iff the contents contain `garden_start` contiguously |
| `BpmChecker.MarkerAnywhere` | bpmchecker/bpmchecker.go:26-28 | contents with `garden_start` anywhere give `(true, nil)` |
| `BpmChecker.ShortContentsNotGarden` | bpmchecker/bpmchecker.go:26-30 | contents shorter than the marker give `(false, nil)` |
| `Errors.Wrap` | collectors/grootfs/usage.go:62 | `fmt.Errorf(prefix + "%v", err)` gives an error whose text is the prefix followed by the wrapped error's text |
| `Errors.FirstError` | collectors/command/command.go:40-55 | the error of a chain of early returns is none iff no step failed, and otherwise the error of a step all of whose predecessors succeeded |
| `Errors.FirstErrorIsFirst` | collectors/command/command.go:40-55 | a step that fails after every earlier step succeeded is the error reported |
| `Numbers.ParseInt` | collectors/grootfs/usage.go:316 | `strconv.ParseInt(s, 10, 64)` succeeds only with an int64 value, and only on a non-empty input with a digit |
| `Numbers.ScanDigitsValue` | collectors/grootfs/usage.go:316 | the digit loop of `strconv.ParseUint` returns the value of a digit string, leading zeros included, or a range error exactly when it exceeds 2^64 - 1 |
| `Numbers.ScanFromAppend` | collectors/grootfs/usage.go:316 | the digit loop over a concatenation continues from the first part's value, and an error in the first part is final |
| `Numbers.ParseIntExactly` | collectors/grootfs/usage.go:316 | `strconv.ParseInt(s, 10, 64)` succeeds iff `s` is an optional sign and one or more digits whose value lies in int64 range, returning that value (so `+5`, `007` and `-0` parse); a well-formed text out of range fails with `value out of range`; a malformed one fails with `invalid syntax`, or with `value out of range` when its leading digits already exceed 2^64 - 1 |
| `Numbers.ParseIntDecimal` | collectors/grootfs/usage.go:316 | every int64 printed with `%d` parses back to itself |
| `Numbers.TenSecondsExample` | osreporter/reporter.go:95 | the 10 s default timeout prints as `10s` |
| `Numbers.MillisecondExample` | osreporter/reporter.go:95 | a timeout of n ms (1 <= n <= 9) prints as `<n>ms` |
| `Paths.JoinNoTrailingSlash` | collectors/file/file.go:40 | `filepath.Join` never leaves a trailing slash, except on the root |
| `Strings.ContainsIffOccurs` | bpmchecker/bpmchecker.go:26 | the left-to-right search finds a substring exactly when it occurs contiguously |
| `Strings.Split` | collectors/process/process.go:34 | the pieces contain no separator, there is at least one, more than one iff the separator occurs, and the first is the text before the first separator |
| `Strings.Trim` | collectors/process/process.go:35 | the result starts and ends with something other than the cut character and sits in the input with only that character around it |
| `Io.FileSystem.MkdirAll` | collectors/command/command.go:40-43 | fails with the path's fault and then changes nothing; otherwise adds the directory; files untouched |
| `Io.FileSystem.WriteFile` | collectors/command/command.go:45-48 | fails with the path's fault and then changes nothing; otherwise the file holds exactly the data; directories untouched |
| `Io.FileSystem.Append` | collectors/grootfs/usage.go:111 | a write to an open file appends the data to its contents |
| `Io.Writer.Write` | collectors/command/command.go:50-53 | the writer's fault is returned; without one the data is appended to what it received |

## Left out

- Running processes, `tar`, and real file system calls (`exec.Command*`, `os.MkdirAll`,
  `ioutil.WriteFile`, `ioutil.ReadFile`, `ioutil.ReadDir`, `os.Create`) are not modelled as I/O.
  Their outcomes are parameters: functions from command line or path to outcome, or faults
  fixed when a `FileSystem` or `Writer` is made.
- Context deadlines and cancellation are not modelled: there is no clock. A collector or
  command reports `Deadline`, or an execution says its deadline passed. A record's timeout
  only appears in the call the collector receives and in the timeout message.
- `main.go` is not part of this model: flag parsing, uid/BPM/log-level checks, hostname,
  `time.Now` and the registration list. `PluginRunner.Runner.Run` takes the uid as a
  parameter, and the runner takes the broken-down time.
- `yaml.Unmarshal` and `json.Unmarshal` in the grootfs collector are parameters
  (`Decoders`) that return the decoded field or an error.
- Go time layouts are modelled only for the one layout `2006-01-02-15-04-05`, applied to an
  already broken-down local time. Time zones and calendar validation are left out.
- `time.Duration.String` follows Go's algorithm for every case: `ns`, `µs` and `ms` with their
  fractions below one second, and `h`, `m` and `s` above it. Only the `10s` and `<n>ms`
  examples are proved about it. The `µ` of the microsecond unit is one character in the
  model, where Go writes two bytes.
- `%q` quoting is modelled as surrounding double quotes, with no escaping.
- `filepath.Clean` does not resolve `..` elements.
- `os.MkdirAll` records only the path it is given, not its ancestors.
- Bytes are modelled as characters of a `string`, one character per byte. The `µ` of
  `time.Duration.String` is the one exception.
- `plugins/command/runner.go`, `plugins/uptime/uptime.go` and `plugins/date/date.go` are not
  part of this model. They are thin exec or clock wrappers with no logic of their own.
- `osreporter.WithTimeout`, `collectors/archive`, the counterfeiter fakes and the integration
  harness are not part of this model.
- Map iteration order in `getUnusedVolumes` is not modelled. `GrootfsUsage.Keys` picks the
  remaining names in an arbitrary order. `GrootfsUsage.Run` and the methods above it return
  that order, and the report is stated for whichever order came out.
- GrootfsUsage.VolumesSize: is given the closure's result for every id, not a closure that
  it calls. The closures are pure functions of the host outcomes, so asking about later ids
  is not observable. `GrootfsUsage.TotalFirstFailure` proves that values after the first
  failure do not affect the result. The source's promise that they are never queried is
  therefore stated only as this independence.
- GrootfsUsage.WriteMeasurements: computes the backing-store sizes before writing the image
  line, where the source interleaves them. Those steps only read the host, so the final file
  and the result are the same.
- GrootfsUsage.Run: int64 overflow in the sums is not modelled. Sizes add up as unbounded
  integers, while the source's `size +=` would wrap around.
- Go's `Fprintln`/`Fprintf` errors are ignored in the source and in the model.
  `Writer.Write` does not model partial writes.
- PluginRunner.Runner.Run: calls each plugin with no arguments. `runner.go` calls
  `streamPlugin()` without the context that the `StreamPlugin` type of `plugins.go` requires.
  The stored timeout is therefore never applied.
- PluginRunner.Runner.Run: requires the report writer and standard error to be different
  writers. The callers in the repository's tests pass separate buffers. When one writer is
  both, the complaints and the report would interleave in it, and that order is not modelled.
- The tests that describe newer behaviour are not modelled; the model follows the code:
  - `>> <name> failed:` failure lines;
  - a gzip archive and removal of the report directory;
  - `command.NewCollector`/`NewDiscardCollector`;
  - an `l/` link directory for used volumes;
  - an echo stream's output on the writer: `runner.go`'s `Run` ignores `echoOutput`, so the
    echo expectation of osreporter/runner_test.go:130-141 is not modelled, and
    `PluginRunner.FailuresShown` proves the runner prints no echo lines.
