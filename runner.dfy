/** The plugin-based reporter of `osreporter/runner.go` and
    `osreporter/plugins.go`: a runner names its report directory after the
    host and the time, stream plugins are registered one by one, and a run
    checks that it may work, prints a banner, then for each plugin a header
    and either its failure or the file it wrote, and archives the report
    directory. Plugins, the file system and the `tar` command are oracles
    fixed in advance. */
module PluginRunner {
  import opened Errors
  import opened Numbers
  import opened Strings
  import opened Paths
  import opened Io
  import opened Osreporter
  import opened Seqs

  /** A `StreamPlugin`: the bytes it produces, or its error. */
  type StreamPlugin = () -> Result<string>

  /** A point in time, broken down in the local zone as `time.Time.Format` sees it. */
  datatype Stamp = Stamp(year: nat, month: nat, day: nat, hour: nat, minute: nat, second: nat)

  /** `n` in decimal, zero-padded on the left to `w` digits. */
  function Padded(n: nat, w: nat): string {
    PadLeft(Digits(n), w, '0')
  }

  /** A padded number is all digits, and exactly `w` wide when it fits. */
  lemma PaddedDigits(n: nat, w: nat)
    ensures forall k :: 0 <= k < |Padded(n, w)| ==> IsDigit(Padded(n, w)[k])
    ensures 1 <= w && n < Pow10(w) ==> |Padded(n, w)| == w
  {
    PadLeftShape(Digits(n), w, '0');
    var r := Padded(n, w);
    var d := Digits(n);
    forall k | 0 <= k < |r|
      ensures IsDigit(r[k])
    {
      if k >= |r| - |d| {
        assert r[k] == d[k - (|r| - |d|)];
      }
    }
    if 1 <= w && n < Pow10(w) {
      DigitsFit(n, w);
    }
  }

  lemma {:induction false} DigitsFit(n: nat, w: nat)
    requires 1 <= w && n < Pow10(w)
    ensures |Digits(n)| <= w
  {
    if n >= 10 {
      DigitsFit(n / 10, w - 1);
    }
  }

  /** `t.Format("2006-01-02-15-04-05")`. */
  function FormatStamp(t: Stamp): string {
    Padded(t.year, 4) + "-" + Padded(t.month, 2) + "-" + Padded(t.day, 2) + "-"
    + Padded(t.hour, 2) + "-" + Padded(t.minute, 2) + "-" + Padded(t.second, 2)
  }

  /** A formatted time holds only digits and dashes; so no slash. */
  lemma StampChars(t: Stamp)
    ensures forall k :: 0 <= k < |FormatStamp(t)| ==> IsDigit(FormatStamp(t)[k]) || FormatStamp(t)[k] == '-'
    ensures '/' !in FormatStamp(t)
  {
    PaddedDigits(t.year, 4);
    PaddedDigits(t.month, 2);
    PaddedDigits(t.day, 2);
    PaddedDigits(t.hour, 2);
    PaddedDigits(t.minute, 2);
    PaddedDigits(t.second, 2);
    var s := FormatStamp(t);
    forall k | 0 <= k < |s|
      ensures IsDigit(s[k]) || s[k] == '-'
    {
      DigitsOrDashes(t, k);
    }
  }

  /** When each field fits its width, a formatted time is 19 characters. */
  lemma StampWidth(t: Stamp)
    requires t.year < 10000 && 1 <= t.month <= 12 && 1 <= t.day <= 31
    requires t.hour < 24 && t.minute < 60 && t.second < 60
    ensures |FormatStamp(t)| == 19
  {
    assert Pow10(2) == 100 && Pow10(4) == 10000;
    PaddedDigits(t.year, 4);
    PaddedDigits(t.month, 2);
    PaddedDigits(t.day, 2);
    PaddedDigits(t.hour, 2);
    PaddedDigits(t.minute, 2);
    PaddedDigits(t.second, 2);
  }

  lemma DigitsOrDashes(t: Stamp, k: int)
    requires 0 <= k < |FormatStamp(t)|
    requires forall j :: 0 <= j < |Padded(t.year, 4)| ==> IsDigit(Padded(t.year, 4)[j])
    requires forall j :: 0 <= j < |Padded(t.month, 2)| ==> IsDigit(Padded(t.month, 2)[j])
    requires forall j :: 0 <= j < |Padded(t.day, 2)| ==> IsDigit(Padded(t.day, 2)[j])
    requires forall j :: 0 <= j < |Padded(t.hour, 2)| ==> IsDigit(Padded(t.hour, 2)[j])
    requires forall j :: 0 <= j < |Padded(t.minute, 2)| ==> IsDigit(Padded(t.minute, 2)[j])
    requires forall j :: 0 <= j < |Padded(t.second, 2)| ==> IsDigit(Padded(t.second, 2)[j])
    ensures IsDigit(FormatStamp(t)[k]) || FormatStamp(t)[k] == '-'
  {
  }

  /** The time of the tests, Mon Jun 17 09:12:49 2019. */
  lemma StampExample()
    ensures FormatStamp(Stamp(2019, 6, 17, 9, 12, 49)) == "2019-06-17-09-12-49"
  {
    YearExample();
    TwoDigits(6);
    TwoDigits(17);
    TwoDigits(9);
    TwoDigits(12);
    TwoDigits(49);
  }

  lemma YearExample()
    ensures Padded(2019, 4) == "2019"
  {
    assert Digits(20) == "20";
    assert Digits(201) == "201";
  }

  /** A number below a hundred takes two digits, a leading zero if need be. */
  lemma TwoDigits(n: nat)
    requires n < 100
    ensures Padded(n, 2) == [DigitChar(n / 10), DigitChar(n % 10)]
  {
    if n < 10 {
      assert Repeat('0', 1) == "0";
    } else {
      assert Digits(n / 10) == [DigitChar(n / 10)];
      assert Digits(n) == [DigitChar(n / 10)] + [DigitChar(n % 10)];
    }
  }

  /** The directory name `fmt.Sprintf(osReportDirPattern, hostname, timestamp)`. */
  function ReportDir(hostname: string, t: Stamp): string {
    "os-report-" + hostname + "-" + FormatStamp(t)
  }

  /** The report directory of a runner: the name above inside the base directory. */
  function ReportPathOf(baseReportDir: string, hostname: string, t: Stamp): string {
    Join(baseReportDir, ReportDir(hostname, t))
  }

  /** A slash-free host name makes the directory name one path element. */
  lemma ReportDirIsName(hostname: string, t: Stamp)
    requires '/' !in hostname
    ensures IsName(ReportDir(hostname, t))
  {
    StampChars(t);
    assert ReportDir(hostname, t)[0] == 'o';
  }

  /** The command line of `createTarball`. */
  function TarArgs(tarballPath: string, baseReportDir: string, reportPath: string): seq<string> {
    ["tar", "cf", tarballPath, "-C", baseReportDir, Base(reportPath)]
  }

  /** With a slash-free host name the archive is made from inside the base
      directory and holds the report directory by its own name, and the
      report directory sits in the cleaned base directory. */
  lemma ArchivesReportDir(baseReportDir: string, hostname: string, t: Stamp)
    requires baseReportDir != "" && '/' !in hostname
    ensures var reportPath := ReportPathOf(baseReportDir, hostname, t);
      && TarArgs(reportPath + ".tar.gz", baseReportDir, reportPath)
         == ["tar", "cf", reportPath + ".tar.gz", "-C", baseReportDir, ReportDir(hostname, t)]
      && Dir(reportPath) == Clean(baseReportDir)
  {
    ReportDirIsName(hostname, t);
    JoinedNameSplits(baseReportDir, ReportDir(hostname, t));
  }

  /** The registration of a plugin, reached through the pointer that
      `RegisterStream` returns. */
  class RegisteredPlugin {
    const streamPlugin: Option<StreamPlugin>
    const name: string
    const filename: string
    const timeout: int
    var echoOutput: bool

    constructor (streamPlugin: Option<StreamPlugin>, name: string, filename: string, timeout: int)
      ensures this.streamPlugin == streamPlugin && this.name == name
      ensures this.filename == filename && this.timeout == timeout
      ensures !echoOutput
    {
      this.streamPlugin := streamPlugin;
      this.name := name;
      this.filename := filename;
      this.timeout := timeout;
      echoOutput := false;
    }
  }

  /** What one turn of the plugin loop comes to: there is no plugin, the
      plugin failed, its output could not be written, or it was written. */
  datatype Step = NoPlugin | PluginFailed(err: Err) | WriteFailed(err: Err) | Wrote(path: string, bytes: string)

  function StepOf(p: RegisteredPlugin, reportPath: string, writeFault: string -> Option<Err>): Step {
    match p.streamPlugin
    case None => NoPlugin
    case Some(plugin) =>
      match plugin()
      case Fail(e) => PluginFailed(e)
      case Ok(bytes) =>
        var outPath := Join(reportPath, p.filename);
        if writeFault(outPath).Some? then WriteFailed(writeFault(outPath).value) else Wrote(outPath, bytes)
  }

  /** The lines one plugin adds: its header, and the failure of the step if any. */
  function Section(p: RegisteredPlugin, reportPath: string, writeFault: string -> Option<Err>): seq<Line> {
    [Line(Header, p.name)]
    + match StepOf(p, reportPath, writeFault)
      case PluginFailed(e) => [Line(Failure, e.Text())]
      case WriteFailed(e) => [Line(WriteFailure, e.Text())]
      case _ => []
  }

  function Sections(ps: seq<RegisteredPlugin>, reportPath: string, writeFault: string -> Option<Err>): seq<Line> {
    if ps == [] then []
    else Sections(ps[..|ps| - 1], reportPath, writeFault) + Section(ps[|ps| - 1], reportPath, writeFault)
  }

  /** Everything the runner prints on its writer once the checks pass. */
  function Transcript(ps: seq<RegisteredPlugin>, reportPath: string, writeFault: string -> Option<Err>): seq<Line> {
    [Line(BannerLine, Banner)] + Sections(ps, reportPath, writeFault)
  }

  /** The files after one plugin's turn. */
  function Store(files: map<string, string>, p: RegisteredPlugin, reportPath: string, writeFault: string -> Option<Err>): map<string, string> {
    match StepOf(p, reportPath, writeFault)
    case Wrote(path, bytes) => files[path := bytes]
    case _ => files
  }

  /** The files after the turns of all of `ps`, in order. */
  function Stored(files: map<string, string>, ps: seq<RegisteredPlugin>, reportPath: string, writeFault: string -> Option<Err>): map<string, string> {
    if ps == [] then files
    else Store(Stored(files, ps[..|ps| - 1], reportPath, writeFault), ps[|ps| - 1], reportPath, writeFault)
  }

  /** The texts of the failures of a kind that the steps of `ps` report, in order. */
  function Failures(ps: seq<RegisteredPlugin>, reportPath: string, writeFault: string -> Option<Err>, kind: Kind): seq<string> {
    if ps == [] then []
    else
      var s := StepOf(ps[|ps| - 1], reportPath, writeFault);
      Failures(ps[..|ps| - 1], reportPath, writeFault, kind)
      + (if (s.PluginFailed? && kind == Failure) || (s.WriteFailed? && kind == WriteFailure) then [s.err.Text()] else [])
  }

  lemma TranscriptSnoc(ps: seq<RegisteredPlugin>, p: RegisteredPlugin, reportPath: string, writeFault: string -> Option<Err>)
    ensures Transcript(ps + [p], reportPath, writeFault) == Transcript(ps, reportPath, writeFault) + Section(p, reportPath, writeFault)
  {
    assert (ps + [p])[..|ps|] == ps;
  }

  lemma SectionOf(p: RegisteredPlugin, reportPath: string, writeFault: string -> Option<Err>, kind: Kind)
    ensures Of(Section(p, reportPath, writeFault), kind)
         == (if kind == Header then [p.name] else []) + Failures([p], reportPath, writeFault, kind)
  {
    var s := StepOf(p, reportPath, writeFault);
    var tail := if s.PluginFailed? then [Line(Failure, s.err.Text())]
                else if s.WriteFailed? then [Line(WriteFailure, s.err.Text())] else [];
    assert Section(p, reportPath, writeFault) == [Line(Header, p.name)] + tail;
    OfAppend([Line(Header, p.name)], tail, kind);
    OfSingle(Line(Header, p.name), kind);
    if tail != [] {
      OfSingle(tail[0], kind);
    }
    assert [p][..0] == [];
  }

  /** One header per registered plugin, in registration order, whatever the
      plugins do. */
  lemma {:induction false} HeadersAreNames(ps: seq<RegisteredPlugin>, reportPath: string, writeFault: string -> Option<Err>)
    ensures |Of(Transcript(ps, reportPath, writeFault), Header)| == |ps|
    ensures forall k :: 0 <= k < |ps| ==> Of(Transcript(ps, reportPath, writeFault), Header)[k] == ps[k].name
  {
    if ps == [] {
      OfSingle(Line(BannerLine, Banner), Header);
    } else {
      var init := ps[..|ps| - 1];
      var p := ps[|ps| - 1];
      assert init + [p] == ps;
      HeadersAreNames(init, reportPath, writeFault);
      TranscriptSnoc(init, p, reportPath, writeFault);
      OfAppend(Transcript(init, reportPath, writeFault), Section(p, reportPath, writeFault), Header);
      SectionOf(p, reportPath, writeFault, Header);
      assert Failures([p], reportPath, writeFault, Header) == [] by {
        assert [p][..0] == [];
      }
    }
  }

  /** The failure lines, and the lines about files that could not be written,
      are exactly the failures of the plugins' steps, in order; the runner
      never echoes and prints no banner but the first. */
  lemma {:induction false} FailuresShown(ps: seq<RegisteredPlugin>, reportPath: string, writeFault: string -> Option<Err>, kind: Kind)
    requires kind != Header
    ensures Of(Transcript(ps, reportPath, writeFault), kind)
         == (if kind == BannerLine then [Banner] else []) + Failures(ps, reportPath, writeFault, kind)
  {
    if ps == [] {
      OfSingle(Line(BannerLine, Banner), kind);
    } else {
      var init := ps[..|ps| - 1];
      var p := ps[|ps| - 1];
      assert init + [p] == ps;
      FailuresShown(init, reportPath, writeFault, kind);
      TranscriptSnoc(init, p, reportPath, writeFault);
      OfAppend(Transcript(init, reportPath, writeFault), Section(p, reportPath, writeFault), kind);
      SectionOf(p, reportPath, writeFault, kind);
      FailuresSnoc(init, p, reportPath, writeFault, kind);
      Assoc(if kind == BannerLine then [Banner] else [], Failures(init, reportPath, writeFault, kind),
        Failures([p], reportPath, writeFault, kind));
    }
  }

  lemma FailuresSnoc(ps: seq<RegisteredPlugin>, p: RegisteredPlugin, reportPath: string,
                     writeFault: string -> Option<Err>, kind: Kind)
    ensures Failures(ps + [p], reportPath, writeFault, kind)
         == Failures(ps, reportPath, writeFault, kind) + Failures([p], reportPath, writeFault, kind)
  {
    assert (ps + [p])[..|ps|] == ps;
    assert [p][..0] == [];
  }

  /** A file the last writer of a path wrote holds that writer's bytes verbatim. */
  lemma {:induction false} StoredLast(files: map<string, string>, ps: seq<RegisteredPlugin>, reportPath: string,
                                      writeFault: string -> Option<Err>, k: int)
    requires 0 <= k < |ps| && StepOf(ps[k], reportPath, writeFault).Wrote?
    requires forall j :: k < j < |ps| ==>
      !(StepOf(ps[j], reportPath, writeFault).Wrote? && StepOf(ps[j], reportPath, writeFault).path == StepOf(ps[k], reportPath, writeFault).path)
    ensures var s := StepOf(ps[k], reportPath, writeFault);
      s.path in Stored(files, ps, reportPath, writeFault) && Stored(files, ps, reportPath, writeFault)[s.path] == s.bytes
  {
    var init := ps[..|ps| - 1];
    if k < |ps| - 1 {
      assert StepOf(init[k], reportPath, writeFault) == StepOf(ps[k], reportPath, writeFault);
      forall j | k < j < |init|
        ensures !(StepOf(init[j], reportPath, writeFault).Wrote? && StepOf(init[j], reportPath, writeFault).path == StepOf(init[k], reportPath, writeFault).path)
      {
        assert init[j] == ps[j];
      }
      StoredLast(files, init, reportPath, writeFault, k);
      assert !(StepOf(ps[|ps| - 1], reportPath, writeFault).Wrote? && StepOf(ps[|ps| - 1], reportPath, writeFault).path == StepOf(ps[k], reportPath, writeFault).path);
    }
  }

  /** Every file after a run was there before, unchanged, or holds what a
      plugin produced at the path of its file name inside the report directory. */
  lemma {:induction false} StoredFrom(files: map<string, string>, ps: seq<RegisteredPlugin>, reportPath: string,
                                      writeFault: string -> Option<Err>, path: string)
    requires path in Stored(files, ps, reportPath, writeFault)
    ensures (path in files && Stored(files, ps, reportPath, writeFault)[path] == files[path])
         || exists k :: 0 <= k < |ps| && StepOf(ps[k], reportPath, writeFault) == Wrote(path, Stored(files, ps, reportPath, writeFault)[path])
  {
    if ps != [] {
      var init := ps[..|ps| - 1];
      var last := StepOf(ps[|ps| - 1], reportPath, writeFault);
      var before := Stored(files, init, reportPath, writeFault);
      if last.Wrote? && last.path == path {
        assert StepOf(ps[|ps| - 1], reportPath, writeFault) == Wrote(path, Stored(files, ps, reportPath, writeFault)[path]);
      } else {
        assert Stored(files, ps, reportPath, writeFault)[path] == before[path];
        StoredFrom(files, init, reportPath, writeFault, path);
        if !(path in files && before[path] == files[path]) {
          var k :| 0 <= k < |init| && StepOf(init[k], reportPath, writeFault) == Wrote(path, before[path]);
          assert ps[k] == init[k];
        }
      }
    }
  }

  /** A plugin's output lands at its file name inside the report directory. */
  lemma WrotePath(p: RegisteredPlugin, reportPath: string, writeFault: string -> Option<Err>)
    ensures StepOf(p, reportPath, writeFault).Wrote? <==>
      p.streamPlugin.Some? && p.streamPlugin.value().Ok? && writeFault(Join(reportPath, p.filename)).None?
    ensures StepOf(p, reportPath, writeFault).Wrote? ==>
      StepOf(p, reportPath, writeFault) == Wrote(Join(reportPath, p.filename), p.streamPlugin.value().value)
  {
  }

  /** What `sanityCheck` fails with: running as anyone but root, then a
      report directory that cannot be made. */
  function Guard(uid: int, mkdirFault: string -> Option<Err>, reportPath: string): Option<Err> {
    if uid != 0 then Some(Other("must be run as root")) else mkdirFault(reportPath)
  }

  /** What `sanityCheck` prints on standard error. */
  function Complaints(uid: int, mkdirFault: string -> Option<Err>, reportPath: string): seq<Line> {
    if uid != 0 then [Line(Warning, "Keep Calm and Re-run as Root!")]
    else if mkdirFault(reportPath).Some? then
      [Line(Warning, "Cannot create report directory - exiting " + mkdirFault(reportPath).value.Text() + "\n")]
    else []
  }

  class Runner {
    const hostname: string
    const timestamp: Stamp
    const baseReportDir: string
    const out: Writer
    var tarballPath: string
    var reportPath: string
    var plugins: seq<RegisteredPlugin>

    /** `New(baseReportDir, hostname, now, out)`: a runner without plugins
        whose paths are set. */
    constructor (baseReportDir: string, hostname: string, now: Stamp, out: Writer)
      ensures this.baseReportDir == baseReportDir && this.hostname == hostname
      ensures timestamp == now && this.out == out && plugins == []
      ensures reportPath == ReportPathOf(baseReportDir, hostname, now)
      ensures tarballPath == reportPath + ".tar.gz"
    {
      this.baseReportDir := baseReportDir;
      this.hostname := hostname;
      timestamp := now;
      this.out := out;
      plugins := [];
      tarballPath := "";
      reportPath := "";
      new;
      SetPaths();
    }

    /** `SetPaths`: the report directory after the host and the time, and the
        archive beside it. */
    method SetPaths()
      modifies this
      ensures reportPath == ReportPathOf(baseReportDir, hostname, timestamp)
      ensures tarballPath == reportPath + ".tar.gz"
      ensures plugins == old(plugins)
    {
      var stamp := FormatStamp(timestamp);
      var reportDir := "os-report-" + hostname + "-" + stamp;
      reportPath := Join(baseReportDir, reportDir);
      tarballPath := reportPath + ".tar.gz";
    }

    /** `RegisterStream`: one new record at the end, not echoing, whose
        handle is returned. */
    method RegisterStream(name: string, filename: string, plugin: Option<StreamPlugin>, timeouts: seq<int>)
      returns (p: RegisteredPlugin)
      modifies this
      ensures fresh(p) && plugins == old(plugins) + [p]
      ensures p.streamPlugin == plugin && p.name == name && p.filename == filename
      ensures p.timeout == TimeoutOf(timeouts) && !p.echoOutput
      ensures reportPath == old(reportPath) && tarballPath == old(tarballPath)
    {
      var maxDuration := DefaultTimeout;
      if |timeouts| > 0 {
        maxDuration := timeouts[0];
      }
      p := new RegisteredPlugin(plugin, name, filename, maxDuration);
      plugins := plugins + [p];
    }

    /** `RegisterEchoStream`: as `RegisterStream`, then the echo flag is set
        through the handle, so the record in the list has it too. */
    method RegisterEchoStream(name: string, filename: string, plugin: Option<StreamPlugin>, timeouts: seq<int>)
      returns (p: RegisteredPlugin)
      modifies this
      ensures fresh(p) && plugins == old(plugins) + [p]
      ensures p.streamPlugin == plugin && p.name == name && p.filename == filename
      ensures p.timeout == TimeoutOf(timeouts) && p.echoOutput
      ensures plugins[|plugins| - 1].echoOutput
      ensures reportPath == old(reportPath) && tarballPath == old(tarballPath)
    {
      p := RegisterStream(name, filename, plugin, timeouts);
      p.echoOutput := true;
    }

    /** `sanityCheck`, with `uid` what `os.Getuid` returns. */
    method SanityCheck(uid: int, stderr: Writer, fs: FileSystem) returns (err: Option<Err>)
      modifies stderr, fs
      ensures err == Guard(uid, fs.mkdirFault, reportPath)
      ensures stderr.written == old(stderr.written) + Shown(stderr.fault, Complaints(uid, fs.mkdirFault, reportPath))
      ensures fs.dirs == if uid == 0 && err.None? then old(fs.dirs) + {reportPath} else old(fs.dirs)
      ensures fs.files == old(fs.files)
    {
      if uid != 0 {
        Emit(stderr, [Line(Warning, "Keep Calm and Re-run as Root!")]);
        return Some(Other("must be run as root"));
      }
      err := fs.MkdirAll(reportPath);
      if err.Some? {
        Emit(stderr, [Line(Warning, "Cannot create report directory - exiting " + err.value.Text() + "\n")]);
        return err;
      }
      assert Complaints(uid, fs.mkdirFault, reportPath) == [];
    }

    /** One turn of the plugin loop of `Run`. */
    method RunPlugin(p: RegisteredPlugin, fs: FileSystem)
      modifies out, fs
      ensures out.written == old(out.written) + Shown(out.fault, Section(p, reportPath, fs.writeFault))
      ensures fs.files == Store(old(fs.files), p, reportPath, fs.writeFault)
      ensures fs.dirs == old(fs.dirs)
    {
      ghost var f := out.fault;
      var head := [Line(Header, p.name)];
      Emit(out, head);
      var tail := [];
      if p.streamPlugin.Some? {
        var r := p.streamPlugin.value();
        if r.Fail? {
          tail := [Line(Failure, r.err.Text())];
          Emit(out, tail);
        } else {
          var outPath := Join(reportPath, p.filename);
          var e := fs.WriteFile(outPath, r.value);
          if e.Some? {
            tail := [Line(WriteFailure, e.value.Text())];
            Emit(out, tail);
          }
        }
      }
      assert head + tail == Section(p, reportPath, fs.writeFault);
      ShownAppend(f, head, tail);
      Assoc(old(out.written), Shown(f, head), Shown(f, tail));
    }

    /** `Runner.Run`, with `uid` the user it runs as, `stderr` the standard
        error stream, `fs` the file system and `tar` the outcome of every
        `tar` command line. A failed check ends the run before anything is
        printed on the writer; otherwise each plugin has its turn, a failing
        one does not stop the others, and the result is the archiving step's. */
    method Run(uid: int, stderr: Writer, fs: FileSystem, tar: seq<string> -> Option<Err>) returns (err: Option<Err>)
      requires stderr != out
      modifies out, stderr, fs
      ensures stderr.written == old(stderr.written) + Shown(stderr.fault, Complaints(uid, fs.mkdirFault, reportPath))
      ensures Guard(uid, fs.mkdirFault, reportPath).Some? ==>
        && err == Guard(uid, fs.mkdirFault, reportPath)
        && out.written == old(out.written)
        && fs.files == old(fs.files) && fs.dirs == old(fs.dirs)
      ensures Guard(uid, fs.mkdirFault, reportPath).None? ==>
        && err == tar(TarArgs(tarballPath, baseReportDir, reportPath))
        && out.written == old(out.written) + Shown(out.fault, Transcript(plugins, reportPath, fs.writeFault))
        && fs.files == Stored(old(fs.files), plugins, reportPath, fs.writeFault)
        && fs.dirs == old(fs.dirs) + {reportPath}
    {
      err := SanityCheck(uid, stderr, fs);
      if err.Some? {
        return;
      }
      Emit(out, [Line(BannerLine, Banner)]);
      for i := 0 to |plugins|
        invariant out.written == old(out.written) + Shown(out.fault, Transcript(plugins[..i], reportPath, fs.writeFault))
        invariant fs.files == Stored(old(fs.files), plugins[..i], reportPath, fs.writeFault)
        invariant fs.dirs == old(fs.dirs) + {reportPath}
        invariant stderr.written == old(stderr.written) + Shown(stderr.fault, Complaints(uid, fs.mkdirFault, reportPath))
      {
        var p := plugins[i];
        RunPlugin(p, fs);
        assert plugins[..i + 1] == plugins[..i] + [p];
        assert plugins[..i + 1][..i] == plugins[..i];
        TranscriptSnoc(plugins[..i], p, reportPath, fs.writeFault);
        ShownAppend(out.fault, Transcript(plugins[..i], reportPath, fs.writeFault), Section(p, reportPath, fs.writeFault));
        Assoc(old(out.written), Shown(out.fault, Transcript(plugins[..i], reportPath, fs.writeFault)),
          Shown(out.fault, Section(p, reportPath, fs.writeFault)));
      }
      assert plugins[..|plugins|] == plugins;
      err := tar(TarArgs(tarballPath, baseReportDir, reportPath));
    }
  }
}
