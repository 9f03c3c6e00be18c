/** The collector-based reporter of `osreporter/reporter.go`: collectors are
    registered one by one, each with a deadline; a run prints a banner, then
    a header per collector and the failure it reported, and ends by archiving
    the report directory. A collector's behaviour and the `tar` command are
    oracles fixed in advance. */
module Reporter {
  import opened Errors
  import opened Numbers
  import opened Paths
  import opened Io
  import opened Osreporter
  import opened Seqs

  /** The writer a collector is given: the reporter's stdout or `ioutil.Discard`. */
  datatype Sink = Stdout | Discard

  /** One invocation of a collector: the destination path, the deadline of its
      context and the writer it is given. */
  datatype Call = Call(dstPath: string, timeout: int, sink: Sink)

  /** What a collector does in one invocation: the chunks it writes to its
      writer and the error it returns. */
  datatype Outcome = Outcome(writes: seq<string>, err: Option<Err>)

  /** A `Collector`: the outcome of every invocation it may get. */
  type Collector = Call -> Outcome

  /** The message a collector that ran into its deadline is reported with. */
  function TimedOut(timeout: int): Err {
    Other("timed out after " + DurationString(timeout))
  }

  /** The error check of `RegisteredCollector.Run`: `context.DeadlineExceeded`
      itself becomes a message naming the deadline; any other error, and
      success, pass through. */
  function Translate(err: Option<Err>, timeout: int): (r: Option<Err>)
    ensures r.None? <==> err.None?
    ensures r != Some(Deadline)
    ensures err != Some(Deadline) ==> r == err
    ensures err == Some(Deadline) ==> r == Some(TimedOut(timeout))
  {
    if err == Some(Deadline) then Some(TimedOut(timeout)) else err
  }

  /** The messages of the tests: the default deadline and a millisecond one. */
  lemma TimedOutMessages(n: nat)
    requires 1 <= n <= 9
    ensures Translate(Some(Deadline), TimeoutOf([])).value.Text() == "timed out after 10s"
    ensures Translate(Some(Deadline), TimeoutOf([n * Millisecond])).value.Text()
         == "timed out after " + Digits(n) + "ms"
  {
    TimeoutOfNone();
    MillisecondExample(n);
  }

  datatype RegisteredCollector = RegisteredCollector(
    collector: Collector, name: string, echoOutput: bool, timeout: int)
  {
    /** A noisy collector writes to stdout, any other to `ioutil.Discard`. */
    function Sink(): Sink {
      if echoOutput then Stdout else Discard
    }

    /** `RegisteredCollector.Run(dstPath, out)`: the collector runs once under
        its deadline, with the writer its echo flag picks. */
    function Run(dstPath: string): (o: Outcome)
      ensures o.writes == collector(Call(dstPath, timeout, Sink())).writes
      ensures o.err == Translate(collector(Call(dstPath, timeout, Sink())).err, timeout)
    {
      var o := collector(Call(dstPath, timeout, Sink()));
      Outcome(o.writes, Translate(o.err, timeout))
    }
  }

  /** The console lines of what a collector wrote to its writer. */
  function EchoLines(ws: seq<string>): seq<Line> {
    if ws == [] then [] else EchoLines(ws[..|ws| - 1]) + [Line(Echo, ws[|ws| - 1])]
  }

  lemma {:induction false} OfEchoLines(ws: seq<string>, kind: Kind)
    ensures Of(EchoLines(ws), kind) == if kind == Echo then ws else []
  {
    if ws != [] {
      var init := ws[..|ws| - 1];
      OfEchoLines(init, kind);
      OfAppend(EchoLines(init), [Line(Echo, ws[|ws| - 1])], kind);
      assert Of([Line(Echo, ws[|ws| - 1])], kind) == if kind == Echo then [ws[|ws| - 1]] else [] by {
        assert [Line(Echo, ws[|ws| - 1])][..0] == [];
      }
      assert init + [ws[|ws| - 1]] == ws;
    }
  }

  /** The lines of one section: the header of `name`, the chunks `ws` when
      they are `echoed`, and the failure `failure` when there is one. */
  function SectionLines(name: string, echoed: bool, ws: seq<string>, failure: Option<string>): seq<Line> {
    [Line(Header, name)]
    + (if echoed then EchoLines(ws) else [])
    + (if failure.Some? then [Line(Failure, failure.value)] else [])
  }

  lemma SectionLinesOf(name: string, echoed: bool, ws: seq<string>, failure: Option<string>, kind: Kind)
    ensures Of(SectionLines(name, echoed, ws, failure), kind)
         == (if kind == Header then [name] else [])
          + (if echoed && kind == Echo then ws else [])
          + (if failure.Some? && kind == Failure then [failure.value] else [])
  {
    var head := [Line(Header, name)];
    var echoes := if echoed then EchoLines(ws) else [];
    var fail := if failure.Some? then [Line(Failure, failure.value)] else [];
    OfAppend(head + echoes, fail, kind);
    OfAppend(head, echoes, kind);
    OfSingle(Line(Header, name), kind);
    if failure.Some? {
      OfSingle(Line(Failure, failure.value), kind);
    }
    if echoed {
      OfEchoLines(ws, kind);
    }
  }

  /** The text of an error, if there is one. */
  function Message(err: Option<Err>): Option<string> {
    if err.Some? then Some(err.value.Text()) else None
  }

  /** What one collector adds to the console: its header, what it wrote when
      its writer is stdout, and a failure line when it reported an error. */
  function Section(c: RegisteredCollector, dstPath: string): seq<Line> {
    var o := c.Run(dstPath);
    SectionLines(c.name, c.echoOutput, o.writes, Message(o.err))
  }

  function Sections(cs: seq<RegisteredCollector>, dstPath: string): seq<Line> {
    if cs == [] then [] else Sections(cs[..|cs| - 1], dstPath) + Section(cs[|cs| - 1], dstPath)
  }

  /** Everything `Reporter.Run` prints: the banner, then each collector's
      section in registration order. */
  function Transcript(cs: seq<RegisteredCollector>, dstPath: string): seq<Line> {
    [Line(BannerLine, Banner)] + Sections(cs, dstPath)
  }

  /** One more collector adds its own section at the end, after every line of
      the collectors before it. */
  lemma TranscriptSnoc(cs: seq<RegisteredCollector>, c: RegisteredCollector, dstPath: string)
    ensures Transcript(cs + [c], dstPath) == Transcript(cs, dstPath) + Section(c, dstPath)
  {
    assert (cs + [c])[..|cs|] == cs;
  }

  /** The texts of the errors the collectors reported, in order. */
  function ReportedErrors(cs: seq<RegisteredCollector>, dstPath: string): seq<string> {
    if cs == [] then []
    else
      var o := cs[|cs| - 1].Run(dstPath);
      ReportedErrors(cs[..|cs| - 1], dstPath) + (if o.err.Some? then [o.err.value.Text()] else [])
  }

  /** What the noisy collectors wrote, in order. */
  function EchoedOutput(cs: seq<RegisteredCollector>, dstPath: string): seq<string> {
    if cs == [] then []
    else
      var c := cs[|cs| - 1];
      EchoedOutput(cs[..|cs| - 1], dstPath) + (if c.echoOutput then c.Run(dstPath).writes else [])
  }

  /** A section holds one header, its collector's, and no banner. */
  lemma SectionHeaders(c: RegisteredCollector, dstPath: string)
    ensures Of(Section(c, dstPath), Header) == [c.name]
    ensures Of(Section(c, dstPath), BannerLine) == []
  {
    var o := c.Run(dstPath);
    SectionLinesOf(c.name, c.echoOutput, o.writes, Message(o.err), Header);
    SectionLinesOf(c.name, c.echoOutput, o.writes, Message(o.err), BannerLine);
  }

  lemma ReportedErrorsOne(c: RegisteredCollector, dstPath: string)
    ensures ReportedErrors([c], dstPath) == Message(c.Run(dstPath).err).ToSeq()
  {
    assert [c][..0] == [];
  }

  lemma EchoedOutputOne(c: RegisteredCollector, dstPath: string)
    ensures EchoedOutput([c], dstPath) == if c.echoOutput then c.Run(dstPath).writes else []
  {
    assert [c][..0] == [];
  }

  /** A section's failure line is its collector's error, if it reported one. */
  lemma SectionFailure(c: RegisteredCollector, dstPath: string)
    ensures Of(Section(c, dstPath), Failure) == ReportedErrors([c], dstPath)
  {
    var o := c.Run(dstPath);
    SectionLinesOf(c.name, c.echoOutput, o.writes, Message(o.err), Failure);
    ReportedErrorsOne(c, dstPath);
  }

  /** A section shows its collector's output exactly when it is noisy. */
  lemma SectionEcho(c: RegisteredCollector, dstPath: string)
    ensures Of(Section(c, dstPath), Echo) == EchoedOutput([c], dstPath)
  {
    var o := c.Run(dstPath);
    SectionLinesOf(c.name, c.echoOutput, o.writes, Message(o.err), Echo);
    EchoedOutputOne(c, dstPath);
  }

  /** Only the opening banner is a banner: the report starts with it. */
  lemma {:induction false} OneBanner(cs: seq<RegisteredCollector>, dstPath: string)
    ensures Transcript(cs, dstPath)[0] == Line(BannerLine, Banner)
    ensures Of(Transcript(cs, dstPath), BannerLine) == [Banner]
  {
    if cs == [] {
      assert Of([Line(BannerLine, Banner)], BannerLine) == [Banner] by {
        assert [Line(BannerLine, Banner)][..0] == [];
      }
    } else {
      var init := cs[..|cs| - 1];
      assert init + [cs[|cs| - 1]] == cs;
      OneBanner(init, dstPath);
      TranscriptSnoc(init, cs[|cs| - 1], dstPath);
      OfAppend(Transcript(init, dstPath), Section(cs[|cs| - 1], dstPath), BannerLine);
      SectionHeaders(cs[|cs| - 1], dstPath);
    }
  }

  /** There is one header per registered collector, in registration order: a
      failing collector does not stop the run. */
  lemma {:induction false} HeadersAreNames(cs: seq<RegisteredCollector>, dstPath: string)
    ensures |Of(Transcript(cs, dstPath), Header)| == |cs|
    ensures forall k :: 0 <= k < |cs| ==> Of(Transcript(cs, dstPath), Header)[k] == cs[k].name
  {
    if cs == [] {
      assert Of([Line(BannerLine, Banner)], Header) == [] by {
        assert [Line(BannerLine, Banner)][..0] == [];
      }
    } else {
      var init := cs[..|cs| - 1];
      assert init + [cs[|cs| - 1]] == cs;
      HeadersAreNames(init, dstPath);
      TranscriptSnoc(init, cs[|cs| - 1], dstPath);
      OfAppend(Transcript(init, dstPath), Section(cs[|cs| - 1], dstPath), Header);
      SectionHeaders(cs[|cs| - 1], dstPath);
    }
  }

  /** The lines of a kind after one more collector: those before it, then its section's. */
  lemma OfTranscriptSnoc(cs: seq<RegisteredCollector>, c: RegisteredCollector, dstPath: string, kind: Kind)
    ensures Of(Transcript(cs + [c], dstPath), kind)
         == Of(Transcript(cs, dstPath), kind) + Of(Section(c, dstPath), kind)
  {
    TranscriptSnoc(cs, c, dstPath);
    OfAppend(Transcript(cs, dstPath), Section(c, dstPath), kind);
  }

  lemma ReportedErrorsSnoc(cs: seq<RegisteredCollector>, c: RegisteredCollector, dstPath: string)
    ensures ReportedErrors(cs + [c], dstPath) == ReportedErrors(cs, dstPath) + ReportedErrors([c], dstPath)
  {
    assert (cs + [c])[..|cs|] == cs;
    assert [c][..0] == [];
  }

  lemma EchoedOutputSnoc(cs: seq<RegisteredCollector>, c: RegisteredCollector, dstPath: string)
    ensures EchoedOutput(cs + [c], dstPath) == EchoedOutput(cs, dstPath) + EchoedOutput([c], dstPath)
  {
    assert (cs + [c])[..|cs|] == cs;
    assert [c][..0] == [];
  }

  /** The failure lines are exactly the errors the collectors reported, one
      per failing collector, in order. */
  lemma {:induction false} FailuresAreErrors(cs: seq<RegisteredCollector>, dstPath: string)
    ensures Of(Transcript(cs, dstPath), Failure) == ReportedErrors(cs, dstPath)
  {
    if cs == [] {
      OfSingle(Line(BannerLine, Banner), Failure);
    } else {
      var init := cs[..|cs| - 1];
      var c := cs[|cs| - 1];
      assert init + [c] == cs;
      FailuresAreErrors(init, dstPath);
      OfTranscriptSnoc(init, c, dstPath, Failure);
      SectionFailure(c, dstPath);
      ReportedErrorsSnoc(init, c, dstPath);
    }
  }

  /** The console shows what the noisy collectors wrote and nothing that a
      quiet collector wrote. */
  lemma {:induction false} EchoesAreNoisyOutput(cs: seq<RegisteredCollector>, dstPath: string)
    ensures Of(Transcript(cs, dstPath), Echo) == EchoedOutput(cs, dstPath)
  {
    if cs == [] {
      OfSingle(Line(BannerLine, Banner), Echo);
    } else {
      var init := cs[..|cs| - 1];
      var c := cs[|cs| - 1];
      assert init + [c] == cs;
      EchoesAreNoisyOutput(init, dstPath);
      OfTranscriptSnoc(init, c, dstPath, Echo);
      SectionEcho(c, dstPath);
      EchoedOutputSnoc(init, c, dstPath);
    }
  }

  /** The command line of `createTarball`: archive the report directory, by
      its last element, from inside its parent. */
  function TarArgs(reportPath: string): seq<string> {
    ["tar", "cf", reportPath + ".tar.gz", "-C", Dir(reportPath), Base(reportPath)]
  }

  /** For a report directory `dir/name`, the archive is `dir/name.tar.gz` and
      holds `name` as found in `dir`. */
  lemma TarArgsOfJoined(dir: string, name: string)
    requires dir != "" && IsName(name)
    ensures TarArgs(Join(dir, name)) == ["tar", "cf", Join(dir, name) + ".tar.gz", "-C", Clean(dir), name]
  {
    JoinedNameSplits(dir, name);
  }

  class Reporter {
    const stdout: Writer
    const reportPath: string
    var collectors: seq<RegisteredCollector>

    /** `New(reportPath, stdout)`: a reporter with no collectors. */
    constructor (reportPath: string, stdout: Writer)
      ensures this.reportPath == reportPath && this.stdout == stdout
      ensures collectors == []
    {
      this.reportPath := reportPath;
      this.stdout := stdout;
      collectors := [];
    }

    /** `registerCollector`: exactly one record goes at the end. */
    method Register(name: string, collector: Collector, echoOutput: bool, timeouts: seq<int>)
      modifies this
      ensures collectors == old(collectors) + [RegisteredCollector(collector, name, echoOutput, TimeoutOf(timeouts))]
    {
      var maxDuration := DefaultTimeout;
      if |timeouts| > 0 {
        maxDuration := timeouts[0];
      }
      collectors := collectors + [RegisteredCollector(collector, name, echoOutput, maxDuration)];
    }

    /** A quiet collector: its output is discarded. */
    method RegisterCollector(name: string, collector: Collector, timeouts: seq<int>)
      modifies this
      ensures collectors == old(collectors) + [RegisteredCollector(collector, name, false, TimeoutOf(timeouts))]
    {
      Register(name, collector, false, timeouts);
    }

    /** A noisy collector: its output goes to stdout. */
    method RegisterNoisyCollector(name: string, collector: Collector, timeouts: seq<int>)
      modifies this
      ensures collectors == old(collectors) + [RegisteredCollector(collector, name, true, TimeoutOf(timeouts))]
    {
      Register(name, collector, true, timeouts);
    }

    /** One turn of the loop of `Reporter.Run`: print the header, run the
        collector with the writer its echo flag picks, and print its failure. */
    method RunCollector(c: RegisteredCollector) returns (call: Call)
      modifies stdout
      ensures call == Call(reportPath, c.timeout, if c.echoOutput then Stdout else Discard)
      ensures stdout.written == old(stdout.written) + Shown(stdout.fault, Section(c, reportPath))
    {
      ghost var f := stdout.fault;
      var head := [Line(Header, c.name)];
      Emit(stdout, head);
      call := Call(reportPath, c.timeout, c.Sink());
      var o := c.collector(call);
      var echoes := [];
      if c.echoOutput {
        echoes := EchoLines(o.writes);
        Emit(stdout, echoes);
      }
      var e := Translate(o.err, c.timeout);
      var fail := [];
      if e.Some? {
        fail := [Line(Failure, e.value.Text())];
        Emit(stdout, fail);
      }
      assert stdout.written == old(stdout.written) + Shown(f, head) + Shown(f, echoes) + Shown(f, fail);
      assert head + echoes + fail == Section(c, reportPath);
      ShownAppend(f, head, echoes);
      ShownAppend(f, head + echoes, fail);
      Assoc(old(stdout.written), Shown(f, head), Shown(f, echoes));
      Assoc(old(stdout.written), Shown(f, head + echoes), Shown(f, fail));
    }

    /** `Reporter.Run`, with `tar` the outcome of every `tar` command line.
        `calls` are the collector invocations made, in order: each collector
        runs exactly once, on the report path, under its own deadline, and is
        given stdout exactly when it is noisy. Stdout receives the transcript;
        the result is the archiving step's, whatever the collectors did. */
    method Run(tar: seq<string> -> Option<Err>) returns (err: Option<Err>, calls: seq<Call>)
      modifies stdout
      ensures |calls| == |collectors|
      ensures forall k :: 0 <= k < |calls| ==>
        calls[k] == Call(reportPath, collectors[k].timeout, if collectors[k].echoOutput then Stdout else Discard)
      ensures stdout.written == old(stdout.written) + Shown(stdout.fault, Transcript(collectors, reportPath))
      ensures err == tar(TarArgs(reportPath))
    {
      Emit(stdout, [Line(BannerLine, Banner)]);
      calls := [];
      for i := 0 to |collectors|
        invariant |calls| == i
        invariant forall k :: 0 <= k < i ==>
          calls[k] == Call(reportPath, collectors[k].timeout, if collectors[k].echoOutput then Stdout else Discard)
        invariant stdout.written == old(stdout.written) + Shown(stdout.fault, Transcript(collectors[..i], reportPath))
      {
        ghost var before := stdout.written;
        var c := collectors[i];
        var call := RunCollector(c);
        calls := calls + [call];
        assert collectors[..i + 1] == collectors[..i] + [c];
        TranscriptSnoc(collectors[..i], c, reportPath);
        ShownAppend(stdout.fault, Transcript(collectors[..i], reportPath), Section(c, reportPath));
        Assoc(old(stdout.written), Shown(stdout.fault, Transcript(collectors[..i], reportPath)),
          Shown(stdout.fault, Section(c, reportPath)));
      }
      assert collectors[..|collectors|] == collectors;
      err := tar(TarArgs(reportPath));
    }
  }
}
