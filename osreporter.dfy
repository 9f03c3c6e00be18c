/** What the two reporters of the `osreporter` package share: the lines they
    print for the operator and how each is spelled, and the deadline a
    registration gets when it names none. */
module Osreporter {
  import opened Errors
  import opened Numbers
  import opened Io
  import opened Seqs

  /** The deadline of a collector or plugin registered without one. */
  const DefaultTimeout: int := 10 * Second

  /** The variadic `timeout ...time.Duration` of a registration: its first
      element when there is one, the default otherwise. */
  function TimeoutOf(timeouts: seq<int>): int {
    if |timeouts| > 0 then timeouts[0] else DefaultTimeout
  }

  lemma TimeoutOfNone()
    ensures TimeoutOf([]) == DefaultTimeout
    ensures DurationString(TimeoutOf([])) == "10s"
  {
    TenSecondsExample();
  }

  /** Only the first of the given timeouts counts; the rest are ignored. */
  lemma TimeoutOfFirst(t: int, rest: seq<int>)
    ensures TimeoutOf([t] + rest) == t
  {
  }

  const Banner: string := "<Useful information below, please copy-paste from here>"

  /** The kinds of line a run prints: the banner that opens the report, the
      header of one collector or plugin, a chunk a collector wrote to the
      console, a failure, a file that could not be written, and a warning on
      standard error. */
  datatype Kind = BannerLine | Header | Echo | Failure | WriteFailure | Warning

  datatype Line = Line(kind: Kind, text: string)

  /** How a line reaches the writer: `fmt.Fprintln` for the banner, headers
      and failures (its two operands separated by a space), the collector's
      own bytes for an echo, and the text as it is for a warning. */
  function Render(l: Line): string {
    match l.kind
    case BannerLine => l.text + "\n"
    case Header => "## " + l.text + "\n"
    case Echo => l.text
    case Failure => "Failure: " + l.text + "\n"
    case WriteFailure => "Failed to write file: " + l.text + "\n"
    case Warning => l.text
  }

  /** The chunks the writer receives for `ls`, one per line. */
  function RenderAll(ls: seq<Line>): (r: seq<string>)
    ensures |r| == |ls|
    ensures forall k :: 0 <= k < |ls| ==> r[k] == Render(ls[k])
  {
    if ls == [] then [] else RenderAll(ls[..|ls| - 1]) + [Render(ls[|ls| - 1])]
  }

  /** What a writer keeps of `ls`: everything, or nothing when it refuses writes. */
  function Shown(fault: Option<Err>, ls: seq<Line>): seq<string> {
    if fault.None? then RenderAll(ls) else []
  }

  lemma ShownAppend(fault: Option<Err>, a: seq<Line>, b: seq<Line>)
    ensures Shown(fault, a + b) == Shown(fault, a) + Shown(fault, b)
  {
    if fault.None? {
      assert RenderAll(a + b) == RenderAll(a) + RenderAll(b);
    }
  }

  /** The texts of the lines of `kind`, in order. */
  function Of(ls: seq<Line>, kind: Kind): seq<string> {
    if ls == [] then []
    else
      var last := ls[|ls| - 1];
      Of(ls[..|ls| - 1], kind) + (if last.kind == kind then [last.text] else [])
  }

  lemma {:induction false} OfAppend(a: seq<Line>, b: seq<Line>, kind: Kind)
    ensures Of(a + b, kind) == Of(a, kind) + Of(b, kind)
    decreases |b|
  {
    if b == [] {
      assert a + b == a;
    } else {
      var b' := b[..|b| - 1];
      assert (a + b)[..|a + b| - 1] == a + b';
      OfAppend(a, b', kind);
    }
  }

  lemma OfSingle(l: Line, kind: Kind)
    ensures Of([l], kind) == if l.kind == kind then [l.text] else []
  {
    assert [l][..0] == [];
  }

  /** A sequence of `fmt.Fprintln` calls on `w`, whose errors are ignored. */
  method Emit(w: Writer, ls: seq<Line>)
    modifies w
    ensures w.written == old(w.written) + Shown(w.fault, ls)
  {
    for k := 0 to |ls|
      invariant w.written == old(w.written) + Shown(w.fault, ls[..k])
    {
      var ignored := w.Write(Render(ls[k]));
      assert ls[..k + 1][..k] == ls[..k];
    }
    assert ls[..|ls|] == ls;
  }
}
