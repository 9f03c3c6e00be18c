/** `bpmchecker`: whether process 1 was started by garden, judged from its command line. */
module BpmChecker {
  import opened Errors
  import opened Strings

  datatype Checker = Checker(file: string)

  const DefaultFile: string := "/proc/1/cmdline"
  const Marker: string := "garden_start"

  /** `bpmchecker.New(file...)`: the first path given, or process 1's command line. */
  function New(files: seq<string>): (c: Checker)
    ensures files == [] ==> c.file == DefaultFile
    ensures files != [] ==> c.file == files[0]
  {
    if |files| > 0 then Checker(files[0]) else Checker(DefaultFile)
  }

  /** `ioutil.ReadFile`. */
  type ReadFile = string -> Result<string>

  /** `Checker.HasGardenPid1`: true exactly when the file's contents hold
      `garden_start`; a read error gives false and that error. */
  function HasGardenPid1(c: Checker, read: ReadFile): (r: (bool, Option<Err>))
    ensures read(c.file).Fail? ==> r == (false, Some(read(c.file).err))
    ensures read(c.file).Ok? ==> r.1 == None && (r.0 <==> Occurs(read(c.file).value, Marker))
  {
    match read(c.file)
    case Fail(e) => (false, Some(e))
    case Ok(contents) =>
      ContainsIffOccurs(contents, Marker);
      (Contains(contents, Marker), None)
  }

  /** The marker is found wherever it sits in the command line. */
  lemma {:induction false} MarkerAnywhere(c: Checker, read: ReadFile, before: string, after: string)
    requires read(c.file) == Ok(before + Marker + after)
    ensures HasGardenPid1(c, read) == (true, None)
  {
    var s := before + Marker + after;
    assert s[|before|..|before| + |Marker|] == Marker;
    assert OccursAt(s, Marker, |before|);
  }

  /** A command line shorter than the marker never holds it. */
  lemma ShortContentsNotGarden(c: Checker, read: ReadFile)
    requires read(c.file).Ok? && |read(c.file).value| < |Marker|
    ensures HasGardenPid1(c, read) == (false, None)
  {
  }
}
