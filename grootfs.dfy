/** `collectors/grootfs`: how much disk the grootfs store uses, written as a
    fixed-width report of eight lines. */
module GrootfsUsage {
  import opened Errors
  import opened Strings
  import opened Numbers
  import opened Paths
  import opened Io
  import opened Seqs

  const DirName: string := "grootfs"
  const GrootFSBin: string := "/var/vcap/packages/grootfs/bin/grootfs"

  /** An entry of `ioutil.ReadDir`. */
  datatype DirEntry = DirEntry(name: string, isDir: bool)

  /** What the collector reads from the host: files, directory listings, and
      the injected command runner (whose output is ignored on error). */
  datatype Host = Host(readFile: string -> Result<string>,
                       readDir: string -> Result<seq<DirEntry>>,
                       run: (string, seq<string>) -> Result<string>)

  /** The YAML and JSON decoders, reduced to the fields the collector uses:
      the config's `store`, the stats' `disk_usage.exclusive_bytes_used`, a
      meta file's `Size`, and a dependencies file's list of volume ids. */
  datatype Decoders = Decoders(config: string -> Result<string>,
                               stats: string -> Result<int>,
                               meta: string -> Result<int>,
                               ids: string -> Result<seq<string>>)

  datatype Config = Config(store: string, bin: string)

  /** `parseGrootfsConfig`. */
  function ParseConfig(h: Host, d: Decoders, configPath: string): (r: Result<Config>)
    ensures h.readFile(configPath).Fail? ==>
              r == Fail(Wrap("failed to read grootfs config file " + Quote(configPath) + ": ", h.readFile(configPath).err))
    ensures r.Ok? <==> h.readFile(configPath).Ok? && d.config(h.readFile(configPath).value).Ok?
    ensures r.Ok? ==> r.value == Config(d.config(h.readFile(configPath).value).value, GrootFSBin)
  {
    match h.readFile(configPath)
    case Fail(e) => Fail(Wrap("failed to read grootfs config file " + Quote(configPath) + ": ", e))
    case Ok(contents) =>
      match d.config(contents)
      case Fail(e) => Fail(Wrap("failed to unmarshal grootfs config file: ", e))
      case Ok(store) => Ok(Config(store, GrootFSBin))
  }

  /** The arguments of `du`: sizes in bytes, one total, and with
      `--apparent-size` when the apparent size is asked for. */
  function DuArgs(path: string, apparentSize: bool): (args: seq<string>)
    ensures !apparentSize ==> args == ["-B1", "-s", path]
    ensures apparentSize ==> args == ["-B1", "--apparent-size", "-s", path]
  {
    ["-B1"] + (if apparentSize then ["--apparent-size"] else []) + ["-s", path]
  }

  /** The size `du` printed: the number before the first tab. */
  function ParseDu(output: string): (r: Result<int>)
    ensures '\t' !in output ==> r == Fail(Other("unexpected `du` output " + Quote(output)))
    ensures '\t' in output ==> (r.Ok? <==> ParseInt(output[..IndexOf(output, '\t')]).Ok?)
    ensures '\t' in output && ParseInt(output[..IndexOf(output, '\t')]).Fail? ==>
              var head := output[..IndexOf(output, '\t')];
              r == Fail(Wrap("failed to parse int " + Quote(head) + ": ", ParseInt(head).err))
    ensures r.Ok? ==> ParseInt(output[..IndexOf(output, '\t')]) == Ok(r.value)
    ensures r.Ok? ==> MinInt64 <= r.value <= MaxInt64
  {
    var parts := Split(output, '\t');
    if |parts| < 2 then Fail(Other("unexpected `du` output " + Quote(output)))
    else
      match ParseInt(parts[0])
      case Fail(e) => Fail(Wrap("failed to parse int " + Quote(parts[0]) + ": ", e))
      case Ok(n) => Ok(n)
  }

  lemma DecimalHasNoTab(n: int)
    ensures '\t' !in Decimal(n)
  {
    var s := Decimal(n);
    if n < 0 {
      assert forall k :: 1 <= k < |s| ==> s[k] == Digits(-n)[k - 1];
    }
  }

  /** `du`'s own output, a size, a tab and the path, reads back as that size. */
  lemma ParseDuReadsSize(n: int, rest: string)
    requires MinInt64 <= n <= MaxInt64
    ensures ParseDu(Decimal(n) + "\t" + rest) == Ok(n)
  {
    DecimalHasNoTab(n);
    SplitAround(Decimal(n), '\t', rest);
    assert Decimal(n) + "\t" + rest == Decimal(n) + ['\t'] + rest;
    ParseIntDecimal(n);
  }

  /** `sizeOnDisk`: run `du` on `path` and read its size. */
  function SizeOnDisk(h: Host, path: string, apparentSize: bool): Result<int>
  {
    var args := DuArgs(path, apparentSize);
    match h.run("du", args)
    case Fail(e) => Fail(Wrap("failed to run `du " + Intercalate(args, " ") + "`: ", e))
    case Ok(output) => ParseDu(output)
  }

  /** The sum of `sizes`, in order; the first failure makes the whole sum
      fail with its error. */
  function Total(sizes: seq<Result<int>>): Result<int> {
    if sizes == [] then Ok(0)
    else
      match sizes[0]
      case Fail(e) => Fail(e)
      case Ok(v) => AddTo(v, Total(sizes[1..]))
  }

  function AddTo(a: int, r: Result<int>): Result<int> {
    match r
    case Ok(v) => Ok(a + v)
    case Fail(e) => Fail(e)
  }

  /** What the closure `sizer` returns for each of `ids`, in order. */
  function SizesOf(sizer: Sizer, ids: seq<string>): (sizes: seq<Result<int>>)
    ensures |sizes| == |ids|
  {
    if ids == [] then [] else [SizeOf(sizer, ids[0])] + SizesOf(sizer, ids[1..])
  }

  /** Each size is the closure applied to the id at the same place. */
  lemma {:induction false} SizesOfAt(sizer: Sizer, ids: seq<string>, k: int)
    requires 0 <= k < |ids|
    ensures SizesOf(sizer, ids)[k] == SizeOf(sizer, ids[k])
  {
    var rest := SizesOf(sizer, ids[1..]);
    assert SizesOf(sizer, ids) == [SizeOf(sizer, ids[0])] + rest;
    if k > 0 {
      SizesOfAt(sizer, ids[1..], k - 1);
      assert ids[1..][k - 1] == ids[k];
      ConsAt(SizeOf(sizer, ids[0]), rest, k);
    }
  }

  lemma ConsAt<T>(x: T, rest: seq<T>, k: int)
    requires 0 < k <= |rest|
    ensures ([x] + rest)[k] == rest[k - 1]
  {
  }

  /** `volumesSize(volumes, calcSize)`'s result. */
  function SumSizes(ids: seq<string>, sizer: Sizer): Result<int> {
    Total(SizesOf(sizer, ids))
  }

  /** A sum that succeeded so far goes on with the sum of the rest. */
  lemma {:induction false} TotalConcat(a: seq<Result<int>>, b: seq<Result<int>>)
    requires Total(a).Ok?
    ensures Total(a + b) == AddTo(Total(a).value, Total(b))
    decreases |a|
  {
    if a == [] {
      assert a + b == b;
      if Total(b).Ok? {
        assert AddTo(0, Total(b)) == Total(b);
      }
    } else {
      assert (a + b)[0] == a[0] && (a + b)[1..] == a[1..] + b;
      TotalConcat(a[1..], b);
    }
  }

  /** `volumesSize(volumes, calcSize)`: add up the sizes `calcSize` gives
      each volume, in order, giving up at the first error; `sizes` holds what
      `calcSize` returns for each volume. */
  method VolumesSize(sizes: seq<Result<int>>) returns (r: Result<int>)
    ensures r == Total(sizes)
  {
    var size := 0;
    var i := 0;
    while i < |sizes|
      invariant 0 <= i <= |sizes|
      invariant Total(sizes[..i]) == Ok(size)
    {
      var volSize := sizes[i];
      assert sizes[..i + 1] == sizes[..i] + [volSize];
      TotalConcat(sizes[..i], [volSize]);
      if volSize.Fail? {
        TotalConcat(sizes[..i], sizes[i..]);
        assert sizes[..i] + sizes[i..] == sizes;
        return Fail(volSize.err);
      }
      size := size + volSize.value;
      i := i + 1;
    }
    assert sizes[..i] == sizes;
    return Ok(size);
  }

  /** When no size fails, the sum succeeds. */
  lemma {:induction false} TotalAllOk(sizes: seq<Result<int>>)
    requires forall k :: 0 <= k < |sizes| ==> sizes[k].Ok?
    ensures Total(sizes).Ok?
    decreases |sizes|
  {
    if sizes != [] {
      TotalAllOk(sizes[1..]);
    }
  }

  /** Sums over consecutive pieces add up. */
  lemma TotalAppend(a: seq<Result<int>>, b: seq<Result<int>>)
    requires Total(a).Ok? && Total(b).Ok?
    ensures Total(a + b) == Ok(Total(a).value + Total(b).value)
  {
    TotalConcat(a, b);
  }

  /** The first failing size decides the result, so the sizes after it are
      never looked at. */
  lemma {:induction false} TotalFirstFailure(sizes: seq<Result<int>>, k: nat)
    requires k < |sizes| && sizes[k].Fail?
    requires forall j :: 0 <= j < k ==> sizes[j].Ok?
    ensures Total(sizes) == Fail(sizes[k].err)
    decreases k
  {
    if k > 0 {
      TotalFirstFailure(sizes[1..], k - 1);
    }
  }

  /** Sizes that are all `v` sum to their number times `v`. */
  lemma {:induction false} TotalUniform(sizes: seq<Result<int>>, v: int)
    requires forall k :: 0 <= k < |sizes| ==> sizes[k] == Ok(v)
    ensures Total(sizes) == Ok(|sizes| * v)
    decreases |sizes|
  {
    if sizes != [] {
      TotalUniform(sizes[1..], v);
    }
  }

  /** The names of the entries that are directories, in listing order. */
  function DirNames(entries: seq<DirEntry>): (names: seq<string>)
    ensures |names| <= |entries|
    ensures forall x :: x in names <==> exists k :: 0 <= k < |entries| && IsDirNamed(entries[k], x)
    decreases |entries|
  {
    if entries == [] then []
    else
      var rest := DirNames(entries[1..]);
      assert forall k :: 1 <= k < |entries| ==> entries[k] == entries[1..][k - 1];
      if entries[0].isDir then [entries[0].name] + rest else rest
  }

  predicate IsDirNamed(e: DirEntry, x: string) {
    e.isDir && e.name == x
  }

  lemma {:induction false} DirNamesAppend(a: seq<DirEntry>, b: seq<DirEntry>)
    ensures DirNames(a + b) == DirNames(a) + DirNames(b)
    decreases |a|
  {
    if a == [] {
      assert a + b == b;
    } else {
      assert (a + b)[0] == a[0] && (a + b)[1..] == a[1..] + b;
      DirNamesAppend(a[1..], b);
    }
  }

  /** What `getImageIDs` returns. */
  function ImageIDs(h: Host, store: string): Result<seq<string>> {
    var imagesDir := Join(store, "images");
    match h.readDir(imagesDir)
    case Fail(e) => Fail(Wrap("failed to read images directory " + Quote(imagesDir) + ": ", e))
    case Ok(entries) => Ok(DirNames(entries))
  }

  /** `getImageIDs`: the directories among the entries of the images directory. */
  method GetImageIDs(h: Host, store: string) returns (r: Result<seq<string>>)
    ensures r == ImageIDs(h, store)
  {
    var imagesDir := Join(store, "images");
    var listing := h.readDir(imagesDir);
    if listing.Fail? {
      return Fail(Wrap("failed to read images directory " + Quote(imagesDir) + ": ", listing.err));
    }
    var entries := listing.value;
    var ids: seq<string> := [];
    var i := 0;
    while i < |entries|
      invariant 0 <= i <= |entries|
      invariant ids == DirNames(entries[..i])
    {
      DirNamesAppend(entries[..i], [entries[i]]);
      TakeSnoc(entries, i);
      if entries[i].isDir {
        ids := ids + [entries[i].name];
      }
      i := i + 1;
    }
    TakeAll(entries);
    return Ok(ids);
  }

  /** `getImageSize`: an image's exclusive bytes, from `grootfs stats`. */
  function ImageSize(h: Host, d: Decoders, cfg: Config, configPath: string, id: string): Result<int> {
    match h.run(cfg.bin, ["--config", configPath, "stats", id])
    case Fail(e) => Fail(Wrap("failed to run `grootfs --config " + configPath + " stat " + id + "`: ", e))
    case Ok(output) =>
      match d.stats(output)
      case Fail(e) => Fail(Wrap("failed to unmarshal grootfs stats output: ", e))
      case Ok(n) => Ok(n)
  }

  /** What `imagesSize` returns. */
  function ImagesTotal(h: Host, d: Decoders, cfg: Config, configPath: string): Result<int> {
    match ImageIDs(h, cfg.store)
    case Fail(e) => Fail(Wrap("failed to get image IDs: ", e))
    case Ok(ids) => SumSizes(ids, ImageSizer(h, d, cfg, configPath))
  }

  /** `imagesSize`: the exclusive bytes of all images, added up by the same
      loop as `volumesSize`. */
  method ImagesSize(h: Host, d: Decoders, cfg: Config, configPath: string) returns (r: Result<int>)
    ensures r == ImagesTotal(h, d, cfg, configPath)
  {
    var ids := GetImageIDs(h, cfg.store);
    if ids.Fail? {
      return Fail(Wrap("failed to get image IDs: ", ids.err));
    }
    r := VolumesSize(SizesOf(ImageSizer(h, d, cfg, configPath), ids.value));
  }

  /** `volumeSizeFromMeta`: a volume's size as its meta file records it. */
  function VolumeSizeFromMeta(h: Host, d: Decoders, store: string, id: string): Result<int> {
    var metaFile := JoinAll([store, "meta", "volume-" + id]);
    match h.readFile(metaFile)
    case Fail(e) => Fail(Wrap("cannot read meta file " + Quote(metaFile) + ": ", e))
    case Ok(contents) =>
      match d.meta(contents)
      case Fail(e) => Fail(Wrap("failed to unmarshal meta file json: ", e))
      case Ok(n) => Ok(n)
  }

  /** The closures `volumesSize` and `imagesSize` are given: a volume's
      size on disk (`volumesSizeOnDisk`), a volume's size from its meta file
      (`volumesSizeFromMeta`), and an image's size from grootfs (`imagesSize`). */
  datatype Sizer =
    | OnDisk(host: Host, store: string)
    | FromMeta(host: Host, decoders: Decoders, store: string)
    | ImageSizer(host: Host, decoders: Decoders, cfg: Config, configPath: string)

  /** What the closure `s` returns for `id`. */
  function SizeOf(s: Sizer, id: string): Result<int> {
    match s
    case OnDisk(h, store) =>
      var path := JoinAll([store, "volumes", id]);
      (match SizeOnDisk(h, path, false)
       case Fail(e) => Fail(Wrap("failed to get size of volume " + Quote(path) + ": ", e))
       case Ok(n) => Ok(n))
    case FromMeta(h, d, store) =>
      (match VolumeSizeFromMeta(h, d, store, id)
       case Fail(e) => Fail(Wrap("failed to get size of volume " + Quote(id) + ": ", e))
       case Ok(n) => Ok(n))
    case ImageSizer(h, d, cfg, configPath) =>
      match ImageSize(h, d, cfg, configPath, id)
      case Fail(e) => Fail(Wrap("failed to get image size for " + Quote(id) + ": ", e))
      case Ok(n) => Ok(n)
  }

  /** The volume ids one dependencies file lists. */
  function DependencyIds(h: Host, d: Decoders, path: string): Result<seq<string>> {
    match h.readFile(path)
    case Fail(e) => Fail(Wrap("error reading dependencies file " + Quote(path) + ": ", e))
    case Ok(contents) =>
      match d.ids(contents)
      case Fail(e) => Fail(Wrap("error unmarshaling dependencies file " + Quote(path) + " content " + Quote(contents) + ": ", e))
      case Ok(ids) => Ok(ids)
  }

  /** The ids of all dependency files `paths`, concatenated in order and with
      repetitions kept; the first file that cannot be read or decoded fails it. */
  function ConcatIds(h: Host, d: Decoders, paths: seq<string>): Result<seq<string>>
    decreases |paths|
  {
    if paths == [] then Ok([])
    else
      match DependencyIds(h, d, paths[0])
      case Fail(e) => Fail(e)
      case Ok(ids) =>
        match ConcatIds(h, d, paths[1..])
        case Fail(e) => Fail(e)
        case Ok(rest) => Ok(ids + rest)
  }

  /** The paths of the dependency files listed in `dir`. */
  function DependencyPaths(dir: string, entries: seq<DirEntry>): (paths: seq<string>)
    ensures |paths| == |entries|
    ensures forall k :: 0 <= k < |entries| ==> paths[k] == Join(dir, entries[k].name)
  {
    if entries == [] then [] else [Join(dir, entries[0].name)] + DependencyPaths(dir, entries[1..])
  }

  function DependenciesDir(store: string): string {
    JoinAll([store, "meta", "dependencies"])
  }

  /** What `getUsedVolumes` returns. */
  function UsedVolumes(h: Host, d: Decoders, store: string): Result<seq<string>> {
    var dir := DependenciesDir(store);
    match h.readDir(dir)
    case Fail(e) => Fail(Wrap("error reading dependencies dir " + Quote(dir) + ": ", e))
    case Ok(entries) => ConcatIds(h, d, DependencyPaths(dir, entries))
  }

  lemma {:induction false} ConcatIdsSnoc(h: Host, d: Decoders, paths: seq<string>, p: string)
    requires ConcatIds(h, d, paths).Ok?
    ensures ConcatIds(h, d, paths + [p])
         == match DependencyIds(h, d, p)
            case Fail(e) => Fail(e)
            case Ok(ids) => Ok(ConcatIds(h, d, paths).value + ids)
    decreases |paths|
  {
    if paths == [] {
      var q := [p];
      assert paths + [p] == q && q[0] == p && q[1..] == [];
      assert ConcatIds(h, d, []) == Ok([]);
      match DependencyIds(h, d, p)
      case Fail(e) =>
        assert ConcatIds(h, d, q) == Fail(e);
      case Ok(ids) =>
        assert ConcatIds(h, d, q) == Ok(ids + []);
        assert ids + [] == [] + ids;
    } else {
      var q := paths + [p];
      assert q[0] == paths[0] && q[1..] == paths[1..] + [p];
      ConcatIdsSnoc(h, d, paths[1..], p);
      var first := DependencyIds(h, d, paths[0]).value;
      var rest := ConcatIds(h, d, paths[1..]).value;
      assert ConcatIds(h, d, paths).value == first + rest;
      match DependencyIds(h, d, p)
      case Fail(e) =>
        assert ConcatIds(h, d, q) == Fail(e);
      case Ok(ids) =>
        assert ConcatIds(h, d, q[1..]) == Ok(rest + ids);
        assert ConcatIds(h, d, q) == Ok(first + (rest + ids));
        assert first + (rest + ids) == (first + rest) + ids;
    }
  }

  lemma {:induction false} ConcatIdsFailSnoc(h: Host, d: Decoders, paths: seq<string>, p: string)
    requires ConcatIds(h, d, paths).Fail?
    ensures ConcatIds(h, d, paths + [p]) == ConcatIds(h, d, paths)
    decreases |paths|
  {
    assert (paths + [p])[0] == paths[0] && (paths + [p])[1..] == paths[1..] + [p];
    if DependencyIds(h, d, paths[0]).Ok? {
      ConcatIdsFailSnoc(h, d, paths[1..], p);
    }
  }

  /** `getUsedVolumes`: the ids of every dependencies file, in listing order. */
  method GetUsedVolumes(h: Host, d: Decoders, store: string) returns (r: Result<seq<string>>)
    ensures r == UsedVolumes(h, d, store)
  {
    var dependenciesDir := JoinAll([store, "meta", "dependencies"]);
    var listing := h.readDir(dependenciesDir);
    if listing.Fail? {
      return Fail(Wrap("error reading dependencies dir " + Quote(dependenciesDir) + ": ", listing.err));
    }
    ghost var paths := DependencyPaths(dependenciesDir, listing.value);
    var volumes: seq<string> := [];
    var i := 0;
    while i < |listing.value|
      invariant 0 <= i <= |listing.value|
      invariant ConcatIds(h, d, paths[..i]) == Ok(volumes)
    {
      var depFilePath := Join(dependenciesDir, listing.value[i].name);
      TakeSnoc(paths, i);
      ConcatIdsSnoc(h, d, paths[..i], depFilePath);
      var volIds := ReadDependencies(h, d, depFilePath);
      if volIds.Fail? {
        ConcatIdsPrefixFail(h, d, paths, i + 1);
        return Fail(volIds.err);
      }
      volumes := volumes + volIds.value;
      i := i + 1;
    }
    TakeAll(paths);
    return Ok(volumes);
  }

  /** One turn of the loop of `getUsedVolumes`: read a dependencies file and
      decode the ids it lists. */
  method ReadDependencies(h: Host, d: Decoders, depFilePath: string) returns (r: Result<seq<string>>)
    ensures r == DependencyIds(h, d, depFilePath)
  {
    var depBytes := h.readFile(depFilePath);
    if depBytes.Fail? {
      return Fail(Wrap("error reading dependencies file " + Quote(depFilePath) + ": ", depBytes.err));
    }
    var volIds := d.ids(depBytes.value);
    if volIds.Fail? {
      return Fail(Wrap("error unmarshaling dependencies file " + Quote(depFilePath) + " content "
                       + Quote(depBytes.value) + ": ", volIds.err));
    }
    return Ok(volIds.value);
  }

  /** A prefix of the files that fails makes the whole list fail the same way. */
  lemma ConcatIdsPrefixFail(h: Host, d: Decoders, paths: seq<string>, n: nat)
    requires n <= |paths| && ConcatIds(h, d, paths[..n]).Fail?
    ensures ConcatIds(h, d, paths) == ConcatIds(h, d, paths[..n])
    decreases |paths| - n
  {
    if n < |paths| {
      assert paths[..n + 1] == paths[..n] + [paths[n]];
      ConcatIdsFailSnoc(h, d, paths[..n], paths[n]);
      ConcatIdsPrefixFail(h, d, paths, n + 1);
    } else {
      assert paths[..n] == paths;
    }
  }

  /** The names of all entries. */
  function EntryNames(entries: seq<DirEntry>): (names: set<string>)
    ensures forall x :: x in names <==> exists k :: 0 <= k < |entries| && entries[k].name == x
  {
    set k | 0 <= k < |entries| :: entries[k].name
  }

  /** What `getUnusedVolumes` returns, as a set: the volume directory's entries
      that no dependencies file names. */
  function UnusedVolumes(h: Host, store: string, used: seq<string>): Result<set<string>> {
    var volumesDir := Join(store, "volumes");
    match h.readDir(volumesDir)
    case Fail(e) => Fail(Wrap("failed to read volumes dir " + Quote(volumesDir) + ": ", e))
    case Ok(entries) => Ok(EntryNames(entries) - set x | x in used)
  }

  /** `vs` lists each element of `s` exactly once, in some order. */
  ghost predicate Enumerates(vs: seq<string>, s: set<string>) {
    (forall x :: x in vs <==> x in s)
    && (forall i, j :: 0 <= i < j < |vs| ==> vs[i] != vs[j])
  }

  /** `getUnusedVolumes`: a map of the entries, minus the used ids, read back
      in the map's (unspecified) order. */
  method GetUnusedVolumes(h: Host, store: string, used: seq<string>) returns (r: Result<seq<string>>)
    ensures UnusedVolumes(h, store, used).Fail? ==> r == Fail(UnusedVolumes(h, store, used).err)
    ensures UnusedVolumes(h, store, used).Ok? ==> r.Ok? && Enumerates(r.value, UnusedVolumes(h, store, used).value)
  {
    var volumesDir := Join(store, "volumes");
    var listing := h.readDir(volumesDir);
    if listing.Fail? {
      return Fail(Wrap("failed to read volumes dir " + Quote(volumesDir) + ": ", listing.err));
    }
    var volumesMap := NameSet(listing.value);
    volumesMap := RemoveUsed(volumesMap, used);
    var volumes := Keys(volumesMap);
    return Ok(volumes);
  }

  /** The first loop of `getUnusedVolumes`: one map key per entry name. */
  method NameSet(entries: seq<DirEntry>) returns (names: set<string>)
    ensures names == EntryNames(entries)
  {
    names := {};
    var i := 0;
    while i < |entries|
      invariant 0 <= i <= |entries|
      invariant names == set k | 0 <= k < i :: entries[k].name
    {
      names := names + {entries[i].name};
      i := i + 1;
    }
  }

  /** The second loop of `getUnusedVolumes`: delete every used id. */
  method RemoveUsed(names: set<string>, used: seq<string>) returns (left: set<string>)
    ensures left == names - set x | x in used
  {
    left := names;
    var i := 0;
    while i < |used|
      invariant 0 <= i <= |used|
      invariant left == names - set x | x in used[..i]
    {
      TakeSnoc(used, i);
      left := left - {used[i]};
      i := i + 1;
    }
    TakeAll(used);
  }

  /** The last loop of `getUnusedVolumes`: the map's keys, in whatever order
      the map gives them. */
  method Keys(names: set<string>) returns (volumes: seq<string>)
    ensures Enumerates(volumes, names)
  {
    volumes := [];
    var left := names;
    while left != {}
      invariant left <= names
      invariant forall x :: x in volumes <==> x in names && x !in left
      invariant forall a, b :: 0 <= a < b < |volumes| ==> volumes[a] != volumes[b]
      decreases left
    {
      var v :| v in left;
      volumes := volumes + [v];
      left := left - {v};
    }
  }

  /** The captions of the report's lines. */
  datatype Caption =
    | VolumesTotalOnDisk | VolumesUsedOnDisk | VolumesUnusedOnDisk
    | VolumesUsedReported | VolumesUnusedReported
    | ImagesExclusive | BackingStoreActualSize | BackingStoreMaxSize
  {
    function Name(): string {
      match this
      case VolumesTotalOnDisk => "volumes-total-on-disk:"
      case VolumesUsedOnDisk => "volumes-used-on-disk:"
      case VolumesUnusedOnDisk => "volumes-unused-on-disk:"
      case VolumesUsedReported => "volumes-used-reported:"
      case VolumesUnusedReported => "volumes-unused-reported:"
      case ImagesExclusive => "images-exclusive:"
      case BackingStoreActualSize => "backing-store-actual-size:"
      case BackingStoreMaxSize => "backing-store-max-size:"
    }
  }

  /** A line of the report: a caption and a number of bytes. */
  datatype Line = Line(caption: Caption, bytes: int)

  /** `fmt.Fprintf(outputFile, "%-30s %12d bytes\n", …)`: the caption
      left-aligned in 30 columns, a space, the number right-aligned in 12
      columns, and " bytes". */
  function Format(line: Line): string {
    PadRight(line.caption.Name(), 30, ' ') + " " + PadLeft(Decimal(line.bytes), 12, ' ') + " bytes\n"
  }

  /** The text of the lines, one after the other. */
  function Text(lines: seq<Line>): string {
    if lines == [] then "" else Text(lines[..|lines| - 1]) + Format(lines[|lines| - 1])
  }

  lemma TextSnoc(lines: seq<Line>, line: Line)
    ensures Text(lines + [line]) == Text(lines) + Format(line)
  {
    assert (lines + [line])[..|lines|] == lines;
  }

  /** For numbers that fit their column, every line is 50 characters with
      the caption, the number and the unit at fixed places. */
  lemma FormatColumns(line: Line)
    requires |Decimal(line.bytes)| <= 12
    ensures var text := Format(line);
      && |text| == 50
      && text[..|line.caption.Name()|] == line.caption.Name()
      && (forall k :: |line.caption.Name()| <= k < 31 ==> text[k] == ' ')
      && HasSuffix(text[31..43], Decimal(line.bytes))
      && text[43..] == " bytes\n"
  {
    var name := line.caption.Name();
    assert |name| <= 30;
    PadRightShape(name, 30, ' ');
    PadLeftShape(Decimal(line.bytes), 12, ' ');
    Layout(PadRight(name, 30, ' '), PadLeft(Decimal(line.bytes), 12, ' '), name, Decimal(line.bytes));
  }

  lemma Layout(left: string, right: string, caption: string, num: string)
    requires |left| == 30 && |right| == 12
    requires HasPrefix(left, caption) && HasSuffix(right, num)
    requires forall k :: |caption| <= k < 30 ==> left[k] == ' '
    ensures var line := left + " " + right + " bytes\n";
      && |line| == 50
      && line[..|caption|] == caption
      && (forall k :: |caption| <= k < 31 ==> line[k] == ' ')
      && HasSuffix(line[31..43], num)
      && line[43..] == " bytes\n"
  {
    var line := left + " " + right + " bytes\n";
    assert line[..30] == left;
    assert line[31..43] == right;
  }

  /** The captions of the eight lines, in the order they are written. */
  const Labels: seq<Caption> := [
    VolumesTotalOnDisk, VolumesUsedOnDisk, VolumesUnusedOnDisk, VolumesUsedReported,
    VolumesUnusedReported, ImagesExclusive, BackingStoreActualSize, BackingStoreMaxSize]

  /** The lines are the first lines of the report, each with its own caption. */
  predicate Labelled(lines: seq<Line>) {
    |lines| <= |Labels| && forall k :: 0 <= k < |lines| ==> lines[k].caption == Labels[k]
  }

  /** The first five lines, or the error of the first volume step that failed,
      for the order `unused` in which the unused volumes come out. */
  function VolumeLines(h: Host, d: Decoders, store: string, unused: seq<string>): Result<seq<Line>> {
    match SizeOnDisk(h, Join(store, "volumes"), false)
    case Fail(e) => Fail(Wrap("failed to calculate total volume size: ", e))
    case Ok(total) =>
      match UsedVolumes(h, d, store)
      case Fail(e) => Fail(Wrap("failed to get volumes: ", e))
      case Ok(used) =>
        match UnusedVolumes(h, store, used)
        case Fail(e) => Fail(Wrap("failed to get volumes: ", e))
        case Ok(_) =>
          VolumeSizes(total, SumSizes(used, OnDisk(h, store)), SumSizes(unused, OnDisk(h, store)),
                      SumSizes(used, FromMeta(h, d, store)), SumSizes(unused, FromMeta(h, d, store)))
  }

  /** The five lines from the total and the four volume sums after it, in
      the order they are computed, giving up on the first that failed. */
  function VolumeSizes(total: int, usedOnDisk: Result<int>, unusedOnDisk: Result<int>,
                       usedReported: Result<int>, unusedReported: Result<int>): Result<seq<Line>>
  {
    match usedOnDisk
    case Fail(e) => Fail(Wrap("failed to get used volume size on disk: ", e))
    case Ok(uod) =>
    match unusedOnDisk
    case Fail(e) => Fail(Wrap("failed to get unused volume size on disk: ", e))
    case Ok(nod) =>
    match usedReported
    case Fail(e) => Fail(Wrap("failed to calculate used volume size: ", e))
    case Ok(ur) =>
    match unusedReported
    case Fail(e) => Fail(Wrap("failed to calculate unused volume size: ", e))
    case Ok(nr) =>
      Ok([Line(VolumesTotalOnDisk, total), Line(VolumesUsedOnDisk, uod), Line(VolumesUnusedOnDisk, nod),
          Line(VolumesUsedReported, ur), Line(VolumesUnusedReported, nr)])
  }

  /** The lines after the first five from the image total, the backing
      store's size and its maximum size, and the error that stopped them. */
  function StoreLines(images: Result<int>, actual: Result<int>, max: Result<int>): (seq<Line>, Option<Err>) {
    match images
    case Fail(e) => ([], Some(Wrap("failed to calculate exclusive image size: ", e)))
    case Ok(i) =>
    match actual
    case Fail(e) => ([Line(ImagesExclusive, i)], Some(Wrap("failed to calculate backing store size: ", e)))
    case Ok(a) =>
    match max
    case Fail(e) => ([Line(ImagesExclusive, i), Line(BackingStoreActualSize, a)],
                     Some(Wrap("failed to calculate backing store max size: ", e)))
    case Ok(m) => ([Line(ImagesExclusive, i), Line(BackingStoreActualSize, a), Line(BackingStoreMaxSize, m)], None)
  }

  /** The lines written and the error returned once the output file exists. */
  function Measure(h: Host, d: Decoders, cfg: Config, configPath: string, unused: seq<string>)
    : (seq<Line>, Option<Err>)
  {
    match VolumeLines(h, d, cfg.store, unused)
    case Fail(e) => ([], Some(e))
    case Ok(five) =>
      var (more, err) := StoreLines(ImagesTotal(h, d, cfg, configPath),
                                    SizeOnDisk(h, cfg.store + ".backing-store", false),
                                    SizeOnDisk(h, cfg.store + ".backing-store", true));
      (five + more, err)
  }

  lemma VolumeSizesLabelled(total: int, usedOnDisk: Result<int>, unusedOnDisk: Result<int>,
                            usedReported: Result<int>, unusedReported: Result<int>)
    ensures var r := VolumeSizes(total, usedOnDisk, unusedOnDisk, usedReported, unusedReported);
      r.Ok? ==> |r.value| == 5 && Labelled(r.value)
  {
  }

  lemma StoreLinesLabelled(images: Result<int>, actual: Result<int>, max: Result<int>)
    ensures var (more, err) := StoreLines(images, actual, max);
      && |more| <= 3
      && (err.None? <==> |more| == 3)
      && forall k :: 0 <= k < |more| ==> more[k].caption == Labels[5 + k]
  {
  }

  /** The volume steps give the first five lines, each with its caption. */
  lemma VolumeLinesLabelled(h: Host, d: Decoders, store: string, unused: seq<string>)
    ensures var r := VolumeLines(h, d, store, unused);
      r.Ok? ==> |r.value| == 5 && Labelled(r.value)
  {
    var total := SizeOnDisk(h, Join(store, "volumes"), false);
    var used := UsedVolumes(h, d, store);
    if total.Ok? && used.Ok? && UnusedVolumes(h, store, used.value).Ok? {
      var a := SumSizes(used.value, OnDisk(h, store));
      var b := SumSizes(unused, OnDisk(h, store));
      var c := SumSizes(used.value, FromMeta(h, d, store));
      var e := SumSizes(unused, FromMeta(h, d, store));
      assert VolumeLines(h, d, store, unused) == VolumeSizes(total.value, a, b, c, e);
      VolumeSizesLabelled(total.value, a, b, c, e);
    }
  }

  /** Five labelled lines followed by what `StoreLines` gives. */
  lemma PrefixCombine(five: seq<Line>, more: seq<Line>, err: Option<Err>)
    requires |five| == 5 && Labelled(five)
    requires |more| <= 3 && (err.None? <==> |more| == 3)
    requires forall k :: 0 <= k < |more| ==> more[k].caption == Labels[5 + k]
    ensures 5 <= |five + more| <= 8 && (err.None? <==> |five + more| == 8) && Labelled(five + more)
  {
    assert forall k :: 5 <= k < |five + more| ==> (five + more)[k] == more[k - 5];
  }

  /** Whatever happens, the report holds a prefix of the eight lines, each
      with its caption: none, five, six, seven or all eight, and all eight
      exactly when there was no error. */
  lemma MeasureLinesArePrefix(h: Host, d: Decoders, cfg: Config, configPath: string, unused: seq<string>)
    ensures var m := Measure(h, d, cfg, configPath, unused);
      && (|m.0| == 0 || 5 <= |m.0| <= 8)
      && (m.1.None? <==> |m.0| == 8)
      && Labelled(m.0)
  {
    var r := VolumeLines(h, d, cfg.store, unused);
    VolumeLinesLabelled(h, d, cfg.store, unused);
    if r.Ok? {
      var images := ImagesTotal(h, d, cfg, configPath);
      var actual := SizeOnDisk(h, cfg.store + ".backing-store", false);
      var max := SizeOnDisk(h, cfg.store + ".backing-store", true);
      StoreLinesLabelled(images, actual, max);
      var st := StoreLines(images, actual, max);
      PrefixCombine(r.value, st.0, st.1);
      assert Measure(h, d, cfg, configPath, unused) == (r.value + st.0, st.1);
    }
  }

  /** The unused volumes `unused` come out of a successful listing exactly once each. */
  ghost predicate UnusedOrder(h: Host, d: Decoders, store: string, unused: seq<string>) {
    SizeOnDisk(h, Join(store, "volumes"), false).Ok? && UsedVolumes(h, d, store).Ok? && UnusedVolumes(h, store, UsedVolumes(h, d, store).value).Ok? ==>
      Enumerates(unused, UnusedVolumes(h, store, UsedVolumes(h, d, store).value).value)
  }

  /** Everything `Run` does: the directory it makes, the output file it
      creates, the lines written to that file and the error it returns. */
  datatype Report = Report(dir: Option<string>, file: Option<string>, lines: seq<Line>, err: Option<Err>)

  /** The output file: `<store's last element>-usage.txt` in the report's grootfs directory. */
  function OutputPath(reportDir: string, store: string): string {
    Join(Join(reportDir, DirName), Base(store) + "-usage.txt")
  }

  /** `UsageCollector.Run(ctx, reportDir, stdout)`, with `mkdirFault` and
      `createFault` the errors of `os.MkdirAll` and `os.Create`. */
  function Usage(h: Host, d: Decoders, configPath: string, reportDir: string,
                 mkdirFault: string -> Option<Err>, createFault: string -> Option<Err>, unused: seq<string>)
    : Report
  {
    match ParseConfig(h, d, configPath)
    case Fail(e) => Report(None, None, [], Some(Wrap("failed to parse grootfs config file: ", e)))
    case Ok(cfg) =>
      var dir := Join(reportDir, DirName);
      match mkdirFault(dir)
      case Some(e) => Report(None, None, [], Some(Wrap("failed to create " + Quote(dir) + " directory inside report: ", e)))
      case None =>
        var out := OutputPath(reportDir, cfg.store);
        match createFault(out)
        case Some(e) => Report(Some(dir), None, [], Some(Wrap("failed to create output file " + Quote(out) + ": ", e)))
        case None =>
          var (lines, err) := Measure(h, d, cfg, configPath, unused);
          Report(Some(dir), Some(out), lines, err)
  }

  /** The usage file always holds the first lines of the report, in order,
      and all eight exactly when `Run` succeeds. */
  lemma UsageFileIsReportPrefix(h: Host, d: Decoders, configPath: string, reportDir: string,
                                mkdirFault: string -> Option<Err>, createFault: string -> Option<Err>, unused: seq<string>)
    ensures var rep := Usage(h, d, configPath, reportDir, mkdirFault, createFault, unused);
      && Labelled(rep.lines)
      && (rep.file.None? ==> rep.lines == [] && rep.err.Some?)
      && (rep.err.None? <==> rep.file.Some? && |rep.lines| == 8)
  {
    match ParseConfig(h, d, configPath)
    case Fail(_) =>
    case Ok(cfg) =>
      var m := Measure(h, d, cfg, configPath, unused);
      MeasureLinesArePrefix(h, d, cfg, configPath, unused);
      var rep := Usage(h, d, configPath, reportDir, mkdirFault, createFault, unused);
      assert rep.file.Some? ==> rep.lines == m.0 && rep.err == m.1;
  }

  /** The five volume lines: every step of `Run` between creating the output
      file and the first write. */
  method MeasureVolumes(h: Host, d: Decoders, store: string) returns (r: Result<seq<Line>>, unused: seq<string>)
    ensures r == VolumeLines(h, d, store, unused)
    ensures UnusedOrder(h, d, store, unused)
  {
    unused := [];
    var total := SizeOnDisk(h, Join(store, "volumes"), false);
    if total.Fail? {
      return Fail(Wrap("failed to calculate total volume size: ", total.err)), unused;
    }
    var used := GetUsedVolumes(h, d, store);
    if used.Fail? {
      return Fail(Wrap("failed to get volumes: ", used.err)), unused;
    }
    var unusedR := GetUnusedVolumes(h, store, used.value);
    if unusedR.Fail? {
      return Fail(Wrap("failed to get volumes: ", unusedR.err)), unused;
    }
    unused := unusedR.value;
    var usedOnDisk := VolumesSize(SizesOf(OnDisk(h, store), used.value));
    if usedOnDisk.Fail? {
      return Fail(Wrap("failed to get used volume size on disk: ", usedOnDisk.err)), unused;
    }
    var unusedOnDisk := VolumesSize(SizesOf(OnDisk(h, store), unused));
    if unusedOnDisk.Fail? {
      return Fail(Wrap("failed to get unused volume size on disk: ", unusedOnDisk.err)), unused;
    }
    var usedReported := VolumesSize(SizesOf(FromMeta(h, d, store), used.value));
    if usedReported.Fail? {
      return Fail(Wrap("failed to calculate used volume size: ", usedReported.err)), unused;
    }
    var unusedReported := VolumesSize(SizesOf(FromMeta(h, d, store), unused));
    if unusedReported.Fail? {
      return Fail(Wrap("failed to calculate unused volume size: ", unusedReported.err)), unused;
    }
    r := Ok([Line(VolumesTotalOnDisk, total.value), Line(VolumesUsedOnDisk, usedOnDisk.value),
             Line(VolumesUnusedOnDisk, unusedOnDisk.value), Line(VolumesUsedReported, usedReported.value),
             Line(VolumesUnusedReported, unusedReported.value)]);
  }

  /** The text of two runs of lines is the text of one after the other. */
  lemma {:induction false} TextConcat(a: seq<Line>, b: seq<Line>)
    ensures Text(a + b) == Text(a) + Text(b)
    decreases |b|
  {
    if b == [] {
      assert a + b == a;
    } else {
      var init := b[..|b| - 1];
      var last := b[|b| - 1];
      TextConcat(a, init);
      InitLast(a, b);
      TextSnoc(a + init, last);
      TextSnoc(init, last);
      Assoc(Text(a), Text(init), Format(last));
    }
  }

  /** One `fmt.Fprintf(outputFile, …)` per line, in order. */
  method WriteLines(fs: FileSystem, out: string, lines: seq<Line>)
    requires out in fs.files
    modifies fs
    ensures fs.files == old(fs.files)[out := old(fs.files)[out] + Text(lines)]
    ensures fs.dirs == old(fs.dirs)
  {
    ghost var start := fs.files[out];
    UpdateSame(fs.files, out);
    assert start + Text(lines[..0]) == start;
    for k := 0 to |lines|
      invariant fs.files == old(fs.files)[out := start + Text(lines[..k])]
      invariant fs.dirs == old(fs.dirs)
    {
      fs.Append(out, Format(lines[k]));
      TakeSnoc(lines, k);
      TextSnoc(lines[..k], lines[k]);
      Assoc(start, Text(lines[..k]), Format(lines[k]));
    }
    assert lines[..|lines|] == lines;
  }

  /** The steps after the five volume lines: the image total and the backing
      store's size and maximum size, each giving its line, and the first
      error among them. */
  method MeasureStore(h: Host, d: Decoders, cfg: Config, configPath: string)
    returns (more: seq<Line>, err: Option<Err>)
    ensures (more, err) == StoreLines(ImagesTotal(h, d, cfg, configPath),
                                      SizeOnDisk(h, cfg.store + ".backing-store", false),
                                      SizeOnDisk(h, cfg.store + ".backing-store", true))
  {
    var images := ImagesSize(h, d, cfg, configPath);
    if images.Fail? {
      return [], Some(Wrap("failed to calculate exclusive image size: ", images.err));
    }
    var imagesLine := Line(ImagesExclusive, images.value);
    var actual := SizeOnDisk(h, cfg.store + ".backing-store", false);
    if actual.Fail? {
      return [imagesLine], Some(Wrap("failed to calculate backing store size: ", actual.err));
    }
    var actualLine := Line(BackingStoreActualSize, actual.value);
    var max := SizeOnDisk(h, cfg.store + ".backing-store", true);
    if max.Fail? {
      return [imagesLine, actualLine], Some(Wrap("failed to calculate backing store max size: ", max.err));
    }
    return [imagesLine, actualLine, Line(BackingStoreMaxSize, max.value)], None;
  }

  /** `Measure` once the volume lines are known. */
  lemma MeasureFromVolumes(h: Host, d: Decoders, cfg: Config, configPath: string, unused: seq<string>)
    ensures var m := Measure(h, d, cfg, configPath, unused);
      match VolumeLines(h, d, cfg.store, unused)
      case Fail(e) => m == ([], Some(e))
      case Ok(five) =>
        var st := StoreLines(ImagesTotal(h, d, cfg, configPath),
                             SizeOnDisk(h, cfg.store + ".backing-store", false),
                             SizeOnDisk(h, cfg.store + ".backing-store", true));
        m == (five + st.0, st.1)
  {
  }

  /** Writes the report lines after the output file exists. */
  method WriteMeasurements(h: Host, d: Decoders, cfg: Config, configPath: string, out: string, fs: FileSystem)
    returns (err: Option<Err>, unused: seq<string>)
    requires out in fs.files
    modifies fs
    ensures UnusedOrder(h, d, cfg.store, unused)
    ensures err == Measure(h, d, cfg, configPath, unused).1
    ensures fs.files == old(fs.files)[out := old(fs.files)[out] + Text(Measure(h, d, cfg, configPath, unused).0)]
    ensures fs.dirs == old(fs.dirs)
  {
    ghost var start := fs.files[out];
    var volumes;
    volumes, unused := MeasureVolumes(h, d, cfg.store);
    MeasureFromVolumes(h, d, cfg, configPath, unused);
    if volumes.Fail? {
      UpdateSame(fs.files, out);
      assert start + Text([]) == start;
      return Some(volumes.err), unused;
    }
    ghost var mid := old(fs.files)[out := start + Text(volumes.value)];
    WriteLines(fs, out, volumes.value);
    var more;
    more, err := MeasureStore(h, d, cfg, configPath);
    ghost var m := Measure(h, d, cfg, configPath, unused);
    assert m == (volumes.value + more, err);
    WriteLines(fs, out, more);
    assert fs.files == mid[out := (start + Text(volumes.value)) + Text(more)];
    UpdateTwice(old(fs.files), out, start + Text(volumes.value), (start + Text(volumes.value)) + Text(more));
    TextConcat(volumes.value, more);
    Assoc(start, Text(volumes.value), Text(more));
  }

  /** `UsageCollector.Run(ctx, reportDir, stdout)`: the state afterwards and
      the result are those `Usage` describes for the order `unused` in which
      the unused volumes came out. */
  method Run(h: Host, d: Decoders, configPath: string, reportDir: string, fs: FileSystem)
    returns (err: Option<Err>, unused: seq<string>)
    modifies fs
    ensures var rep := Usage(h, d, configPath, reportDir, fs.mkdirFault, fs.writeFault, unused);
      && err == rep.err
      && fs.dirs == (if rep.dir.Some? then old(fs.dirs) + {rep.dir.value} else old(fs.dirs))
      && fs.files == (if rep.file.Some? then old(fs.files)[rep.file.value := Text(rep.lines)] else old(fs.files))
    ensures Usage(h, d, configPath, reportDir, fs.mkdirFault, fs.writeFault, unused).file.Some? ==>
              ParseConfig(h, d, configPath).Ok? && UnusedOrder(h, d, ParseConfig(h, d, configPath).value.store, unused)
  {
    unused := [];
    var config := ParseConfig(h, d, configPath);
    if config.Fail? {
      return Some(Wrap("failed to parse grootfs config file: ", config.err)), unused;
    }
    var cfg := config.value;
    var grootfsDir := Join(reportDir, DirName);
    err := fs.MkdirAll(grootfsDir);
    if err.Some? {
      return Some(Wrap("failed to create " + Quote(grootfsDir) + " directory inside report: ", err.value)), unused;
    }
    var storeType := Base(cfg.store);
    var outputPath := Join(grootfsDir, storeType + "-usage.txt");
    err := fs.WriteFile(outputPath, "");
    if err.Some? {
      return Some(Wrap("failed to create output file " + Quote(outputPath) + ": ", err.value)), unused;
    }
    ghost var created := fs.files;
    err, unused := WriteMeasurements(h, d, cfg, configPath, outputPath, fs);
    ghost var m := Measure(h, d, cfg, configPath, unused);
    assert Usage(h, d, configPath, reportDir, fs.mkdirFault, fs.writeFault, unused)
        == Report(Some(grootfsDir), Some(outputPath), m.0, m.1);
    assert "" + Text(m.0) == Text(m.0);
    UpdateTwice(old(fs.files), outputPath, "", Text(m.0));
  }
}
