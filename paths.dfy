/** Slash-separated paths as Go's `path/filepath` treats them on Linux. */
module Paths {
  import opened Strings

  /** A path element that `Clean` keeps as it is. */
  predicate IsName(x: string) {
    x != "" && x != "." && '/' !in x
  }

  /** The elements of `parts` that are names, in order. */
  function Names(parts: seq<string>): (r: seq<string>)
    ensures forall k :: 0 <= k < |r| ==> IsName(r[k]) || '/' in r[k]
  {
    if parts == [] then []
    else if parts[0] == "" || parts[0] == "." then Names(parts[1..])
    else [parts[0]] + Names(parts[1..])
  }

  lemma {:induction false} NamesAppend(x: seq<string>, y: seq<string>)
    ensures Names(x + y) == Names(x) + Names(y)
  {
    if x == [] {
      assert x + y == y;
    } else {
      assert (x + y)[0] == x[0];
      assert (x + y)[1..] == x[1..] + y;
      NamesAppend(x[1..], y);
    }
  }

  /** The names of a path: what lies between its slashes, without "" and ".". */
  function Elements(p: string): (r: seq<string>)
    ensures forall k :: 0 <= k < |r| ==> IsName(r[k])
  {
    var parts := Split(p, '/');
    var r := Names(parts);
    assert forall k :: 0 <= k < |parts| ==> '/' !in parts[k];
    NamesNoSlash(parts);
    r
  }

  lemma {:induction false} NamesNoSlash(parts: seq<string>)
    requires forall k :: 0 <= k < |parts| ==> '/' !in parts[k]
    ensures forall k :: 0 <= k < |Names(parts)| ==> IsName(Names(parts)[k])
  {
    if parts != [] {
      NamesNoSlash(parts[1..]);
    }
  }

  /** `filepath.Clean`, except that ".." elements are kept: repeated slashes
      become one, "." elements go, a trailing slash goes, and the empty path
      is ".". */
  function Clean(p: string): string {
    if p == "" then "."
    else
      var body := Intercalate(Elements(p), "/");
      if p[0] == '/' then "/" + body
      else if body == "" then "."
      else body
  }

  /** `filepath.Join(elems...)`: the elements from the first non-empty one on,
      joined by slashes and cleaned; "" when every element is empty. */
  function JoinAll(elems: seq<string>): string {
    if elems == [] then ""
    else if elems[0] == "" then JoinAll(elems[1..])
    else Clean(Intercalate(elems, "/"))
  }

  function Join(a: string, b: string): string {
    JoinAll([a, b])
  }

  /** Index of the last slash of `s`, or -1. */
  function LastSlash(s: string): (i: int)
    ensures -1 <= i < |s|
    ensures i >= 0 ==> s[i] == '/'
    ensures forall k :: i < k < |s| ==> s[k] != '/'
  {
    if s == [] then -1
    else if s[|s| - 1] == '/' then |s| - 1
    else LastSlash(s[..|s| - 1])
  }

  /** `filepath.Dir`: everything up to the last slash, cleaned. */
  function Dir(p: string): string {
    Clean(p[..LastSlash(p) + 1])
  }

  /** `filepath.Base`: the last element, ignoring trailing slashes. */
  function Base(p: string): string {
    if p == "" then "."
    else
      var q := TrimRight(p, '/');
      if q == "" then "/" else q[LastSlash(q) + 1..]
  }

  lemma {:induction false} IntercalateEndsWithLast(parts: seq<string>, sep: string)
    requires parts != []
    ensures HasSuffix(Intercalate(parts, sep), parts[|parts| - 1])
  {
    var init := parts[..|parts| - 1];
    assert parts == init + [parts[|parts| - 1]];
    IntercalateSnoc(init, parts[|parts| - 1], sep);
  }

  /** A cleaned path never ends in a slash, unless it is the root. */
  lemma CleanNoTrailingSlash(p: string)
    ensures Clean(p) == "/" || Clean(p)[|Clean(p)| - 1] != '/'
  {
    var es := Elements(p);
    if p != "" && es != [] {
      IntercalateEndsWithLast(es, "/");
      var last := es[|es| - 1];
      assert IsName(last);
      assert last[|last| - 1] in last;
    }
  }

  /** So `filepath.Join` drops a trailing slash. */
  lemma JoinNoTrailingSlash(a: string, b: string)
    ensures var j := Join(a, b); j == "" || j == "/" || j[|j| - 1] != '/'
  {
    if a == "" {
      assert Join(a, b) == JoinAll([b]);
      if b != "" {
        assert Intercalate([b], "/") == b;
        CleanNoTrailingSlash(b);
      }
    } else {
      CleanNoTrailingSlash(Intercalate([a, b], "/"));
    }
  }

  lemma {:induction false} ElementsAppendName(x: string, name: string)
    requires IsName(name)
    ensures Elements(x + "/" + name) == Elements(x) + [name]
  {
    SplitConcat(x, '/', name);
    assert Split(name, '/') == [name];
    NamesAppend(Split(x, '/'), [name]);
  }

  lemma {:induction false} ElementsTrailingSlash(x: string)
    ensures Elements(x + "/") == Elements(x)
  {
    SplitConcat(x, '/', "");
    assert x + "/" == x + ['/'] + "";
    NamesAppend(Split(x, '/'), [""]);
  }

  lemma {:induction false} IntercalateNames(es: seq<string>)
    requires forall k :: 0 <= k < |es| ==> IsName(es[k])
    ensures var body := Intercalate(es, "/");
      (body == "" <==> es == []) && body != "." && (body != "" ==> body[0] != '/')
  {
    if |es| >= 2 {
      IntercalateNames(es[1..]);
    }
  }

  /** The elements of a cleaned sequence of names are those names again. */
  lemma {:induction false} ElementsOfIntercalate(es: seq<string>)
    requires forall k :: 0 <= k < |es| ==> IsName(es[k])
    ensures Elements(Intercalate(es, "/")) == es
  {
    if |es| == 1 {
      assert Split(es[0], '/') == [es[0]];
    } else if |es| >= 2 {
      ElementsOfIntercalate(es[1..]);
      var rest := Intercalate(es[1..], "/");
      assert Intercalate(es, "/") == es[0] + ['/'] + rest;
      SplitAround(es[0], '/', rest);
      var tail := Split(rest, '/');
      assert ([es[0]] + tail)[0] == es[0] && ([es[0]] + tail)[1..] == tail;
      assert Names([es[0]] + tail) == [es[0]] + Names(tail);
      assert es == [es[0]] + es[1..];
    } else {
      assert Split("", '/') == [""];
    }
  }

  /** A leading slash adds no element. */
  lemma ElementsRooted(body: string)
    ensures Elements("/" + body) == Elements(body)
  {
    assert "/" + body == [] + ['/'] + body;
    SplitConcat([], '/', body);
    assert Split([], '/') == [""];
    assert [""][1..] == [];
    NamesAppend([""], Split(body, '/'));
  }

  lemma ElementsDot()
    ensures Elements(".") == []
  {
    assert Split(".", '/') == ["."];
    assert ["."][1..] == [];
  }

  /** Cleaning twice is cleaning once. */
  lemma CleanIdempotent(p: string)
    ensures Clean(Clean(p)) == Clean(p)
  {
    var es := Elements(p);
    IntercalateNames(es);
    ElementsOfIntercalate(es);
    var body := Intercalate(es, "/");
    if p != "" && p[0] == '/' {
      ElementsRooted(body);
      assert ("/" + body)[0] == '/';
    } else if p == "" || body == "" {
      ElementsDot();
    }
  }

  lemma JoinPair(a: string, b: string)
    requires a != ""
    ensures Join(a, b) == Clean(a + "/" + b)
  {
    assert [a, b][1..] == [b];
    assert Intercalate([a, b], "/") == a + "/" + b;
  }

  /** Joining a directory and a name: the cleaned directory, a slash, the name. */
  lemma JoinName(dir: string, name: string)
    requires dir != "" && IsName(name)
    ensures Join(dir, name) == if Clean(dir) == "." then name
                               else if Clean(dir) == "/" then "/" + name
                               else Clean(dir) + "/" + name
  {
    JoinPair(dir, name);
    ElementsAppendName(dir, name);
    var es := Elements(dir);
    IntercalateNames(es);
    IntercalateSnoc(es, name, "/");
    assert (dir + "/" + name)[0] == dir[0];
  }

  lemma NameSplits(name: string)
    requires IsName(name)
    ensures Base(name) == name && Dir(name) == "."
  {
    assert name[|name| - 1] in name;
    assert LastSlash(name) == -1;
    assert name[..0] == "";
  }

  lemma SlashNameSplits(prefix: string, name: string)
    requires IsName(name)
    ensures Base(prefix + "/" + name) == name
    ensures Dir(prefix + "/" + name) == Clean(prefix + "/")
  {
    var j := prefix + "/" + name;
    LastSlashBeforeName(prefix, name);
    assert j[|prefix| + 1..] == name;
    assert j[..|prefix| + 1] == prefix + "/";
  }

  lemma CleanRootSlash()
    ensures Clean("/") == "/"
  {
    assert Split("/", '/') == ["", ""];
    assert Elements("/") == [];
  }

  /** The base of `dir` joined with a name is that name, and its directory is
      the cleaned `dir`. */
  lemma JoinedNameSplits(dir: string, name: string)
    requires dir != "" && IsName(name)
    ensures Base(Join(dir, name)) == name
    ensures Dir(Join(dir, name)) == Clean(dir)
  {
    JoinName(dir, name);
    var c := Clean(dir);
    if c == "." {
      NameSplits(name);
    } else if c == "/" {
      assert Join(dir, name) == "" + "/" + name;
      SlashNameSplits("", name);
      CleanRootSlash();
    } else {
      SlashNameSplits(c, name);
      CleanOfSlashed(dir);
    }
  }

  /** A cleaned directory other than "." and "/" keeps its meaning with a slash added. */
  lemma CleanOfSlashed(dir: string)
    requires Clean(dir) != "." && Clean(dir) != "/"
    ensures Clean(Clean(dir) + "/") == Clean(dir)
  {
    var c := Clean(dir);
    ElementsTrailingSlash(c);
    CleanIdempotent(dir);
    assert c != "";
    assert (c + "/")[0] == c[0];
  }

  lemma {:induction false} LastSlashBeforeName(prefix: string, name: string)
    requires IsName(name)
    ensures LastSlash(prefix + "/" + name) == |prefix|
    ensures TrimRight(prefix + "/" + name, '/') == prefix + "/" + name
  {
    var s := prefix + "/" + name;
    assert s[|s| - 1] == name[|name| - 1] && name[|name| - 1] in name;
    assert s[|prefix|] == '/';
    forall k | |prefix| < k < |s| ensures s[k] != '/' {
      assert s[k] == name[k - |prefix| - 1];
    }
  }

  /** An empty last element adds nothing to a join. */
  lemma JoinAllEmptyLast(a: string, b: string)
    requires a != ""
    ensures JoinAll([a, b, ""]) == Join(a, b)
  {
    var elems := [a, b, ""];
    assert elems[1..] == [b, ""] && elems[1..][1..] == [""];
    assert Intercalate(elems[1..][1..], "/") == "";
    assert Intercalate(elems[1..], "/") == b + "/" + "";
    assert Intercalate(elems, "/") == a + "/" + (b + "/" + "");
    assert a + "/" + (b + "/" + "") == (a + "/" + b) + "/";
    JoinPair(a, b);
    ElementsTrailingSlash(a + "/" + b);
    assert (a + "/" + b + "/")[0] == a[0] == (a + "/" + b)[0];
  }

  /** `filepath.Clean` ignores a trailing slash. */
  lemma CleanTrailingSlash(p: string)
    requires p != ""
    ensures Clean(p + "/") == Clean(p)
  {
    ElementsTrailingSlash(p);
    assert (p + "/")[0] == p[0];
  }

  /** `filepath.Join` ignores a trailing slash on its last element. */
  lemma JoinTrailingSlash(dir: string, name: string)
    requires name != ""
    ensures Join(dir, name + "/") == Join(dir, name)
  {
    if dir == "" {
      assert Join(dir, name + "/") == Clean(name + "/") by {
        assert JoinAll([dir, name + "/"]) == JoinAll([name + "/"]);
        assert Intercalate([name + "/"], "/") == name + "/";
      }
      assert Join(dir, name) == Clean(name) by {
        assert JoinAll([dir, name]) == JoinAll([name]);
        assert Intercalate([name], "/") == name;
      }
      CleanTrailingSlash(name);
    } else {
      JoinPair(dir, name + "/");
      JoinPair(dir, name);
      assert dir + "/" + (name + "/") == (dir + "/" + name) + "/";
      CleanTrailingSlash(dir + "/" + name);
    }
  }
}
