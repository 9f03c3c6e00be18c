/** The parts of Go's `strings` and `bytes` packages that the collectors use. */
module Strings {
  import opened Seqs

  /** Index of the first `c` in `s`, or `|s|` when there is none. */
  function IndexOf(s: string, c: char): (i: nat)
    ensures i <= |s|
    ensures i < |s| ==> s[i] == c
    ensures forall j :: 0 <= j < i ==> s[j] != c
  {
    if s == [] then 0
    else if s[0] == c then 0
    else 1 + IndexOf(s[1..], c)
  }

  /** `strings.Split(s, string(c))`: the pieces between the occurrences of `c`. */
  function Split(s: string, c: char): (parts: seq<string>)
    ensures |parts| >= 1
    ensures forall k :: 0 <= k < |parts| ==> c !in parts[k]
    ensures |parts| >= 2 <==> c in s
    ensures parts[0] == s[..IndexOf(s, c)]
    decreases |s|
  {
    var i := IndexOf(s, c);
    if i == |s| then [s] else [s[..i]] + Split(s[i + 1..], c)
  }

  /** `strings.Join(parts, sep)`. */
  function Intercalate(parts: seq<string>, sep: string): string {
    if parts == [] then ""
    else if |parts| == 1 then parts[0]
    else parts[0] + sep + Intercalate(parts[1..], sep)
  }

  lemma {:induction false} IntercalateSnoc(parts: seq<string>, last: string, sep: string)
    ensures Intercalate(parts + [last], sep)
         == if parts == [] then last else Intercalate(parts, sep) + sep + last
  {
    if |parts| > 1 {
      assert (parts + [last])[1..] == parts[1..] + [last];
      IntercalateSnoc(parts[1..], last, sep);
    } else if |parts| == 1 {
      assert (parts + [last])[1..] == [last];
    } else {
      assert parts + [last] == [last];
    }
  }

  /** Splitting on `c` and joining with `c` gives the string back. */
  lemma {:induction false} SplitThenJoin(s: string, c: char)
    ensures Intercalate(Split(s, c), [c]) == s
    decreases |s|
  {
    var i := IndexOf(s, c);
    if i < |s| {
      SplitThenJoin(s[i + 1..], c);
      var rest := Split(s[i + 1..], c);
      assert Split(s, c) == [s[..i]] + rest;
      assert s == s[..i] + [c] + s[i + 1..];
    }
  }

  /** Splitting `x + [c] + y` splits `x` and `y` separately. */
  lemma {:induction false} SplitAround(x: string, c: char, y: string)
    requires c !in x
    ensures Split(x + [c] + y, c) == [x] + Split(y, c)
  {
    var s := x + [c] + y;
    assert s[|x|] == c;
    assert forall j :: 0 <= j < |x| ==> s[j] == x[j];
    var i := IndexOf(s, c);
    assert i == |x|;
    assert s[..i] == x;
    assert s[i + 1..] == y;
  }

  /** Joining pieces without `c` by `c` and splitting on `c` gives the pieces back. */
  lemma {:induction false} JoinThenSplit(parts: seq<string>, c: char)
    requires parts != []
    requires forall k :: 0 <= k < |parts| ==> c !in parts[k]
    ensures Split(Intercalate(parts, [c]), c) == parts
  {
    if |parts| == 1 {
      JoinOne(parts[0], c);
    } else {
      DropFirstFree(parts, c);
      JoinThenSplit(parts[1..], c);
      JoinCons(parts, c);
    }
  }

  /** Dropping the first piece keeps every piece free of `c`. */
  lemma DropFirstFree(parts: seq<string>, c: char)
    requires parts != []
    requires forall k :: 0 <= k < |parts| ==> c !in parts[k]
    ensures forall k :: 0 <= k < |parts[1..]| ==> c !in parts[1..][k]
  {
  }

  /** A single piece without `c` splits back to itself. */
  lemma JoinOne(p: string, c: char)
    requires c !in p
    ensures Split(Intercalate([p], [c]), c) == [p]
  {
    assert IndexOf(p, c) == |p|;
  }

  /** One more piece in front of pieces that split back. */
  lemma JoinCons(parts: seq<string>, c: char)
    requires |parts| >= 2 && c !in parts[0]
    requires Split(Intercalate(parts[1..], [c]), c) == parts[1..]
    ensures Split(Intercalate(parts, [c]), c) == parts
  {
    var joined := Intercalate(parts[1..], [c]);
    assert Intercalate(parts, [c]) == parts[0] + [c] + joined;
    SplitAround(parts[0], c, joined);
    assert [parts[0]] + parts[1..] == parts;
  }

  lemma SplitFour(a: string, b: string, d: string, e: string, c: char)
    requires c !in a && c !in b && c !in d && c !in e
    ensures Split(Intercalate([a, b, d, e], [c]), c) == [a, b, d, e]
  {
    var ws := [a, b, d, e];
    assert forall k :: 0 <= k < |ws| ==> c !in ws[k];
    JoinThenSplit(ws, c);
  }

  /** Text after an occurrence of `c` does not move the first occurrence. */
  lemma {:induction false} IndexOfExtend(x: string, c: char, rest: string)
    requires IndexOf(x, c) < |x|
    ensures IndexOf(x + rest, c) == IndexOf(x, c)
    decreases |x|
  {
    assert (x + rest)[0] == x[0];
    if x[0] != c {
      assert (x + rest)[1..] == x[1..] + rest;
      IndexOfExtend(x[1..], c, rest);
    }
  }

  lemma IndexOfAround(x: string, c: char, y: string)
    requires IndexOf(x, c) < |x|
    ensures IndexOf(x + [c] + y, c) == IndexOf(x, c)
  {
    IndexOfExtend(x, c, [c] + y);
    assert x + [c] + y == x + ([c] + y);
  }

  /** One step of `Split` at the first occurrence of `c`. */
  lemma SplitAt(s: string, c: char, head: string, tail: string)
    requires IndexOf(s, c) < |s|
    requires head == s[..IndexOf(s, c)] && tail == s[IndexOf(s, c) + 1..]
    ensures Split(s, c) == [head] + Split(tail, c)
  {
  }

  /** Splitting `x + [c] + y` splits `x` and `y` separately. */
  lemma {:induction false} SplitConcat(x: string, c: char, y: string)
    ensures Split(x + [c] + y, c) == Split(x, c) + Split(y, c)
    decreases |x|
  {
    var i := IndexOf(x, c);
    if i == |x| {
      SplitAround(x, c, y);
    } else {
      var s := x + [c] + y;
      var x' := x[i + 1..];
      IndexOfAround(x, c, y);
      SlicesAround(s, x, c, y, i);
      SplitAt(s, c, x[..i], x' + [c] + y);
      SplitAt(x, c, x[..i], x');
      SplitConcat(x', c, y);
      ConsAssoc(x[..i], Split(x', c), Split(y, c));
    }
  }

  predicate HasPrefix(s: string, prefix: string) {
    |prefix| <= |s| && s[..|prefix|] == prefix
  }

  /** `strings.HasSuffix`. */
  predicate HasSuffix(s: string, suffix: string) {
    |suffix| <= |s| && s[|s| - |suffix|..] == suffix
  }

  /** `strings.TrimLeft(s, string(c))`: drop every leading `c`. */
  function TrimLeft(s: string, c: char): (r: string)
    ensures |r| <= |s| && r == s[|s| - |r|..]
    ensures forall k :: 0 <= k < |s| - |r| ==> s[k] == c
    ensures r == [] || r[0] != c
  {
    if s != [] && s[0] == c then TrimLeft(s[1..], c) else s
  }

  /** `strings.TrimRight(s, string(c))`: drop every trailing `c`. */
  function TrimRight(s: string, c: char): (r: string)
    ensures |r| <= |s| && r == s[..|r|]
    ensures forall k :: |r| <= k < |s| ==> s[k] == c
    ensures r == [] || r[|r| - 1] != c
  {
    if s != [] && s[|s| - 1] == c then TrimRight(s[..|s| - 1], c) else s
  }

  /** `s` is `r` at index `i`, with nothing but `c` before and after it. */
  ghost predicate PaddedAt(s: string, r: string, i: int, c: char) {
    0 <= i <= |s| - |r| && s[i..i + |r|] == r
    && (forall k :: 0 <= k < i ==> s[k] == c)
    && (forall k :: i + |r| <= k < |s| ==> s[k] == c)
  }

  /** `strings.Trim(s, string(c))`: `s` without its leading and trailing `c`s. */
  function Trim(s: string, c: char): (r: string)
    ensures r == [] || (r[0] != c && r[|r| - 1] != c)
    ensures exists i :: PaddedAt(s, r, i, c)
  {
    var left := TrimLeft(s, c);
    TrimmedPadded(s, left, TrimRight(left, c), c);
    TrimRight(left, c)
  }

  /** Trimming `c`s from the left and then from the right leaves the middle of a
      string padded with `c`s. */
  lemma TrimmedPadded(s: string, left: string, r: string, c: char)
    requires |left| <= |s| && left == s[|s| - |left|..]
    requires forall k :: 0 <= k < |s| - |left| ==> s[k] == c
    requires |r| <= |left| && r == left[..|r|]
    requires forall k :: |r| <= k < |left| ==> left[k] == c
    ensures PaddedAt(s, r, |s| - |left|, c)
  {
    var i := |s| - |left|;
    assert s[i..i + |r|] == r;
    forall k | i + |r| <= k < |s|
      ensures s[k] == c
    {
      assert s[k] == left[k - i];
    }
  }

  ghost predicate OccursAt(s: string, sub: string, i: int) {
    0 <= i <= |s| - |sub| && s[i..i + |sub|] == sub
  }

  /** `s` holds `sub` as a contiguous piece. */
  ghost predicate Occurs(s: string, sub: string) {
    exists i :: OccursAt(s, sub, i)
  }

  /** `bytes.Contains(s, sub)` / `strings.Contains(s, sub)`: a left-to-right search. */
  function Contains(s: string, sub: string): bool
    decreases |s|
  {
    if |sub| > |s| then false
    else if s[..|sub|] == sub then true
    else Contains(s[1..], sub)
  }

  /** The search finds `sub` exactly when it occurs. */
  lemma {:induction false} ContainsIffOccurs(s: string, sub: string)
    ensures Contains(s, sub) <==> Occurs(s, sub)
    decreases |s|
  {
    if |sub| > |s| {
    } else if s[..|sub|] == sub {
      assert OccursAt(s, sub, 0);
    } else {
      ContainsIffOccurs(s[1..], sub);
      if Occurs(s, sub) {
        var i :| OccursAt(s, sub, i);
        assert i != 0;
        assert s[1..][i - 1..i - 1 + |sub|] == s[i..i + |sub|];
        assert OccursAt(s[1..], sub, i - 1);
      }
      if Occurs(s[1..], sub) {
        var i :| OccursAt(s[1..], sub, i);
        assert s[i + 1..i + 1 + |sub|] == s[1..][i..i + |sub|];
        assert OccursAt(s, sub, i + 1);
      }
    }
  }

  /** `n` copies of `c`. */
  function Repeat(c: char, n: nat): string {
    if n == 0 then [] else [c] + Repeat(c, n - 1)
  }

  lemma {:induction false} RepeatShape(c: char, n: nat)
    ensures |Repeat(c, n)| == n && forall k :: 0 <= k < n ==> Repeat(c, n)[k] == c
  {
    if n > 0 {
      RepeatShape(c, n - 1);
    }
  }

  /** `fmt`'s `%<w>s` (and `%<w>d` on the digits): right-align `s` in `w` columns with `c`. */
  function PadLeft(s: string, w: nat, c: char): string {
    if |s| < w then Repeat(c, w - |s|) + s else s
  }

  /** The padded string is `w` wide (or `s` itself when `s` is wider), ends
      with `s`, and has only `c` before it. */
  lemma PadLeftShape(s: string, w: nat, c: char)
    ensures var r := PadLeft(s, w, c);
      && |r| == (if |s| < w then w else |s|)
      && HasSuffix(r, s)
      && forall k :: 0 <= k < |r| - |s| ==> r[k] == c
  {
    if |s| < w {
      RepeatShape(c, w - |s|);
    }
  }

  /** `fmt`'s `%-<w>s`: left-align `s` in `w` columns with `c`. */
  function PadRight(s: string, w: nat, c: char): string {
    if |s| < w then s + Repeat(c, w - |s|) else s
  }

  /** The padded string is `w` wide (or `s` itself when `s` is wider), starts
      with `s`, and has only `c` after it. */
  lemma PadRightShape(s: string, w: nat, c: char)
    ensures var r := PadRight(s, w, c);
      && |r| == (if |s| < w then w else |s|)
      && HasPrefix(r, s)
      && forall k :: |s| <= k < |r| ==> r[k] == c
  {
    if |s| < w {
      RepeatShape(c, w - |s|);
    }
  }
}
