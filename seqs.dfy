/** Small facts about sequences and maps that the proofs of several modules use. */
module Seqs {

  lemma Assoc<T>(a: seq<T>, b: seq<T>, c: seq<T>)
    ensures (a + b) + c == a + (b + c)
  {
  }

  lemma ConsAssoc<T>(a: T, b: seq<T>, d: seq<T>)
    ensures [a] + (b + d) == ([a] + b) + d
  {
  }

  /** The slices of `x + [c] + y` on either side of a position inside `x`. */
  lemma SlicesAround<T>(s: seq<T>, x: seq<T>, c: T, y: seq<T>, i: nat)
    requires s == x + [c] + y && i < |x|
    ensures s[..i] == x[..i]
    ensures s[i + 1..] == x[i + 1..] + [c] + y
  {
  }

  lemma InitLast<T>(a: seq<T>, b: seq<T>)
    requires b != []
    ensures b == b[..|b| - 1] + [b[|b| - 1]]
    ensures a + b == (a + b[..|b| - 1]) + [b[|b| - 1]]
  {
  }

  lemma TakeAll<T>(s: seq<T>)
    ensures s[..|s|] == s
  {
  }

  lemma TakeSnoc<T>(s: seq<T>, k: int)
    requires 0 <= k < |s|
    ensures s[..k + 1] == s[..k] + [s[k]]
  {
  }

  lemma UpdateSame<K, V>(m: map<K, V>, k: K)
    requires k in m
    ensures m[k := m[k]] == m
  {
  }

  lemma UpdateTwice<K, V>(m: map<K, V>, k: K, a: V, b: V)
    ensures m[k := a][k := b] == m[k := b]
  {
  }
}
