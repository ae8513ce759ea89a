/** Facts about sequences, stated once for any element type so that the
    proofs using them need not look inside the elements. */
module Seqs {

  /** No element occurs twice. */
  predicate Distinct<T(==)>(s: seq<T>) {
    forall i, j :: 0 <= i < j < |s| ==> s[i] != s[j]
  }

  lemma PrefixStep<T>(s: seq<T>, i: nat)
    requires i < |s|
    ensures s[..i + 1][..i] == s[..i] && s[..i + 1][i] == s[i] && |s[..i + 1]| == i + 1
    ensures s[..i + 1] == s[..i] + [s[i]]
    ensures s[i..] == [s[i]] + s[i + 1..]
  {
  }

  lemma UpdateStep<T>(a: seq<T>, done: seq<T>, rest: seq<T>, x: T)
    requires a == done + rest && rest != []
    ensures a[|done| := x] == (done + [x]) + rest[1..]
  {
    assert rest == [rest[0]] + rest[1..];
  }

  lemma AppendAssoc<T>(a: seq<T>, b: seq<T>, c: seq<T>)
    ensures (a + b) + c == a + (b + c)
  {
  }

  lemma AppendTwo<T>(a: seq<T>, x: T, y: T)
    ensures (a + [x]) + [y] == a + [x, y] && |a + [x]| == |a| + 1
  {
  }

  lemma AppendEmpty<T>(s: seq<T>)
    ensures s + [] == s
  {
  }

  lemma WholeSlice<T>(s: seq<T>)
    ensures s[..|s|] == s && s[|s|..] == []
  {
  }

  lemma SplitMultiset<T>(t: seq<T>, m: nat)
    requires m <= |t|
    ensures multiset(t) == multiset(t[..m]) + multiset(t[m..])
  {
    assert t == t[..m] + t[m..];
  }
}
