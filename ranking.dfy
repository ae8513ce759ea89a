/** Python's `sorted(s, key=key, reverse=True)[:n]`: a stable sort by descending
    key followed by a slice. Both top-10 selections of the pipeline use it. */
module Ranking {
  import opened Text
  import opened Seqs

  /** Places x in front of the first element whose key is at most key(x). */
  function InsertDesc<T>(x: T, s: seq<T>, key: T -> int): seq<T>
    decreases |s|
  {
    if s == [] || key(x) >= key(s[0]) then [x] + s
    else [s[0]] + InsertDesc(x, s[1..], key)
  }

  /** sorted(s, key=key, reverse=True): elements with equal keys stay in input order. */
  function SortDesc<T>(s: seq<T>, key: T -> int): seq<T>
    decreases |s|
  {
    if s == [] then [] else InsertDesc(s[0], SortDesc(s[1..], key), key)
  }

  /** sorted(s, key=key, reverse=True)[:n] */
  function Top<T>(s: seq<T>, key: T -> int, n: nat): seq<T> {
    Prefix(SortDesc(s, key), n)
  }

  predicate NonIncreasing<T>(s: seq<T>, key: T -> int) {
    forall i, j :: 0 <= i < j < |s| ==> key(s[j]) <= key(s[i])
  }

  /** The elements of s whose key is k, in the order s has them. */
  function WithKey<T>(s: seq<T>, key: T -> int, k: int): seq<T>
    decreases |s|
  {
    if s == [] then []
    else (if key(s[0]) == k then [s[0]] else []) + WithKey(s[1..], key, k)
  }

  lemma {:induction false} WithKeyAppend<T>(a: seq<T>, b: seq<T>, key: T -> int, k: int)
    ensures WithKey(a + b, key, k) == WithKey(a, key, k) + WithKey(b, key, k)
    decreases |a|
  {
    if a != [] {
      assert (a + b)[0] == a[0] && (a + b)[1..] == a[1..] + b;
      WithKeyAppend(a[1..], b, key, k);
      var h := if key(a[0]) == k then [a[0]] else [];
      calc {
        WithKey(a + b, key, k);
        h + WithKey(a[1..] + b, key, k);
        h + (WithKey(a[1..], key, k) + WithKey(b, key, k));
        (h + WithKey(a[1..], key, k)) + WithKey(b, key, k);
      }
    } else {
      assert a + b == b;
    }
  }

  /** Every element of s has a key of at most v. */
  ghost predicate AllAtMost<T>(s: seq<T>, key: T -> int, v: int) {
    forall i :: 0 <= i < |s| ==> key(s[i]) <= v
  }

  lemma {:induction false} InsertDescPermutes<T>(x: T, s: seq<T>, key: T -> int)
    ensures |InsertDesc(x, s, key)| == |s| + 1
    ensures multiset(InsertDesc(x, s, key)) == multiset(s) + multiset{x}
    decreases |s|
  {
    if !(s == [] || key(x) >= key(s[0])) {
      InsertDescPermutes(x, s[1..], key);
      assert s == [s[0]] + s[1..];
    }
  }

  lemma {:induction false} InsertDescAtMost<T>(x: T, s: seq<T>, key: T -> int, v: int)
    requires AllAtMost(s, key, v) && key(x) <= v
    ensures AllAtMost(InsertDesc(x, s, key), key, v)
    decreases |s|
  {
    if !(s == [] || key(x) >= key(s[0])) {
      InsertDescAtMost(x, s[1..], key, v);
      var t := InsertDesc(x, s[1..], key);
      assert InsertDesc(x, s, key) == [s[0]] + t;
    }
  }

  lemma ConsNonIncreasing<T>(y: T, t: seq<T>, key: T -> int)
    requires NonIncreasing(t, key) && AllAtMost(t, key, key(y))
    ensures NonIncreasing([y] + t, key)
  {
    var r := [y] + t;
    forall i, j | 0 <= i < j < |r| ensures key(r[j]) <= key(r[i]) {
      assert r[j] == t[j - 1];
      if i > 0 {
        assert r[i] == t[i - 1];
      }
    }
  }

  lemma {:induction false} InsertDescSorted<T>(x: T, s: seq<T>, key: T -> int)
    requires NonIncreasing(s, key)
    ensures NonIncreasing(InsertDesc(x, s, key), key)
    decreases |s|
  {
    if s == [] || key(x) >= key(s[0]) {
      assert AllAtMost(s, key, key(x)) by {
        forall i | 0 <= i < |s| ensures key(s[i]) <= key(x) {
          if i > 0 { assert key(s[i]) <= key(s[0]); }
        }
      }
      ConsNonIncreasing(x, s, key);
    } else {
      var t := InsertDesc(x, s[1..], key);
      assert NonIncreasing(s[1..], key) by {
        forall i, j | 0 <= i < j < |s[1..]| ensures key(s[1..][j]) <= key(s[1..][i]) {
          assert s[1..][j] == s[j + 1] && s[1..][i] == s[i + 1];
        }
      }
      InsertDescSorted(x, s[1..], key);
      assert AllAtMost(s[1..], key, key(s[0])) by {
        forall i | 0 <= i < |s[1..]| ensures key(s[1..][i]) <= key(s[0]) {
          assert s[1..][i] == s[i + 1];
        }
      }
      InsertDescAtMost(x, s[1..], key, key(s[0]));
      ConsNonIncreasing(s[0], t, key);
    }
  }

  lemma {:induction false} InsertDescWithKey<T>(x: T, s: seq<T>, key: T -> int, k: int)
    ensures WithKey(InsertDesc(x, s, key), key, k) ==
              if key(x) == k then [x] + WithKey(s, key, k) else WithKey(s, key, k)
    decreases |s|
  {
    var r := InsertDesc(x, s, key);
    if s == [] || key(x) >= key(s[0]) {
      assert r[0] == x && r[1..] == s;
    } else {
      var t := InsertDesc(x, s[1..], key);
      InsertDescWithKey(x, s[1..], key, k);
      assert r[0] == s[0] && r[1..] == t;
      var h := if key(s[0]) == k then [s[0]] else [];
      assert WithKey(r, key, k) == h + WithKey(t, key, k);
      assert WithKey(s, key, k) == h + WithKey(s[1..], key, k);
    }
  }

  lemma {:induction false} SortDescPermutes<T>(s: seq<T>, key: T -> int)
    ensures |SortDesc(s, key)| == |s|
    ensures multiset(SortDesc(s, key)) == multiset(s)
    decreases |s|
  {
    if s != [] {
      SortDescPermutes(s[1..], key);
      InsertDescPermutes(s[0], SortDesc(s[1..], key), key);
      assert s == [s[0]] + s[1..];
    }
  }

  lemma {:induction false} SortDescSorted<T>(s: seq<T>, key: T -> int)
    ensures NonIncreasing(SortDesc(s, key), key)
    decreases |s|
  {
    if s != [] {
      SortDescSorted(s[1..], key);
      InsertDescSorted(s[0], SortDesc(s[1..], key), key);
    }
  }

  lemma {:induction false} SortDescStable<T>(s: seq<T>, key: T -> int, k: int)
    ensures WithKey(SortDesc(s, key), key, k) == WithKey(s, key, k)
    decreases |s|
  {
    if s != [] {
      var rest := SortDesc(s[1..], key);
      SortDescStable(s[1..], key, k);
      InsertDescWithKey(s[0], rest, key, k);
    }
  }

  /** SortDesc is a permutation, non-increasing in the key, and stable: for
      every key value the elements with that key appear in input order. */
  lemma SortDescProperties<T>(s: seq<T>, key: T -> int)
    ensures |SortDesc(s, key)| == |s|
    ensures multiset(SortDesc(s, key)) == multiset(s)
    ensures NonIncreasing(SortDesc(s, key), key)
    ensures forall k :: WithKey(SortDesc(s, key), key, k) == WithKey(s, key, k)
  {
    SortDescPermutes(s, key);
    SortDescSorted(s, key);
    forall k ensures WithKey(SortDesc(s, key), key, k) == WithKey(s, key, k) {
      SortDescStable(s, key, k);
    }
  }

  lemma TopSubMultiset<T>(s: seq<T>, key: T -> int, n: nat)
    ensures multiset(Top(s, key, n)) <= multiset(s)
    ensures multiset(s) - multiset(Top(s, key, n)) == multiset(SortDesc(s, key)[|Top(s, key, n)|..])
  {
    var t := SortDesc(s, key);
    SortDescProperties(s, key);
    var top := Top(s, key, n);
    SplitMultiset(t, |top|);
  }

  /** In a non-increasing sequence nothing after position m has a larger key
      than anything before it. */
  lemma SortedSplit<T>(t: seq<T>, key: T -> int, m: nat)
    requires NonIncreasing(t, key) && m <= |t|
    ensures forall x, y :: x in t[m..] && y in t[..m] ==> key(x) <= key(y)
  {
    forall x, y | x in t[m..] && y in t[..m] ensures key(x) <= key(y) {
      var j :| 0 <= j < |t[m..]| && t[m..][j] == x;
      var i :| 0 <= i < m && t[..m][i] == y;
      assert t[i] == y && t[m + j] == x;
    }
  }

  lemma TopOmittedAtMost<T>(s: seq<T>, key: T -> int, n: nat)
    ensures forall x, y :: x in multiset(s) - multiset(Top(s, key, n)) && y in Top(s, key, n) ==> key(x) <= key(y)
  {
    var t := SortDesc(s, key);
    SortDescSorted(s, key);
    TopSubMultiset(s, key, n);
    var top := Top(s, key, n);
    var m := |top|;
    SortedSplit(t, key, m);
    assert top == t[..m];
    forall x | x in multiset(s) - multiset(top) ensures x in t[m..] {
      assert x in multiset(t[m..]);
    }
  }

  lemma TopStable<T>(s: seq<T>, key: T -> int, n: nat, k: int)
    ensures StartsWithSeq(WithKey(s, key, k), WithKey(Top(s, key, n), key, k))
  {
    var t := SortDesc(s, key);
    SortDescProperties(s, key);
    var top := Top(s, key, n);
    assert t == top + t[|top|..];
    WithKeyAppend(top, t[|top|..], key, k);
  }

  /** The selection: min(n, |s|) elements, in non-increasing key order, drawn
      from s (as a multiset), equal-key elements in input order, and no element
      left out has a larger key than an element selected. */
  lemma TopProperties<T>(s: seq<T>, key: T -> int, n: nat)
    ensures |Top(s, key, n)| == if |s| <= n then |s| else n
    ensures NonIncreasing(Top(s, key, n), key)
    ensures multiset(Top(s, key, n)) <= multiset(s)
    ensures forall k :: StartsWithSeq(WithKey(s, key, k), WithKey(Top(s, key, n), key, k))
    ensures forall x, y :: x in multiset(s) - multiset(Top(s, key, n)) && y in Top(s, key, n) ==> key(x) <= key(y)
  {
    SortDescProperties(s, key);
    TopSubMultiset(s, key, n);
    TopOmittedAtMost(s, key, n);
    forall k ensures StartsWithSeq(WithKey(s, key, k), WithKey(Top(s, key, n), key, k)) {
      TopStable(s, key, n, k);
    }
  }

  /** p is a prefix of s. */
  ghost predicate StartsWithSeq<T>(s: seq<T>, p: seq<T>) {
    |p| <= |s| && s[..|p|] == p
  }
}
