/** String helpers with the meaning Python gives the corresponding str operations. */
module Text {

  /** The characters for which Python's str.isspace() is true. */
  predicate IsSpace(c: char) {
    var n := c as int;
    n == 0x20 || 0x09 <= n <= 0x0d || 0x1c <= n <= 0x1f || n == 0x85 || n == 0xa0 ||
    n == 0x1680 || 0x2000 <= n <= 0x200a || n == 0x2028 || n == 0x2029 ||
    n == 0x202f || n == 0x205f || n == 0x3000
  }

  /** No leading and no trailing whitespace. */
  predicate IsStripped(s: string) {
    s == [] || (!IsSpace(s[0]) && !IsSpace(s[|s| - 1]))
  }

  /** w occurs in t starting at position i. */
  predicate OccursAt(t: string, w: string, i: int) {
    0 <= i <= |t| - |w| && t[i..i + |w|] == w
  }

  /** Every character of s is whitespace. */
  predicate AllSpace(s: string) {
    forall j :: 0 <= j < |s| ==> IsSpace(s[j])
  }

  /** str.strip(): drops whitespace at both ends. */
  function Strip(s: string): (r: string)
    ensures IsStripped(r)
    ensures |r| <= |s|
    decreases |s|
  {
    if |s| > 0 && IsSpace(s[0]) then Strip(s[1..])
    else if |s| > 0 && IsSpace(s[|s| - 1]) then Strip(s[..|s| - 1])
    else s
  }

  /** s is r with whitespace only around it, r starting at position i. */
  predicate PaddedAt(s: string, r: string, i: int) {
    OccursAt(s, r, i) && AllSpace(s[..i]) && AllSpace(s[i + |r|..])
  }

  lemma PaddedAfterSpace(s: string, r: string, i: int)
    requires |s| > 0 && IsSpace(s[0]) && PaddedAt(s[1..], r, i)
    ensures PaddedAt(s, r, i + 1)
  {
    var t := s[1..];
    assert t[i..i + |r|] == s[i + 1..i + 1 + |r|];
    var front := s[..i + 1];
    forall j | 0 <= j < |front| ensures IsSpace(front[j]) {
      if j > 0 {
        assert front[j] == t[..i][j - 1];
      }
    }
    assert s[i + 1 + |r|..] == t[i + |r|..];
  }

  lemma PaddedBeforeSpace(s: string, r: string, i: int)
    requires |s| > 0 && IsSpace(s[|s| - 1]) && PaddedAt(s[..|s| - 1], r, i)
    ensures PaddedAt(s, r, i)
  {
    var t := s[..|s| - 1];
    assert t[i..i + |r|] == s[i..i + |r|];
    assert s[..i] == t[..i];
    var back := s[i + |r|..];
    forall j | 0 <= j < |back| ensures IsSpace(back[j]) {
      if j < |t| - (i + |r|) {
        assert back[j] == t[i + |r|..][j];
      }
    }
  }

  /** What strip keeps is a contiguous piece of the string, and everything it
      drops is whitespace. */
  lemma {:induction false} StripKeepsMiddle(s: string)
    ensures exists i :: PaddedAt(s, Strip(s), i)
    decreases |s|
  {
    var r := Strip(s);
    if |s| > 0 && IsSpace(s[0]) {
      StripKeepsMiddle(s[1..]);
      var i :| PaddedAt(s[1..], r, i);
      PaddedAfterSpace(s, r, i);
    } else if |s| > 0 && IsSpace(s[|s| - 1]) {
      StripKeepsMiddle(s[..|s| - 1]);
      var i :| PaddedAt(s[..|s| - 1], r, i);
      PaddedBeforeSpace(s, r, i);
    } else {
      assert s[..0] == [] && s[|s|..] == [];
      assert PaddedAt(s, r, 0);
    }
  }

  /** Stripping a string that has no whitespace at either end changes nothing. */
  lemma {:induction false} StripStripped(s: string)
    requires IsStripped(s)
    ensures Strip(s) == s
  {
  }

  /** Python's lower() on the ASCII letters; every other character is kept. */
  function LowerChar(c: char): char {
    if 'A' <= c <= 'Z' then (c as int + 32) as char else c
  }

  function Lower(s: string): (r: string)
    ensures |r| == |s|
  {
    seq(|s|, i requires 0 <= i < |s| => LowerChar(s[i]))
  }

  predicate StartsWith(s: string, p: string) {
    |p| <= |s| && s[..|p|] == p
  }

  predicate EndsWith(s: string, p: string) {
    |p| <= |s| && s[|s| - |p|..] == p
  }

  /** s[:n] in Python: the first n characters, or all of s when it is shorter. */
  function Prefix<T>(s: seq<T>, n: nat): (r: seq<T>)
    ensures |r| == if |s| <= n then |s| else n
    ensures r == s[..|r|]
  {
    if |s| <= n then s else s[..n]
  }

  /** Python's `w in t` on strings: w occurs in t as a contiguous substring. */
  predicate Contains(t: string, w: string)
    decreases |t|
  {
    StartsWith(t, w) || (|t| > 0 && Contains(t[1..], w))
  }

  /** Contains agrees with the positional definition of a substring. */
  lemma {:induction false} ContainsAt(t: string, w: string)
    ensures Contains(t, w) <==> exists i :: OccursAt(t, w, i)
    decreases |t|
  {
    if StartsWith(t, w) {
      assert OccursAt(t, w, 0);
    } else if |t| > 0 {
      ContainsAt(t[1..], w);
      if exists i :: OccursAt(t, w, i) {
        var i :| OccursAt(t, w, i);
        assert i != 0;
        assert t[1..][i - 1..i - 1 + |w|] == t[i..i + |w|];
        assert OccursAt(t[1..], w, i - 1);
      }
      if Contains(t[1..], w) {
        var j :| OccursAt(t[1..], w, j);
        assert t[1..][j..j + |w|] == t[j + 1..j + 1 + |w|];
        assert OccursAt(t, w, j + 1);
      }
    } else {
      assert |w| > 0;
    }
  }

  /** Removes every non-overlapping occurrence of pat, scanning left to right,
      as Python's s.replace(pat, "") does. */
  function RemoveAll(s: string, pat: string): (r: string)
    requires pat != []
    ensures |r| <= |s|
    decreases |s|
  {
    if StartsWith(s, pat) then RemoveAll(s[|pat|..], pat)
    else if s == [] then []
    else [s[0]] + RemoveAll(s[1..], pat)
  }

  /** A string without any occurrence of pat is left unchanged. */
  lemma {:induction false} RemoveAllAbsent(s: string, pat: string)
    requires pat != [] && !Contains(s, pat)
    ensures RemoveAll(s, pat) == s
    decreases |s|
  {
    if s != [] {
      RemoveAllAbsent(s[1..], pat);
    }
  }

  /** s.split('\n'): n separators give n + 1 pieces, none of which holds a separator. */
  function Lines(s: string): (r: seq<string>)
    ensures |r| >= 1
    ensures forall k :: 0 <= k < |r| ==> '\n' !in r[k]
    decreases |s|
  {
    if s == [] then [""]
    else
      var rest := Lines(s[1..]);
      if s[0] == '\n' then [""] + rest
      else [[s[0]] + rest[0]] + rest[1..]
  }

  /** '\n'.join(pieces) */
  function JoinLines(pieces: seq<string>): string
    decreases |pieces|
  {
    if pieces == [] then ""
    else if |pieces| == 1 then pieces[0]
    else pieces[0] + "\n" + JoinLines(pieces[1..])
  }

  /** Splitting into lines loses nothing: joining the pieces gives the text back. */
  lemma {:induction false} LinesJoin(s: string)
    ensures JoinLines(Lines(s)) == s
    decreases |s|
  {
    if s != [] {
      LinesJoin(s[1..]);
      var rest := Lines(s[1..]);
      if s[0] == '\n' {
        assert Lines(s) == [""] + rest;
      } else {
        var r := Lines(s);
        assert r[0] == [s[0]] + rest[0] && r[1..] == rest[1..];
        if |rest| == 1 {
          assert JoinLines(r) == r[0];
        } else {
          assert JoinLines(rest) == rest[0] + "\n" + JoinLines(rest[1..]);
          assert JoinLines(r) == r[0] + "\n" + JoinLines(r[1..]);
        }
      }
    }
  }
}
