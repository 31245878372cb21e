/**
 * The few string operations of JavaScript that the dashboard relies on:
 * `String.prototype.split` with a one-character separator, `trim`,
 * `includes`, `slice(-n)` and the decimal rendering of integers.
 */
module Strings {

  /** The whitespace set `trim` strips, fixed to the common code points. */
  predicate IsWhitespace(c: char) {
    c == ' ' || c == '\t' || c == '\n' || c == '\r' || c == '\U{0B}' || c == '\U{0C}'
    || c == '\U{A0}' || c == '\U{FEFF}' || c == '\U{2028}' || c == '\U{2029}'
  }

  /** Number of occurrences of `c` in `s`. */
  function Count(s: string, c: char): nat {
    if s == [] then 0 else (if s[0] == c then 1 else 0) + Count(s[1..], c)
  }

  /** `s.includes(c)` exactly when `c` occurs at least once. */
  lemma {:induction false} CountIn(s: string, c: char)
    ensures c in s <==> Count(s, c) > 0
  {
    if s != [] {
      CountIn(s[1..], c);
      assert s == [s[0]] + s[1..];
    }
  }

  /** `s.split(c)`: the maximal pieces between separators, empty pieces included. */
  function Split(s: string, c: char): (parts: seq<string>)
    ensures |parts| >= 1
    ensures c in s ==> |parts| >= 2
  {
    if s == [] then [""]
    else if s[0] == c then [""] + Split(s[1..], c)
    else
      var rest := Split(s[1..], c);
      [[s[0]] + rest[0]] + rest[1..]
  }

  /** `parts.join(c)`. */
  function Join(parts: seq<string>, c: char): string {
    if parts == [] then ""
    else if |parts| == 1 then parts[0]
    else parts[0] + [c] + Join(parts[1..], c)
  }

  /** Splitting yields one more piece than there are separators. */
  lemma {:induction false} SplitLength(s: string, c: char)
    ensures |Split(s, c)| == Count(s, c) + 1
  {
    if s != [] {
      SplitLength(s[1..], c);
    }
  }

  /** No piece contains the separator. */
  lemma {:induction false} SplitPiecesFree(s: string, c: char)
    ensures forall k :: 0 <= k < |Split(s, c)| ==> c !in Split(s, c)[k]
  {
    if s != [] && s[0] != c {
      SplitPiecesFree(s[1..], c);
      var rest := Split(s[1..], c);
      assert Split(s, c) == [[s[0]] + rest[0]] + rest[1..];
    } else if s != [] {
      SplitPiecesFree(s[1..], c);
    }
  }

  /** Joining the pieces with the separator gives back the original string. */
  lemma {:induction false} JoinSplit(s: string, c: char)
    ensures Join(Split(s, c), c) == s
  {
    if s == [] {
    } else if s[0] == c {
      JoinSplit(s[1..], c);
      var rest := Split(s[1..], c);
      assert Split(s, c) == [""] + rest;
      assert ([""] + rest)[1..] == rest;
      assert s == [c] + s[1..];
    } else {
      JoinSplit(s[1..], c);
      var rest := Split(s[1..], c);
      var parts := [[s[0]] + rest[0]] + rest[1..];
      assert Split(s, c) == parts;
      if |rest| == 1 {
        assert s == [s[0]] + s[1..];
      } else {
        assert parts[1..] == rest[1..];
        assert Join(rest, c) == rest[0] + [c] + Join(rest[1..], c);
        assert s == [s[0]] + s[1..];
      }
    }
  }

  /** A string without the separator is a single piece. */
  lemma {:induction false} SplitFree(s: string, c: char)
    requires c !in s
    ensures Split(s, c) == [s]
  {
    if s != [] {
      assert s[0] in s;
      SplitFree(s[1..], c);
      assert [s[0]] + s[1..] == s;
    }
  }

  /** Splitting distributes over a separator: `(s + c + t).split(c)` is `s.split(c)` followed by `t.split(c)`. */
  lemma {:induction false} SplitAround(s: string, c: char, t: string)
    ensures Split(s + [c] + t, c) == Split(s, c) + Split(t, c)
  {
    if s == [] {
      assert s + [c] + t == [c] + t;
      assert ([c] + t)[1..] == t;
    } else {
      assert (s + [c] + t)[0] == s[0];
      assert (s + [c] + t)[1..] == s[1..] + [c] + t;
      SplitAround(s[1..], c, t);
    }
  }

  /** `s.trimStart()`: drops leading whitespace. */
  function TrimStart(s: string): (r: string)
    ensures |r| <= |s| && r == s[|s| - |r|..]
    ensures forall k :: 0 <= k < |s| - |r| ==> IsWhitespace(s[k])
    ensures r == [] || !IsWhitespace(r[0])
  {
    if s != [] && IsWhitespace(s[0]) then TrimStart(s[1..]) else s
  }

  /** `s.trimEnd()`: drops trailing whitespace. */
  function TrimEnd(s: string): (r: string)
    ensures |r| <= |s| && r == s[..|r|]
    ensures forall k :: |r| <= k < |s| ==> IsWhitespace(s[k])
    ensures r == [] || !IsWhitespace(r[|r| - 1])
  {
    if s != [] && IsWhitespace(s[|s| - 1]) then TrimEnd(s[..|s| - 1]) else s
  }

  /** `r` is `s` with some whitespace removed from its start and some from its end. */
  predicate StrippedFrom(r: string, s: string) {
    exists i, j :: 0 <= i <= j <= |s| && r == s[i..j]
      && (forall k :: 0 <= k < i ==> IsWhitespace(s[k]))
      && (forall k :: j <= k < |s| ==> IsWhitespace(s[k]))
  }

  /** `s.trim()`: `s` with all of its leading and trailing whitespace removed. */
  function Trim(s: string): (r: string)
    ensures StrippedFrom(r, s)
    ensures r == [] || (!IsWhitespace(r[0]) && !IsWhitespace(r[|r| - 1]))
    ensures forall x :: x in r ==> x in s
  {
    TrimBothEnds(s);
    TrimStart(TrimEnd(s))
  }

  lemma TrimBothEnds(s: string)
    ensures StrippedFrom(TrimStart(TrimEnd(s)), s)
  {
    var e := TrimEnd(s);
    var r := TrimStart(e);
    var i, j := |e| - |r|, |e|;
    assert r == s[i..j];
    assert forall k :: 0 <= k < i ==> IsWhitespace(s[k]) by {
      assert forall k :: 0 <= k < |e| ==> e[k] == s[k];
    }
    assert forall k :: j <= k < |s| ==> IsWhitespace(s[k]);
  }

  /** `s.slice(-n)` for `n >= 0`: the last `min(n, |s|)` characters. */
  function SliceLast(s: string, n: nat): (r: string)
    ensures |r| == (if |s| < n then |s| else n)
    ensures r == s[|s| - |r|..]
  {
    if |s| <= n then s else s[|s| - n..]
  }

  /** Decimal digits of a non-negative integer. */
  function NatToString(n: nat): string {
    var d := ['0', '1', '2', '3', '4', '5', '6', '7', '8', '9'];
    if n < 10 then [d[n]] else NatToString(n / 10) + [d[n % 10]]
  }

  /** `String(n)` for an integer. */
  function IntToString(n: int): string {
    if n < 0 then "-" + NatToString(-n) else NatToString(n)
  }
}
