/** The pieces of Python's `str` behaviour that parser.py relies on:
    slicing with clamped and negative bounds, `strip`, `lstrip(c)`,
    `replace(c, '')`, `split(c)`, `join` and ASCII `lower`.
    Whitespace is the six ASCII whitespace characters. */
module Text {

  /** ASCII whitespace: space, tab, line feed, carriage return, form feed
      and vertical tab. */
  predicate IsSpace(c: char) {
    c == ' ' || c == '\t' || c == '\n' || c == '\r' || c == '\U{000C}' || c == '\U{000B}'
  }

  /** True when every character of `s` is whitespace. */
  predicate AllSpace(s: string) {
    forall i :: 0 <= i < |s| ==> IsSpace(s[i])
  }

  /** Python's normalisation of one slice bound: a negative bound counts
      from the end, and the result is clamped to `[0, n]`. */
  function Bound(i: int, n: nat): (r: nat)
    ensures r <= n
    ensures 0 <= i <= n ==> r == i
    ensures -(n as int) <= i < 0 ==> r == n + i
    ensures i < -(n as int) ==> r == 0
    ensures n < i ==> r == n
  {
    if i < 0 then (if i + n < 0 then 0 else i + n)
    else if i > n then n
    else i
  }

  /** Python's `s[i:j]`: never fails; an empty result when the bounds cross. */
  function Slice(s: string, i: int, j: int): (r: string)
    ensures |r| <= |s|
    ensures 0 <= i <= j <= |s| ==> r == s[i..j]
    ensures Bound(j, |s|) <= Bound(i, |s|) ==> r == []
    ensures Bound(i, |s|) <= Bound(j, |s|) ==> r == s[Bound(i, |s|)..Bound(j, |s|)]
  {
    var a := Bound(i, |s|);
    var b := Bound(j, |s|);
    if a <= b then s[a..b] else []
  }

  /** Number of leading whitespace characters of `s`. */
  function LeadingSpaces(s: string): (k: nat)
    ensures k <= |s|
    ensures forall i :: 0 <= i < k ==> IsSpace(s[i])
    ensures k < |s| ==> !IsSpace(s[k])
  {
    if s == [] || !IsSpace(s[0]) then 0 else 1 + LeadingSpaces(s[1..])
  }

  /** Length of `s` without its trailing whitespace. */
  function TextEnd(s: string): (k: nat)
    ensures k <= |s|
    ensures forall i :: k <= i < |s| ==> IsSpace(s[i])
    ensures 0 < k ==> !IsSpace(s[k - 1])
  {
    if s == [] || !IsSpace(s[|s| - 1]) then |s| else TextEnd(s[..|s| - 1])
  }

  /** Python's `s.strip()`. */
  function Strip(s: string): (r: string)
    ensures |r| <= |s|
    ensures r != [] ==> !IsSpace(r[0]) && !IsSpace(r[|r| - 1])
    ensures r == [] <==> AllSpace(s)
    ensures LeadingSpaces(s) + |r| <= |s|
    ensures r == s[LeadingSpaces(s)..LeadingSpaces(s) + |r|]
    ensures AllSpace(s[LeadingSpaces(s) + |r|..])
  {
    var lo := LeadingSpaces(s);
    var hi := lo + TextEnd(s[lo..]);
    TextEndWithin(s, lo);
    StripBounds(s, lo, hi);
    s[lo..hi]
  }

  /** `TextEnd` of a suffix, stated as positions of the whole text. */
  lemma TextEndWithin(s: string, lo: nat)
    requires lo <= |s|
    ensures lo + TextEnd(s[lo..]) <= |s|
    ensures forall i :: lo + TextEnd(s[lo..]) <= i < |s| ==> IsSpace(s[i])
    ensures 0 < TextEnd(s[lo..]) ==> !IsSpace(s[lo + TextEnd(s[lo..]) - 1])
    ensures lo < |s| && !IsSpace(s[lo]) ==> 0 < TextEnd(s[lo..])
  {
    var t := s[lo..];
    var k := TextEnd(t);
    forall i | lo + k <= i < |s|
      ensures IsSpace(s[i])
    {
      assert s[i] == t[i - lo];
    }
    if 0 < k {
      assert t[k - 1] == s[lo + k - 1];
    }
    if lo < |s| && !IsSpace(s[lo]) {
      assert t[0] == s[lo];
    }
  }

  /** The cut points of `strip()`: whitespace before `lo` and from `hi` on,
      text at both. */
  lemma StripBounds(s: string, lo: nat, hi: nat)
    requires lo <= hi <= |s|
    requires forall i :: 0 <= i < lo ==> IsSpace(s[i])
    requires lo < |s| ==> !IsSpace(s[lo]) && lo < hi
    requires forall i :: hi <= i < |s| ==> IsSpace(s[i])
    requires lo < hi ==> !IsSpace(s[hi - 1])
    ensures lo == hi <==> AllSpace(s)
    ensures AllSpace(s[hi..])
  {
    if lo < |s| {
      assert !IsSpace(s[lo]);
    }
    assert forall i :: 0 <= i < |s[hi..]| ==> s[hi..][i] == s[hi + i];
  }

  /** Python's `s.lstrip(c)`: drop every leading `c`. */
  function LStripChar(s: string, c: char): (r: string)
    ensures |r| <= |s|
    ensures r == s[|s| - |r|..]
    ensures forall i :: 0 <= i < |s| - |r| ==> s[i] == c
    ensures r != [] ==> r[0] != c
  {
    if s != [] && s[0] == c then LStripChar(s[1..], c) else s
  }

  /** Number of occurrences of `c` in `s`. */
  function Count(s: string, c: char): (n: nat)
    ensures n <= |s|
    ensures n == 0 <==> c !in s
  {
    if s == [] then 0 else (if s[0] == c then 1 else 0) + Count(s[1..], c)
  }

  /** Python's `s.replace(c, '')` for a single character `c`. */
  function RemoveAll(s: string, c: char): (r: string)
    ensures |r| == |s| - Count(s, c)
    ensures c !in r
    ensures forall x :: x in r <==> x in s && x != c
  {
    if s == [] then [] else (if s[0] == c then [] else [s[0]]) + RemoveAll(s[1..], c)
  }

  /** Python's `s.split(c)`: the pieces between occurrences of `c`;
      there is always one more piece than there are separators. */
  function SplitOn(s: string, c: char): (parts: seq<string>)
    ensures |parts| == Count(s, c) + 1
    ensures forall k :: 0 <= k < |parts| ==> c !in parts[k]
  {
    if s == [] then [[]]
    else
      var rest := SplitOn(s[1..], c);
      if s[0] == c then [[]] + rest
      else [[s[0]] + rest[0]] + rest[1..]
  }

  /** Python's `c.join(parts)` for a single-character separator. */
  function Join(parts: seq<string>, c: char): string {
    if parts == [] then []
    else if |parts| == 1 then parts[0]
    else parts[0] + [c] + Join(parts[1..], c)
  }

  /** Splitting on `c` and joining with `c` gives the text back. */
  lemma {:induction false} JoinSplitOn(s: string, c: char)
    ensures Join(SplitOn(s, c), c) == s
  {
    if s != [] {
      var rest := SplitOn(s[1..], c);
      JoinSplitOn(s[1..], c);
      if s[0] != c && |rest| > 1 {
        assert Join(rest, c) == rest[0] + [c] + Join(rest[1..], c);
        assert SplitOn(s, c)[1..] == rest[1..];
      }
    }
  }

  /** Counting over a concatenation adds up. */
  lemma {:induction false} CountAppend(a: string, b: string, c: char)
    ensures Count(a + b, c) == Count(a, c) + Count(b, c)
  {
    if a == [] {
      assert a + b == b;
    } else {
      assert (a + b)[0] == a[0];
      assert (a + b)[1..] == a[1..] + b;
      CountAppend(a[1..], b, c);
    }
  }

  /** `replace(c, '')` works piecewise: removing from `a + b` is removing
      from `a`, then from `b`, so the kept characters stay in order. */
  lemma {:induction false} RemoveAllAppend(a: string, b: string, c: char)
    ensures RemoveAll(a + b, c) == RemoveAll(a, c) + RemoveAll(b, c)
  {
    if a == [] {
      assert a + b == b;
    } else {
      assert (a + b)[0] == a[0];
      assert (a + b)[1..] == a[1..] + b;
      RemoveAllAppend(a[1..], b, c);
    }
  }

  /** On one character, `replace(c, '')` drops it exactly when it is `c`. */
  lemma RemoveAllChar(x: char, c: char)
    ensures RemoveAll([x], c) == if x == c then [] else [x]
  {
    assert [x][1..] == [];
  }

  /** A text without `c` is left as it is. */
  lemma {:induction false} RemoveAllAbsent(s: string, c: char)
    requires c !in s
    ensures RemoveAll(s, c) == s
  {
    if s != [] {
      assert s[0] != c && c !in s[1..];
      RemoveAllAbsent(s[1..], c);
    }
  }

  /** Python's `s.lower()` restricted to ASCII letters. */
  function Lower(s: string): (r: string)
    ensures |r| == |s|
    ensures forall i :: 0 <= i < |s| ==> r[i] == LowerChar(s[i])
  {
    if s == [] then [] else [LowerChar(s[0])] + Lower(s[1..])
  }

  function LowerChar(c: char): (r: char)
    ensures 'A' <= c <= 'Z' ==> 'a' <= r <= 'z'
    ensures !('A' <= c <= 'Z') ==> r == c
  {
    if 'A' <= c <= 'Z' then (c as int + 32) as char else c
  }

  /** The non-whitespace characters of `s`, in order. */
  function Visible(s: string): string {
    if s == [] then [] else (if IsSpace(s[0]) then [] else [s[0]]) + Visible(s[1..])
  }

  lemma {:induction false} VisibleAppend(a: string, b: string)
    ensures Visible(a + b) == Visible(a) + Visible(b)
  {
    if a == [] {
      assert a + b == b;
    } else {
      assert (a + b)[0] == a[0];
      assert (a + b)[1..] == a[1..] + b;
      VisibleAppend(a[1..], b);
    }
  }

  lemma {:induction false} VisibleAllSpace(s: string)
    requires AllSpace(s)
    ensures Visible(s) == []
  {
    if s != [] {
      VisibleAllSpace(s[1..]);
    }
  }

  /** Stripping loses only whitespace. */
  lemma StripKeepsVisible(s: string)
    ensures Visible(Strip(s)) == Visible(s)
  {
    var k := LeadingSpaces(s);
    var r := Strip(s);
    assert s == s[..k] + r + s[k + |r|..];
    assert AllSpace(s[..k]);
    VisibleAppend(s[..k] + r, s[k + |r|..]);
    VisibleAppend(s[..k], r);
    VisibleAllSpace(s[..k]);
    VisibleAllSpace(s[k + |r|..]);
  }
}
