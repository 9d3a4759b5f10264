/** `split_row` (parser.py:10): `re.split('\s{3}', row)` followed by
    stripping every piece and dropping the empty ones. */
module Segments {
  import opened Text

  /** A run of three whitespace characters starts at index `i` of `s`. */
  predicate TripleAt(s: string, i: nat)
    requires i + 3 <= |s|
  {
    IsSpace(s[i]) && IsSpace(s[i + 1]) && IsSpace(s[i + 2])
  }

  /** No run of three whitespace characters occurs anywhere in `s`. */
  predicate NoTriple(s: string) {
    forall i: nat :: i + 3 <= |s| ==> !TripleAt(s, i)
  }

  /** The pieces `re.split('\s{3}', s)` returns: the scanner tries a match
      at each position from the left; a match consumes exactly three
      whitespace characters and closes the current piece, otherwise one
      character joins the current piece. */
  function Pieces(s: string): (parts: seq<string>)
    ensures |parts| >= 1
    ensures |parts[0]| <= |s| && parts[0] == s[..|parts[0]|]
  {
    if |s| >= 3 && TripleAt(s, 0) then [[]] + Pieces(s[3..])
    else if s == [] then [[]]
    else
      var rest := Pieces(s[1..]);
      assert [s[0]] + rest[0] == s[..1 + |rest[0]|];
      [[s[0]] + rest[0]] + rest[1..]
  }

  /** `re.split` cuts at the leftmost run of three whitespace characters:
      no run starts inside the first piece; with one piece, that piece is
      the whole text and holds no run at all; with more, a run starts right
      after the first piece and the other pieces are those of the text
      after that run. By induction these fix every piece. */
  lemma {:induction false} PiecesFirstCut(s: string)
    ensures var p := Pieces(s);
      (forall j :: 0 <= j < |p[0]| && j + 3 <= |s| ==> !TripleAt(s, j)) &&
      (|p| == 1 ==> p[0] == s && NoTriple(s)) &&
      (|p| > 1 ==> |p[0]| + 3 <= |s| && TripleAt(s, |p[0]|) && p[1..] == Pieces(s[|p[0]| + 3..]))
  {
    if |s| >= 3 && TripleAt(s, 0) {
      assert Pieces(s)[1..] == Pieces(s[3..]);
    } else if s != [] {
      var rest := Pieces(s[1..]);
      PiecesFirstCut(s[1..]);
      var p := Pieces(s);
      assert p[0] == [s[0]] + rest[0] && p[1..] == rest[1..];
      forall j | 0 <= j < |p[0]| && j + 3 <= |s|
        ensures !TripleAt(s, j)
      {
        if j > 0 {
          assert !TripleAt(s[1..], j - 1);
          assert s[1..][j - 1] == s[j] && s[1..][j] == s[j + 1] && s[1..][j + 1] == s[j + 2];
        }
      }
      if |rest| == 1 {
        assert p[0] == [s[0]] + s[1..] == s;
        forall j: nat | j + 3 <= |s|
          ensures !TripleAt(s, j)
        {
          if j > 0 {
            assert !TripleAt(s[1..], j - 1);
          }
        }
      } else {
        var n := |rest[0]|;
        assert TripleAt(s[1..], n);
        assert s[1..][n] == s[n + 1] && s[1..][n + 1] == s[n + 2] && s[1..][n + 2] == s[n + 3];
        assert s[1..][n + 3..] == s[n + 4..];
      }
    }
  }

  /** A line without a run of three whitespace characters is one segment:
      its stripped text. Single and double spaces never cut. */
  lemma OneSegment(row: string)
    requires NoTriple(row) && !AllSpace(row)
    ensures SplitRow(row) == [Strip(row)]
  {
    PiecesFirstCut(row);
    var p := Pieces(row);
    assert p == [row];
    assert Trimmed(p) == [Strip(row)] + Trimmed([]);
  }

  /** The pieces joined with the separators between them. */
  function Interleave(parts: seq<string>, seps: seq<string>): string
    requires |parts| == |seps| + 1
  {
    if seps == [] then parts[0] else parts[0] + seps[0] + Interleave(parts[1..], seps[1..])
  }

  /** The other half of `re.split`: joined with the three-whitespace runs
      they were cut at, the pieces give the text back. */
  lemma {:induction false} PiecesRebuild(s: string) returns (seps: seq<string>)
    ensures |seps| + 1 == |Pieces(s)|
    ensures forall k :: 0 <= k < |seps| ==> |seps[k]| == 3 && AllSpace(seps[k])
    ensures Interleave(Pieces(s), seps) == s
    decreases |s|
  {
    PiecesFirstCut(s);
    var p := Pieces(s);
    if |p| == 1 {
      seps := [];
    } else {
      var n := |p[0]|;
      var sep := s[n..n + 3];
      var more := PiecesRebuild(s[n + 3..]);
      seps := [sep] + more;
      assert TripleAt(s, n);
      assert sep[0] == s[n] && sep[1] == s[n + 1] && sep[2] == s[n + 2];
      assert AllSpace(sep);
      assert seps[0] == sep && seps[1..] == more;
      forall k | 0 <= k < |seps|
        ensures |seps[k]| == 3 && AllSpace(seps[k])
      {
        if k > 0 {
          assert seps[k] == more[k - 1];
        }
      }
      assert Interleave(p[1..], more) == s[n + 3..];
      assert Interleave(p, seps) == p[0] + sep + s[n + 3..];
      assert p[0] == s[..n];
      assert s == s[..n] + sep + s[n + 3..];
    }
  }

  /** The stripped, non-empty pieces, in order: every item is a segment. */
  function Trimmed(pieces: seq<string>): (items: seq<string>)
    ensures |items| <= |pieces|
    ensures forall k :: 0 <= k < |items| ==> IsSegment(items[k])
  {
    if pieces == [] then []
    else
      var t := Strip(pieces[0]);
      (if t == [] then [] else [t]) + Trimmed(pieces[1..])
  }

  /** `split_row(row)`: at most one segment per piece of `re.split`, and
      no segment is empty or starts or ends with whitespace. */
  function SplitRow(row: string): (items: seq<string>)
    ensures |items| <= |Pieces(row)|
    ensures forall k :: 0 <= k < |items| ==> IsSegment(items[k])
  {
    Trimmed(Pieces(row))
  }

  /** A segment: non-empty, with no whitespace at either end. */
  predicate IsSegment(t: string) {
    t != [] && !IsSpace(t[0]) && !IsSpace(t[|t| - 1])
  }

  /** The text of a list of strings laid end to end. */
  function Concat(parts: seq<string>): string {
    if parts == [] then [] else parts[0] + Concat(parts[1..])
  }

  lemma ConcatCons(x: string, xs: seq<string>)
    ensures Concat([x] + xs) == x + Concat(xs)
  {
    assert ([x] + xs)[1..] == xs;
  }

  /** Splitting loses only whitespace: the segments, laid end to end, hold
      exactly the non-whitespace characters of the line, in line order. */
  lemma SegmentsKeepText(row: string)
    ensures Visible(Concat(SplitRow(row))) == Visible(row)
  {
    PiecesKeepText(row);
    TrimmedKeepText(Pieces(row));
  }

  lemma {:induction false} PiecesKeepText(s: string)
    ensures Visible(Concat(Pieces(s))) == Visible(s)
  {
    if |s| >= 3 && TripleAt(s, 0) {
      PiecesKeepText(s[3..]);
      assert Pieces(s) == [[]] + Pieces(s[3..]);
      ConcatCons([], Pieces(s[3..]));
      assert Concat(Pieces(s)) == Concat(Pieces(s[3..]));
      VisibleDropTriple(s);
    } else if s != [] {
      var rest := Pieces(s[1..]);
      PiecesKeepText(s[1..]);
      ConcatFirst(s[0], rest);
      VisibleAppend([s[0]], Concat(rest));
      assert s == [s[0]] + s[1..];
      VisibleAppend([s[0]], s[1..]);
    }
  }

  lemma VisibleDropTriple(s: string)
    requires |s| >= 3 && TripleAt(s, 0)
    ensures Visible(s) == Visible(s[3..])
  {
    assert s == s[..3] + s[3..];
    VisibleAppend(s[..3], s[3..]);
    assert AllSpace(s[..3]);
    VisibleAllSpace(s[..3]);
  }

  lemma ConcatFirst(c: char, rest: seq<string>)
    requires rest != []
    ensures Concat([[c] + rest[0]] + rest[1..]) == [c] + Concat(rest)
  {
    assert rest == [rest[0]] + rest[1..];
    ConcatCons(rest[0], rest[1..]);
    ConcatCons([c] + rest[0], rest[1..]);
  }

  lemma {:induction false} TrimmedKeepText(pieces: seq<string>)
    ensures Visible(Concat(Trimmed(pieces))) == Visible(Concat(pieces))
  {
    if pieces != [] {
      var t := Strip(pieces[0]);
      TrimmedKeepText(pieces[1..]);
      ConcatCons(pieces[0], pieces[1..]);
      assert pieces == [pieces[0]] + pieces[1..];
      VisibleAppend(pieces[0], Concat(pieces[1..]));
      StripKeepsVisible(pieces[0]);
      if t == [] {
        assert Trimmed(pieces) == Trimmed(pieces[1..]);
      } else {
        ConcatCons(t, Trimmed(pieces[1..]));
        VisibleAppend(t, Concat(Trimmed(pieces[1..])));
      }
    }
  }

  /** The line holds a segment exactly when it holds a non-whitespace
      character. */
  lemma SegmentsExist(row: string)
    ensures SplitRow(row) != [] <==> !AllSpace(row)
  {
    SegmentsKeepText(row);
    VisibleNone(row);
    if SplitRow(row) != [] {
      FirstSegmentVisible(SplitRow(row));
    }
  }

  lemma FirstSegmentVisible(items: seq<string>)
    requires items != [] && IsSegment(items[0])
    ensures Visible(Concat(items)) != []
  {
    var first := items[0];
    ConcatCons(first, items[1..]);
    assert items == [first] + items[1..];
    VisibleAppend(first, Concat(items[1..]));
    assert Visible(first) == [first[0]] + Visible(first[1..]);
  }

  lemma {:induction false} VisibleNone(s: string)
    ensures Visible(s) == [] <==> AllSpace(s)
  {
    if s != [] {
      VisibleNone(s[1..]);
      assert AllSpace(s) <==> IsSpace(s[0]) && AllSpace(s[1..]);
    }
  }

  /** No segment contains a run of three whitespace characters: every such
      run in the line was a cut. */
  lemma SegmentsHaveNoTriple(row: string)
    ensures forall k :: 0 <= k < |SplitRow(row)| ==> NoTriple(SplitRow(row)[k])
  {
    PiecesHaveNoTriple(row);
    TrimmedHaveNoTriple(Pieces(row));
  }

  lemma {:induction false} PiecesHaveNoTriple(s: string)
    ensures forall k :: 0 <= k < |Pieces(s)| ==> NoTriple(Pieces(s)[k])
  {
    if |s| >= 3 && TripleAt(s, 0) {
      PiecesHaveNoTriple(s[3..]);
    } else if s != [] {
      var rest := Pieces(s[1..]);
      PiecesHaveNoTriple(s[1..]);
      var first := [s[0]] + rest[0];
      forall i: nat | i + 3 <= |first|
        ensures !TripleAt(first, i)
      {
        if i == 0 {
          assert rest[0] == s[1..][..|rest[0]|];
          assert first[1] == s[1] && first[2] == s[2];
        } else {
          assert !TripleAt(rest[0], i - 1);
        }
      }
    }
  }

  lemma {:induction false} TrimmedHaveNoTriple(pieces: seq<string>)
    requires forall k :: 0 <= k < |pieces| ==> NoTriple(pieces[k])
    ensures forall k :: 0 <= k < |Trimmed(pieces)| ==> NoTriple(Trimmed(pieces)[k])
  {
    if pieces != [] {
      TrimmedHaveNoTriple(pieces[1..]);
      var p := pieces[0];
      var t := Strip(p);
      var lo := LeadingSpaces(p);
      forall i: nat | i + 3 <= |t|
        ensures !TripleAt(t, i)
      {
        assert t[i] == p[lo + i] && t[i + 1] == p[lo + i + 1] && t[i + 2] == p[lo + i + 2];
        assert !TripleAt(p, lo + i);
      }
    }
  }

  /** Stripping a segment changes nothing. */
  lemma StripSegment(t: string)
    requires IsSegment(t)
    ensures Strip(t) == t
  {
    assert LeadingSpaces(t) == 0;
    assert !AllSpace(t);
  }
}
