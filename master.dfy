/** parse_master_row (parser.py:66-86): fixed slices of the line, the
    amount with its leading zeros dropped or replaced by "$-", and a
    modified date rebuilt from the tail of the line. */
module MasterParser {
  import opened Wrappers
  import opened Text
  import opened Records

  /** `row[59:76].lstrip('0')`, replaced by "$-" when what is left, with
      every '0' removed and stripped, is a lone ".". */
  function NormalizeAmount(raw: string): (r: string)
    ensures r != [] ==> r[0] != '0'
    ensures ZeroAmount(raw) ==> r == "$-"
    ensures !ZeroAmount(raw) ==>
      |r| <= |raw| && r == raw[|raw| - |r|..] && forall i :: 0 <= i < |raw| - |r| ==> raw[i] == '0'
  {
    SentinelExactlyForZero(raw);
    var amount := LStripChar(raw, '0');
    if Strip(RemoveAll(amount, '0')) == "." then "$-" else amount
  }

  /** An amount made of zeros: exactly one '.', and nothing else but '0'
      and whitespace. */
  predicate ZeroAmount(raw: string) {
    Count(raw, '.') == 1 && forall c :: c in raw ==> c == '0' || c == '.' || IsSpace(c)
  }

  /** The sentinel test of parser.py:77 holds exactly for zero amounts. */
  lemma {:induction false} SentinelExactlyForZero(raw: string)
    ensures Strip(RemoveAll(LStripChar(raw, '0'), '0')) == "." <==> ZeroAmount(raw)
  {
    RemoveAllAfterLStrip(raw);
    var t := RemoveAll(raw, '0');
    CountRemoveAll(raw, '0', '.');
    StripIsDot(t);
    assert (forall c :: c in t ==> c == '.' || IsSpace(c))
       <==> (forall c :: c in raw ==> c == '0' || c == '.' || IsSpace(c));
  }

  /** Dropping leading zeros first does not change the zero-free text. */
  lemma {:induction false} RemoveAllAfterLStrip(s: string)
    ensures RemoveAll(LStripChar(s, '0'), '0') == RemoveAll(s, '0')
  {
    if s != [] && s[0] == '0' {
      RemoveAllAfterLStrip(s[1..]);
      assert LStripChar(s, '0') == LStripChar(s[1..], '0');
      assert RemoveAll(s, '0') == RemoveAll(s[1..], '0');
    }
  }

  lemma {:induction false} CountRemoveAll(s: string, c: char, d: char)
    requires c != d
    ensures Count(RemoveAll(s, c), d) == Count(s, d)
  {
    if s != [] {
      CountRemoveAll(s[1..], c, d);
      CountAppend(if s[0] == c then [] else [s[0]], RemoveAll(s[1..], c), d);
    }
  }

  /** `t.strip() == '.'` exactly when `t` is one '.' padded with whitespace. */
  lemma StripIsDot(t: string)
    ensures Strip(t) == "." <==> Count(t, '.') == 1 && forall c :: c in t ==> c == '.' || IsSpace(c)
  {
    StripKeepsDots(t);
    if Strip(t) == "." {
      StripDotPadding(t);
    }
    if Count(t, '.') == 1 && (forall c :: c in t ==> c == '.' || IsSpace(c)) {
      DotPaddingStrips(t);
    }
  }

  /** Stripping removes no '.'. */
  lemma StripKeepsDots(t: string)
    ensures Count(t, '.') == Count(Strip(t), '.')
  {
    var lo := LeadingSpaces(t);
    var r := Strip(t);
    var hi := lo + |r|;
    assert t == t[..lo] + r + t[hi..];
    assert AllSpace(t[..lo]);
    NoDotInSpace(t[..lo]);
    NoDotInSpace(t[hi..]);
    CountAppend(t[..lo] + r, t[hi..], '.');
    CountAppend(t[..lo], r, '.');
  }

  lemma StripDotPadding(t: string)
    requires Strip(t) == "."
    ensures forall c :: c in t ==> c == '.' || IsSpace(c)
  {
    var lo := LeadingSpaces(t);
    var hi := lo + 1;
    forall c | c in t
      ensures c == '.' || IsSpace(c)
    {
      var i :| 0 <= i < |t| && t[i] == c;
      if i >= hi {
        assert t[hi..][i - hi] == c;
      }
    }
  }

  lemma DotPaddingStrips(t: string)
    requires Count(t, '.') == 1 && forall c :: c in t ==> c == '.' || IsSpace(c)
    ensures Strip(t) == "."
  {
    StripKeepsDots(t);
    var r := Strip(t);
    var lo := LeadingSpaces(t);
    assert r != [];
    assert r[0] == t[lo] && r[|r| - 1] == t[lo + |r| - 1];
    assert r[0] == '.' && r[|r| - 1] == '.';
  }

  lemma NoDotInSpace(s: string)
    requires AllSpace(s)
    ensures Count(s, '.') == 0
  {
    assert !IsSpace('.');
    assert '.' !in s;
  }

  /** The two digits, the middle chunk and the four digits parser.py:80-83
      assembles, or an error when the space-free line has fewer than two
      '/'. */
  function ModifiedDate(row: string): (r: Result<string, ParseError>)
    ensures r.Err? <==> Count(RemoveAll(row, ' '), '/') < 2
    ensures r.Err? ==> r.error == TooFewSlashes
    ensures r.Ok? ==> Count(r.value, '/') == 2
  {
    var chunks := SplitOn(RemoveAll(row, ' '), '/');
    if |chunks| < 3 then Err(TooFewSlashes)
    else
      var c := chunks[|chunks| - 3..];
      var date := Slice(c[0], -2, |c[0]|) + "/" + c[1] + "/" + Slice(c[2], 0, 4);
      DateSlashes(Slice(c[0], -2, |c[0]|), c[1], Slice(c[2], 0, 4));
      Ok(date)
  }

  lemma DateSlashes(a: string, b: string, c: string)
    requires '/' !in a && '/' !in b && '/' !in c
    ensures Count(a + "/" + b + "/" + c, '/') == 2
  {
    CountAppend(a + "/" + b + "/", c, '/');
    CountAppend(a + "/" + b, "/", '/');
    CountAppend(a + "/", b, '/');
    CountAppend(a, "/", '/');
  }

  /** Where the modified date comes from: the space-free line ends with
      three '/'-free fields `a/b/c` (preceded by nothing or by a '/'), and
      the date is the last two characters of `a`, then `b`, then the first
      four characters of `c`, joined by '/'. */
  lemma ModifiedDateSource(row: string) returns (p: string, a: string, b: string, c: string)
    requires Count(RemoveAll(row, ' '), '/') >= 2
    ensures RemoveAll(row, ' ') == p + a + "/" + b + "/" + c
    ensures p == [] || p[|p| - 1] == '/'
    ensures '/' !in a && '/' !in b && '/' !in c
    ensures ModifiedDate(row) == Ok(Slice(a, |a| - 2, |a|) + "/" + b + "/" + Slice(c, 0, 4))
  {
    var t := RemoveAll(row, ' ');
    var chunks := SplitOn(t, '/');
    var n := |chunks|;
    JoinSplitOn(t, '/');
    a, b, c := chunks[n - 3], chunks[n - 2], chunks[n - 1];
    JoinLastThree(chunks, '/');
    if n == 3 {
      p := [];
    } else {
      p := Join(chunks[..n - 3], '/') + "/";
    }
  }

  lemma {:induction false} JoinLastThree(parts: seq<string>, c: char)
    requires |parts| >= 3
    ensures var n := |parts|;
      Join(parts, c) == (if n == 3 then [] else Join(parts[..n - 3], c) + [c])
                        + parts[n - 3] + [c] + parts[n - 2] + [c] + parts[n - 1]
  {
    var n := |parts|;
    if n == 3 {
      assert parts[1..][1..] == [parts[2]];
      assert Join(parts[1..], c) == parts[1] + [c] + parts[2];
    } else if n == 4 {
      JoinLastThree(parts[1..], c);
      assert parts[..1] == [parts[0]];
    } else {
      JoinLastThree(parts[1..], c);
      assert parts[1..][..n - 4] == parts[1..n - 3];
      assert parts[..n - 3][1..] == parts[1..n - 3];
    }
  }

  /** parse_master_row: `IndexError` when the line has no index 40, or when
      the modified date cannot be rebuilt. */
  function ParseMaster(row: string): (r: Result<MasterRecord, ParseError>)
    ensures r.Err? <==> |row| <= 40 || Count(RemoveAll(row, ' '), '/') < 2
    ensures r.Err? ==> r.error == (if |row| <= 40 then ShortLine else TooFewSlashes)
    ensures r.Ok? ==> r.value.uniqueKey == Slice(row, 55, 76)
    ensures r.Ok? ==> r.value.uniqueKey == Slice(row, 55, 59) + Slice(row, 59, 76)
    ensures r.Ok? ==> r.value.dateFile == row[17..27] && r.value.crfn == row[27..40]
    ensures r.Ok? ==> r.value.recordedBorough == [row[40]]
    ensures r.Ok? ==> r.value.docType == Slice(row, 41, 49) && r.value.documentDate == Slice(row, 49, 59)
    ensures r.Ok? ==> r.value.recordedDate == Slice(row, 76, 86)
    ensures r.Ok? ==> r.value.documentAmount == NormalizeAmount(Slice(row, 59, 76))
    ensures r.Ok? ==> ModifiedDate(row) == Ok(r.value.modifiedDate)
  {
    if |row| <= 40 then Err(ShortLine)
    else
      match ModifiedDate(row)
      case Err(e) => Err(e)
      case Ok(modified) =>
        SliceSplit(row, 55, 59, 76);
        Ok(MasterRecord(
          Slice(row, 55, 76), Slice(row, 17, 27), Slice(row, 27, 40), [row[40]],
          Slice(row, 41, 49), Slice(row, 49, 59), NormalizeAmount(Slice(row, 59, 76)),
          Slice(row, 76, 86), modified))
  }

  /** Adjacent non-negative slices join up: the key `row[55:76]` is
      `row[55:59]` followed by the raw amount `row[59:76]`. */
  lemma SliceSplit(s: string, i: nat, j: nat, k: nat)
    requires i <= j <= k
    ensures Slice(s, i, k) == Slice(s, i, j) + Slice(s, j, k)
  {
  }

  /** parser.py:74-78 on "0000012345.00": the leading zeros go and the
      sentinel is not applied. */
  lemma AmountExample(raw: string)
    requires raw == "0000012345.00"
    ensures NormalizeAmount(raw) == "12345.00"
  {
    var digits := raw[5..];
    LStripZeros(raw[..5], digits);
    assert raw[..5] + digits == raw;
    var t := RemoveAll(digits, '0');
    assert t[0] == '1';
    StripNotDot(t);
  }

  lemma StripNotDot(t: string)
    requires t != [] && t[0] == '1'
    ensures Strip(t) != "."
  {
    if Strip(t) == "." {
      StripDotPadding(t);
    }
  }

  lemma {:induction false} LStripZeros(zeros: string, s: string)
    requires forall i :: 0 <= i < |zeros| ==> zeros[i] == '0'
    requires s != [] && s[0] != '0'
    ensures LStripChar(zeros + s, '0') == s
  {
    if zeros != [] {
      assert (zeros + s)[1..] == zeros[1..] + s;
      LStripZeros(zeros[1..], s);
    }
  }

  /** An all-zero amount becomes the sentinel. */
  lemma ZeroAmountExample(raw: string)
    requires raw == "00000000000000.00"
    ensures NormalizeAmount(raw) == "$-"
  {
    var tail := raw[14..];
    LStripZeros(raw[..14], tail);
    assert raw[..14] + tail == raw;
    DotZeroZero(tail);
  }

  lemma DotZeroZero(tail: string)
    requires tail == ".00"
    ensures Strip(RemoveAll(tail, '0')) == "."
  {
    assert RemoveAll(tail[2..], '0') == [];
    assert RemoveAll(tail[1..], '0') == [];
    assert RemoveAll(tail, '0') == ['.'];
    assert LeadingSpaces(['.']) == 0;
  }
}
