/** parse_party_row (parser.py:89-134) with its inner clean_text. */
module PartyParser {
  import opened Wrappers
  import opened Text
  import opened Segments
  import opened Records

  /** clean_text: strip, then drop one leading and one trailing '|'. The
      result is the stripped text, shortened by at most one character at
      each end. */
  function CleanText(value: string): (r: string)
    ensures |r| <= |value|
    ensures |Strip(value)| - 2 <= |r| <= |Strip(value)|
    ensures r == Strip(value)[..|r|] || (|r| < |Strip(value)| && r == Strip(value)[1..|r| + 1])
    ensures (Strip(value) == [] || (Strip(value)[0] != '|' && Strip(value)[|Strip(value)| - 1] != '|'))
            ==> r == Strip(value)
    ensures var v := Strip(value);
      var a := if v != [] && v[0] == '|' then 1 else 0;
      var b := if |v| > a && v[|v| - 1] == '|' then 1 else 0;
      r == v[a..|v| - b]
  {
    var v := Strip(value);
    var v := if |v| > 0 && v[0] == '|' then v[1..] else v;
    if |v| > 0 && v[|v| - 1] == '|' then v[..|v| - 1] else v
  }

  /** Wrapping any text in '|' on both sides is undone by clean_text: the
      wrapped text has no whitespace at its ends, so exactly the two '|'
      are removed. */
  lemma CleanTextUnwraps(s: string)
    ensures CleanText("|" + s + "|") == s
  {
    var w := "|" + s + "|";
    assert w[0] == '|' && w[|w| - 1] == '|';
    assert !IsSpace('|');
    StripSegment(w);
    assert w[1..][..|w| - 2] == s;
  }

  /** `country_city[:2]` and `country_city[2:]`, each cleaned: a segment
      shorter than two characters is all country. */
  function CountryCity(segment: string): (r: (string, string))
    ensures |r.0| <= 2
    ensures |segment| >= 2 ==> r == (CleanText(segment[..2]), CleanText(segment[2..]))
    ensures |segment| < 2 ==> r == (CleanText(segment), "")
  {
    var head := Slice(segment, 0, 2);
    var tail := Slice(segment, 2, |segment|);
    assert |segment| >= 2 ==> head == segment[..2] && tail == segment[2..];
    assert |segment| < 2 ==> head == segment && tail == [];
    (CleanText(head), CleanText(tail))
  }

  /** `state_zip[:-5]` and `state_zip[-5:]`, each cleaned: the zip is the
      last five characters, and a segment shorter than five is all zip. */
  function StateZip(segment: string): (r: (string, string))
    ensures |r.1| <= 5
    ensures |segment| >= 5 ==> r == (CleanText(segment[..|segment| - 5]), CleanText(segment[|segment| - 5..]))
    ensures |segment| < 5 ==> r == ("", CleanText(segment))
  {
    var head := Slice(segment, 0, -5);
    var tail := Slice(segment, -5, |segment|);
    assert |segment| >= 5 ==> head == segment[..|segment| - 5] && tail == segment[|segment| - 5..];
    assert |segment| < 5 ==> head == [] && tail == segment;
    (CleanText(head), CleanText(tail))
  }

  /** The walk of parser.py:104-134 over the segments `items` with the
      moving index `i`. `Err` for `items[0]` of an empty list; `None` for
      fewer than three segments, and for the `IndexError` caught at
      parser.py:129. */
  function PartyFromSegments(partyType: string, items: seq<string>, key: Key)
    : (r: Result<Option<PartyRecord>, ParseError>)
    ensures r.Err? <==> items == []
    ensures r.Err? ==> r.error == NoSegments
    ensures 0 < |items| < 4 ==> r == Ok(None)
    ensures |items| >= 4 ==> r.Ok? && r.value.Some?
    ensures r.Ok? && r.value.Some? ==>
      var p := r.value.value;
      p.uniqueKey == key && p.partyType == partyType &&
      p.name == CleanText(Slice(items[0], 18, |items[0]|)) &&
      p.address1 == CleanText(items[1])
  {
    if items == [] then Err(NoSegments)
    else
      var name := CleanText(Slice(items[0], 18, |items[0]|));
      if |items| < 3 then Ok(None)
      else
        var i := 1;
        var address1 := CleanText(items[i]);
        var (i, address2) := if |items| > 4 then (i + 1, CleanText(items[i + 1])) else (i, "");
        var i := i + 1;
        if i >= |items| then Ok(None)
        else
          var (country, city) := CountryCity(items[i]);
          var i := i + 1;
          if i >= |items| then Ok(None)
          else
            var (state, zip) := StateZip(items[i]);
            Ok(Some(PartyRecord(key, partyType, name, address1, address2, country, city, state, zip)))
  }

  /** parse_party_row: `row[17]` is the party type, the rest comes from
      `split_row(row)`. A line of at least 18 characters raises only when it
      is all whitespace. */
  function ParseParty(row: string, key: Key): (r: Result<Option<PartyRecord>, ParseError>)
    ensures r.Err? <==> |row| <= 17 || AllSpace(row)
    ensures r.Ok? ==> r == PartyFromSegments([row[17]], SplitRow(row), key)
    ensures r.Ok? && r.value.Some? ==> r.value.value.uniqueKey == key && r.value.value.partyType == [row[17]]
  {
    if |row| <= 17 then Err(ShortLine)
    else
      SegmentsExist(row);
      PartyFromSegments([row[17]], SplitRow(row), key)
  }

  /** Segments after the fifth are never read. */
  lemma PartyIgnoresLaterSegments(partyType: string, items: seq<string>, more: seq<string>, key: Key)
    requires |items| >= 5
    ensures PartyFromSegments(partyType, items + more, key) == PartyFromSegments(partyType, items, key)
  {
    var all := items + more;
    assert all[0] == items[0] && all[1] == items[1] && all[2] == items[2] && all[3] == items[3] && all[4] == items[4];
    PartySegmentPositions(partyType, all, key);
    PartySegmentPositions(partyType, items, key);
    var p := PartyFromSegments(partyType, all, key).value.value;
    var q := PartyFromSegments(partyType, items, key).value.value;
    assert p == q;
  }

  /** Which segment each field comes from, by segment count: with four
      segments address2 is empty, country and city come from the third and
      state and zip from the fourth; with five or more address2 is the
      third and the rest move up by one. */
  lemma PartySegmentPositions(partyType: string, items: seq<string>, key: Key)
    requires |items| >= 4
    ensures var p := PartyFromSegments(partyType, items, key).value.value;
      var at := if |items| == 4 then 2 else 3;
      p.address2 == (if |items| == 4 then "" else CleanText(items[2])) &&
      (p.country, p.city) == CountryCity(items[at]) &&
      (p.state, p.zip) == StateZip(items[at + 1])
  {
  }
}
