/** parse_lot_row (parser.py:137-164). */
module LotParser {
  import opened Wrappers
  import opened Text
  import opened Segments
  import opened Records

  /** The word "street" in any ASCII letter case. */
  predicate IsStreetWord(w: string) {
    |w| == 6 && forall i :: 0 <= i < 6 ==> w[i] == "street"[i] || w[i] == "STREET"[i]
  }

  /** The `.lower() == 'street'` test of parser.py:154 is a case-blind
      comparison with "street". */
  lemma StreetTestIsCaseBlind(w: string)
    ensures Lower(w) == "street" <==> IsStreetWord(w)
  {
    var lw := Lower(w);
    if |w| == 6 {
      forall i | 0 <= i < 6
        ensures lw[i] == "street"[i] <==> w[i] == "street"[i] || w[i] == "STREET"[i]
      {
        UpperOf(i);
        LowersTo(w[i], "street"[i], "STREET"[i]);
      }
      if IsStreetWord(w) {
        assert lw == "street";
      }
    }
  }

  /** The upper-case "STREET" is the lower-case one shifted by 32. */
  lemma UpperOf(i: nat)
    requires i < 6
    ensures 'a' <= "street"[i] <= 'z'
    ensures "STREET"[i] as int == "street"[i] as int - 32
  {
  }

  /** One letter lowers to `lower` exactly when it is `lower` or `upper`. */
  lemma LowersTo(c: char, lower: char, upper: char)
    requires 'a' <= lower <= 'z' && upper as int == lower as int - 32
    ensures LowerChar(c) == lower <==> c == lower || c == upper
  {
  }

  /** Address and unit from the second and third segments (parser.py:150-159):
      `items[1]` is the address; a third segment that reads "street" is
      appended to it, any other third segment is the unit. */
  function AddressAndUnit(items: seq<string>): (r: (string, string))
    ensures |items| <= 1 ==> r == ("", "")
    ensures |items| == 2 ==> r == (items[1], "")
    ensures |items| >= 3 && Lower(Strip(items[2])) == "street" ==> r == (items[1] + " " + items[2], "")
    ensures |items| >= 3 && Lower(Strip(items[2])) != "street" ==> r == (items[1], items[2])
  {
    if |items| < 2 then ("", "")
    else
      var address := items[1];
      if |items| < 3 then (address, "")
      else if Lower(Strip(items[2])) == "street" then (address + " " + items[2], "")
      else (address, items[2])
  }

  /** parse_lot_row on the segments of its line: fixed sub-slices of the
      first segment, which must reach index 30. */
  function LotFromSegments(items: seq<string>, key: Key): (r: Result<LotRecord, ParseError>)
    ensures r.Err? <==> items == [] || |items[0]| <= 30
    ensures r.Err? ==> r.error == (if items == [] then NoSegments else ShortFirstSegment)
    ensures r.Ok? ==> r.value.uniqueKey == key
    ensures r.Ok? ==> r.value.block == LStripChar(items[0][18..23], '0')
    ensures r.Ok? ==> r.value.lot == LStripChar(items[0][23..27], '0')
    ensures r.Ok? ==> r.value.block == [] || r.value.block[0] != '0'
    ensures r.Ok? ==> r.value.lot == [] || r.value.lot[0] != '0'
    ensures r.Ok? ==> r.value.borough == [items[0][17]] && r.value.easement == [items[0][27]]
    ensures r.Ok? ==> r.value.partialLot == [items[0][28]] && r.value.airRights == [items[0][29]]
    ensures r.Ok? ==> r.value.subterraneanRights == [items[0][30]] && |r.value.propertyType| <= 2
    ensures r.Ok? ==> r.value.propertyType == Slice(items[0], 31, 33)
    ensures r.Ok? && |items[0]| > 33 ==> r.value.streetNumber == items[0][33..]
    ensures r.Ok? && |items[0]| <= 33 ==> r.value.streetNumber == []
    ensures r.Ok? ==> (r.value.address, r.value.unit) == AddressAndUnit(items)
  {
    if items == [] then Err(NoSegments)
    else
      var first := items[0];
      if |first| <= 30 then Err(ShortFirstSegment)
      else
        var (address, unit) := AddressAndUnit(items);
        var block := Slice(first, 18, 23);
        var lot := Slice(first, 23, 27);
        var propertyType := Slice(first, 31, 33);
        assert block == first[18..23] && lot == first[23..27];
        var streetNumber := Slice(first, 33, |first|);
        assert |propertyType| <= 2;
        assert streetNumber == if |first| > 33 then first[33..] else [];
        Ok(LotRecord(
          key, [first[17]], LStripChar(block, '0'), LStripChar(lot, '0'),
          [first[27]], [first[28]], [first[29]], [first[30]], propertyType,
          streetNumber, address, unit))
  }

  /** parse_lot_row: `split_row(row)`, then the segment fields. */
  function ParseLot(row: string, key: Key): (r: Result<LotRecord, ParseError>)
    ensures r == Err(NoSegments) <==> AllSpace(row)
    ensures r == LotFromSegments(SplitRow(row), key)
  {
    SegmentsExist(row);
    LotFromSegments(SplitRow(row), key)
  }

  /** On a line, the third segment is already stripped, so "street" in any
      case is joined to the address and leaves the unit empty; any other
      third segment becomes the unit. */
  lemma LotStreetSegment(row: string, key: Key)
    requires ParseLot(row, key).Ok? && |SplitRow(row)| >= 3
    ensures var l := ParseLot(row, key).value;
      var items := SplitRow(row);
      if IsStreetWord(items[2]) then l.address == items[1] + " " + items[2] && l.unit == ""
      else l.address == items[1] && l.unit == items[2]
  {
    var items := SplitRow(row);
    StripSegment(items[2]);
    StreetTestIsCaseBlind(items[2]);
  }
}
