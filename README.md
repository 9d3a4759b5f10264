# Fixed-width recording file parser, modelled in Dafny

`parser.py` reads a fixed-width property-recording file. The character at
index 16 of each line is its type code: `A` for a Master (document) record,
`P` for a Party record, `L` for a Lot record. Most fields of a Master
line are fixed slices of it. The amount loses its leading zeros, or becomes
`"$-"` when, apart from `'0'`s and whitespace, it is a single `'.'` (for
example `00000000000000.00`). The modified date is rebuilt from the last three `/`-separated
chunks of the line once its spaces are removed. Party and Lot lines are cut
into segments at runs of exactly three whitespace characters (`split_row`),
and their fields come from those segments. The run loop remembers the key of
the latest Master row and stamps it on later Party and Lot rows. It files
every row in one of three lists, and only non-empty lists are written out.

The model, module by module:

- `Text`: the Python string operations the parser relies on. These are
  slicing with negative and clamped bounds, `strip`, `lstrip('0')`,
  `replace(c, '')`, `split('/')`, `'/'.join`, and ASCII `lower`.
- `Segments`: `split_row`. It is an explicit left-to-right scanner for
  `re.split('\s{3}', …)`, followed by strip-and-drop-empty.
- `Records`: the three record kinds and the Python lists the parsers return
  (`Cell` is a `str` or the `None` key). It also holds the parse errors:
  each one is an `IndexError` of the source.
- `MasterParser`, `PartyParser`, `LotParser`: `parse_master_row`,
  `parse_party_row` (with its inner `clean_text`) and `parse_lot_row`.
- `Runner`: the loop of `run`.
  - `Dispatch` is one line's table lookup and parser call. `get_record_type`
    is its index-16 read.
  - `Stream` is the fold specification: the records the loop appends, in
    order.
  - `Run` is the loop itself. It keeps the source's three lists and its
    key variable, and it is proved equal to the fold.

An `IndexError` is an `Err` result. The loop does not catch it, so the whole
run fails. An unknown type code (the caught `KeyError`) and a Party line that
yields `None` produce nothing.

Three behaviours of the code are easy to misread, and the model keeps them
as written:

- A Party line with exactly three segments yields `None`. The state/zip
  read at parser.py:125 runs off the end of the segment list, and the
  `IndexError` is caught at parser.py:129. Only four or more segments give
  a record.
- Before the modified date is rebuilt, only `' '` is removed from the line
  (parser.py:81). Other whitespace, such as a trailing `'\n'`, stays in it.
- Malformed lines are not skipped. A Lot line whose first segment has no
  index 30 raises `IndexError`, and the run aborts. So does a Master line
  with no index 40 or fewer than two `'/'`, and any line without index 16
  (or 17 for a Party line).

## Model

| member | source | states |
|---|---|---|
| Text.Slice | parser.py:68-76 | Python slicing: never fails; equals `s[i..j]` for in-range bounds, counts negative bounds from the end, clamps out-of-range ones, is empty when bounds cross |
| Text.Bound | parser.py:83 | one slice bound: negative counts from the end, result clamped to `[0, n]` |
| Text.Strip | parser.py:10 | `strip()`: result has no whitespace at either end, is the contiguous part of the input after its leading whitespace, with only whitespace after it, and is empty exactly when the input is all whitespace |
| Text.StripKeepsVisible | parser.py:10 | stripping removes only whitespace: the non-whitespace characters are unchanged and in order |
| Text.LStripChar | parser.py:74 | `lstrip('0')`: the result is a suffix of the input, everything dropped is `'0'`, and the result does not start with `'0'` |
| Text.RemoveAll | parser.py:77 | `replace('0', '')`: the result is shorter by the number of occurrences of the character, does not contain it, and contains every other character of the input |
| Text.RemoveAllAppend | parser.py:77-81 | removing a character from `a + b` is removing it from `a`, then from `b`: the kept characters keep their order |
| Text.RemoveAllChar | parser.py:77-81 | on one character, removal drops it exactly when it is the removed character |
| Text.RemoveAllAbsent | parser.py:77-81 | a text without the character is unchanged |
| Text.SplitOn | parser.py:82 | `split('/')`: one more piece than separators, no piece holds the separator |
| Text.JoinSplitOn | parser.py:82-83 | joining the pieces of `split('/')` with `'/'` gives the text back |
| Text.Lower | parser.py:154 | ASCII `lower()`: same length, each character lowered |
| Segments.Trimmed | parser.py:10 | the comprehension `[x.strip() for x in … if x.strip()]`: no more items than pieces, and every item is a segment (non-empty, no whitespace at either end) |
| Segments.SplitRow | parser.py:10 | `split_row`: at most one segment per piece of `re.split`, and no segment is empty or starts or ends with whitespace |
| Segments.SegmentsKeepText | parser.py:10 | the segments, laid end to end, hold exactly the line's non-whitespace characters in line order |
| Segments.SegmentsHaveNoTriple | parser.py:10 | no segment contains a run of three whitespace characters: every such run, scanned left to right, was a cut |
| Segments.SegmentsExist | parser.py:10 | the line yields at least one segment exactly when it holds a non-whitespace character |
| Segments.StripSegment | parser.py:154 | a segment is already stripped, so stripping it again changes nothing |
| Segments.Pieces | parser.py:10 | `re.split('\s{3}', s)`: at least one piece, the first piece is a prefix of the line |
| Segments.PiecesFirstCut | parser.py:10 | the cut is at the leftmost three-whitespace run: none starts inside the first piece; a single piece is the whole line and the line has no such run; otherwise a run starts right after the first piece and the rest are the pieces of the text after it |
| Segments.PiecesRebuild | parser.py:10 | the pieces, joined with the three-whitespace separators they were cut at, give the line back |
| Segments.OneSegment | parser.py:10 | a line with some text and no three-whitespace run is one segment, its stripped text: single and double spaces never cut |
| Records.MasterCells | parser.py:85-86 | a Master row is a list of 10 entries, its own key first and `'A'` second |
| Records.PartyCells | parser.py:132-134 | a Party row is a list of 10 entries, the passed-in key (or `None`) first and `'P'` second |
| Records.LotCells | parser.py:161-164 | a Lot row is a list of 13 entries, the passed-in key (or `None`) first and `'L'` second |
| Records.Cells | parser.py:13-49 | every row has as many entries as its type has column names, and its type code at index 1 |
| MasterParser.NormalizeAmount | parser.py:74-78 | the amount never starts with `'0'`; a zero amount becomes `"$-"`; any other amount is the raw slice with its leading zeros (and only those) removed |
| MasterParser.SentinelExactlyForZero | parser.py:77 | the sentinel test holds exactly when the raw amount has exactly one `'.'` and otherwise only `'0'` and whitespace |
| MasterParser.AmountExample | parser.py:74-78 | `"0000012345.00"` becomes `"12345.00"` |
| MasterParser.ZeroAmountExample | parser.py:74-78 | `"00000000000000.00"` becomes `"$-"` |
| MasterParser.ModifiedDate | parser.py:80-83 | fails exactly when the space-free line has fewer than two `'/'`; otherwise the date contains exactly two `'/'` |
| MasterParser.ModifiedDateSource | parser.py:80-83 | the space-free line ends in three `'/'`-free fields `a/b/c`, and the date is the last two characters of `a`, then `/b/`, then the first four characters of `c` |
| MasterParser.ParseMaster | parser.py:66-86 | fails (`IndexError`) exactly when the line has no index 40 or too few `'/'`. Otherwise the key is `row[55:76]`, which is `row[55:59]` followed by the raw amount `row[59:76]`; date_file, crfn, borough, doc_type, document_date and recorded_date are `row[17:27]`, `row[27:40]`, `row[40]`, `row[41:49]`, `row[49:59]` and `row[76:86]`; the amount and the date are as above |
| PartyParser.CleanText | parser.py:90-99 | `clean_text`: the stripped value, minus its first character exactly when that is `'|'`, then minus its last exactly when that is `'|'`; never longer than the input, unchanged when it has no `'|'` at either end |
| PartyParser.CleanTextUnwraps | parser.py:90-99 | any text wrapped in `'|'` on both sides is given back unchanged by `clean_text` |
| PartyParser.CountryCity | parser.py:120-122 | country is the cleaned first two characters, city the cleaned rest; a segment shorter than two characters is all country |
| PartyParser.StateZip | parser.py:125-127 | zip is the cleaned last five characters, state the cleaned rest; a segment shorter than five characters is all zip |
| PartyParser.PartyFromSegments | parser.py:102-134 | `IndexError` exactly for an empty segment list; `None` for 1 to 3 segments; a record for 4 or more, carrying the passed key, with the name from `items[0][18:]` and address1 from the second segment |
| PartyParser.PartySegmentPositions | parser.py:109-127 | with 4 segments address2 is empty and country/city and state/zip come from segments 3 and 4; with 5 or more address2 is segment 3 and the others move up by one |
| PartyParser.PartyIgnoresLaterSegments | parser.py:109-127 | segments after the fifth do not change the record |
| PartyParser.ParseParty | parser.py:89-134 | fails exactly for a line without index 17 or with no non-whitespace character; otherwise the segment walk, with `row[17]` as the party type and the passed key |
| LotParser.StreetTestIsCaseBlind | parser.py:154 | `lower() == 'street'` holds exactly for "street" written in any mix of ASCII cases |
| LotParser.AddressAndUnit | parser.py:150-159 | one segment: both empty; two: address is segment 2; three or more: segment 3 reading "street" is appended to the address with a space, otherwise it is the unit |
| LotParser.LotFromSegments | parser.py:140-164 | fails exactly when there is no segment or the first segment has no index 30; otherwise it carries the passed key, block and lot are `items[0][18:23]` and `items[0][23:27]` without leading zeros, the borough and four flags are the single characters at 17 and 27-30, the property type is `items[0][31:33]`, the street number is `items[0][33:]` (empty for a short segment), and address and unit are as above |
| LotParser.ParseLot | parser.py:137-164 | the line's segments go to the field extraction above; the "no segment" failure happens exactly when the line is all whitespace |
| LotParser.LotStreetSegment | parser.py:150-159 | on a parsed line with 3 or more segments, a case-blind "street" third segment joins the address and leaves the unit empty; any other third segment is the unit |
| Runner.NextKey | parser.py:192-193 | the key after a record is the key of the run ending in that record: a Master record's own key, otherwise the key held before |
| Runner.File | parser.py:194-202 | `parser_list.append(result)`: the record joins the end of its own type's list, the other lists are unchanged, and the lists hold one row more |
| Runner.Tabulate | parser.py:194-202 | filing records in order: the three lists together hold exactly as many rows as there are records |
| Runner.Stream | parser.py:181-204 | the fold the loop is measured against: each line yields at most one record, so a run that succeeds has no more records than lines |
| Runner.Dispatch | parser.py:182-203 | a line without index 16 fails; an unknown type code gives nothing; for `A`, `P` and `L` the result is exactly the one of `parse_master_row`, `parse_party_row` or `parse_lot_row`: it fails with the parser's error when the parser fails, and otherwise holds the parser's record (nothing for a Party `None`); a record's type code is the line's index-16 character, a Party or Lot record carries the current key, a Master record's key is `row[55:76]` |
| Runner.Run | parser.py:174-204 | the loop over the lines, with three lists and a key variable, returns exactly the three lists the fold `Stream(Dispatch, lines, None)` files, or its first error |
| Runner.StreamIsStamped | parser.py:192-202 | every Party and Lot record a fold produces carries the key of the nearest Master record before it, or the starting key if there is none |
| Runner.RunStampsKeys | parser.py:175-202 | in a whole run, every Party and Lot row carries the nearest preceding Master row's key, or `None` if no Master row came first |
| Runner.StreamAppend | parser.py:181-204 | lines are handled in order: a run over `a + b` gives the records of `a`, then those of `b` read with the key `a` left behind; a failure in `a` stops the run |
| Runner.TablesInLineOrder | parser.py:192-202 | each list holds its own type's rows in line order: the lists for `a + b` are those for `a` with those for `b` appended |
| Runner.SkippedLineChangesNothing | parser.py:189-190 | a line that produces nothing leaves the lists and the key as they were: the run is the same without it |
| Runner.UnknownCodeIgnored | parser.py:185-204 | a line whose type code is not `A`, `P` or `L` is ignored wherever it stands |
| Runner.ShortLineAborts | parser.py:182 | a line without index 16 makes the whole run fail, with `ShortLine` unless an earlier line failed first |
| Runner.FailingLineAborts | parser.py:181-204 | the first line whose parse fails ends the run with that line's error; no later line is read |
| Runner.MalformedMasterAborts | parser.py:66-83 | a Master line without index 40 or with fewer than two `'/'`, after lines that parsed, makes the whole run fail with that error |
| Runner.MalformedLotAborts | parser.py:139-146 | a Lot line that its parser rejects, after lines that parsed, makes the whole run fail, always because its first segment has no index 30 |
| Runner.ShortPartyAborts | parser.py:101 | a Party line that ends at its type code, after lines that parsed, makes the whole run fail with `ShortLine` |
| Runner.WrittenTypes | parser.py:206-218 | a type's list is handed to the writer exactly when it is non-empty; no code other than `A`, `P`, `L` is ever written, and the written codes come in the order master, party, lot without repeats |

## Left out

- `write_to_csv` (parser.py:52-63): file output through Python's `csv`
  module, whose quoting rules are outside this model. Only the gate of
  parser.py:217 (`Runner.WrittenTypes`) is modelled.
- Opening and reading the file (parser.py:181), and the hard-coded path of
  parser.py:221-222. `Run` takes the lines, each with its own line ending.
- The output file names of `PARSERS` and the column names of `COLUMN_NAMES`.
  Only each type's width and type code are kept.
- Whitespace and case are ASCII only. `Text.IsSpace` is space, tab, line
  feed, carriage return, form feed and vertical tab. Python's `\s`,
  `strip()` and `lower()` also act on other Unicode characters.
- `re.split` is modelled only for the one pattern `\s{3}`, not as a regex
  engine.
- A Party line whose segment list is empty cannot reach the parser from the
  run loop, because its type code is not whitespace (`Segments.SegmentsExist`).
  Called directly, `PartyFromSegments` reports it as `NoSegments`, like the
  `IndexError` at parser.py:104.
