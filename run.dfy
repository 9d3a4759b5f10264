/** `run` (parser.py:174-218): the loop that routes each line by its type
    code, remembers the key of the latest Master row, and files every
    result in one of three lists. */
module Runner {
  import opened Wrappers
  import opened Text
  import opened Records
  import opened MasterParser
  import opened PartyParser
  import opened LotParser

  /** `master_parsed_rows`, `party_parsed_rows` and `lot_parsed_rows`. */
  datatype Tables = Tables(masters: seq<MasterRecord>, parties: seq<PartyRecord>, lots: seq<LotRecord>)

  /** The number of rows in the three lists together. */
  function Size(t: Tables): nat {
    |t.masters| + |t.parties| + |t.lots|
  }

  /** A Party or Lot record carries `key`; a Master record carries its own. */
  predicate Carries(rec: Record, key: Key) {
    match rec
    case Master(_) => true
    case Party(p) => p.uniqueKey == key
    case Lot(l) => l.uniqueKey == key
  }

  /** The key after `rec` has been filed (parser.py:192-193). */
  function NextKey(key: Key, rec: Record): (r: Key)
    ensures r == CurrentKey(key, [rec])
  {
    match rec
    case Master(m) => Some(m.uniqueKey)
    case _ => key
  }

  /** `PARSERS[get_record_type(row)][0](row, unique_key)`: the type code at
      index 16 picks the parser; an unknown code (the `KeyError` caught at
      parser.py:203) and a Party line that yields `None` produce nothing;
      every `IndexError` aborts. */
  function Dispatch(row: string, key: Key): (r: Result<Option<Record>, ParseError>)
    ensures |row| <= 16 ==> r == Err(ShortLine)
    ensures |row| > 16 && row[16] !in "APL" ==> r == Ok(None)
    ensures r.Ok? && r.value.None? ==> row[16] !in "AL"
    ensures r.Ok? && r.value.Some? ==> TypeCode(r.value.value) == row[16] && Carries(r.value.value, key)
    ensures r.Ok? && r.value.Some? && r.value.value.Master? ==> r.value.value.master.uniqueKey == Slice(row, 55, 76)
    ensures |row| > 16 && row[16] == 'A' ==>
      (r.Err? <==> ParseMaster(row).Err?) &&
      (r.Err? ==> r.error == ParseMaster(row).error) &&
      (r.Ok? ==> r.value == Some(Master(ParseMaster(row).value)))
    ensures |row| > 16 && row[16] == 'P' ==>
      (r.Err? <==> ParseParty(row, key).Err?) &&
      (r.Err? ==> r.error == ParseParty(row, key).error) &&
      (r.Ok? ==> (r.value.None? <==> ParseParty(row, key).value.None?)) &&
      (r.Ok? && r.value.Some? ==> r.value.value == Party(ParseParty(row, key).value.value))
    ensures |row| > 16 && row[16] == 'L' ==>
      (r.Err? <==> ParseLot(row, key).Err?) &&
      (r.Err? ==> r.error == ParseLot(row, key).error) &&
      (r.Ok? ==> r.value == Some(Lot(ParseLot(row, key).value)))
  {
    if |row| <= 16 then Err(ShortLine)
    else if row[16] == 'A' then
      match ParseMaster(row)
      case Err(e) => Err(e)
      case Ok(m) => Ok(Some(Master(m)))
    else if row[16] == 'P' then
      match ParseParty(row, key)
      case Err(e) => Err(e)
      case Ok(None) => Ok(None)
      case Ok(Some(p)) => Ok(Some(Party(p)))
    else if row[16] == 'L' then
      match ParseLot(row, key)
      case Err(e) => Err(e)
      case Ok(l) => Ok(Some(Lot(l)))
    else Ok(None)
  }

  /** `done` followed by the records of a result that may have failed. */
  function Prepend(done: seq<Record>, rest: Result<seq<Record>, ParseError>): Result<seq<Record>, ParseError> {
    match rest
    case Err(e) => Err(e)
    case Ok(s) => Ok(done + s)
  }

  /** What one pass of the loop body does with a line and the current key. */
  type Step = (string, Key) -> Result<Option<Record>, ParseError>

  /** The records the loop produces from `lines` when each line is handled
      by `step`, in the order it appends them, starting from `key`; the
      first failing line aborts. The run of parser.py is `Stream(Dispatch,
      lines, None)`. */
  function Stream(step: Step, lines: seq<string>, key: Key): (r: Result<seq<Record>, ParseError>)
    ensures r.Ok? ==> |r.value| <= |lines|
  {
    if lines == [] then Ok([])
    else
      match step(lines[0], key)
      case Err(e) => Err(e)
      case Ok(None) => Stream(step, lines[1..], key)
      case Ok(Some(rec)) => Prepend([rec], Stream(step, lines[1..], NextKey(key, rec)))
  }

  /** The key of the last Master record of `recs`, or `key` when there is
      none. */
  function CurrentKey(key: Key, recs: seq<Record>): Key {
    if recs == [] then key
    else if recs[|recs| - 1].Master? then Some(recs[|recs| - 1].master.uniqueKey)
    else CurrentKey(key, recs[..|recs| - 1])
  }

  /** Appending `rec` to the list of its type. */
  function File(t: Tables, rec: Record): (r: Tables)
    ensures Size(r) == Size(t) + 1
    ensures rec.Master? ==> r == Tables(t.masters + [rec.master], t.parties, t.lots)
    ensures rec.Party? ==> r == Tables(t.masters, t.parties + [rec.party], t.lots)
    ensures rec.Lot? ==> r == Tables(t.masters, t.parties, t.lots + [rec.lot])
  {
    match rec
    case Master(m) => t.(masters := t.masters + [m])
    case Party(p) => t.(parties := t.parties + [p])
    case Lot(l) => t.(lots := t.lots + [l])
  }

  /** The three lists that filing `recs` in order builds. */
  function Tabulate(recs: seq<Record>): (t: Tables)
    ensures Size(t) == |recs|
  {
    if recs == [] then Tables([], [], [])
    else File(Tabulate(recs[..|recs| - 1]), recs[|recs| - 1])
  }

  function Collect(r: Result<seq<Record>, ParseError>): Result<Tables, ParseError> {
    match r
    case Err(e) => Err(e)
    case Ok(s) => Ok(Tabulate(s))
  }

  /** The loop of parser.py:181-204 over the lines of the file. */
  method Run(lines: seq<string>) returns (r: Result<Tables, ParseError>)
    ensures r == Collect(Stream(Dispatch, lines, None))
  {
    var uniqueKey: Key := None;
    var masterParsedRows: seq<MasterRecord> := [];
    var partyParsedRows: seq<PartyRecord> := [];
    var lotParsedRows: seq<LotRecord> := [];
    ghost var done: seq<Record> := [];
    var i := 0;
    assert lines[i..] == lines;
    PrependNothing(Stream(Dispatch, lines, None));
    while i < |lines|
      invariant 0 <= i <= |lines|
      invariant Tables(masterParsedRows, partyParsedRows, lotParsedRows) == Tabulate(done)
      invariant Stream(Dispatch, lines, None) == Prepend(done, Stream(Dispatch, lines[i..], uniqueKey))
    {
      var row := lines[i];
      var result := Dispatch(row, uniqueKey);
      Advance(lines, i, uniqueKey, done);
      if result.Err? {
        return Err(result.error);
      }
      if result.value.Some? {
        var rec := result.value.value;
        FileLast(done, rec);
        match rec {
          case Master(m) =>
            uniqueKey := Some(m.uniqueKey);
            masterParsedRows := masterParsedRows + [m];
          case Party(p) =>
            partyParsedRows := partyParsedRows + [p];
          case Lot(l) =>
            lotParsedRows := lotParsedRows + [l];
        }
        done := done + [rec];
      }
      i := i + 1;
    }
    assert lines[i..] == [];
    assert done + [] == done;
    r := Ok(Tables(masterParsedRows, partyParsedRows, lotParsedRows));
  }

  /** One pass of the loop, seen on the fold: the line at `i` fails the
      run, adds nothing, or adds its record and moves the key on. */
  lemma Advance(lines: seq<string>, i: nat, key: Key, done: seq<Record>)
    requires i < |lines|
    ensures Dispatch(lines[i], key).Err? ==>
      Prepend(done, Stream(Dispatch, lines[i..], key)) == Err(Dispatch(lines[i], key).error)
    ensures Dispatch(lines[i], key) == Ok(None) ==>
      Prepend(done, Stream(Dispatch, lines[i..], key)) == Prepend(done, Stream(Dispatch, lines[i + 1..], key))
    ensures Dispatch(lines[i], key).Ok? && Dispatch(lines[i], key).value.Some? ==>
      var rec := Dispatch(lines[i], key).value.value;
      Prepend(done, Stream(Dispatch, lines[i..], key)) ==
        Prepend(done + [rec], Stream(Dispatch, lines[i + 1..], NextKey(key, rec)))
  {
    assert lines[i..][0] == lines[i] && lines[i..][1..] == lines[i + 1..];
    var d := Dispatch(lines[i], key);
    if d.Ok? && d.value.Some? {
      PrependTwice(done, [d.value.value], Stream(Dispatch, lines[i + 1..], NextKey(key, d.value.value)));
    }
  }

  lemma PrependNothing(r: Result<seq<Record>, ParseError>)
    ensures Prepend([], r) == r
  {
    if r.Ok? {
      assert [] + r.value == r.value;
    }
  }

  lemma FileLast(done: seq<Record>, rec: Record)
    ensures Tabulate(done + [rec]) == File(Tabulate(done), rec)
  {
    assert (done + [rec])[..|done|] == done;
  }

  /** The key a run carries after `[rec] + recs` is the one it carries
      after `recs` once `rec` has set it. */
  lemma {:induction false} CurrentKeyCons(key: Key, rec: Record, recs: seq<Record>)
    ensures CurrentKey(key, [rec] + recs) == CurrentKey(NextKey(key, rec), recs)
  {
    if recs != [] {
      assert ([rec] + recs)[..|recs|] == [rec] + recs[..|recs| - 1];
      CurrentKeyCons(key, rec, recs[..|recs| - 1]);
    } else {
      assert [rec] + recs == [rec];
      assert [rec][..0] == [];
    }
  }

  /** Every record of a run is stamped correctly: each Party and Lot record
      carries the key of the nearest Master record before it, or the
      starting key (`None` for a whole run) when there is none. */
  predicate Stamped(key: Key, recs: seq<Record>) {
    forall j :: 0 <= j < |recs| ==> Carries(recs[j], CurrentKey(key, recs[..j]))
  }

  /** A step that stamps each record it makes with the key it is given. */
  ghost predicate StampsWithKey(step: Step) {
    forall row, key :: step(row, key).Ok? && step(row, key).value.Some? ==> Carries(step(row, key).value.value, key)
  }

  lemma {:induction false} StreamIsStamped(step: Step, lines: seq<string>, key: Key)
    requires StampsWithKey(step)
    ensures Stream(step, lines, key).Ok? ==> Stamped(key, Stream(step, lines, key).value)
  {
    if lines != [] && Stream(step, lines, key).Ok? {
      match step(lines[0], key)
      case Ok(None) =>
        StreamIsStamped(step, lines[1..], key);
      case Ok(Some(rec)) =>
        var k := NextKey(key, rec);
        StreamIsStamped(step, lines[1..], k);
        var rest := Stream(step, lines[1..], k).value;
        var s := [rec] + rest;
        assert Stream(step, lines, key).value == s;
        forall j | 0 <= j < |s|
          ensures Carries(s[j], CurrentKey(key, s[..j]))
        {
          if j > 0 {
            assert s[..j] == [rec] + rest[..j - 1];
            CurrentKeyCons(key, rec, rest[..j - 1]);
            assert s[j] == rest[j - 1];
          } else {
            assert s[..j] == [];
          }
        }
    }
  }

  /** A whole run: every Party and Lot row carries the key of the nearest
      Master row above it, or `None` when there is none. */
  lemma RunStampsKeys(lines: seq<string>)
    requires Stream(Dispatch, lines, None).Ok?
    ensures Stamped(None, Stream(Dispatch, lines, None).value)
  {
    StreamIsStamped(Dispatch, lines, None);
  }

  /** What running `b` after records `s` gives, `key` being the key the
      run started with. */
  function Continue(step: Step, s: seq<Record>, b: seq<string>, key: Key): Result<seq<Record>, ParseError> {
    Prepend(s, Stream(step, b, CurrentKey(key, s)))
  }

  /** `Continue` after a result that may have failed. */
  function Then(step: Step, r: Result<seq<Record>, ParseError>, b: seq<string>, key: Key): Result<seq<Record>, ParseError> {
    match r
    case Err(e) => Err(e)
    case Ok(s) => Continue(step, s, b, key)
  }

  /** Lines are handled in order: the records of `a + b` are those of `a`
      followed by those of `b` read with the key `a` left behind; a failure
      in `a` ends the run before `b` is read. */
  lemma {:induction false} StreamAppend(step: Step, a: seq<string>, b: seq<string>, key: Key)
    ensures Stream(step, a + b, key) == Then(step, Stream(step, a, key), b, key)
  {
    if a == [] {
      assert a + b == b;
      PrependNothing(Stream(step, b, key));
    } else {
      assert (a + b)[0] == a[0] && (a + b)[1..] == a[1..] + b;
      match step(a[0], key)
      case Err(e) =>
      case Ok(None) =>
        StreamAppend(step, a[1..], b, key);
      case Ok(Some(rec)) =>
        var k := NextKey(key, rec);
        StreamAppend(step, a[1..], b, k);
        var x := Stream(step, a[1..], k);
        assert Stream(step, a, key) == Prepend([rec], x);
        assert Stream(step, a + b, key) == Prepend([rec], Then(step, x, b, k));
        if x.Ok? {
          CurrentKeyCons(key, rec, x.value);
          PrependTwice([rec], x.value, Stream(step, b, CurrentKey(k, x.value)));
        }
    }
  }

  lemma PrependTwice(x: seq<Record>, y: seq<Record>, r: Result<seq<Record>, ParseError>)
    ensures Prepend(x, Prepend(y, r)) == Prepend(x + y, r)
  {
    if r.Ok? {
      assert x + (y + r.value) == (x + y) + r.value;
    }
  }

  /** A line that produces nothing (an unknown type code, or a Party line
      with too few segments) changes neither the lists nor the key: the run
      is the same as without it. */
  lemma SkippedLineChangesNothing(a: seq<string>, line: string, b: seq<string>, key: Key)
    requires Stream(Dispatch, a, key).Ok?
    requires Dispatch(line, CurrentKey(key, Stream(Dispatch, a, key).value)) == Ok(None)
    ensures Stream(Dispatch, a + [line] + b, key) == Stream(Dispatch, a + b, key)
  {
    SkipLine(Dispatch, a, line, b, key);
  }

  lemma SkipLine(step: Step, a: seq<string>, line: string, b: seq<string>, key: Key)
    requires Stream(step, a, key).Ok?
    requires step(line, CurrentKey(key, Stream(step, a, key).value)) == Ok(None)
    ensures Stream(step, a + [line] + b, key) == Stream(step, a + b, key)
  {
    StreamAppend(step, a, [line] + b, key);
    StreamAppend(step, a, b, key);
    assert a + [line] + b == a + ([line] + b);
    assert ([line] + b)[1..] == b;
  }

  /** In particular a line whose type code is not 'A', 'P' or 'L' is
      ignored wherever it stands. */
  lemma UnknownCodeIgnored(a: seq<string>, line: string, b: seq<string>, key: Key)
    requires Stream(Dispatch, a, key).Ok?
    requires |line| > 16 && line[16] !in "APL"
    ensures Stream(Dispatch, a + [line] + b, key) == Stream(Dispatch, a + b, key)
  {
    SkippedLineChangesNothing(a, line, b, key);
  }

  /** A line too short to have a type code aborts the whole run, with
      `ShortLine` unless an earlier line already failed. */
  lemma ShortLineAborts(lines: seq<string>, i: nat, key: Key)
    requires i < |lines| && |lines[i]| <= 16
    ensures Stream(Dispatch, lines, key).Err?
    ensures Stream(Dispatch, lines[..i], key).Ok? ==> Stream(Dispatch, lines, key) == Err(ShortLine)
  {
    StreamAppend(Dispatch, lines[..i], lines[i..], key);
    assert lines[..i] + lines[i..] == lines;
    assert lines[i..][0] == lines[i];
  }

  /** The first line whose step fails aborts the run with that line's
      error: nothing after it is read. */
  lemma FailingLineAborts(step: Step, lines: seq<string>, i: nat, key: Key)
    requires i < |lines| && Stream(step, lines[..i], key).Ok?
    requires step(lines[i], CurrentKey(key, Stream(step, lines[..i], key).value)).Err?
    ensures Stream(step, lines, key) ==
      Err(step(lines[i], CurrentKey(key, Stream(step, lines[..i], key).value)).error)
  {
    StreamAppend(step, lines[..i], lines[i..], key);
    assert lines[..i] + lines[i..] == lines;
    assert lines[i..][0] == lines[i];
  }

  /** A Master line that `parse_master_row` rejects (no index 40, fewer
      than two '/'), reached after lines that all parsed, makes the whole
      run fail with that error. */
  lemma MalformedMasterAborts(lines: seq<string>, i: nat)
    requires i < |lines| && Stream(Dispatch, lines[..i], None).Ok?
    requires |lines[i]| > 16 && lines[i][16] == 'A' && ParseMaster(lines[i]).Err?
    ensures Stream(Dispatch, lines, None) == Err(ParseMaster(lines[i]).error)
  {
    FailingLineAborts(Dispatch, lines, i, None);
  }

  /** A Lot line that `parse_lot_row` rejects, reached after lines that all
      parsed, makes the whole run fail. Its type code is not whitespace, so
      the line has a segment and the failure is always the first segment
      lacking index 30. */
  lemma MalformedLotAborts(lines: seq<string>, i: nat)
    requires i < |lines| && Stream(Dispatch, lines[..i], None).Ok?
    requires |lines[i]| > 16 && lines[i][16] == 'L'
    requires ParseLot(lines[i], CurrentKey(None, Stream(Dispatch, lines[..i], None).value)).Err?
    ensures Stream(Dispatch, lines, None) == Err(ShortFirstSegment)
  {
    assert !IsSpace(lines[i][16]);
    assert !AllSpace(lines[i]);
    FailingLineAborts(Dispatch, lines, i, None);
  }

  /** A Party line that ends right after its type code has no index 17: the
      whole run fails with `ShortLine` once the lines before it parsed. */
  lemma ShortPartyAborts(lines: seq<string>, i: nat)
    requires i < |lines| && Stream(Dispatch, lines[..i], None).Ok?
    requires |lines[i]| == 17 && lines[i][16] == 'P'
    ensures Stream(Dispatch, lines, None) == Err(ShortLine)
  {
    FailingLineAborts(Dispatch, lines, i, None);
  }

  /** The lists of a run over `a + b` are those of `a` with those of `b`
      appended, list by list. */
  lemma {:induction false} TabulateAppend(s: seq<Record>, t: seq<Record>)
    ensures Tabulate(s + t) ==
      Tables(Tabulate(s).masters + Tabulate(t).masters,
             Tabulate(s).parties + Tabulate(t).parties,
             Tabulate(s).lots + Tabulate(t).lots)
  {
    if t == [] {
      assert s + t == s;
    } else {
      var u := t[..|t| - 1];
      TabulateAppend(s, u);
      assert (s + t)[..|s + t| - 1] == s + u;
      assert (s + t)[|s + t| - 1] == t[|t| - 1];
      var x := t[|t| - 1];
      assert Tabulate(s + t) == File(Tabulate(s + u), x);
      assert Tabulate(t) == File(Tabulate(u), x);
      FileAfterJoin(Tabulate(s), Tabulate(u), x);
    }
  }

  /** Filing after joining the lists is joining after filing. */
  lemma FileAfterJoin(a: Tables, b: Tables, x: Record)
    ensures File(Tables(a.masters + b.masters, a.parties + b.parties, a.lots + b.lots), x) ==
      Tables(a.masters + File(b, x).masters, a.parties + File(b, x).parties, a.lots + File(b, x).lots)
  {
    match x {
      case Master(m) => assert a.masters + b.masters + [m] == a.masters + (b.masters + [m]);
      case Party(p) => assert a.parties + b.parties + [p] == a.parties + (b.parties + [p]);
      case Lot(l) => assert a.lots + b.lots + [l] == a.lots + (b.lots + [l]);
    }
  }

  /** Each list holds the rows of its own type in line order: a run over
      `a + b` yields the lists of `a` with the lists of `b` appended. */
  lemma TablesInLineOrder(a: seq<string>, b: seq<string>)
    requires Stream(Dispatch, a, None).Ok?
    ensures var s := Stream(Dispatch, a, None).value;
      Collect(Stream(Dispatch, a + b, None)) ==
        match Stream(Dispatch, b, CurrentKey(None, s))
        case Err(e) => Err(e)
        case Ok(t) =>
          Ok(Tables(Tabulate(s).masters + Tabulate(t).masters,
                    Tabulate(s).parties + Tabulate(t).parties,
                    Tabulate(s).lots + Tabulate(t).lots))
  {
    var s := Stream(Dispatch, a, None).value;
    StreamAppend(Dispatch, a, b, None);
    assert Stream(Dispatch, a + b, None) == Prepend(s, Stream(Dispatch, b, CurrentKey(None, s)));
    if Stream(Dispatch, b, CurrentKey(None, s)).Ok? {
      TabulateAppend(s, Stream(Dispatch, b, CurrentKey(None, s)).value);
    }
  }

  /** The gate of parser.py:217: the type codes whose list is written, in
      the order master, party, lot; an empty list writes no file. */
  function WrittenTypes(t: Tables): (codes: seq<char>)
    ensures 'A' in codes <==> t.masters != []
    ensures 'P' in codes <==> t.parties != []
    ensures 'L' in codes <==> t.lots != []
    ensures forall i, j :: 0 <= i < j < |codes| ==> Rank(codes[i]) < Rank(codes[j])
    ensures forall c :: c in codes ==> c in "APL"
  {
    (if t.masters != [] then "A" else "") + (if t.parties != [] then "P" else "")
      + (if t.lots != [] then "L" else "")
  }

  function Rank(code: char): nat {
    if code == 'A' then 0 else if code == 'P' then 1 else 2
  }
}
