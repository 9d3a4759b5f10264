/** The three record kinds parser.py produces, the columns each one is
    written with, and the ways a parse can fail. */
module Records {
  import opened Wrappers

  /** The key carried from the latest Master record; `None` before the
      first one. */
  type Key = Option<string>

  /** A row of type code 'A' (parse_master_row). Every field is a `str`;
      all but the amount and the modified date are slices of the line,
      possibly empty. */
  datatype MasterRecord = MasterRecord(
    uniqueKey: string,
    dateFile: string,
    crfn: string,
    recordedBorough: string,
    docType: string,
    documentDate: string,
    documentAmount: string,
    recordedDate: string,
    modifiedDate: string)

  /** A row of type code 'P' (parse_party_row). */
  datatype PartyRecord = PartyRecord(
    uniqueKey: Key,
    partyType: string,
    name: string,
    address1: string,
    address2: string,
    country: string,
    city: string,
    state: string,
    zip: string)

  /** A row of type code 'L' (parse_lot_row). */
  datatype LotRecord = LotRecord(
    uniqueKey: Key,
    borough: string,
    block: string,
    lot: string,
    easement: string,
    partialLot: string,
    airRights: string,
    subterraneanRights: string,
    propertyType: string,
    streetNumber: string,
    address: string,
    unit: string)

  datatype Record = Master(master: MasterRecord) | Party(party: PartyRecord) | Lot(lot: LotRecord)

  /** The `IndexError`s the parsers can raise. None of them is caught by
      the run loop. */
  datatype ParseError =
    | ShortLine          // the line has no character at index 16, 17 or 40
    | TooFewSlashes      // a Master line with fewer than two '/' once spaces are gone
    | NoSegments         // `items[0]` of an all-whitespace line
    | ShortFirstSegment  // a Lot line whose first segment has no index 30

  /** One entry of the Python list a parser returns: a `str`, or the
      `None` key of a Party or Lot row seen before any Master row. */
  datatype Cell = Null | Str(text: string)

  function KeyCell(key: Key): Cell {
    match key
    case None => Null
    case Some(k) => Str(k)
  }

  /** Number of entries in `COLUMN_NAMES['A']`, `['P']` and `['L']`. */
  const MasterWidth := 10
  const PartyWidth := 10
  const LotWidth := 13

  /** The list parse_master_row returns, in column order. */
  function MasterCells(m: MasterRecord): (cells: seq<Cell>)
    ensures |cells| == MasterWidth
    ensures cells[0] == Str(m.uniqueKey) && cells[1] == Str("A")
  {
    [Str(m.uniqueKey), Str("A"), Str(m.dateFile), Str(m.crfn), Str(m.recordedBorough),
     Str(m.docType), Str(m.documentDate), Str(m.documentAmount), Str(m.recordedDate),
     Str(m.modifiedDate)]
  }

  /** The list parse_party_row returns, in column order. */
  function PartyCells(p: PartyRecord): (cells: seq<Cell>)
    ensures |cells| == PartyWidth
    ensures cells[0] == KeyCell(p.uniqueKey) && cells[1] == Str("P")
  {
    [KeyCell(p.uniqueKey), Str("P"), Str(p.partyType), Str(p.name), Str(p.address1),
     Str(p.address2), Str(p.country), Str(p.city), Str(p.state), Str(p.zip)]
  }

  /** The list parse_lot_row returns, in column order. */
  function LotCells(l: LotRecord): (cells: seq<Cell>)
    ensures |cells| == LotWidth
    ensures cells[0] == KeyCell(l.uniqueKey) && cells[1] == Str("L")
  {
    [KeyCell(l.uniqueKey), Str("L"), Str(l.borough), Str(l.block), Str(l.lot),
     Str(l.easement), Str(l.partialLot), Str(l.airRights), Str(l.subterraneanRights),
     Str(l.propertyType), Str(l.streetNumber), Str(l.address), Str(l.unit)]
  }

  /** The type code a record is filed under. */
  function TypeCode(r: Record): char {
    match r
    case Master(_) => 'A'
    case Party(_) => 'P'
    case Lot(_) => 'L'
  }

  /** The list written for a record: its own code at index 1 and as many
      entries as its type has columns. */
  function Cells(r: Record): (cells: seq<Cell>)
    ensures |cells| == (match r case Master(_) => MasterWidth case Party(_) => PartyWidth case Lot(_) => LotWidth)
    ensures cells[1] == Str([TypeCode(r)])
  {
    match r
    case Master(m) => MasterCells(m)
    case Party(p) => PartyCells(p)
    case Lot(l) => LotCells(l)
  }
}
