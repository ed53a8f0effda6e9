/**
 * The normalised form of one spreadsheet tab: cards, programs with their
 * sparse per-card rates, and the rate lookup the repositories perform on it.
 */
module Sheet {
  import opened Wrappers

  /** Rows of text cells, as the spreadsheet range returns them; rows may be ragged. */
  type Grid = seq<seq<string>>

  /** A card column of the sheet; `column` is where its rates sit in the program rows. */
  datatype Card = Card(id: string, bank: string, name: string, column: nat)

  /** A program row; `values` maps a card id to its rate and has no entry where the sheet gives none. */
  datatype Program = Program(id: string, name: string, pointName: string, values: map<string, real>)

  datatype SheetData = SheetData(creditCards: seq<Card>, rewardPrograms: seq<Program>)

  const EmptySheetData := SheetData([], [])

  /** The cell at `col`, with a missing cell read as the empty string. */
  function CellOf(row: seq<string>, col: nat): string {
    if col < |row| then row[col] else ""
  }

  /** `programs.find(p => p.id === programId)`: the first program with that id. */
  function FindProgram(programs: seq<Program>, programId: string): (r: Option<nat>)
    ensures r.Some? ==> r.value < |programs| && IsFirstWithId(programs, r.value, programId)
    ensures r.None? ==> forall j :: 0 <= j < |programs| ==> programs[j].id != programId
  {
    if programs == [] then None
    else if programs[0].id == programId then Some(0)
    else match FindProgram(programs[1..], programId)
      case Some(i) => Some(i + 1)
      case None => None
  }

  /**
   * `getConversionValue` on a program list: the rate of the first program
   * with `programId` when that program has an own entry for `cardId`, and
   * None (null) otherwise; an absent rate is never reported as 0.
   */
  function LookupRate(programs: seq<Program>, programId: string, cardId: string): (r: Option<real>)
    ensures r.Some? <==> exists i :: HasOwnRate(programs, i, programId, cardId)
    ensures r.Some? ==> exists i :: HasOwnRate(programs, i, programId, cardId) && programs[i].values[cardId] == r.value
  {
    match FindProgram(programs, programId)
    case Some(i) =>
      assert forall j :: 0 <= j < |programs| && IsFirstWithId(programs, j, programId) ==> j == i;
      if cardId in programs[i].values then
        assert HasOwnRate(programs, i, programId, cardId);
        Some(programs[i].values[cardId])
      else None
    case None => None
  }

  /** Program `i` is the one `find` picks for `programId`, and it has an entry for `cardId`. */
  predicate HasOwnRate(programs: seq<Program>, i: int, programId: string, cardId: string) {
    0 <= i < |programs| && IsFirstWithId(programs, i, programId) && cardId in programs[i].values
  }

  predicate IsFirstWithId(programs: seq<Program>, i: nat, programId: string)
    requires i < |programs|
  {
    programs[i].id == programId && forall j :: 0 <= j < i ==> programs[j].id != programId
  }

  /** No two programs share an id. */
  predicate DistinctIds(programs: seq<Program>) {
    forall i, j :: 0 <= i < j < |programs| ==> programs[i].id != programs[j].id
  }

  /** When program `i` is the only one with `programId`, a lookup reads its own map. */
  lemma LookupRateOfUnique(programs: seq<Program>, i: nat, programId: string, cardId: string)
    requires i < |programs| && programs[i].id == programId
    requires forall j :: 0 <= j < |programs| && j != i ==> programs[j].id != programId
    ensures LookupRate(programs, programId, cardId)
      == if cardId in programs[i].values then Some(programs[i].values[cardId]) else None
  {
    assert IsFirstWithId(programs, i, programId);
    assert forall j :: 0 <= j < |programs| && IsFirstWithId(programs, j, programId) ==> j == i;
  }
}
