/**
 * The grid normaliser that both copies of the calculator's data layer run:
 * row 0 holds bank names and row 1 card names from column 2 on, every later
 * row is a program (name, point name, one rate cell per card column).
 *
 * The JavaScript and the PHP copy run the same loops and differ only in how
 * they trim a cell, which trimmed strings they count as blank, how they read
 * a rate cell and how they build a card id. Those four choices are a
 * `Dialect`; the algorithm and everything proved about it are stated once.
 */
module GridNormalizer {
  import opened Wrappers
  import opened Numbers
  import opened Sheet

  datatype Dialect = Dialect(
    trim: string -> string,           // trimming of header and program cells
    present: string -> bool,          // truthiness of a trimmed cell
    rate: string -> Option<real>,     // the rate a raw body cell stores, if any
    cardId: (string, string) -> string)  // card id from trimmed bank and card name

  function Max(a: nat, b: nat): nat {
    if a < b then b else a
  }

  /** Columns 2 .. Width - 1 are read for cards. */
  function Width(grid: Grid): nat
    requires |grid| >= 2
  {
    Max(|grid[0]|, |grid[1]|)
  }

  /** The card of column `col`, when its trimmed bank or card name is not blank. */
  function CardAt(d: Dialect, bankRow: seq<string>, cardRow: seq<string>, col: nat): Option<Card> {
    var bank := d.trim(CellOf(bankRow, col));
    var name := d.trim(CellOf(cardRow, col));
    if d.present(bank) || d.present(name) then Some(Card(d.cardId(bank, name), bank, name, col))
    else None
  }

  /** The cards of columns 2 .. n - 1, left to right. */
  function CardsUpTo(d: Dialect, bankRow: seq<string>, cardRow: seq<string>, n: nat): seq<Card> {
    if n <= 2 then []
    else
      CardsUpTo(d, bankRow, cardRow, n - 1)
      + match CardAt(d, bankRow, cardRow, n - 1) case Some(c) => [c] case None => []
  }

  /** The rate map of one program row over `cards`; a later card with the same id overwrites. */
  function ValuesFor(d: Dialect, row: seq<string>, cards: seq<Card>): map<string, real> {
    if cards == [] then map[]
    else
      var m := ValuesFor(d, row, cards[..|cards| - 1]);
      var c := cards[|cards| - 1];
      match d.rate(CellOf(row, c.column))
      case Some(v) => m[c.id := v]
      case None => m
  }

  /** The id of the program in grid row `r`. */
  function ProgramId(r: nat): string {
    "program_" + NatToString(r)
  }

  /** The program of grid row `r`, when its trimmed name is not blank. */
  function ProgramAt(d: Dialect, row: seq<string>, r: nat, cards: seq<Card>): Option<Program> {
    var name := d.trim(CellOf(row, 0));
    var pointName := d.trim(CellOf(row, 1));
    if d.present(name) then
      Some(Program(ProgramId(r), name, if d.present(pointName) then pointName else name, ValuesFor(d, row, cards)))
    else None
  }

  /** The programs of rows 2 .. n - 1, top to bottom. */
  function ProgramsUpTo(d: Dialect, grid: Grid, cards: seq<Card>, n: nat): seq<Program>
    requires n <= |grid|
  {
    if n <= 2 then []
    else
      ProgramsUpTo(d, grid, cards, n - 1)
      + match ProgramAt(d, grid[n - 1], n - 1, cards) case Some(p) => [p] case None => []
  }

  /** The rows that yield a program, top to bottom. */
  function ProgramRows(d: Dialect, grid: Grid, n: nat): seq<nat>
    requires n <= |grid|
  {
    if n <= 2 then []
    else
      ProgramRows(d, grid, n - 1)
      + if ProgramAt(d, grid[n - 1], n - 1, []).Some? then [n - 1] else []
  }

  function NormalizedCards(grid: Grid, d: Dialect): seq<Card>
    requires |grid| >= 3
  {
    CardsUpTo(d, grid[0], grid[1], Width(grid))
  }

  /** What the normaliser returns for `grid`. */
  function Normalized(grid: Grid, d: Dialect): SheetData {
    if |grid| < 3 then EmptySheetData
    else
      var cards := NormalizedCards(grid, d);
      SheetData(cards, ProgramsUpTo(d, grid, cards, |grid|))
  }

  /**
   * The normaliser's loops: one pass over the header columns that pushes the
   * cards, then one pass over the body rows that pushes the named programs,
   * each with its rate map filled card by card.
   */
  method Normalize(rawData: Grid, d: Dialect) returns (data: SheetData)
    ensures data == Normalized(rawData, d)
    ensures |rawData| < 3 ==> data == EmptySheetData
  {
    if |rawData| < 3 {
      return EmptySheetData;
    }
    var creditCards := CollectCards(d, rawData[0], rawData[1]);
    var rewardPrograms := CollectPrograms(d, rawData, creditCards);
    data := SheetData(creditCards, rewardPrograms);
  }

  /** The header loop: one card per column from 2 on whose bank or card name is not blank. */
  method CollectCards(d: Dialect, bankRow: seq<string>, cardRow: seq<string>) returns (creditCards: seq<Card>)
    ensures creditCards == CardsUpTo(d, bankRow, cardRow, Max(|bankRow|, |cardRow|))
  {
    creditCards := [];
    var width := Max(|bankRow|, |cardRow|);
    var col := 2;
    while col < width
      invariant 2 <= col <= Max(width, 2)
      invariant creditCards == CardsUpTo(d, bankRow, cardRow, col)
    {
      var bankName := d.trim(CellOf(bankRow, col));
      var cardName := d.trim(CellOf(cardRow, col));
      if d.present(bankName) || d.present(cardName) {
        creditCards := creditCards + [Card(d.cardId(bankName, cardName), bankName, cardName, col)];
      }
      col := col + 1;
    }
  }

  /** The body loop: one program per row from 2 on whose name is not blank. */
  method CollectPrograms(d: Dialect, rawData: Grid, creditCards: seq<Card>) returns (rewardPrograms: seq<Program>)
    requires |rawData| >= 2
    ensures rewardPrograms == ProgramsUpTo(d, rawData, creditCards, |rawData|)
  {
    rewardPrograms := [];
    var row := 2;
    while row < |rawData|
      invariant 2 <= row <= |rawData|
      invariant rewardPrograms == ProgramsUpTo(d, rawData, creditCards, row)
    {
      var rowData := rawData[row];
      var programName := d.trim(CellOf(rowData, 0));
      var pointName := d.trim(CellOf(rowData, 1));
      if d.present(programName) {
        var values := FillValues(d, rowData, creditCards);
        var program := Program(ProgramId(row), programName,
          if d.present(pointName) then pointName else programName, values);
        rewardPrograms := rewardPrograms + [program];
      }
      row := row + 1;
    }
  }

  /** The inner loop of the normaliser: the rate map of one program row, card by card. */
  method FillValues(d: Dialect, rowData: seq<string>, creditCards: seq<Card>) returns (values: map<string, real>)
    ensures values == ValuesFor(d, rowData, creditCards)
  {
    values := map[];
    var k := 0;
    while k < |creditCards|
      invariant 0 <= k <= |creditCards|
      invariant values == ValuesFor(d, rowData, creditCards[..k])
    {
      var card := creditCards[k];
      assert creditCards[..k + 1][..k] == creditCards[..k];
      match d.rate(CellOf(rowData, card.column)) {
        case Some(v) => values := values[card.id := v];
        case None =>
      }
      k := k + 1;
    }
    assert creditCards[..k] == creditCards;
  }

  /* ---------------- What the normaliser guarantees ---------------- */

  /**
   * The cards are exactly the non-blank columns 2 .. n - 1, each once, in
   * ascending column order, each carrying its trimmed bank and name, its
   * column and the dialect's id for them.
   */
  lemma CardsUpToFaithful(d: Dialect, bankRow: seq<string>, cardRow: seq<string>, n: nat)
    ensures var cards := CardsUpTo(d, bankRow, cardRow, n);
      && (forall i :: 0 <= i < |cards| ==>
            2 <= cards[i].column < n && CardAt(d, bankRow, cardRow, cards[i].column) == Some(cards[i]))
      && (forall i, j :: 0 <= i < j < |cards| ==> cards[i].column < cards[j].column)
      && (forall col :: 2 <= col < n ==>
            (CardAt(d, bankRow, cardRow, col).Some? <==> exists i :: 0 <= i < |cards| && cards[i].column == col))
  {
    CardsUpToSound(d, bankRow, cardRow, n);
    CardsUpToComplete(d, bankRow, cardRow, n);
  }

  /** Every card comes from its own column below `n`, and the columns ascend. */
  predicate CardsSound(d: Dialect, bankRow: seq<string>, cardRow: seq<string>, n: nat, cards: seq<Card>) {
    && (forall i :: 0 <= i < |cards| ==>
          2 <= cards[i].column < n && CardAt(d, bankRow, cardRow, cards[i].column) == Some(cards[i]))
    && (forall i, j :: 0 <= i < j < |cards| ==> cards[i].column < cards[j].column)
  }

  /** Every non-blank column in 2 .. n - 1 has a card. */
  predicate CardsComplete(d: Dialect, bankRow: seq<string>, cardRow: seq<string>, n: nat, cards: seq<Card>) {
    forall col :: 2 <= col < n && CardAt(d, bankRow, cardRow, col).Some? ==>
      exists i :: 0 <= i < |cards| && cards[i].column == col
  }

  lemma {:induction false} CardsUpToSound(d: Dialect, bankRow: seq<string>, cardRow: seq<string>, n: nat)
    ensures CardsSound(d, bankRow, cardRow, n, CardsUpTo(d, bankRow, cardRow, n))
  {
    if n > 2 {
      CardsUpToSound(d, bankRow, cardRow, n - 1);
      var prev := CardsUpTo(d, bankRow, cardRow, n - 1);
      var c := CardAt(d, bankRow, cardRow, n - 1);
      if c.Some? {
        var cards := CardsUpTo(d, bankRow, cardRow, n);
        assert cards == prev + [c.value];
        assert c.value.column == n - 1;
        assert forall i :: 0 <= i < |prev| ==> cards[i] == prev[i];
      } else {
        assert CardsUpTo(d, bankRow, cardRow, n) == prev;
      }
    }
  }

  lemma {:induction false} CardsUpToComplete(d: Dialect, bankRow: seq<string>, cardRow: seq<string>, n: nat)
    ensures CardsComplete(d, bankRow, cardRow, n, CardsUpTo(d, bankRow, cardRow, n))
  {
    if n > 2 {
      CardsUpToComplete(d, bankRow, cardRow, n - 1);
      var prev := CardsUpTo(d, bankRow, cardRow, n - 1);
      var cards := CardsUpTo(d, bankRow, cardRow, n);
      var c := CardAt(d, bankRow, cardRow, n - 1);
      forall col | 2 <= col < n && CardAt(d, bankRow, cardRow, col).Some?
        ensures exists i :: 0 <= i < |cards| && cards[i].column == col
      {
        if col == n - 1 {
          assert cards == prev + [c.value];
          assert cards[|prev|].column == col;
        } else {
          var i :| 0 <= i < |prev| && prev[i].column == col;
          assert cards[i] == prev[i];
        }
      }
    }
  }

  /** Card `c` has a rate in `row`. */
  predicate RatedAt(d: Dialect, row: seq<string>, c: Card) {
    d.rate(CellOf(row, c.column)).Some?
  }

  /** `cards[i]` is the last card with id `k` that has a rate in `row`. */
  predicate LastRated(d: Dialect, row: seq<string>, cards: seq<Card>, i: int, k: string) {
    && 0 <= i < |cards| && cards[i].id == k && RatedAt(d, row, cards[i])
    && forall j :: i < j < |cards| && cards[j].id == k ==> !RatedAt(d, row, cards[j])
  }

  /** A rate map has a key exactly for the ids of cards whose cell in the row yields a rate. */
  lemma {:induction false} ValuesForKeys(d: Dialect, row: seq<string>, cards: seq<Card>)
    ensures forall k :: k in ValuesFor(d, row, cards) <==>
      exists i :: 0 <= i < |cards| && cards[i].id == k && RatedAt(d, row, cards[i])
  {
    if cards != [] {
      var init := cards[..|cards| - 1];
      var c := cards[|cards| - 1];
      ValuesForKeys(d, row, init);
      var prev := ValuesFor(d, row, init);
      var m := ValuesFor(d, row, cards);
      assert m.Keys == if RatedAt(d, row, c) then prev.Keys + {c.id} else prev.Keys;
      forall k
        ensures k in m <==> exists i :: 0 <= i < |cards| && cards[i].id == k && RatedAt(d, row, cards[i])
      {
        if exists i :: 0 <= i < |cards| && cards[i].id == k && RatedAt(d, row, cards[i]) {
          var i :| 0 <= i < |cards| && cards[i].id == k && RatedAt(d, row, cards[i]);
          if i < |init| {
            assert init[i] == cards[i];
          }
        }
        if k in prev {
          var i :| 0 <= i < |init| && init[i].id == k && RatedAt(d, row, init[i]);
          assert cards[i] == init[i];
        }
      }
    }
  }

  /** The value stored under a key is the rate read from the last card with that id that has one. */
  lemma {:induction false} ValuesForLast(d: Dialect, row: seq<string>, cards: seq<Card>, k: string)
    requires k in ValuesFor(d, row, cards)
    ensures exists i :: LastRated(d, row, cards, i, k) && d.rate(CellOf(row, cards[i].column)) == Some(ValuesFor(d, row, cards)[k])
  {
    var init := cards[..|cards| - 1];
    var c := cards[|cards| - 1];
    var prev := ValuesFor(d, row, init);
    var m := ValuesFor(d, row, cards);
    if k == c.id && RatedAt(d, row, c) {
      assert m[k] == d.rate(CellOf(row, c.column)).value;
      assert LastRated(d, row, cards, |cards| - 1, k);
    } else {
      assert k in prev && m[k] == prev[k];
      ValuesForLast(d, row, init, k);
      var i :| LastRated(d, row, init, i, k) && d.rate(CellOf(row, init[i].column)) == Some(prev[k]);
      assert cards == init + [c];
      LastRatedExtends(d, row, init, c, i, k);
      assert cards[i] == init[i];
    }
  }

  lemma LastRatedExtends(d: Dialect, row: seq<string>, cards: seq<Card>, c: Card, i: int, k: string)
    requires LastRated(d, row, cards, i, k) && !(c.id == k && RatedAt(d, row, c))
    ensures LastRated(d, row, cards + [c], i, k)
  {
    var cards' := cards + [c];
    assert forall j :: 0 <= j < |cards| ==> cards'[j] == cards[j];
  }

  /**
   * The programs are exactly the rows 2 .. n - 1 with a non-blank name, each
   * once, top to bottom, each as `ProgramAt` builds it from its row.
   */
  lemma {:induction false} ProgramsUpToFaithful(d: Dialect, grid: Grid, cards: seq<Card>, n: nat)
    requires n <= |grid|
    ensures ProgramsMatchRows(d, grid, cards, n, ProgramsUpTo(d, grid, cards, n), ProgramRows(d, grid, n))
  {
    if n > 2 {
      ProgramsUpToFaithful(d, grid, cards, n - 1);
      var prevP := ProgramsUpTo(d, grid, cards, n - 1);
      var prevR := ProgramRows(d, grid, n - 1);
      var p := ProgramAt(d, grid[n - 1], n - 1, cards);
      assert p.Some? <==> ProgramAt(d, grid[n - 1], n - 1, []).Some?;
      if p.Some? {
        ProgramsMatchRowsSnoc(d, grid, cards, n, prevP, prevR, p.value);
      } else {
        ProgramsMatchRowsSkip(d, grid, cards, n, prevP, prevR);
      }
    }
  }

  /** `programs` are built from `rows`, which ascend and are exactly the named rows in 2 .. n - 1. */
  predicate ProgramsMatchRows(d: Dialect, grid: Grid, cards: seq<Card>, n: nat, programs: seq<Program>, rows: seq<nat>)
    requires n <= |grid|
  {
    && |programs| == |rows|
    && (forall i :: 0 <= i < |rows| ==>
          2 <= rows[i] < n && ProgramAt(d, grid[rows[i]], rows[i], cards) == Some(programs[i]))
    && (forall i, j :: 0 <= i < j < |rows| ==> rows[i] < rows[j])
    && (forall r :: 2 <= r < n ==> (ProgramAt(d, grid[r], r, cards).Some? <==> r in rows))
  }

  lemma ProgramsMatchRowsSkip(d: Dialect, grid: Grid, cards: seq<Card>, n: nat,
                              programs: seq<Program>, rows: seq<nat>)
    requires 2 < n <= |grid| && ProgramsMatchRows(d, grid, cards, n - 1, programs, rows)
    requires ProgramAt(d, grid[n - 1], n - 1, cards).None?
    ensures ProgramsMatchRows(d, grid, cards, n, programs, rows)
  {
  }

  lemma ProgramsMatchRowsSnoc(d: Dialect, grid: Grid, cards: seq<Card>, n: nat,
                              programs: seq<Program>, rows: seq<nat>, p: Program)
    requires 2 < n <= |grid| && ProgramsMatchRows(d, grid, cards, n - 1, programs, rows)
    requires ProgramAt(d, grid[n - 1], n - 1, cards) == Some(p)
    ensures ProgramsMatchRows(d, grid, cards, n, programs + [p], rows + [n - 1])
  {
    var programs', rows' := programs + [p], rows + [n - 1];
    assert forall i :: 0 <= i < |rows| ==> rows'[i] == rows[i] && programs'[i] == programs[i];
    assert forall r :: r in rows' <==> r in rows || r == n - 1;
  }

  /** Rows with different indices get different program ids. */
  lemma ProgramIdInjective(a: nat, b: nat)
    requires ProgramId(a) == ProgramId(b)
    ensures a == b
  {
    assert NatToString(a) == ProgramId(a)[8..];
    assert NatToString(b) == ProgramId(b)[8..];
    NatToStringInjective(a, b);
  }

  /** No two programs of one sheet share an id. */
  lemma ProgramIdsDistinct(d: Dialect, grid: Grid, cards: seq<Card>, n: nat)
    requires n <= |grid|
    ensures DistinctIds(ProgramsUpTo(d, grid, cards, n))
  {
    ProgramsUpToFaithful(d, grid, cards, n);
    var programs := ProgramsUpTo(d, grid, cards, n);
    var rows := ProgramRows(d, grid, n);
    forall i, j | 0 <= i < j < |programs|
      ensures programs[i].id != programs[j].id
    {
      assert programs[i].id == ProgramId(rows[i]);
      assert programs[j].id == ProgramId(rows[j]);
      if programs[i].id == programs[j].id {
        ProgramIdInjective(rows[i], rows[j]);
      }
    }
  }

  /** Every key of every rate map is the id of a card of the same sheet. */
  lemma ValuesKeysAreCardIds(grid: Grid, d: Dialect)
    ensures var data := Normalized(grid, d);
      forall i, k :: 0 <= i < |data.rewardPrograms| && k in data.rewardPrograms[i].values ==>
        exists j :: 0 <= j < |data.creditCards| && data.creditCards[j].id == k
  {
    if |grid| >= 3 {
      var data := Normalized(grid, d);
      var cards := data.creditCards;
      ProgramsUpToFaithful(d, grid, cards, |grid|);
      var rows := ProgramRows(d, grid, |grid|);
      forall i, k | 0 <= i < |data.rewardPrograms| && k in data.rewardPrograms[i].values
        ensures exists j :: 0 <= j < |cards| && cards[j].id == k
      {
        assert data.rewardPrograms[i].values == ValuesFor(d, grid[rows[i]], cards);
        ValuesForKeys(d, grid[rows[i]], cards);
      }
    }
  }

  /**
   * Looking a rate up after normalising gives back what the sheet holds:
   * for the program of row `r` and a card id `k`, there is a rate exactly
   * when the row has a non-blank name and some card with id `k` has a rate
   * cell there, and the rate is the one read from the last such card's cell.
   */
  lemma NormalizedLookup(grid: Grid, d: Dialect, r: nat, k: string)
    requires 2 <= r < |grid|
    ensures var data := Normalized(grid, d);
      var cards := data.creditCards;
      var found := LookupRate(data.rewardPrograms, ProgramId(r), k);
      && (found.Some? <==>
            && ProgramAt(d, grid[r], r, cards).Some?
            && exists i :: 0 <= i < |cards| && cards[i].id == k && RatedAt(d, grid[r], cards[i]))
      && (found.Some? ==>
            exists i :: LastRated(d, grid[r], cards, i, k) && d.rate(CellOf(grid[r], cards[i].column)) == found)
  {
    var cards := NormalizedCards(grid, d);
    var programs := ProgramsUpTo(d, grid, cards, |grid|);
    assert Normalized(grid, d) == SheetData(cards, programs);
    ProgramsUpToFaithful(d, grid, cards, |grid|);
    var rows := ProgramRows(d, grid, |grid|);
    if ProgramAt(d, grid[r], r, cards).Some? {
      var i :| 0 <= i < |rows| && rows[i] == r;
      ProgramIdsDistinct(d, grid, cards, |grid|);
      NamedRowLookup(d, grid[r], cards, programs, i, ProgramId(r), k);
    } else {
      UnnamedRowLookup(d, grid, cards, r, k);
    }
  }

  /** The lookup in a named row's program reads that program's own rate map. */
  lemma NamedRowLookup(d: Dialect, row: seq<string>, cards: seq<Card>, programs: seq<Program>,
                       i: nat, id: string, k: string)
    requires i < |programs| && programs[i].id == id && programs[i].values == ValuesFor(d, row, cards)
    requires DistinctIds(programs)
    ensures var found := LookupRate(programs, id, k);
      && (found.Some? <==> exists j :: 0 <= j < |cards| && cards[j].id == k && RatedAt(d, row, cards[j]))
      && (found.Some? ==> exists j :: LastRated(d, row, cards, j, k) && d.rate(CellOf(row, cards[j].column)) == found)
  {
    LookupRateOfUnique(programs, i, id, k);
    ValuesForKeys(d, row, cards);
    if k in programs[i].values {
      ValuesForLast(d, row, cards, k);
    }
  }

  /** No program carries the id of a row without a name. */
  lemma UnnamedRowLookup(d: Dialect, grid: Grid, cards: seq<Card>, r: nat, k: string)
    requires 2 <= r < |grid| && ProgramAt(d, grid[r], r, cards).None?
    ensures LookupRate(ProgramsUpTo(d, grid, cards, |grid|), ProgramId(r), k).None?
  {
    var programs := ProgramsUpTo(d, grid, cards, |grid|);
    ProgramsUpToFaithful(d, grid, cards, |grid|);
    var rows := ProgramRows(d, grid, |grid|);
    forall j | 0 <= j < |programs|
      ensures programs[j].id != ProgramId(r)
    {
      assert programs[j].id == ProgramId(rows[j]);
      if programs[j].id == ProgramId(r) {
        ProgramIdInjective(rows[j], r);
      }
    }
  }
}
