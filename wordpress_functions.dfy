/**
 * The server-side copy of the normaliser in the WordPress theme: the same
 * grid walk as the browser copy, with PHP's rules for trimming, blank
 * cells (`empty`), rate cells (`floatval`, only positive rates kept) and
 * card ids.
 */
module WordPressFunctions {
  import opened Wrappers
  import opened Text
  import opened Numbers
  import opened Slug
  import opened Sheet
  import opened GridNormalizer
  import GoogleSheets

  /** PHP's `empty` on a string: the empty string and "0" are empty. */
  predicate PhpEmpty(s: string) {
    s == "" || s == "0"
  }

  /** The class `[₹$,\s]` of the PCRE pattern that cleans a rate cell. */
  predicate IsPhpCleanChar(c: char) {
    c == '₹' || c == '$' || c == ',' || IsPcreSpace(c)
  }

  /**
   * The rate a program-row cell stores: none for an empty cell, otherwise
   * `floatval` of the cleaned cell when it is positive; zero, negative and
   * non-numeric cells store nothing.
   */
  function PhpCellRate(raw: string): (r: Option<real>)
    ensures r.Some? ==> r.value > 0.0
    ensures PhpEmpty(raw) ==> r.None?
  {
    if PhpEmpty(raw) then None
    else
      var v := PhpFloatval(RemoveAll(raw, IsPhpCleanChar));
      if v > 0.0 then Some(v) else None
  }

  /** A currency sign before a positive whole number is ignored. */
  lemma PhpCellRateOfPrice(sign: char, n: nat)
    requires sign == '₹' || sign == '$'
    requires n > 0
    ensures PhpCellRate([sign] + NatToString(n)) == Some(n as real)
  {
    var d := NatToString(n);
    var raw := [sign] + d;
    assert raw != "" && raw != "0" by {
      assert |raw| >= 2;
    }
    PhpCleanOfPrice(sign, d);
    PhpFloatvalOfNat(n);
  }

  lemma PhpCleanOfPrice(sign: char, d: string)
    requires sign == '₹' || sign == '$'
    requires AllDigits(d)
    ensures RemoveAll([sign] + d, IsPhpCleanChar) == d
  {
    RemoveAllCons(sign, d, IsPhpCleanChar);
    RemoveAllOfKept(d, IsPhpCleanChar);
  }

  lemma PhpFloatvalOfNat(n: nat)
    ensures PhpFloatval(NatToString(n)) == n as real
  {
    var d := NatToString(n);
    assert IsDigit(d[0]);
    assert TrimStart(d, IsPcreSpace) == d;
    ParseNatString(n);
  }

  /** `floatval` of digits, a point and digits is the decimal they write. */
  lemma PhpFloatvalOfDecimal(d: string, f: string, s: string)
    requires |d| > 0 && AllDigits(d) && AllDigits(f)
    requires s == d + "." + f
    ensures PhpFloatval(s) == LiteralValue(d, f, 0)
  {
    assert TrimStart(s, IsPcreSpace) == s by {
      assert s[0] == d[0];
    }
    ParseDecimalWithFraction(d, f, s);
  }

  /**
   * Padding, the rupee sign and the thousands separator are ignored and the
   * fraction is kept: a padded, comma-grouped price stores the decimal its
   * digits write, when that is positive.
   */
  lemma PhpCellRateOfGroupedPrice(lead: string, whole: string, frac: string)
    requires |lead| > 0 && AllDigits(lead) && AllDigits(whole) && AllDigits(frac)
    ensures var v := LiteralValue(lead + whole, frac, 0);
      PhpCellRate(" ₹" + lead + "," + whole + "." + frac + " ") == if v > 0.0 then Some(v) else None
  {
    var cell := " ₹" + lead + "," + whole + "." + frac + " ";
    var tail := whole + "." + frac;
    assert cell == " " + "₹" + lead + "," + tail + " ";
    assert !PhpEmpty(cell) by {
      assert |cell| >= 6;
    }
    GoogleSheets.DecimalKept(lead, "", IsPhpCleanChar);
    assert lead + "." + "" == lead + ".";
    GoogleSheets.DecimalKept(whole, frac, IsPhpCleanChar);
    GoogleSheets.CleanOfGroupedPrice(IsPhpCleanChar, lead, tail, cell);
    assert lead + tail == (lead + whole) + "." + frac;
    PhpFloatvalOfDecimal(lead + whole, frac, lead + tail);
  }

  /** A negative or zero number stores no rate. */
  lemma PhpCellRateDropsNonPositive(n: nat)
    ensures PhpCellRate("-" + NatToString(n)) == None
  {
    var raw := "-" + NatToString(n);
    RemoveAllOfKept(raw, IsPhpCleanChar);
    assert TrimStart(raw, IsPcreSpace) == raw;
    ParseNegativeNatString(n);
  }

  /**
   * Where the two normalisers read rate cells differently: the browser copy
   * stores zero and negative rates, the server copy stores neither.
   */
  lemma NonPositiveRatesDiverge(n: nat)
    ensures GoogleSheets.CellRate("-" + NatToString(n)) == Some(-(n as real))
    ensures PhpCellRate("-" + NatToString(n)) == None
  {
    GoogleSheets.CellRateKeepsNonPositive(n);
    PhpCellRateDropsNonPositive(n);
  }

  /**
   * The PHP slug: trimmed, lower-cased, white-space runs to one underscore,
   * underscore runs collapsed, then everything outside `[a-z0-9_]` removed.
   * Edge underscores stay, and the removal can leave two underscores side
   * by side.
   */
  function PhpNormalizeText(s: string): (r: string)
    ensures AllSlugChars(r)
  {
    KeepSlugChars(CollapseUnderscores(ReplaceSpaceRuns(Lower(PhpTrim(s)), IsPcreSpace)))
  }

  /** A string of slug characters without double underscores is its own PHP slug. */
  lemma PhpNormalizeTextOfSlug(s: string)
    requires AllSlugChars(s) && NoDoubleUnderscore(s)
    ensures PhpNormalizeText(s) == s
  {
    PreparedSlug(s);
    KeepSlugCharsOfSlug(s);
  }

  lemma PreparedSlug(s: string)
    requires AllSlugChars(s)
    ensures ReplaceSpaceRuns(Lower(PhpTrim(s)), IsPcreSpace) == s
  {
    assert forall i :: 0 <= i < |s| ==> !IsPhpTrimChar(s[i]) && !IsPcreSpace(s[i]);
    TrimOfTrimmed(s, IsPhpTrimChar);
    LowerOfSlug(s);
  }

  /** The PHP card id: both slugs joined by an underscore. */
  function PhpCreateCardId(bankName: string, cardName: string): (r: string)
    ensures AllSlugChars(r) && '_' in r
  {
    var b := PhpNormalizeText(bankName);
    var n := PhpNormalizeText(cardName);
    JoinedSlug(b, n);
    b + "_" + n
  }

  /** The PHP choices: `trim`, `!empty`, `PhpCellRate`, `PhpCreateCardId`. */
  function PhpDialect(): Dialect {
    Dialect(PhpTrim, s => !PhpEmpty(s), PhpCellRate, PhpCreateCardId)
  }

  /** Every rate in a PHP rate map is positive. */
  lemma {:induction false} RowRatesPositive(row: seq<string>, cards: seq<Card>)
    ensures forall k :: k in ValuesFor(PhpDialect(), row, cards) ==> ValuesFor(PhpDialect(), row, cards)[k] > 0.0
  {
    if cards != [] {
      RowRatesPositive(row, cards[..|cards| - 1]);
    }
  }

  predicate RatesPositive(programs: seq<Program>) {
    forall i, k :: 0 <= i < |programs| && k in programs[i].values ==> programs[i].values[k] > 0.0
  }

  /** Every rate the server copy stores is positive. */
  lemma StoredRatesPositive(grid: Grid, cards: seq<Card>)
    ensures RatesPositive(ProgramsUpTo(PhpDialect(), grid, cards, |grid|))
  {
    var d := PhpDialect();
    var programs := ProgramsUpTo(d, grid, cards, |grid|);
    ProgramsUpToFaithful(d, grid, cards, |grid|);
    var rows := ProgramRows(d, grid, |grid|);
    forall i | 0 <= i < |programs|
      ensures forall k :: k in programs[i].values ==> programs[i].values[k] > 0.0
    {
      assert programs[i].values == ValuesFor(d, grid[rows[i]], cards);
      RowRatesPositive(grid[rows[i]], cards);
    }
  }

  /** Every rate of the server copy's normalisation of any grid is positive. */
  lemma ServedRatesPositive(grid: Grid)
    ensures RatesPositive(Normalized(grid, PhpDialect()).rewardPrograms)
    ensures forall i :: 0 <= i < |Normalized(grid, PhpDialect()).creditCards| ==>
      AllSlugChars(Normalized(grid, PhpDialect()).creditCards[i].id)
  {
    if |grid| >= 3 {
      StoredRatesPositive(grid, NormalizedCards(grid, PhpDialect()));
      CardIdsAreSlugs(grid);
    }
  }

  lemma CardIdsAreSlugs(grid: Grid)
    requires |grid| >= 3
    ensures forall i :: 0 <= i < |NormalizedCards(grid, PhpDialect())| ==> AllSlugChars(NormalizedCards(grid, PhpDialect())[i].id)
  {
    var d := PhpDialect();
    var cards := NormalizedCards(grid, d);
    CardsUpToFaithful(d, grid[0], grid[1], Width(grid));
    forall i | 0 <= i < |cards| ensures AllSlugChars(cards[i].id) {
      var col := cards[i].column;
      assert CardAt(d, grid[0], grid[1], col) == Some(cards[i]);
    }
  }

  /**
   * `ccalc_process_sheet_data`: the normalised form of the grid; every
   * card id is a string of slug characters and every stored rate is positive.
   */
  method ProcessSheetData(rawData: Grid) returns (data: SheetData)
    ensures data == Normalized(rawData, PhpDialect())
    ensures forall i :: 0 <= i < |data.creditCards| ==> AllSlugChars(data.creditCards[i].id)
    ensures RatesPositive(data.rewardPrograms)
  {
    data := Normalize(rawData, PhpDialect());
    if |rawData| >= 3 {
      var d := PhpDialect();
      var cards := NormalizedCards(rawData, d);
      assert data == SheetData(cards, ProgramsUpTo(d, rawData, cards, |rawData|));
      StoredRatesPositive(rawData, cards);
      CardIdsAreSlugs(rawData);
    }
  }

  /** A header cell "0" names a card in the browser copy but is blank to the server copy. */
  lemma ZeroNameDiverges()
    ensures CardAt(PhpDialect(), ["", "", "0"], ["", "", ""], 2).None?
    ensures CardAt(GoogleSheets.JsDialect(), ["", "", "0"], ["", "", ""], 2).Some?
  {
    PhpZeroIsBlank();
    JsZeroIsPresent();
  }

  lemma PhpZeroIsBlank()
    ensures CardAt(PhpDialect(), ["", "", "0"], ["", "", ""], 2).None?
  {
    TrimOfTrimmed("0", IsPhpTrimChar);
    TrimOfTrimmed("", IsPhpTrimChar);
    assert PhpEmpty(PhpTrim(CellOf(["", "", "0"], 2)));
    assert PhpEmpty(PhpTrim(CellOf(["", "", ""], 2)));
  }

  lemma JsZeroIsPresent()
    ensures CardAt(GoogleSheets.JsDialect(), ["", "", "0"], ["", "", ""], 2).Some?
  {
    TrimOfTrimmed("0", IsJsWhitespace);
    assert JsTrim(CellOf(["", "", "0"], 2)) == "0";
  }

  /** With any class that holds the space and none of `a`, `&`, `b`, the spaces become underscores. */
  lemma SpacedAmpersand(space: char -> bool)
    requires space(' ') && !space('a') && !space('&') && !space('b')
    ensures ReplaceSpaceRuns("a & b", space) == "a_&_b"
  {
    SpacedAmpersandTail(space);
    assert "a & b" == ['a'] + " & b";
    ReplaceSpaceRunsKeep('a', " & b", space);
    assert ['a'] + "_&_b" == "a_&_b";
  }

  lemma SpacedAmpersandTail(space: char -> bool)
    requires space(' ') && !space('&') && !space('b')
    ensures ReplaceSpaceRuns(" & b", space) == "_&_b"
  {
    SpacedB(space);
    assert "& b" == ['&'] + " b";
    ReplaceSpaceRunsKeep('&', " b", space);
    assert " & b" == [' '] + "& b";
    ReplaceSpaceRunsSingle(' ', "& b", space);
    assert "_" + (['&'] + "_b") == "_&_b";
  }

  lemma SpacedB(space: char -> bool)
    requires space(' ') && !space('b')
    ensures ReplaceSpaceRuns(" b", space) == "_b"
  {
    ReplaceSpaceRunsKeep('b', [], space);
    assert ['b'] + [] == "b";
    assert " b" == [' '] + "b";
    ReplaceSpaceRunsSingle(' ', "b", space);
  }

  lemma KeptAmpersand()
    ensures KeepSlugChars("a_&_b") == "a__b"
  {
    RemovedAmpersand();
  }

  lemma RemovedAmpersand()
    ensures RemoveAll("a_&_b", IsNotSlugChar) == "a__b"
  {
    RemovedAmpersandParts();
    assert "a_&_b" == "a_" + "&" + "_b";
    assert "a_" + [] + "_b" == "a__b";
  }

  lemma RemovedAmpersandParts()
    ensures RemoveAll("a_" + "&" + "_b", IsNotSlugChar) == "a_" + [] + "_b"
  {
    RemoveAllOfKept("a_", IsNotSlugChar);
    RemoveAllOfDropped("&", IsNotSlugChar);
    RemoveAllOfKept("_b", IsNotSlugChar);
    RemoveAllAppend("a_" + "&", "_b", IsNotSlugChar);
    RemoveAllAppend("a_", "&", IsNotSlugChar);
  }

  lemma CollapsedAmpersand()
    ensures CollapseUnderscores("a__b") == "a_b"
  {
    assert CollapseUnderscores("_b") == "_b";
    assert CollapseUnderscores("__b") == "_b";
  }

  lemma JsSlugOfAmpersand()
    ensures GoogleSheets.NormalizeText("a & b") == "a_b"
  {
    assert Lower("a & b") == "a & b";
    SpacedAmpersand(IsJsWhitespace);
    KeptAmpersand();
    CollapsedAmpersand();
    assert TrimEdgeUnderscore("a_b") == "a_b";
  }

  lemma PreparedAmpersand()
    ensures ReplaceSpaceRuns(Lower(PhpTrim("a & b")), IsPcreSpace) == "a_&_b"
  {
    TrimOfTrimmed("a & b", IsPhpTrimChar);
    assert PhpTrim("a & b") == "a & b";
    assert Lower("a & b") == "a & b";
    SpacedAmpersand(IsPcreSpace);
  }

  lemma UncollapsedAmpersand()
    ensures CollapseUnderscores("a_&_b") == "a_&_b"
  {
    assert NoDoubleUnderscore("a_&_b");
  }

  lemma PhpSlugOfAmpersand()
    ensures PhpNormalizeText("a & b") == "a__b"
  {
    PreparedAmpersand();
    UncollapsedAmpersand();
    KeptAmpersand();
  }

  /**
   * The two slug functions disagree: the browser copy collapses the
   * underscores left around a removed character, the server copy keeps both.
   */
  lemma SlugsDiverge()
    ensures GoogleSheets.NormalizeText("a & b") == "a_b"
    ensures PhpNormalizeText("a & b") == "a__b"
  {
    JsSlugOfAmpersand();
    PhpSlugOfAmpersand();
  }
}
