/**
 * The browser-side data layer of the calculators: it reads one tab of the
 * spreadsheet through the Google Sheets API, normalises the grid with the
 * JavaScript rules, keeps each tab for five minutes in a cache keyed by tab
 * name, and answers card, program and rate queries from it.
 *
 * The network is not modelled: each fetch takes the answer the API would
 * give (`SheetResponse`) and the clock reading (`now`, in milliseconds) as
 * parameters.
 */
module GoogleSheets {
  import opened Wrappers
  import opened Text
  import opened Numbers
  import opened Slug
  import opened Sheet
  import opened GridNormalizer
  import opened CardMerge

  /* ---------------- Rate cells ---------------- */

  /** The class `[₹$,\s]` that is removed from a rate cell before parsing. */
  predicate IsJsCleanChar(c: char) {
    c == '₹' || c == '$' || c == ',' || IsJsWhitespace(c)
  }

  /** A rate cell with currency signs, thousands separators and white space removed. */
  function JsClean(s: string): (r: string)
    ensures forall c :: c in r <==> c in s && !IsJsCleanChar(c)
  {
    RemoveAll(s, IsJsCleanChar)
  }


  /** A cell that is blank after trimming has nothing left after cleaning. */
  lemma BlankCellCleansToEmpty(cell: string)
    requires JsTrim(cell) == ""
    ensures JsClean(cell) == ""
  {
    var i, j :| 0 <= i <= j <= |cell| && JsTrim(cell) == cell[i..j]
      && (forall k :: 0 <= k < i ==> IsJsWhitespace(cell[k]))
      && (forall k :: j <= k < |cell| ==> IsJsWhitespace(cell[k]));
    assert forall k :: 0 <= k < |cell| ==> IsJsCleanChar(cell[k]);
    RemoveAllOfDropped(cell, IsJsCleanChar);
  }

  /** A cleaned cell has no leading white space for `parseFloat` to skip. */
  lemma ParseFloatOfCleaned(x: string)
    requires x == JsClean(x)
    ensures JsParseFloat(x) == ParseDecimalPrefix(x)
  {
    if x != [] {
      assert x[0] in x;
    }
    assert TrimStart(x, IsJsWhitespace) == x;
  }

  /** Trimming and the blank test change nothing that cleaning and `parseFloat` would not. */
  lemma TrimAndBlankTestSubsumed(cell: string)
    ensures (if JsTrim(cell) == "" then None else JsParseFloat(JsClean(JsTrim(cell))))
      == ParseDecimalPrefix(JsClean(cell))
  {
    if JsTrim(cell) == "" {
      BlankCellCleansToEmpty(cell);
    } else {
      RemoveAllAfterTrim(cell, IsJsWhitespace, IsJsCleanChar);
      var x := JsClean(cell);
      assert RemoveAll(x, IsJsCleanChar) == x by {
        forall k | 0 <= k < |x| ensures !IsJsCleanChar(x[k]) {
          assert x[k] in x;
        }
        RemoveAllOfKept(x, IsJsCleanChar);
      }
      ParseFloatOfCleaned(x);
    }
  }

  /**
   * The rate a program-row cell stores: none for a blank cell, otherwise
   * `parseFloat` of the cleaned cell, which is none (NaN) when it does not
   * start with a number. Zero and negative numbers are stored. The blank
   * test and the trim are subsumed by the cleaning: a cell yields a rate
   * exactly when its cleaned text starts with a decimal literal, and the
   * rate is that literal's value.
   */
  function CellRate(cell: string): (r: Option<real>)
    ensures r == ParseDecimalPrefix(JsClean(cell))
    ensures r.Some? <==> StartsNumeric(JsClean(cell))
  {
    TrimAndBlankTestSubsumed(cell);
    if JsTrim(cell) == "" then None else JsParseFloat(JsClean(JsTrim(cell)))
  }

  /** Cleaning strips a leading currency sign from a digit string. */
  lemma CleanOfPrice(sign: char, d: string)
    requires sign == '₹' || sign == '$'
    requires AllDigits(d)
    ensures JsClean([sign] + d) == d
  {
    RemoveAllAppend([sign], d, IsJsCleanChar);
    RemoveAllOfDropped([sign], IsJsCleanChar);
    RemoveAllOfKept(d, IsJsCleanChar);
  }

  /** A currency sign before a whole number is ignored. */
  lemma CellRateOfPrice(sign: char, n: nat)
    requires sign == '₹' || sign == '$'
    ensures CellRate([sign] + NatToString(n)) == Some(n as real)
  {
    var d := NatToString(n);
    CleanOfPrice(sign, d);
    ParseNatString(n);
  }

  /**
   * Removing a class that holds the space, the rupee sign and the comma
   * turns a padded, comma-grouped price into its two groups joined, when
   * the class keeps every character of the groups.
   */
  lemma CleanOfGroupedPrice(drop: char -> bool, lead: string, tail: string, cell: string)
    requires drop(' ') && drop('₹') && drop(',')
    requires forall k :: 0 <= k < |lead| ==> !drop(lead[k])
    requires forall k :: 0 <= k < |tail| ==> !drop(tail[k])
    requires cell == " " + "₹" + lead + "," + tail + " "
    ensures RemoveAll(cell, drop) == lead + tail
  {
    RemoveAllOfGrouped(" ", "₹", lead, ",", tail, drop);
  }

  /** Digits joined around a decimal point are all kept by cleaning. */
  lemma DecimalKept(whole: string, frac: string, drop: char -> bool)
    requires AllDigits(whole) && AllDigits(frac)
    requires !drop('.') && forall c :: IsDigit(c) ==> !drop(c)
    ensures forall k :: 0 <= k < |whole + "." + frac| ==> !drop((whole + "." + frac)[k])
  {
    var tail := whole + "." + frac;
    forall k | 0 <= k < |tail| ensures !drop(tail[k]) {
      if k < |whole| {
        assert tail[k] == whole[k];
      } else if k > |whole| {
        assert tail[k] == frac[k - |whole| - 1];
      }
    }
  }

  /**
   * Padding, the rupee sign and the thousands separator are ignored and the
   * fraction is kept: a padded, comma-grouped price reads as the decimal
   * its digits write.
   */
  lemma CellRateOfGroupedPrice(lead: string, whole: string, frac: string)
    requires |lead| > 0 && AllDigits(lead) && AllDigits(whole) && AllDigits(frac)
    ensures CellRate(" ₹" + lead + "," + whole + "." + frac + " ") == Some(LiteralValue(lead + whole, frac, 0))
  {
    var cell := " ₹" + lead + "," + whole + "." + frac + " ";
    var tail := whole + "." + frac;
    assert cell == " " + "₹" + lead + "," + tail + " ";
    DecimalKept(lead, "", IsJsCleanChar);
    assert lead + "." + "" == lead + ".";
    DecimalKept(whole, frac, IsJsCleanChar);
    CleanOfGroupedPrice(IsJsCleanChar, lead, tail, cell);
    assert lead + tail == (lead + whole) + "." + frac;
    ParseDecimalWithFraction(lead + whole, frac, lead + tail);
  }

  /** Cleaning keeps a minus sign and digits. */
  lemma CleanOfNegative(d: string)
    requires AllDigits(d)
    ensures JsClean("-" + d) == "-" + d
  {
    RemoveAllOfKept("-" + d, IsJsCleanChar);
  }

  /** Zero and negative rates are stored as they are, not dropped. */
  lemma CellRateKeepsNonPositive(n: nat)
    ensures CellRate("-" + NatToString(n)) == Some(-(n as real))
  {
    var d := NatToString(n);
    CleanOfNegative(d);
    ParseNegativeNatString(n);
  }

  /* ---------------- Card ids ---------------- */

  /**
   * The slug of a bank or card name: lower-cased, white-space runs to one
   * underscore, everything outside `[a-z0-9_]` removed, underscore runs
   * collapsed, one underscore stripped at each end.
   */
  function NormalizeText(s: string): (r: string)
    ensures IsCleanSlug(r)
  {
    var spaced := ReplaceSpaceRuns(Lower(s), IsJsWhitespace);
    var kept := KeepSlugChars(spaced);
    var collapsed := CollapseUnderscores(kept);
    assert AllSlugChars(collapsed) by {
      forall i | 0 <= i < |collapsed| ensures IsSlugChar(collapsed[i]) {
        var k :| 0 <= k < |kept| && kept[k] == collapsed[i];
      }
    }
    var r := TrimEdgeUnderscore(collapsed);
    assert AllSlugChars(r) by {
      forall i | 0 <= i < |r| ensures IsSlugChar(r[i]) {
        var k :| 0 <= k < |collapsed| && collapsed[k] == r[i];
      }
    }
    r
  }

  /** A clean slug is its own slug. */
  lemma NormalizeTextOfCleanSlug(s: string)
    requires IsCleanSlug(s)
    ensures NormalizeText(s) == s
  {
    LowerOfSlug(s);
    assert forall i :: 0 <= i < |s| ==> !IsJsWhitespace(s[i]);
    KeepSlugCharsOfSlug(s);
  }

  /** Slugging is idempotent. */
  lemma NormalizeTextIdempotent(s: string)
    ensures NormalizeText(NormalizeText(s)) == NormalizeText(s)
  {
    NormalizeTextOfCleanSlug(NormalizeText(s));
  }

  /** The card id: the bank's slug and the card's slug joined by an underscore. */
  function CreateCardId(bankName: string, cardName: string): (r: string)
    ensures AllSlugChars(r) && '_' in r
  {
    var b := NormalizeText(bankName);
    var n := NormalizeText(cardName);
    JoinedSlug(b, n);
    b + "_" + n
  }

  /** An id built from already-slugged names is the id of the original names. */
  lemma CreateCardIdCanonical(bankName: string, cardName: string)
    ensures CreateCardId(NormalizeText(bankName), NormalizeText(cardName)) == CreateCardId(bankName, cardName)
  {
    NormalizeTextIdempotent(bankName);
    NormalizeTextIdempotent(cardName);
  }

  /** Only lower-case spelling matters: names that differ in the case of ASCII letters share an id. */
  lemma CreateCardIdIgnoresCase(bankName: string, cardName: string)
    ensures CreateCardId(Lower(bankName), Lower(cardName)) == CreateCardId(bankName, cardName)
  {
    LowerIdempotent(bankName);
    LowerIdempotent(cardName);
  }

  /** The JavaScript choices: `trim`, truthiness of a string, `CellRate`, `CreateCardId`. */
  function JsDialect(): Dialect {
    Dialect(JsTrim, s => s != "", CellRate, CreateCardId)
  }

  /**
   * `processSheetData`: the normalised form of the grid; every card id is a
   * string of slug characters and no two programs share an id.
   */
  method ProcessSheetData(rawData: Grid) returns (data: SheetData)
    ensures data == Normalized(rawData, JsDialect())
    ensures forall i :: 0 <= i < |data.creditCards| ==> AllSlugChars(data.creditCards[i].id)
    ensures DistinctIds(data.rewardPrograms)
  {
    data := Normalize(rawData, JsDialect());
    if |rawData| >= 3 {
      var cards := NormalizedCards(rawData, JsDialect());
      assert data == SheetData(cards, ProgramsUpTo(JsDialect(), rawData, cards, |rawData|));
      CardIdsAreSlugs(rawData);
      ProgramIdsDistinct(JsDialect(), rawData, cards, |rawData|);
    }
  }

  lemma CardIdsAreSlugs(grid: Grid)
    requires |grid| >= 3
    ensures forall i :: 0 <= i < |NormalizedCards(grid, JsDialect())| ==> AllSlugChars(NormalizedCards(grid, JsDialect())[i].id)
  {
    var d := JsDialect();
    var cards := NormalizedCards(grid, d);
    CardsUpToFaithful(d, grid[0], grid[1], Width(grid));
    forall i | 0 <= i < |cards| ensures AllSlugChars(cards[i].id) {
      var col := cards[i].column;
      assert CardAt(d, grid[0], grid[1], col) == Some(cards[i]);
      assert cards[i].id == CreateCardId(JsTrim(CellOf(grid[0], col)), JsTrim(CellOf(grid[1], col)));
    }
  }

  /* ---------------- Category and program names ---------------- */

  /** The tab that holds a category; an unknown category reads the airlines tab. */
  function CategorySheetName(category: string): (r: string)
    ensures r == "Airlines" || r == "Hotels" || r == "Cash"
    ensures r == "Hotels" <==> category == "hotels"
    ensures r == "Cash" <==> category == "cash"
  {
    if category == "hotels" then "Hotels"
    else if category == "cash" then "Cash"
    else "Airlines"
  }

  const BankPrograms: map<string, string> := map[
    "chase" := "chase",
    "american express" := "amex",
    "amex" := "amex",
    "capital one" := "capital-one",
    "citi" := "citi",
    "marriott" := "marriott",
    "hilton" := "hilton"]

  /** The points program of a bank, looked up case-insensitively; `other` for unknown banks. */
  function InferProgramFromBank(bankName: string): (r: string)
    ensures Lower(bankName) in BankPrograms ==> r == BankPrograms[Lower(bankName)]
    ensures Lower(bankName) !in BankPrograms ==> r == "other"
  {
    var bank := Lower(bankName);
    if bank in BankPrograms then BankPrograms[bank] else "other"
  }

  /** Inference does not depend on the case of ASCII letters. */
  lemma InferProgramIgnoresCase(bankName: string)
    ensures InferProgramFromBank(Lower(bankName)) == InferProgramFromBank(bankName)
  {
    LowerIdempotent(bankName);
  }

  /* ---------------- The cached fetch ---------------- */

  /** Five minutes, in milliseconds. */
  const CacheExpiry: int := 5 * 60 * 1000

  datatype CacheEntry = CacheEntry(data: SheetData, timestamp: int)

  /**
   * What the API call yields: a JSON body whose `values` range may be
   * missing, a response that is not `ok`, or a failure (network error or a
   * body that is not JSON).
   */
  datatype SheetResponse = Answered(values: Option<Grid>) | HttpError | FetchFailed

  function CacheKey(sheetName: string): string {
    "sheet_" + sheetName
  }

  /** The cache holds an entry for `key` that is younger than the expiry at time `now`. */
  predicate IsFresh(cache: map<string, CacheEntry>, key: string, now: int) {
    key in cache && now - cache[key].timestamp < CacheExpiry
  }

  /**
   * `fetchSheetData`: the data returned and the cache afterwards. A fresh
   * entry is returned without asking the network; a successful answer is
   * normalised and stored with the time of the call; an error answer gives
   * empty data and leaves the cache alone.
   */
  function Fetch(cache: map<string, CacheEntry>, sheetName: string, now: int, response: SheetResponse)
    : (r: (SheetData, map<string, CacheEntry>))
    ensures var key := CacheKey(sheetName);
      && (r.1 == cache || (key in r.1 && r.1 == cache[key := r.1[key]]))
      && (IsFresh(cache, key, now) ==> r == (cache[key].data, cache))
      && (IsFresh(r.1, key, now) <==> IsFresh(cache, key, now) || response.Answered?)
      && (IsFresh(r.1, key, now) ==> r.0 == r.1[key].data)
      && (!IsFresh(r.1, key, now) ==> r == (EmptySheetData, cache))
      && (r.1 != cache ==> response.Answered? && r.1[key] == CacheEntry(Normalized(response.values.GetOr([]), JsDialect()), now))
  {
    var key := CacheKey(sheetName);
    if IsFresh(cache, key, now) then (cache[key].data, cache)
    else match response
      case Answered(values) =>
        var data := Normalized(values.GetOr([]), JsDialect());
        (data, cache[key := CacheEntry(data, now)])
      case _ => (EmptySheetData, cache)
  }

  /**
   * After a fetch that reached the network and succeeded, every request for
   * the same tab within five minutes returns the same data and leaves the
   * cache as it is, whatever the network would have answered.
   */
  lemma FetchIsCachedForFiveMinutes(cache: map<string, CacheEntry>, sheetName: string, t0: int, r0: SheetResponse,
                                    t1: int, r1: SheetResponse)
    requires !IsFresh(cache, CacheKey(sheetName), t0) && r0.Answered?
    requires t0 <= t1 < t0 + CacheExpiry
    ensures var (data, after) := Fetch(cache, sheetName, t0, r0);
      Fetch(after, sheetName, t1, r1) == (data, after)
  {
  }

  /** An entry five minutes old or older is never served: the tab is read again. */
  lemma FetchExpires(cache: map<string, CacheEntry>, sheetName: string, t0: int, r0: SheetResponse,
                     t1: int, r1: SheetResponse)
    requires r0.Answered? && t1 >= t0 + CacheExpiry
    requires !IsFresh(cache, CacheKey(sheetName), t0)
    ensures var (_, after) := Fetch(cache, sheetName, t0, r0);
      Fetch(after, sheetName, t1, r1).0 == Fetch(map[], sheetName, t1, r1).0
  {
  }

  /** A failed request returns empty data and caches nothing, so the next request asks again. */
  lemma FetchFailureIsNotCached(cache: map<string, CacheEntry>, sheetName: string, now: int, response: SheetResponse,
                                later: int)
    requires !IsFresh(cache, CacheKey(sheetName), now) && !response.Answered?
    requires later >= now
    ensures Fetch(cache, sheetName, now, response) == (EmptySheetData, cache)
    ensures !IsFresh(Fetch(cache, sheetName, now, response).1, CacheKey(sheetName), later)
  {
  }

  /** A fetch touches only the entry of its own tab. */
  lemma FetchKeepsOtherTabs(cache: map<string, CacheEntry>, sheetName: string, now: int, response: SheetResponse,
                            other: string)
    requires other != sheetName
    ensures var after := Fetch(cache, sheetName, now, response).1;
      && (CacheKey(other) in after <==> CacheKey(other) in cache)
      && (CacheKey(other) in cache ==> after[CacheKey(other)] == cache[CacheKey(other)])
  {
    assert CacheKey(other)[6..] == other;
    assert CacheKey(sheetName)[6..] == sheetName;
  }

  /** The three tabs as `getAllData` fetches them: airlines, hotels, cash. */
  datatype AllData = AllData(airlines: SheetData, hotels: SheetData, cash: SheetData)

  function FetchAll(cache: map<string, CacheEntry>, now: int,
                    airlines: SheetResponse, hotels: SheetResponse, cash: SheetResponse)
    : (AllData, map<string, CacheEntry>)
  {
    var (a, c1) := Fetch(cache, "Airlines", now, airlines);
    var (h, c2) := Fetch(c1, "Hotels", now, hotels);
    var (k, c3) := Fetch(c2, "Cash", now, cash);
    (AllData(a, h, k), c3)
  }

  class SheetsApi {
    var cache: map<string, CacheEntry>

    constructor()
      ensures cache == map[]
    {
      cache := map[];
    }

    method FetchSheetData(sheetName: string, now: int, response: SheetResponse) returns (data: SheetData)
      modifies this
      ensures (data, cache) == Fetch(old(cache), sheetName, now, response)
    {
      var key := CacheKey(sheetName);
      if key in cache && now - cache[key].timestamp < CacheExpiry {
        return cache[key].data;
      }
      match response {
        case Answered(values) =>
          data := ProcessSheetData(values.GetOr([]));
          cache := cache[key := CacheEntry(data, now)];
        case HttpError =>
          data := EmptySheetData;
        case FetchFailed =>
          data := EmptySheetData;
      }
    }

    method GetAllData(now: int, airlines: SheetResponse, hotels: SheetResponse, cash: SheetResponse)
      returns (all: AllData)
      modifies this
      ensures (all, cache) == FetchAll(old(cache), now, airlines, hotels, cash)
    {
      var a := FetchSheetData("Airlines", now, airlines);
      var h := FetchSheetData("Hotels", now, hotels);
      var k := FetchSheetData("Cash", now, cash);
      all := AllData(a, h, k);
    }

    /** The cards of all three tabs, one per lower-cased bank and name, first occurrence first. */
    method GetAllCreditCards(now: int, airlines: SheetResponse, hotels: SheetResponse, cash: SheetResponse)
      returns (cards: seq<ListedCard>)
      modifies this
      ensures var (all, after) := FetchAll(old(cache), now, airlines, hotels, cash);
        && cache == after
        && cards == Merged([all.airlines.creditCards, all.hotels.creditCards, all.cash.creditCards],
                           InferProgramFromBank)
    {
      var all := GetAllData(now, airlines, hotels, cash);
      cards := MergeCards([all.airlines.creditCards, all.hotels.creditCards, all.cash.creditCards],
                          InferProgramFromBank);
    }

    method GetRewardPrograms(category: string, now: int, response: SheetResponse) returns (programs: seq<Program>)
      modifies this
      ensures var (data, after) := Fetch(old(cache), CategorySheetName(category), now, response);
        programs == data.rewardPrograms && cache == after
    {
      var data := FetchSheetData(CategorySheetName(category), now, response);
      programs := data.rewardPrograms;
    }

    /**
     * The rate of a card in a program of a category's tab, None (null) when
     * the program is missing or has no own entry for the card.
     */
    method GetConversionValue(category: string, programId: string, cardId: string, now: int, response: SheetResponse)
      returns (value: Option<real>)
      modifies this
      ensures var (data, after) := Fetch(old(cache), CategorySheetName(category), now, response);
        value == LookupRate(data.rewardPrograms, programId, cardId) && cache == after
    {
      var programs := GetRewardPrograms(category, now, response);
      value := LookupRate(programs, programId, cardId);
    }

    method ClearCache()
      modifies this
      ensures cache == map[]
    {
      cache := map[];
    }
  }
}
