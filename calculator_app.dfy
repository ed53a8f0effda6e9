/**
 * The calculator front-ends: the main page (`App`) and the hotels, cash and
 * airlines pages, which share their state and rules and differ only in
 * where the redemption category comes from. The page keeps all cards, the
 * cards matching the search, the current page, the selected card, the
 * category and the selected program; it lists the programs that give the
 * selected card a positive rate and turns a points entry into a value.
 */
module CalculatorApp {
  import opened Wrappers
  import opened Text
  import opened Numbers
  import opened Sheet
  import opened CardMerge
  import opened Pagination

  /* ---------------- Search ---------------- */

  /** The card's name or bank contains the query, ignoring the case of ASCII letters. */
  predicate MatchesQuery(card: ListedCard, query: string) {
    Contains(Lower(card.name), Lower(query)) || Contains(Lower(card.bank), Lower(query))
  }

  /** `allCards.filter(...)` for a query: the matching cards, in their order. */
  function SearchFilter(cards: seq<ListedCard>, query: string): (r: seq<ListedCard>)
    ensures |r| <= |cards|
    ensures forall c :: c in r <==> c in cards && MatchesQuery(c, query)
  {
    if cards == [] then []
    else
      var rest := SearchFilter(cards[..|cards| - 1], query);
      var c := cards[|cards| - 1];
      assert forall x :: x in cards <==> x in cards[..|cards| - 1] || x == c;
      if MatchesQuery(c, query) then rest + [c] else rest
  }

  /** Filtering keeps order: filtering a concatenation concatenates the filtered parts. */
  lemma {:induction false} SearchFilterAppend(a: seq<ListedCard>, b: seq<ListedCard>, query: string)
    ensures SearchFilter(a + b, query) == SearchFilter(a, query) + SearchFilter(b, query)
  {
    if b != [] {
      assert (a + b)[..|a + b| - 1] == a + b[..|b| - 1];
      assert (a + b)[|a + b| - 1] == b[|b| - 1];
      SearchFilterAppend(a, b[..|b| - 1], query);
    } else {
      assert a + b == a;
    }
  }

  /** The query's case does not matter. */
  lemma SearchIgnoresCase(cards: seq<ListedCard>, query: string)
    ensures SearchFilter(cards, Lower(query)) == SearchFilter(cards, query)
  {
    LowerIdempotent(query);
  }

  /* ---------------- Programs and values ---------------- */

  /** A program gives the card a positive rate in the catalog the rate lookup reads. */
  predicate HasPositiveRate(catalog: seq<Program>, p: Program, cardId: string) {
    var v := LookupRate(catalog, p.id, cardId);
    v.Some? && v.value > 0.0
  }

  /** The programs with a positive rate for the card, in their order. */
  function KeepRated(programs: seq<Program>, catalog: seq<Program>, cardId: string): (r: seq<Program>)
    ensures |r| <= |programs|
    ensures forall p :: p in r <==> p in programs && HasPositiveRate(catalog, p, cardId)
  {
    if programs == [] then []
    else
      var rest := KeepRated(programs[..|programs| - 1], catalog, cardId);
      var p := programs[|programs| - 1];
      assert forall x :: x in programs <==> x in programs[..|programs| - 1] || x == p;
      if HasPositiveRate(catalog, p, cardId) then rest + [p] else rest
  }

  /** Filtering a list split in two keeps each part's rated programs, in order. */
  lemma {:induction false} KeepRatedAppend(a: seq<Program>, b: seq<Program>, catalog: seq<Program>, cardId: string)
    ensures KeepRated(a + b, catalog, cardId) == KeepRated(a, catalog, cardId) + KeepRated(b, catalog, cardId)
  {
    if b != [] {
      assert (a + b)[..|a + b| - 1] == a + b[..|b| - 1];
      assert (a + b)[|a + b| - 1] == b[|b| - 1];
      KeepRatedAppend(a, b[..|b| - 1], catalog, cardId);
    } else {
      assert a + b == a;
    }
  }

  /**
   * When the catalog is the list itself and program ids are distinct, as
   * the normaliser guarantees, a program is kept exactly when its own rate
   * map gives the card a positive rate.
   */
  lemma KeepRatedReadsOwnRates(programs: seq<Program>, cardId: string)
    requires DistinctIds(programs)
    ensures forall p :: p in KeepRated(programs, programs, cardId) <==>
      p in programs && cardId in p.values && p.values[cardId] > 0.0
  {
    forall p | p in programs
      ensures HasPositiveRate(programs, p, cardId) <==> cardId in p.values && p.values[cardId] > 0.0
    {
      var i :| 0 <= i < |programs| && programs[i] == p;
      LookupRateOfUnique(programs, i, p.id, cardId);
    }
  }

  /** What the result box shows. */
  datatype Display = ZeroValue | NotAvailable | Amount(value: real)

  /**
   * `parseFloat(input) || 0`: the number the input starts with after any
   * white space, 0 when it starts with none.
   */
  function Points(input: string): (p: real)
    ensures StartsNumeric(TrimStart(input, IsJsWhitespace)) ==> JsParseFloat(input) == Some(p)
    ensures !StartsNumeric(TrimStart(input, IsJsWhitespace)) ==> p == 0.0
  {
    JsParseFloat(input).GetOr(0.0)
  }

  /**
   * The value shown for a number of points and a looked-up rate: ₹0.00
   * unless the points are positive, N/A when the rate is missing or zero,
   * and otherwise points times rate (a negative rate included).
   */
  function ValueOf(points: real, rate: Option<real>): (d: Display)
    ensures d.ZeroValue? <==> points <= 0.0
    ensures d.NotAvailable? <==> points > 0.0 && (rate.None? || rate.value == 0.0)
    ensures d.Amount? ==> rate.Some? && d.value == points * rate.value
    ensures d.Amount? && rate.value > 0.0 ==> d.value > 0.0
  {
    if points > 0.0 then
      match rate
      case Some(r) =>
        if r != 0.0 then
          ProductPositive(points, r);
          Amount(points * r)
        else NotAvailable
      case None => NotAvailable
    else ZeroValue
  }

  lemma ProductPositive(x: real, y: real)
    requires x > 0.0
    ensures y > 0.0 ==> x * y > 0.0
  {
  }

  /**
   * `calculateValue`: the value shown for what was typed in the points box;
   * text that does not start with a number shows ₹0.00.
   */
  function CalculateValue(input: string, rate: Option<real>): (d: Display)
    ensures d.ZeroValue? <==> Points(input) <= 0.0
    ensures d.NotAvailable? <==> Points(input) > 0.0 && (rate.None? || rate.value == 0.0)
    ensures d.Amount? ==> rate.Some? && d.value == Points(input) * rate.value
    ensures !StartsNumeric(TrimStart(input, IsJsWhitespace)) ==> d == ZeroValue
  {
    ValueOf(Points(input), rate)
  }

  /** Input that starts with no white space is read as it stands. */
  lemma PointsOfUnspaced(input: string)
    requires input != [] && !IsJsWhitespace(input[0])
    ensures Points(input) == ParseDecimalPrefix(input).GetOr(0.0)
  {
    assert TrimStart(input, IsJsWhitespace) == input;
  }

  /** A whole number typed in the box is read as that number of points. */
  lemma PointsOfWhole(n: nat)
    ensures Points(NatToString(n)) == n as real
  {
    var s := NatToString(n);
    assert IsDigit(s[0]);
    PointsOfUnspaced(s);
    ParseNatString(n);
  }

  /** Whole points times a non-zero rate are shown as their product. */
  lemma CalculateValueOfWholePoints(n: nat, rate: real)
    requires n > 0 && rate != 0.0
    ensures CalculateValue(NatToString(n), Some(rate)) == Amount(n as real * rate)
  {
    PointsOfWhole(n);
    ValueOfPositivePoints(n as real, rate);
  }

  lemma ValueOfPositivePoints(points: real, rate: real)
    requires points > 0.0 && rate != 0.0
    ensures ValueOf(points, Some(rate)) == Amount(points * rate)
  {
  }

  /** A negative entry shows ₹0.00, whatever the rate. */
  lemma CalculateValueOfNegativePoints(n: nat, rate: Option<real>)
    ensures CalculateValue("-" + NatToString(n), rate) == ZeroValue
  {
    var s := "-" + NatToString(n);
    PointsOfUnspaced(s);
    ParseNegativeNatString(n);
    assert Points(s) == -(n as real);
  }

  /* ---------------- The page ---------------- */

  class Calculator {
    var currentPage: int
    var filteredCards: seq<ListedCard>
    var allCards: seq<ListedCard>
    var selectedCard: Option<ListedCard>
    var selectedProgram: Option<Program>
    /** The redemption category; the main page starts without one (""). */
    var category: string

    /** The current page is a page of the filtered list (page 1 when it is empty). */
    predicate Valid()
      reads this
    {
      1 <= currentPage <= Max1(TotalPages(|filteredCards|))
    }

    static function Max1(t: nat): nat {
      if t < 1 then 1 else t
    }

    /** The main page: no category until one is picked. */
    constructor App()
      ensures Valid()
      ensures currentPage == 1 && filteredCards == [] && allCards == []
      ensures selectedCard.None? && selectedProgram.None? && category == ""
    {
      currentPage := 1;
      filteredCards := [];
      allCards := [];
      selectedCard := None;
      selectedProgram := None;
      category := "";
    }

    /** A category page: the category is fixed. */
    constructor ForCategory(fixedCategory: string)
      ensures Valid()
      ensures currentPage == 1 && filteredCards == [] && allCards == []
      ensures selectedCard.None? && selectedProgram.None? && category == fixedCategory
    {
      currentPage := 1;
      filteredCards := [];
      allCards := [];
      selectedCard := None;
      selectedProgram := None;
      category := fixedCategory;
    }

    /**
     * `loadCreditCards` and the start of `init`: the fetched cards, or the
     * built-in list when none came back, all of them shown.
     */
    method LoadCards(fetched: seq<ListedCard>, defaults: seq<ListedCard>)
      requires currentPage == 1
      modifies this
      ensures Valid()
      ensures allCards == (if fetched == [] then defaults else fetched)
      ensures filteredCards == allCards && currentPage == old(currentPage)
      ensures selectedCard == old(selectedCard) && selectedProgram == old(selectedProgram) && category == old(category)
    {
      allCards := if fetched == [] then defaults else fetched;
      filteredCards := allCards;
    }

    /** The cards rendered on the current page. */
    function VisibleCards(): (r: seq<ListedCard>)
      reads this
      requires Valid()
      ensures |r| <= CardsPerPage
    {
      PageSlice(filteredCards, currentPage)
    }

    /**
     * The page buttons rendered: none while the list is empty, otherwise
     * pages of the list only, the current page among them.
     */
    function PageButtons(): (r: seq<PageItem>)
      reads this
      ensures r == [] <==> filteredCards == []
      ensures forall i :: 0 <= i < |r| && r[i].PageButton? ==> 1 <= r[i].page <= TotalPages(|filteredCards|)
      ensures Valid() && filteredCards != [] ==> PageButton(currentPage) in r
    {
      if filteredCards == [] then []
      else
        var t := TotalPages(|filteredCards|);
        PageWindowListsPages(t, currentPage);
        PageWindow(t, currentPage)
    }

    /** A click on a page button. */
    method GoToPage(pageNum: int)
      requires Valid() && PageButton(pageNum) in PageButtons()
      modifies this
      ensures Valid() && currentPage == pageNum
      ensures filteredCards == old(filteredCards) && allCards == old(allCards)
      ensures selectedCard == old(selectedCard) && selectedProgram == old(selectedProgram) && category == old(category)
    {
      PageWindowListsPages(TotalPages(|filteredCards|), currentPage);
      currentPage := pageNum;
    }

    /** The previous-page button: only from a page after the first. */
    method PrevPage()
      requires Valid()
      modifies this
      ensures Valid()
      ensures currentPage == if old(currentPage) > 1 then old(currentPage) - 1 else old(currentPage)
      ensures filteredCards == old(filteredCards) && allCards == old(allCards)
      ensures selectedCard == old(selectedCard) && selectedProgram == old(selectedProgram) && category == old(category)
    {
      if currentPage > 1 {
        currentPage := currentPage - 1;
      }
    }

    /** The next-page button: only from a page before the last. */
    method NextPage()
      requires Valid()
      modifies this
      ensures Valid()
      ensures currentPage == if old(currentPage) < TotalPages(|filteredCards|) then old(currentPage) + 1 else old(currentPage)
      ensures filteredCards == old(filteredCards) && allCards == old(allCards)
      ensures selectedCard == old(selectedCard) && selectedProgram == old(selectedProgram) && category == old(category)
    {
      var totalPages := TotalPages(|filteredCards|);
      if currentPage < totalPages {
        currentPage := currentPage + 1;
      }
    }

    /** Typing in the search box: back to page 1, all cards for a blank query, else the matches. */
    method HandleSearch(query: string)
      modifies this
      ensures Valid() && currentPage == 1
      ensures filteredCards == if JsTrim(query) == "" then allCards else SearchFilter(allCards, query)
      ensures allCards == old(allCards)
      ensures selectedCard == old(selectedCard) && selectedProgram == old(selectedProgram) && category == old(category)
    {
      currentPage := 1;
      if JsTrim(query) == "" {
        filteredCards := allCards;
      } else {
        filteredCards := SearchFilter(allCards, query);
      }
    }

    /** The clear button: back to page 1 with all cards. */
    method ClearSearch()
      modifies this
      ensures Valid() && currentPage == 1 && filteredCards == allCards
      ensures allCards == old(allCards)
      ensures selectedCard == old(selectedCard) && selectedProgram == old(selectedProgram) && category == old(category)
    {
      currentPage := 1;
      filteredCards := allCards;
    }

    /** A click on a card. */
    method SelectCard(card: ListedCard)
      modifies this
      ensures selectedCard == Some(card)
      ensures currentPage == old(currentPage) && filteredCards == old(filteredCards) && allCards == old(allCards)
      ensures selectedProgram == old(selectedProgram) && category == old(category)
    {
      selectedCard := Some(card);
    }

    /** Back to the card list: the selection is dropped. */
    method ShowCardSelection()
      modifies this
      ensures selectedCard.None?
      ensures currentPage == old(currentPage) && filteredCards == old(filteredCards) && allCards == old(allCards)
      ensures selectedProgram == old(selectedProgram) && category == old(category)
    {
      selectedCard := None;
    }

    /** A click on a category of the main page. */
    method SelectCategory(categoryType: string)
      modifies this
      ensures category == categoryType
      ensures currentPage == old(currentPage) && filteredCards == old(filteredCards) && allCards == old(allCards)
      ensures selectedCard == old(selectedCard) && selectedProgram == old(selectedProgram)
    {
      category := categoryType;
    }

    /** A click on a program: the first program with that id in the catalog, if any. */
    method SelectProgram(programId: string, catalog: seq<Program>)
      modifies this
      ensures match FindProgram(catalog, programId)
        case Some(i) => selectedProgram == Some(catalog[i])
        case None => selectedProgram == old(selectedProgram)
      ensures currentPage == old(currentPage) && filteredCards == old(filteredCards) && allCards == old(allCards)
      ensures selectedCard == old(selectedCard) && category == old(category)
    {
      match FindProgram(catalog, programId) {
        case Some(i) => selectedProgram := Some(catalog[i]);
        case None =>
      }
    }

    /**
     * `filterProgramsForSelectedCard`: none without a selected card (or one
     * with an empty id), otherwise, in order, the programs whose rate for
     * the card, looked up in `catalog`, is positive.
     */
    method FilterProgramsForSelectedCard(programs: seq<Program>, catalog: seq<Program>) returns (filtered: seq<Program>)
      ensures selectedCard.None? || selectedCard.value.id == "" ==> filtered == []
      ensures selectedCard.Some? && selectedCard.value.id != "" ==>
        filtered == KeepRated(programs, catalog, selectedCard.value.id)
    {
      filtered := [];
      if selectedCard.None? || selectedCard.value.id == "" {
        return;
      }
      var cardId := selectedCard.value.id;
      for i := 0 to |programs|
        invariant filtered == KeepRated(programs[..i], catalog, cardId)
      {
        assert programs[..i + 1][..i] == programs[..i];
        var conversionValue := LookupRate(catalog, programs[i].id, cardId);
        if conversionValue.Some? && conversionValue.value > 0.0 {
          filtered := filtered + [programs[i]];
        }
      }
      assert programs[..|programs|] == programs;
    }

    /**
     * `getConversionRate`: the selected card's rate in the selected
     * program; none without a card with an id, without a program, or when
     * the program stores no rate for the card.
     */
    function ConversionRate(catalog: seq<Program>): (r: Option<real>)
      reads this
      ensures r.Some? <==> && selectedCard.Some? && selectedCard.value.id != "" && selectedProgram.Some?
                           && exists i :: HasOwnRate(catalog, i, selectedProgram.value.id, selectedCard.value.id)
      ensures r.Some? ==> exists i :: HasOwnRate(catalog, i, selectedProgram.value.id, selectedCard.value.id)
                                    && catalog[i].values[selectedCard.value.id] == r.value
    {
      if selectedCard.None? || selectedCard.value.id == "" || selectedProgram.None? then None
      else LookupRate(catalog, selectedProgram.value.id, selectedCard.value.id)
    }
  }

  /** The hotels page. */
  method NewHotelsCalculator() returns (c: Calculator)
    ensures fresh(c) && c.Valid() && c.category == "hotels"
  {
    c := new Calculator.ForCategory("hotels");
  }

  /** The cash page. */
  method NewCashCalculator() returns (c: Calculator)
    ensures fresh(c) && c.Valid() && c.category == "cash"
  {
    c := new Calculator.ForCategory("cash");
  }

  /** The airlines page. */
  method NewAirlinesCalculator() returns (c: Calculator)
    ensures fresh(c) && c.Valid() && c.category == "airlines"
  {
    c := new Calculator.ForCategory("airlines");
  }
}
