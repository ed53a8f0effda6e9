/**
 * The browser-side data layer of the WordPress build: it asks the theme's
 * AJAX endpoint for an already normalised tab, keeps it for five minutes,
 * and falls back to three built-in cards and one built-in program whenever
 * the request fails.
 */
module SecureProxy {
  import opened Wrappers
  import opened Text
  import opened Sheet
  import opened CardMerge
  import opened GridNormalizer
  import opened GoogleSheets
  import opened Slug
  import WordPressFunctions

  /**
   * What the AJAX call yields: a response with its `ok` flag, the JSON
   * body's `success` flag and the tab's grid as the server read it, or a
   * failure (network error or a body that is not JSON). The body's `data`
   * is the server's normalisation of that grid (`ServedData`).
   */
  datatype ProxyResponse = Reply(ok: bool, success: bool, values: Grid) | NetworkError

  /**
   * What `ccalc_handle_sheet_request` answers for a grid: the server copy
   * of the normaliser applied to it. A reply the server takes from its own
   * five-minute transient was computed the same way.
   */
  function ServedData(values: Grid): (r: SheetData)
    ensures WordPressFunctions.RatesPositive(r.rewardPrograms)
    ensures forall i :: 0 <= i < |r.creditCards| ==> AllSlugChars(r.creditCards[i].id)
  {
    WordPressFunctions.ServedRatesPositive(values);
    Normalized(values, WordPressFunctions.PhpDialect())
  }

  /** Every rate of every cached tab is positive. */
  predicate CachePositive(cache: map<string, CacheEntry>) {
    forall k :: k in cache ==> WordPressFunctions.RatesPositive(cache[k].data.rewardPrograms)
  }

  /** The built-in cards; they carry no sheet column, modelled as column 0. */
  const FallbackCards: seq<Card> := [
    Card("hdfc_regalia", "HDFC Bank", "Regalia Credit Card", 0),
    Card("axis_magnus", "Axis Bank", "Magnus Credit Card", 0),
    Card("amex_platinum", "American Express", "Platinum Card", 0)]

  /** The built-in data for a tab: its one program is named after the tab. */
  function FallbackData(sheetName: string): (r: SheetData)
    ensures |r.creditCards| == 3 && |r.rewardPrograms| == 1
    ensures r.rewardPrograms[0].id == "program_1"
    ensures r.rewardPrograms[0].values.Keys == set i | 0 <= i < |r.creditCards| :: r.creditCards[i].id
    ensures forall k :: k in r.rewardPrograms[0].values ==> r.rewardPrograms[0].values[k] >= 1.0
  {
    var name := if sheetName == "Airlines" then "Air Miles" else if sheetName == "Hotels" then "Hotel Points" else "Cash Back";
    var pointName := if sheetName == "Airlines" then "Miles" else if sheetName == "Hotels" then "Points" else "Cash";
    var values := map["hdfc_regalia" := 1.0, "axis_magnus" := 1.2, "amex_platinum" := 1.5];
    var r := SheetData(FallbackCards, [Program("program_1", name, pointName, values)]);
    assert r.creditCards[0].id == "hdfc_regalia" && r.creditCards[1].id == "axis_magnus" && r.creditCards[2].id == "amex_platinum";
    r
  }

  /**
   * `fetchSheetData`: a fresh entry is returned without a request; a reply
   * that is `ok` and `success` is stored as it is, with the time of the
   * call; anything else returns the built-in data and caches nothing. Only
   * the tab's own entry changes, and a cache of positive rates stays so and
   * serves only positive rates.
   */
  function ProxyFetch(cache: map<string, CacheEntry>, sheetName: string, now: int, response: ProxyResponse)
    : (r: (SheetData, map<string, CacheEntry>))
    ensures var key := CacheKey(sheetName);
      && (r.1 == cache || (key in r.1 && r.1 == cache[key := r.1[key]]))
      && (IsFresh(cache, key, now) ==> r == (cache[key].data, cache))
      && (IsFresh(r.1, key, now) <==> IsFresh(cache, key, now) || (response.Reply? && response.ok && response.success))
      && (IsFresh(r.1, key, now) ==> r.0 == r.1[key].data)
      && (!IsFresh(r.1, key, now) ==> r == (FallbackData(sheetName), cache))
      && (r.1 != cache ==> response.Reply? && r.1[key] == CacheEntry(ServedData(response.values), now))
    ensures CachePositive(cache) ==> CachePositive(r.1) && WordPressFunctions.RatesPositive(r.0.rewardPrograms)
  {
    var key := CacheKey(sheetName);
    if IsFresh(cache, key, now) then (cache[key].data, cache)
    else if response.Reply? && response.ok && response.success then
      var data := ServedData(response.values);
      (data, cache[key := CacheEntry(data, now)])
    else (FallbackData(sheetName), cache)
  }

  /**
   * Any failure, whatever its kind, yields the built-in data for the tab and
   * leaves the cache alone, so the next request asks the server again.
   */
  lemma ProxyFailureFallsBack(cache: map<string, CacheEntry>, sheetName: string, now: int, response: ProxyResponse,
                              later: int)
    requires !IsFresh(cache, CacheKey(sheetName), now)
    requires !(response.Reply? && response.ok && response.success)
    requires later >= now
    ensures ProxyFetch(cache, sheetName, now, response) == (FallbackData(sheetName), cache)
    ensures !IsFresh(ProxyFetch(cache, sheetName, now, response).1, CacheKey(sheetName), later)
  {
  }

  /** A successful reply is served from the cache for five minutes, whatever the server would answer. */
  lemma ProxyReplyIsCachedForFiveMinutes(cache: map<string, CacheEntry>, sheetName: string, t0: int, values: Grid,
                                         t1: int, r1: ProxyResponse)
    requires !IsFresh(cache, CacheKey(sheetName), t0)
    requires t0 <= t1 < t0 + CacheExpiry
    ensures var (first, after) := ProxyFetch(cache, sheetName, t0, Reply(true, true, values));
      first == ServedData(values) && ProxyFetch(after, sheetName, t1, r1) == (first, after)
  {
  }

  /** When the server cannot be reached, each built-in card still has a rate in the built-in program. */
  lemma FallbackRates(sheetName: string)
    ensures var programs := FallbackData(sheetName).rewardPrograms;
      && LookupRate(programs, "program_1", "hdfc_regalia") == Some(1.0)
      && LookupRate(programs, "program_1", "axis_magnus") == Some(1.2)
      && LookupRate(programs, "program_1", "amex_platinum") == Some(1.5)
  {
    var programs := FallbackData(sheetName).rewardPrograms;
    LookupRateOfUnique(programs, 0, "program_1", "hdfc_regalia");
    LookupRateOfUnique(programs, 0, "program_1", "axis_magnus");
    LookupRateOfUnique(programs, 0, "program_1", "amex_platinum");
  }

  const ProxyBankPrograms: map<string, string> := map[
    "hdfc" := "hdfc",
    "axis" := "axis",
    "american express" := "amex",
    "amex" := "amex",
    "sbi" := "sbi",
    "icici" := "icici"]

  /** The proxy's own bank table, looked up case-insensitively; `other` for unknown banks. */
  function ProxyInferProgramFromBank(bankName: string): (r: string)
    ensures Lower(bankName) in ProxyBankPrograms ==> r == ProxyBankPrograms[Lower(bankName)]
    ensures Lower(bankName) !in ProxyBankPrograms ==> r == "other"
  {
    var bank := Lower(bankName);
    if bank in ProxyBankPrograms then ProxyBankPrograms[bank] else "other"
  }

  /**
   * The built-in cards name their banks in full, so listing them infers
   * `other` for the HDFC and Axis cards, although the built-in records give
   * `hdfc` and `axis`; only American Express is recognised.
   */
  lemma FallbackBanksInferred()
    ensures ProxyInferProgramFromBank("HDFC Bank") == "other"
    ensures ProxyInferProgramFromBank("Axis Bank") == "other"
    ensures ProxyInferProgramFromBank("American Express") == "amex"
  {
    assert Lower("HDFC Bank") == "hdfc bank";
    assert Lower("Axis Bank") == "axis bank";
    assert Lower("American Express") == "american express";
  }

  function ProxyFetchAll(cache: map<string, CacheEntry>, now: int,
                         airlines: ProxyResponse, hotels: ProxyResponse, cash: ProxyResponse)
    : (AllData, map<string, CacheEntry>)
  {
    var (a, c1) := ProxyFetch(cache, "Airlines", now, airlines);
    var (h, c2) := ProxyFetch(c1, "Hotels", now, hotels);
    var (k, c3) := ProxyFetch(c2, "Cash", now, cash);
    (AllData(a, h, k), c3)
  }

  class SecureCalculatorProxy {
    var cache: map<string, CacheEntry>

    constructor()
      ensures cache == map[]
    {
      cache := map[];
    }

    method FetchSheetData(sheetName: string, now: int, response: ProxyResponse) returns (data: SheetData)
      modifies this
      ensures (data, cache) == ProxyFetch(old(cache), sheetName, now, response)
    {
      var key := CacheKey(sheetName);
      if key in cache && now - cache[key].timestamp < CacheExpiry {
        return cache[key].data;
      }
      match response {
        case Reply(ok, success, result) =>
          if !ok || !success {
            return FallbackData(sheetName);
          }
          data := WordPressFunctions.ProcessSheetData(result);
          cache := cache[key := CacheEntry(data, now)];
        case NetworkError =>
          data := FallbackData(sheetName);
      }
    }

    method GetAllData(now: int, airlines: ProxyResponse, hotels: ProxyResponse, cash: ProxyResponse)
      returns (all: AllData)
      modifies this
      ensures (all, cache) == ProxyFetchAll(old(cache), now, airlines, hotels, cash)
    {
      var a := FetchSheetData("Airlines", now, airlines);
      var h := FetchSheetData("Hotels", now, hotels);
      var k := FetchSheetData("Cash", now, cash);
      all := AllData(a, h, k);
    }

    method GetAllCreditCards(now: int, airlines: ProxyResponse, hotels: ProxyResponse, cash: ProxyResponse)
      returns (cards: seq<ListedCard>)
      modifies this
      ensures var (all, after) := ProxyFetchAll(old(cache), now, airlines, hotels, cash);
        && cache == after
        && cards == Merged([all.airlines.creditCards, all.hotels.creditCards, all.cash.creditCards],
                           ProxyInferProgramFromBank)
    {
      var all := GetAllData(now, airlines, hotels, cash);
      cards := MergeCards([all.airlines.creditCards, all.hotels.creditCards, all.cash.creditCards],
                          ProxyInferProgramFromBank);
    }

    method GetRewardPrograms(category: string, now: int, response: ProxyResponse) returns (programs: seq<Program>)
      modifies this
      ensures var (data, after) := ProxyFetch(old(cache), CategorySheetName(category), now, response);
        programs == data.rewardPrograms && cache == after
    {
      var data := FetchSheetData(CategorySheetName(category), now, response);
      programs := data.rewardPrograms;
    }

    method GetConversionValue(category: string, programId: string, cardId: string, now: int, response: ProxyResponse)
      returns (value: Option<real>)
      modifies this
      ensures var (data, after) := ProxyFetch(old(cache), CategorySheetName(category), now, response);
        value == LookupRate(data.rewardPrograms, programId, cardId) && cache == after
    {
      var programs := GetRewardPrograms(category, now, response);
      value := LookupRate(programs, programId, cardId);
    }

    method ClearCache()
      modifies this
      ensures cache == map[]
    {
      cache := map[];
    }
  }
}
