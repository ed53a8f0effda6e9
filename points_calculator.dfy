/**
 * The redemption calculator: a fixed table of redemption options per card
 * program, the conversion of a points balance into the value of each
 * option, and the choice of the best and the worst option.
 */
module PointsCalculator {
  import opened Wrappers

  /** One redemption option: its kind, its value per point in dollars, and its description. */
  datatype Redemption = Redemption(kind: string, rate: real, description: string)

  /** One line of the result: the value of the balance, and the rate in cents per point. */
  datatype Conversion = Conversion(kind: string, value: real, rate: real, description: string)

  /** The redemption table, each program's options in table order. */
  const RedemptionRates: map<string, seq<Redemption>> := map[
    "chase" := [
      Redemption("Cash Back", 0.01, "Direct cash back redemption"),
      Redemption("Travel Portal", 0.0125, "Book through Chase Travel Portal"),
      Redemption("Transfer Partners", 0.015, "Transfer to airline/hotel partners"),
      Redemption("Gift Cards", 0.01, "Redeem for gift cards"),
      Redemption("Statement Credit", 0.01, "Apply as statement credit")],
    "amex" := [
      Redemption("Cash Back", 0.006, "Direct cash back redemption"),
      Redemption("Travel Portal", 0.01, "Book through Amex Travel"),
      Redemption("Transfer Partners", 0.018, "Transfer to airline/hotel partners"),
      Redemption("Gift Cards", 0.007, "Redeem for gift cards"),
      Redemption("Amazon", 0.007, "Use points at Amazon checkout")],
    "capital-one" := [
      Redemption("Cash Back", 0.01, "Direct cash back redemption"),
      Redemption("Travel", 0.01, "Erase travel purchases"),
      Redemption("Gift Cards", 0.01, "Redeem for gift cards"),
      Redemption("Statement Credit", 0.01, "Apply as statement credit"),
      Redemption("Amazon", 0.01, "Use points at Amazon checkout")],
    "citi" := [
      Redemption("Cash Back", 0.01, "Direct cash back redemption"),
      Redemption("Travel Portal", 0.01, "Book through Citi Travel Portal"),
      Redemption("Transfer Partners", 0.012, "Transfer to airline/hotel partners"),
      Redemption("Gift Cards", 0.008, "Redeem for gift cards"),
      Redemption("Statement Credit", 0.01, "Apply as statement credit")],
    "marriott" := [
      Redemption("Free Nights", 0.007, "Redeem for hotel stays"),
      Redemption("Cash Back", 0.003, "Convert to cash"),
      Redemption("Travel Packages", 0.008, "Hotel + airline miles packages"),
      Redemption("Experiences", 0.006, "Unique experiences and events")],
    "hilton" := [
      Redemption("Free Nights", 0.005, "Redeem for hotel stays"),
      Redemption("Cash Back", 0.002, "Convert to cash"),
      Redemption("Amazon", 0.005, "Use points at Amazon"),
      Redemption("Experiences", 0.004, "Unique experiences and events")]]

  /** The four bank programs list five options, the two hotel programs four; every rate is positive. */
  lemma RedemptionTableShape()
    ensures forall p :: p in RedemptionRates ==>
      (|RedemptionRates[p]| == 5 <==> p in {"chase", "amex", "capital-one", "citi"})
      && (|RedemptionRates[p]| == 4 <==> p in {"marriott", "hilton"})
    ensures forall p, i :: p in RedemptionRates && 0 <= i < |RedemptionRates[p]| ==> RedemptionRates[p][i].rate > 0.0
  {
  }

  /** The line for one option: balance times rate, and the rate in cents. */
  function ConversionOf(points: real, r: Redemption): (c: Conversion)
    ensures c.kind == r.kind && c.description == r.description
    ensures r.rate > 0.0 ==> (c.value > 0.0 <==> points > 0.0)
  {
    Conversion(r.kind, points * r.rate, r.rate * 100.0, r.description)
  }

  /**
   * `calculateConversions`: an error for a program outside the table,
   * otherwise one line per option of the program, in table order.
   */
  method CalculateConversions(points: real, program: string) returns (result: Result<seq<Conversion>, string>)
    ensures program !in RedemptionRates ==> result == Failure("Invalid card program selected")
    ensures program in RedemptionRates ==>
      && result.Success?
      && |result.value| == |RedemptionRates[program]|
      && forall i :: 0 <= i < |result.value| ==> result.value[i] == ConversionOf(points, RedemptionRates[program][i])
  {
    if program !in RedemptionRates {
      return Failure("Invalid card program selected");
    }
    var programRates := RedemptionRates[program];
    var conversions: seq<Conversion> := [];
    for i := 0 to |programRates|
      invariant |conversions| == i
      invariant forall j :: 0 <= j < i ==> conversions[j] == ConversionOf(points, programRates[j])
    {
      conversions := conversions + [ConversionOf(points, programRates[i])];
    }
    return Success(conversions);
  }

  /**
   * The index `reduce` ends on when it keeps the current best unless the
   * next value is strictly larger: a largest value, the first of equals.
   */
  function BestIndex(cs: seq<Conversion>): (i: nat)
    requires |cs| > 0
    ensures i < |cs|
    ensures forall j :: 0 <= j < |cs| ==> cs[j].value <= cs[i].value
    ensures forall j :: 0 <= j < i ==> cs[j].value < cs[i].value
  {
    if |cs| == 1 then 0
    else
      var b := BestIndex(cs[..|cs| - 1]);
      assert forall j :: 0 <= j < |cs| - 1 ==> cs[..|cs| - 1][j] == cs[j];
      if cs[|cs| - 1].value > cs[b].value then |cs| - 1 else b
  }

  /** The same reduction with `<`: a smallest value, the first of equals. */
  function WorstIndex(cs: seq<Conversion>): (i: nat)
    requires |cs| > 0
    ensures i < |cs|
    ensures forall j :: 0 <= j < |cs| ==> cs[i].value <= cs[j].value
    ensures forall j :: 0 <= j < i ==> cs[i].value < cs[j].value
  {
    if |cs| == 1 then 0
    else
      var w := WorstIndex(cs[..|cs| - 1]);
      assert forall j :: 0 <= j < |cs| - 1 ==> cs[..|cs| - 1][j] == cs[j];
      if cs[|cs| - 1].value < cs[w].value then |cs| - 1 else w
  }

  /** `getBestRedemption`; `reduce` without a seed fails on an empty list, modelled as None. */
  function BestRedemption(cs: seq<Conversion>): (r: Option<Conversion>)
    ensures r.None? <==> cs == []
    ensures r.Some? ==> r.value in cs && forall c :: c in cs ==> c.value <= r.value.value
  {
    if cs == [] then None else Some(cs[BestIndex(cs)])
  }

  /** `getWorstRedemption`; None for an empty list. */
  function WorstRedemption(cs: seq<Conversion>): (r: Option<Conversion>)
    ensures r.None? <==> cs == []
    ensures r.Some? ==> r.value in cs && forall c :: c in cs ==> r.value.value <= c.value
  {
    if cs == [] then None else Some(cs[WorstIndex(cs)])
  }

  /** The worst option is never worth more than the best one. */
  lemma WorstNotAboveBest(cs: seq<Conversion>)
    requires cs != []
    ensures WorstRedemption(cs).value.value <= BestRedemption(cs).value.value
  {
    assert cs[BestIndex(cs)] in cs;
  }
}
