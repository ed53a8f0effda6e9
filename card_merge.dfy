/**
 * `getAllCreditCards` in both data layers: the cards of the airlines,
 * hotels and cash tabs merged into one list, one entry per lower-cased
 * `bank_name` key, the first card with a key winning, in the order the
 * keys were first met (the insertion order of a JavaScript `Map`).
 */
module CardMerge {
  import opened Text
  import opened Sheet

  /** A card as the card picker lists it, with the points program inferred from its bank. */
  datatype ListedCard = ListedCard(id: string, name: string, bank: string, program: string)

  /** The merge key: bank and card name joined by an underscore, lower-cased. */
  function MergeKey(bank: string, name: string): string {
    Lower(bank + "_" + name)
  }

  function Listing(c: Card, infer: string -> string): ListedCard {
    ListedCard(c.id, c.name, c.bank, infer(c.bank))
  }

  function KeysOf(listed: seq<ListedCard>): set<string> {
    set l | l in listed :: MergeKey(l.bank, l.name)
  }

  /** The cards of all tabs, tab after tab. */
  function Flatten(sheets: seq<seq<Card>>): seq<Card> {
    if sheets == [] then [] else Flatten(sheets[..|sheets| - 1]) + sheets[|sheets| - 1]
  }

  /** The listing of a card sequence: a card is listed unless its key was listed before. */
  function MergedFlat(cards: seq<Card>, infer: string -> string): seq<ListedCard> {
    if cards == [] then []
    else
      var prev := MergedFlat(cards[..|cards| - 1], infer);
      var c := cards[|cards| - 1];
      if MergeKey(c.bank, c.name) in KeysOf(prev) then prev else prev + [Listing(c, infer)]
  }

  /**
   * The merged list of all tabs: no key twice, every card's key present,
   * and each entry the listing of the first card met with its key.
   */
  function Merged(sheets: seq<seq<Card>>, infer: string -> string): (r: seq<ListedCard>)
    ensures forall i, j :: 0 <= i < j < |r| ==> MergeKey(r[i].bank, r[i].name) != MergeKey(r[j].bank, r[j].name)
    ensures forall c :: c in Flatten(sheets) ==> MergeKey(c.bank, c.name) in KeysOf(r)
    ensures forall j :: 0 <= j < |r| ==> ListsFirst(Flatten(sheets), r, j, infer)
  {
    var cards := Flatten(sheets);
    MergedKeysDistinct(cards, infer);
    MergedCoversAllCards(cards, infer);
    MergedFirstWins(cards, infer);
    MergedFlat(cards, infer)
  }

  /** The card map filled tab by tab and card by card; a key already present is skipped. */
  method MergeCards(sheets: seq<seq<Card>>, infer: string -> string) returns (result: seq<ListedCard>)
    ensures result == Merged(sheets, infer)
  {
    result := [];
    var keys: set<string> := {};
    for s := 0 to |sheets|
      invariant result == MergedFlat(Flatten(sheets[..s]), infer)
      invariant keys == KeysOf(result)
    {
      assert sheets[..s + 1][..s] == sheets[..s];
      result, keys := MergeSheet(Flatten(sheets[..s]), sheets[s], infer, result, keys);
    }
    assert sheets[..|sheets|] == sheets;
  }

  /** The inner loop: the cards of one tab added to the map filled from the tabs before it. */
  method MergeSheet(ghost done: seq<Card>, sheet: seq<Card>, infer: string -> string,
                    listed: seq<ListedCard>, listedKeys: set<string>)
    returns (result: seq<ListedCard>, keys: set<string>)
    requires listed == MergedFlat(done, infer) && listedKeys == KeysOf(listed)
    ensures result == MergedFlat(done + sheet, infer) && keys == KeysOf(result)
  {
    result, keys := listed, listedKeys;
    assert done + sheet[..0] == done;
    for i := 0 to |sheet|
      invariant result == MergedFlat(done + sheet[..i], infer)
      invariant keys == KeysOf(result)
    {
      var card := sheet[i];
      assert done + sheet[..i + 1] == (done + sheet[..i]) + [card];
      MergedFlatSnoc(done + sheet[..i], card, infer);
      var key := MergeKey(card.bank, card.name);
      if key !in keys {
        KeysOfSnoc(result, Listing(card, infer));
        result := result + [Listing(card, infer)];
        keys := keys + {key};
      }
    }
    assert sheet[..|sheet|] == sheet;
  }

  lemma MergedFlatSnoc(cards: seq<Card>, c: Card, infer: string -> string)
    ensures MergedFlat(cards + [c], infer)
      == if MergeKey(c.bank, c.name) in KeysOf(MergedFlat(cards, infer)) then MergedFlat(cards, infer)
         else MergedFlat(cards, infer) + [Listing(c, infer)]
  {
    assert (cards + [c])[..|cards|] == cards;
  }

  lemma KeysOfSnoc(listed: seq<ListedCard>, l: ListedCard)
    ensures KeysOf(listed + [l]) == KeysOf(listed) + {MergeKey(l.bank, l.name)}
  {
    assert forall x :: x in listed + [l] <==> x in listed || x == l;
  }

  /** No key is listed twice. */
  lemma {:induction false} MergedKeysDistinct(cards: seq<Card>, infer: string -> string)
    ensures forall i, j :: 0 <= i < j < |MergedFlat(cards, infer)| ==>
      MergeKey(MergedFlat(cards, infer)[i].bank, MergedFlat(cards, infer)[i].name)
      != MergeKey(MergedFlat(cards, infer)[j].bank, MergedFlat(cards, infer)[j].name)
  {
    if cards != [] {
      MergedKeysDistinct(cards[..|cards| - 1], infer);
      var prev := MergedFlat(cards[..|cards| - 1], infer);
      var r := MergedFlat(cards, infer);
      assert forall i :: 0 <= i < |prev| ==> MergeKey(prev[i].bank, prev[i].name) in KeysOf(prev);
      assert forall i :: 0 <= i < |prev| ==> r[i] == prev[i];
    }
  }

  /** Every card's key is listed. */
  lemma {:induction false} MergedCoversAllCards(cards: seq<Card>, infer: string -> string)
    ensures forall i :: 0 <= i < |cards| ==> MergeKey(cards[i].bank, cards[i].name) in KeysOf(MergedFlat(cards, infer))
  {
    if cards != [] {
      var init := cards[..|cards| - 1];
      MergedCoversAllCards(init, infer);
      var prev := MergedFlat(init, infer);
      var r := MergedFlat(cards, infer);
      var c := cards[|cards| - 1];
      assert KeysOf(prev) <= KeysOf(r);
      assert MergeKey(c.bank, c.name) in KeysOf(r) by {
        if MergeKey(c.bank, c.name) !in KeysOf(prev) {
          assert r[|r| - 1] == Listing(c, infer);
        }
      }
      assert forall i :: 0 <= i < |init| ==> cards[i] == init[i];
    }
  }

  /** `cards[i]` is the first card with its key. */
  predicate FirstWithKey(cards: seq<Card>, i: int) {
    && 0 <= i < |cards|
    && forall k :: 0 <= k < i ==> MergeKey(cards[k].bank, cards[k].name) != MergeKey(cards[i].bank, cards[i].name)
  }

  /** `listed[j]` is the listing of the first card with its key. */
  ghost predicate ListsFirst(cards: seq<Card>, listed: seq<ListedCard>, j: int, infer: string -> string) {
    0 <= j < |listed| && exists i :: FirstWithKey(cards, i) && listed[j] == Listing(cards[i], infer)
  }

  /** Each listed card is the listing of the first card with its key. */
  lemma {:induction false} MergedFirstWins(cards: seq<Card>, infer: string -> string)
    ensures forall j :: 0 <= j < |MergedFlat(cards, infer)| ==> ListsFirst(cards, MergedFlat(cards, infer), j, infer)
  {
    if cards != [] {
      var init := cards[..|cards| - 1];
      MergedFirstWins(init, infer);
      MergedCoversAllCards(init, infer);
      var prev := MergedFlat(init, infer);
      var r := MergedFlat(cards, infer);
      var c := cards[|cards| - 1];
      forall j | 0 <= j < |r|
        ensures ListsFirst(cards, r, j, infer)
      {
        if j < |prev| {
          assert r[j] == prev[j];
          assert ListsFirst(init, prev, j, infer);
          var i :| FirstWithKey(init, i) && prev[j] == Listing(init[i], infer);
          assert FirstWithKey(cards, i) && r[j] == Listing(cards[i], infer);
        } else {
          assert MergeKey(c.bank, c.name) !in KeysOf(prev);
          forall k | 0 <= k < |cards| - 1
            ensures MergeKey(cards[k].bank, cards[k].name) != MergeKey(c.bank, c.name)
          {
            assert init[k] == cards[k];
          }
          assert FirstWithKey(cards, |cards| - 1) && r[j] == Listing(cards[|cards| - 1], infer);
        }
      }
    }
  }
}
