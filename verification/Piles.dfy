/** Draw pile and discard pile: dealing, recycling, and conservation of the 108 physical cards. */
module Piles {
  import opened Cards

  /** What one call of the injected shuffle did: on failure the cards may come back in any state. */
  datatype ShuffleResult = ShuffleResult(ok: bool, cards: seq<Card>)

  type Shuffle = seq<Card> -> ShuffleResult

  ghost predicate Permuting(shuffle: Shuffle) {
    forall pile: seq<Card> :: shuffle(pile).ok ==> multiset(shuffle(pile).cards) == multiset(pile)
  }

  ghost predicate NeverFails(shuffle: Shuffle) {
    forall pile: seq<Card> :: shuffle(pile).ok
  }

  datatype Deal = ShuffleFailed | Dealt(drawn: seq<Card>, drawPile: seq<Card>, discardPile: seq<Card>)

  /** The top k cards of a pile, top first; the last element of a pile is its top. */
  function TakeTop(pile: seq<Card>, k: nat): (taken: seq<Card>)
    requires k <= |pile|
  {
    seq(k, i requires 0 <= i < k => pile[|pile| - 1 - i])
  }

  /** Deals up to `count` cards: first the draw pile, then the shuffled discards under the top one. */
  function DealCards(drawPile: seq<Card>, discardPile: seq<Card>, count: nat, shuffle: Shuffle): Deal {
    if count <= |drawPile| then
      Dealt(TakeTop(drawPile, count), drawPile[..|drawPile| - count], discardPile)
    else if |discardPile| <= 1 then
      Dealt(TakeTop(drawPile, |drawPile|), [], discardPile)
    else
      var bottom := |discardPile| - 1;
      var recycled := shuffle(discardPile[..bottom]);
      if !recycled.ok then ShuffleFailed else
        var rest := count - |drawPile|;
        var k := if rest <= |recycled.cards| then rest else |recycled.cards|;
        Dealt(TakeTop(drawPile, |drawPile|) + TakeTop(recycled.cards, k),
              recycled.cards[..|recycled.cards| - k], discardPile[bottom..])
  }

  /** A card already dealt, followed by what the rest of the deal gives. */
  function Prepend(card: Card, rest: Deal): Deal {
    match rest
    case ShuffleFailed => ShuffleFailed
    case Dealt(drawn, draw, discard) => Dealt([card] + drawn, draw, discard)
  }

  /** One card: the pile top, or after recycling the top of the shuffled discards. */
  lemma DealOne(drawPile: seq<Card>, discardPile: seq<Card>, shuffle: Shuffle)
    ensures DealCards(drawPile, discardPile, 1, shuffle) ==
              if |drawPile| > 0 then Dealt([drawPile[|drawPile| - 1]], drawPile[..|drawPile| - 1], discardPile)
              else if |discardPile| <= 1 then Dealt([], [], discardPile)
              else
                var recycled := shuffle(discardPile[..|discardPile| - 1]);
                if !recycled.ok then ShuffleFailed
                else if recycled.cards == [] then Dealt([], [], discardPile[|discardPile| - 1..])
                else Dealt([recycled.cards[|recycled.cards| - 1]], recycled.cards[..|recycled.cards| - 1],
                           discardPile[|discardPile| - 1..])
  {
    assert TakeTop(drawPile, 0) == [];
    if |drawPile| == 0 && |discardPile| > 1 {
      var cards := shuffle(discardPile[..|discardPile| - 1]).cards;
      assert TakeTop(drawPile, 0) + TakeTop(cards, 0) == [];
      if cards != [] {
        assert TakeTop(drawPile, 0) + TakeTop(cards, 1) == [cards[|cards| - 1]];
      }
    }
  }

  lemma DealNextFromPile(drawPile: seq<Card>, discardPile: seq<Card>, count: nat, shuffle: Shuffle)
    requires count > 0 && |drawPile| > 0
    ensures DealCards(drawPile, discardPile, count, shuffle)
         == Prepend(drawPile[|drawPile| - 1], DealCards(drawPile[..|drawPile| - 1], discardPile, count - 1, shuffle))
  {
    var below := drawPile[..|drawPile| - 1];
    if count <= |drawPile| {
      TakeTopSplit(drawPile, count);
      assert below[..|below| - (count - 1)] == drawPile[..|drawPile| - count];
    } else {
      TakeTopSplit(drawPile, |drawPile|);
      if |discardPile| > 1 {
        var cards := shuffle(discardPile[..|discardPile| - 1]).cards;
        var rest := count - |drawPile|;
        var taken := TakeTop(cards, if rest <= |cards| then rest else |cards|);
        assert TakeTop(drawPile, |drawPile|) + taken == [drawPile[|drawPile| - 1]] + (TakeTop(below, |below|) + taken);
      }
    }
  }

  /** With an empty draw pile a deal is a deal from the recycled pile, which leaves only the top to discard. */
  lemma DealAfterRecycle(discardPile: seq<Card>, count: nat, shuffle: Shuffle)
    requires count > 0 && |discardPile| > 1
    ensures var recycled := shuffle(discardPile[..|discardPile| - 1]);
            DealCards([], discardPile, count, shuffle)
            == if recycled.ok then DealCards(recycled.cards, discardPile[|discardPile| - 1..], count, shuffle)
               else ShuffleFailed
  {
    var cards := shuffle(discardPile[..|discardPile| - 1]).cards;
    var k := if count <= |cards| then count else |cards|;
    assert TakeTop([], 0) + TakeTop(cards, k) == TakeTop(cards, k);
  }

  /** Dealing card by card, as the program does, is the same as dealing all at once. */
  lemma DealOneByOne(drawPile: seq<Card>, discardPile: seq<Card>, count: nat, shuffle: Shuffle)
    requires count > 0
    ensures DealCards(drawPile, discardPile, count, shuffle) ==
              var first := DealCards(drawPile, discardPile, 1, shuffle);
              if first.ShuffleFailed? || first.drawn == [] then first
              else Prepend(first.drawn[0], DealCards(first.drawPile, first.discardPile, count - 1, shuffle))
  {
    DealOne(drawPile, discardPile, shuffle);
    if |drawPile| > 0 {
      DealNextFromPile(drawPile, discardPile, count, shuffle);
    } else if |discardPile| > 1 {
      assert drawPile == [];
      DealAfterRecycle(discardPile, count, shuffle);
      var recycled := shuffle(discardPile[..|discardPile| - 1]);
      if recycled.ok && recycled.cards != [] {
        DealNextFromPile(recycled.cards, discardPile[|discardPile| - 1..], count, shuffle);
      }
    }
  }

  lemma TakeTopSplit(pile: seq<Card>, k: nat)
    requires 0 < k <= |pile|
    ensures TakeTop(pile, k) == [pile[|pile| - 1]] + TakeTop(pile[..|pile| - 1], k - 1)
  {
  }

  /** The taken cards are the tail of the pile, in whatever order. */
  lemma {:induction false} TakeTopMultiset(pile: seq<Card>, k: nat)
    requires k <= |pile|
    ensures multiset(TakeTop(pile, k)) == multiset(pile[|pile| - k..])
  {
    if k == 0 {
      assert TakeTop(pile, 0) == [] && pile[|pile|..] == [];
    } else {
      var below := pile[..|pile| - 1];
      TakeTopSplit(pile, k);
      TakeTopMultiset(below, k - 1);
      assert pile[|pile| - k..] == below[|below| - (k - 1)..] + [pile[|pile| - 1]];
    }
  }

  lemma TakeTopSplits(pile: seq<Card>, k: nat)
    requires k <= |pile|
    ensures multiset(TakeTop(pile, k)) + multiset(pile[..|pile| - k]) == multiset(pile)
  {
    TakeTopMultiset(pile, k);
    assert pile == pile[..|pile| - k] + pile[|pile| - k..];
  }

  /** No card appears or disappears, and the discard top stays where it is. */
  lemma DealConserves(drawPile: seq<Card>, discardPile: seq<Card>, count: nat, shuffle: Shuffle)
    requires |discardPile| > 0 && Permuting(shuffle)
    requires DealCards(drawPile, discardPile, count, shuffle).Dealt?
    ensures var d := DealCards(drawPile, discardPile, count, shuffle);
            && multiset(d.drawn) + multiset(d.drawPile) + multiset(d.discardPile) == multiset(drawPile) + multiset(discardPile)
            && |d.discardPile| > 0
            && d.discardPile[|d.discardPile| - 1] == discardPile[|discardPile| - 1]
            && (d.discardPile == discardPile || d.discardPile == [discardPile[|discardPile| - 1]])
  {
    if count <= |drawPile| {
      TakeTopSplits(drawPile, count);
    } else {
      TakeTopSplits(drawPile, |drawPile|);
      assert drawPile[..0] == [];
      if |discardPile| > 1 {
        RecycleConserves(drawPile, discardPile, count, shuffle);
      }
    }
  }

  lemma RecycleConserves(drawPile: seq<Card>, discardPile: seq<Card>, count: nat, shuffle: Shuffle)
    requires |discardPile| > 1 && Permuting(shuffle) && count > |drawPile|
    requires DealCards(drawPile, discardPile, count, shuffle).Dealt?
    ensures var d := DealCards(drawPile, discardPile, count, shuffle);
            multiset(d.drawn) + multiset(d.drawPile) + multiset(d.discardPile) == multiset(drawPile) + multiset(discardPile)
  {
    var bottom := |discardPile| - 1;
    var cards := shuffle(discardPile[..bottom]).cards;
    var rest := count - |drawPile|;
    TakeTopMultiset(drawPile, |drawPile|);
    assert drawPile[0..] == drawPile;
    TakeTopSplits(cards, if rest <= |cards| then rest else |cards|);
    assert discardPile == discardPile[..bottom] + discardPile[bottom..];
  }

  /** The discard top never moves, whatever the shuffle does. */
  lemma DealKeepsTop(drawPile: seq<Card>, discardPile: seq<Card>, count: nat, shuffle: Shuffle)
    requires |discardPile| > 0 && DealCards(drawPile, discardPile, count, shuffle).Dealt?
    ensures var d := DealCards(drawPile, discardPile, count, shuffle);
            |d.discardPile| > 0 && d.discardPile[|d.discardPile| - 1] == discardPile[|discardPile| - 1]
  {
  }

  /** With a working shuffle exactly as many cards are dealt as there are: all but the discard top. */
  lemma DealCount(drawPile: seq<Card>, discardPile: seq<Card>, count: nat, shuffle: Shuffle)
    requires |discardPile| > 0 && Permuting(shuffle) && NeverFails(shuffle)
    ensures var d := DealCards(drawPile, discardPile, count, shuffle);
            && d.Dealt?
            && var available := |drawPile| + |discardPile| - 1;
               |d.drawn| == if count <= available then count else available
  {
    if |discardPile| > 1 {
      var bottom := |discardPile| - 1;
      assert |multiset(shuffle(discardPile[..bottom]).cards)| == |multiset(discardPile[..bottom])|;
    }
  }

  /** A deal fails exactly when it must recycle and the shuffle of the buried discards fails. */
  lemma DealFailsIff(drawPile: seq<Card>, discardPile: seq<Card>, count: nat, shuffle: Shuffle)
    ensures DealCards(drawPile, discardPile, count, shuffle).ShuffleFailed? <==>
            count > |drawPile| && |discardPile| > 1 && !shuffle(discardPile[..|discardPile| - 1]).ok
  {
  }

  // ----- The full deck -----

  ghost predicate IsFullDeck(cards: seq<Card>) {
    multiset(cards) == multiset(StandardDeck())
  }

  predicate DistinctIDs(cards: seq<Card>) {
    forall i, j :: 0 <= i < j < |cards| ==> cards[i].id != cards[j].id
  }

  lemma CountTwice(s: seq<Card>, i: nat, j: nat)
    requires i < j < |s| && s[i] == s[j]
    ensures multiset(s)[s[i]] >= 2
  {
    assert s == s[..i] + [s[i]] + s[i + 1..j] + [s[j]] + s[j + 1..];
  }

  lemma {:induction false} CountAtMostOnce(s: seq<Card>, c: Card)
    requires DistinctIDs(s)
    ensures multiset(s)[c] == if c in s then 1 else 0
  {
    if s != [] {
      assert s == [s[0]] + s[1..];
      CountAtMostOnce(s[1..], c);
      assert s[0] !in s[1..];
    }
  }

  lemma StandardDeckDistinct()
    ensures DistinctIDs(StandardDeck())
    ensures forall c: Card :: c in StandardDeck() <==> IsCanonical(c)
  {
    var deck := StandardDeck();
    forall i | 0 <= i < |deck| ensures deck[i].id == i + 1 { CanonicalIsValid(i + 1); }
    forall c: Card | IsCanonical(c) ensures c in deck { assert deck[c.id - 1] == c; }
  }

  /** The program's card check (canonical faces, no repeated id, 108 cards) says exactly "this is the deck". */
  lemma FullDeckIff(cards: seq<Card>)
    ensures IsFullDeck(cards) <==>
            |cards| == DECK_SIZE && DistinctIDs(cards) && forall i :: 0 <= i < |cards| ==> IsCanonical(cards[i])
  {
    if IsFullDeck(cards) {
      FullDeckFacts(cards);
    }
    if |cards| == DECK_SIZE && DistinctIDs(cards) && forall i :: 0 <= i < |cards| ==> IsCanonical(cards[i]) {
      FactsFullDeck(cards);
    }
  }

  lemma FullDeckFacts(cards: seq<Card>)
    requires IsFullDeck(cards)
    ensures |cards| == DECK_SIZE && DistinctIDs(cards) && forall i :: 0 <= i < |cards| ==> IsCanonical(cards[i])
  {
    StandardDeckDistinct();
    var deck := StandardDeck();
    assert |multiset(cards)| == |multiset(deck)|;
    forall i | 0 <= i < |cards| ensures IsCanonical(cards[i]) { assert cards[i] in multiset(deck); }
    forall i, j | 0 <= i < j < |cards| ensures cards[i].id != cards[j].id {
      if cards[i] == cards[j] {
        CountTwice(cards, i, j);
        CountAtMostOnce(deck, cards[i]);
        assert false;
      }
    }
  }

  lemma FactsFullDeck(cards: seq<Card>)
    requires |cards| == DECK_SIZE && DistinctIDs(cards) && forall i :: 0 <= i < |cards| ==> IsCanonical(cards[i])
    ensures IsFullDeck(cards)
  {
    StandardDeckDistinct();
    forall c: Card ensures multiset(cards)[c] == multiset(StandardDeck())[c] {
      CountAtMostOnce(cards, c);
      CountAtMostOnce(StandardDeck(), c);
      if IsCanonical(c) {
        EveryIDPresent(cards, c);
      }
    }
  }

  lemma EveryIDPresent(cards: seq<Card>, c: Card)
    requires |cards| == DECK_SIZE && DistinctIDs(cards) && forall i :: 0 <= i < |cards| ==> IsCanonical(cards[i])
    requires IsCanonical(c)
    ensures c in cards
  {
    var ids := set i | 0 <= i < |cards| :: cards[i].id;
    DistinctCount(cards);
    SubsetSameSize(ids, IDRange(DECK_SIZE));
    assert c.id in ids;
    var i :| 0 <= i < |cards| && cards[i].id == c.id;
    assert cards[i] == c;
  }

  lemma {:induction false} DistinctCount(cards: seq<Card>)
    requires DistinctIDs(cards)
    ensures |set i | 0 <= i < |cards| :: cards[i].id| == |cards|
  {
    if cards != [] {
      var rest := cards[..|cards| - 1];
      DistinctCount(rest);
      var a := set i | 0 <= i < |cards| :: cards[i].id;
      var b := set i | 0 <= i < |rest| :: rest[i].id;
      assert a == b + {cards[|cards| - 1].id};
    }
  }

  /** The ids one to n. */
  function IDRange(n: nat): (ids: set<int>)
    ensures |ids| == n && forall k :: k in ids <==> 1 <= k <= n
  {
    if n == 0 then {} else IDRange(n - 1) + {n}
  }

  lemma SubsetSameSize(a: set<int>, b: set<int>)
    requires a <= b && |a| == |b|
    ensures a == b
  {
    assert |b - a| == |b| - |a|;
    assert b - a == {};
  }
}
