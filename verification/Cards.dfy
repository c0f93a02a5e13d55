/** Physical UNO cards, the rules that look at one card, and the standard deck. */
module Cards {

  /** Go's `Color` is a string: anything that is not one of the four colours, or empty, is `OtherColor`. */
  datatype Color = NoColor | Red | Yellow | Green | Blue | OtherColor(name: string) {
    predicate Valid() { Red? || Yellow? || Green? || Blue? }
  }

  datatype Kind = Number | Skip | Reverse | DrawTwo | Wild | WildDrawFour | OtherKind(name: string)

  datatype Card = Card(id: nat, color: Color, kind: Kind, number: int) {
    predicate Valid() {
      && id != 0
      && match kind
         case Number => color.Valid() && 0 <= number <= 9
         case Skip | Reverse | DrawTwo => color.Valid() && number == 0
         case Wild | WildDrawFour => color == NoColor && number == 0
         case OtherKind(_) => false
    }

    predicate IsWild() { kind.Wild? || kind.WildDrawFour? }

    predicate IsDrawPenalty() { kind.DrawTwo? || kind.WildDrawFour? }

    function Points(): int {
      match kind
      case Number => number
      case Skip | Reverse | DrawTwo => 20
      case Wild | WildDrawFour => 50
      case OtherKind(_) => 0
    }

    /** How many cards this one adds to a penalty chain. */
    function Penalty(): nat {
      if kind.DrawTwo? then 2 else if kind.WildDrawFour? then 4 else 0
    }

    /** The ordinary matching rule; a pending penalty overrides it. */
    predicate Matches(top: Card, currentColor: Color) {
      || IsWild()
      || color == currentColor
      || (!top.IsWild() && kind == top.kind && (kind.Number? ==> number == top.number))
    }
  }

  const DECK_SIZE: nat := 108

  const COLORS: seq<Color> := [Red, Yellow, Green, Blue]

  /** The 25 faces of one colour in deck order: a zero, two runs of one to nine, two sets of action cards. */
  function ColoredFace(id: nat, color: Color, offset: nat): Card {
    if offset == 0 then Card(id, color, Number, 0)
    else if offset <= 18 then Card(id, color, Number, (offset + 1) / 2)
    else if offset % 3 == 1 then Card(id, color, Skip, 0)
    else if offset % 3 == 2 then Card(id, color, Reverse, 0)
    else Card(id, color, DrawTwo, 0)
  }

  /** The face that belongs to a card id: 25 cards of each colour, then wild cards and wild draw fours in turn. */
  function CanonicalCard(id: nat): (c: Card)
    requires 1 <= id <= DECK_SIZE
  {
    if id <= 100 then ColoredFace(id, COLORS[(id - 1) / 25], (id - 1) % 25)
    else if id % 2 == 1 then Card(id, NoColor, Wild, 0)
    else Card(id, NoColor, WildDrawFour, 0)
  }

  lemma CanonicalByColor(c: nat, offset: nat)
    requires c < 4 && offset < 25
    ensures CanonicalCard(25 * c + offset + 1) == ColoredFace(25 * c + offset + 1, COLORS[c], offset)
  {
    assert (25 * c + offset) / 25 == c && (25 * c + offset) % 25 == offset;
  }

  predicate IsCanonical(c: Card) {
    1 <= c.id <= DECK_SIZE && c == CanonicalCard(c.id)
  }

  function StandardDeck(): (deck: seq<Card>)
    ensures |deck| == DECK_SIZE
    ensures forall i :: 0 <= i < DECK_SIZE ==> deck[i] == CanonicalCard(i + 1)
  {
    seq(DECK_SIZE, i requires 0 <= i < DECK_SIZE => CanonicalCard(i + 1))
  }

  /** Every card the program can build in its deck passes the program's own card check. */
  lemma CanonicalIsValid(id: nat)
    requires 1 <= id <= DECK_SIZE
    ensures CanonicalCard(id).Valid() && CanonicalCard(id).id == id
  {
    if id <= 100 {
      assert 0 <= (id - 1) / 25 < 4;
      assert COLORS[(id - 1) / 25].Valid();
    }
  }

  ghost predicate IsDeckPrefix(cards: seq<Card>) {
    |cards| <= DECK_SIZE && forall i :: 0 <= i < |cards| ==> cards[i] == CanonicalCard(i + 1)
  }

  /** Builds the deck the way the program does: colour by colour, with a running id. */
  method NewStandardDeck() returns (deck: seq<Card>)
    ensures deck == StandardDeck()
  {
    deck := [];
    var nextID: nat := 1;
    for colorIndex := 0 to |COLORS|
      invariant |deck| == 25 * colorIndex && nextID == |deck| + 1
      invariant IsDeckPrefix(deck)
    {
      deck, nextID := AppendColor(deck, nextID, colorIndex);
    }
    for copyIndex := 0 to 4
      invariant |deck| == 100 + 2 * copyIndex && nextID == |deck| + 1
      invariant IsDeckPrefix(deck)
    {
      deck, nextID := AppendCard(deck, nextID, NoColor, Wild, 0);
      deck, nextID := AppendCard(deck, nextID, NoColor, WildDrawFour, 0);
    }
  }

  /** A zero, two of each of one to nine, and two sets of the coloured action cards. */
  method AppendColor(deck: seq<Card>, nextID: nat, c: nat) returns (deck': seq<Card>, nextID': nat)
    requires c < |COLORS| && |deck| == 25 * c && nextID == |deck| + 1 && IsDeckPrefix(deck)
    ensures |deck'| == |deck| + 25 && nextID' == |deck'| + 1 && IsDeckPrefix(deck')
  {
    var color := COLORS[c];
    deck', nextID' := AppendColored(deck, nextID, color, Number, 0, c, 0);
    for number := 1 to 10
      invariant |deck'| == 25 * c + 2 * number - 1 && nextID' == |deck'| + 1 && IsDeckPrefix(deck')
    {
      deck', nextID' := AppendColored(deck', nextID', color, Number, number, c, 2 * number - 1);
      deck', nextID' := AppendColored(deck', nextID', color, Number, number, c, 2 * number);
    }
    for copyIndex := 0 to 2
      invariant |deck'| == 25 * c + 19 + 3 * copyIndex && nextID' == |deck'| + 1 && IsDeckPrefix(deck')
    {
      deck', nextID' := AppendColored(deck', nextID', color, Skip, 0, c, 19 + 3 * copyIndex);
      deck', nextID' := AppendColored(deck', nextID', color, Reverse, 0, c, 20 + 3 * copyIndex);
      deck', nextID' := AppendColored(deck', nextID', color, DrawTwo, 0, c, 21 + 3 * copyIndex);
    }
  }

  method AppendColored(deck: seq<Card>, nextID: nat, color: Color, kind: Kind, number: int, ghost c: nat, ghost offset: nat)
    returns (deck': seq<Card>, nextID': nat)
    requires c < |COLORS| && color == COLORS[c] && offset < 25
    requires |deck| == 25 * c + offset && nextID == |deck| + 1 && IsDeckPrefix(deck)
    requires ColoredFace(nextID, color, offset) == Card(nextID, color, kind, number)
    ensures |deck'| == |deck| + 1 && nextID' == |deck'| + 1 && IsDeckPrefix(deck')
  {
    CanonicalByColor(c, offset);
    deck', nextID' := AppendCard(deck, nextID, color, kind, number);
  }

  method AppendCard(deck: seq<Card>, nextID: nat, color: Color, kind: Kind, number: int)
    returns (deck': seq<Card>, nextID': nat)
    requires nextID == |deck| + 1 <= DECK_SIZE && IsDeckPrefix(deck)
    requires CanonicalCard(nextID) == Card(nextID, color, kind, number)
    ensures |deck'| == |deck| + 1 && IsDeckPrefix(deck') && nextID' == nextID + 1
  {
    deck' := deck + [Card(nextID, color, kind, number)];
    nextID' := nextID + 1;
  }

  // ----- Weights of a set of cards -----

  function SumBy(weight: Card -> int, cards: seq<Card>): int {
    if cards == [] then 0 else weight(cards[0]) + SumBy(weight, cards[1..])
  }

  lemma {:induction false} SumByAppend(weight: Card -> int, a: seq<Card>, b: seq<Card>)
    ensures SumBy(weight, a + b) == SumBy(weight, a) + SumBy(weight, b)
  {
    if a == [] {
      assert a + b == b;
    } else {
      assert (a + b)[1..] == a[1..] + b;
      SumByAppend(weight, a[1..], b);
    }
  }

  /** The order of the cards never matters to a sum over them. */
  lemma {:induction false} SumByPermutation(weight: Card -> int, a: seq<Card>, b: seq<Card>)
    requires multiset(a) == multiset(b)
    ensures SumBy(weight, a) == SumBy(weight, b)
  {
    if a == [] {
      assert |multiset(b)| == 0;
    } else {
      assert a == [a[0]] + a[1..];
      assert a[0] in multiset(b);
      var i :| 0 <= i < |b| && b[i] == a[0];
      assert b == b[..i] + [b[i]] + b[i + 1..];
      assert multiset(b[..i] + b[i + 1..]) == multiset(b) - multiset{a[0]};
      assert multiset(a[1..]) == multiset(a) - multiset{a[0]};
      SumByPermutation(weight, a[1..], b[..i] + b[i + 1..]);
      SumByAppend(weight, b[..i], b[i + 1..]);
      SumByAppend(weight, b[..i] + [b[i]], b[i + 1..]);
      SumByAppend(weight, b[..i], [b[i]]);
    }
  }

  const POINTS: Card -> int := (c: Card) => c.Points()
  const PENALTY: Card -> int := (c: Card) => c.Penalty()
  const DRAW_FOURS: Card -> int := (c: Card) => if c.kind.WildDrawFour? then 1 else 0

  /** The sum over the first n cards of the deck, one card at a time. */
  lemma {:induction false} DeckPrefixSum(weight: Card -> int, n: nat)
    requires n < DECK_SIZE
    ensures SumBy(weight, StandardDeck()[..n + 1]) == SumBy(weight, StandardDeck()[..n]) + weight(CanonicalCard(n + 1))
  {
    assert StandardDeck()[..n + 1] == StandardDeck()[..n] + [StandardDeck()[n]];
    SumByAppend(weight, StandardDeck()[..n], [StandardDeck()[n]]);
  }

  /** The sum of what the first k faces of a colour weigh, the same for every colour. */
  function Running(face: nat -> int, k: nat): int {
    if k == 0 then 0 else Running(face, k - 1) + face(k - 1)
  }

  const POINTS_AT: nat -> int := (offset: nat) => if offset < 19 then (offset + 1) / 2 else 20
  const PENALTY_AT: nat -> int := (offset: nat) => if offset == 21 || offset == 24 then 2 else 0
  const NOTHING_AT: nat -> int := (offset: nat) => 0

  lemma FaceWeights(c: nat, offset: nat)
    requires c < 4 && offset < 25
    ensures POINTS(CanonicalCard(25 * c + offset + 1)) == POINTS_AT(offset)
    ensures PENALTY(CanonicalCard(25 * c + offset + 1)) == PENALTY_AT(offset)
    ensures DRAW_FOURS(CanonicalCard(25 * c + offset + 1)) == NOTHING_AT(offset)
  {
    CanonicalByColor(c, offset);
  }

  ghost predicate FacesWeigh(weight: Card -> int, face: nat -> int) {
    forall id: nat :: 1 <= id <= 100 ==> weight(CanonicalCard(id)) == face((id - 1) % 25)
  }

  lemma {:induction false} ColorBlock(weight: Card -> int, face: nat -> int, c: nat, k: nat)
    requires c < 4 && k <= 25 && FacesWeigh(weight, face)
    ensures SumBy(weight, StandardDeck()[..25 * c + k]) == SumBy(weight, StandardDeck()[..25 * c]) + Running(face, k)
  {
    if k > 0 {
      ColorBlock(weight, face, c, k - 1);
      DeckPrefixSum(weight, 25 * c + k - 1);
      FaceAt(weight, face, c, k - 1);
    }
  }

  lemma FaceAt(weight: Card -> int, face: nat -> int, c: nat, offset: nat)
    requires c < 4 && offset < 25 && FacesWeigh(weight, face)
    ensures weight(CanonicalCard(25 * c + offset + 1)) == face(offset)
  {
    assert (25 * c + offset) % 25 == offset;
  }

  ghost predicate WildsWeigh(weight: Card -> int, plain: int, four: int) {
    forall id: nat :: 100 < id <= DECK_SIZE ==> weight(CanonicalCard(id)) == if id % 2 == 1 then plain else four
  }

  lemma WildPair(weight: Card -> int, plain: int, four: int, k: nat)
    requires k < 4 && WildsWeigh(weight, plain, four)
    ensures SumBy(weight, StandardDeck()[..102 + 2 * k]) == SumBy(weight, StandardDeck()[..100 + 2 * k]) + plain + four
  {
    DeckPrefixSum(weight, 100 + 2 * k);
    DeckPrefixSum(weight, 101 + 2 * k);
  }

  lemma PointsRun()
    ensures Running(POINTS_AT, 25) == 210
  {
    assert Running(POINTS_AT, 3) == 2;
    assert Running(POINTS_AT, 6) == 9;
    assert Running(POINTS_AT, 9) == 20;
    assert Running(POINTS_AT, 12) == 36;
    assert Running(POINTS_AT, 15) == 56;
    assert Running(POINTS_AT, 18) == 81;
    assert Running(POINTS_AT, 21) == 130;
    assert Running(POINTS_AT, 24) == 190;
  }

  lemma PenaltyRun()
    ensures Running(PENALTY_AT, 25) == 4
  {
    assert Running(PENALTY_AT, 3) == 0;
    assert Running(PENALTY_AT, 6) == 0;
    assert Running(PENALTY_AT, 9) == 0;
    assert Running(PENALTY_AT, 12) == 0;
    assert Running(PENALTY_AT, 15) == 0;
    assert Running(PENALTY_AT, 18) == 0;
    assert Running(PENALTY_AT, 21) == 0;
    assert Running(PENALTY_AT, 24) == 2;
  }

  lemma NothingRun()
    ensures Running(NOTHING_AT, 25) == 0
  {
    assert Running(NOTHING_AT, 3) == 0;
    assert Running(NOTHING_AT, 6) == 0;
    assert Running(NOTHING_AT, 9) == 0;
    assert Running(NOTHING_AT, 12) == 0;
    assert Running(NOTHING_AT, 15) == 0;
    assert Running(NOTHING_AT, 18) == 0;
    assert Running(NOTHING_AT, 21) == 0;
    assert Running(NOTHING_AT, 24) == 0;
  }

  lemma TotalOf(weight: Card -> int, face: nat -> int, plain: int, four: int)
    requires FacesWeigh(weight, face) && WildsWeigh(weight, plain, four)
    ensures SumBy(weight, StandardDeck()) == 4 * Running(face, 25) + 4 * (plain + four)
  {
    ColorBlock(weight, face, 0, 25);
    ColorBlock(weight, face, 1, 25);
    ColorBlock(weight, face, 2, 25);
    ColorBlock(weight, face, 3, 25);
    WildPair(weight, plain, four, 0);
    WildPair(weight, plain, four, 1);
    WildPair(weight, plain, four, 2);
    WildPair(weight, plain, four, 3);
    assert StandardDeck()[..108] == StandardDeck();
  }

  lemma Faces()
    ensures FacesWeigh(POINTS, POINTS_AT) && FacesWeigh(PENALTY, PENALTY_AT) && FacesWeigh(DRAW_FOURS, NOTHING_AT)
  {
    forall id: nat | 1 <= id <= 100
      ensures POINTS(CanonicalCard(id)) == POINTS_AT((id - 1) % 25)
      ensures PENALTY(CanonicalCard(id)) == PENALTY_AT((id - 1) % 25)
      ensures DRAW_FOURS(CanonicalCard(id)) == NOTHING_AT((id - 1) % 25)
    {
      FaceWeights((id - 1) / 25, (id - 1) % 25);
    }
  }

  /** The deck is worth 1240 points, its penalty cards add up to 32 draws, and it holds four wild draw fours. */
  lemma DeckTotals()
    ensures SumBy(POINTS, StandardDeck()) == 1240
    ensures SumBy(PENALTY, StandardDeck()) == 32
    ensures SumBy(DRAW_FOURS, StandardDeck()) == 4
  {
    assert WildsWeigh(POINTS, 50, 50) && WildsWeigh(PENALTY, 0, 4) && WildsWeigh(DRAW_FOURS, 0, 1);
    hide FacesWeigh, WildsWeigh, SumBy, Running, StandardDeck;
    Faces();
    PointsRun();
    PenaltyRun();
    NothingRun();
    TotalOf(POINTS, POINTS_AT, 50, 50);
    TotalOf(PENALTY, PENALTY_AT, 0, 4);
    TotalOf(DRAW_FOURS, NOTHING_AT, 0, 1);
  }
}
