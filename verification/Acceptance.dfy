/** Which cards may be played, said and counted in terms of the faces of the deck. */
module Acceptance {
  import opened Wrappers
  import opened Cards
  import opened Piles
  import opened Rules
  import opened Invariant
  import opened Preservation
  import opened Views

  /** Two cards show the same face, whatever their colours. */
  predicate SameFace(a: Card, b: Card) { a.kind == b.kind && a.number == b.number }

  /** The house rule with nothing owed: a wild card always, the colour in play, or the face of a coloured top. */
  predicate Goes(top: Card, color: Color, card: Card) {
    card.color == NoColor || card.color == color || (top.color != NoColor && SameFace(card, top))
  }

  /** A card adds to a penalty chain. */
  predicate Draws(card: Card) { card.Penalty() > 0 }

  // ----- One play -----

  lemma FirstWithID(hand: seq<Card>, index: nat)
    requires index < |hand| && forall i :: 0 <= i < |hand| && hand[i].id == hand[index].id ==> hand[i] == hand[index]
    ensures CardIndex(hand, hand[index].id).Some? && hand[CardIndex(hand, hand[index].id).value] == hand[index]
  {
  }

  /** When a player's card is accepted: the round is in play, it is his turn, during a draw decision it is the drawn card,
      and it goes on the pile - or, while a penalty is owed, draws itself. */
  lemma PlayAcceptedIff(g: Game, seat: nat, index: nat, sayUNO: bool, env: Env)
    requires Inv(g, false) && Shape(g) && seat < |g.players| && index < |g.players[seat].hand|
    ensures var card := g.players[seat].hand[index];
            PlayCard(g, g.players[seat].id, card.id, sayUNO, env).reply == Done <==>
              && seat == g.currentSeat
              && (g.phase == Playing || (g.phase == AwaitingDrawDecision && card.id == g.drawnCardID))
              && (if g.pendingDraw > 0 then Draws(card) else Goes(Top(g), g.color, card))
  {
    var player, card := g.players[seat], g.players[seat].hand[index];
    SeatFound(g, seat);
    forall i | 0 <= i < |player.hand| && player.hand[i].id == card.id ensures player.hand[i] == card {
      SameIDSameCard(g, seat, i, index);
    }
    FirstWithID(player.hand, index);
    CardIsCanonical(g, seat, index);
    TopIsCanonical(g);
    GoesIffPlayable(g, card);
    hide Inv, CardIndex, SeatOf, ApplyCardEffect, Discarded, Playable, Goes, Draws;
  }

  lemma SeatFound(g: Game, seat: nat)
    requires Inv(g, false) && seat < |g.players|
    ensures SeatOf(g.players, g.players[seat].id) == Some(seat)
  {
    var t := SeatOf(g.players, g.players[seat].id);
    assert t.Some? && g.players[t.value].id == g.players[seat].id;
  }

  lemma TopIsCanonical(g: Game)
    requires Inv(g, false)
    ensures |g.discardPile| > 0 && IsCanonical(Top(g)) && Top(g).Valid()
  {
    StandardDeckDistinct();
    assert Top(g) in multiset(g.discardPile);
    assert Top(g) in Bag(g.players, g.drawPile, g.discardPile);
    assert Top(g) in multiset(StandardDeck());
    CanonicalIsValid(Top(g).id);
  }

  lemma GoesIffPlayable(g: Game, card: Card)
    requires |g.discardPile| > 0 && card.Valid() && Top(g).Valid() && (Top(g).kind != Number ==> Top(g).number == 0)
    ensures Playable(g, card) <==> if g.pendingDraw > 0 then Draws(card) else Goes(Top(g), g.color, card)
  {
  }

  // ----- How many of the other cards -----

  const ANYTIME: Env := Env(1, 1, pile => ShuffleResult(true, pile))

  /** As this game, but all that the player on turn holds is this card. */
  function Holding(g: Game, card: Card): Game
    requires 0 <= g.currentSeat < |g.players|
  {
    SetHand(g, g.currentSeat, [card])
  }

  /** The player on turn, holding this card, would be let play it. */
  predicate Taken(g: Game, card: Card)
    requires Shape(g) && g.phase != Finished
  {
    PlayCard(Holding(g, card), CurrentPlayerID(g), card.id, false, ANYTIME).reply == Done
  }

  /** The deck without the card that has this id. */
  function OtherCards(id: nat): (cards: seq<Card>)
    requires 1 <= id <= DECK_SIZE
    ensures |cards| == DECK_SIZE - 1
  {
    StandardDeck()[..id - 1] + StandardDeck()[id..]
  }

  function TakenAs(g: Game): Card -> int
    requires Shape(g) && g.phase != Finished
  {
    (card: Card) => if Taken(g, card) then 1 else 0
  }

  /** How many of these cards would be taken. */
  function HowMany(g: Game, cards: seq<Card>): int
    requires Shape(g) && g.phase != Finished
  {
    SumBy(TakenAs(g), cards)
  }

  function GoingAs(top: Card, color: Color): Card -> int {
    (card: Card) => if Goes(top, color, card) then 1 else 0
  }

  const DRAWING: Card -> int := (card: Card) => if Draws(card) then 1 else 0

  lemma TakenIff(g: Game, card: Card)
    requires Inv(g, false) && Shape(g) && g.phase == Playing && IsCanonical(card)
    ensures Taken(g, card) <==> if g.pendingDraw > 0 then Draws(card) else Goes(Top(g), g.color, card)
  {
    SeatFound(g, g.currentSeat);
    var h := Holding(g, card);
    SameSeat(g.players, h.players, CurrentPlayerID(g));
    CanonicalIsValid(card.id);
    TopIsCanonical(g);
    GoesIffPlayable(g, card);
    assert h.players[g.currentSeat].hand == [card] && CardIndex([card], card.id) == Some(0);
    hide Inv, SeatOf, CardIndex, ApplyCardEffect, Discarded, Goes, Draws, IsCanonical;
    assert Playable(h, card) <==> Playable(g, card);
  }

  lemma {:induction false} SameSeat(a: seq<Player>, b: seq<Player>, id: int)
    requires |a| == |b| && forall s :: 0 <= s < |a| ==> a[s].id == b[s].id
    ensures SeatOf(a, id) == SeatOf(b, id)
  {
    if a != [] {
      assert forall s :: 0 <= s < |a[1..]| ==> a[1..][s] == a[s + 1] && b[1..][s] == b[s + 1];
      SameSeat(a[1..], b[1..], id);
    }
  }

  // ----- Counting faces -----

  /** The other place of the same face among the 25 of a colour; the zero has none. */
  function Twin(offset: nat): nat
    requires offset < 25
  {
    if offset == 0 then 0
    else if offset <= 18 then if offset % 2 == 1 then offset + 1 else offset - 1
    else if offset <= 21 then offset + 3
    else offset - 3
  }

  lemma TwinFaces(a: nat, b: nat, id: nat, id': nat, c: Color, d: Color)
    requires a < 25 && b < 25
    ensures SameFace(ColoredFace(id, c, a), ColoredFace(id', d, b)) <==> a == b || a == Twin(b)
  {
    if a <= 18 && b <= 18 {
      NumberTwins(a, b);
    } else if a > 18 && b > 18 {
      ActionTwins(a, b, id, id', c, d);
    }
  }

  lemma NumberTwins(a: nat, b: nat)
    requires a <= 18 && b <= 18
    ensures (a + 1) / 2 == (b + 1) / 2 <==> a == b || a == Twin(b)
  {
  }

  lemma ActionTwins(a: nat, b: nat, id: nat, id': nat, c: Color, d: Color)
    requires 18 < a < 25 && 18 < b < 25
    ensures SameFace(ColoredFace(id, c, a), ColoredFace(id', d, b)) <==> a == b || a == Twin(b)
  {
    assert ColoredFace(id, c, a).kind == ActionKind(a) && ColoredFace(id', d, b).kind == ActionKind(b);
  }

  function ActionKind(offset: nat): Kind
    requires 18 < offset < 25
  {
    if offset == 19 || offset == 22 then Skip else if offset == 20 || offset == 23 then Reverse else DrawTwo
  }

  function Either(a: nat, b: nat): nat -> int { (offset: nat) => if offset == a || offset == b then 1 else 0 }

  const ALL_FACES: nat -> int := (offset: nat) => 1

  lemma {:induction false} RunningEither(a: nat, b: nat, k: nat)
    ensures Running(Either(a, b), k) == (if a < k then 1 else 0) + (if b < k && b != a then 1 else 0)
  {
    if k > 0 { RunningEither(a, b, k - 1); }
  }

  lemma {:induction false} RunningAll(k: nat)
    ensures Running(ALL_FACES, k) == k
  {
    if k > 0 { RunningAll(k - 1); }
  }

  /** What one colour weighs, given what its faces weigh. */
  lemma {:induction false} BlockSum(weight: Card -> int, face: nat -> int, c: nat, k: nat)
    requires c < 4 && k <= 25
    requires forall offset: nat :: offset < 25 ==> weight(CanonicalCard(25 * c + offset + 1)) == face(offset)
    ensures SumBy(weight, StandardDeck()[..25 * c + k]) == SumBy(weight, StandardDeck()[..25 * c]) + Running(face, k)
  {
    if k > 0 {
      BlockSum(weight, face, c, k - 1);
      DeckPrefixSum(weight, 25 * c + k - 1);
    }
  }

  lemma WildsSum(weight: Card -> int, plain: int, four: int)
    requires WildsWeigh(weight, plain, four)
    ensures SumBy(weight, StandardDeck()) == SumBy(weight, StandardDeck()[..100]) + 4 * (plain + four)
  {
    WildPair(weight, plain, four, 0);
    WildPair(weight, plain, four, 1);
    WildPair(weight, plain, four, 2);
    WildPair(weight, plain, four, 3);
    assert StandardDeck()[..108] == StandardDeck();
  }

  /** One colour under a top card: all of it if it is the colour in play, otherwise the cards with the face of the top. */
  lemma ColorGoing(top: Card, color: Color, c: nat)
    requires c < 4 && IsCanonical(top)
    ensures var weight := GoingAs(top, color);
            SumBy(weight, StandardDeck()[..25 * c + 25]) == SumBy(weight, StandardDeck()[..25 * c])
            + (if COLORS[c] == color then 25 else if top.id > 100 then 0 else if (top.id - 1) % 25 == 0 then 1 else 2)
  {
    hide GoingAs, SumBy, Running, StandardDeck, IsCanonical;
    if COLORS[c] == color {
      ColorInPlay(top, color, c);
    } else if top.id > 100 {
      OtherUnderWild(top, color, c);
    } else {
      OtherUnderColored(top, color, c);
    }
  }

  lemma ColorInPlay(top: Card, color: Color, c: nat)
    requires c < 4 && COLORS[c] == color
    ensures SumBy(GoingAs(top, color), StandardDeck()[..25 * c + 25]) == SumBy(GoingAs(top, color), StandardDeck()[..25 * c]) + 25
  {
    hide StandardDeck, SumBy, GoingAs, CanonicalCard, Running, COLORS;
    var weight := GoingAs(top, color);
    forall offset: nat | offset < 25 ensures weight(CanonicalCard(25 * c + offset + 1)) == ALL_FACES(offset) {
      OneInPlay(top, color, c, offset);
    }
    BlockSum(weight, ALL_FACES, c, 25);
    RunningAll(25);
  }

  lemma OneInPlay(top: Card, color: Color, c: nat, offset: nat)
    requires c < 4 && offset < 25 && COLORS[c] == color
    ensures GoingAs(top, color)(CanonicalCard(25 * c + offset + 1)) == 1
  {
    CanonicalByColor(c, offset);
  }

  lemma OtherUnderWild(top: Card, color: Color, c: nat)
    requires c < 4 && COLORS[c] != color && IsCanonical(top) && top.id > 100
    ensures SumBy(GoingAs(top, color), StandardDeck()[..25 * c + 25]) == SumBy(GoingAs(top, color), StandardDeck()[..25 * c])
  {
    var weight := GoingAs(top, color);
    hide StandardDeck, SumBy;
    forall offset: nat | offset < 25 ensures weight(CanonicalCard(25 * c + offset + 1)) == NOTHING_AT(offset) {
      CanonicalByColor(c, offset);
    }
    BlockSum(weight, NOTHING_AT, c, 25);
    NothingRun();
  }

  lemma OtherUnderColored(top: Card, color: Color, c: nat)
    requires c < 4 && COLORS[c] != color && IsCanonical(top) && top.id <= 100
    ensures SumBy(GoingAs(top, color), StandardDeck()[..25 * c + 25])
         == SumBy(GoingAs(top, color), StandardDeck()[..25 * c]) + if (top.id - 1) % 25 == 0 then 1 else 2
  {
    var weight := GoingAs(top, color);
    var place := (top.id - 1) % 25;
    var face := Either(place, Twin(place));
    forall offset: nat | offset < 25 ensures weight(CanonicalCard(25 * c + offset + 1)) == face(offset) {
      OneUnderColored(top, color, c, offset);
    }
    hide StandardDeck, SumBy, GoingAs, IsCanonical;
    BlockSum(weight, face, c, 25);
    RunningEither(place, Twin(place), 25);
  }

  lemma OneUnderColored(top: Card, color: Color, c: nat, offset: nat)
    requires c < 4 && offset < 25 && COLORS[c] != color && IsCanonical(top) && top.id <= 100
    ensures var place := (top.id - 1) % 25;
            GoingAs(top, color)(CanonicalCard(25 * c + offset + 1)) == Either(place, Twin(place))(offset)
  {
    var place, d := (top.id - 1) % 25, COLORS[(top.id - 1) / 25];
    CanonicalByColor(c, offset);
    TwinFaces(offset, place, 25 * c + offset + 1, top.id, COLORS[c], d);
    assert top == ColoredFace(top.id, d, place);
    assert top.color == d && d != NoColor && COLORS[c] != NoColor;
    hide Twin, ColoredFace;
    assert CanonicalCard(25 * c + offset + 1).color == COLORS[c];
  }

  lemma GoingSum(top: Card, color: Color)
    requires IsCanonical(top) && color.Valid()
    ensures SumBy(GoingAs(top, color), StandardDeck())
         == 33 + if top.id > 100 then 0 else if (top.id - 1) % 25 == 0 then 3 else 6
  {
    var weight := GoingAs(top, color);
    assert WildsWeigh(weight, 1, 1);
    hide GoingAs, SumBy, StandardDeck, WildsWeigh, IsCanonical;
    ColorGoing(top, color, 0);
    ColorGoing(top, color, 1);
    ColorGoing(top, color, 2);
    ColorGoing(top, color, 3);
    WildsSum(weight, 1, 1);
    EmptySum(weight);
  }

  lemma EmptySum(weight: Card -> int)
    ensures SumBy(weight, StandardDeck()[..0]) == 0
  {
  }

  lemma DrawingSum()
    ensures SumBy(DRAWING, StandardDeck()) == 12
  {
    forall id: nat | 1 <= id <= 100
      ensures DRAWING(CanonicalCard(id)) == Either(21, 24)((id - 1) % 25)
    {
      CanonicalByColor((id - 1) / 25, (id - 1) % 25);
    }
    assert FacesWeigh(DRAWING, Either(21, 24)) && WildsWeigh(DRAWING, 0, 1);
    RunningEither(21, 24, 25);
    hide FacesWeigh, WildsWeigh, SumBy, Running, StandardDeck;
    TotalOf(DRAWING, Either(21, 24), 0, 1);
  }

  lemma {:induction false} SameSum(v: Card -> int, w: Card -> int, cards: seq<Card>)
    requires forall i :: 0 <= i < |cards| ==> v(cards[i]) == w(cards[i])
    ensures SumBy(v, cards) == SumBy(w, cards)
  {
    if cards != [] { SameSum(v, w, cards[1..]); }
  }

  lemma WithoutOne(weight: Card -> int, id: nat)
    requires 1 <= id <= DECK_SIZE
    ensures SumBy(weight, OtherCards(id)) == SumBy(weight, StandardDeck()) - weight(CanonicalCard(id))
  {
    var deck := StandardDeck();
    assert deck == deck[..id - 1] + [deck[id - 1]] + deck[id..];
    SumByAppend(weight, deck[..id - 1], deck[id..]);
    SumByAppend(weight, deck[..id - 1] + [deck[id - 1]], deck[id..]);
    SumByAppend(weight, deck[..id - 1], [deck[id - 1]]);
  }

  lemma TakenByFace(g: Game, i: nat)
    requires Inv(g, false) && Shape(g) && g.phase == Playing && i < DECK_SIZE
    ensures TakenAs(g)(StandardDeck()[i])
         == if g.pendingDraw > 0 then DRAWING(StandardDeck()[i]) else GoingAs(Top(g), g.color)(StandardDeck()[i])
  {
    StandardDeckDistinct();
    assert StandardDeck()[i] in StandardDeck();
    hide Inv, Taken, Goes, Draws;
    TakenIff(g, StandardDeck()[i]);
  }

  /** With nothing owed, of the other 107 cards of the deck 38 would be taken on a coloured top, 35 on a zero, and 32 on a
      wild card; while a penalty is owed, the twelve draw cards of the deck and no other. */
  lemma HowManyAreTaken(g: Game)
    requires Inv(g, false) && Shape(g) && g.phase == Playing
    ensures 1 <= Top(g).id <= DECK_SIZE
    ensures g.pendingDraw == 0 ==> HowMany(g, OtherCards(Top(g).id)) == GoingCount(Top(g))
    ensures g.pendingDraw > 0 ==> HowMany(g, StandardDeck()) == 12
  {
    TopIsCanonical(g);
    assert g.color.Valid();
    hide Inv, Taken, Goes, Draws, StandardDeck, SumBy, HowMany, GoingCount;
    if g.pendingDraw > 0 { DrawingTaken(g); } else { GoingTaken(g); }
  }

  lemma DrawingTaken(g: Game)
    requires Inv(g, false) && Shape(g) && g.phase == Playing && g.pendingDraw > 0
    ensures HowMany(g, StandardDeck()) == 12
  {
    hide Inv, Shape, Taken, Draws, StandardDeck, SumBy;
    forall i | 0 <= i < DECK_SIZE ensures TakenAs(g)(StandardDeck()[i]) == DRAWING(StandardDeck()[i]) {
      TakenByFace(g, i);
    }
    SameSum(TakenAs(g), DRAWING, StandardDeck());
    DrawingSum();
  }

  lemma GoingTaken(g: Game)
    requires Inv(g, false) && Shape(g) && g.phase == Playing && g.pendingDraw == 0
    requires IsCanonical(Top(g)) && g.color.Valid()
    ensures HowMany(g, OtherCards(Top(g).id)) == GoingCount(Top(g))
  {
    hide Inv, Taken, Goes, StandardDeck, SumBy, OtherCards, TakenAs, GoingAs;
    var top := Top(g);
    forall i | 0 <= i < DECK_SIZE ensures TakenAs(g)(StandardDeck()[i]) == GoingAs(top, g.color)(StandardDeck()[i]) {
      TakenByFace(g, i);
    }
    SameSum(TakenAs(g), GoingAs(top, g.color), StandardDeck());
    WithoutOne(TakenAs(g), top.id);
    GoingSum(top, g.color);
    TopGoes(top, g.color);
    TopKind(top);
    assert StandardDeck()[top.id - 1] == top;
  }

  /** 38 on a coloured top, 35 on a zero, 32 on a wild card. */
  function GoingCount(top: Card): int {
    if top.kind == Wild || top.kind == WildDrawFour then 32 else if top.kind == Number && top.number == 0 then 35 else 38
  }

  lemma TopGoes(top: Card, color: Color)
    requires IsCanonical(top)
    ensures GoingAs(top, color)(top) == 1
  {
    CanonicalIsValid(top.id);
  }

  lemma TopKind(top: Card)
    requires IsCanonical(top)
    ensures top.id > 100 <==> top.kind == Wild || top.kind == WildDrawFour
    ensures top.id <= 100 ==> ((top.id - 1) % 25 == 0 <==> top.kind == Number && top.number == 0)
  {
  }

  // ----- Why a play is refused -----

  ghost predicate Sits(g: Game, id: int) { exists s :: 0 <= s < |g.players| && g.players[s].id == id }

  ghost predicate OnTurn(g: Game, id: int) { 0 <= g.currentSeat < |g.players| && g.players[g.currentSeat].id == id }

  /** The first thing that is wrong is what the player hears. */
  lemma PlayRefusals(g: Game, id: int, cardID: int, sayUNO: bool, env: Env)
    requires Inv(g, false) && Shape(g)
    ensures var reply := PlayCard(g, id, cardID, sayUNO, env).reply;
            && (reply == Failed(GameNotPlaying) <==> g.phase == Finished)
            && (reply == Failed(ActionNotAllowed) <==> g.phase == AwaitingColor)
            && (g.phase == Playing || g.phase == AwaitingDrawDecision ==>
                  && (reply == Failed(PlayerNotFound) <==> !Sits(g, id))
                  && (reply == Failed(NotYourTurn) <==> Sits(g, id) && !OnTurn(g, id))
                  && (reply == Failed(CardNotFound) <==> OnTurn(g, id) && !Holds(g.players[g.currentSeat].hand, cardID))
                  && (reply == Failed(IllegalCard) || reply == Done
                      <==> OnTurn(g, id) && Holds(g.players[g.currentSeat].hand, cardID)))
  {
    if OnTurn(g, id) { SeatFound(g, g.currentSeat); }
    hide ApplyCardEffect, Discarded, Playable, Conserved;
  }
}
