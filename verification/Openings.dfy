/** How a new round begins, said without the functions that deal it. */
module Openings {
  import opened Wrappers
  import opened Cards
  import opened Piles
  import opened Rules
  import opened Invariant
  import opened Setup
  import opened Turns

  /** Who begins, and which way round, after this opening card. */
  ghost predicate Begins(g: Game, players: nat, dealer: int, card: Card) {
    var left := Beside(players, 1, dealer);
    match card.kind
    case Number => g.currentSeat == left && g.direction == 1 && g.phase == Playing
    case Skip => g.currentSeat == Beside(players, 1, left) && g.direction == 1 && g.phase == Playing
    case Reverse =>
      g.phase == Playing
      && if players == 2 then g.currentSeat == dealer && g.direction == 1
         else g.currentSeat == Beside(players, -1, dealer) && g.direction == -1
    case DrawTwo => g.currentSeat == Beside(players, 1, left) && g.direction == 1 && g.phase == Playing
    case Wild =>
      g.currentSeat == left && g.direction == 1 && g.phase == AwaitingColor
      && g.pendingColor.Some? && g.pendingColor.value.seat == left && g.pendingColor.value.opening
    case _ => false
  }

  /** What lies where: seven cards each, two more beside the dealer after a draw two, one card face up, the rest to draw. */
  ghost predicate LaidOut(g: Game, players: nat, dealer: int, card: Card) {
    && |g.players| == players && g.discardPile == [card] && g.pendingDraw == 0 && g.dealerSeat == dealer
    && (card.kind != Wild ==> g.color == card.color)
    && (forall s :: 0 <= s < players ==>
          |g.players[s].hand| == if card.kind == DrawTwo && s == Beside(players, 1, dealer) then 9 else 7)
    && |g.drawPile| == 107 - 7 * players - (if card.kind == DrawTwo then 2 else 0)
  }

  lemma TwoBack(players: nat, dealer: int)
    requires 2 <= players && 0 <= dealer < players
    ensures 0 <= Beside(players, 1, dealer) < players && 0 <= Beside(players, -1, dealer) < players
    ensures players == 2 ==> Beside(players, 1, Beside(players, 1, dealer)) == dealer
  {
  }

  /** The opening card of a table that has been laid. */
  lemma OpeningApplied(g: Game, ids: seq<int>, card: Card, shuffle: Shuffle)
    requires Laid(g, ids, card) && IsCanonical(card) && card.kind != WildDrawFour && Permuting(shuffle)
    ensures var r := ApplyOpening(g, card, shuffle);
            r.Ok? && Begins(r.value, |ids|, g.dealerSeat, card) && LaidOut(r.value, |ids|, g.dealerSeat, card)
  {
    CanonicalIsValid(card.id);
    assert TurnOrder.AtTable(g, g.dealerSeat);
    var turned, left := g.(direction := -1), Beside(|g.players|, 1, g.dealerSeat);
    TwoBack(|g.players|, g.dealerSeat);
    NextIsBeside(g, g.dealerSeat);
    NextIsBeside(g, left);
    NextIsBeside(turned, g.dealerSeat);
    hide Conserved, NextSeat, Beside, InvTable;
    if card.kind == DrawTwo {
      OpeningTwo(g, ids, card, shuffle, left);
    }
    hide Permuting, DrawCardsTo, IsCanonical;
  }

  lemma OpeningTwo(g: Game, ids: seq<int>, card: Card, shuffle: Shuffle, left: int)
    requires Laid(g, ids, card) && Permuting(shuffle) && 0 <= left < |ids|
    ensures var dealt := DrawCardsTo(g.(color := card.color), left, 2, shuffle);
            && dealt.Some?
            && var d := dealt.value.0;
               && d.color == card.color && d.direction == g.direction && d.phase == g.phase && d.discardPile == [card]
               && d.pendingDraw == 0 && d.dealerSeat == g.dealerSeat && |d.drawPile| == |g.drawPile| - 2
               && |d.players| == |ids|
               && forall s :: 0 <= s < |ids| ==> |d.players[s].hand| == if s == left then 9 else 7
  {
    assert |ids| <= 6 && |g.drawPile| >= 2;
    hide Conserved, InvTable, Permuting, Without;
  }

  /** Two to six different players, with ids above zero. */
  predicate SeatableIDs(ids: seq<int>) {
    && 2 <= |ids| && |ids| < 7 && (forall i :: 0 <= i < |ids| ==> ids[i] > 0)
    && forall i, j :: 0 <= i < |ids| && 0 <= j < |ids| && ids[i] == ids[j] ==> i == j
  }

  lemma {:induction false} OpeningErrors(pile: seq<Card>, attempts: nat, shuffles: nat -> Shuffle)
    requires attempts <= DECK_SIZE
    ensures DrawOpening(pile, attempts, shuffles) != Err(InvalidPlayers)
    decreases DECK_SIZE - attempts
  {
    if attempts < DECK_SIZE && pile != [] {
      var reshuffled := shuffles(attempts + 1)([pile[|pile| - 1]] + pile[..|pile| - 1]);
      if reshuffled.ok { OpeningErrors(reshuffled.cards, attempts + 1, shuffles); }
    }
  }

  lemma SeatableIsValid(ids: seq<int>)
    ensures SeatableIDs(ids) <==> ValidPlayerIDs(ids)
  {
  }

  /** A new game, if there is one, begins as the opening card says, with the first hand beside the dealer. */
  lemma NewGameBegins(ids: seq<int>, dealer: int, shuffles: nat -> Shuffle)
    requires forall i :: Permuting(shuffles(i))
    ensures var r := NewGame(ids, dealer, shuffles);
            && (r == Err(InvalidPlayers) <==> !(SeatableIDs(ids) && 0 <= dealer < |ids|))
            && (SeatableIDs(ids) && 0 <= dealer < |ids| && !shuffles(0)(StandardDeck()).ok ==> r == Err(ShuffleError))
            && (r.Ok? ==>
                  |r.value.discardPile| > 0 && Begins(r.value, |ids|, dealer, Top(r.value))
                  && LaidOut(r.value, |ids|, dealer, Top(r.value)))
  {
    SeatableIsValid(ids);
    hide SeatableIDs, ValidPlayerIDs, ApplyOpening, StandardDeck, DealRounds, DrawOpening, Seated, Laid, Begins, IsCanonical;
    if ValidPlayerIDs(ids) && 0 <= dealer < |ids| {
      var deck := shuffles(0)(StandardDeck());
      if deck.ok {
        HandsDealt(ids, deck.cards);
        var d := DealRounds(Dealing(Seated(ids), deck.cards), HAND_SIZE).value;
        DrawOpeningFacts(d.pile, 0, shuffles);
        OpeningErrors(d.pile, 0, shuffles);
        var opening := DrawOpening(d.pile, 0, shuffles);
        if opening.Ok? {
          TableLaid(ids, dealer, d, opening.value);
          OpeningApplied(Table(d, opening.value, dealer), ids, opening.value.card, shuffles(DECK_SIZE + 1));
        }
      }
    }
  }

  /** A dealer who does not sit at the table is refused; a positive window is kept, any other becomes four seconds. */
  lemma ConfigMeans(config: Config, players: nat)
    ensures var c := NormalizedConfig(config, players);
            && (c == Err(InvalidPlayers) <==> !(0 <= config.dealerSeat < players))
            && (0 <= config.dealerSeat < players && config.window > 0 ==> c == Ok(config))
            && (0 <= config.dealerSeat < players && config.window <= 0 ==> c == Ok(Config(config.dealerSeat, 4_000_000_000)))
  {
  }
}
