/** The invariant every command keeps. It is stronger than what a saved game is checked for. */
module Invariant {
  import opened Wrappers
  import opened Cards
  import opened Piles
  import opened Rules

  function AllHands(players: seq<Player>): seq<Card> {
    if players == [] then [] else players[0].hand + AllHands(players[1..])
  }

  /** Every physical card, wherever it lies. */
  function AllCards(g: Game): seq<Card> {
    g.drawPile + g.discardPile + AllHands(g.players)
  }

  ghost function HandBag(players: seq<Player>): multiset<Card> {
    if players == [] then multiset{} else multiset(players[0].hand) + HandBag(players[1..])
  }

  ghost function Bag(players: seq<Player>, drawPile: seq<Card>, discardPile: seq<Card>): multiset<Card> {
    multiset(drawPile) + multiset(discardPile) + HandBag(players)
  }

  /** The 108 cards of the deck are all on the table, each in one place. */
  ghost predicate Conserved(g: Game) {
    Bag(g.players, g.drawPile, g.discardPile) == multiset(StandardDeck())
  }

  lemma {:induction false} HandBagIsAllHands(players: seq<Player>)
    ensures multiset(AllHands(players)) == HandBag(players)
  {
    if players != [] {
      HandBagIsAllHands(players[1..]);
    }
  }

  lemma ConservedIff(g: Game)
    ensures Conserved(g) <==> IsFullDeck(AllCards(g))
  {
    HandBagIsAllHands(g.players);
  }

  ghost predicate DistinctPlayers(players: seq<Player>) {
    forall s, t :: 0 <= s < t < |players| ==> players[s].id != players[t].id
  }

  ghost predicate DistinctSeats(seats: seq<int>) {
    forall i, j :: 0 <= i < j < |seats| ==> seats[i] != seats[j]
  }

  ghost predicate InvTable(players: seq<Player>, dealerSeat: int, direction: int) {
    && 2 <= |players| <= 6
    && (forall s :: 0 <= s < |players| ==> players[s].id > 0)
    && DistinctPlayers(players)
    && 0 <= dealerSeat < |players|
    && (direction == 1 || direction == -1)
  }

  /** A colour choice is pending exactly in its phase: the wild on top, and the player whose turn it is. */
  ghost predicate InvPendingColor(g: Game, top: Card, exact: bool) {
    && (g.phase == AwaitingColor <==> g.pendingColor.Some?)
    && (g.pendingColor.Some? ==>
          var p := g.pendingColor.value;
          && g.color == NoColor
          && p.seat == g.currentSeat
          && p.card == top
          && top.IsWild()
          && (p.opening ==> top.kind == Wild && (g.candidates == [] || g.pendingDraw > 0))
          && (exact ==> (g.pendingDraw > 0 ==> top.IsDrawPenalty()) && (p.opening ==> g.pendingDraw == 0)))
  }

  ghost predicate Holds(hand: seq<Card>, id: int) {
    exists i :: 0 <= i < |hand| && hand[i].id == id
  }

  /** Only the drawn card is on offer during a draw decision: it is in the hand of the player whose turn it is. */
  ghost predicate InvDecision(players: seq<Player>, phase: Phase, drawnCardID: int, pendingDraw: int, currentSeat: int) {
    if phase == AwaitingDrawDecision then
      && drawnCardID != 0
      && pendingDraw == 0
      && 0 <= currentSeat < |players|
      && Holds(players[currentSeat].hand, drawnCardID)
    else drawnCardID == 0
  }

  ghost predicate InvTurn(phase: Phase, currentSeat: int, pendingDraw: int, seats: nat, exact: bool) {
    && !phase.OtherPhase?
    && pendingDraw >= 0
    && (exact ==> pendingDraw % 2 == 0)
    && if phase == Finished then currentSeat == -1 && pendingDraw == 0 else 0 <= currentSeat < seats
  }

  ghost predicate InvColor(phase: Phase, color: Color, pendingDraw: int, top: Card, exact: bool) {
    && (phase != AwaitingColor ==> color.Valid())
    && (!top.IsWild() ==> color == top.color)
    && (exact && pendingDraw > 0 && phase == Playing ==> top.IsDrawPenalty())
  }

  /** The candidates are empty-handed seats, each once; with `all`, every empty-handed seat is one. */
  ghost predicate InvCandidates(players: seq<Player>, candidates: seq<int>, all: bool) {
    && SeatsBelow(candidates, |players|)
    && DistinctSeats(candidates)
    && (forall i :: 0 <= i < |candidates| ==> players[candidates[i]].hand == [])
    && (all ==> forall s :: 0 <= s < |players| && players[s].hand == [] ==> s in candidates)
  }

  ghost predicate HoldsOneCard(players: seq<Player>, id: int) {
    exists s :: 0 <= s < |players| && players[s].id == id && |players[s].hand| == 1
  }

  ghost predicate InvChallenges(players: seq<Player>, challenges: map<int, Challenge>) {
    forall id :: id in challenges ==>
                   && challenges[id].playerID == id
                   && challenges[id].expiresAt != ZERO_TIME
                   && HoldsOneCard(players, id)
  }

  ghost predicate InvResult(g: Game, exact: bool)
    requires SeatsBelow(g.candidates, |g.players|)
  {
    if g.phase == Finished then
      && |g.candidates| > 0
      && g.result == Some(ResultFor(g.players, g.candidates[0]))
      && (exact ==> |g.candidates| == 1 && g.challenges == map[])
    else g.result.None?
  }

  /** Everything but this: a round with an empty hand and nothing pending is over. */
  ghost predicate Unsettled(g: Game, exact: bool) {
    && |g.discardPile| > 0
    && InvTable(g.players, g.dealerSeat, g.direction)
    && Conserved(g)
    && InvTurn(g.phase, g.currentSeat, g.pendingDraw, |g.players|, exact)
    && InvPendingColor(g, Top(g), exact)
    && InvDecision(g.players, g.phase, g.drawnCardID, g.pendingDraw, g.currentSeat)
    && InvColor(g.phase, g.color, g.pendingDraw, Top(g), exact)
    && InvCandidates(g.players, g.candidates, exact && g.phase != Finished)
    && InvChallenges(g.players, g.challenges)
    && InvResult(g, exact)
  }

  ghost predicate Settled(g: Game) {
    g.phase != Finished && g.phase != AwaitingColor && g.pendingDraw == 0 ==> g.candidates == []
  }

  /** What a checked saved game and every command keep; with `exact`, what every game that was dealt keeps besides. */
  ghost predicate Inv(g: Game, exact: bool) {
    Unsettled(g, exact) && Settled(g)
  }

  ghost predicate EnvOk(env: Env) {
    Permuting(env.shuffle) && env.now + env.window != ZERO_TIME
  }

  lemma InvShape(g: Game, exact: bool)
    requires Inv(g, exact)
    ensures Shape(g)
  {
  }

  // ----- Conservation -----

  lemma {:induction false} HandUpdate(players: seq<Player>, seat: nat, hand: seq<Card>)
    requires seat < |players|
    ensures HandBag(players[seat := players[seat].(hand := hand)]) + multiset(players[seat].hand)
         == HandBag(players) + multiset(hand)
  {
    var after := players[seat := players[seat].(hand := hand)];
    if seat == 0 {
      assert after[1..] == players[1..];
    } else {
      HandUpdate(players[1..], seat - 1, hand);
      assert after[1..] == players[1..][seat - 1 := players[1..][seat - 1].(hand := hand)];
      var first := multiset(players[0].hand);
      assert HandBag(after) == first + HandBag(after[1..]);
      assert HandBag(players) == first + HandBag(players[1..]);
      assert HandBag(after) + multiset(players[seat].hand) == first + (HandBag(after[1..]) + multiset(players[seat].hand));
    }
  }

  lemma BagCancel(a: multiset<Card>, b: multiset<Card>, c: multiset<Card>)
    requires a + c == b + c
    ensures a == b
  {
    assert a == (a + c) - c;
    assert b == (b + c) - c;
  }

  /** A deal moves cards between the piles and one hand. */
  lemma DealKeepsBag(g: Game, seat: nat, count: nat, shuffle: Shuffle)
    requires |g.discardPile| > 0 && seat < |g.players| && Permuting(shuffle)
    requires DealCards(g.drawPile, g.discardPile, count, shuffle).Dealt?
    ensures var d := DealCards(g.drawPile, g.discardPile, count, shuffle);
            && Bag(SetHand(g, seat, g.players[seat].hand + d.drawn).players, d.drawPile, d.discardPile)
            == Bag(g.players, g.drawPile, g.discardPile)
            && |d.discardPile| > 0 && d.discardPile[|d.discardPile| - 1] == Top(g)
  {
    var hand := g.players[seat].hand;
    var d := DealCards(g.drawPile, g.discardPile, count, shuffle);
    DealConserves(g.drawPile, g.discardPile, count, shuffle);
    HandUpdate(g.players, seat, hand + d.drawn);
    var after := g.players[seat := g.players[seat].(hand := hand + d.drawn)];
    assert HandBag(after) + multiset(hand) == HandBag(g.players) + multiset(hand) + multiset(d.drawn);
    BagCancel(HandBag(after), HandBag(g.players) + multiset(d.drawn), multiset(hand));
  }

  lemma DiscardKeepsBag(g: Game, seat: nat, index: nat)
    requires seat < |g.players| && index < |g.players[seat].hand|
    ensures var hand := g.players[seat].hand;
            Bag(SetHand(g, seat, RemoveAt(hand, index)).players, g.drawPile, g.discardPile + [hand[index]])
            == Bag(g.players, g.drawPile, g.discardPile)
  {
    var hand := g.players[seat].hand;
    HandUpdate(g.players, seat, RemoveAt(hand, index));
    assert hand == hand[..index] + [hand[index]] + hand[index + 1..];
    var after := g.players[seat := g.players[seat].(hand := RemoveAt(hand, index))];
    assert multiset(hand) == multiset(RemoveAt(hand, index)) + multiset{hand[index]};
    assert HandBag(after) + multiset{hand[index]} + multiset(RemoveAt(hand, index)) == HandBag(g.players) + multiset(RemoveAt(hand, index));
    BagCancel(HandBag(after) + multiset{hand[index]}, HandBag(g.players), multiset(RemoveAt(hand, index)));
  }

  // ----- Settling -----

  lemma {:induction false} StillEmptyAll(players: seq<Player>, candidates: seq<int>)
    requires SeatsBelow(candidates, |players|)
    requires forall i :: 0 <= i < |candidates| ==> players[candidates[i]].hand == []
    ensures StillEmpty(players, candidates) == candidates
  {
    if candidates != [] {
      StillEmptyAll(players, candidates[1..]);
    }
  }

  lemma FinishIfResolvedInv(g: Game, exact: bool)
    requires Unsettled(g, exact) && g.phase == Playing
    ensures Inv(FinishIfResolved(g), exact)
  {
    StillEmptyAll(g.players, g.candidates);
    if g.pendingDraw == 0 {
      if g.candidates == [] {
        assert FinishIfResolved(g) == g;
      } else {
        FinishRoundInv(g, g.candidates[0], exact);
        assert g.(candidates := g.candidates) == g;
      }
      hide Inv, StillEmpty, FinishRound;
    }
  }

  lemma FinishRoundInv(g: Game, winner: int, exact: bool)
    requires Unsettled(g, exact) && g.phase == Playing && 0 <= winner < |g.players| && g.players[winner].hand == []
    ensures Inv(FinishRound(g, winner), exact)
  {
    assert InvResult(FinishRound(g, winner), exact);
  }

  lemma NextSeatInRange(g: Game, seat: int, steps: int)
    requires |g.players| > 0
    ensures 0 <= NextSeat(g, seat, steps) < |g.players|
  {
  }

  lemma TurnMoved(g: Game, seat: int, direction: int, pendingDraw: int, exact: bool)
    requires Unsettled(g, exact) && g.phase == Playing && 0 <= seat < |g.players| && (direction == 1 || direction == -1)
    requires pendingDraw >= 0 && (exact ==> pendingDraw % 2 == 0) && (exact && pendingDraw > 0 ==> Top(g).IsDrawPenalty())
    ensures Unsettled(g.(currentSeat := seat, direction := direction, pendingDraw := pendingDraw), exact)
  {
  }

  lemma TurnedInv(g: Game, seat: int, card: Card, exact: bool)
    requires Unsettled(g.(phase := Playing, pendingDraw := 0), exact) && g.pendingDraw >= 0 && (exact ==> g.pendingDraw % 2 == 0)
    requires card == Top(g) && (exact && g.pendingDraw > 0 ==> card.IsDrawPenalty())
    ensures Unsettled(Turned(g, seat, card), exact) && Turned(g, seat, card).phase == Playing
  {
    var p := g.(phase := Playing, pendingDraw := 0);
    var t := Turned(g, seat, card);
    NextSeatInRange(t, seat, 1);
    NextSeatInRange(t, seat, 2);
    assert t == p.(currentSeat := t.currentSeat, direction := t.direction, pendingDraw := t.pendingDraw);
    assert t.direction == 1 || t.direction == -1;
    assert t.pendingDraw >= 0 && (exact ==> t.pendingDraw % 2 == 0);
    assert exact && t.pendingDraw > 0 ==> Top(p).IsDrawPenalty();
    hide Unsettled, Turned;
    TurnMoved(p, t.currentSeat, t.direction, t.pendingDraw, exact);
  }

  /** A card whose face is complete takes effect: what holds before it makes what holds after. */
  lemma ApplyCardEffectInv(g: Game, seat: int, card: Card, exact: bool)
    requires Unsettled(g.(phase := Playing, pendingDraw := 0), exact) && g.pendingDraw >= 0 && (exact ==> g.pendingDraw % 2 == 0)
    requires card == Top(g) && (exact && g.pendingDraw > 0 ==> card.IsDrawPenalty())
    ensures Inv(ApplyCardEffect(g, seat, card), exact)
  {
    TurnedInv(g, seat, card, exact);
    FinishIfResolvedInv(Turned(g, seat, card), exact);
  }
}
