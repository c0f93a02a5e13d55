/** What one player may see, and that nobody sees more. */
module Views {
  import opened Wrappers
  import opened Cards
  import opened Rules
  import opened Invariant
  import opened Preservation

  datatype PlayerView = PlayerView(playerID: int, seat: int, cards: nat)

  datatype View = View(
    phase: Phase,
    players: seq<PlayerView>,
    hand: seq<Card>,
    playableCardIDs: seq<int>,
    topCard: Card,
    color: Color,
    direction: int,
    currentPlayerID: int,
    colorChooserID: int,
    pendingDraw: int,
    drawPileCount: nat,
    discardPileCount: nat,
    drawnCardID: int,
    challenges: seq<Challenge>,
    winnerCandidateIDs: seq<int>,
    result: Option<RoundResult>)

  function PublicPlayers(players: seq<Player>): seq<PlayerView> {
    seq(|players|, s requires 0 <= s < |players| => PlayerView(players[s].id, s, |players[s].hand|))
  }

  function CurrentPlayerID(g: Game): int {
    if 0 <= g.currentSeat < |g.players| then g.players[g.currentSeat].id else 0
  }

  function ColorChooserID(g: Game): int
    requires Shape(g)
  {
    if g.pendingColor.Some? then g.players[g.pendingColor.value.seat].id else 0
  }

  predicate OnOffer(g: Game, card: Card)
    requires Shape(g)
  {
    (g.phase == AwaitingDrawDecision ==> card.id == g.drawnCardID) && Playable(g, card)
  }

  function OfferedIDs(g: Game, hand: seq<Card>): seq<int>
    requires Shape(g)
  {
    if hand == [] then []
    else (if OnOffer(g, hand[0]) then [hand[0].id] else []) + OfferedIDs(g, hand[1..])
  }

  function PlayableCardIDs(g: Game, seat: nat): seq<int>
    requires Shape(g) && seat < |g.players|
  {
    if seat == g.currentSeat && (g.phase == Playing || g.phase == AwaitingDrawDecision) then
      OfferedIDs(g, g.players[seat].hand)
    else []
  }

  function LiveChallenges(players: seq<Player>, challenges: map<int, Challenge>, now: int): seq<Challenge> {
    if players == [] then []
    else
      var id := players[0].id;
      (if id in challenges && !DeadlineReached(now, challenges[id].expiresAt) then [challenges[id]] else [])
      + LiveChallenges(players[1..], challenges, now)
  }

  function CandidateIDs(players: seq<Player>, candidates: seq<int>): seq<int>
    requires SeatsBelow(candidates, |players|)
  {
    seq(|candidates|, i requires 0 <= i < |candidates| => players[candidates[i]].id)
  }

  function ViewFor(g: Game, playerID: int, now: int): Result<View, Error>
    requires Shape(g)
  {
    match SeatOf(g.players, playerID)
    case None => Err(PlayerNotFound)
    case Some(seat) =>
      Ok(View(g.phase, PublicPlayers(g.players), g.players[seat].hand, PlayableCardIDs(g, seat), Top(g), g.color,
              g.direction, CurrentPlayerID(g), ColorChooserID(g), g.pendingDraw, |g.drawPile|, |g.discardPile|,
              if seat == g.currentSeat && g.phase == AwaitingDrawDecision then g.drawnCardID else 0,
              LiveChallenges(g.players, g.challenges, now), CandidateIDs(g.players, g.candidates), g.result))
  }

  // ----- Nobody sees more -----

  ghost predicate SamePublicSeats(a: seq<Player>, b: seq<Player>) {
    |a| == |b| && forall s :: 0 <= s < |a| ==> a[s].id == b[s].id && |a[s].hand| == |b[s].hand|
  }

  /** Two games that `playerID` is not supposed to tell apart: they may differ in the others' cards, in the cards of
      the draw pile and the buried discards, and in the drawn card when it is somebody else's. */
  ghost predicate Indistinguishable(a: Game, b: Game, playerID: int)
    requires Shape(a) && Shape(b)
  {
    && SamePublicSeats(a.players, b.players)
    && (forall s :: 0 <= s < |a.players| && a.players[s].id == playerID ==> a.players[s].hand == b.players[s].hand)
    && |a.drawPile| == |b.drawPile|
    && |a.discardPile| == |b.discardPile| && Top(a) == Top(b)
    && a.currentSeat == b.currentSeat && a.direction == b.direction && a.color == b.color
    && a.pendingDraw == b.pendingDraw && a.phase == b.phase && a.pendingColor == b.pendingColor
    && a.challenges == b.challenges && a.candidates == b.candidates && a.result == b.result
    && (CurrentPlayerID(a) == playerID ==> a.drawnCardID == b.drawnCardID)
  }

  lemma {:induction false} SameSeatOf(a: seq<Player>, b: seq<Player>, id: int)
    requires SamePublicSeats(a, b)
    ensures SeatOf(a, id) == SeatOf(b, id)
  {
    if a != [] {
      assert forall s :: 0 <= s < |a[1..]| ==> a[1..][s] == a[s + 1] && b[1..][s] == b[s + 1];
      SameSeatOf(a[1..], b[1..], id);
    }
  }

  lemma {:induction false} SameLive(a: seq<Player>, b: seq<Player>, challenges: map<int, Challenge>, now: int)
    requires SamePublicSeats(a, b)
    ensures LiveChallenges(a, challenges, now) == LiveChallenges(b, challenges, now)
  {
    if a != [] {
      assert forall s :: 0 <= s < |a[1..]| ==> a[1..][s] == a[s + 1] && b[1..][s] == b[s + 1];
      SameLive(a[1..], b[1..], challenges, now);
    }
  }

  lemma {:induction false} SameOffers(a: Game, b: Game, hand: seq<Card>)
    requires Shape(a) && Shape(b)
    requires a.phase == b.phase && a.drawnCardID == b.drawnCardID && a.pendingDraw == b.pendingDraw
    requires Top(a) == Top(b) && a.color == b.color
    ensures OfferedIDs(a, hand) == OfferedIDs(b, hand)
  {
    if hand != [] {
      SameOffers(a, b, hand[1..]);
    }
  }

  /** A player's view depends on nothing he may not know. */
  lemma ViewRevealsNothing(a: Game, b: Game, playerID: int, now: int)
    requires Shape(a) && Shape(b) && Indistinguishable(a, b, playerID)
    ensures ViewFor(a, playerID, now) == ViewFor(b, playerID, now)
  {
    SameSeatOf(a.players, b.players, playerID);
    SameLive(a.players, b.players, a.challenges, now);
    assert PublicPlayers(a.players) == PublicPlayers(b.players);
    assert CandidateIDs(a.players, a.candidates) == CandidateIDs(b.players, b.candidates);
    var seat := SeatOf(a.players, playerID);
    if seat.Some? && seat.value == a.currentSeat {
      SameOffers(a, b, a.players[seat.value].hand);
    }
  }

  /** Players see the same game but for their own cards and what they may do with them. */
  lemma ViewsAgree(g: Game, p: int, q: int, now: int)
    requires Shape(g) && ViewFor(g, p, now).Ok? && ViewFor(g, q, now).Ok?
    ensures ViewFor(g, p, now).value.(hand := [], playableCardIDs := [], drawnCardID := 0)
         == ViewFor(g, q, now).value.(hand := [], playableCardIDs := [], drawnCardID := 0)
  {
  }

  // ----- What is shown as playable is what is accepted -----

  lemma {:induction false} OfferedIff(g: Game, hand: seq<Card>, id: int)
    requires Shape(g)
    ensures id in OfferedIDs(g, hand) <==> exists i :: 0 <= i < |hand| && hand[i].id == id && OnOffer(g, hand[i])
  {
    if hand != [] {
      OfferedIff(g, hand[1..], id);
      if exists i :: 0 <= i < |hand| && hand[i].id == id && OnOffer(g, hand[i]) {
        var i :| 0 <= i < |hand| && hand[i].id == id && OnOffer(g, hand[i]);
        if i > 0 { assert hand[1..][i - 1] == hand[i]; }
      }
      if exists i :: 0 <= i < |hand[1..]| && hand[1..][i].id == id && OnOffer(g, hand[1..][i]) {
        var i :| 0 <= i < |hand[1..]| && hand[1..][i].id == id && OnOffer(g, hand[1..][i]);
        assert hand[i + 1].id == id && OnOffer(g, hand[i + 1]);
      }
    }
  }

  lemma SameIDSameCard(g: Game, seat: nat, i: nat, j: nat)
    requires Conserved(g) && seat < |g.players| && i < |g.players[seat].hand| && j < |g.players[seat].hand|
    requires g.players[seat].hand[i].id == g.players[seat].hand[j].id
    ensures g.players[seat].hand[i] == g.players[seat].hand[j]
  {
    CardIsCanonical(g, seat, i);
    CardIsCanonical(g, seat, j);
  }

  /** The view lists exactly the cards that playing would be accepted for. */
  lemma PlayableIff(g: Game, playerID: int, cardID: int, now: int)
    requires Inv(g, false) && Shape(g) && ViewFor(g, playerID, now).Ok?
    ensures cardID in ViewFor(g, playerID, now).value.playableCardIDs <==> PlayCheck(g, playerID, cardID).Ok?
  {
    var seat := SeatOf(g.players, playerID).value;
    var hand := g.players[seat].hand;
    assert Conserved(g);
    hide Inv, Conserved;
    if seat == g.currentSeat && (g.phase == Playing || g.phase == AwaitingDrawDecision) {
      OfferedIff(g, hand, cardID);
      var index := CardIndex(hand, cardID);
      if cardID in OfferedIDs(g, hand) {
        var i :| 0 <= i < |hand| && hand[i].id == cardID && OnOffer(g, hand[i]);
        SameIDSameCard(g, seat, i, index.value);
      }
    }
  }
}
