/** What a player sees is what is there: his view tells him which of his commands will be accepted, and changes with each
    command as the cards do. */
module Sights {
  import opened Cards
  import opened Piles
  import opened Rules
  import opened Invariant
  import opened Preservation
  import opened Views
  import opened Acceptance
  import opened Turns
  import opened Calls

  // ----- All cards are shown somewhere -----

  function ShownCards(players: seq<PlayerView>): int {
    if players == [] then 0 else players[0].cards + ShownCards(players[1..])
  }

  lemma {:induction false} HandsShown(players: seq<Player>)
    ensures ShownCards(PublicPlayers(players)) == |HandBag(players)|
  {
    if players != [] {
      assert PublicTail(PublicPlayers(players)[1..]) == PublicTail(PublicPlayers(players[1..]));
      TailShown(PublicPlayers(players)[1..], PublicPlayers(players[1..]));
      HandsShown(players[1..]);
    }
  }

  /** The counts alone. */
  function PublicTail(players: seq<PlayerView>): seq<nat> {
    seq(|players|, s requires 0 <= s < |players| => players[s].cards)
  }

  lemma {:induction false} TailShown(a: seq<PlayerView>, b: seq<PlayerView>)
    requires PublicTail(a) == PublicTail(b)
    ensures ShownCards(a) == ShownCards(b)
  {
    assert |PublicTail(a)| == |a| && |PublicTail(b)| == |b|;
    if a != [] {
      assert PublicTail(a)[0] == a[0].cards && PublicTail(b)[0] == b[0].cards;
      forall s | 0 <= s < |a[1..]| ensures a[1..][s].cards == b[1..][s].cards {
        assert PublicTail(a)[s + 1] == PublicTail(b)[s + 1];
      }
      assert PublicTail(a[1..]) == PublicTail(b[1..]);
      TailShown(a[1..], b[1..]);
    }
  }

  /** Hands, draw pile and discard pile as shown are together the 108 cards; one's own count is that of one's own cards. */
  lemma AllCardsShown(g: Game, p: int, now: int)
    requires Inv(g, false) && Shape(g) && ViewFor(g, p, now).Ok?
    ensures var v := ViewFor(g, p, now).value;
            && v.drawPileCount + v.discardPileCount + ShownCards(v.players) == 108
            && exists s :: 0 <= s < |v.players| && v.players[s].playerID == p && v.players[s].cards == |v.hand|
  {
    HandsShown(g.players);
    var bag := Bag(g.players, g.drawPile, g.discardPile);
    assert |bag| == |multiset(g.drawPile)| + |multiset(g.discardPile)| + |HandBag(g.players)|;
    assert |bag| == |multiset(StandardDeck())|;
    var seat := SeatOf(g.players, p).value;
    assert ViewFor(g, p, now).value.players[seat].playerID == p;
    hide HandBag, Conserved, PlayableCardIDs, LiveChallenges, CandidateIDs, ShownCards;
  }

  // ----- What is shown decides what is accepted -----

  /** A card of the shown hand with this id that may be played, going by what is shown. */
  ghost predicate ShownPlayable(v: View, p: int, cardID: int) {
    && v.currentPlayerID == p
    && (v.phase == Playing || (v.phase == AwaitingDrawDecision && cardID == v.drawnCardID))
    && exists i :: 0 <= i < |v.hand| && v.hand[i].id == cardID
                   && if v.pendingDraw > 0 then Draws(v.hand[i]) else Goes(v.topCard, v.color, v.hand[i])
  }

  lemma ShownDecidesPlay(g: Game, p: int, now: int, cardID: int, sayUNO: bool, env: Env)
    requires Inv(g, false) && Shape(g) && ViewFor(g, p, now).Ok?
    ensures PlayCard(g, p, cardID, sayUNO, env).reply == Done <==> ShownPlayable(ViewFor(g, p, now).value, p, cardID)
  {
    var v, seat := ViewFor(g, p, now).value, SeatOf(g.players, p).value;
    SameID(g, p, seat);
    if i :| 0 <= i < |v.hand| && v.hand[i].id == cardID {
      PlayAcceptedIff(g, seat, i, sayUNO, env);
      forall j | 0 <= j < |v.hand| && v.hand[j].id == cardID ensures v.hand[j] == v.hand[i] {
        SameIDSameCard(g, seat, j, i);
      }
      hide Inv, PlayCard, Goes, Draws, PlayableCardIDs, LiveChallenges, CandidateIDs;
    } else {
      PlayRefusals(g, p, cardID, sayUNO, env);
      hide Inv, PlayCard, Goes, Draws, PlayableCardIDs, LiveChallenges, CandidateIDs;
    }
  }

  lemma SameID(g: Game, p: int, seat: nat)
    requires Inv(g, false) && seat < |g.players| && g.players[seat].id == p
    ensures forall s :: 0 <= s < |g.players| ==> (g.players[s].id == p <==> s == seat)
  {
  }

  /** Who draws, passes or says a colour with success is the player shown, and the shown counts say how many cards come. */
  lemma ShownDecidesTurn(g: Game, p: int, q: int, now: int, wish: Color, env: Env)
    requires Inv(g, false) && Shape(g) && ViewFor(g, p, now).Ok? && Permuting(env.shuffle) && NeverFails(env.shuffle)
    ensures var v := ViewFor(g, p, now).value;
            var drawn := DrawCard(g, q, env).reply;
            && (v.phase != Finished ==> v.currentPlayerID > 0)
            && (drawn.Drew? <==> v.phase == Playing && q == v.currentPlayerID)
            && (drawn.Drew? ==>
                  && |drawn.draw.cards|
                  == Smaller(if v.pendingDraw > 0 then v.pendingDraw else 1, v.drawPileCount + v.discardPileCount - 1)
                  && (drawn.draw.penalty <==> v.pendingDraw > 0))
            && (PassTurn(g, q).reply == Done <==> v.phase == AwaitingDrawDecision && q == v.currentPlayerID)
            && (PickColor(g, q, wish).reply == Done
                <==> v.phase == AwaitingColor && q == v.colorChooserID
                     && (wish == Red || wish == Yellow || wish == Green || wish == Blue))
  {
    DrawAcceptedIff(g, q, env);
    if DrawCard(g, q, env).reply.Drew? { DrawMeans(g, q, env); }
    PassMeans(g, q);
    ColorMeans(g, q, wish);
    TurnShown(g, p, now, q);
    hide Inv, DrawCard, PassTurn, PickColor, ViewFor, Beside, OnTurn;
  }

  lemma TurnShown(g: Game, p: int, now: int, q: int)
    requires Inv(g, false) && Shape(g) && ViewFor(g, p, now).Ok?
    ensures var v := ViewFor(g, p, now).value;
            && v.phase == g.phase && v.pendingDraw == g.pendingDraw
            && v.drawPileCount == |g.drawPile| && v.discardPileCount == |g.discardPile|
            && (g.phase != Finished ==> v.currentPlayerID > 0 && (OnTurn(g, q) <==> q == v.currentPlayerID))
            && (g.phase == AwaitingColor ==> (OnTurn(g, q) <==> q == v.colorChooserID))
  {
    hide PlayableCardIDs, LiveChallenges, CandidateIDs, Conserved;
  }

  /** After a draw or a pass that ends the turn, the next one is beside the player shown, in the direction shown. */
  lemma ShownNext(g: Game, p: int, now: int, id: int, env: Env)
    requires Inv(g, false) && Shape(g) && ViewFor(g, p, now).Ok? && EnvOk(env)
    requires DrawCard(g, id, env).reply.Drew? && DrawCard(g, id, env).reply.draw.turnEnded
    requires DrawCard(g, id, env).game.phase != Finished
    ensures var v, h := ViewFor(g, p, now).value, DrawCard(g, id, env).game;
            && Shape(h) && ViewFor(h, p, now).Ok?
            && exists s :: 0 <= s < |v.players| && v.players[s].playerID == v.currentPlayerID
                           && var t := Beside(|v.players|, v.direction, s);
                              0 <= t < |v.players| && v.players[t].playerID == ViewFor(h, p, now).value.currentPlayerID
  {
    DrawMeans(g, id, env);
    DrawCardInv(g, id, env, false);
    InvShape(DrawCard(g, id, env).game, false);
    assert 2 <= |g.players| && 0 <= g.currentSeat < |g.players| && 0 <= SeatOf(g.players, p).value < |g.players|;
    BesideInside(|g.players|, g.direction, g.currentSeat);
    hide Inv, DrawCard, Beside, PlayableCardIDs, LiveChallenges, CandidateIDs;
    NextShown(g, DrawCard(g, id, env).game, p, now);
  }

  lemma NextShown(g: Game, h: Game, p: int, now: int)
    requires Shape(g) && Shape(h) && ViewFor(g, p, now).Ok? && |h.players| == |g.players|
    requires forall s :: 0 <= s < |g.players| ==> h.players[s].id == g.players[s].id
    requires 0 <= g.currentSeat < |g.players| && 0 <= h.currentSeat < |h.players|
    requires h.currentSeat == Beside(|g.players|, g.direction, g.currentSeat)
    ensures var v := ViewFor(g, p, now).value;
            && ViewFor(h, p, now).Ok?
            && exists s :: 0 <= s < |v.players| && v.players[s].playerID == v.currentPlayerID
                           && var t := Beside(|v.players|, v.direction, s);
                              0 <= t < |v.players| && v.players[t].playerID == ViewFor(h, p, now).value.currentPlayerID
  {
    hide Beside, PlayableCardIDs, LiveChallenges, CandidateIDs, Shape;
    SameSeat(g.players, h.players, p);
    var v := ViewFor(g, p, now).value;
    assert v.players[g.currentSeat].playerID == v.currentPlayerID;
    assert v.players[h.currentSeat].playerID == h.players[h.currentSeat].id;
  }

  ghost predicate Listed(list: seq<Challenge>, id: int) {
    exists i :: 0 <= i < |list| && list[i].playerID == id
  }

  /** A missed call is shown while it is open. */
  ghost predicate ShownOpen(v: View, id: int) { Listed(v.challenges, id) }

  lemma ListedEither(a: seq<Challenge>, b: seq<Challenge>, id: int)
    ensures Listed(a + b, id) <==> Listed(a, id) || Listed(b, id)
  {
    if i :| 0 <= i < |a| && a[i].playerID == id { assert (a + b)[i] == a[i]; }
    if i :| 0 <= i < |b| && b[i].playerID == id { assert (a + b)[|a| + i] == b[i]; }
  }

  lemma {:induction false} LiveAre(players: seq<Player>, challenges: map<int, Challenge>, now: int, id: int)
    requires forall k :: k in challenges ==> challenges[k].playerID == k
    ensures Listed(LiveChallenges(players, challenges, now), id) <==>
              (exists s :: 0 <= s < |players| && players[s].id == id) && id in challenges && now < challenges[id].expiresAt
  {
    if players != [] {
      var first := players[0].id;
      var head := if first in challenges && now < challenges[first].expiresAt then [challenges[first]] else [];
      LiveAre(players[1..], challenges, now, id);
      ListedEither(head, LiveChallenges(players[1..], challenges, now), id);
      assert forall s :: 0 <= s < |players[1..]| ==> players[1..][s] == players[s + 1];
      if first in challenges && now < challenges[first].expiresAt { assert head[0].playerID == first; }
    }
  }

  /** A call, or a catch with a shuffle that works, is accepted exactly if the missed call is shown at that moment. */
  lemma ShownDecidesCall(g: Game, p: int, target: int, env: Env)
    requires Inv(g, true) && Shape(g) && ViewFor(g, p, env.now).Ok? && Permuting(env.shuffle) && NeverFails(env.shuffle)
    ensures var v := ViewFor(g, p, env.now).value;
            && (Call(g, p, env).reply == Done <==> v.phase != Finished && ShownOpen(v, p))
            && (Catch(g, p, target, env).reply.Drew? <==> v.phase != Finished && target != p && ShownOpen(v, target))
  {
    assert InvChallenges(g.players, g.challenges);
    CallMeans(g, p, env);
    CatchMeans(g, p, target, env);
    LiveAre(g.players, g.challenges, env.now, p);
    LiveAre(g.players, g.challenges, env.now, target);
    hide Inv, Call, Catch, PlayableCardIDs, CandidateIDs, LiveChallenges, CaughtOutMeans, OnlyForgotten;
  }

  // ----- What is shown changes as the cards do -----

  /** Of all the counts shown only this player's is different. */
  ghost predicate OnlyCount(v: View, v': View, id: int, more: int) {
    && |v'.players| == |v.players|
    && forall s :: 0 <= s < |v.players| ==>
         && v'.players[s].playerID == v.players[s].playerID && v'.players[s].seat == v.players[s].seat == s
         && v'.players[s].cards == v.players[s].cards + (if v.players[s].playerID == id then more else 0)
  }

  lemma CountShown(g: Game, h: Game, seat: int, hand: seq<Card>, p: int, now: int)
    requires Inv(g, false) && Shape(g) && Shape(h) && ViewFor(g, p, now).Ok? && OnlyHand(g, h, seat, hand)
    ensures ViewFor(h, p, now).Ok?
    ensures var v, v' := ViewFor(g, p, now).value, ViewFor(h, p, now).value;
            && OnlyCount(v, v', g.players[seat].id, |hand| - |g.players[seat].hand|)
            && v'.hand == (if p == g.players[seat].id then hand else v.hand)
            && v'.drawPileCount == |h.drawPile| && v'.discardPileCount == |h.discardPile| && v'.topCard == Top(h)
            && v.drawPileCount == |g.drawPile| && v.discardPileCount == |g.discardPile| && v.topCard == Top(g)
  {
    SameID(g, g.players[seat].id, seat);
    SameSeat(g.players, h.players, p);
    hide Inv, PlayableCardIDs, LiveChallenges, CandidateIDs;
  }

  /** An accepted play, as anybody sees it: one more on the discard pile with that card on top, the draw pile untouched, one
      card less with that player. */
  lemma PlayShown(g: Game, index: nat, sayUNO: bool, env: Env, p: int, now: int)
    requires Inv(g, false) && Shape(g) && EnvOk(env) && ViewFor(g, p, now).Ok?
    requires 0 <= g.currentSeat < |g.players| && index < |g.players[g.currentSeat].hand|
    requires PlayCard(g, CurrentPlayerID(g), g.players[g.currentSeat].hand[index].id, sayUNO, env).reply == Done
    ensures var card := g.players[g.currentSeat].hand[index];
            var h := PlayCard(g, CurrentPlayerID(g), card.id, sayUNO, env).game;
            && Shape(h) && ViewFor(h, p, now).Ok?
            && var v, v' := ViewFor(g, p, now).value, ViewFor(h, p, now).value;
               && v'.discardPileCount == v.discardPileCount + 1 && v'.drawPileCount == v.drawPileCount && v'.topCard == card
               && OnlyCount(v, v', CurrentPlayerID(g), -1)
               && (if p == CurrentPlayerID(g) then GoneFrom(v.hand, v'.hand, card) else v'.hand == v.hand)
  {
    var seat, card := g.currentSeat, g.players[g.currentSeat].hand[index];
    var h := PlayCard(g, CurrentPlayerID(g), card.id, sayUNO, env).game;
    PlayCardInv(g, CurrentPlayerID(g), card.id, sayUNO, env, false);
    InvShape(h, false);
    if card.IsWild() { WildMeans(g, index, sayUNO, env); } else { PlayMeans(g, index, sayUNO, env); }
    hide Inv, PlayCard, ViewFor, TurnGoes, Shape, GoneFrom;
    PlayedShown(g, h, seat, card, p, now);
  }

  lemma PlayedShown(g: Game, h: Game, seat: int, card: Card, p: int, now: int)
    requires Inv(g, false) && Shape(g) && Shape(h) && ViewFor(g, p, now).Ok? && Played(g, h, seat, card)
    ensures ViewFor(h, p, now).Ok?
    ensures var v, v' := ViewFor(g, p, now).value, ViewFor(h, p, now).value;
            && v'.discardPileCount == v.discardPileCount + 1 && v'.drawPileCount == v.drawPileCount && v'.topCard == card
            && OnlyCount(v, v', g.players[seat].id, -1)
            && (if p == g.players[seat].id then GoneFrom(v.hand, v'.hand, card) else v'.hand == v.hand)
  {
    CountShown(g, h, seat, h.players[seat].hand, p, now);
    OwnHand(g, p, now);
    hide Inv, ViewFor, OnlyCount, Shape;
  }

  lemma OwnHand(g: Game, p: int, now: int)
    requires Inv(g, false) && Shape(g) && ViewFor(g, p, now).Ok?
    ensures forall s :: 0 <= s < |g.players| && g.players[s].id == p ==> ViewFor(g, p, now).value.hand == g.players[s].hand
  {
    SameID(g, p, SeatOf(g.players, p).value);
    hide Inv, PlayableCardIDs, LiveChallenges, CandidateIDs;
  }

  /** A draw, as anybody sees it: the cards come from the draw pile, or, when it is too small, from both piles down to the
      discard top; only the player who drew holds more, and only he sees which. */
  lemma DrawShown(g: Game, id: int, env: Env, p: int, now: int)
    requires Inv(g, false) && Shape(g) && EnvOk(env) && ViewFor(g, p, now).Ok? && DrawCard(g, id, env).reply.Drew?
    ensures var o := DrawCard(g, id, env);
            && Shape(o.game) && ViewFor(o.game, p, now).Ok?
            && var v, v', cards := ViewFor(g, p, now).value, ViewFor(o.game, p, now).value, o.reply.draw.cards;
               && OnlyCount(v, v', id, |cards|) && v'.hand == (if p == id then v.hand + cards else v.hand)
               && v'.topCard == v.topCard
               && v'.drawPileCount + v'.discardPileCount == v.drawPileCount + v.discardPileCount - |cards|
               && ((if v.pendingDraw > 0 then v.pendingDraw else 1) <= v.drawPileCount ==> v'.discardPileCount == v.discardPileCount)
               && ((if v.pendingDraw > 0 then v.pendingDraw else 1) > v.drawPileCount ==> v'.discardPileCount == 1)
  {
    DrawMeans(g, id, env);
    DrawCardInv(g, id, env, false);
    var o := DrawCard(g, id, env);
    InvShape(o.game, false);
    PileAfterDraw(g, id, env);
    TurnShown(g, p, now, id);
    OwnHand(g, p, now);
    hide Inv, DrawCard, ViewFor, Beside, Shape;
    CountShown(g, o.game, g.currentSeat, g.players[g.currentSeat].hand + o.reply.draw.cards, p, now);
  }

  lemma PileAfterDraw(g: Game, id: int, env: Env)
    requires Inv(g, false) && Shape(g) && DrawCard(g, id, env).reply.Drew?
    ensures var h, owed := DrawCard(g, id, env).game, if g.pendingDraw > 0 then g.pendingDraw else 1;
            if owed <= |g.drawPile| then h.discardPile == g.discardPile else |h.discardPile| == 1
  {
    DrawAcceptedIff(g, id, env);
    SeatFound(g, g.currentSeat);
    hide Inv, Playable, NextSeat, FinishIfResolved, DrawCardsTo;
    if g.pendingDraw > 0 {
      PileAfterPenalty(g, g.currentSeat, env);
    }
  }

  lemma PileAfterPenalty(g: Game, seat: nat, env: Env)
    requires Shape(g) && g.phase == Playing && g.pendingDraw > 0 && seat < |g.players| && TakePenalty(g, seat, env).reply.Drew?
    ensures var h := TakePenalty(g, seat, env).game;
            if g.pendingDraw <= |g.drawPile| then h.discardPile == g.discardPile else |h.discardPile| == 1
  {
    var dealt := DrawCardsTo(g, seat, g.pendingDraw, env.shuffle);
    var d := dealt.value.0;
    assert SeatsBelow(d.candidates, |d.players|) by { hide DealCards; }
    SettledOnly(d.(pendingDraw := 0, currentSeat := NextSeat(g, seat, 1)));
    hide NextSeat, FinishIfResolved, Without;
  }

  /** Who has won is the first candidate shown; candidates show no cards. */
  lemma CandidatesShown(g: Game, p: int, now: int)
    requires Inv(g, false) && Shape(g) && ViewFor(g, p, now).Ok?
    ensures var v := ViewFor(g, p, now).value;
            && (v.phase == Finished ==>
                  v.result.Some? && |v.winnerCandidateIDs| > 0 && v.result.value.winnerID == v.winnerCandidateIDs[0])
            && (v.phase != Finished ==> v.result.None?)
            && forall i, s :: 0 <= i < |v.winnerCandidateIDs| && 0 <= s < |v.players|
                              && v.players[s].playerID == v.winnerCandidateIDs[i] ==>
                 v.players[s].cards == 0
  {
    var v := ViewFor(g, p, now).value;
    forall i, s | 0 <= i < |v.winnerCandidateIDs| && 0 <= s < |v.players| && v.players[s].playerID == v.winnerCandidateIDs[i]
      ensures v.players[s].cards == 0
    {
      SameID(g, v.winnerCandidateIDs[i], g.candidates[i]);
    }
    hide PlayableCardIDs, LiveChallenges, Conserved;
  }
}
