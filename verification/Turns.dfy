/** What an accepted command does to hands, piles, colour and turn, said without the functions that do it. */
module Turns {
  import opened Wrappers
  import opened Cards
  import opened Piles
  import opened Rules
  import opened Invariant
  import opened Preservation
  import opened Views
  import opened Acceptance
  import TurnOrder

  /** The seat beside this one, in the direction of play. */
  function Beside(players: nat, direction: int, seat: int): int {
    if direction == 1 then (if seat == players - 1 then 0 else seat + 1)
    else (if seat == 0 then players - 1 else seat - 1)
  }

  lemma NextIsBeside(g: Game, seat: int)
    requires TurnOrder.AtTable(g, seat)
    ensures NextSeat(g, seat, 1) == Beside(|g.players|, g.direction, seat)
  {
    TurnOrder.FewSteps(g, seat, 1);
    hide NextSeat;
  }

  /** Nothing but this hand is different. */
  ghost predicate OnlyHand(g: Game, h: Game, seat: int, hand: seq<Card>) {
    && |h.players| == |g.players| && 0 <= seat < |g.players|
    && h.players[seat].id == g.players[seat].id && h.players[seat].hand == hand
    && forall s :: 0 <= s < |g.players| && s != seat ==> h.players[s] == g.players[s]
  }

  ghost predicate SameTable(g: Game, h: Game) {
    h.color == g.color && h.direction == g.direction && h.dealerSeat == g.dealerSeat
  }

  // ----- Drawing and passing -----

  function Smaller(a: int, b: int): int { if a <= b then a else b }

  /** How many cards lie under the discard top and in the draw pile. */
  function Available(g: Game): int { |g.drawPile| + |g.discardPile| - 1 }

  /** A draw is accepted exactly from the player on turn while nothing else is pending, unless the shuffle it needs fails. */
  lemma DrawAcceptedIff(g: Game, id: int, env: Env)
    requires Inv(g, false) && Shape(g)
    ensures var owed := if g.pendingDraw > 0 then g.pendingDraw else 1;
            DrawCard(g, id, env).reply.Drew? <==>
              && g.phase == Playing && OnTurn(g, id)
              && !(owed > |g.drawPile| && |g.discardPile| > 1 && !env.shuffle(g.discardPile[..|g.discardPile| - 1]).ok)
  {
    if OnTurn(g, id) { SeatFound(g, g.currentSeat); }
    hide Conserved, Playable;
  }

  /** A candidate for the win is still without cards. */
  ghost predicate SomebodyOut(g: Game, h: Game) {
    exists c :: c in g.candidates && 0 <= c < |h.players| && h.players[c].hand == []
  }

  /** Drawing: what is owed, or one card, as far as there are cards; the turn passes to the seat beside, unless the one
      card drawn may be played. */
  lemma DrawMeans(g: Game, id: int, env: Env)
    requires Inv(g, false) && Shape(g) && Permuting(env.shuffle) && DrawCard(g, id, env).reply.Drew?
    ensures var o, seat := DrawCard(g, id, env), g.currentSeat;
            var draw := o.reply.draw;
            && 0 <= seat < |g.players| && g.players[seat].id == id
            && OnlyHand(g, o.game, seat, g.players[seat].hand + draw.cards)
            && |draw.cards| == Smaller(if g.pendingDraw > 0 then g.pendingDraw else 1, Available(g))
            && Available(o.game) == Available(g) - |draw.cards|
            && SameTable(g, o.game) && |o.game.discardPile| > 0 && Top(o.game) == Top(g)
            && (draw.penalty <==> g.pendingDraw > 0) && (draw.turnEnded <==> o.game.phase != AwaitingDrawDecision)
            && (draw.canPlay <==> !draw.turnEnded)
            && (o.game.phase == Finished <==> g.pendingDraw > 0 && SomebodyOut(g, o.game))
            && (draw.turnEnded && o.game.phase != Finished ==>
                  o.game.phase == Playing && o.game.pendingDraw == 0
                  && o.game.currentSeat == Beside(|g.players|, g.direction, seat))
            && (!draw.turnEnded ==>
                  && g.pendingDraw == 0 && o.game.currentSeat == seat && |draw.cards| == 1
                  && o.game.drawnCardID == draw.cards[0].id)
  {
    DrawAcceptedIff(g, id, env);
    SeatFound(g, g.currentSeat);
    assert TurnOrder.AtTable(g, g.currentSeat);
    NextIsBeside(g, g.currentSeat);
    hide Inv, NextSeat, Beside, DrawCard, Permuting;
    if g.pendingDraw > 0 { PenaltyMeans(g, id, env); } else { OneMeans(g, id, env); }
  }

  lemma DealtCount(g: Game, count: nat, shuffle: Shuffle)
    requires |g.discardPile| > 0 && Permuting(shuffle) && DealCards(g.drawPile, g.discardPile, count, shuffle).Dealt?
    ensures var d := DealCards(g.drawPile, g.discardPile, count, shuffle);
            && |d.drawn| == Smaller(count, Available(g))
            && |d.drawPile| + |d.discardPile| - 1 == Available(g) - |d.drawn|
            && |d.discardPile| > 0 && d.discardPile[|d.discardPile| - 1] == Top(g)
  {
    DealConserves(g.drawPile, g.discardPile, count, shuffle);
    DealSizes(g, count, shuffle);
    if |g.discardPile| > 1 && count > |g.drawPile| {
      var buried := g.discardPile[..|g.discardPile| - 1];
      assert |multiset(shuffle(buried).cards)| == |multiset(buried)|;
    }
  }

  lemma DealSizes(g: Game, count: nat, shuffle: Shuffle)
    requires DealCards(g.drawPile, g.discardPile, count, shuffle).Dealt?
    requires var d := DealCards(g.drawPile, g.discardPile, count, shuffle);
             multiset(d.drawn) + multiset(d.drawPile) + multiset(d.discardPile) == multiset(g.drawPile) + multiset(g.discardPile)
    ensures var d := DealCards(g.drawPile, g.discardPile, count, shuffle);
            |d.drawn| + |d.drawPile| + |d.discardPile| == |g.drawPile| + |g.discardPile|
  {
    hide DealCards;
    var d := DealCards(g.drawPile, g.discardPile, count, shuffle);
    assert |multiset(d.drawn) + multiset(d.drawPile) + multiset(d.discardPile)|
        == |multiset(d.drawn)| + |multiset(d.drawPile)| + |multiset(d.discardPile)|;
    assert |multiset(g.drawPile) + multiset(g.discardPile)| == |multiset(g.drawPile)| + |multiset(g.discardPile)|;
  }

  /** Settling what is pending either ends the round or only clears the candidates. */
  lemma SettledOnly(d: Game)
    requires SeatsBelow(d.candidates, |d.players|)
    ensures var h := FinishIfResolved(d);
            && h.players == d.players && h.drawPile == d.drawPile && h.discardPile == d.discardPile
            && h.color == d.color && h.direction == d.direction && h.dealerSeat == d.dealerSeat
            && (h.phase != Finished ==> h == d || h == d.(candidates := []))
            && (h.phase == Finished || h.phase == d.phase)
  {
    hide StillEmpty, ResultFor;
  }

  /** Paying ends the round exactly if somebody who went out is still without cards. */
  lemma PaidOut(g: Game, dealt: Game, seat: nat, drawn: seq<Card>)
    requires SeatsBelow(g.candidates, |g.players|) && seat < |g.players| && |dealt.players| == |g.players|
    requires SeatsBelow(dealt.candidates, |dealt.players|) && dealt.pendingDraw == 0 && dealt.phase == Playing
    requires dealt.candidates == if drawn == [] then g.candidates else Without(g.candidates, seat)
    requires dealt.players[seat].hand == g.players[seat].hand + drawn
    ensures FinishIfResolved(dealt).phase == Finished <==> SomebodyOut(g, FinishIfResolved(dealt))
  {
    hide StillEmpty, Without, ResultFor, FinishIfResolved;
    SettledOnly(dealt);
    EndsIffActive(dealt);
    StillEmptyMembers(dealt.players, dealt.candidates);
    var active := StillEmpty(dealt.players, dealt.candidates);
    forall c | 0 <= c < |dealt.players| && dealt.players[c].hand == []
      ensures c in dealt.candidates <==> c in g.candidates
    {
      WithoutMembers(g.candidates, seat);
    }
    if active != [] {
      assert active[0] in active && 0 <= active[0] < |dealt.players|;
    }
  }

  lemma EndsIffActive(d: Game)
    requires SeatsBelow(d.candidates, |d.players|) && d.pendingDraw == 0 && d.phase == Playing
    ensures FinishIfResolved(d).phase == Finished <==> StillEmpty(d.players, d.candidates) != []
  {
    hide StillEmpty, ResultFor;
  }

  lemma PenaltyMeans(g: Game, id: int, env: Env)
    requires Shape(g) && g.phase == Playing && g.pendingDraw > 0 && Permuting(env.shuffle)
    requires SeatOf(g.players, id) == Some(g.currentSeat as nat) && DrawCard(g, id, env).reply.Drew?
    ensures var o, seat := DrawCard(g, id, env), g.currentSeat;
            var draw := o.reply.draw;
            && OnlyHand(g, o.game, seat, g.players[seat].hand + draw.cards)
            && |draw.cards| == Smaller(g.pendingDraw, Available(g))
            && Available(o.game) == Available(g) - |draw.cards|
            && SameTable(g, o.game) && |o.game.discardPile| > 0 && Top(o.game) == Top(g)
            && draw.penalty && draw.turnEnded && !draw.canPlay
            && (o.game.phase == Finished <==> SomebodyOut(g, o.game))
            && (o.game.phase == Finished || (o.game.phase == Playing && o.game.pendingDraw == 0
                                             && o.game.currentSeat == NextSeat(g, seat, 1)))
  {
    var seat := g.currentSeat;
    assert DealCards(g.drawPile, g.discardPile, g.pendingDraw, env.shuffle).Dealt?;
    DealtCount(g, g.pendingDraw, env.shuffle);
    var d := DealCards(g.drawPile, g.discardPile, g.pendingDraw, env.shuffle);
    var dealt := Receive(g, seat, d.drawn, d.drawPile, d.discardPile).(pendingDraw := 0, currentSeat := NextSeat(g, seat, 1));
    SettledOnly(dealt);
    PaidOut(g, dealt, seat, d.drawn);
    hide DealCards, FinishIfResolved, NextSeat, Without, Permuting, SomebodyOut;
  }

  lemma OneMeans(g: Game, id: int, env: Env)
    requires Shape(g) && g.phase == Playing && g.pendingDraw == 0 && Permuting(env.shuffle)
    requires SeatOf(g.players, id) == Some(g.currentSeat as nat) && DrawCard(g, id, env).reply.Drew?
    ensures var o, seat := DrawCard(g, id, env), g.currentSeat;
            var draw := o.reply.draw;
            && OnlyHand(g, o.game, seat, g.players[seat].hand + draw.cards)
            && |draw.cards| == Smaller(1, Available(g))
            && Available(o.game) == Available(g) - |draw.cards|
            && SameTable(g, o.game) && |o.game.discardPile| > 0 && Top(o.game) == Top(g)
            && !draw.penalty && (draw.turnEnded <==> o.game.phase != AwaitingDrawDecision)
            && (draw.canPlay <==> !draw.turnEnded) && o.game.pendingDraw == 0
            && (draw.turnEnded ==> o.game.phase == Playing && o.game.currentSeat == NextSeat(g, seat, 1))
            && (!draw.turnEnded ==> o.game.currentSeat == seat && |draw.cards| == 1 && o.game.drawnCardID == draw.cards[0].id)
  {
    assert DealCards(g.drawPile, g.discardPile, 1, env.shuffle).Dealt?;
    DealtCount(g, 1, env.shuffle);
    var d := DealCards(g.drawPile, g.discardPile, 1, env.shuffle);
    hide DealCards, NextSeat, Playable, Permuting;
    if d.drawn == [] {
      assert g.players[g.currentSeat].hand + [] == g.players[g.currentSeat].hand;
    } else {
      assert d.drawn == [d.drawn[0]];
    }
  }

  /** The card drawn is left to be played exactly if playing it is accepted. */
  lemma DrawnIsOffered(g: Game, id: int, env: Env, sayUNO: bool, env': Env)
    requires Inv(g, false) && Shape(g) && EnvOk(env) && DrawCard(g, id, env).reply.Drew?
    requires g.pendingDraw == 0 && DrawCard(g, id, env).reply.draw.cards != []
    ensures var o := DrawCard(g, id, env);
            Inv(o.game, false) && Shape(o.game)
            && (o.reply.draw.canPlay <==> Goes(Top(g), g.color, o.reply.draw.cards[0]))
            && (o.reply.draw.canPlay ==> PlayCard(o.game, id, o.reply.draw.cards[0].id, sayUNO, env').reply == Done)
  {
    DrawCardInv(g, id, env, false);
    var o := DrawCard(g, id, env);
    InvShape(o.game, false);
    DrawMeans(g, id, env);
    OfferedIfPlayable(g, id, env);
    assert g.phase == Playing by { DrawAcceptedIff(g, id, env); }
    hide Inv, DrawCard, Beside, Playable, Goes, PlayCard, NextSeat, Permuting;
    DrawnGoes(g, o.game, g.currentSeat, o.reply.draw.cards[0]);
    if o.reply.draw.canPlay {
      PlayAcceptedIff(o.game, g.currentSeat, |o.game.players[g.currentSeat].hand| - 1, sayUNO, env');
    }
  }

  lemma DrawnGoes(g: Game, h: Game, seat: nat, card: Card)
    requires Inv(g, false) && Inv(h, false) && Shape(g) && Shape(h) && seat < |h.players| && g.pendingDraw == 0
    requires card in h.players[seat].hand && Top(h) == Top(g) && h.color == g.color
    ensures Playable(g, card) <==> Goes(Top(g), g.color, card)
    ensures h.pendingDraw == 0 ==> (Goes(Top(h), h.color, card) <==> Goes(Top(g), g.color, card))
  {
    var index :| 0 <= index < |h.players[seat].hand| && h.players[seat].hand[index] == card;
    TopIsCanonical(g);
    CardIsCanonical(h, seat, index);
    hide Inv;
    GoesIffPlayable(g, card);
  }

  lemma OfferedIfPlayable(g: Game, id: int, env: Env)
    requires Shape(g) && g.pendingDraw == 0 && DrawCard(g, id, env).reply.Drew?
    requires DrawCard(g, id, env).reply.draw.cards != []
    ensures DrawCard(g, id, env).reply.draw.canPlay <==> Playable(g, DrawCard(g, id, env).reply.draw.cards[0])
  {
    hide DealCards, Playable, NextSeat;
  }

  /** Passing is accepted exactly from the player who has drawn and may play; nothing but the turn moves. */
  lemma PassMeans(g: Game, id: int)
    requires Inv(g, false) && Shape(g)
    ensures var o := PassTurn(g, id);
            && (o.reply == Done <==> g.phase == AwaitingDrawDecision && OnTurn(g, id))
            && (o.reply == Done ==>
                  o.game == g.(phase := Playing, drawnCardID := 0, currentSeat := Beside(|g.players|, g.direction, g.currentSeat)))
  {
    if OnTurn(g, id) {
      SeatFound(g, g.currentSeat);
      NextIsBeside(g, g.currentSeat);
    }
    hide Conserved, NextSeat, Beside;
  }

  // ----- Playing -----

  /** Whose turn it is after a card took effect, and which way round. */
  ghost predicate TurnGoes(g: Game, h: Game, seat: int, card: Card) {
    var n := |g.players|;
    match card.kind
    case Skip => h.direction == g.direction && h.currentSeat == Beside(n, g.direction, Beside(n, g.direction, seat))
    case Reverse =>
      if n == 2 then h.direction == g.direction && h.currentSeat == seat
      else h.direction == -g.direction && h.currentSeat == Beside(n, -g.direction, seat)
    case _ => h.direction == g.direction && h.currentSeat == Beside(n, g.direction, seat)
  }

  lemma BesideInside(players: nat, direction: int, seat: int)
    requires 2 <= players && 0 <= seat < players
    ensures 0 <= Beside(players, direction, seat) < players
    ensures players == 2 ==> Beside(players, direction, Beside(players, direction, seat)) == seat
  {
  }

  lemma TurnedMoves(g: Game, seat: int, card: Card)
    requires TurnOrder.AtTable(g, seat)
    ensures TurnGoes(g, Turned(g, seat, card), seat, card)
    ensures Turned(g, seat, card).pendingDraw == g.pendingDraw + (if card.kind == Skip || card.kind == Reverse then 0 else card.Penalty())
  {
    hide NextSeat, Beside;
    var n, p := |g.players|, g.(phase := Playing);
    var reversed := p.(direction := -p.direction);
    BesideInside(n, g.direction, seat);
    BesideInside(n, -g.direction, seat);
    NextIsBeside(p, seat);
    NextIsBeside(p, Beside(n, g.direction, seat));
    TurnOrder.TwoSteps(p, seat);
    NextIsBeside(reversed, seat);
  }

  /** A card, gone from this hand; the rest in their order. */
  ghost predicate GoneFrom(hand: seq<Card>, rest: seq<Card>, card: Card) {
    exists i :: 0 <= i < |hand| && hand[i] == card && rest == hand[..i] + hand[i + 1..]
  }

  /** A card that is no wild one, accepted: it lies on the pile, its colour is in play, a draw two lengthens the chain, and
      the turn moves as the card says. */
  lemma PlayMeans(g: Game, index: nat, sayUNO: bool, env: Env)
    requires Inv(g, false) && Shape(g) && 0 <= g.currentSeat < |g.players| && index < |g.players[g.currentSeat].hand|
    requires !g.players[g.currentSeat].hand[index].IsWild()
    requires PlayCard(g, CurrentPlayerID(g), g.players[g.currentSeat].hand[index].id, sayUNO, env).reply == Done
    ensures var seat, card := g.currentSeat, g.players[g.currentSeat].hand[index];
            var h := PlayCard(g, CurrentPlayerID(g), card.id, sayUNO, env).game;
            && Played(g, h, seat, card)
            && (h.phase == Finished <==> h.players[seat].hand == [] && g.pendingDraw == 0 && card.kind != DrawTwo)
            && (h.phase != Finished ==>
                  && h.phase == Playing && h.color == card.color && h.dealerSeat == g.dealerSeat
                  && TurnGoes(g, h, seat, card)
                  && h.pendingDraw == g.pendingDraw + (if card.kind == DrawTwo then 2 else 0))
  {
    var seat, card := g.currentSeat, g.players[g.currentSeat].hand[index];
    CardIsCanonical(g, seat, index);
    assert 2 <= |g.players| <= 6;
    hide Inv, PlayCheck, FinishIfResolved, Turned, NextSeat, Beside, IsCanonical, Discarded, OnlyHand, GoneFrom;
    var i := Checked(g, index, sayUNO, env);
    DiscardedMeans(g, seat, i, sayUNO, env);
    var d := Discarded(g, seat, i, sayUNO, env).(color := card.color);
    TurnedMoves(d, seat, card);
    SettledOnly(Turned(d, seat, card));
    PilesTurned(d, seat, card);
    PlayEnds(g, i, sayUNO, env);
    hide Played, TurnGoes;
  }

  /** When the effect of the card ends the round. */
  lemma PlayEnds(g: Game, index: nat, sayUNO: bool, env: Env)
    requires Inv(g, false) && Shape(g) && 0 <= g.currentSeat < |g.players| && index < |g.players[g.currentSeat].hand|
    requires !g.players[g.currentSeat].hand[index].IsWild()
    requires g.phase == Playing || g.phase == AwaitingDrawDecision
    ensures var seat, card := g.currentSeat, g.players[g.currentSeat].hand[index];
            var d := Discarded(g, seat, index, sayUNO, env).(color := card.color);
            var t := Turned(d, seat, card);
            && SeatsBelow(t.candidates, |t.players|) && |d.players| == |g.players|
            && (FinishIfResolved(t).phase == Finished
            <==> d.players[seat].hand == [] && g.pendingDraw == 0 && card.kind != DrawTwo)
  {
    var seat, card := g.currentSeat, g.players[g.currentSeat].hand[index];
    CardIsCanonical(g, seat, index);
    assert 2 <= |g.players| <= 6 && g.pendingDraw >= 0;
    assert g.pendingDraw == 0 ==> g.candidates == [];
    hide Inv, FinishIfResolved, Turned, NextSeat, Beside, IsCanonical, Discarded, OnlyHand, GoneFrom, TurnGoes;
    DiscardedMeans(g, seat, index, sayUNO, env);
    DiscardedOut(g, seat, index, sayUNO, env);
    var d := Discarded(g, seat, index, sayUNO, env).(color := card.color);
    TurnedMoves(d, seat, card);
    PilesTurned(d, seat, card);
    OutOrNot(Turned(d, seat, card), seat);
  }

  lemma DiscardedOut(g: Game, seat: nat, index: nat, sayUNO: bool, env: Env)
    requires seat < |g.players| && index < |g.players[seat].hand|
    ensures var d := Discarded(g, seat, index, sayUNO, env);
            g.candidates == [] ==> d.candidates == if d.players[seat].hand == [] then [seat] else []
  {
  }

  /** With at most one candidate the round is over exactly if he is out and nothing is owed. */
  lemma OutOrNot(t: Game, seat: nat)
    requires seat < |t.players| && SeatsBelow(t.candidates, |t.players|) && t.phase == Playing && t.pendingDraw >= 0
    ensures t.pendingDraw > 0 ==> FinishIfResolved(t).phase == Playing
    ensures t.pendingDraw == 0 && t.candidates == (if t.players[seat].hand == [] then [seat] else []) ==>
              (FinishIfResolved(t).phase == Finished <==> t.players[seat].hand == [])
  {
    if t.candidates == [seat] {
      assert StillEmpty(t.players, t.candidates) == if t.players[seat].hand == [] then [seat] else [];
    }
    hide ResultFor;
  }

  lemma Checked(g: Game, index: nat, sayUNO: bool, env: Env) returns (i: nat)
    requires Inv(g, false) && Shape(g) && 0 <= g.currentSeat < |g.players| && index < |g.players[g.currentSeat].hand|
    requires PlayCard(g, CurrentPlayerID(g), g.players[g.currentSeat].hand[index].id, sayUNO, env).reply == Done
    ensures var hand := g.players[g.currentSeat].hand;
            && i < |hand| && hand[i] == hand[index]
            && PlayCheck(g, CurrentPlayerID(g), hand[index].id) == Ok((g.currentSeat as nat, i))
  {
    SeatFound(g, g.currentSeat);
    i := PlaceInHand(g, g.currentSeat, index);
    hide Inv, CardIndex, SeatOf, Playable, ApplyCardEffect, Discarded;
  }

  lemma DiscardedMeans(g: Game, seat: nat, index: nat, sayUNO: bool, env: Env)
    requires seat < |g.players| && index < |g.players[seat].hand|
    ensures var d, card := Discarded(g, seat, index, sayUNO, env), g.players[seat].hand[index];
            && Played(g, d, seat, card) && (forall h: Game :: h.players == d.players ==> OnlyHand(g, h, seat, d.players[seat].hand))
            && d.direction == g.direction && d.dealerSeat == g.dealerSeat && d.pendingDraw == g.pendingDraw
            && d.currentSeat == g.currentSeat && d.players[seat].id == g.players[seat].id
            && (SeatsBelow(g.candidates, |g.players|) ==> SeatsBelow(d.candidates, |d.players|))
  {
    var hand := g.players[seat].hand;
    assert RemoveAt(hand, index) == hand[..index] + hand[index + 1..];
  }

  /** The card is out of the hand and on top of the pile; nobody else's cards have moved. */
  ghost predicate Played(g: Game, h: Game, seat: int, card: Card) {
    && |h.players| == |g.players| && 0 <= seat < |g.players|
    && OnlyHand(g, h, seat, h.players[seat].hand) && GoneFrom(g.players[seat].hand, h.players[seat].hand, card)
    && h.discardPile == g.discardPile + [card] && h.drawPile == g.drawPile
  }

  lemma PilesTurned(d: Game, seat: int, card: Card)
    requires |d.players| > 0
    ensures var t := Turned(d, seat, card);
            && t.players == d.players && t.drawPile == d.drawPile && t.discardPile == d.discardPile
            && t.color == d.color && t.dealerSeat == d.dealerSeat && t.candidates == d.candidates && t.phase == Playing
  {
    hide NextSeat;
  }

  lemma PlaceInHand(g: Game, seat: nat, index: nat) returns (i: nat)
    requires Inv(g, false) && seat < |g.players| && index < |g.players[seat].hand|
    ensures i < |g.players[seat].hand| && g.players[seat].hand[i] == g.players[seat].hand[index]
    ensures CardIndex(g.players[seat].hand, g.players[seat].hand[index].id) == Some(i)
  {
    var hand := g.players[seat].hand;
    forall j | 0 <= j < |hand| && hand[j].id == hand[index].id ensures hand[j] == hand[index] {
      SameIDSameCard(g, seat, j, index);
    }
    FirstWithID(hand, index);
    i := CardIndex(hand, hand[index].id).value;
  }

  /** A wild card, accepted: it lies on the pile, and its player has to say a colour before anything else happens. */
  lemma WildMeans(g: Game, index: nat, sayUNO: bool, env: Env)
    requires Inv(g, false) && Shape(g) && 0 <= g.currentSeat < |g.players| && index < |g.players[g.currentSeat].hand|
    requires g.players[g.currentSeat].hand[index].IsWild()
    requires PlayCard(g, CurrentPlayerID(g), g.players[g.currentSeat].hand[index].id, sayUNO, env).reply == Done
    ensures var seat, card := g.currentSeat, g.players[g.currentSeat].hand[index];
            var h := PlayCard(g, CurrentPlayerID(g), card.id, sayUNO, env).game;
            && Played(g, h, seat, card) && Shape(h)
            && h.phase == AwaitingColor && ColorChooserID(h) == CurrentPlayerID(g) && h.pendingColor.Some?
            && h.pendingColor.value.card == card && !h.pendingColor.value.opening
            && h.currentSeat == seat && h.direction == g.direction && h.pendingDraw == g.pendingDraw && h.dealerSeat == g.dealerSeat
  {
    hide Inv, PlayCheck, ApplyCardEffect, NextSeat, Discarded, OnlyHand, GoneFrom;
    var i := Checked(g, index, sayUNO, env);
    DiscardedMeans(g, g.currentSeat, i, sayUNO, env);
    var h := PlayCard(g, CurrentPlayerID(g), g.players[g.currentSeat].hand[index].id, sayUNO, env).game;
    assert Played(g, h, g.currentSeat, g.players[g.currentSeat].hand[index]);
  }

  /** With all candidates still out the round is over exactly if there is one and nothing is owed. */
  lemma CandidatesOut(t: Game)
    requires SeatsBelow(t.candidates, |t.players|) && t.phase == Playing
    requires forall i :: 0 <= i < |t.candidates| ==> t.players[t.candidates[i]].hand == []
    ensures FinishIfResolved(t).phase == Finished <==> t.pendingDraw <= 0 && t.candidates != []
  {
    if t.candidates != [] {
      StillEmptyMembers(t.players, t.candidates);
      assert t.candidates[0] in t.candidates;
      assert t.candidates[0] in StillEmpty(t.players, t.candidates);
    }
    hide ResultFor;
  }

  /** A colour is accepted exactly from its chooser, and only one of the four. The colour said is the one in play; after
      a wild draw four the next player owes four more; after an opening wild the chooser goes on, otherwise the turn passes. */
  lemma ColorMeans(g: Game, id: int, wish: Color)
    requires Inv(g, false) && Shape(g)
    ensures var o := PickColor(g, id, wish);
            && (o.reply == Done <==> g.phase == AwaitingColor && OnTurn(g, id)
                                     && (wish == Red || wish == Yellow || wish == Green || wish == Blue))
            && (o.reply == Done ==>
                  && g.pendingColor.Some? && o.game.players == g.players
                  && (o.game.phase == Finished <==>
                        !g.pendingColor.value.opening && Top(g).kind != WildDrawFour && g.pendingDraw == 0 && g.candidates != [])
                  && o.game.drawPile == g.drawPile && o.game.discardPile == g.discardPile
                  && (o.game.phase != Finished ==>
                        && o.game.phase == Playing && o.game.color == wish
                        && o.game.direction == g.direction && o.game.dealerSeat == g.dealerSeat
                        && (if g.pendingColor.value.opening then
                              o.game.currentSeat == g.currentSeat && o.game.pendingDraw == g.pendingDraw
                            else
                              o.game.currentSeat == Beside(|g.players|, g.direction, g.currentSeat)
                              && o.game.pendingDraw == g.pendingDraw + (if Top(g).kind == WildDrawFour then 4 else 0))))
  {
    if OnTurn(g, id) { SeatFound(g, g.currentSeat); }
    if g.pendingColor.Some? {
      SeatFound(g, g.currentSeat);
      var p := g.pendingColor.value;
      var chosen := g.(color := wish, pendingColor := None, phase := Playing);
      TurnedMoves(chosen, p.seat, p.card);
      PilesTurned(chosen, p.seat, p.card);
      SettledOnly(Turned(chosen, p.seat, p.card));
      CandidatesOut(Turned(chosen, p.seat, p.card));
    }
    hide Conserved, FinishIfResolved, Turned, NextSeat, Beside, SeatOf;
  }
}
