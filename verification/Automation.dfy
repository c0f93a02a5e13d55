/** The server's own moves for players who are away or out of time. */
module Automation {
  import opened Wrappers
  import opened Cards
  import opened Piles
  import opened Rules
  import opened Invariant
  import opened Preservation
  import opened Views
  import TurnOrder

  /** The random picks of one automatic action: an index below a given length, and a colour. */
  datatype Picks = Picks(card: nat -> nat, color: nat)

  ghost predicate PicksOk(picks: Picks) {
    (forall n: nat :: n > 0 ==> picks.card(n) < n) && picks.color < |COLORS|
  }

  /** Who has to act: the one choosing a colour, or the one whose turn it is. */
  function ActorID(g: Game): int
    requires Shape(g)
  {
    if g.phase == AwaitingColor then ColorChooserID(g) else CurrentPlayerID(g)
  }

  /** Plays a card and, for a wild one, chooses the colour at once. */
  ghost function AutoPlay(g: Game, playerID: int, cardID: int, picks: Picks, env: Env): Outcome
    requires Inv(g, false) && EnvOk(env) && PicksOk(picks)
  {
    InvShape(g, false);
    var played := PlayCard(g, playerID, cardID, true, env);
    PlayCardInv(g, playerID, cardID, true, env, false);
    InvShape(played.game, false);
    if played.reply.Failed? || played.game.phase != AwaitingColor then played
    else PickColor(played.game, playerID, COLORS[picks.color])
  }

  /** One automatic action, chosen from the view the actor had before it. */
  ghost function AutoAct(g: Game, playerID: int, view: View, picks: Picks, env: Env): Outcome
    requires Inv(g, false) && EnvOk(env) && PicksOk(picks)
  {
    InvShape(g, false);
    var offered := view.playableCardIDs;
    match view.phase
    case AwaitingColor => PickColor(g, playerID, COLORS[picks.color])
    case AwaitingDrawDecision =>
      if offered == [] then PassTurn(g, playerID)
      else AutoPlay(g, playerID, offered[picks.card(|offered|)], picks, env)
    case Playing =>
      if view.pendingDraw > 0 then DrawCard(g, playerID, env)
      else if offered != [] then AutoPlay(g, playerID, offered[picks.card(|offered|)], picks, env)
      else
        var drawn := DrawCard(g, playerID, env);
        DrawCardInv(g, playerID, env, false);
        if drawn.reply.Drew? && drawn.reply.draw.canPlay && drawn.reply.draw.cards != [] then
          AutoPlay(drawn.game, playerID, drawn.reply.draw.cards[0].id, picks, env)
        else drawn
    case _ => Outcome(g, Done)
  }

  lemma PickedColor(picks: Picks)
    requires PicksOk(picks)
    ensures COLORS[picks.color].Valid()
  {
  }

  ghost predicate TurnDone(o: Outcome) {
    !o.reply.Failed? && (o.game.phase == Playing || o.game.phase == Finished)
  }

  lemma EffectPhase(g: Game, seat: int, card: Card)
    requires |g.players| > 0 && SeatsBelow(g.candidates, |g.players|)
    ensures ApplyCardEffect(g, seat, card).phase == Playing || ApplyCardEffect(g, seat, card).phase == Finished
  {
    var t := Turned(g, seat, card);
    assert t.phase == Playing;
    hide Turned;
  }

  lemma PickDone(g: Game, playerID: int, color: Color)
    requires Inv(g, false) && Shape(g) && g.phase == AwaitingColor && color.Valid() && playerID == ColorChooserID(g)
    ensures TurnDone(PickColor(g, playerID, color))
  {
    var p := g.pendingColor.value;
    EffectPhase(g.(color := color, pendingColor := None, phase := Playing), p.seat, p.card);
    hide ApplyCardEffect;
  }

  /** An accepted card is played through: a wild one gets its colour. */
  lemma AutoPlayDone(g: Game, playerID: int, cardID: int, picks: Picks, env: Env)
    requires Inv(g, false) && Shape(g) && EnvOk(env) && PicksOk(picks) && PlayCheck(g, playerID, cardID).Ok?
    ensures TurnDone(AutoPlay(g, playerID, cardID, picks, env))
  {
    var (seat, index) := PlayCheck(g, playerID, cardID).value;
    var card := g.players[seat].hand[index];
    var played := PlayCard(g, playerID, cardID, true, env);
    PlayCardInv(g, playerID, cardID, true, env, false);
    InvShape(played.game, false);
    PickedColor(picks);
    hide Inv, PlayCard, PickColor, PlayCheck, ColorChooserID;
    if card.IsWild() {
      WildAsked(g, playerID, cardID, env);
      PickDone(played.game, playerID, COLORS[picks.color]);
    } else {
      ColoredDone(g, playerID, cardID, env);
    }
  }

  lemma WildAsked(g: Game, playerID: int, cardID: int, env: Env)
    requires Shape(g) && PlayCheck(g, playerID, cardID).Ok?
    requires var (seat, index) := PlayCheck(g, playerID, cardID).value; g.players[seat].hand[index].IsWild()
    ensures var played := PlayCard(g, playerID, cardID, true, env);
            && played.reply == Done && Shape(played.game)
            && played.game.phase == AwaitingColor && ColorChooserID(played.game) == playerID
  {
    assert g.players[g.currentSeat].id == playerID;
    hide PlayCheck;
  }

  lemma ColoredDone(g: Game, playerID: int, cardID: int, env: Env)
    requires Shape(g) && PlayCheck(g, playerID, cardID).Ok?
    requires var (seat, index) := PlayCheck(g, playerID, cardID).value; !g.players[seat].hand[index].IsWild()
    ensures TurnDone(PlayCard(g, playerID, cardID, true, env))
  {
    var (seat, index) := PlayCheck(g, playerID, cardID).value;
    var card := g.players[seat].hand[index];
    hide PlayCheck, ApplyCardEffect;
    EffectPhase(Discarded(g, seat, index, true, env).(color := card.color), seat, card);
  }

  lemma CurrentMayAct(g: Game)
    requires Inv(g, false) && Shape(g) && g.phase != Finished && g.phase != AwaitingColor
    ensures CurrentPlayer(g, CurrentPlayerID(g)) == Ok(g.currentSeat as nat)
    ensures SeatOf(g.players, CurrentPlayerID(g)) == Some(g.currentSeat as nat)
  {
    var t := SeatOf(g.players, CurrentPlayerID(g));
    assert t.Some? && g.players[t.value].id == g.players[g.currentSeat].id;
  }

  /** With a shuffle that works the penalty is taken. */
  lemma PenaltyDone(g: Game, env: Env)
    requires Inv(g, false) && Shape(g) && EnvOk(env) && NeverFails(env.shuffle) && g.phase == Playing && g.pendingDraw > 0
    ensures TurnDone(DrawCard(g, CurrentPlayerID(g), env))
  {
    CurrentMayAct(g);
    DealCount(g.drawPile, g.discardPile, g.pendingDraw, env.shuffle);
    hide DealCards, StillEmpty;
  }

  /** A drawn card that may be played is accepted at once. */
  lemma DrawnCardAccepted(g: Game, env: Env)
    requires Inv(g, false) && Shape(g) && EnvOk(env) && NeverFails(env.shuffle) && g.phase == Playing && g.pendingDraw == 0
    ensures var o := DrawCard(g, CurrentPlayerID(g), env);
            && Inv(o.game, false) && Shape(o.game)
            && o.reply.Drew?
            && (if o.reply.draw.canPlay then
                  |o.reply.draw.cards| == 1 && PlayCheck(o.game, CurrentPlayerID(g), o.reply.draw.cards[0].id).Ok?
                else o.game.phase == Playing)
  {
    var id := CurrentPlayerID(g);
    CurrentMayAct(g);
    DealCount(g.drawPile, g.discardPile, 1, env.shuffle);
    DrawCardInv(g, id, env, false);
    var o := DrawCard(g, id, env);
    InvShape(o.game, false);
    DrawnShown(g, g.currentSeat, env);
    hide DrawOne, DealCards, Inv, Playable;
    if o.reply.draw.canPlay {
      var hand := o.game.players[g.currentSeat].hand;
      assert hand[|hand| - 1] == o.reply.draw.cards[0];
      DecisionAccepted(o.game, id);
    }
  }

  lemma DrawnShown(g: Game, seat: nat, env: Env)
    requires Shape(g) && seat < |g.players| && g.phase == Playing && seat == g.currentSeat
    requires Permuting(env.shuffle) && g.pendingDraw == 0
    requires DealCards(g.drawPile, g.discardPile, 1, env.shuffle).Dealt?
    ensures var o := DrawOne(g, seat, env);
            && o.reply.Drew?
            && |o.game.discardPile| > 0
            && (if o.reply.draw.canPlay then
                  && |o.reply.draw.cards| == 1
                  && o.game.phase == AwaitingDrawDecision
                  && o.game.drawnCardID == o.reply.draw.cards[0].id
                  && o.game.players == SetHand(g, seat, g.players[seat].hand + o.reply.draw.cards).players
                  && o.game.currentSeat == g.currentSeat
                  && Playable(o.game, o.reply.draw.cards[0])
                else o.game.phase == Playing)
  {
    DealConserves(g.drawPile, g.discardPile, 1, env.shuffle);
    hide DealCards;
  }

  /** During a decision the card in question, if it may be played at all, is accepted from the current player. */
  lemma DecisionAccepted(g: Game, id: int)
    requires Inv(g, false) && Shape(g) && g.phase == AwaitingDrawDecision && id == CurrentPlayerID(g)
    requires exists i :: 0 <= i < |g.players[g.currentSeat].hand|
                         && g.players[g.currentSeat].hand[i].id == g.drawnCardID
                         && Playable(g, g.players[g.currentSeat].hand[i])
    ensures PlayCheck(g, id, g.drawnCardID).Ok?
  {
    var hand := g.players[g.currentSeat].hand;
    CurrentMayAct(g);
    var i :| 0 <= i < |hand| && hand[i].id == g.drawnCardID && Playable(g, hand[i]);
    var index := CardIndex(hand, g.drawnCardID).value;
    SameIDSameCard(g, g.currentSeat, i, index);
  }

  lemma ActorSeated(g: Game, now: int)
    requires Inv(g, false) && Shape(g) && g.phase != Finished
    ensures ViewFor(g, ActorID(g), now).Ok?
    ensures ViewFor(g, ActorID(g), now).value.phase == g.phase
    ensures ViewFor(g, ActorID(g), now).value.pendingDraw == g.pendingDraw
    ensures ActorID(g) == CurrentPlayerID(g)
  {
    var t := SeatOf(g.players, CurrentPlayerID(g));
    assert t.Some?;
    hide PublicPlayers, LiveChallenges, CandidateIDs, PlayableCardIDs;
  }

  lemma OfferDone(g: Game, view: View, picks: Picks, env: Env, now: int)
    requires Inv(g, false) && Shape(g) && g.phase != Finished && EnvOk(env) && PicksOk(picks)
    requires ViewFor(g, ActorID(g), now) == Ok(view) && view.playableCardIDs != []
    ensures TurnDone(AutoPlay(g, ActorID(g), view.playableCardIDs[picks.card(|view.playableCardIDs|)], picks, env))
  {
    var id := view.playableCardIDs[picks.card(|view.playableCardIDs|)];
    assert id in view.playableCardIDs;
    hide ViewFor, AutoPlay, Inv, PlayCheck;
    PlayableIff(g, ActorID(g), id, now);
    AutoPlayDone(g, ActorID(g), id, picks, env);
  }

  lemma PassDone(g: Game)
    requires Inv(g, false) && Shape(g) && g.phase == AwaitingDrawDecision
    ensures TurnDone(PassTurn(g, CurrentPlayerID(g)))
  {
    CurrentMayAct(g);
  }

  /** Drawing for want of a playable card: a card that can be played is. */
  ghost predicate DrawnThrough(g: Game, picks: Picks, env: Env)
    requires Inv(g, false) && Shape(g) && EnvOk(env) && PicksOk(picks)
  {
    var drawn := DrawCard(g, CurrentPlayerID(g), env);
    && Inv(drawn.game, false)
    && if drawn.reply.Drew? && drawn.reply.draw.canPlay && drawn.reply.draw.cards != [] then
         TurnDone(AutoPlay(drawn.game, CurrentPlayerID(g), drawn.reply.draw.cards[0].id, picks, env))
       else TurnDone(drawn)
  }

  lemma DrawDone(g: Game, picks: Picks, env: Env)
    requires Inv(g, false) && Shape(g) && EnvOk(env) && NeverFails(env.shuffle) && PicksOk(picks)
    requires g.phase == Playing && g.pendingDraw == 0
    ensures DrawnThrough(g, picks, env)
  {
    DrawnCardAccepted(g, env);
    hide Inv, DrawCard, PlayCheck, AutoPlay;
    var drawn := DrawCard(g, CurrentPlayerID(g), env);
    if drawn.reply.draw.canPlay {
      AutoPlayDone(drawn.game, CurrentPlayerID(g), drawn.reply.draw.cards[0].id, picks, env);
    }
  }

  /** In every reachable unfinished game the automatic action for the one who has to act succeeds, whatever it picks,
      and never leaves a colour choice or a draw decision open. */
  lemma AutoActDone(g: Game, picks: Picks, env: Env, now: int)
    requires Inv(g, false) && Shape(g) && g.phase != Finished && EnvOk(env) && NeverFails(env.shuffle) && PicksOk(picks)
    ensures ViewFor(g, ActorID(g), now).Ok?
    ensures TurnDone(AutoAct(g, ActorID(g), ViewFor(g, ActorID(g), now).value, picks, env))
  {
    ActorSeated(g, now);
    var view := ViewFor(g, ActorID(g), now).value;
    PickedColor(picks);
    assert !g.phase.OtherPhase?;
    assert g.pendingDraw >= 0;
    hide Inv, ViewFor, ActorID, TurnDone, PickColor, PassTurn, DrawCard, AutoPlay, ColorChooserID, CurrentPlayerID;
    match g.phase
    case AwaitingColor =>
      ChooserIsCurrent(g);
      PickDone(g, ActorID(g), COLORS[picks.color]);
    case AwaitingDrawDecision =>
      if view.playableCardIDs == [] { PassDone(g); } else { OfferDone(g, view, picks, env, now); }
    case Playing =>
      if g.pendingDraw > 0 {
        PenaltyDone(g, env);
      } else if view.playableCardIDs != [] {
        OfferDone(g, view, picks, env, now);
      } else {
        DrawDone(g, picks, env);
      }
  }

  lemma ChooserIsCurrent(g: Game)
    requires Inv(g, false) && Shape(g) && g.phase == AwaitingColor
    ensures ActorID(g) == ColorChooserID(g)
  {
  }

  /** Whatever its outcome, an automatic action keeps the invariant. */
  lemma AutoActInv(g: Game, playerID: int, view: View, picks: Picks, env: Env)
    requires Inv(g, false) && EnvOk(env) && PicksOk(picks)
    ensures Inv(AutoAct(g, playerID, view, picks, env).game, false)
  {
    InvShape(g, false);
    DrawCardInv(g, playerID, env, false);
    hide Inv, PickColor, PassTurn, DrawCard, AutoPlay;
    var offered := view.playableCardIDs;
    match view.phase
    case AwaitingColor => PickColorInv(g, playerID, COLORS[picks.color], false);
    case AwaitingDrawDecision =>
      if offered == [] { PassTurnInv(g, playerID, false); }
      else { AutoPlayInv(g, playerID, offered[picks.card(|offered|)], picks, env); }
    case Playing =>
      var drawn := DrawCard(g, playerID, env);
      if view.pendingDraw <= 0 && offered != [] {
        AutoPlayInv(g, playerID, offered[picks.card(|offered|)], picks, env);
      } else if drawn.reply.Drew? && drawn.reply.draw.cards != [] {
        AutoPlayInv(drawn.game, playerID, drawn.reply.draw.cards[0].id, picks, env);
      }
    case _ =>
  }

  lemma AutoPlayInv(g: Game, playerID: int, cardID: int, picks: Picks, env: Env)
    requires Inv(g, false) && EnvOk(env) && PicksOk(picks)
    ensures Inv(AutoPlay(g, playerID, cardID, picks, env).game, false)
  {
    InvShape(g, false);
    var played := PlayCard(g, playerID, cardID, true, env);
    PlayCardInv(g, playerID, cardID, true, env, false);
    InvShape(played.game, false);
    hide Inv, PlayCard, PickColor;
    PickColorInv(played.game, playerID, COLORS[picks.color], false);
  }

  // ----- It always gets the round on -----

  /** A card in a hand is not the one on top of the discard pile: there is only one of each. */
  lemma HeldIsNotTop(g: Game, seat: nat, index: nat)
    requires Conserved(g) && |g.discardPile| > 0 && seat < |g.players| && index < |g.players[seat].hand|
    ensures g.players[seat].hand[index] != Top(g)
  {
    var card := g.players[seat].hand[index];
    HandInBag(g.players, seat, card);
    StandardDeckDistinct();
    CountAtMostOnce(StandardDeck(), card);
    var bag := Bag(g.players, g.drawPile, g.discardPile);
    assert bag[card] <= 1;
    assert bag[card] >= multiset(g.discardPile)[card] + HandBag(g.players)[card];
    assert Top(g) in multiset(g.discardPile);
  }

  lemma EffectKeepsDiscards(g: Game, seat: int, card: Card)
    requires |g.players| > 0 && SeatsBelow(g.candidates, |g.players|)
    ensures ApplyCardEffect(g, seat, card).discardPile == g.discardPile
  {
    TurnKeepsPiles(g, seat, card);
    FinishKeepsDiscards(Turned(g, seat, card));
    hide Turned, FinishIfResolved;
  }

  lemma TurnKeepsPiles(g: Game, seat: int, card: Card)
    requires |g.players| > 0
    ensures var t := Turned(g, seat, card);
            t.discardPile == g.discardPile && t.candidates == g.candidates && t.players == g.players
  {
    hide NextSeat;
  }

  lemma FinishKeepsDiscards(g: Game)
    requires SeatsBelow(g.candidates, |g.players|)
    ensures FinishIfResolved(g).discardPile == g.discardPile
  {
    hide StillEmpty, ResultFor;
  }

  /** A card played automatically lies on top afterwards, and was not there before. */
  lemma AutoPlayTop(g: Game, playerID: int, cardID: int, picks: Picks, env: Env)
    requires Inv(g, false) && EnvOk(env) && PicksOk(picks) && Shape(g) && PlayCheck(g, playerID, cardID).Ok?
    ensures var g' := AutoPlay(g, playerID, cardID, picks, env).game;
            |g'.discardPile| > 0 && Top(g') != Top(g)
  {
    var (seat, index) := PlayCheck(g, playerID, cardID).value;
    HeldIsNotTop(g, seat, index);
    PlayedTop(g, playerID, cardID, env);
    var played := PlayCard(g, playerID, cardID, true, env);
    PlayCardInv(g, playerID, cardID, true, env, false);
    InvShape(played.game, false);
    PickKeepsDiscards(played.game, playerID, COLORS[picks.color]);
    hide Inv, PlayCard, PickColor, PlayCheck;
  }

  lemma PlayedTop(g: Game, playerID: int, cardID: int, env: Env)
    requires Shape(g) && PlayCheck(g, playerID, cardID).Ok?
    ensures var (seat, index) := PlayCheck(g, playerID, cardID).value;
            PlayCard(g, playerID, cardID, true, env).game.discardPile == g.discardPile + [g.players[seat].hand[index]]
  {
    var (seat, index) := PlayCheck(g, playerID, cardID).value;
    var card := g.players[seat].hand[index];
    EffectKeepsDiscards(Discarded(g, seat, index, true, env).(color := card.color), seat, card);
    hide PlayCheck, ApplyCardEffect;
  }

  lemma PickKeepsDiscards(g: Game, playerID: int, color: Color)
    requires Shape(g)
    ensures PickColor(g, playerID, color).game.discardPile == g.discardPile
  {
    if g.pendingColor.Some? {
      EffectKeepsDiscards(g.(color := color, pendingColor := None, phase := Playing), g.pendingColor.value.seat,
                          g.pendingColor.value.card);
    }
    hide ApplyCardEffect;
  }

  lemma NextIsAnother(g: Game)
    requires Shape(g) && g.phase != Finished && |g.players| <= 6
    ensures NextSeat(g, g.currentSeat, 1) != g.currentSeat
  {
    TurnOrder.FewSteps(g, g.currentSeat, 1);
  }

  lemma DrawMovesOn(g: Game, picks: Picks, env: Env)
    requires Inv(g, false) && Shape(g) && EnvOk(env) && NeverFails(env.shuffle) && PicksOk(picks)
    requires g.phase == Playing && g.pendingDraw == 0
    ensures var drawn := DrawCard(g, CurrentPlayerID(g), env);
            && Inv(drawn.game, false)
            && (if drawn.reply.Drew? && drawn.reply.draw.canPlay && drawn.reply.draw.cards != [] then
                  AutoPlay(drawn.game, CurrentPlayerID(g), drawn.reply.draw.cards[0].id, picks, env).game != g
                else drawn.game != g)
  {
    DrawnCardAccepted(g, env);
    NextIsAnother(g);
    CurrentMayAct(g);
    var drawn := DrawCard(g, CurrentPlayerID(g), env);
    DrawnTop(g, g.currentSeat, env);
    hide Inv, PlayCheck, AutoPlay, NextSeat, DealCards, Playable;
    if drawn.reply.draw.canPlay {
      AutoPlayTop(drawn.game, CurrentPlayerID(g), drawn.reply.draw.cards[0].id, picks, env);
    }
  }

  lemma DrawnTop(g: Game, seat: nat, env: Env)
    requires Shape(g) && seat < |g.players| && DealCards(g.drawPile, g.discardPile, 1, env.shuffle).Dealt?
    ensures var d := DrawOne(g, seat, env).game; |d.discardPile| > 0 && Top(d) == Top(g)
    ensures var o := DrawOne(g, seat, env);
            o.reply.Drew? && (!o.reply.draw.canPlay ==> o.game.currentSeat == NextSeat(g, seat, 1))
  {
    hide DealCards, Playable, Forget;
    DealKeepsTop(g.drawPile, g.discardPile, 1, env.shuffle);
    var deal := DealCards(g.drawPile, g.discardPile, 1, env.shuffle);
    assert DrawOne(g, seat, env).game.discardPile == deal.discardPile by { DrawnPiles(g, seat, env); }
  }

  lemma DrawnPiles(g: Game, seat: nat, env: Env)
    requires Shape(g) && seat < |g.players|
    ensures var deal := DealCards(g.drawPile, g.discardPile, 1, env.shuffle);
            deal.Dealt? ==> DrawOne(g, seat, env).game.discardPile == deal.discardPile
  {
    hide DealCards, Playable, Top;
  }

  lemma PenaltyMovesOn(g: Game, env: Env)
    requires Inv(g, false) && Shape(g) && EnvOk(env) && NeverFails(env.shuffle) && g.phase == Playing && g.pendingDraw > 0
    ensures DrawCard(g, CurrentPlayerID(g), env).game != g
  {
    CurrentMayAct(g);
    DealCount(g.drawPile, g.discardPile, g.pendingDraw, env.shuffle);
    hide DealCards, StillEmpty;
  }

  /** With a working shuffle the automatic action always changes the round: a round that is not over is never stuck. */
  lemma AutoActMovesOn(g: Game, picks: Picks, env: Env, now: int)
    requires Inv(g, false) && Shape(g) && g.phase != Finished && EnvOk(env) && NeverFails(env.shuffle) && PicksOk(picks)
    ensures ViewFor(g, ActorID(g), now).Ok?
    ensures AutoAct(g, ActorID(g), ViewFor(g, ActorID(g), now).value, picks, env).game != g
  {
    ActorSeated(g, now);
    AutoActDone(g, picks, env, now);
    var view := ViewFor(g, ActorID(g), now).value;
    assert !g.phase.OtherPhase? && g.pendingDraw >= 0;
    hide Inv, ViewFor, ActorID, PickColor, PassTurn, DrawCard, AutoPlay, ColorChooserID, CurrentPlayerID;
    if g.phase == Playing {
      if g.pendingDraw > 0 {
        PenaltyMovesOn(g, env);
      } else if view.playableCardIDs != [] {
        OfferMovesOn(g, view, picks, env, now);
      } else {
        DrawMovesOn(g, picks, env);
      }
    }
  }

  lemma OfferMovesOn(g: Game, view: View, picks: Picks, env: Env, now: int)
    requires Inv(g, false) && Shape(g) && g.phase != Finished && EnvOk(env) && PicksOk(picks)
    requires ViewFor(g, ActorID(g), now) == Ok(view) && view.playableCardIDs != []
    ensures AutoPlay(g, ActorID(g), view.playableCardIDs[picks.card(|view.playableCardIDs|)], picks, env).game != g
  {
    var id := view.playableCardIDs[picks.card(|view.playableCardIDs|)];
    assert id in view.playableCardIDs;
    hide ViewFor, AutoPlay, Inv, PlayCheck;
    PlayableIff(g, ActorID(g), id, now);
    AutoPlayTop(g, ActorID(g), id, picks, env);
  }
}
