/** What the server plays for a player who is away: it takes what is owed, plays what can be played, and otherwise draws. */
module Policy {
  import opened Wrappers
  import opened Cards
  import opened Piles
  import opened Rules
  import opened Invariant
  import opened Preservation
  import opened Views
  import opened Automation
  import opened Acceptance
  import opened Turns
  import opened Calls

  /** This card has been played by the player on turn, UNO called, and a colour said for a wild one. */
  ghost predicate PlayedThrough(g: Game, h: Game, card: Card, wish: Color) {
    && Played(g, h, g.currentSeat, card) && CurrentPlayerID(g) !in h.challenges
    && (h.phase != Finished ==>
          h.phase == Playing && h.color == (if card.color == NoColor then wish else card.color)
          && h.pendingDraw == g.pendingDraw + card.Penalty())
  }

  lemma AutoPlayMeans(g: Game, index: nat, picks: Picks, env: Env)
    requires Inv(g, false) && Shape(g) && EnvOk(env) && PicksOk(picks)
    requires 0 <= g.currentSeat < |g.players| && index < |g.players[g.currentSeat].hand|
    requires PlayCard(g, CurrentPlayerID(g), g.players[g.currentSeat].hand[index].id, true, env).reply == Done
    ensures var card := g.players[g.currentSeat].hand[index];
            var o := AutoPlay(g, CurrentPlayerID(g), card.id, picks, env);
            o.reply == Done && PlayedThrough(g, o.game, card, COLORS[picks.color])
  {
    var seat, card, id := g.currentSeat, g.players[g.currentSeat].hand[index], CurrentPlayerID(g);
    var h := PlayCard(g, id, card.id, true, env).game;
    PlayCardInv(g, id, card.id, true, env, false);
    InvShape(h, false);
    CardIsCanonical(g, seat, index);
    PickedColor(picks);
    Called(g, card.id, env);
    if card.IsWild() {
      WildMeans(g, index, true, env);
      WildWish(g, h, card, COLORS[picks.color], id);
    } else {
      PlayMeans(g, index, true, env);
    }
    hide Inv, PlayCard, PickColor, Beside, TurnGoes, GoneFrom, OnlyHand, IsCanonical;
  }

  /** Who calls while playing cannot be caught. */
  lemma Called(g: Game, cardID: int, env: Env)
    requires Shape(g) && PlayCard(g, CurrentPlayerID(g), cardID, true, env).reply == Done
    ensures CurrentPlayerID(g) !in PlayCard(g, CurrentPlayerID(g), cardID, true, env).game.challenges
  {
    var id := CurrentPlayerID(g);
    var (seat, index) := PlayCheck(g, id, cardID).value;
    var card := g.players[seat].hand[index];
    assert g.players[seat].id == id;
    EffectChallenges(Discarded(g, seat, index, true, env).(color := card.color), seat, card);
    hide PlayCheck, ApplyCardEffect;
  }

  lemma PickedChallenges(g: Game, playerID: int, wish: Color, id: int)
    requires Shape(g) && id !in g.challenges
    ensures id !in PickColor(g, playerID, wish).game.challenges
  {
    if g.pendingColor.Some? {
      EffectChallenges(g.(color := wish, pendingColor := None, phase := Playing), g.pendingColor.value.seat,
                       g.pendingColor.value.card);
    }
    hide ApplyCardEffect;
  }

  lemma WildWish(g: Game, h: Game, card: Card, wish: Color, id: int)
    requires Inv(h, false) && Shape(h) && Played(g, h, g.currentSeat, card) && h.phase == AwaitingColor
    requires h.pendingColor.Some? && !h.pendingColor.value.opening && ColorChooserID(h) == id && h.pendingDraw == g.pendingDraw
    requires card.IsWild() && card.Valid() && wish.Valid() && CurrentPlayerID(g) !in h.challenges
    ensures var o := PickColor(h, id, wish);
            o.reply == Done && PlayedThrough(g, o.game, card, wish)
  {
    ColorMeans(h, id, wish);
    PickedChallenges(h, id, wish, CurrentPlayerID(g));
    assert OnTurn(h, id);
    assert Top(h) == card;
    hide Inv, PickColor, Beside, GoneFrom;
  }

  /** With a penalty owed the server never adds to the chain: it takes the cards. */
  lemma AutoPays(g: Game, picks: Picks, env: Env, now: int)
    requires Inv(g, false) && Shape(g) && g.phase == Playing && g.pendingDraw > 0 && EnvOk(env) && PicksOk(picks)
    requires ViewFor(g, CurrentPlayerID(g), now).Ok?
    ensures AutoAct(g, CurrentPlayerID(g), ViewFor(g, CurrentPlayerID(g), now).value, picks, env)
         == DrawCard(g, CurrentPlayerID(g), env)
  {
    hide Inv, DrawCard, PlayableCardIDs, LiveChallenges, CandidateIDs, AutoPlay;
  }

  /** With nothing owed and a card that goes, such a card is played, whichever is picked. */
  lemma AutoPlays(g: Game, picks: Picks, env: Env, now: int) returns (index: nat)
    requires Inv(g, false) && Shape(g) && EnvOk(env) && PicksOk(picks)
    requires g.phase == Playing || g.phase == AwaitingDrawDecision
    requires g.pendingDraw == 0 && ViewFor(g, CurrentPlayerID(g), now).Ok?
    requires exists i :: 0 <= i < |g.players[g.currentSeat].hand| && Offered(g, g.players[g.currentSeat].hand[i])
    ensures index < |g.players[g.currentSeat].hand| && Offered(g, g.players[g.currentSeat].hand[index])
    ensures var o := AutoAct(g, CurrentPlayerID(g), ViewFor(g, CurrentPlayerID(g), now).value, picks, env);
            o.reply == Done && PlayedThrough(g, o.game, g.players[g.currentSeat].hand[index], COLORS[picks.color])
  {
    var id, hand := CurrentPlayerID(g), g.players[g.currentSeat].hand;
    var view := ViewFor(g, id, now).value;
    var i :| 0 <= i < |hand| && Offered(g, hand[i]);
    PlayAcceptedIff(g, g.currentSeat, i, true, env);
    ShownPlayable(g, now, hand[i].id, env);
    assert view.playableCardIDs != [];
    var picked := view.playableCardIDs[picks.card(|view.playableCardIDs|)];
    assert picked in view.playableCardIDs;
    ShownPlayable(g, now, picked, env);
    index := HeldIndex(g, picked, env);
    PlayAcceptedIff(g, g.currentSeat, index, true, env);
    AutoPlayMeans(g, index, picks, env);
    ActsByPlaying(g, picks, env, now);
    hide Inv, PlayCard, AutoPlay, AutoAct, ViewFor, Goes, PlayedThrough;
  }

  /** A card that goes, and during a decision is the one in question. */
  ghost predicate Offered(g: Game, card: Card) {
    |g.discardPile| > 0 && Goes(Top(g), g.color, card) && (g.phase == AwaitingDrawDecision ==> card.id == g.drawnCardID)
  }

  lemma ShownPlayable(g: Game, now: int, cardID: int, env: Env)
    requires Inv(g, false) && Shape(g) && ViewFor(g, CurrentPlayerID(g), now).Ok?
    ensures cardID in ViewFor(g, CurrentPlayerID(g), now).value.playableCardIDs
       <==> PlayCard(g, CurrentPlayerID(g), cardID, true, env).reply == Done
  {
    PlayableIff(g, CurrentPlayerID(g), cardID, now);
    hide Inv, PlayCheck, ViewFor, ApplyCardEffect, Discarded;
  }

  lemma HeldIndex(g: Game, cardID: int, env: Env) returns (index: nat)
    requires Inv(g, false) && Shape(g) && 0 <= g.currentSeat < |g.players|
    requires PlayCard(g, CurrentPlayerID(g), cardID, true, env).reply == Done
    ensures index < |g.players[g.currentSeat].hand| && g.players[g.currentSeat].hand[index].id == cardID
  {
    PlayRefusals(g, CurrentPlayerID(g), cardID, true, env);
    assert Holds(g.players[g.currentSeat].hand, cardID) by { hide PlayCard, Inv; }
    index :| index < |g.players[g.currentSeat].hand| && g.players[g.currentSeat].hand[index].id == cardID;
  }

  lemma ActsByPlaying(g: Game, picks: Picks, env: Env, now: int)
    requires Inv(g, false) && Shape(g) && EnvOk(env) && PicksOk(picks) && ViewFor(g, CurrentPlayerID(g), now).Ok?
    requires (g.phase == Playing && g.pendingDraw == 0) || g.phase == AwaitingDrawDecision
    ensures var view := ViewFor(g, CurrentPlayerID(g), now).value;
            view.playableCardIDs != [] ==>
              AutoAct(g, CurrentPlayerID(g), view, picks, env)
              == AutoPlay(g, CurrentPlayerID(g), view.playableCardIDs[picks.card(|view.playableCardIDs|)], picks, env)
  {
    hide Inv, DrawCard, PlayableCardIDs, LiveChallenges, CandidateIDs, AutoPlay, PassTurn;
  }

  /** With nothing owed and no card that goes the server draws one; if that one goes it is played at once, otherwise the
      turn is over. */
  lemma AutoDraws(g: Game, picks: Picks, env: Env, now: int)
    requires Inv(g, false) && Shape(g) && EnvOk(env) && NeverFails(env.shuffle) && PicksOk(picks)
    requires g.phase == Playing && g.pendingDraw == 0 && ViewFor(g, CurrentPlayerID(g), now).Ok?
    requires forall i :: 0 <= i < |g.players[g.currentSeat].hand| ==> !Offered(g, g.players[g.currentSeat].hand[i])
    ensures var id := CurrentPlayerID(g);
            var drawn, o := DrawCard(g, id, env), AutoAct(g, id, ViewFor(g, id, now).value, picks, env);
            && drawn.reply.Drew? && |drawn.reply.draw.cards| <= 1 && |drawn.game.discardPile| > 0
            && (if drawn.reply.draw.cards != [] && Goes(Top(g), g.color, drawn.reply.draw.cards[0]) then
                  PlayedThrough(drawn.game, o.game, drawn.reply.draw.cards[0], COLORS[picks.color])
                else o == drawn)
  {
    var id := CurrentPlayerID(g);
    var drawn, view := DrawCard(g, id, env), ViewFor(g, id, now).value;
    DrawAcceptedIff(g, id, env);
    assert g.players[g.currentSeat].id == id;
    DrawMeans(g, id, env);
    DrawCardInv(g, id, env, false);
    InvShape(drawn.game, false);
    NothingShown(g, now, env);
    ActsByDrawing(g, picks, env, now);
    hide Inv, DrawCard, PlayCard, ViewFor, AutoAct, AutoPlay, Goes, Beside, Offered;
    if drawn.reply.draw.cards != [] {
      DrawnIsOffered(g, id, env, true, env);
      if drawn.reply.draw.canPlay {
        var hand := drawn.game.players[g.currentSeat].hand;
        assert hand[|hand| - 1] == drawn.reply.draw.cards[0];
        AutoPlayMeans(drawn.game, |hand| - 1, picks, env);
      }
    }
  }

  lemma NothingShown(g: Game, now: int, env: Env)
    requires Inv(g, false) && Shape(g) && g.phase == Playing && g.pendingDraw == 0 && ViewFor(g, CurrentPlayerID(g), now).Ok?
    requires forall i :: 0 <= i < |g.players[g.currentSeat].hand| ==> !Offered(g, g.players[g.currentSeat].hand[i])
    ensures ViewFor(g, CurrentPlayerID(g), now).value.playableCardIDs == []
  {
    var ids := ViewFor(g, CurrentPlayerID(g), now).value.playableCardIDs;
    hide ViewFor, PlayCard, Goes;
    if ids != [] {
      assert ids[0] in ids;
      ShownPlayable(g, now, ids[0], env);
      var index := HeldIndex(g, ids[0], env);
      PlayAcceptedIff(g, g.currentSeat, index, true, env);
    }
  }

  lemma ActsByDrawing(g: Game, picks: Picks, env: Env, now: int)
    requires Inv(g, false) && Shape(g) && EnvOk(env) && PicksOk(picks) && g.phase == Playing && g.pendingDraw == 0
    requires ViewFor(g, CurrentPlayerID(g), now).Ok? && ViewFor(g, CurrentPlayerID(g), now).value.playableCardIDs == []
    ensures Inv(DrawCard(g, CurrentPlayerID(g), env).game, false)
    ensures var id := CurrentPlayerID(g);
            var drawn := DrawCard(g, id, env);
            AutoAct(g, id, ViewFor(g, id, now).value, picks, env)
            == if drawn.reply.Drew? && drawn.reply.draw.canPlay && drawn.reply.draw.cards != [] then
                 AutoPlay(drawn.game, id, drawn.reply.draw.cards[0].id, picks, env)
               else drawn
  {
    DrawCardInv(g, CurrentPlayerID(g), env, false);
    hide Inv, DrawCard, PlayableCardIDs, LiveChallenges, CandidateIDs, AutoPlay;
  }

  /** A colour that is due is said as picked. */
  lemma AutoChooses(g: Game, picks: Picks, env: Env, now: int)
    requires Inv(g, false) && Shape(g) && g.phase == AwaitingColor && EnvOk(env) && PicksOk(picks)
    requires ViewFor(g, CurrentPlayerID(g), now).Ok?
    ensures var o := AutoAct(g, CurrentPlayerID(g), ViewFor(g, CurrentPlayerID(g), now).value, picks, env);
            && o.reply == Done && o.game.players == g.players && o.game.discardPile == g.discardPile
            && (o.game.phase != Finished ==> o.game.phase == Playing && o.game.color == COLORS[picks.color])
  {
    PickedColor(picks);
    ColorMeans(g, CurrentPlayerID(g), COLORS[picks.color]);
    assert OnTurn(g, CurrentPlayerID(g));
    hide Inv, PickColor, PlayableCardIDs, LiveChallenges, CandidateIDs, Beside;
  }
}
