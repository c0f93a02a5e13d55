/** Every command keeps the invariant, whatever its arguments, the clock and a permuting or failing shuffle. */
module Preservation {
  import opened Wrappers
  import opened Cards
  import opened Piles
  import opened Rules
  import opened Invariant

  // ----- Hands that change -----

  /** Changing one hand leaves the table as it is. */
  lemma SetHandTable(players: seq<Player>, seat: nat, hand: seq<Card>, dealerSeat: int, direction: int)
    requires seat < |players| && InvTable(players, dealerSeat, direction)
    ensures InvTable(players[seat := players[seat].(hand := hand)], dealerSeat, direction)
  {
  }

  /** The challenges of the others stand when one hand changes. */
  lemma SetHandChallenges(players: seq<Player>, seat: nat, hand: seq<Card>, challenges: map<int, Challenge>)
    requires seat < |players| && InvChallenges(players, challenges)
    requires players[seat].id !in challenges || |hand| == 1
    ensures InvChallenges(players[seat := players[seat].(hand := hand)], challenges)
  {
    var after := players[seat := players[seat].(hand := hand)];
    forall id | id in challenges ensures HoldsOneCard(after, id) {
      var s :| 0 <= s < |players| && players[s].id == id && |players[s].hand| == 1;
      assert after[s].id == id && |after[s].hand| == 1;
    }
  }

  lemma SetHandCandidates(players: seq<Player>, seat: nat, hand: seq<Card>, candidates: seq<int>, all: bool)
    requires seat < |players| && InvCandidates(players, candidates, all)
    requires hand != [] && seat !in candidates
    ensures InvCandidates(players[seat := players[seat].(hand := hand)], candidates, all)
  {
    forall i | 0 <= i < |candidates| ensures candidates[i] != seat { assert candidates[i] in candidates; }
  }

  /** A player who draws is no longer a candidate. */
  lemma WithoutCandidates(players: seq<Player>, seat: nat, hand: seq<Card>, candidates: seq<int>, all: bool)
    requires seat < |players| && InvCandidates(players, candidates, all) && hand != []
    ensures InvCandidates(players[seat := players[seat].(hand := hand)], Without(candidates, seat), all)
  {
    var after, kept := players[seat := players[seat].(hand := hand)], Without(candidates, seat);
    WithoutMembers(candidates, seat);
    WithoutDistinct(candidates, seat);
    forall i | 0 <= i < |kept| ensures 0 <= kept[i] < |after| && after[kept[i]].hand == [] {
      assert kept[i] in kept;
      var j :| 0 <= j < |candidates| && candidates[j] == kept[i];
    }
  }

  lemma {:induction false} WithoutDistinct(s: seq<int>, x: int)
    requires DistinctSeats(s)
    ensures DistinctSeats(Without(s, x))
  {
    if s != [] {
      WithoutDistinct(s[1..], x);
      WithoutMembers(s[1..], x);
      assert s[0] !in s[1..];
      var r := Without(s[1..], x);
      forall j | 0 <= j < |r| ensures r[j] != s[0] { assert r[j] in r; }
    }
  }

  // ----- Play and colour choice -----

  lemma DiscardedInv(g: Game, seat: nat, index: nat, sayUNO: bool, env: Env, exact: bool)
    requires Inv(g, exact) && EnvOk(env) && g.phase != Finished
    requires seat < |g.players| && index < |g.players[seat].hand|
    ensures var d := Discarded(g, seat, index, sayUNO, env);
            && InvTable(d.players, d.dealerSeat, d.direction)
            && Conserved(d)
            && InvCandidates(d.players, d.candidates, exact)
            && InvChallenges(d.players, d.challenges)
  {
    var hand := RemoveAt(g.players[seat].hand, index);
    SetHandTable(g.players, seat, hand, g.dealerSeat, g.direction);
    DiscardKeepsBag(g, seat, index);
    DiscardedCandidates(g.players, seat, hand, g.candidates, exact);
    DiscardedChallenges(g.players, seat, hand, g.challenges, sayUNO, env);
    hide InvTable, InvCandidates, InvChallenges, Bag;
  }

  /** A hand that empties makes its owner the last candidate. */
  lemma DiscardedCandidates(players: seq<Player>, seat: nat, hand: seq<Card>, candidates: seq<int>, all: bool)
    requires seat < |players| && InvCandidates(players, candidates, all) && players[seat].hand != []
    ensures InvCandidates(players[seat := players[seat].(hand := hand)],
                          if hand == [] && seat !in candidates then candidates + [seat] else candidates, all)
  {
    assert seat !in candidates;
    if hand != [] {
      SetHandCandidates(players, seat, hand, candidates, all);
    }
  }

  lemma DiscardedChallenges(players: seq<Player>, seat: nat, hand: seq<Card>, challenges: map<int, Challenge>,
                            sayUNO: bool, env: Env)
    requires seat < |players| && InvChallenges(players, challenges) && EnvOk(env)
    ensures var id := players[seat].id;
            InvChallenges(players[seat := players[seat].(hand := hand)],
                          if |hand| != 1 || sayUNO then challenges - {id}
                          else challenges[id := Challenge(id, env.now + env.window)])
  {
    var id := players[seat].id;
    var after := players[seat := players[seat].(hand := hand)];
    SetHandChallenges(players, seat, hand, challenges - {id});
    assert after[seat].id == id;
  }

  lemma WildPlayedInv(g: Game, index: nat, sayUNO: bool, env: Env, exact: bool)
    requires Inv(g, exact) && EnvOk(env) && (g.phase == Playing || g.phase == AwaitingDrawDecision)
    requires index < |g.players[g.currentSeat].hand| && Playable(g, g.players[g.currentSeat].hand[index])
    requires g.players[g.currentSeat].hand[index].IsWild()
    ensures var d := Discarded(g, g.currentSeat, index, sayUNO, env);
            var pending := PendingColor(g.currentSeat, g.players[g.currentSeat].hand[index], false);
            Inv(d.(color := NoColor, phase := AwaitingColor, pendingColor := Some(pending)), exact)
  {
    DiscardedInv(g, g.currentSeat, index, sayUNO, env, exact);
  }

  lemma ColoredPlayedInv(g: Game, index: nat, sayUNO: bool, env: Env, exact: bool)
    requires Inv(g, exact) && EnvOk(env) && (g.phase == Playing || g.phase == AwaitingDrawDecision)
    requires index < |g.players[g.currentSeat].hand| && Playable(g, g.players[g.currentSeat].hand[index])
    requires !g.players[g.currentSeat].hand[index].IsWild()
    ensures var card := g.players[g.currentSeat].hand[index];
            var d := Discarded(g, g.currentSeat, index, sayUNO, env);
            Inv(ApplyCardEffect(d.(color := card.color), g.currentSeat, card), exact)
  {
    var card := g.players[g.currentSeat].hand[index];
    var d := Discarded(g, g.currentSeat, index, sayUNO, env).(color := card.color);
    ColoredDiscarded(g, index, sayUNO, env, exact);
    assert d.pendingDraw >= 0 && (exact ==> d.pendingDraw % 2 == 0) && Top(d) == card;
    assert exact && d.pendingDraw > 0 ==> card.IsDrawPenalty();
    hide Unsettled, Inv, ApplyCardEffect, Discarded;
    ApplyCardEffectInv(d, g.currentSeat, card, exact);
  }

  lemma ColoredDiscarded(g: Game, index: nat, sayUNO: bool, env: Env, exact: bool)
    requires Inv(g, exact) && EnvOk(env) && (g.phase == Playing || g.phase == AwaitingDrawDecision)
    requires index < |g.players[g.currentSeat].hand| && !g.players[g.currentSeat].hand[index].IsWild()
    ensures var d := Discarded(g, g.currentSeat, index, sayUNO, env).(color := g.players[g.currentSeat].hand[index].color);
            Unsettled(d.(phase := Playing, pendingDraw := 0), exact)
  {
    DiscardedInv(g, g.currentSeat, index, sayUNO, env, exact);
    CardIsCanonical(g, g.currentSeat, index);
  }

  lemma PlayCardInv(g: Game, playerID: int, cardID: int, sayUNO: bool, env: Env, exact: bool)
    requires Inv(g, exact) && EnvOk(env)
    ensures Inv(PlayCard(g, playerID, cardID, sayUNO, env).game, exact)
  {
    InvShape(g, exact);
    var check := PlayCheck(g, playerID, cardID);
    if check.Ok? {
      PlayCheckFacts(g, playerID, cardID);
      hide Inv, Discarded, ApplyCardEffect, PlayCheck, Playable;
      if g.players[g.currentSeat].hand[check.value.1].IsWild() {
        WildPlayedInv(g, check.value.1, sayUNO, env, exact);
      } else {
        ColoredPlayedInv(g, check.value.1, sayUNO, env, exact);
      }
    }
  }

  lemma PlayCheckFacts(g: Game, playerID: int, cardID: int)
    requires Shape(g) && PlayCheck(g, playerID, cardID).Ok?
    ensures g.phase == Playing || g.phase == AwaitingDrawDecision
    ensures Playable(g, g.players[g.currentSeat].hand[PlayCheck(g, playerID, cardID).value.1])
  {
  }

  /** Every card in a hand is one of the deck's. */
  lemma CardIsCanonical(g: Game, seat: nat, index: nat)
    requires Conserved(g) && seat < |g.players| && index < |g.players[seat].hand|
    ensures var card := g.players[seat].hand[index]; IsCanonical(card) && card.Valid()
  {
    var card := g.players[seat].hand[index];
    HandInBag(g.players, seat, card);
    StandardDeckDistinct();
    assert card in multiset(StandardDeck());
    CanonicalIsValid(card.id);
  }

  lemma {:induction false} HandInBag(players: seq<Player>, seat: nat, card: Card)
    requires seat < |players| && card in players[seat].hand
    ensures card in HandBag(players)
  {
    if seat > 0 {
      HandInBag(players[1..], seat - 1, card);
    }
  }

  lemma PickColorInv(g: Game, playerID: int, color: Color, exact: bool)
    requires Inv(g, exact)
    ensures Inv(PickColor(g, playerID, color).game, exact)
  {
    if g.phase == AwaitingColor && color.Valid() {
      var chosen := g.(color := color, pendingColor := None, phase := Playing);
      if !g.pendingColor.value.opening {
        ApplyCardEffectInv(chosen, g.pendingColor.value.seat, g.pendingColor.value.card, exact);
      }
    }
  }

  // ----- Drawing -----

  /** Receiving dealt cards keeps everything but the turn in order. */
  lemma ReceiveInv(g: Game, seat: nat, drawn: seq<Card>, drawPile: seq<Card>, discardPile: seq<Card>, exact: bool)
    requires Inv(g, exact) && g.phase != Finished && seat < |g.players|
    requires Bag(SetHand(g, seat, g.players[seat].hand + drawn).players, drawPile, discardPile)
          == Bag(g.players, g.drawPile, g.discardPile)
    ensures var d := Receive(g, seat, drawn, drawPile, discardPile);
            && InvTable(d.players, d.dealerSeat, d.direction)
            && Conserved(d)
            && InvCandidates(d.players, d.candidates, exact)
            && InvChallenges(d.players, d.challenges)
  {
    var hand := g.players[seat].hand + drawn;
    var d := Receive(g, seat, drawn, drawPile, discardPile);
    SetHandTable(g.players, seat, hand, g.dealerSeat, g.direction);
    SetHandChallenges(g.players, seat, hand, d.challenges);
    if drawn == [] {
      assert d.players == g.players by { assert hand == g.players[seat].hand; }
    } else {
      WithoutCandidates(g.players, seat, hand, g.candidates, exact);
    }
  }

  lemma DrawCardsToInv(g: Game, seat: nat, count: nat, shuffle: Shuffle, exact: bool)
    requires Inv(g, exact) && g.phase != Finished && seat < |g.players| && Permuting(shuffle)
    requires DrawCardsTo(g, seat, count, shuffle).Some?
    ensures var d := DrawCardsTo(g, seat, count, shuffle).value.0;
            && |d.discardPile| > 0 && Top(d) == Top(g)
            && InvTable(d.players, d.dealerSeat, d.direction)
            && Conserved(d)
            && InvCandidates(d.players, d.candidates, exact)
            && InvChallenges(d.players, d.challenges)
  {
    var deal := DealCards(g.drawPile, g.discardPile, count, shuffle);
    DealKeepsBag(g, seat, count, shuffle);
    hide DealCards, Bag;
    ReceiveInv(g, seat, deal.drawn, deal.drawPile, deal.discardPile, exact);
  }

  lemma TakePenaltyInv(g: Game, seat: nat, env: Env, exact: bool)
    requires Inv(g, exact) && EnvOk(env) && g.phase == Playing && g.pendingDraw > 0 && seat < |g.players|
    ensures Inv(TakePenalty(g, seat, env).game, exact)
  {
    var dealt := DrawCardsTo(g, seat, g.pendingDraw, env.shuffle);
    if dealt.Some? {
      DrawCardsToInv(g, seat, g.pendingDraw, env.shuffle, exact);
      NextSeatInRange(g, seat, 1);
      PenaltyTaken(g, dealt.value.0, NextSeat(g, seat, 1), exact);
      hide Inv, DrawCardsTo, FinishIfResolved;
    }
  }

  lemma PenaltyTaken(g: Game, d: Game, seat: int, exact: bool)
    requires Inv(g, exact) && g.phase == Playing && 0 <= seat < |g.players| == |d.players|
    requires |d.discardPile| > 0 && Top(d) == Top(g)
    requires d == g.(players := d.players, drawPile := d.drawPile, discardPile := d.discardPile,
                     challenges := d.challenges, candidates := d.candidates)
    requires InvTable(d.players, d.dealerSeat, d.direction) && Conserved(d)
    requires InvCandidates(d.players, d.candidates, exact) && InvChallenges(d.players, d.challenges)
    ensures Inv(FinishIfResolved(d.(pendingDraw := 0, currentSeat := seat)), exact)
  {
    FinishIfResolvedInv(d.(pendingDraw := 0, currentSeat := seat), exact);
  }

  lemma DrawOneInv(g: Game, seat: nat, env: Env, exact: bool)
    requires Inv(g, exact) && EnvOk(env) && g.phase == Playing && g.pendingDraw == 0 && seat == g.currentSeat
    ensures Inv(DrawOne(g, seat, env).game, exact)
  {
    InvShape(g, exact);
    hide Inv;
    var deal := DealCards(g.drawPile, g.discardPile, 1, env.shuffle);
    if deal.Dealt? {
      OneCardKeepsBag(g, seat, env);
      if deal.drawn == [] {
        NothingDrawnInv(g, seat, deal.drawPile, deal.discardPile, exact);
      } else {
        DrawnCardInv(g, seat, deal.drawn[0], deal.drawPile, deal.discardPile, exact);
      }
      DrawOneCases(g, seat, env);
    }
  }

  lemma DrawOneCases(g: Game, seat: nat, env: Env)
    requires |g.discardPile| > 0 && |g.players| > 0 && seat < |g.players| && Shape(g)
    requires DealCards(g.drawPile, g.discardPile, 1, env.shuffle).Dealt?
    ensures var d := DealCards(g.drawPile, g.discardPile, 1, env.shuffle);
            DrawOne(g, seat, env).game ==
              if d.drawn == [] then
                g.(drawPile := d.drawPile, discardPile := d.discardPile, currentSeat := NextSeat(g, seat, 1))
              else
                var dealt := WithCard(g, seat, d.drawn[0], d.drawPile, d.discardPile);
                if Playable(g, d.drawn[0]) then dealt.(phase := AwaitingDrawDecision, drawnCardID := d.drawn[0].id)
                else dealt.(currentSeat := NextSeat(g, seat, 1))
  {
  }

  lemma OneCardKeepsBag(g: Game, seat: nat, env: Env)
    requires |g.discardPile| > 0 && seat < |g.players| && Permuting(env.shuffle)
    requires DealCards(g.drawPile, g.discardPile, 1, env.shuffle).Dealt?
    ensures var d := DealCards(g.drawPile, g.discardPile, 1, env.shuffle);
            && |d.discardPile| > 0 && d.discardPile[|d.discardPile| - 1] == Top(g)
            && var players := if d.drawn == [] then g.players else SetHand(g, seat, g.players[seat].hand + [d.drawn[0]]).players;
               Bag(players, d.drawPile, d.discardPile) == Bag(g.players, g.drawPile, g.discardPile)
  {
    var d := DealCards(g.drawPile, g.discardPile, 1, env.shuffle);
    var hand := g.players[seat].hand;
    DealKeepsBag(g, seat, 1, env.shuffle);
    if d.drawn == [] {
      assert hand + d.drawn == hand;
      assert SetHand(g, seat, hand).players == g.players;
    } else {
      DealOne(g.drawPile, g.discardPile, env.shuffle);
      assert hand + d.drawn == hand + [d.drawn[0]];
    }
  }

  lemma NothingDrawnInv(g: Game, seat: nat, drawPile: seq<Card>, discardPile: seq<Card>, exact: bool)
    requires Inv(g, exact) && g.phase == Playing && g.pendingDraw == 0
    requires |discardPile| > 0 && discardPile[|discardPile| - 1] == Top(g)
    requires Bag(g.players, drawPile, discardPile) == Bag(g.players, g.drawPile, g.discardPile)
    ensures Inv(g.(drawPile := drawPile, discardPile := discardPile, currentSeat := NextSeat(g, seat, 1)), exact)
  {
    NextSeatInRange(g, seat, 1);
  }

  function WithCard(g: Game, seat: nat, card: Card, drawPile: seq<Card>, discardPile: seq<Card>): Game
    requires seat < |g.players|
  {
    Forget(SetHand(g, seat, g.players[seat].hand + [card]), g.players[seat].id)
      .(drawPile := drawPile, discardPile := discardPile)
  }

  lemma WithCardInv(g: Game, seat: nat, card: Card, drawPile: seq<Card>, discardPile: seq<Card>, exact: bool)
    requires Inv(g, exact) && g.phase == Playing && g.pendingDraw == 0 && seat == g.currentSeat
    requires |discardPile| > 0 && discardPile[|discardPile| - 1] == Top(g)
    requires Bag(SetHand(g, seat, g.players[seat].hand + [card]).players, drawPile, discardPile)
          == Bag(g.players, g.drawPile, g.discardPile)
    ensures Inv(WithCard(g, seat, card, drawPile, discardPile), exact)
  {
    var hand := g.players[seat].hand + [card];
    SetHandTable(g.players, seat, hand, g.dealerSeat, g.direction);
    SetHandChallenges(g.players, seat, hand, g.challenges - {g.players[seat].id});
    SetHandCandidates(g.players, seat, hand, g.candidates, exact);
  }

  lemma DrawnCardInv(g: Game, seat: nat, card: Card, drawPile: seq<Card>, discardPile: seq<Card>, exact: bool)
    requires Inv(g, exact) && g.phase == Playing && g.pendingDraw == 0 && seat == g.currentSeat
    requires |discardPile| > 0 && discardPile[|discardPile| - 1] == Top(g)
    requires Bag(SetHand(g, seat, g.players[seat].hand + [card]).players, drawPile, discardPile)
          == Bag(g.players, g.drawPile, g.discardPile)
    ensures var dealt := WithCard(g, seat, card, drawPile, discardPile);
            && Inv(dealt.(currentSeat := NextSeat(g, seat, 1)), exact)
            && Inv(dealt.(phase := AwaitingDrawDecision, drawnCardID := card.id), exact)
  {
    var hand := g.players[seat].hand + [card];
    var dealt := WithCard(g, seat, card, drawPile, discardPile);
    WithCardInv(g, seat, card, drawPile, discardPile, exact);
    NextSeatInRange(g, seat, 1);
    assert dealt.players[seat].hand[|hand| - 1] == card;
    CardIsCanonical(dealt, seat, |hand| - 1);
    DecisionInv(dealt, seat, |hand| - 1, exact);
    TurnMoved(dealt, NextSeat(g, seat, 1), dealt.direction, 0, exact);
    assert dealt.(currentSeat := NextSeat(g, seat, 1), direction := dealt.direction, pendingDraw := 0)
        == dealt.(currentSeat := NextSeat(g, seat, 1));
  }

  lemma DecisionInv(g: Game, seat: nat, index: nat, exact: bool)
    requires Inv(g, exact) && g.phase == Playing && g.pendingDraw == 0 && seat == g.currentSeat
    requires index < |g.players[seat].hand| && g.players[seat].hand[index].id != 0
    ensures Inv(g.(phase := AwaitingDrawDecision, drawnCardID := g.players[seat].hand[index].id), exact)
  {
  }

  lemma DrawCardInv(g: Game, playerID: int, env: Env, exact: bool)
    requires Inv(g, exact) && EnvOk(env)
    ensures Inv(DrawCard(g, playerID, env).game, exact)
  {
    if g.phase == Playing && CurrentPlayer(g, playerID).Ok? {
      if g.pendingDraw > 0 {
        TakePenaltyInv(g, CurrentPlayer(g, playerID).value, env, exact);
      } else {
        DrawOneInv(g, CurrentPlayer(g, playerID).value, env, exact);
      }
    }
  }

  lemma PassTurnInv(g: Game, playerID: int, exact: bool)
    requires Inv(g, exact)
    ensures Inv(PassTurn(g, playerID).game, exact)
  {
    NextSeatInRange(g, g.currentSeat, 1);
  }

  // ----- Calls of UNO -----

  lemma FewerChallenges(g: Game, challenges: map<int, Challenge>, exact: bool)
    requires Inv(g, exact) && forall id :: id in challenges ==> id in g.challenges && challenges[id] == g.challenges[id]
    ensures Inv(g.(challenges := challenges), exact)
  {
    if exact && g.phase == Finished {
      assert g.challenges == map[];
      assert forall id :: id !in challenges;
    }
  }

  lemma CatchInv(g: Game, challengerID: int, targetID: int, env: Env, exact: bool)
    requires Inv(g, exact) && EnvOk(env)
    ensures Inv(Catch(g, challengerID, targetID, env).game, exact)
  {
    var caught := Catch(g, challengerID, targetID, env);
    if caught.reply.Failed? {
      assert caught.game == g.(challenges := caught.game.challenges);
      FewerChallenges(g, caught.game.challenges, exact);
    } else {
      var seat := SeatOf(g.players, targetID).value;
      ChallengedSeat(g, targetID);
      CaughtInv(g, seat, env, exact);
      var d := DrawCardsTo(g, seat, 2, env.shuffle).value.0;
      assert caught.game == d.(challenges := d.challenges - {targetID});
      hide Inv, DrawCardsTo, Catch;
      FewerChallenges(d, d.challenges - {targetID}, exact);
    }
  }

  /** A penalty deal to somebody who holds a card changes neither the turn nor the candidates. */
  lemma CaughtInv(g: Game, seat: nat, env: Env, exact: bool)
    requires Inv(g, exact) && EnvOk(env) && g.phase != Finished
    requires seat < |g.players| && g.players[seat].hand != [] && DrawCardsTo(g, seat, 2, env.shuffle).Some?
    ensures Inv(DrawCardsTo(g, seat, 2, env.shuffle).value.0, exact)
  {
    var d := DrawCardsTo(g, seat, 2, env.shuffle).value.0;
    DrawCardsToInv(g, seat, 2, env.shuffle, exact);
    assert d.candidates == g.candidates by {
      assert seat !in g.candidates;
      WithoutAbsent(g.candidates, seat);
    }
    CaughtDecision(g, seat, env, exact);
    SameTurnInv(g, d, exact);
  }

  /** Cards may move as long as the turn, the discard top and the candidates stay. */
  lemma SameTurnInv(g: Game, d: Game, exact: bool)
    requires Inv(g, exact) && g.phase != Finished && |d.discardPile| > 0 && Top(d) == Top(g)
    requires d == g.(players := d.players, drawPile := d.drawPile, discardPile := d.discardPile, challenges := d.challenges)
    requires |d.players| == |g.players| && InvTable(d.players, d.dealerSeat, d.direction) && Conserved(d)
    requires InvCandidates(d.players, d.candidates, exact) && InvChallenges(d.players, d.challenges)
    requires InvDecision(d.players, g.phase, g.drawnCardID, g.pendingDraw, g.currentSeat)
    ensures Inv(d, exact)
  {
  }

  lemma CaughtDecision(g: Game, seat: nat, env: Env, exact: bool)
    requires Inv(g, exact) && seat < |g.players| && DrawCardsTo(g, seat, 2, env.shuffle).Some?
    ensures var d := DrawCardsTo(g, seat, 2, env.shuffle).value.0;
            InvDecision(d.players, g.phase, g.drawnCardID, g.pendingDraw, g.currentSeat)
  {
    if g.phase == AwaitingDrawDecision {
      var d := DrawCardsTo(g, seat, 2, env.shuffle).value.0;
      var hand := g.players[g.currentSeat].hand;
      var i :| 0 <= i < |hand| && hand[i].id == g.drawnCardID;
      assert d.players[g.currentSeat].hand[i] == hand[i];
    }
  }

  lemma {:induction false} WithoutAbsent(s: seq<int>, x: int)
    requires x !in s
    ensures Without(s, x) == s
  {
    if s != [] {
      WithoutAbsent(s[1..], x);
    }
  }

  /** A challenged player sits where the lookup finds him, with one card. */
  lemma ChallengedSeat(g: Game, id: int)
    requires InvTable(g.players, g.dealerSeat, g.direction) && InvChallenges(g.players, g.challenges) && id in g.challenges
    ensures SeatOf(g.players, id).Some? && |g.players[SeatOf(g.players, id).value].hand| == 1
  {
    var s :| 0 <= s < |g.players| && g.players[s].id == id && |g.players[s].hand| == 1;
    var t := SeatOf(g.players, id).value;
    assert t == s;
  }

  lemma CallInv(g: Game, playerID: int, env: Env, exact: bool)
    requires Inv(g, exact)
    ensures Inv(Call(g, playerID, env).game, exact)
  {
    var after := Call(g, playerID, env).game;
    assert after == g.(challenges := after.challenges);
    assert forall id :: id in after.challenges ==> id in g.challenges && after.challenges[id] == g.challenges[id];
    hide Inv;
    FewerChallenges(g, after.challenges, exact);
  }

  lemma ExpireInv(g: Game, env: Env, exact: bool)
    requires Inv(g, exact)
    ensures Inv(Expire(g, env).game, exact)
  {
    hide Inv;
    FewerChallenges(g, Expire(g, env).game.challenges, exact);
  }

  /** The main preservation theorem. */
  lemma ApplyInv(g: Game, command: Command, env: Env, exact: bool)
    requires Inv(g, exact) && EnvOk(env)
    ensures Inv(Apply(g, command, env).game, exact)
  {
    InvShape(g, exact);
    hide Inv, PlayCard, PickColor, DrawCard, PassTurn, Call, Catch, Expire;
    match command
    case Play(playerID, cardID, sayUNO) => PlayCardInv(g, playerID, cardID, sayUNO, env, exact);
    case ChooseColor(playerID, color) => PickColorInv(g, playerID, color, exact);
    case Draw(playerID) => DrawCardInv(g, playerID, env, exact);
    case Pass(playerID) => PassTurnInv(g, playerID, exact);
    case CallUNO(playerID) => CallInv(g, playerID, env, exact);
    case CatchUNO(challengerID, targetID) => CatchInv(g, challengerID, targetID, env, exact);
    case ExpireUNO => ExpireInv(g, env, exact);
  }
}
