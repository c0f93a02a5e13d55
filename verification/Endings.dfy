/** Every unfinished round can be played to its end: no state that play or a snapshot can lead to is a dead end. */
module Endings {
  import opened Wrappers
  import opened Cards
  import opened Piles
  import opened Rules
  import opened Invariant
  import opened Preservation
  import opened Setup
  import opened Views
  import opened Automation

  /** What one player does, and what the shuffle does if it is needed. */
  datatype Turn = Turn(command: Command, shuffle: Shuffle)

  function At(shuffle: Shuffle): Env { Env(1, CHALLENGE_WINDOW, shuffle) }

  ghost predicate Seated(players: seq<Player>, id: int) { exists s :: 0 <= s < |players| && players[s].id == id }

  /** A seated player plays, chooses, draws or passes. */
  ghost predicate TurnOk(players: seq<Player>, turn: Turn) {
    && Permuting(turn.shuffle)
    && match turn.command
       case Play(id, cardID, _) => Seated(players, id) && cardID > 0
       case ChooseColor(id, _) => Seated(players, id)
       case Draw(id) => Seated(players, id)
       case Pass(id) => Seated(players, id)
       case _ => false
  }

  ghost function Took(g: Game, turn: Turn): (h: Game)
    requires Inv(g, false) && Permuting(turn.shuffle)
    ensures Inv(h, false)
  {
    InvShape(g, false);
    ApplyInv(g, turn.command, At(turn.shuffle), false);
    Apply(g, turn.command, At(turn.shuffle)).game
  }

  /** These turns, one after the other, end the round. */
  ghost predicate Ends(g: Game, turns: seq<Turn>)
    requires Inv(g, false)
    decreases |turns|
  {
    g.phase == Finished || (turns != [] && TurnOk(g.players, turns[0]) && Ends(Took(g, turns[0]), turns[1..]))
  }

  ghost predicate CanEnd(g: Game)
    requires Inv(g, false)
  {
    exists turns :: Ends(g, turns)
  }

  lemma OneTurn(g: Game, turn: Turn)
    requires Inv(g, false) && TurnOk(g.players, turn)
    ensures CanEnd(Took(g, turn)) ==> CanEnd(g)
  {
    assert Permuting(turn.shuffle);
    hide Inv, TurnOk, Took;
    if CanEnd(Took(g, turn)) {
      var turns :| Ends(Took(g, turn), turns);
      assert Ends(g, [turn] + turns) by { assert ([turn] + turns)[1..] == turns; }
    }
  }

  lemma CanEndNow(g: Game)
    requires Inv(g, false) && g.phase == Finished
    ensures CanEnd(g)
  {
    assert Ends(g, []);
  }

  // ----- Turns -----

  /** A round in play with nothing pending: whoever is on turn may play or draw. */
  ghost predicate Quiet(g: Game) {
    Inv(g, false) && g.phase == Playing && g.pendingDraw == 0
  }

  const KEEP: Shuffle := pile => ShuffleResult(true, pile)

  /** Exchanges two cards. */
  const SWAP: Shuffle := pile => ShuffleResult(true, if |pile| == 2 then [pile[1], pile[0]] else pile)

  lemma ShufflesWork()
    ensures Permuting(KEEP) && NeverFails(KEEP) && Permuting(SWAP) && NeverFails(SWAP)
  {
    forall pile: seq<Card> ensures multiset(SWAP(pile).cards) == multiset(pile) {
      if |pile| == 2 { assert pile == [pile[0]] + [pile[1]]; }
    }
  }

  /** The cards that are in no hand and not on top of the discard pile. */
  function Loose(g: Game): int { |g.drawPile| + |g.discardPile| - 1 }

  /** The player on turn draws a card, if there is one, and plays nothing. */
  ghost predicate DrewAndPassed(g: Game, shuffle: Shuffle, h: Game)
    requires Shape(g) && g.phase != Finished
  {
    var d := DealCards(g.drawPile, g.discardPile, 1, shuffle);
    && d.Dealt? && Quiet(h)
    && h.players == SetHand(g, g.currentSeat, g.players[g.currentSeat].hand + d.drawn).players
    && h.drawPile == d.drawPile && h.discardPile == d.discardPile
    && h.color == g.color && h.direction == g.direction && h.currentSeat == NextSeat(g, g.currentSeat, 1)
  }

  lemma DrawAndPass(g: Game, shuffle: Shuffle) returns (h: Game)
    requires Quiet(g) && Permuting(shuffle) && NeverFails(shuffle)
    ensures Shape(g) && DrewAndPassed(g, shuffle, h) && (CanEnd(h) ==> CanEnd(g))
  {
    h := JustDraw(g, shuffle);
    hide Inv, DealCards, CanEnd, Permuting, NeverFails;
    if h.phase == AwaitingDrawDecision {
      h := JustPass(h, shuffle);
    }
  }

  lemma JustPass(g: Game, shuffle: Shuffle) returns (h: Game)
    requires Inv(g, false) && Shape(g) && g.phase == AwaitingDrawDecision && Permuting(shuffle)
    ensures h == g.(drawnCardID := 0, phase := Playing, currentSeat := NextSeat(g, g.currentSeat, 1))
    ensures Quiet(h) && (CanEnd(h) ==> CanEnd(g))
  {
    CurrentMayAct(g);
    assert g.drawnCardID != 0 && g.pendingDraw == 0;
    var turn := Turn(Pass(CurrentPlayerID(g)), shuffle);
    hide Inv, NextSeat, Permuting;
    OneTurn(g, turn);
    h := Took(g, turn);
  }

  lemma JustDraw(g: Game, shuffle: Shuffle) returns (h: Game)
    requires Quiet(g) && Permuting(shuffle) && NeverFails(shuffle)
    ensures Shape(g) && Inv(h, false) && Shape(h) && (CanEnd(h) ==> CanEnd(g))
    ensures DrawnFrom(g, g.currentSeat, shuffle, h)
  {
    InvShape(g, false);
    CurrentMayAct(g);
    var turn := Turn(Draw(CurrentPlayerID(g)), shuffle);
    DealCount(g.drawPile, g.discardPile, 1, shuffle);
    Drawn(g, g.currentSeat, At(shuffle));
    hide Inv, Permuting, DealCards, DrawOne;
    OneTurn(g, turn);
    h := Took(g, turn);
    InvShape(h, false);
  }

  ghost predicate DrawnFrom(g: Game, seat: nat, shuffle: Shuffle, h: Game)
    requires Shape(g) && seat < |g.players|
  {
    var d := DealCards(g.drawPile, g.discardPile, 1, shuffle);
    && d.Dealt?
    && h.players == SetHand(g, seat, g.players[seat].hand + d.drawn).players
    && h.drawPile == d.drawPile && h.discardPile == d.discardPile
    && h.color == g.color && h.direction == g.direction && h.pendingDraw == 0
    && |d.drawn| <= 1
    && if d.drawn != [] && Playable(g, d.drawn[0]) then
         h.phase == AwaitingDrawDecision && h.drawnCardID == d.drawn[0].id && h.currentSeat == g.currentSeat
       else h.phase == Playing && h.currentSeat == NextSeat(g, seat, 1)
  }

  lemma Drawn(g: Game, seat: nat, env: Env)
    requires Shape(g) && seat < |g.players| && DealCards(g.drawPile, g.discardPile, 1, env.shuffle).Dealt?
    requires g.phase == Playing && g.pendingDraw == 0 && seat == g.currentSeat
    ensures DrawnFrom(g, seat, env.shuffle, DrawOne(g, seat, env).game)
  {
    DealOne(g.drawPile, g.discardPile, env.shuffle);
    hide Playable, DealCards, NextSeat;
    var d := DealCards(g.drawPile, g.discardPile, 1, env.shuffle);
    if d.drawn == [] {
      assert g.players[seat].hand + d.drawn == g.players[seat].hand;
      assert SetHand(g, seat, g.players[seat].hand).players == g.players;
    } else {
      assert d.drawn == [d.drawn[0]];
    }
  }

  // ----- Playing a card -----

  /** The player on turn may play the card at this place in his hand. */
  ghost predicate MayPlay(g: Game, index: nat)
    requires Shape(g)
  {
    && (g.phase == Playing || g.phase == AwaitingDrawDecision) && g.pendingDraw == 0
    && 0 <= g.currentSeat < |g.players| && index < |g.players[g.currentSeat].hand|
    && PlayCheck(g, CurrentPlayerID(g), g.players[g.currentSeat].hand[index].id) == Ok((g.currentSeat as nat, index))
  }

  /** A card was played, and the wish uttered if it was a wild one. */
  ghost predicate PlayedOut(g: Game, index: nat, wish: Color, h: Game)
    requires Shape(g) && MayPlay(g, index)
  {
    var seat, card := g.currentSeat, g.players[g.currentSeat].hand[index];
    var rest := RemoveAt(g.players[seat].hand, index);
    && h.players == SetHand(g, seat, rest).players && h.drawPile == g.drawPile && h.discardPile == g.discardPile + [card]
    && (rest == [] ==> seat in h.candidates)
    && if rest == [] && card.Penalty() == 0 then h.phase == Finished
       else
         && h.phase == Playing && h.pendingDraw == card.Penalty()
         && h.color == (if card.IsWild() then wish else card.color)
         && (card.IsWild() || card.Penalty() > 0 ==> h.currentSeat == NextSeat(g, seat, 1))
  }

  lemma PlayOut(g: Game, index: nat, wish: Color) returns (h: Game)
    requires Inv(g, false) && Shape(g) && MayPlay(g, index) && wish.Valid()
    ensures Inv(h, false) && PlayedOut(g, index, wish, h) && (CanEnd(h) ==> CanEnd(g))
  {
    assert g.candidates == [];
    hide Inv, MayPlay, PlayedOut;
    h := PutDown(g, index);
    if g.players[g.currentSeat].hand[index].IsWild() {
      WildPlayed(g, index, At(KEEP));
      WildChosen(g, index, wish, At(KEEP));
      h := Wish(h, wish);
    } else {
      ColoredPlayed(g, index, wish, At(KEEP));
    }
  }

  lemma PutDown(g: Game, index: nat) returns (h: Game)
    requires Inv(g, false) && Shape(g) && MayPlay(g, index)
    ensures g.players[g.currentSeat].id == CurrentPlayerID(g)
    ensures h == PlayCard(g, CurrentPlayerID(g), g.players[g.currentSeat].hand[index].id, true, At(KEEP)).game
    ensures Inv(h, false) && Shape(h) && (CanEnd(h) ==> CanEnd(g))
  {
    ShufflesWork();
    var turn := Turn(Play(CurrentPlayerID(g), g.players[g.currentSeat].hand[index].id, true), KEEP);
    CardIsCanonical(g, g.currentSeat, index);
    hide Inv, Permuting, NeverFails, PlayCheck, PlayCard, IsCanonical;
    OneTurn(g, turn);
    h := Took(g, turn);
    InvShape(h, false);
  }

  lemma Wish(g: Game, wish: Color) returns (h: Game)
    requires Inv(g, false) && Shape(g) && 0 <= g.currentSeat < |g.players|
    ensures h == PickColor(g, CurrentPlayerID(g), wish).game
    ensures Inv(h, false) && (CanEnd(h) ==> CanEnd(g))
  {
    ShufflesWork();
    var turn := Turn(ChooseColor(CurrentPlayerID(g), wish), KEEP);
    hide Inv, Permuting, NeverFails, PickColor;
    OneTurn(g, turn);
    h := Took(g, turn);
  }

  lemma WildPlayed(g: Game, index: nat, env: Env)
    requires Shape(g) && MayPlay(g, index) && g.players[g.currentSeat].hand[index].IsWild()
    ensures var seat, card := g.currentSeat, g.players[g.currentSeat].hand[index];
            PlayCard(g, CurrentPlayerID(g), card.id, true, env).game
            == Discarded(g, seat, index, true, env).(color := NoColor, phase := AwaitingColor,
            pendingColor := Some(PendingColor(seat, card, false)))
  {
    hide PlayCheck, Discarded;
  }

  /** The effect of the card on a table on which nobody was out yet. */
  lemma Effected(d: Game, seat: nat, card: Card)
    requires Shape(d) && d.phase == Playing && d.pendingDraw == 0 && seat < |d.players|
    requires d.candidates == if d.players[seat].hand == [] then [seat] else []
    ensures var h := ApplyCardEffect(d, seat, card);
            && h.players == d.players && h.drawPile == d.drawPile && h.discardPile == d.discardPile
            && (d.players[seat].hand == [] ==> seat in h.candidates)
            && if d.players[seat].hand == [] && card.Penalty() == 0 then h.phase == Finished
               else
                 && h.phase == Playing && h.pendingDraw == card.Penalty() && h.color == d.color
                 && (card.IsWild() || card.Penalty() > 0 ==> h.currentSeat == NextSeat(d, seat, 1))
  {
    var t := Turned(d, seat, card);
    TurnedOnly(d, seat, card);
    assert StillEmpty(t.players, t.candidates) == d.candidates;
    hide Turned, NextSeat;
  }

  lemma TurnedOnly(d: Game, seat: nat, card: Card)
    requires Shape(d) && d.pendingDraw == 0
    ensures var t := Turned(d, seat, card);
            && t == d.(phase := Playing, direction := t.direction, pendingDraw := card.Penalty(), currentSeat := t.currentSeat)
            && (card.IsWild() || card.Penalty() > 0 ==> t.currentSeat == NextSeat(d, seat, 1))
  {
    hide NextSeat;
    TurnOrder.SameCircle(d.(phase := Playing), d, seat, 1);
  }

  lemma ColoredPlayed(g: Game, index: nat, wish: Color, env: Env)
    requires Shape(g) && MayPlay(g, index) && g.candidates == [] && !g.players[g.currentSeat].hand[index].IsWild()
    ensures PlayedOut(g, index, wish, PlayCard(g, CurrentPlayerID(g), g.players[g.currentSeat].hand[index].id, true, env).game)
  {
    var seat, card := g.currentSeat, g.players[g.currentSeat].hand[index];
    var d := Discarded(g, seat, index, true, env).(color := card.color);
    hide PlayCheck, NextSeat, ApplyCardEffect;
    EffectAnyPhase(d, seat, card);
    Effected(d.(phase := Playing), seat, card);
    TurnOrder.SameCircle(d.(phase := Playing), g, seat, 1);
  }

  lemma EffectAnyPhase(d: Game, seat: nat, card: Card)
    requires Shape(d) && SeatsBelow(d.candidates, |d.players|)
    ensures ApplyCardEffect(d, seat, card) == ApplyCardEffect(d.(phase := Playing), seat, card)
  {
    hide FinishIfResolved;
    assert NextSeat(d.(phase := Playing), seat, 1) == NextSeat(d, seat, 1);
  }

  lemma WildChosen(g: Game, index: nat, wish: Color, env: Env)
    requires Shape(g) && MayPlay(g, index) && g.candidates == [] && g.players[g.currentSeat].hand[index].IsWild() && wish.Valid()
    requires Shape(PlayCard(g, CurrentPlayerID(g), g.players[g.currentSeat].hand[index].id, true, env).game)
    ensures var asked := PlayCard(g, CurrentPlayerID(g), g.players[g.currentSeat].hand[index].id, true, env).game;
            PlayedOut(g, index, wish, PickColor(asked, CurrentPlayerID(g), wish).game)
  {
    var seat, card := g.currentSeat, g.players[g.currentSeat].hand[index];
    WildPlayed(g, index, env);
    hide PlayCheck, PlayCard, NextSeat, ApplyCardEffect;
    var asked := PlayCard(g, CurrentPlayerID(g), g.players[g.currentSeat].hand[index].id, true, env).game;
    var d := asked.(color := wish, pendingColor := None, phase := Playing);
    Effected(d, seat, card);
    TurnOrder.SameCircle(d, g, seat, 1);
  }

  // ----- Paying and waiting -----

  /** The player on turn takes what is owed. Another player who is out has won. */
  lemma Pay(g: Game, p: nat) returns (h: Game)
    requires Inv(g, false) && g.phase == Playing && g.pendingDraw > 0 && p < |g.players| && p != g.currentSeat
    ensures Inv(h, false) && (CanEnd(h) ==> CanEnd(g))
    ensures h.phase == Finished || (Quiet(h) && |h.players| == |g.players| && h.players[p] == g.players[p])
    ensures h.phase == Finished || Loose(h) == if Loose(g) <= g.pendingDraw then 0 else Loose(g) - g.pendingDraw
    ensures p in g.candidates && g.players[p].hand == [] ==> h.phase == Finished
  {
    InvShape(g, false);
    ShufflesWork();
    CurrentMayAct(g);
    var turn := Turn(Draw(CurrentPlayerID(g)), KEEP);
    PaidUp(g, p, At(KEEP));
    hide Inv, Permuting, NeverFails, DrawCard;
    OneTurn(g, turn);
    h := Took(g, turn);
  }

  lemma PaidUp(g: Game, p: nat, env: Env)
    requires Inv(g, false) && Shape(g) && g.phase == Playing && g.pendingDraw > 0 && p < |g.players| && p != g.currentSeat
    requires Permuting(env.shuffle) && NeverFails(env.shuffle) && CurrentPlayer(g, CurrentPlayerID(g)) == Ok(g.currentSeat as nat)
    ensures var h := DrawCard(g, CurrentPlayerID(g), env).game;
            && (h.phase == Finished
                || (h.phase == Playing && h.pendingDraw == 0 && |h.players| == |g.players| && h.players[p] == g.players[p]
                    && Loose(h) == if Loose(g) <= g.pendingDraw then 0 else Loose(g) - g.pendingDraw))
            && (p in g.candidates && g.players[p].hand == [] ==> h.phase == Finished)
  {
    hide Inv, DealCards, Permuting, NeverFails, NextSeat, DrawCardsTo, FinishIfResolved;
    var seat := g.currentSeat;
    DealtTo(g, seat, p, env.shuffle);
    Resolved(DrawCardsTo(g, seat, g.pendingDraw, env.shuffle).value.0.(pendingDraw := 0, currentSeat := NextSeat(g, seat, 1)), p);
  }

  lemma DealtTo(g: Game, seat: nat, p: nat, shuffle: Shuffle)
    requires Shape(g) && seat < |g.players| && p < |g.players| && p != seat && g.pendingDraw > 0
    requires Permuting(shuffle) && NeverFails(shuffle)
    ensures var dealt := DrawCardsTo(g, seat, g.pendingDraw, shuffle);
            && dealt.Some?
            && var d := dealt.value.0;
               && d.phase == g.phase && |d.players| == |g.players| && d.players[p] == g.players[p]
               && SeatsBelow(d.candidates, |d.players|) && (p in g.candidates ==> p in d.candidates)
               && Loose(d) == if Loose(g) <= g.pendingDraw then 0 else Loose(g) - g.pendingDraw
  {
    DealCount(g.drawPile, g.discardPile, g.pendingDraw, shuffle);
    DealConserves(g.drawPile, g.discardPile, g.pendingDraw, shuffle);
    DealtSizes(DealCards(g.drawPile, g.discardPile, g.pendingDraw, shuffle), g.drawPile, g.discardPile);
    WithoutMembers(g.candidates, seat);
    hide DealCards, Permuting, NeverFails, Without;
  }

  /** Settling what is pending ends the round for a candidate without cards, or changes no hand and no pile. */
  lemma Resolved(d: Game, p: nat)
    requires SeatsBelow(d.candidates, |d.players|) && d.phase == Playing && d.pendingDraw == 0
    ensures var h := FinishIfResolved(d);
            && (h.phase == Finished || h == d.(candidates := []))
            && (p in d.candidates && d.players[p].hand == [] ==> h.phase == Finished)
  {
    StillEmptyMembers(d.players, d.candidates);
    hide StillEmpty;
  }

  lemma DealtSizes(deal: Deal, drawPile: seq<Card>, discardPile: seq<Card>)
    requires deal.Dealt?
    requires multiset(deal.drawn) + multiset(deal.drawPile) + multiset(deal.discardPile)
             == multiset(drawPile) + multiset(discardPile)
    ensures |deal.drawn| + |deal.drawPile| + |deal.discardPile| == |drawPile| + |discardPile|
  {
    assert |multiset(deal.drawn) + multiset(deal.drawPile) + multiset(deal.discardPile)|
        == |multiset(deal.drawn)| + |multiset(deal.drawPile)| + |multiset(deal.discardPile)|;
    assert |multiset(drawPile) + multiset(discardPile)| == |multiset(drawPile)| + |multiset(discardPile)|;
  }

  /** Few cards lie on the table. */
  predicate Tidy(g: Game) { |g.drawPile| <= 1 && 1 <= |g.discardPile| <= 2 }

  lemma OneDealt(g: Game, shuffle: Shuffle)
    requires Shape(g) && Permuting(shuffle) && NeverFails(shuffle)
    ensures var d := DealCards(g.drawPile, g.discardPile, 1, shuffle);
            && d.Dealt? && |d.discardPile| > 0 && d.discardPile[|d.discardPile| - 1] == Top(g)
            && |d.drawPile| + |d.discardPile| - 1 == (if Loose(g) == 0 then 0 else Loose(g) - 1)
            && (Loose(g) == 0 ==> d == Dealt([], [], g.discardPile))
            && (Tidy(g) ==> d.drawPile == [] && |d.discardPile| <= 2)
  {
    DealOne(g.drawPile, g.discardPile, shuffle);
    DealCount(g.drawPile, g.discardPile, 1, shuffle);
    DealConserves(g.drawPile, g.discardPile, 1, shuffle);
    DealtSizes(DealCards(g.drawPile, g.discardPile, 1, shuffle), g.drawPile, g.discardPile);
    hide DealCards, Permuting, NeverFails;
  }

  /** Nobody touched this seat; the top and the colour are as they were. */
  ghost predicate Waited(g: Game, p: nat, h: Game)
    requires Shape(g) && p < |g.players|
  {
    && Quiet(h) && Shape(h) && |h.players| == |g.players| && h.players[p] == g.players[p]
    && Top(h) == Top(g) && h.color == g.color && Loose(h) <= Loose(g)
    && (Tidy(g) ==> Tidy(h))
  }

  lemma WaitedThrough(g: Game, p: nat, h: Game, k: Game)
    requires Shape(g) && p < |g.players| && Waited(g, p, h) && Waited(h, p, k)
    ensures Waited(g, p, k)
  {
    hide Quiet, Shape;
  }

  /** Somebody else draws and passes. */
  lemma OneWaited(g: Game, p: nat, shuffle: Shuffle) returns (h: Game)
    requires Quiet(g) && p < |g.players| && p != g.currentSeat && Permuting(shuffle) && NeverFails(shuffle)
    ensures Shape(g) && Waited(g, p, h) && (CanEnd(h) ==> CanEnd(g))
    ensures Loose(h) == if Loose(g) == 0 then 0 else Loose(g) - 1
    ensures Tidy(g) ==> h.drawPile == []
    ensures Loose(g) == 0 ==> h.players == g.players && h.discardPile == g.discardPile
    ensures h.currentSeat == NextSeat(g, g.currentSeat, 1) && h.direction == g.direction
    ensures var d := DealCards(g.drawPile, g.discardPile, 1, shuffle);
            d.Dealt? && h.drawPile == d.drawPile && h.discardPile == d.discardPile
  {
    hide Inv, Permuting, NeverFails, DealCards, NextSeat, CanEnd, Shape;
    TableSeat(g);
    h := DrawAndPass(g, shuffle);
    InvShape(h, false);
    OneDealt(g, shuffle);
    hide Quiet;
    var seat, drawn := g.currentSeat, DealCards(g.drawPile, g.discardPile, 1, shuffle).drawn;
    OneHand(g, seat, drawn, p);
    assert Waited(g, p, h);
  }

  lemma TableSeat(g: Game)
    requires Quiet(g)
    ensures Shape(g) && 0 <= g.currentSeat < |g.players|
  {
    InvShape(g, false);
  }

  lemma OneHand(g: Game, seat: nat, drawn: seq<Card>, p: nat)
    requires seat < |g.players| && p < |g.players| && p != seat
    ensures var players := SetHand(g, seat, g.players[seat].hand + drawn).players;
            && |players| == |g.players| && players[p] == g.players[p] && (drawn == [] ==> players == g.players)
  {
    if drawn == [] { assert g.players[seat].hand + drawn == g.players[seat].hand; }
  }

  lemma OneStepNearer(g: Game, h: Game, p: nat, k: nat)
    requires TurnOrder.AtTable(g, g.currentSeat) && 0 < k < |g.players| && NextSeat(g, g.currentSeat, k) == p
    requires |h.players| == |g.players| && h.direction == g.direction && h.currentSeat == NextSeat(g, g.currentSeat, 1)
    ensures NextSeat(h, h.currentSeat, k - 1) == p && TurnOrder.AtTable(h, h.currentSeat)
  {
    TurnOrder.FewSteps(g, g.currentSeat, k);
    TurnOrder.FewSteps(g, g.currentSeat, 1);
    TurnOrder.FewSteps(h, h.currentSeat, k - 1);
    hide NextSeat;
  }

  lemma {:induction false} WaitSteps(g: Game, p: nat, k: nat) returns (h: Game)
    requires Quiet(g) && p < |g.players| && k < |g.players|
    requires TurnOrder.AtTable(g, g.currentSeat) && NextSeat(g, g.currentSeat, k) == p
    ensures Shape(g) && Waited(g, p, h) && h.currentSeat == p && (CanEnd(h) ==> CanEnd(g))
    ensures Loose(g) == 0 ==> h.players == g.players && h.discardPile == g.discardPile
    ensures Tidy(g) && (g.currentSeat == p ==> g.drawPile == []) ==> h.drawPile == []
    decreases k
  {
    hide Inv, Permuting, NeverFails, NextSeat, Waited, CanEnd, DealCards;
    InvShape(g, false);
    if g.currentSeat == p {
      h := g;
      SelfWaited(g, p);
    } else {
      ShufflesWork();
      TurnOrder.FewSteps(g, g.currentSeat, 0);
      var one := OneWaited(g, p, KEEP);
      WaitedIs(g, p, one);
      OneStepNearer(g, one, p, k);
      h := WaitSteps(one, p, k - 1);
      WaitedThrough(g, p, one, h);
    }
  }

  lemma SelfWaited(g: Game, p: nat)
    requires Quiet(g) && Shape(g) && p < |g.players|
    ensures Waited(g, p, g)
  {
    hide Quiet, Shape;
  }

  lemma WaitedIs(g: Game, p: nat, h: Game)
    requires Shape(g) && p < |g.players| && Waited(g, p, h)
    ensures Quiet(h) && Shape(h) && |h.players| == |g.players| && (Tidy(g) ==> Tidy(h))
  {
    hide Inv, Shape;
  }

  /** Everybody draws and passes until it is this player's turn. */
  lemma WaitFor(g: Game, p: nat) returns (h: Game)
    requires Quiet(g) && p < |g.players|
    ensures Shape(g) && Waited(g, p, h) && h.currentSeat == p && (CanEnd(h) ==> CanEnd(g))
    ensures Loose(g) == 0 ==> h.players == g.players && h.discardPile == g.discardPile
    ensures Tidy(g) && (g.currentSeat == p ==> g.drawPile == []) ==> h.drawPile == []
  {
    var k := TurnOrder.EverybodyOncePerRound(g, g.currentSeat, p);
    h := WaitSteps(g, p, k);
  }

  // ----- The way to the end -----

  /** No card lies on the table but the discard top. */
  ghost predicate Drained(g: Game) { Quiet(g) && Loose(g) == 0 }

  lemma {:induction false} Drain(g: Game) returns (h: Game)
    requires Quiet(g)
    ensures Drained(h) && (CanEnd(h) ==> CanEnd(g))
    decreases Loose(g)
  {
    hide Inv, Permuting, NeverFails, NextSeat, CanEnd, DealCards;
    TableSeat(g);
    h := g;
    if Loose(g) > 0 {
      ShufflesWork();
      OneDealt(g, KEEP);
      h := DrawAndPass(g, KEEP);
      h := Drain(h);
    }
  }

  lemma {:induction false} InSomeHand(players: seq<Player>, card: Card) returns (seat: nat)
    requires card in HandBag(players)
    ensures seat < |players| && card in players[seat].hand
  {
    if card in players[0].hand { seat := 0; } else { seat := InSomeHand(players[1..], card); seat := seat + 1; }
  }

  /** Four plain wild cards, of which one may be on top: somebody holds one. */
  lemma WildHeld(g: Game) returns (seat: nat, index: nat)
    requires Drained(g)
    ensures seat < |g.players| && index < |g.players[seat].hand|
    ensures var hand := g.players[seat].hand; hand[index].kind == Wild && CardIndex(hand, hand[index].id) == Some(index)
  {
    InvShape(g, false);
    assert Conserved(g);
    var card := if Top(g) == CanonicalCard(101) then CanonicalCard(103) else CanonicalCard(101);
    assert g.drawPile == [] && g.discardPile == [Top(g)];
    StandardDeckDistinct();
    assert card in StandardDeck();
    assert card in multiset(StandardDeck());
    seat := InSomeHand(g.players, card);
    index := CardIndex(g.players[seat].hand, card.id).value;
    CardIsCanonical(g, seat, index);
  }

  /** The colour to ask for on behalf of a hand. */
  function GoodColor(hand: seq<Card>): (color: Color)
    ensures color.Valid()
  {
    if hand != [] && hand[0].color.Valid() then hand[0].color else Red
  }

  /** A player on turn with a wild card on top and a card that goes on it; at most one card lies buried. */
  ghost predicate Ready(g: Game, p: nat) {
    && Quiet(g) && Shape(g) && p < |g.players| && g.currentSeat == p
    && g.drawPile == [] && |g.discardPile| <= 2 && Top(g).kind == Wild
    && g.players[p].hand != [] && Playable(g, g.players[p].hand[0])
  }

  /** The round is over, or the player is ready with no more cards than this. */
  ghost predicate OverOrReady(h: Game, p: nat, most: nat) {
    h.phase == Finished || (Ready(h, p) && |h.players[p].hand| <= most)
  }

  /** A wild card was played in this player's favour: when his turn comes he is ready. */
  lemma Favoured(g: Game, p: nat) returns (h: Game)
    requires Quiet(g) && Shape(g) && Tidy(g) && Top(g).kind == Wild && p < |g.players| && g.players[p].hand != []
    requires g.color == GoodColor(g.players[p].hand) && (g.currentSeat == p ==> g.drawPile == [])
    ensures Ready(h, p) && h.players[p] == g.players[p] && (CanEnd(h) ==> CanEnd(g))
  {
    h := WaitFor(g, p);
    CardIsCanonical(g, p, 0);
    CanonicalIsValid(g.players[p].hand[0].id);
    hide Inv, CanEnd;
  }

  /** From the drained table somebody plays a wild card for this player. */
  lemma Raise(g: Game, p: nat) returns (h: Game)
    requires Drained(g) && p < |g.players| && g.players[p].hand != []
    ensures Inv(h, false) && (CanEnd(h) ==> CanEnd(g)) && OverOrReady(h, p, |g.players[p].hand|)
  {
    var seat, index := WildHeld(g);
    hide Inv, CanEnd, PlayCheck;
    var turn := WaitFor(g, seat);
    PlayableNow(turn, index);
    var rest := RemoveAt(turn.players[seat].hand, index);
    var wish := GoodColor(SetHand(turn, seat, rest).players[p].hand);
    h := PlayOut(turn, index, wish);
    if h.phase != Finished {
      InvShape(h, false);
      h := Favoured(h, p);
    }
  }

  lemma PlayableNow(g: Game, index: nat)
    requires Quiet(g) && Shape(g) && index < |g.players[g.currentSeat].hand|
    requires var hand := g.players[g.currentSeat].hand;
             Playable(g, hand[index]) && CardIndex(hand, hand[index].id) == Some(index)
    ensures MayPlay(g, index)
  {
    CurrentMayAct(g);
    hide Inv, Playable;
  }

  /** The player on turn draws a plain wild card and plays it in his own favour. */
  lemma PlayDrawn(g: Game, p: nat, wild: Card, other: Card, shuffle: Shuffle) returns (h: Game)
    requires Quiet(g) && Shape(g) && g.currentSeat == p < |g.players| && g.players[p].hand != []
    requires Permuting(shuffle) && NeverFails(shuffle) && wild.kind == Wild
    requires var d := DealCards(g.drawPile, g.discardPile, 1, shuffle);
             d.Dealt? && d.drawn == [wild] && |d.drawPile| <= 1 && d.discardPile == [other]
    ensures Inv(h, false) && (CanEnd(h) ==> CanEnd(g)) && OverOrReady(h, p, |g.players[p].hand|)
  {
    assert |g.players| <= 6;
    hide Inv, CanEnd, MayPlay, Permuting, NeverFails, DealCards, Shape;
    var drawn := JustDraw(g, shuffle);
    var index := DrawnMayBePlayed(drawn, p, wild);
    h := PlayForHimself(drawn, p, index);
  }

  /** With more than one card in hand the player on turn plays a plain wild card in his own favour. */
  lemma PlayForHimself(g: Game, p: nat, index: nat) returns (h: Game)
    requires Inv(g, false) && Shape(g) && MayPlay(g, index) && |g.players| <= 6 && g.phase != Finished
    requires g.currentSeat == p < |g.players| && |g.players[p].hand| > 1 && g.players[p].hand[index].kind == Wild
    requires |g.drawPile| <= 1 && |g.discardPile| == 1
    ensures Inv(h, false) && (CanEnd(h) ==> CanEnd(g)) && OverOrReady(h, p, |g.players[p].hand| - 1)
  {
    hide Inv, CanEnd, PlayCheck, NextSeat;
    h := PlayOut(g, index, GoodColor(RemoveAt(g.players[p].hand, index)));
    InvShape(h, false);
    NextIsAnother(g);
    h := Favoured(h, p);
  }

  lemma DrawnMayBePlayed(g: Game, p: nat, wild: Card) returns (index: nat)
    requires Inv(g, false) && Shape(g) && g.phase == AwaitingDrawDecision && g.pendingDraw == 0
    requires g.currentSeat == p < |g.players| && wild in g.players[p].hand && wild.id == g.drawnCardID && wild.kind == Wild
    ensures MayPlay(g, index) && g.players[p].hand[index].kind == Wild
  {
    CurrentMayAct(g);
    index := CardIndex(g.players[p].hand, wild.id).value;
    var i :| 0 <= i < |g.players[p].hand| && g.players[p].hand[i] == wild;
    SameIDSameCard(g, p, i, index);
    hide Inv;
  }

  /** A ready player has played a card that nothing is owed for. */
  ghost predicate CardDown(g: Game, p: nat) {
    && Quiet(g) && Shape(g) && p < |g.players| && g.players[p].hand != []
    && g.drawPile == [] && 2 <= |g.discardPile| <= 3 && g.discardPile[|g.discardPile| - 2].kind == Wild
  }

  /** The buried wild card comes back to him, or to somebody else on the drained table. */
  lemma Regroup(g: Game, p: nat) returns (h: Game)
    requires CardDown(g, p)
    ensures Inv(h, false) && (CanEnd(h) ==> CanEnd(g)) && OverOrReady(h, p, |g.players[p].hand|)
  {
    ShufflesWork();
    hide Inv, CanEnd, Permuting, NeverFails, NextSeat, DealCards;
    if g.currentSeat == p {
      BuriedWild(g.discardPile);
      h := PlayDrawn(g, p, g.discardPile[|g.discardPile| - 2], Top(g), KEEP);
    } else if |g.discardPile| == 2 {
      h := OneWaited(g, p, KEEP);
      h := Raise(h, p);
    } else {
      h := RegroupThree(g, p);
    }
  }

  lemma BuriedWild(discardPile: seq<Card>)
    requires 2 <= |discardPile| <= 3
    ensures var d := DealCards([], discardPile, 1, KEEP);
            d.Dealt? && d.drawn == [discardPile[|discardPile| - 2]] && |d.drawPile| <= 1
            && d.discardPile == [discardPile[|discardPile| - 1]]
  {
    DealOne([], discardPile, KEEP);
    hide DealCards;
  }

  /** Two cards lie buried: the next player gets the other one. */
  lemma RegroupThree(g: Game, p: nat) returns (h: Game)
    requires CardDown(g, p) && g.currentSeat != p && |g.discardPile| == 3
    ensures Inv(h, false) && (CanEnd(h) ==> CanEnd(g)) && OverOrReady(h, p, |g.players[p].hand|)
  {
    ShufflesWork();
    hide Inv, CanEnd, Permuting, NeverFails, NextSeat, DealCards;
    var wild, top := g.discardPile[1], g.discardPile[2];
    WildLeft(g.discardPile);
    var one := OneWaited(g, p, SWAP);
    assert one.drawPile == [wild] && one.discardPile == [top];
    if one.currentSeat == p {
      h := PlayDrawn(one, p, wild, top, KEEP);
    } else {
      h := OneWaited(one, p, KEEP);
      h := Raise(h, p);
    }
  }

  lemma WildLeft(discardPile: seq<Card>)
    requires |discardPile| == 3
    ensures var d := DealCards([], discardPile, 1, SWAP);
            d.Dealt? && d.drawPile == [discardPile[1]] && d.discardPile == [discardPile[2]]
    ensures DealCards([discardPile[1]], [discardPile[2]], 1, KEEP) == Dealt([discardPile[1]], [], [discardPile[2]])
  {
    DealOne([], discardPile, SWAP);
    DealOne([discardPile[1]], [discardPile[2]], KEEP);
    hide DealCards;
  }

  /** A ready player plays one card, and is ready again with fewer, or the round is over. */
  lemma PlayOne(g: Game, p: nat) returns (h: Game)
    requires Ready(g, p)
    ensures Inv(h, false) && (CanEnd(h) ==> CanEnd(g)) && OverOrReady(h, p, |g.players[p].hand| - 1)
  {
    var hand := g.players[p].hand;
    PlayableNow(g, 0);
    assert |g.players| <= 6;
    hide Inv, CanEnd, PlayCheck, Playable, NextSeat;
    var down := PlayOut(g, 0, Red);
    assert RemoveAt(hand, 0) == hand[1..];
    if down.phase == Finished {
      h := down;
    } else {
      InvShape(down, false);
      if down.pendingDraw > 0 {
        NextIsAnother(g);
        h := Pay(down, p);
        if h.phase != Finished { h := Raise(h, p); }
      } else {
        assert CardDown(down, p);
        h := Regroup(down, p);
      }
    }
  }

  lemma {:induction false} PlayDown(g: Game, p: nat)
    requires Ready(g, p)
    ensures CanEnd(g)
    decreases |g.players[p].hand|
  {
    hide Quiet, CanEnd, Playable;
    var h := PlayOne(g, p);
    if h.phase == Finished { CanEndNow(h); } else { PlayDown(h, p); }
  }

  /** What is pending is settled first: a colour is chosen, a decision made, a penalty taken. */
  lemma Quieten(g: Game) returns (h: Game)
    requires Inv(g, false) && g.phase != Finished
    ensures Inv(h, false) && (CanEnd(h) ==> CanEnd(g)) && (h.phase == Finished || Quiet(h))
  {
    ShufflesWork();
    InvShape(g, false);
    if g.phase == AwaitingColor {
      h := Choose(g);
    } else if g.phase == AwaitingDrawDecision {
      h := JustPass(g, KEEP);
    } else {
      h := Settle(g);
    }
  }

  lemma Settle(g: Game) returns (h: Game)
    requires Inv(g, false) && g.phase == Playing
    ensures Inv(h, false) && (CanEnd(h) ==> CanEnd(g)) && (h.phase == Finished || Quiet(h))
  {
    InvShape(g, false);
    assert g.pendingDraw >= 0 && |g.players| <= 6;
    hide Inv, CanEnd;
    h := g;
    if g.pendingDraw > 0 {
      NextIsAnother(g);
      NextSeatInRange(g, g.currentSeat, 1);
      h := Pay(g, NextSeat(g, g.currentSeat, 1));
    }
  }

  lemma Choose(g: Game) returns (h: Game)
    requires Inv(g, false) && Shape(g) && g.phase == AwaitingColor
    ensures Inv(h, false) && (CanEnd(h) ==> CanEnd(g)) && (h.phase == Finished || Quiet(h))
  {
    ChooserIsCurrent(g);
    var id := CurrentPlayerID(g);
    assert id == ColorChooserID(g);
    PickDone(g, id, Red);
    assert 0 <= g.currentSeat < |g.players|;
    hide Inv, CanEnd, PickColor, ColorChooserID;
    h := Wish(g, Red);
    if h.phase == Playing { h := Settle(h); }
  }

  /** No dead end: from every state a game can be in - dealt and played, or restored from a snapshot that is no dead opening -
      the players can bring the round to its end. */
  lemma EveryRoundCanEnd(g: Game)
    requires Inv(g, false)
    ensures CanEnd(g)
  {
    hide CanEnd, Quiet, Inv;
    if g.phase == Finished { CanEndNow(g); } else {
      var quiet := Quieten(g);
      if quiet.phase == Finished { CanEndNow(quiet); } else {
        var drained := Drain(quiet);
        var p, _ := WildHeld(drained);
        var h := Raise(drained, p);
        if h.phase == Finished { CanEndNow(h); } else { PlayDown(h, p); }
      }
    }
  }
}
