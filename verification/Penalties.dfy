/** Penalty chains: what is owed is what the chain's own cards add up to. */
module Penalties {
  import opened Wrappers
  import opened Cards
  import opened Piles
  import opened Rules
  import opened Invariant
  import opened Preservation
  import opened Setup
  import opened Runs

  /** The penalty cards played one on another since somebody last took the penalty; `intact` until a caught
      player's penalty makes the discard pile be recycled under them. */
  datatype Chain = Chain(length: nat, intact: bool)

  /** A chain as an observer of the commands counts it. */
  function NextChain(c: Chain, g: Game, command: Command, env: Env): Chain
    requires Shape(g)
  {
    var outcome := Apply(g, command, env);
    match command
    case Play(_, cardID, _) =>
      if outcome.reply.Failed? then c
      else if |outcome.game.discardPile| > 0 && Top(outcome.game).IsDrawPenalty() then
        Chain(c.length + 1, c.intact)
      else Chain(0, true)
    case Draw(_) => if outcome.reply.Drew? && outcome.reply.draw.penalty then Chain(0, true) else c
    case CatchUNO(_, _) =>
      if |outcome.game.discardPile| < |g.discardPile| && c.length > 1 then Chain(c.length, false) else c
    case _ => c
  }

  /** A wild draw four counts from the moment it is played, but is owed only once its colour is chosen. */
  function NotYetOwed(g: Game): int
    requires |g.discardPile| > 0
  {
    if g.phase == AwaitingColor then Top(g).Penalty() else 0
  }

  function Suffix(pile: seq<Card>, k: nat): seq<Card>
    requires k <= |pile|
  {
    pile[|pile| - k..]
  }

  ghost predicate AllPenalties(cards: seq<Card>) {
    forall i :: 0 <= i < |cards| ==> cards[i].IsDrawPenalty()
  }

  ghost predicate Owed(discardPile: seq<Card>, c: Chain, owed: int) {
    if c.intact then
      c.length <= |discardPile| && AllPenalties(Suffix(discardPile, c.length))
      && owed == SumBy(PENALTY, Suffix(discardPile, c.length))
    else c.length > 1
  }

  ghost predicate ChainInv(g: Game, c: Chain)
    requires |g.discardPile| > 0
  {
    && Owed(g.discardPile, c, g.pendingDraw + NotYetOwed(g))
    && (!c.intact ==> g.pendingDraw > 0)
  }

  lemma {:induction false} PenaltiesAddUp(cards: seq<Card>)
    requires AllPenalties(cards)
    ensures SumBy(PENALTY, cards) >= 2 * |cards|
  {
    if cards != [] {
      PenaltiesAddUp(cards[1..]);
    }
  }

  /** Outside a colour choice a chain is running exactly when cards are owed. */
  lemma ChainRunning(g: Game, c: Chain)
    requires |g.discardPile| > 0 && ChainInv(g, c) && g.phase != AwaitingColor
    ensures c.length > 0 <==> g.pendingDraw > 0
  {
    if c.intact {
      PenaltiesAddUp(Suffix(g.discardPile, c.length));
    }
  }

  lemma SuffixGrows(pile: seq<Card>, card: Card, c: Chain, owed: int)
    requires Owed(pile, c, owed) && card.IsDrawPenalty()
    ensures Owed(pile + [card], Chain(c.length + 1, c.intact), owed + card.Penalty())
  {
    if c.intact {
      assert Suffix(pile + [card], c.length + 1) == Suffix(pile, c.length) + [card];
      SumByAppend(PENALTY, Suffix(pile, c.length), [card]);
    }
  }

  /** What settling and a card's effect do to the debt. */
  lemma EffectOwed(g: Game, seat: int, card: Card)
    requires |g.players| > 0 && SeatsBelow(g.candidates, |g.players|) && g.pendingDraw >= 0
    ensures var g' := ApplyCardEffect(g, seat, card);
            && g'.discardPile == g.discardPile
            && g'.phase != AwaitingColor
            && g'.pendingDraw == g.pendingDraw + card.Penalty()
  {
    var t := Turned(g, seat, card);
    assert t.discardPile == g.discardPile && t.phase == Playing && t.pendingDraw == g.pendingDraw + card.Penalty();
    hide Turned;
    SettledOwed(t);
  }

  lemma SettledOwed(g: Game)
    requires SeatsBelow(g.candidates, |g.players|) && g.phase == Playing && g.pendingDraw >= 0
    ensures var g' := FinishIfResolved(g);
            g'.discardPile == g.discardPile && g'.phase != AwaitingColor && g'.pendingDraw == g.pendingDraw
  {
  }

  lemma PlayChain(g: Game, c: Chain, playerID: int, cardID: int, sayUNO: bool, env: Env)
    requires Inv(g, true) && EnvOk(env) && ChainInv(g, c)
    ensures var g' := PlayCard(g, playerID, cardID, sayUNO, env).game;
            |g'.discardPile| > 0 && ChainInv(g', NextChain(c, g, Play(playerID, cardID, sayUNO), env))
  {
    var check := PlayCheck(g, playerID, cardID);
    if check.Ok? {
      var (seat, index) := check.value;
      var card := g.players[seat].hand[index];
      PlayCheckFacts(g, playerID, cardID);
      DiscardedInv(g, seat, index, sayUNO, env, true);
      if !card.IsWild() {
        EffectOwed(Discarded(g, seat, index, sayUNO, env).(color := card.color), seat, card);
      }
      hide Inv, ApplyCardEffect;
      PlayedChain(g, PlayCard(g, playerID, cardID, sayUNO, env).game, c, card);
    }
  }

  lemma PlayedChain(g: Game, g': Game, c: Chain, card: Card)
    requires |g.discardPile| > 0 && ChainInv(g, c) && g.phase != AwaitingColor && g.pendingDraw >= 0
    requires g'.discardPile == g.discardPile + [card]
    requires g.pendingDraw > 0 ==> card.IsDrawPenalty()
    requires if g'.phase == AwaitingColor then g'.pendingDraw == g.pendingDraw
             else g'.pendingDraw == g.pendingDraw + card.Penalty()
    ensures ChainInv(g', if card.IsDrawPenalty() then Chain(c.length + 1, c.intact) else Chain(0, true))
  {
    if card.IsDrawPenalty() {
      SuffixGrows(g.discardPile, card, c, g.pendingDraw);
    }
  }

  lemma PickChain(g: Game, c: Chain, playerID: int, color: Color)
    requires Inv(g, true) && ChainInv(g, c)
    ensures var g' := PickColor(g, playerID, color).game; |g'.discardPile| > 0 && ChainInv(g', c)
  {
    if g.phase == AwaitingColor && color.Valid() {
      var p := g.pendingColor.value;
      EffectOwed(g.(color := color, pendingColor := None, phase := Playing), p.seat, p.card);
    }
  }

  lemma DrawChain(g: Game, c: Chain, playerID: int, env: Env)
    requires Inv(g, true) && EnvOk(env) && ChainInv(g, c)
    ensures var g' := DrawCard(g, playerID, env).game;
            |g'.discardPile| > 0 && ChainInv(g', NextChain(c, g, Draw(playerID), env))
  {
    if g.phase == Playing && CurrentPlayer(g, playerID).Ok? {
      var seat := CurrentPlayer(g, playerID).value;
      ChainRunning(g, c);
      if g.pendingDraw > 0 {
        TakenChain(g, seat, env);
      } else {
        DrawnChain(g, seat, env);
      }
      hide Inv, TakePenalty, DrawOne;
      assert Suffix(DrawCard(g, playerID, env).game.discardPile, 0) == [];
    }
  }

  lemma TakenChain(g: Game, seat: nat, env: Env)
    requires Inv(g, true) && EnvOk(env) && g.phase == Playing && g.pendingDraw > 0 && seat < |g.players|
    ensures var o := TakePenalty(g, seat, env);
            && |o.game.discardPile| > 0
            && (if o.reply.Drew? then o.reply.draw.penalty && o.game.pendingDraw == 0 && o.game.phase != AwaitingColor
                else o.reply.Failed? && o.game == g)
  {
    var dealt := DrawCardsTo(g, seat, g.pendingDraw, env.shuffle);
    if dealt.Some? {
      DrawCardsToInv(g, seat, g.pendingDraw, env.shuffle, true);
      hide DrawCardsTo, Inv;
      SettledOwed(dealt.value.0.(pendingDraw := 0, currentSeat := NextSeat(g, seat, 1)));
    }
  }

  lemma DrawnChain(g: Game, seat: nat, env: Env)
    requires Inv(g, true) && EnvOk(env) && g.phase == Playing && g.pendingDraw == 0 && seat < |g.players|
    ensures var o := DrawOne(g, seat, env);
            && |o.game.discardPile| > 0 && o.game.pendingDraw == 0 && o.game.phase != AwaitingColor
            && (o.reply.Drew? ==> !o.reply.draw.penalty)
  {
    InvShape(g, true);
    DrawnReply(g, seat, env);
    if DealCards(g.drawPile, g.discardPile, 1, env.shuffle).Dealt? {
      DealConserves(g.drawPile, g.discardPile, 1, env.shuffle);
      DrawOneCases(g, seat, env);
      hide Inv, DrawOne, DealCards, Playable, NextSeat;
    }
  }

  lemma DrawnReply(g: Game, seat: nat, env: Env)
    requires Shape(g) && seat < |g.players|
    ensures DrawOne(g, seat, env).reply.Drew? ==> !DrawOne(g, seat, env).reply.draw.penalty
    ensures DrawOne(g, seat, env).reply.Failed? ==> DrawOne(g, seat, env).game == g
  {
    hide DealCards, Playable;
  }

  lemma CatchChain(g: Game, c: Chain, challengerID: int, targetID: int, env: Env)
    requires Inv(g, true) && EnvOk(env) && ChainInv(g, c)
    ensures var g' := Catch(g, challengerID, targetID, env).game;
            |g'.discardPile| > 0 && ChainInv(g', NextChain(c, g, CatchUNO(challengerID, targetID), env))
  {
    CatchPiles(g, challengerID, targetID, env);
    if c.length > 1 {
      PenaltyStillOwed(g, c);
    }
    hide Inv, Catch;
    SamePileChain(g, Catch(g, challengerID, targetID, env).game, c);
  }

  lemma SamePileChain(g: Game, g': Game, c: Chain)
    requires |g.discardPile| > 0 && |g'.discardPile| > 0 && Top(g') == Top(g) && ChainInv(g, c)
    requires g'.phase == g.phase && g'.pendingDraw == g.pendingDraw && (c.length > 1 ==> g.pendingDraw > 0)
    requires g'.discardPile == g.discardPile || (g'.discardPile == [Top(g)] && |g'.discardPile| < |g.discardPile|)
    ensures ChainInv(g', if |g'.discardPile| < |g.discardPile| && c.length > 1 then Chain(c.length, false) else c)
  {
    if |g'.discardPile| < |g.discardPile| && c.length <= 1 {
      SameShortSuffix(g.discardPile, g'.discardPile, c, g.pendingDraw + NotYetOwed(g));
    }
    hide Owed;
  }

  /** A chain of at most one card survives the recycling, which keeps the top. */
  lemma SameShortSuffix(a: seq<Card>, b: seq<Card>, c: Chain, owed: int)
    requires |a| > 0 && b == [a[|a| - 1]] && c.length <= 1 && Owed(a, c, owed)
    ensures Owed(b, c, owed)
  {
    assert Suffix(a, c.length) == Suffix(b, c.length);
  }

  lemma PenaltyStillOwed(g: Game, c: Chain)
    requires Inv(g, true) && ChainInv(g, c) && c.length > 1
    ensures g.pendingDraw > 0
  {
    if c.intact {
      PenaltiesAddUp(Suffix(g.discardPile, c.length));
      var s := Suffix(g.discardPile, c.length);
      assert s == s[..c.length - 1] + [Top(g)];
      SumByAppend(PENALTY, s[..c.length - 1], [Top(g)]);
      PenaltiesAddUp(s[..c.length - 1]);
    }
  }

  lemma CatchPiles(g: Game, challengerID: int, targetID: int, env: Env)
    requires Inv(g, true) && EnvOk(env)
    ensures var g' := Catch(g, challengerID, targetID, env).game;
            && |g'.discardPile| > 0 && Top(g') == Top(g) && g'.phase == g.phase && g'.pendingDraw == g.pendingDraw
            && (g'.discardPile == g.discardPile || (g'.discardPile == [Top(g)] && |g'.discardPile| < |g.discardPile|))
  {
    InvShape(g, true);
    if SeatOf(g.players, targetID).Some? {
      CaughtOutPiles(g, SeatOf(g.players, targetID).value, env);
    }
    hide Inv, CaughtOut, SeatOf, ChallengeActive, Cleaned;
    CleanedPiles(g, targetID, env.now);
  }

  lemma CaughtOutPiles(g: Game, seat: nat, env: Env)
    requires Shape(g) && seat < |g.players| && Permuting(env.shuffle)
    ensures var g' := CaughtOut(g, seat, env).game;
            && |g'.discardPile| > 0 && Top(g') == Top(g) && g'.phase == g.phase && g'.pendingDraw == g.pendingDraw
            && (g'.discardPile == g.discardPile || (g'.discardPile == [Top(g)] && |g'.discardPile| < |g.discardPile|))
  {
    ReceivePiles(g, seat, env);
    hide DrawCardsTo;
  }

  lemma CleanedPiles(g: Game, id: int, now: int)
    ensures Cleaned(g, id, now) == g.(challenges := Cleaned(g, id, now).challenges)
  {
  }

  lemma ReceivePiles(g: Game, seat: nat, env: Env)
    requires Shape(g) && seat < |g.players| && Permuting(env.shuffle)
    ensures var dealt := DrawCardsTo(g, seat, 2, env.shuffle);
            dealt.Some? ==>
              var d := dealt.value.0;
              && |d.discardPile| > 0 && Top(d) == Top(g) && d.phase == g.phase && d.pendingDraw == g.pendingDraw
              && (d.discardPile == g.discardPile || (d.discardPile == [Top(g)] && |d.discardPile| < |g.discardPile|))
  {
    var deal := DealCards(g.drawPile, g.discardPile, 2, env.shuffle);
    if deal.Dealt? {
      assert |deal.discardPile| > 0
          && (deal.discardPile == g.discardPile || (deal.discardPile == [Top(g)] && |g.discardPile| > 1)) by {
        DealConserves(g.drawPile, g.discardPile, 2, env.shuffle);
      }
      hide DealCards;
    }
  }

  lemma OtherChain(g: Game, c: Chain, command: Command, env: Env)
    requires Shape(g) && ChainInv(g, c) && (command.Pass? || command.CallUNO? || command.ExpireUNO?)
    ensures var g' := Apply(g, command, env).game;
            |g'.discardPile| > 0 && ChainInv(g', c) && NextChain(c, g, command, env) == c
  {
    hide Owed;
  }

  lemma ChainStep(g: Game, c: Chain, command: Command, env: Env)
    requires Inv(g, true) && EnvOk(env) && ChainInv(g, c)
    ensures var g' := Apply(g, command, env).game;
            |g'.discardPile| > 0 && ChainInv(g', NextChain(c, g, command, env))
  {
    InvShape(g, true);
    hide Inv, ChainInv, PlayCard, PickColor, DrawCard, Catch, PassTurn, Call, Expire;
    match command
    case Play(playerID, cardID, sayUNO) => PlayChain(g, c, playerID, cardID, sayUNO, env);
    case ChooseColor(playerID, color) => PickChain(g, c, playerID, color);
    case Draw(playerID) => DrawChain(g, c, playerID, env);
    case CatchUNO(challengerID, targetID) => CatchChain(g, c, challengerID, targetID, env);
    case _ => OtherChain(g, c, command, env);
  }

  // ----- Over whole runs -----

  ghost function ChainAfter(g0: Game, steps: seq<Step>): Chain
    requires Inv(g0, true) && StepsOk(steps)
    decreases |steps|
  {
    if steps == [] then Chain(0, true)
    else
      var last := steps[|steps| - 1];
      var g := After(g0, steps[..|steps| - 1], true);
      InvShape(g, true);
      NextChain(ChainAfter(g0, steps[..|steps| - 1]), g, last.command, last.env)
  }

  lemma {:induction false} ChainKept(g0: Game, steps: seq<Step>)
    requires Inv(g0, true) && g0.pendingDraw == 0 && !Top(g0).kind.WildDrawFour? && StepsOk(steps)
    requires g0.phase == AwaitingColor ==> !Top(g0).IsDrawPenalty()
    ensures ChainInv(After(g0, steps, true), ChainAfter(g0, steps))
    decreases |steps|
  {
    if steps == [] {
      assert Suffix(g0.discardPile, 0) == [];
    } else {
      var last := steps[|steps| - 1];
      ChainKept(g0, steps[..|steps| - 1]);
      ChainStep(After(g0, steps[..|steps| - 1], true), ChainAfter(g0, steps[..|steps| - 1]), last.command, last.env);
    }
  }

  /** In every run from a fresh deal: an intact chain lies on top of the discard pile, nothing but penalty cards,
      and what is owed is their sum (less a wild draw four still waiting for its colour); so never more than 32. */
  lemma PenaltyIsChainSum(g0: Game, steps: seq<Step>)
    requires Fresh(g0) && StepsOk(steps)
    ensures Inv(g0, true)
    ensures var g, c := After(g0, steps, true), ChainAfter(g0, steps);
            && g.pendingDraw % 2 == 0
            && (g.pendingDraw > 0 && g.phase == Playing ==> Top(g).IsDrawPenalty())
            && (c.intact ==>
                  && c.length <= |g.discardPile|
                  && AllPenalties(Suffix(g.discardPile, c.length))
                  && g.pendingDraw + NotYetOwed(g) == SumBy(PENALTY, Suffix(g.discardPile, c.length))
                  && g.pendingDraw <= 32)
  {
    FreshInv(g0);
    FreshTop(g0);
    ChainKept(g0, steps);
    var g, c := After(g0, steps, true), ChainAfter(g0, steps);
    if c.intact {
      PilePenalty(g, c.length);
    }
  }

  lemma FreshTop(g: Game)
    requires Inv(g, true) && g.pendingDraw == 0 && Top(g).kind != WildDrawFour
    ensures g.phase == AwaitingColor ==> !Top(g).IsDrawPenalty()
  {
  }

  lemma PilePenalty(g: Game, k: nat)
    requires Inv(g, true) && k <= |g.discardPile|
    ensures SumBy(PENALTY, Suffix(g.discardPile, k)) <= 32
  {
    var s := Suffix(g.discardPile, k);
    assert g.discardPile == g.discardPile[..|g.discardPile| - k] + s;
    assert multiset(s) <= multiset(StandardDeck());
    SubDeckWeight(PENALTY, s);
    DeckTotals();
  }
}
