/** Missed calls of UNO: where a challenge comes from, and that each missed call is caught at most once. */
module Challenges {
  import opened Wrappers
  import opened Cards
  import opened Piles
  import opened Rules
  import opened Invariant
  import opened Preservation
  import opened Runs

  function HandOf(players: seq<Player>, id: int): seq<Card> {
    match SeatOf(players, id)
    case None => []
    case Some(s) => players[s].hand
  }

  /** This command is an accepted play by `id` that left one card in hand without saying UNO. */
  ghost predicate SilentLastButOne(g: Game, step: Step, id: int)
    requires Shape(g)
  {
    && step.command.Play? && step.command.playerID == id && !step.command.sayUNO
    && Apply(g, step.command, step.env).reply == Done
    && |HandOf(Apply(g, step.command, step.env).game.players, id)| == 1
  }

  /** A challenge that stands after a command stood before it, over an unchanged hand, or was just earned. */
  ghost predicate ChallengeStands(g: Game, g': Game, id: int) {
    id in g.challenges && id in g'.challenges && g'.challenges[id] == g.challenges[id]
    && HandOf(g'.players, id) == HandOf(g.players, id)
  }

  lemma {:induction false} SeatOfUpdate(players: seq<Player>, seat: nat, hand: seq<Card>, id: int)
    requires seat < |players|
    ensures SeatOf(players[seat := players[seat].(hand := hand)], id) == SeatOf(players, id)
  {
    var after := players[seat := players[seat].(hand := hand)];
    if seat > 0 {
      assert after[1..] == players[1..][seat - 1 := players[1..][seat - 1].(hand := hand)];
      SeatOfUpdate(players[1..], seat - 1, hand, id);
    } else {
      assert after[1..] == players[1..];
    }
  }

  /** Only the owner's hand changes. */
  lemma HandAfter(players: seq<Player>, seat: nat, hand: seq<Card>, id: int)
    requires seat < |players| && DistinctPlayers(players)
    ensures HandOf(players[seat := players[seat].(hand := hand)], id)
         == if id == players[seat].id then hand else HandOf(players, id)
  {
    SeatOfUpdate(players, seat, hand, id);
    var t := SeatOf(players, id);
    if id == players[seat].id {
      assert t.Some? && players[t.value].id == players[seat].id;
    }
  }

  lemma SettledChallenges(g: Game, seat: int, card: Card)
    requires |g.players| > 0 && SeatsBelow(g.candidates, |g.players|)
    ensures var g' := ApplyCardEffect(g, seat, card);
            g'.players == g.players && (g'.challenges == g.challenges || g'.challenges == map[])
  {
  }

  lemma PlayStands(g: Game, step: Step, id: int)
    requires Inv(g, true) && step.command.Play?
    requires var g' := Apply(g, step.command, step.env).game; id in g'.challenges
    ensures var g' := Apply(g, step.command, step.env).game;
            ChallengeStands(g, g', id)
            || (SilentLastButOne(g, step, id)
                && g'.challenges[id] == Challenge(id, step.env.now + step.env.window))
  {
    var Play(playerID, cardID, sayUNO) := step.command;
    var check := PlayCheck(g, playerID, cardID);
    if check.Ok? {
      var (seat, index) := check.value;
      PlayedLike(g, playerID, cardID, sayUNO, step.env);
      hide Inv, Discarded, PlayCard, PlayCheck, HandOf;
      SameHands(Discarded(g, seat, index, sayUNO, step.env).players, PlayCard(g, playerID, cardID, sayUNO, step.env).game.players, id);
      DiscardStands(g, seat, index, sayUNO, step.env, id);
    } else {
      hide *;
      RefusedStands(g, playerID, cardID, sayUNO, step.env, id);
    }
  }

  lemma RefusedStands(g: Game, playerID: int, cardID: int, sayUNO: bool, env: Env, id: int)
    requires Shape(g) && PlayCheck(g, playerID, cardID).Err?
    ensures PlayCard(g, playerID, cardID, sayUNO, env).game == g
  {
    hide PlayCheck;
  }

  lemma SameHands(a: seq<Player>, b: seq<Player>, id: int)
    requires a == b
    ensures HandOf(a, id) == HandOf(b, id)
  {
  }

  /** After an accepted play the hands are those after the discard; so are the challenges, or the round is over. */
  lemma PlayedLike(g: Game, playerID: int, cardID: int, sayUNO: bool, env: Env)
    requires Shape(g) && PlayCheck(g, playerID, cardID).Ok?
    ensures var (seat, index) := PlayCheck(g, playerID, cardID).value;
            var d, o := Discarded(g, seat, index, sayUNO, env), PlayCard(g, playerID, cardID, sayUNO, env);
            && g.players[seat].id == playerID
            && o.reply == Done
            && o.game.players == d.players
            && (o.game.challenges == d.challenges || o.game.challenges == map[])
  {
    var (seat, index) := PlayCheck(g, playerID, cardID).value;
    var card := g.players[seat].hand[index];
    SettledChallenges(Discarded(g, seat, index, sayUNO, env).(color := card.color), seat, card);
    hide ApplyCardEffect;
  }

  lemma DiscardStands(g: Game, seat: nat, index: nat, sayUNO: bool, env: Env, id: int)
    requires Inv(g, true) && seat < |g.players| && index < |g.players[seat].hand|
    requires id in Discarded(g, seat, index, sayUNO, env).challenges
    ensures var d := Discarded(g, seat, index, sayUNO, env);
            ChallengeStands(g, d, id)
            || (id == g.players[seat].id && !sayUNO && |HandOf(d.players, id)| == 1
                && d.challenges[id] == Challenge(id, env.now + env.window))
  {
    HandAfter(g.players, seat, RemoveAt(g.players[seat].hand, index), id);
    hide Inv, HandOf;
  }

  lemma PickStands(g: Game, playerID: int, color: Color, id: int)
    requires Inv(g, true) && id in PickColor(g, playerID, color).game.challenges
    ensures ChallengeStands(g, PickColor(g, playerID, color).game, id)
  {
    if g.pendingColor.Some? {
      SettledChallenges(g.(color := color, pendingColor := None, phase := Playing), g.pendingColor.value.seat,
                        g.pendingColor.value.card);
    }
  }

  lemma ReceiveStands(g: Game, seat: nat, count: nat, shuffle: Shuffle, id: int)
    requires InvTable(g.players, g.dealerSeat, g.direction) && InvChallenges(g.players, g.challenges) && seat < |g.players|
    requires DrawCardsTo(g, seat, count, shuffle).Some?
    requires id in DrawCardsTo(g, seat, count, shuffle).value.0.challenges
    ensures ChallengeStands(g, DrawCardsTo(g, seat, count, shuffle).value.0, id)
  {
    var (d, drawn) := DrawCardsTo(g, seat, count, shuffle).value;
    var hand := g.players[seat].hand + drawn;
    hide DealCards;
    HandAfter(g.players, seat, hand, id);
    if id == g.players[seat].id {
      ChallengedSeat(g, id);
      assert SeatOf(g.players, id).value == seat;
      assert drawn == [];
      assert hand == g.players[seat].hand;
    }
  }

  lemma DrawStands(g: Game, playerID: int, env: Env, id: int)
    requires Inv(g, true) && id in DrawCard(g, playerID, env).game.challenges
    ensures ChallengeStands(g, DrawCard(g, playerID, env).game, id)
  {
    if g.phase == Playing && CurrentPlayer(g, playerID).Ok? {
      var seat := CurrentPlayer(g, playerID).value;
      if g.pendingDraw > 0 {
        TakeStands(g, seat, env, id);
      } else {
        DrawOneStands(g, seat, env, id);
      }
    }
  }

  lemma TakeStands(g: Game, seat: nat, env: Env, id: int)
    requires Inv(g, true) && seat < |g.players| && g.pendingDraw > 0 && id in TakePenalty(g, seat, env).game.challenges
    ensures ChallengeStands(g, TakePenalty(g, seat, env).game, id)
  {
    InvShape(g, true);
    var dealt := DrawCardsTo(g, seat, g.pendingDraw, env.shuffle);
    if dealt.Some? {
      var d := dealt.value.0;
      assert id in d.challenges && TakePenalty(g, seat, env).game.players == d.players
          && TakePenalty(g, seat, env).game.challenges == d.challenges by { hide DealCards, Inv; }
      ReceiveStands(g, seat, g.pendingDraw, env.shuffle, id);
    }
  }

  lemma DrawOneStands(g: Game, seat: nat, env: Env, id: int)
    requires Inv(g, true) && seat < |g.players| && id in DrawOne(g, seat, env).game.challenges
    ensures ChallengeStands(g, DrawOne(g, seat, env).game, id)
  {
    InvShape(g, true);
    var deal := DealCards(g.drawPile, g.discardPile, 1, env.shuffle);
    if deal.Dealt? {
      DrawOneCases(g, seat, env);
      if deal.drawn != [] {
        HandAfter(g.players, seat, g.players[seat].hand + [deal.drawn[0]], id);
      }
      hide DrawOne, DealCards, Inv, Playable, NextSeat, HandOf;
    }
  }

  lemma CatchStands(g: Game, challengerID: int, targetID: int, env: Env, id: int)
    requires Inv(g, true) && id in Catch(g, challengerID, targetID, env).game.challenges
    ensures ChallengeStands(g, Catch(g, challengerID, targetID, env).game, id)
  {
    if Catch(g, challengerID, targetID, env).reply.Drew? {
      ReceiveStands(g, SeatOf(g.players, targetID).value, 2, env.shuffle, id);
    }
  }

  lemma ChallengeStep(g: Game, step: Step, id: int)
    requires Inv(g, true) && id in Apply(g, step.command, step.env).game.challenges
    ensures var g' := Apply(g, step.command, step.env).game;
            ChallengeStands(g, g', id)
            || (SilentLastButOne(g, step, id)
                && g'.challenges[id] == Challenge(id, step.env.now + step.env.window))
  {
    InvShape(g, true);
    hide Inv, PlayCard, PickColor, DrawCard, Catch, ChallengeStands, SilentLastButOne;
    match step.command
    case Play(_, _, _) => PlayStands(g, step, id);
    case ChooseColor(playerID, color) => PickStands(g, playerID, color, id);
    case Draw(playerID) => DrawStands(g, playerID, step.env, id);
    case CatchUNO(challengerID, targetID) => CatchStands(g, challengerID, targetID, step.env, id);
    case _ => OtherStands(g, step, id);
  }

  lemma OtherStands(g: Game, step: Step, id: int)
    requires Shape(g) && (step.command.Pass? || step.command.CallUNO? || step.command.ExpireUNO?)
    requires id in Apply(g, step.command, step.env).game.challenges
    ensures ChallengeStands(g, Apply(g, step.command, step.env).game, id)
  {
    hide HandOf;
  }

  // ----- Over whole runs -----

  /** The game before command k. */
  ghost function At(g0: Game, steps: seq<Step>, k: nat): (g: Game)
    requires Inv(g0, true) && StepsOk(steps) && k <= |steps|
    ensures Inv(g, true) && Shape(g)
  {
    InvShape(After(g0, steps[..k], true), true);
    After(g0, steps[..k], true)
  }

  lemma AtNext(g0: Game, steps: seq<Step>, k: nat)
    requires Inv(g0, true) && StepsOk(steps) && k < |steps|
    ensures At(g0, steps, k + 1) == Apply(At(g0, steps, k), steps[k].command, steps[k].env).game
  {
    assert steps[..k + 1] == steps[..k] + [steps[k]];
    AfterOneMore(g0, steps[..k], steps[k], true);
  }

  /** Since command i a challenge stands unchanged over an unchanged hand, up to command n. */
  ghost predicate StandsSince(g0: Game, steps: seq<Step>, i: nat, n: nat, id: int)
    requires Inv(g0, true) && StepsOk(steps) && i < n <= |steps|
  {
    var challenge := Challenge(id, steps[i].env.now + steps[i].env.window);
    forall k: nat :: i < k <= n ==>
      && id in At(g0, steps, k).challenges
      && At(g0, steps, k).challenges[id] == challenge
      && HandOf(At(g0, steps, k).players, id) == HandOf(At(g0, steps, n).players, id)
  }

  /** Every challenge was earned by a silent play down to one card; its deadline is that play's time plus the window;
      the player's hand has not changed since. */
  lemma {:induction false} ChallengeOrigin(g0: Game, steps: seq<Step>, n: nat, id: int) returns (i: nat)
    requires Inv(g0, true) && g0.challenges == map[] && StepsOk(steps) && n <= |steps|
    requires id in At(g0, steps, n).challenges
    ensures i < n && SilentLastButOne(At(g0, steps, i), steps[i], id)
    ensures StandsSince(g0, steps, i, n, id)
    decreases n
  {
    hide At, Inv, SilentLastButOne, Apply, HandOf, StepsOk;
    AtStart(g0, steps);
    assert n > 0;
    var g, g' := At(g0, steps, n - 1), At(g0, steps, n);
    AtNext(g0, steps, n - 1);
    ChallengeStep(g, steps[n - 1], id);
    if ChallengeStands(g, g', id) {
      i := ChallengeOrigin(g0, steps, n - 1, id);
      StandsOn(g0, steps, i, n, id);
    } else {
      i := n - 1;
      JustEarned(g0, steps, n, id);
    }
  }

  lemma AtStart(g0: Game, steps: seq<Step>)
    requires Inv(g0, true) && StepsOk(steps)
    ensures At(g0, steps, 0) == g0
  {
    assert steps[..0] == [];
  }

  lemma JustEarned(g0: Game, steps: seq<Step>, n: nat, id: int)
    requires Inv(g0, true) && StepsOk(steps) && 0 < n <= |steps| && id in At(g0, steps, n).challenges
    requires At(g0, steps, n).challenges[id] == Challenge(id, steps[n - 1].env.now + steps[n - 1].env.window)
    ensures StandsSince(g0, steps, n - 1, n, id)
  {
    hide At, Inv, HandOf, StepsOk;
  }

  lemma StandsOn(g0: Game, steps: seq<Step>, i: nat, n: nat, id: int)
    requires Inv(g0, true) && StepsOk(steps) && i < n - 1 < n <= |steps|
    requires StandsSince(g0, steps, i, n - 1, id)
    requires ChallengeStands(At(g0, steps, n - 1), At(g0, steps, n), id)
    ensures StandsSince(g0, steps, i, n, id)
  {
    hide At, Inv, HandOf, StepsOk;
    var challenge := Challenge(id, steps[i].env.now + steps[i].env.window);
    forall k: nat | i < k <= n
      ensures id in At(g0, steps, k).challenges && At(g0, steps, k).challenges[id] == challenge
              && HandOf(At(g0, steps, k).players, id) == HandOf(At(g0, steps, n).players, id)
    {
      assert id in At(g0, steps, n - 1).challenges && At(g0, steps, n - 1).challenges[id] == challenge;
    }
  }

  /** Command k caught `id` out. */
  ghost predicate CaughtBy(g0: Game, steps: seq<Step>, k: nat, id: int)
    requires Inv(g0, true) && StepsOk(steps) && k < |steps|
  {
    && steps[k].command.CatchUNO? && steps[k].command.targetID == id
    && Catch(At(g0, steps, k), steps[k].command.challengerID, id, steps[k].env).reply.Drew?
  }

  lemma CaughtAt(g0: Game, steps: seq<Step>, k: nat, id: int)
    requires Inv(g0, true) && StepsOk(steps) && k < |steps| && CaughtBy(g0, steps, k, id)
    ensures id in At(g0, steps, k).challenges && steps[k].env.now < At(g0, steps, k).challenges[id].expiresAt
    ensures id !in At(g0, steps, k + 1).challenges
  {
    CatchNext(g0, steps, k, id);
    hide At, Inv, Catch, StepsOk;
    CaughtFacts(At(g0, steps, k), steps[k].command.challengerID, id, steps[k].env);
  }

  lemma CatchNext(g0: Game, steps: seq<Step>, k: nat, id: int)
    requires Inv(g0, true) && StepsOk(steps) && k < |steps|
    requires steps[k].command.CatchUNO? && steps[k].command.targetID == id
    ensures At(g0, steps, k + 1) == Catch(At(g0, steps, k), steps[k].command.challengerID, id, steps[k].env).game
  {
    hide At, Inv, StepsOk, PlayCard, PickColor, DrawCard, PassTurn, Call, Catch, Expire;
    AtNext(g0, steps, k);
  }

  lemma CaughtFacts(g: Game, challengerID: int, targetID: int, env: Env)
    requires Inv(g, true) && Shape(g) && Catch(g, challengerID, targetID, env).reply.Drew?
    ensures targetID in g.challenges && targetID !in Catch(g, challengerID, targetID, env).game.challenges
    ensures env.now < g.challenges[targetID].expiresAt
  {
    hide DrawCardsTo, Inv;
  }

  /** Between two penalties for the same player there is another silent play: each missed call is caught at most once,
      and only before its window is over. */
  lemma CaughtOnce(g0: Game, steps: seq<Step>, a: nat, b: nat, id: int) returns (i: nat)
    requires Inv(g0, true) && g0.challenges == map[] && StepsOk(steps) && a < b < |steps|
    requires CaughtBy(g0, steps, a, id) && CaughtBy(g0, steps, b, id)
    ensures i < b && SilentLastButOne(At(g0, steps, i), steps[i], id)
    ensures a < i
    ensures steps[b].env.now < steps[i].env.now + steps[i].env.window
  {
    CaughtAt(g0, steps, a, id);
    CaughtAt(g0, steps, b, id);
    hide Catch, At, Inv;
    i := LaterOrigin(g0, steps, a, b, id);
  }

  lemma LaterOrigin(g0: Game, steps: seq<Step>, a: nat, b: nat, id: int) returns (i: nat)
    requires Inv(g0, true) && g0.challenges == map[] && StepsOk(steps) && a < b < |steps|
    requires !steps[a].command.Play? && id !in At(g0, steps, a + 1).challenges
    requires id in At(g0, steps, b).challenges
    requires steps[b].env.now < At(g0, steps, b).challenges[id].expiresAt
    ensures i < b && SilentLastButOne(At(g0, steps, i), steps[i], id)
    ensures a < i
    ensures steps[b].env.now < steps[i].env.now + steps[i].env.window
  {
    i := ChallengeOrigin(g0, steps, b, id);
    assert steps[i].command.Play?;
    hide At, Inv, StepsOk, SilentLastButOne, HandOf;
    assert At(g0, steps, b).challenges[id] == Challenge(id, steps[i].env.now + steps[i].env.window);
  }
}
