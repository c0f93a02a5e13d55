/** Calling UNO and catching a missed call: what each does, and exactly when a challenge stands. */
module Calls {
  import opened Wrappers
  import opened Cards
  import opened Piles
  import opened Rules
  import opened Invariant
  import opened Preservation
  import opened Runs
  import opened Challenges
  import opened Acceptance
  import opened Turns

  /** A challenge that can still be answered or caught. */
  predicate Open(g: Game, id: int, now: int) {
    id in g.challenges && now < g.challenges[id].expiresAt
  }

  // ----- One command -----

  /** Only the challenge of this player is gone. */
  ghost predicate OnlyForgotten(g: Game, h: Game, id: int) {
    id !in h.challenges && forall other :: other != id ==>
                             (other in h.challenges <==> other in g.challenges)
                             && (other in g.challenges ==> h.challenges[other] == g.challenges[other])
  }

  /** A call is accepted exactly from a seated player whose own missed call is still open; it takes away that challenge and
      nothing else. */
  lemma CallMeans(g: Game, id: int, env: Env)
    requires Shape(g) && InvChallenges(g.players, g.challenges)
    ensures var o := Call(g, id, env);
            && (o.reply == Done <==> g.phase != Finished && Sits(g, id) && Open(g, id, env.now))
            && (o.reply == Done ==> o.game == g.(challenges := o.game.challenges) && OnlyForgotten(g, o.game, id))
  {
  }

  /** A catch is accepted exactly from one seated player against another whose missed call is still open, unless the
      shuffle it needs fails. The one caught out draws two cards, as far as there are any; turn, colour and everybody
      else's cards stay, and the challenge is gone. */
  lemma CatchMeans(g: Game, challengerID: int, targetID: int, env: Env)
    requires Inv(g, true) && Shape(g) && Permuting(env.shuffle)
    ensures var o := Catch(g, challengerID, targetID, env);
            && (o.reply.Drew? <==>
                  && g.phase != Finished && Sits(g, challengerID) && Sits(g, targetID) && challengerID != targetID
                  && Open(g, targetID, env.now)
                  && !(2 > |g.drawPile| && |g.discardPile| > 1 && !env.shuffle(g.discardPile[..|g.discardPile| - 1]).ok))
            && (o.reply.Drew? ==> CaughtOutMeans(g, o, targetID))
  {
    if Catch(g, challengerID, targetID, env).reply.Drew? {
      var seat := SeatOf(g.players, targetID).value;
      DealtCount(g, 2, env.shuffle);
      ReceivedChallenges(g, seat, env);
      hide Inv, DealCards, SeatOf, Without, Receive, Permuting;
      assert Catch(g, challengerID, targetID, env) == CaughtOut(g, seat, env);
      CaughtDrew(g, seat, env);
    }
    hide Conserved, Permuting, CaughtOutMeans;
  }

  /** The player caught out has drawn two cards, or all there are; nothing else is different but his challenge. */
  ghost predicate CaughtOutMeans(g: Game, o: Outcome, id: int) {
    && o.reply.Drew? && |o.reply.draw.cards| == Smaller(2, Available(g))
    && o.reply.draw.penalty && !o.reply.draw.canPlay && !o.reply.draw.turnEnded
    && (exists seat :: 0 <= seat < |g.players| && g.players[seat].id == id
                       && OnlyHand(g, o.game, seat, g.players[seat].hand + o.reply.draw.cards))
    && SameTable(g, o.game) && o.game.currentSeat == g.currentSeat && o.game.phase == g.phase
    && o.game.pendingDraw == g.pendingDraw && o.game.drawnCardID == g.drawnCardID && o.game.pendingColor == g.pendingColor
    && |o.game.discardPile| > 0 && |g.discardPile| > 0 && Top(o.game) == Top(g)
    && OnlyForgotten(g, o.game, id)
  }

  lemma ReceivedChallenges(g: Game, seat: nat, env: Env)
    requires seat < |g.players| && DrawCardsTo(g, seat, 2, env.shuffle).Some?
    ensures OnlyForgotten(g, Forget(DrawCardsTo(g, seat, 2, env.shuffle).value.0, g.players[seat].id), g.players[seat].id)
  {
    hide DealCards;
  }

  lemma CaughtDrew(g: Game, seat: nat, env: Env)
    requires Shape(g) && seat < |g.players| && DealCards(g.drawPile, g.discardPile, 2, env.shuffle).Dealt?
    requires OnlyForgotten(g, Forget(DrawCardsTo(g, seat, 2, env.shuffle).value.0, g.players[seat].id), g.players[seat].id)
    requires var d := DealCards(g.drawPile, g.discardPile, 2, env.shuffle);
             && |d.drawn| == Smaller(2, Available(g)) && |d.discardPile| > 0 && d.discardPile[|d.discardPile| - 1] == Top(g)
    ensures CaughtOutMeans(g, CaughtOut(g, seat, env), g.players[seat].id)
  {
    hide DealCards, Without, OnlyForgotten;
    var o := CaughtOut(g, seat, env);
    assert OnlyHand(g, o.game, seat, g.players[seat].hand + o.reply.draw.cards);
  }

  /** The clock's own tidying drops exactly the challenges whose time is up, and names their seated owners. */
  lemma {:induction false} ExpiredIDsAre(players: seq<Player>, challenges: map<int, Challenge>, now: int, id: int)
    ensures id in ExpiredIDs(players, challenges, now) <==>
              (exists s :: 0 <= s < |players| && players[s].id == id) && id in challenges && now >= challenges[id].expiresAt
  {
    if players != [] {
      ExpiredIDsAre(players[1..], challenges, now, id);
      assert forall s :: 0 <= s < |players[1..]| ==> players[1..][s] == players[s + 1];
    }
  }

  lemma ExpireMeans(g: Game, env: Env, id: int)
    requires Inv(g, false)
    ensures var o := Expire(g, env);
            && o.reply.Expired? && o.game == g.(challenges := o.game.challenges)
            && (id in o.game.challenges <==> Open(g, id, env.now))
            && (id in o.game.challenges ==> o.game.challenges[id] == g.challenges[id])
            && (id in o.reply.ids <==> id in g.challenges && !Open(g, id, env.now))
  {
    ExpiredIDsAre(g.players, g.challenges, env.now, id);
    if id in g.challenges {
      assert HoldsOneCard(g.players, id);
    }
    hide Conserved, ExpiredIDs;
  }

  // ----- Exactly when a challenge stands -----

  /** This command answers, catches out, or tidies away the challenge of `id`. */
  ghost predicate Ends(g: Game, step: Step, id: int)
    requires Shape(g)
  {
    match step.command
    case CallUNO(caller) => caller == id && Sits(g, id)
    case CatchUNO(challenger, target) =>
      && target == id && Sits(g, challenger) && Sits(g, id) && challenger != id
      && (Open(g, id, step.env.now) ==> Apply(g, step.command, step.env).reply.Drew?)
    case ExpireUNO => id in g.challenges && !Open(g, id, step.env.now)
    case _ => false
  }

  /** A challenge stands after a command exactly if the round goes on and it was just earned, or stood before over a hand
      that has not changed and was neither answered, caught out nor tidied away. */
  lemma ChallengeIff(g: Game, step: Step, id: int)
    requires Inv(g, true) && Shape(g)
    ensures var g' := Apply(g, step.command, step.env).game;
            id in g'.challenges <==>
              && g'.phase != Finished
              && (SilentLastButOne(g, step, id)
                  || (id in g.challenges && HandOf(g'.players, id) == HandOf(g.players, id) && !Ends(g, step, id)))
  {
    hide Inv, PlayCard, PickColor, DrawCard, PassTurn, Call, Catch, Expire, HandOf, Sits, Open;
    match step.command
    case Play(_, _, _) => PlayIff(g, step, id);
    case ChooseColor(_, _) => PickIff(g, step, id);
    case Draw(_) => DrawIff(g, step, id);
    case Pass(_) => OtherIff(g, step, id);
    case CallUNO(_) => OtherIff(g, step, id);
    case CatchUNO(_, _) => CatchIff(g, step, id);
    case ExpireUNO => OtherIff(g, step, id);
  }

  lemma FinishedHasNone(g: Game)
    requires Inv(g, true) && g.phase == Finished
    ensures g.challenges == map[]
  {
  }

  lemma SettledChallengesIff(d: Game)
    requires SeatsBelow(d.candidates, |d.players|) && d.phase != Finished
    ensures var h := FinishIfResolved(d); h.challenges == if h.phase == Finished then map[] else d.challenges
  {
    hide StillEmpty, ResultFor;
  }

  lemma EffectChallenges(d: Game, seat: int, card: Card)
    requires |d.players| > 0 && SeatsBelow(d.candidates, |d.players|)
    ensures var h := ApplyCardEffect(d, seat, card);
            h.challenges == (if h.phase == Finished then map[] else d.challenges) && h.players == d.players
  {
    PilesTurned(d, seat, card);
    SettledChallengesIff(Turned(d, seat, card));
    SettledOnly(Turned(d, seat, card));
    assert Turned(d, seat, card).challenges == d.challenges by { hide NextSeat; }
    hide Turned, FinishIfResolved;
  }

  lemma PlayIff(g: Game, step: Step, id: int)
    requires Inv(g, true) && Shape(g) && step.command.Play?
    ensures var g' := Apply(g, step.command, step.env).game;
            id in g'.challenges <==>
              && g'.phase != Finished
              && (SilentLastButOne(g, step, id)
                  || (id in g.challenges && HandOf(g'.players, id) == HandOf(g.players, id) && !Ends(g, step, id)))
  {
    var Play(playerID, cardID, sayUNO) := step.command;
    var check := PlayCheck(g, playerID, cardID);
    if check.Ok? {
      var (seat, index) := check.value;
      PlayedSeat(g, playerID, cardID);
      PlayedChallenges(g, playerID, cardID, sayUNO, step.env);
      HandsPlayed(g, seat, index, sayUNO, step.env, id);
      hide Inv, Discarded, PlayCard, PlayCheck, HandOf;
    } else {
      if g.phase == Finished { FinishedHasNone(g); }
      RefusedStands(g, playerID, cardID, sayUNO, step.env, id);
      RefusedReply(g, playerID, cardID, sayUNO, step.env);
      hide Inv, PlayCard, PlayCheck, HandOf;
    }
  }

  lemma RefusedReply(g: Game, playerID: int, cardID: int, sayUNO: bool, env: Env)
    requires Shape(g) && PlayCheck(g, playerID, cardID).Err?
    ensures PlayCard(g, playerID, cardID, sayUNO, env).reply.Failed?
  {
    hide PlayCheck;
  }

  lemma PlayedSeat(g: Game, playerID: int, cardID: int)
    requires Shape(g) && PlayCheck(g, playerID, cardID).Ok?
    ensures g.players[PlayCheck(g, playerID, cardID).value.0].id == playerID && g.phase != Finished
  {
  }

  lemma PlayedChallenges(g: Game, playerID: int, cardID: int, sayUNO: bool, env: Env)
    requires Shape(g) && PlayCheck(g, playerID, cardID).Ok?
    ensures var (seat, index) := PlayCheck(g, playerID, cardID).value;
            var d, o := Discarded(g, seat, index, sayUNO, env), PlayCard(g, playerID, cardID, sayUNO, env);
            && o.reply == Done && o.game.players == d.players
            && o.game.challenges == if o.game.phase == Finished then map[] else d.challenges
  {
    var (seat, index) := PlayCheck(g, playerID, cardID).value;
    var card := g.players[seat].hand[index];
    EffectChallenges(Discarded(g, seat, index, sayUNO, env).(color := card.color), seat, card);
    hide ApplyCardEffect, PlayCheck;
  }

  /** After a discard: whose challenge stands, and whose hand has changed. */
  lemma HandsPlayed(g: Game, seat: nat, index: nat, sayUNO: bool, env: Env, id: int)
    requires Inv(g, true) && seat < |g.players| && index < |g.players[seat].hand|
    ensures var d := Discarded(g, seat, index, sayUNO, env);
            && (HandOf(d.players, id) == HandOf(g.players, id) <==> id != g.players[seat].id)
            && (id in d.challenges <==> if id == g.players[seat].id then |HandOf(d.players, id)| == 1 && !sayUNO else id in g.challenges)
  {
    HandAfter(g.players, seat, RemoveAt(g.players[seat].hand, index), id);
    SeatFound2(g, seat);
    hide Inv, SeatOf;
  }

  lemma SeatFound2(g: Game, seat: nat)
    requires Inv(g, true) && seat < |g.players|
    ensures SeatOf(g.players, g.players[seat].id) == Some(seat)
  {
    var t := SeatOf(g.players, g.players[seat].id);
    assert t.Some? && g.players[t.value].id == g.players[seat].id;
  }

  lemma PickIff(g: Game, step: Step, id: int)
    requires Inv(g, true) && Shape(g) && step.command.ChooseColor?
    ensures var g' := Apply(g, step.command, step.env).game;
            && g'.players == g.players
            && (id in g'.challenges <==> g'.phase != Finished && id in g.challenges)
            && !Ends(g, step, id) && !SilentLastButOne(g, step, id)
  {
    var ChooseColor(playerID, color) := step.command;
    if g.phase == Finished { FinishedHasNone(g); }
    if g.pendingColor.Some? {
      EffectChallenges(g.(color := color, pendingColor := None, phase := Playing), g.pendingColor.value.seat,
                       g.pendingColor.value.card);
    }
    hide ApplyCardEffect, Conserved;
  }

  lemma DrawIff(g: Game, step: Step, id: int)
    requires Inv(g, true) && Shape(g) && step.command.Draw?
    ensures var g' := Apply(g, step.command, step.env).game;
            && (id in g'.challenges <==>
                  g'.phase != Finished && id in g.challenges && HandOf(g'.players, id) == HandOf(g.players, id))
            && !Ends(g, step, id) && !SilentLastButOne(g, step, id)
  {
    var playerID := step.command.playerID;
    if g.phase == Finished { FinishedHasNone(g); }
    if g.phase == Playing && CurrentPlayer(g, playerID).Ok? {
      var seat := CurrentPlayer(g, playerID).value;
      if g.pendingDraw > 0 {
        TakeIff(g, seat, step.env, id);
        hide TakePenalty, HandOf, Inv;
      } else {
        DrawOneIff(g, seat, step.env, id);
        hide DrawOne, HandOf, Inv;
      }
    }
  }

  /** A hand that received cards is another one; with a challenge it held one card. */
  lemma ReceiveIff(g: Game, seat: nat, count: nat, shuffle: Shuffle, id: int)
    requires Inv(g, true) && seat < |g.players| && DrawCardsTo(g, seat, count, shuffle).Some?
    ensures var d := DrawCardsTo(g, seat, count, shuffle).value.0;
            id in d.challenges <==> id in g.challenges && HandOf(d.players, id) == HandOf(g.players, id)
  {
    var (d, drawn) := DrawCardsTo(g, seat, count, shuffle).value;
    var hand := g.players[seat].hand + drawn;
    HandAfter(g.players, seat, hand, id);
    SeatFound2(g, seat);
    if id == g.players[seat].id && id in g.challenges {
      ChallengedSeat(g, id);
      assert SeatOf(g.players, id).value == seat;
      assert drawn == [] <==> hand == g.players[seat].hand;
    }
    hide DealCards, Conserved, SeatOf;
  }

  lemma TakeIff(g: Game, seat: nat, env: Env, id: int)
    requires Inv(g, true) && Shape(g) && seat < |g.players| && g.pendingDraw > 0 && g.phase == Playing
    ensures var g' := TakePenalty(g, seat, env).game;
            id in g'.challenges <==> g'.phase != Finished && id in g.challenges && HandOf(g'.players, id) == HandOf(g.players, id)
  {
    var dealt := DrawCardsTo(g, seat, g.pendingDraw, env.shuffle);
    if dealt.Some? {
      ReceiveIff(g, seat, g.pendingDraw, env.shuffle, id);
      var d := dealt.value.0.(pendingDraw := 0, currentSeat := NextSeat(g, seat, 1));
      assert SeatsBelow(d.candidates, |d.players|) && d.phase == Playing by { hide DealCards, Inv; }
      SettledChallengesIff(d);
      SettledOnly(d);
      hide DrawCardsTo, FinishIfResolved, HandOf, Inv, NextSeat;
    }
  }

  lemma DrawOneIff(g: Game, seat: nat, env: Env, id: int)
    requires Inv(g, true) && Shape(g) && seat < |g.players| && g.phase == Playing && g.pendingDraw == 0
    ensures var g' := DrawOne(g, seat, env).game;
            id in g'.challenges <==> g'.phase != Finished && id in g.challenges && HandOf(g'.players, id) == HandOf(g.players, id)
  {
    var deal := DealCards(g.drawPile, g.discardPile, 1, env.shuffle);
    if deal.Dealt? {
      DrawOneCases(g, seat, env);
      SeatFound2(g, seat);
      if deal.drawn != [] {
        HandAfter(g.players, seat, g.players[seat].hand + [deal.drawn[0]], id);
        assert g.players[seat].hand + [deal.drawn[0]] != g.players[seat].hand;
      }
      hide DealCards, Inv, Playable, NextSeat, SeatOf;
    }
  }

  lemma CatchIff(g: Game, step: Step, id: int)
    requires Inv(g, true) && Shape(g) && step.command.CatchUNO?
    ensures var g' := Apply(g, step.command, step.env).game;
            && (id in g'.challenges <==>
                  g'.phase != Finished && id in g.challenges && HandOf(g'.players, id) == HandOf(g.players, id)
                  && !Ends(g, step, id))
            && !SilentLastButOne(g, step, id)
  {
    var CatchUNO(challengerID, targetID) := step.command;
    if g.phase == Finished { FinishedHasNone(g); }
    if Catch(g, challengerID, targetID, step.env).reply.Drew? {
      var seat := SeatOf(g.players, targetID).value;
      ReceiveIff(g, seat, 2, step.env.shuffle, id);
      assert DrawCardsTo(g, seat, 2, step.env.shuffle).value.0.phase == g.phase by { hide DealCards; }
      hide DrawCardsTo, HandOf, Inv;
    } else {
      CatchRefused(g, challengerID, targetID, step.env);
      hide Catch, HandOf, Inv;
    }
  }

  /** A refused catch tidies away what it found expired, and nothing else. */
  lemma CatchRefused(g: Game, challengerID: int, targetID: int, env: Env)
    requires Inv(g, true) && Shape(g) && !Catch(g, challengerID, targetID, env).reply.Drew?
    ensures var g' := Catch(g, challengerID, targetID, env).game;
            var lapsed := g.phase != Finished && Sits(g, challengerID) && Sits(g, targetID) && challengerID != targetID
                          && targetID in g.challenges && !Open(g, targetID, env.now);
            && g'.players == g.players && g'.phase == g.phase
            && g'.challenges == if lapsed then g.challenges - {targetID} else g.challenges
  {
    hide DealCards, Conserved;
  }

  lemma OtherIff(g: Game, step: Step, id: int)
    requires Inv(g, true) && Shape(g) && (step.command.Pass? || step.command.CallUNO? || step.command.ExpireUNO?)
    ensures var g' := Apply(g, step.command, step.env).game;
            && g'.players == g.players
            && (id in g'.challenges <==> g'.phase != Finished && id in g.challenges && !Ends(g, step, id))
            && !SilentLastButOne(g, step, id)
  {
    if g.phase == Finished { FinishedHasNone(g); }
    match step.command
    case Pass(_) =>
    case CallUNO(caller) => CalledChallenges(g, caller, step.env);
    case ExpireUNO => ExpiredChallenges(g, step.env, id);
    hide Inv, HandOf, ExpiredIDs;
  }

  lemma CalledChallenges(g: Game, caller: int, env: Env)
    requires Inv(g, true) && Shape(g)
    ensures var g' := Call(g, caller, env).game;
            && g'.players == g.players && g'.phase == g.phase
            && g'.challenges == if g.phase != Finished && Sits(g, caller) then g.challenges - {caller} else g.challenges
  {
    assert caller !in g.challenges ==> g.challenges - {caller} == g.challenges;
    assert caller in g.challenges ==> g.challenges[caller].playerID == caller;
    hide Conserved;
  }

  lemma ExpiredChallenges(g: Game, env: Env, id: int)
    requires Inv(g, true)
    ensures id in Expire(g, env).game.challenges <==> Open(g, id, env.now)
  {
    ExpiredIDsAre(g.players, g.challenges, env.now, id);
    if id in g.challenges {
      assert HoldsOneCard(g.players, id);
    }
    hide Conserved, ExpiredIDs;
  }

  // ----- Over whole runs -----

  /** Command i was a silent play down to one card, and no later one has ended the challenge or changed the hand. */
  ghost predicate MissedAndOpen(g0: Game, steps: seq<Step>, i: nat, n: nat, id: int)
    requires Inv(g0, true) && StepsOk(steps) && i < n <= |steps|
  {
    && SilentLastButOne(At(g0, steps, i), steps[i], id)
    && forall k: nat :: i < k < n ==>
         !Ends(At(g0, steps, k), steps[k], id)
         && HandOf(At(g0, steps, k + 1).players, id) == HandOf(At(g0, steps, k).players, id)
  }

  /** Before command n there is a missed call that is still open. */
  ghost predicate MissedSince(g0: Game, steps: seq<Step>, n: nat, id: int)
    requires Inv(g0, true) && StepsOk(steps) && n <= |steps|
  {
    exists i: nat :: i < n && MissedAndOpen(g0, steps, i, n, id)
  }

  /** In every run: a challenge stands exactly if the round goes on and there was a silent play down to one card, since when
      the hand has not changed and nobody has called for it, caught it or found it expired. */
  lemma {:induction false} StandsIff(g0: Game, steps: seq<Step>, n: nat, id: int)
    requires Inv(g0, true) && g0.challenges == map[] && StepsOk(steps) && n <= |steps|
    ensures id in At(g0, steps, n).challenges <==>
              At(g0, steps, n).phase != Finished && MissedSince(g0, steps, n, id)
    decreases n
  {
    hide At, Inv, SilentLastButOne, Apply, HandOf, StepsOk, Ends, MissedAndOpen, MissedSince;
    AtStart(g0, steps);
    if n == 0 {
      NoneMissedYet(g0, steps, id);
    } else {
      StandsIff(g0, steps, n - 1, id);
      AtNext(g0, steps, n - 1);
      ChallengeIff(At(g0, steps, n - 1), steps[n - 1], id);
      OverIsOver(At(g0, steps, n - 1), steps[n - 1]);
      StillMissed(g0, steps, n, id);
    }
  }

  /** What one more command does to a missed call that is open. */
  lemma StillMissed(g0: Game, steps: seq<Step>, n: nat, id: int)
    requires Inv(g0, true) && StepsOk(steps) && 0 < n <= |steps|
    ensures MissedSince(g0, steps, n, id) <==>
              || SilentLastButOne(At(g0, steps, n - 1), steps[n - 1], id)
              || (MissedSince(g0, steps, n - 1, id)
                  && !Ends(At(g0, steps, n - 1), steps[n - 1], id)
                  && HandOf(At(g0, steps, n).players, id) == HandOf(At(g0, steps, n - 1).players, id))
  {
    hide At, Inv, SilentLastButOne, HandOf, StepsOk, Ends, MissedAndOpen;
    JustMissed(g0, steps, n, id);
    forall i: nat | i < n - 1
      ensures MissedAndOpen(g0, steps, i, n, id) <==>
                && MissedAndOpen(g0, steps, i, n - 1, id)
                && !Ends(At(g0, steps, n - 1), steps[n - 1], id)
                && HandOf(At(g0, steps, n).players, id) == HandOf(At(g0, steps, n - 1).players, id)
    {
      OneMoreOpen(g0, steps, i, n, id);
    }
    if MissedSince(g0, steps, n - 1, id) {
      var i: nat :| i < n - 1 && MissedAndOpen(g0, steps, i, n - 1, id);
      assert MissedAndOpen(g0, steps, i, n, id) ==> MissedSince(g0, steps, n, id);
    }
    if MissedSince(g0, steps, n, id) {
      var i: nat :| i < n && MissedAndOpen(g0, steps, i, n, id);
      assert i < n - 1 && MissedAndOpen(g0, steps, i, n - 1, id) ==> MissedSince(g0, steps, n - 1, id);
    }
  }

  lemma JustMissed(g0: Game, steps: seq<Step>, n: nat, id: int)
    requires Inv(g0, true) && StepsOk(steps) && 0 < n <= |steps|
    ensures MissedAndOpen(g0, steps, n - 1, n, id) <==> SilentLastButOne(At(g0, steps, n - 1), steps[n - 1], id)
  {
    hide At, Inv, SilentLastButOne, HandOf, StepsOk, Ends;
  }

  lemma OneMoreOpen(g0: Game, steps: seq<Step>, i: nat, n: nat, id: int)
    requires Inv(g0, true) && StepsOk(steps) && i < n - 1 < n <= |steps|
    ensures MissedAndOpen(g0, steps, i, n, id) <==>
              && MissedAndOpen(g0, steps, i, n - 1, id)
              && !Ends(At(g0, steps, n - 1), steps[n - 1], id)
              && HandOf(At(g0, steps, n).players, id) == HandOf(At(g0, steps, n - 1).players, id)
  {
    hide At, Inv, SilentLastButOne, HandOf, StepsOk, Ends;
  }

  lemma NoneMissedYet(g0: Game, steps: seq<Step>, id: int)
    requires Inv(g0, true) && StepsOk(steps)
    ensures !MissedSince(g0, steps, 0, id)
  {
  }

  lemma OverIsOver(g: Game, step: Step)
    requires Inv(g, true) && Shape(g)
    ensures g.phase == Finished ==> Apply(g, step.command, step.env).game.phase == Finished
  {
    if g.phase == Finished {
      FinishedHasNone(g);
      hide DrawCard, ExpiredIDs;
    }
  }

  /** The call of `id` at command k was accepted. */
  ghost predicate CalledAt(g0: Game, steps: seq<Step>, k: nat, id: int)
    requires Inv(g0, true) && StepsOk(steps) && k < |steps|
  {
    steps[k].command == CallUNO(id) && Apply(At(g0, steps, k), steps[k].command, steps[k].env).reply == Done
  }

  /** Who has called in time is safe: between an accepted call and a later penalty for the same player lies another silent
      play down to one card. */
  lemma CalledIsSafe(g0: Game, steps: seq<Step>, a: nat, b: nat, id: int) returns (i: nat)
    requires Inv(g0, true) && g0.challenges == map[] && StepsOk(steps) && a < b < |steps|
    requires CalledAt(g0, steps, a, id) && CaughtBy(g0, steps, b, id)
    ensures a < i < b && SilentLastButOne(At(g0, steps, i), steps[i], id)
    ensures steps[b].env.now < steps[i].env.now + steps[i].env.window
  {
    AtNext(g0, steps, a);
    CalledAway(At(g0, steps, a), steps[a], id);
    CaughtAt(g0, steps, b, id);
    hide Catch, At, Inv;
    i := LaterOrigin(g0, steps, a, b, id);
  }

  lemma CalledAway(g: Game, step: Step, id: int)
    requires Inv(g, true) && Shape(g) && step.command == CallUNO(id) && Apply(g, step.command, step.env).reply == Done
    ensures id !in Apply(g, step.command, step.env).game.challenges
  {
    hide Conserved;
    CallMeans(g, id, step.env);
  }
}
