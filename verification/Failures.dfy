/** A refused command changes nothing that anybody can see. */
module Failures {
  import opened Cards
  import opened Piles
  import opened Rules
  import opened Views

  /** The command looked up a challenge that had expired, and dropped it. */
  ghost predicate DroppedExpired(g: Game, g': Game, command: Command, now: int) {
    && (command.CallUNO? || command.CatchUNO?)
    && var id := if command.CallUNO? then command.playerID else command.targetID;
       && id in g.challenges && DeadlineReached(now, g.challenges[id].expiresAt)
       && g' == Forget(g, id)
  }

  lemma DrawFailure(g: Game, playerID: int, env: Env)
    requires Shape(g) && DrawCard(g, playerID, env).reply.Failed?
    ensures DrawCard(g, playerID, env).game == g
  {
    hide DealCards, FinishIfResolved, Playable;
  }

  lemma CatchFailure(g: Game, challengerID: int, targetID: int, env: Env)
    requires Shape(g) && Catch(g, challengerID, targetID, env).reply.Failed?
    ensures var g' := Catch(g, challengerID, targetID, env).game;
            g' == g || DroppedExpired(g, g', CatchUNO(challengerID, targetID), env.now)
  {
    hide DealCards, SeatOf;
  }

  /** A refused command leaves the game as it was, but for an expired challenge that a call or a catch tidied away. */
  lemma RefusedKeepsGame(g: Game, command: Command, env: Env)
    requires Shape(g) && Apply(g, command, env).reply.Failed?
    ensures var g' := Apply(g, command, env).game;
            g' == g || DroppedExpired(g, g', command, env.now)
  {
    match command
    case Play(playerID, cardID, sayUNO) => hide PlayCheck, ApplyCardEffect, Discarded;
    case ChooseColor(_, _) => hide ApplyCardEffect;
    case Draw(playerID) =>
      DrawFailure(g, playerID, env);
      hide DrawCard;
    case CatchUNO(challengerID, targetID) =>
      CatchFailure(g, challengerID, targetID, env);
      hide Catch;
    case _ =>
  }

  /** A call or catch that gets as far as looking up a challenge, and finds it expired. */
  predicate LooksUpExpired(g: Game, command: Command, now: int) {
    match command
    case CallUNO(id) =>
      && g.phase != Finished && SeatOf(g.players, id).Some?
      && id in g.challenges && DeadlineReached(now, g.challenges[id].expiresAt)
    case CatchUNO(challenger, id) =>
      && g.phase != Finished && SeatOf(g.players, challenger).Some? && SeatOf(g.players, id).Some? && challenger != id
      && id in g.challenges && DeadlineReached(now, g.challenges[id].expiresAt)
    case _ => false
  }

  /** A refused command changes the game exactly when it looks up an expired challenge. */
  lemma RefusedChangesIff(g: Game, command: Command, env: Env)
    requires Shape(g) && Apply(g, command, env).reply.Failed?
    ensures Apply(g, command, env).game != g <==> LooksUpExpired(g, command, env.now)
  {
    match command
    case Play(playerID, cardID, sayUNO) => hide PlayCheck, ApplyCardEffect, Discarded;
    case ChooseColor(_, _) => hide ApplyCardEffect;
    case Draw(playerID) =>
      DrawFailure(g, playerID, env);
      hide DrawCard;
    case CatchUNO(challengerID, targetID) =>
      CatchFailureIff(g, challengerID, targetID, env);
      hide Catch;
    case CallUNO(playerID) =>
      if LooksUpExpired(g, command, env.now) { assert playerID !in Forget(g, playerID).challenges; }
    case _ =>
  }

  lemma CatchFailureIff(g: Game, challengerID: int, targetID: int, env: Env)
    requires Shape(g) && Catch(g, challengerID, targetID, env).reply.Failed?
    ensures Catch(g, challengerID, targetID, env).game != g <==> LooksUpExpired(g, CatchUNO(challengerID, targetID), env.now)
  {
    if LooksUpExpired(g, CatchUNO(challengerID, targetID), env.now) {
      assert targetID !in Forget(g, targetID).challenges;
    }
    hide DealCards, SeatOf;
  }

  lemma {:induction false} ExpiredNotLive(players: seq<Player>, challenges: map<int, Challenge>, id: int, now: int)
    requires id in challenges && DeadlineReached(now, challenges[id].expiresAt)
    ensures LiveChallenges(players, challenges - {id}, now) == LiveChallenges(players, challenges, now)
  {
    if players != [] {
      ExpiredNotLive(players[1..], challenges, id, now);
    }
  }

  lemma {:induction false} ForgetOffers(g: Game, id: int, hand: seq<Card>)
    requires Shape(g)
    ensures OfferedIDs(Forget(g, id), hand) == OfferedIDs(g, hand)
  {
    if hand != [] {
      ForgetOffers(g, id, hand[1..]);
    }
  }

  /** From the moment of the refusal on, every player sees what he would have seen without it. */
  lemma RefusedUnseen(g: Game, command: Command, env: Env, playerID: int, later: int)
    requires Shape(g) && Apply(g, command, env).reply.Failed? && later >= env.now
    ensures Shape(Apply(g, command, env).game)
    ensures ViewFor(Apply(g, command, env).game, playerID, later) == ViewFor(g, playerID, later)
  {
    RefusedKeepsGame(g, command, env);
    var g' := Apply(g, command, env).game;
    hide Apply;
    if g' != g {
      var id := if command.CallUNO? then command.playerID else command.targetID;
      ExpiredNotLive(g.players, g.challenges, id, later);
      var seat := SeatOf(g.players, playerID);
      if seat.Some? {
        ForgetOffers(g, id, g.players[seat.value].hand);
      }
    }
  }
}
