/** Games that were dealt and then played: what holds after every sequence of commands. */
module Runs {
  import opened Wrappers
  import opened Cards
  import opened Piles
  import opened Rules
  import opened Invariant
  import opened Preservation
  import opened Setup
  import opened Snapshots

  datatype Step = Step(command: Command, env: Env)

  ghost predicate StepsOk(steps: seq<Step>) {
    forall i :: 0 <= i < |steps| ==> EnvOk(steps[i].env)
  }

  /** A freshly dealt game. */
  ghost predicate Fresh(g: Game) {
    exists ids: seq<int>, dealerSeat: int, shuffles: nat -> Shuffle ::
      (forall i :: Permuting(shuffles(i))) && NewGame(ids, dealerSeat, shuffles) == Ok(g)
  }

  lemma FreshInv(g: Game)
    requires Fresh(g)
    ensures Inv(g, true) && g.challenges == map[] && g.pendingDraw == 0 && g.candidates == []
    ensures forall s :: 0 <= s < |g.players| ==> g.players[s].hand != []
    ensures |g.discardPile| == 1 && Top(g).kind != WildDrawFour
  {
    var ids: seq<int>, dealerSeat: int, shuffles: nat -> Shuffle :|
      (forall i :: Permuting(shuffles(i))) && NewGame(ids, dealerSeat, shuffles) == Ok(g);
    NewGameInv(ids, dealerSeat, shuffles);
    hide NewGame;
  }

  // ----- Runs -----

  lemma ApplySeats(g: Game, command: Command, env: Env)
    requires Shape(g)
    ensures SameSeats(Apply(g, command, env).game.players, g.players)
  {
    hide DealCards, FinishIfResolved, Turned;
    match command
    case Play(playerID, cardID, sayUNO) => PlaySeats(g, playerID, cardID, sayUNO, env);
    case ChooseColor(playerID, color) => PickSeats(g, playerID, color);
    case Draw(playerID) => DrawSeats(g, playerID, env);
    case _ =>
  }

  lemma SettledPlayers(g: Game)
    requires SeatsBelow(g.candidates, |g.players|)
    ensures FinishIfResolved(g).players == g.players
  {
  }

  lemma EffectPlayers(g: Game, seat: int, card: Card)
    requires |g.players| > 0 && SeatsBelow(g.candidates, |g.players|)
    ensures ApplyCardEffect(g, seat, card).players == g.players
  {
    SettledPlayers(Turned(g, seat, card));
  }

  lemma PlaySeats(g: Game, playerID: int, cardID: int, sayUNO: bool, env: Env)
    requires Shape(g)
    ensures SameSeats(PlayCard(g, playerID, cardID, sayUNO, env).game.players, g.players)
  {
    var check := PlayCheck(g, playerID, cardID);
    if check.Ok? {
      var (seat, index) := check.value;
      var card := g.players[seat].hand[index];
      EffectPlayers(Discarded(g, seat, index, sayUNO, env).(color := card.color), seat, card);
    }
  }

  lemma PickSeats(g: Game, playerID: int, color: Color)
    requires Shape(g)
    ensures PickColor(g, playerID, color).game.players == g.players
  {
    if g.pendingColor.Some? {
      EffectPlayers(g.(color := color, pendingColor := None, phase := Playing), g.pendingColor.value.seat,
                    g.pendingColor.value.card);
    }
  }

  lemma DrawSeats(g: Game, playerID: int, env: Env)
    requires Shape(g)
    ensures SameSeats(DrawCard(g, playerID, env).game.players, g.players)
  {
    if CurrentPlayer(g, playerID).Ok? && g.pendingDraw > 0 {
      var seat := CurrentPlayer(g, playerID).value;
      var dealt := DrawCardsTo(g, seat, g.pendingDraw, env.shuffle);
      hide DealCards;
      if dealt.Some? {
        SettledPlayers(dealt.value.0.(pendingDraw := 0, currentSeat := NextSeat(g, seat, 1)));
      }
    }
  }

  /** The game after the commands, one by one. */
  ghost function After(g0: Game, steps: seq<Step>, exact: bool): (g: Game)
    requires Inv(g0, exact) && StepsOk(steps)
    ensures Inv(g, exact) && SameSeats(g.players, g0.players)
    decreases |steps|
  {
    if steps == [] then g0
    else
      var g := After(g0, steps[..|steps| - 1], exact);
      var last := steps[|steps| - 1];
      ApplyInv(g, last.command, last.env, exact);
      ApplySeats(g, last.command, last.env);
      Apply(g, last.command, last.env).game
  }

  /** After every command of every run the saved game is accepted and restores to the very same state. */
  lemma EverySaveRestores(g0: Game, steps: seq<Step>, exact: bool)
    requires Inv(g0, exact) && StepsOk(steps)
    ensures var g := After(g0, steps, exact);
            ValidSnapshot(TakeSnapshot(g)) && Restore(TakeSnapshot(g)) == Ok(g)
  {
    InvValid(After(g0, steps, exact), exact);
    RestoreSnapshot(After(g0, steps, exact), exact);
  }

  lemma AfterOneMore(g0: Game, steps: seq<Step>, step: Step, exact: bool)
    requires Inv(g0, exact) && StepsOk(steps + [step])
    ensures StepsOk(steps) && EnvOk(step.env) && Shape(After(g0, steps, exact))
    ensures After(g0, steps + [step], exact) == Apply(After(g0, steps, exact), step.command, step.env).game
  {
    assert (steps + [step])[|steps|] == step;
    assert (steps + [step])[..|steps + [step]| - 1] == steps;
    forall i | 0 <= i < |steps| ensures EnvOk(steps[i].env) { assert (steps + [step])[i] == steps[i]; }
    InvShape(After(g0, steps, exact), exact);
  }

  lemma {:induction false} AfterConcat(g0: Game, a: seq<Step>, b: seq<Step>, exact: bool)
    requires Inv(g0, exact) && StepsOk(a) && StepsOk(b)
    ensures StepsOk(a + b) && After(g0, a + b, exact) == After(After(g0, a, exact), b, exact)
    decreases |b|
  {
    assert StepsOk(a + b);
    if b == [] {
      assert a + b == a;
    } else {
      var front, last := b[..|b| - 1], b[|b| - 1];
      assert b == front + [last] && a + b == (a + front) + [last];
      hide Inv, After, Apply, EnvOk, SameSeats;
      AfterConcat(g0, a, front, exact);
      AfterOneMore(g0, a + front, last, exact);
      AfterOneMore(After(g0, a, exact), front, last, exact);
    }
  }

  lemma LastStep(steps: seq<Step>)
    requires steps != [] && StepsOk(steps)
    ensures steps == steps[..|steps| - 1] + [steps[|steps| - 1]] && StepsOk(steps[..|steps| - 1])
  {
  }

  /** Saving and restoring at any moment of a run changes nothing that happens later. */
  lemma ResumeAnywhere(g0: Game, a: seq<Step>, b: seq<Step>, exact: bool)
    requires Inv(g0, exact) && StepsOk(a) && StepsOk(b)
    ensures var resumed := Restore(TakeSnapshot(After(g0, a, exact)));
            && resumed.Ok? && Inv(resumed.value, exact)
            && StepsOk(a + b) && After(resumed.value, b, exact) == After(g0, a + b, exact)
  {
    RestoreSnapshot(After(g0, a, exact), exact);
    AfterConcat(g0, a, b, exact);
  }

  /** A saved game that passes the check can be played on for ever without losing validity, unless it is a dead opening. */
  lemma RestoredRunsStayValid(s: Snapshot, steps: seq<Step>)
    requires ValidSnapshot(s) && !DeadOpening(s) && StepsOk(steps)
    ensures Inv(Restored(s), false)
    ensures ValidSnapshot(TakeSnapshot(After(Restored(s), steps, false)))
  {
    RestoredInv(s);
    InvValid(After(Restored(s), steps, false), false);
  }
}
