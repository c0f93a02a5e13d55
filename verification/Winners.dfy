/** Who wins: the first player to go out among those still without cards when the round can be settled. */
module Winners {
  import opened Wrappers
  import opened Cards
  import opened Piles
  import opened Rules
  import opened Invariant
  import opened Preservation
  import opened Runs

  /** A finished game never changes again. */
  lemma FinishedStays(g: Game, command: Command, env: Env)
    requires Inv(g, true) && g.phase == Finished
    ensures Apply(g, command, env).game == g
  {
    if command.ExpireUNO? {
      NoneExpired(g.players, env.now);
    }
  }

  lemma {:induction false} NoneExpired(players: seq<Player>, now: int)
    ensures ExpiredIDs(players, map[], now) == []
  {
    if players != [] {
      NoneExpired(players[1..], now);
    }
  }

  /** How the list of players who are out changes: not at all, somebody who drew leaves it, or somebody who has
      just played the last card joins at its end. */
  datatype Change = Same | BackIn(seat: nat) | Out(seat: nat)

  function Changed(candidates: seq<int>, change: Change): seq<int> {
    match change
    case Same => candidates
    case BackIn(s) => Without(candidates, s)
    case Out(s) => candidates + [s]
  }

  ghost predicate ChangeOk(before: seq<Player>, after: seq<Player>, change: Change) {
    && |after| == |before|
    && match change
       case Same => true
       case BackIn(s) => s < |before| && after[s].hand != []
       case Out(s) => s < |before| && before[s].hand != [] && after[s].hand == []
  }

  /** A round that ends keeps only the first of the list. */
  ghost predicate Kept(g': Game, list: seq<int>) {
    if g'.phase == Finished then list != [] && g'.candidates == [list[0]] else g'.candidates == list
  }

  /** The list is changed in one of these ways and then holds exactly the seats that are out. */
  ghost predicate NextCandidates(g: Game, g': Game, change: Change) {
    && ChangeOk(g.players, g'.players, change)
    && InvCandidates(g'.players, Changed(g.candidates, change), true)
    && Kept(g', Changed(g.candidates, change))
  }

  lemma Unchanged(g: Game, g': Game)
    requires Inv(g', true) && g'.phase != Finished
    requires g'.candidates == g.candidates && |g'.players| == |g.players|
    ensures NextCandidates(g, g', Same)
  {
  }

  /** Settling keeps the list, or ends the round with its first seat. */
  lemma SettledCandidates(g: Game)
    requires Unsettled(g, true) && g.phase == Playing
    ensures FinishIfResolved(g).players == g.players && Kept(FinishIfResolved(g), g.candidates)
  {
    StillEmptyAll(g.players, g.candidates);
    hide Unsettled;
  }

  lemma EffectCandidates(g: Game, seat: int, card: Card)
    requires Unsettled(g.(phase := Playing, pendingDraw := 0), true) && g.pendingDraw >= 0 && g.pendingDraw % 2 == 0
    requires card == Top(g) && (g.pendingDraw > 0 ==> card.IsDrawPenalty())
    ensures ApplyCardEffect(g, seat, card).players == g.players && Kept(ApplyCardEffect(g, seat, card), g.candidates)
  {
    TurnedInv(g, seat, card, true);
    assert Turned(g, seat, card).players == g.players && Turned(g, seat, card).candidates == g.candidates;
    hide Unsettled, Turned, Kept;
    SettledCandidates(Turned(g, seat, card));
  }

  /** The list after a command: the seats that are out, in the order they went out. */
  lemma CandidatesStep(g: Game, command: Command, env: Env) returns (change: Change)
    requires Inv(g, true) && EnvOk(env) && g.phase != Finished
    ensures NextCandidates(g, Apply(g, command, env).game, change)
  {
    ApplyInv(g, command, env, true);
    change := Same;
    InvShape(g, true);
    hide NextCandidates, PlayCard, PickColor, DrawCard, Catch, PassTurn, Call, Expire, Inv;
    match command
    case Play(playerID, cardID, sayUNO) => change := PlayCandidates(g, playerID, cardID, sayUNO, env);
    case ChooseColor(playerID, color) => PickCandidates(g, playerID, color);
    case Draw(playerID) => change := DrawCandidates(g, playerID, env);
    case CatchUNO(challengerID, targetID) => CatchCandidates(g, challengerID, targetID, env);
    case _ =>
      OtherKeepList(g, command, env);
      Unchanged(g, Apply(g, command, env).game);
  }

  lemma OtherKeepList(g: Game, command: Command, env: Env)
    requires Shape(g) && g.phase != Finished && (command.Pass? || command.CallUNO? || command.ExpireUNO?)
    ensures var g' := Apply(g, command, env).game;
            g'.phase != Finished && g'.candidates == g.candidates && |g'.players| == |g.players|
  {
  }

  lemma PlayCandidates(g: Game, playerID: int, cardID: int, sayUNO: bool, env: Env) returns (change: Change)
    requires Inv(g, true) && EnvOk(env) && g.phase != Finished
    ensures NextCandidates(g, PlayCard(g, playerID, cardID, sayUNO, env).game, change)
  {
    change := Same;
    var check := PlayCheck(g, playerID, cardID);
    if check.Err? {
      Unchanged(g, g);
    } else {
      PlayCheckFacts(g, playerID, cardID);
      change := DiscardChange(g, check.value.1, sayUNO, env);
      hide NextCandidates, Inv, Discarded, ApplyCardEffect, Changed, PlayCheck;
      PlayedKept(g, playerID, cardID, sayUNO, env);
      FromDiscard(g, Discarded(g, check.value.0, check.value.1, sayUNO, env),
                  PlayCard(g, playerID, cardID, sayUNO, env).game, change);
    }
  }

  lemma FromDiscard(g: Game, d: Game, g': Game, change: Change)
    requires ChangeOk(g.players, d.players, change) && d.candidates == Changed(g.candidates, change)
    requires InvCandidates(d.players, d.candidates, true)
    requires g'.players == d.players && Kept(g', d.candidates)
    ensures NextCandidates(g, g', change)
  {
  }

  lemma DiscardChange(g: Game, index: nat, sayUNO: bool, env: Env) returns (change: Change)
    requires Inv(g, true) && EnvOk(env) && g.phase != Finished && index < |g.players[g.currentSeat].hand|
    ensures var d := Discarded(g, g.currentSeat, index, sayUNO, env);
            && ChangeOk(g.players, d.players, change)
            && d.candidates == Changed(g.candidates, change)
            && InvCandidates(d.players, d.candidates, true)
  {
    DiscardedInv(g, g.currentSeat, index, sayUNO, env, true);
    change := if RemoveAt(g.players[g.currentSeat].hand, index) == [] then Out(g.currentSeat) else Same;
    assert g.currentSeat !in g.candidates;
  }

  lemma PlayedKept(g: Game, playerID: int, cardID: int, sayUNO: bool, env: Env)
    requires Inv(g, true) && EnvOk(env) && PlayCheck(g, playerID, cardID).Ok?
    ensures var (seat, index) := PlayCheck(g, playerID, cardID).value;
            var d := Discarded(g, seat, index, sayUNO, env);
            var g' := PlayCard(g, playerID, cardID, sayUNO, env).game;
            g'.players == d.players && Kept(g', d.candidates)
  {
    var (seat, index) := PlayCheck(g, playerID, cardID).value;
    var card := g.players[seat].hand[index];
    PlayCheckFacts(g, playerID, cardID);
    if !card.IsWild() {
      ColoredDiscarded(g, index, sayUNO, env, true);
      EffectCandidates(Discarded(g, seat, index, sayUNO, env).(color := card.color), seat, card);
      hide ApplyCardEffect, Unsettled, Kept;
    }
  }

  lemma PickCandidates(g: Game, playerID: int, color: Color)
    requires Inv(g, true) && g.phase != Finished
    ensures NextCandidates(g, PickColor(g, playerID, color).game, Same)
  {
    if g.phase == AwaitingColor && color.Valid() {
      var p := g.pendingColor.value;
      EffectCandidates(g.(color := color, pendingColor := None, phase := Playing), p.seat, p.card);
    }
  }

  lemma DrawCandidates(g: Game, playerID: int, env: Env) returns (change: Change)
    requires Inv(g, true) && EnvOk(env) && g.phase != Finished && Inv(DrawCard(g, playerID, env).game, true)
    ensures NextCandidates(g, DrawCard(g, playerID, env).game, change)
  {
    change := Same;
    if g.phase == Playing && CurrentPlayer(g, playerID).Ok? {
      var seat := CurrentPlayer(g, playerID).value;
      if g.pendingDraw == 0 {
        DrawOneKeepsList(g, seat, env);
        hide DrawOne, NextCandidates;
        Unchanged(g, DrawOne(g, seat, env).game);
      } else {
        change := PenaltyCandidates(g, seat, env);
      }
    }
  }

  lemma DrawOneKeepsList(g: Game, seat: nat, env: Env)
    requires Shape(g) && seat < |g.players| && g.phase == Playing
    ensures var g' := DrawOne(g, seat, env).game;
            g'.phase != Finished && g'.candidates == g.candidates && |g'.players| == |g.players|
  {
    hide DealCards;
  }

  lemma PenaltyCandidates(g: Game, seat: nat, env: Env) returns (change: Change)
    requires Inv(g, true) && EnvOk(env) && g.phase == Playing && g.pendingDraw > 0 && seat < |g.players|
    ensures NextCandidates(g, TakePenalty(g, seat, env).game, change)
  {
    change := Same;
    var dealt := DrawCardsTo(g, seat, g.pendingDraw, env.shuffle);
    if dealt.None? {
      Unchanged(g, g);
    } else {
      DrawCardsToInv(g, seat, g.pendingDraw, env.shuffle, true);
      NextSeatInRange(g, seat, 1);
      change := ReceiveChange(g, seat, g.pendingDraw, env.shuffle);
      TakenKept(g, seat, env);
      hide NextCandidates, DrawCardsTo, TakePenalty, Inv, Changed;
      FromDiscard(g, dealt.value.0, TakePenalty(g, seat, env).game, change);
    }
  }

  lemma TakenKept(g: Game, seat: nat, env: Env)
    requires Inv(g, true) && EnvOk(env) && g.phase == Playing && g.pendingDraw > 0 && seat < |g.players|
    requires DrawCardsTo(g, seat, g.pendingDraw, env.shuffle).Some?
    ensures var d := DrawCardsTo(g, seat, g.pendingDraw, env.shuffle).value.0;
            var g' := TakePenalty(g, seat, env).game;
            g'.players == d.players && Kept(g', d.candidates)
  {
    var d := DrawCardsTo(g, seat, g.pendingDraw, env.shuffle).value.0;
    DrawCardsToInv(g, seat, g.pendingDraw, env.shuffle, true);
    NextSeatInRange(g, seat, 1);
    hide Inv, Kept;
    PenaltyKept(g, d, NextSeat(g, seat, 1));
  }

  lemma ReceiveChange(g: Game, seat: nat, count: nat, shuffle: Shuffle) returns (change: Change)
    requires seat < |g.players| && DrawCardsTo(g, seat, count, shuffle).Some?
    ensures var d := DrawCardsTo(g, seat, count, shuffle).value.0;
            ChangeOk(g.players, d.players, change) && d.candidates == Changed(g.candidates, change)
  {
    var d, drawn := DrawCardsTo(g, seat, count, shuffle).value.0, DrawCardsTo(g, seat, count, shuffle).value.1;
    hide DealCards;
    change := if drawn == [] then Same else BackIn(seat);
  }

  lemma PenaltyKept(g: Game, d: Game, seat: int)
    requires Inv(g, true) && g.phase == Playing && 0 <= seat < |g.players| == |d.players|
    requires |d.discardPile| > 0 && Top(d) == Top(g)
    requires d == g.(players := d.players, drawPile := d.drawPile, discardPile := d.discardPile,
                     challenges := d.challenges, candidates := d.candidates)
    requires InvTable(d.players, d.dealerSeat, d.direction) && Conserved(d)
    requires InvCandidates(d.players, d.candidates, true) && InvChallenges(d.players, d.challenges)
    ensures var g' := FinishIfResolved(d.(pendingDraw := 0, currentSeat := seat));
            g'.players == d.players && Kept(g', d.candidates)
  {
    SettledCandidates(d.(pendingDraw := 0, currentSeat := seat));
  }

  lemma CatchCandidates(g: Game, challengerID: int, targetID: int, env: Env)
    requires Inv(g, true) && EnvOk(env) && g.phase != Finished && Inv(Catch(g, challengerID, targetID, env).game, true)
    ensures NextCandidates(g, Catch(g, challengerID, targetID, env).game, Same)
  {
    CatchKeepsList(g, challengerID, targetID, env);
    hide Catch, NextCandidates;
    Unchanged(g, Catch(g, challengerID, targetID, env).game);
  }

  lemma CatchKeepsList(g: Game, challengerID: int, targetID: int, env: Env)
    requires Inv(g, true) && g.phase != Finished
    ensures var g' := Catch(g, challengerID, targetID, env).game;
            g'.phase == g.phase && g'.candidates == g.candidates && |g'.players| == |g.players|
  {
    if targetID in g.challenges {
      ChallengedSeat(g, targetID);
      HolderKeepsList(g, SeatOf(g.players, targetID).value, env);
    }
    InvShape(g, true);
    hide DealCards, Inv, SeatOf, DrawCardsTo;
  }

  lemma HolderKeepsList(g: Game, seat: nat, env: Env)
    requires Inv(g, true) && seat < |g.players| && g.players[seat].hand != []
    ensures var dealt := DrawCardsTo(g, seat, 2, env.shuffle);
            dealt.Some? ==> dealt.value.0.candidates == g.candidates && dealt.value.0.phase == g.phase
                            && |dealt.value.0.players| == |g.players|
  {
    assert seat !in g.candidates;
    WithoutAbsent(g.candidates, seat);
    hide DealCards, Inv;
  }

  // ----- Over whole runs -----

  /** The number of the command that last emptied a seat's hand; -1 when none did. */
  ghost function EmptiedAt(g0: Game, steps: seq<Step>, seat: nat): int
    requires Inv(g0, true) && StepsOk(steps) && seat < |g0.players|
    decreases |steps|
  {
    if steps == [] then -1
    else
      var before := After(g0, steps[..|steps| - 1], true);
      if before.players[seat].hand != [] && After(g0, steps, true).players[seat].hand == [] then |steps|
      else EmptiedAt(g0, steps[..|steps| - 1], seat)
  }

  ghost function Times(g0: Game, steps: seq<Step>): int -> int
    requires Inv(g0, true) && StepsOk(steps)
  {
    (s: int) => if 0 <= s < |g0.players| then EmptiedAt(g0, steps, s) else -1
  }

  ghost predicate Rising(time: int -> int, list: seq<int>) {
    forall i, j :: 0 <= i < j < |list| ==> time(list[i]) < time(list[j])
  }

  lemma {:induction false} EmptiedAtBound(g0: Game, steps: seq<Step>, seat: nat)
    requires Inv(g0, true) && StepsOk(steps) && seat < |g0.players|
    ensures -1 <= EmptiedAt(g0, steps, seat) <= |steps|
    decreases |steps|
  {
    if steps != [] {
      EmptiedAtBound(g0, steps[..|steps| - 1], seat);
    }
  }

  lemma {:induction false} WithoutRising(time: int -> int, list: seq<int>, x: int)
    requires Rising(time, list)
    ensures Rising(time, Without(list, x))
  {
    if list != [] {
      WithoutRising(time, list[1..], x);
      var rest := Without(list[1..], x);
      forall j | 0 <= j < |rest| ensures time(list[0]) < time(rest[j]) {
        assert rest[j] in list[1..];
        var k :| 0 <= k < |list[1..]| && list[1..][k] == rest[j];
        assert list[k + 1] == rest[j];
      }
    }
  }

  lemma RisingSame(time: int -> int, time': int -> int, list: seq<int>)
    requires Rising(time, list) && forall i :: 0 <= i < |list| ==> time'(list[i]) == time(list[i])
    ensures Rising(time', list)
  {
  }

  lemma RisingAppend(time: int -> int, list: seq<int>, s: int)
    requires Rising(time, list) && forall i :: 0 <= i < |list| ==> time(list[i]) < time(s)
    ensures Rising(time, list + [s])
  {
  }

  /** One more command that leaves a hand as empty as it was does not move its time. */
  lemma SameTime(g0: Game, steps: seq<Step>, step: Step, seat: nat)
    requires Inv(g0, true) && StepsOk(steps + [step]) && StepsOk(steps) && seat < |g0.players|
    requires After(g0, steps, true).players[seat].hand == []
    ensures EmptiedAt(g0, steps + [step], seat) == EmptiedAt(g0, steps, seat)
  {
    assert (steps + [step])[..|steps + [step]| - 1] == steps;
  }

  lemma NewTime(g0: Game, steps: seq<Step>, step: Step, seat: nat)
    requires Inv(g0, true) && StepsOk(steps + [step]) && StepsOk(steps) && seat < |g0.players|
    requires After(g0, steps, true).players[seat].hand != [] && After(g0, steps + [step], true).players[seat].hand == []
    ensures EmptiedAt(g0, steps + [step], seat) == |steps| + 1
  {
    assert (steps + [step])[..|steps + [step]| - 1] == steps;
  }

  /** Seats that were out before and still are keep their order. */
  lemma KeptRising(g0: Game, steps: seq<Step>, step: Step, kept: seq<int>)
    requires Inv(g0, true) && StepsOk(steps + [step]) && StepsOk(steps)
    requires InvCandidates(After(g0, steps, true).players, After(g0, steps, true).candidates, true)
    requires Rising(Times(g0, steps), kept)
    requires forall i :: 0 <= i < |kept| ==> kept[i] in After(g0, steps, true).candidates
    ensures Rising(Times(g0, steps + [step]), kept)
    ensures forall i :: 0 <= i < |kept| ==> Times(g0, steps + [step])(kept[i]) <= |steps|
  {
    var g := After(g0, steps, true);
    hide Inv, After, EmptiedAt;
    forall i | 0 <= i < |kept|
      ensures Times(g0, steps + [step])(kept[i]) == Times(g0, steps)(kept[i]) <= |steps|
    {
      var k :| 0 <= k < |g.candidates| && g.candidates[k] == kept[i];
      SameTime(g0, steps, step, kept[i]);
      EmptiedAtBound(g0, steps, kept[i]);
    }
    RisingSame(Times(g0, steps), Times(g0, steps + [step]), kept);
  }

  /** The list a command makes is in the order of going out when the one before was. */
  lemma ChangedRising(g0: Game, steps: seq<Step>, step: Step, change: Change)
    requires Inv(g0, true) && StepsOk(steps + [step]) && StepsOk(steps)
    requires var g, g' := After(g0, steps, true), After(g0, steps + [step], true);
             && g.phase != Finished
             && NextCandidates(g, g', change)
             && Rising(Times(g0, steps), g.candidates)
    ensures Rising(Times(g0, steps + [step]), Changed(After(g0, steps, true).candidates, change))
  {
    var candidates := After(g0, steps, true).candidates;
    match change
    case Same => KeptRising(g0, steps, step, candidates);
    case BackIn(s) =>
      WithoutRising(Times(g0, steps), candidates, s);
      KeptRising(g0, steps, step, Without(candidates, s));
    case Out(s) =>
      KeptRising(g0, steps, step, candidates);
      NewTime(g0, steps, step, s);
      hide Inv, After, EmptiedAt, Rising;
      RisingAppend(Times(g0, steps + [step]), candidates, s);
  }

  /** Until the round ends the candidates are the seats without cards, in the order they went out. */
  ghost predicate OutInOrder(g0: Game, steps: seq<Step>)
    requires Inv(g0, true) && StepsOk(steps)
  {
    Rising(Times(g0, steps), After(g0, steps, true).candidates)
  }

  lemma {:induction false} CandidatesInOrder(g0: Game, steps: seq<Step>)
    requires Inv(g0, true) && g0.candidates == [] && StepsOk(steps)
    requires After(g0, steps, true).phase != Finished
    ensures OutInOrder(g0, steps)
    decreases |steps|
  {
    if steps != [] {
      hide Inv, After, EmptiedAt, Apply, NextCandidates, Changed;
      var front, last := steps[..|steps| - 1], steps[|steps| - 1];
      LastStep(steps);
      AfterOneMore(g0, front, last, true);
      var g := After(g0, front, true);
      if g.phase == Finished {
        FinishedStays(g, last.command, last.env);
        assert false;
      }
      CandidatesInOrder(g0, front);
      var change := CandidatesStep(g, last.command, last.env);
      NextKept(g, After(g0, steps, true), change);
      ChangedRising(g0, front, last, change);
    }
  }

  lemma NextKept(g: Game, g': Game, change: Change)
    requires NextCandidates(g, g', change)
    ensures InvCandidates(g'.players, Changed(g.candidates, change), true) && Kept(g', Changed(g.candidates, change))
  {
  }

  /** While a round goes on the candidates are exactly the seats without cards. */
  lemma CandidatesAreOut(g: Game)
    requires Inv(g, true) && g.phase != Finished
    ensures forall s :: 0 <= s < |g.players| ==> (s in g.candidates <==> g.players[s].hand == [])
    ensures DistinctSeats(g.candidates)
  {
  }

  /** A round is over exactly when somebody has no cards and neither a penalty nor a colour choice is pending. */
  lemma FinishedIff(g: Game)
    requires Inv(g, true)
    ensures g.phase == Finished <==>
            && g.pendingDraw == 0
            && g.phase != AwaitingColor
            && exists s :: 0 <= s < |g.players| && g.players[s].hand == []
  {
    if g.phase == Finished {
      assert g.players[g.candidates[0]].hand == [];
    }
  }

  /** `w` went out before every other player who is still without cards. */
  ghost predicate FirstOut(g0: Game, steps: seq<Step>, w: int)
    requires Inv(g0, true) && StepsOk(steps)
  {
    && 0 <= w < |g0.players|
    && After(g0, steps, true).players[w].hand == []
    && forall s :: 0 <= s < |g0.players| && s != w && After(g0, steps, true).players[s].hand == [] ==>
                     EmptiedAt(g0, steps, w) < EmptiedAt(g0, steps, s)
  }

  /** The winner of a finished run went out before every other player who is still without cards. */
  lemma WinnerFirstOut(g0: Game, steps: seq<Step>)
    requires Inv(g0, true) && g0.candidates == [] && g0.phase != Finished && StepsOk(steps)
    requires After(g0, steps, true).phase == Finished
    ensures var g := After(g0, steps, true);
            && |g.candidates| == 1 && FirstOut(g0, steps, g.candidates[0])
            && g.result.Some? && g.result.value.winnerID == g.players[g.candidates[0]].id
  {
    KeptFirstOut(g0, steps);
    hide EmptiedAt, After, FirstOut;
    FinishedResult(After(g0, steps, true));
  }

  lemma FinishedResult(g: Game)
    requires Inv(g, true) && g.phase == Finished
    ensures |g.candidates| == 1 && g.result == Some(ResultFor(g.players, g.candidates[0]))
  {
  }

  lemma {:induction false} KeptFirstOut(g0: Game, steps: seq<Step>)
    requires Inv(g0, true) && g0.candidates == [] && g0.phase != Finished && StepsOk(steps)
    requires After(g0, steps, true).phase == Finished
    ensures |After(g0, steps, true).candidates| == 1 && FirstOut(g0, steps, After(g0, steps, true).candidates[0])
    decreases |steps|
  {
    assert steps != [];
    FinishedResult(After(g0, steps, true));
    hide Inv, After, EmptiedAt, Apply, NextCandidates, Changed;
    var front, last := steps[..|steps| - 1], steps[|steps| - 1];
    LastStep(steps);
    AfterOneMore(g0, front, last, true);
    var g := After(g0, front, true);
    if g.phase == Finished {
      FinishedStays(g, last.command, last.env);
      KeptFirstOut(g0, front);
      forall s | 0 <= s < |g0.players| && g.players[s].hand == []
        ensures EmptiedAt(g0, steps, s) == EmptiedAt(g0, front, s)
      {
        SameTime(g0, front, last, s);
      }
    } else {
      CandidatesInOrder(g0, front);
      var change := CandidatesStep(g, last.command, last.env);
      NextKept(g, After(g0, steps, true), change);
      ChangedRising(g0, front, last, change);
      FirstOfList(g0, steps, Changed(g.candidates, change));
    }
  }

  lemma FirstOfList(g0: Game, steps: seq<Step>, list: seq<int>)
    requires Inv(g0, true) && StepsOk(steps) && list != [] && Rising(Times(g0, steps), list)
    requires InvCandidates(After(g0, steps, true).players, list, true)
    ensures FirstOut(g0, steps, list[0])
  {
    var g := After(g0, steps, true);
    forall s | 0 <= s < |g0.players| && s != list[0] && g.players[s].hand == []
      ensures EmptiedAt(g0, steps, list[0]) < EmptiedAt(g0, steps, s)
    {
      assert s in list;
      var j :| 0 <= j < |list| && list[j] == s;
      assert Times(g0, steps)(list[0]) < Times(g0, steps)(list[j]);
    }
  }
}
