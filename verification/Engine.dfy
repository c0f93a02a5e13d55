/** The engine as the program keeps it: one object whose commands update its fields step by step. */
module Engines {
  import opened Wrappers
  import opened Cards
  import opened Piles
  import opened Rules
  import opened Invariant
  import opened Preservation
  import opened Setup
  import opened Snapshots
  import opened Views

  /** Go's remainder takes the sign of the dividend. */
  function GoRemainder(a: int, n: nat): int
    requires n > 0
  {
    if a >= 0 then a % n else -((-a) % n)
  }

  lemma AtLeastOnce(d: int, n: int)
    requires d >= 1 && n > 0
    ensures d * n >= n
  {
    assert d * n == n + (d - 1) * n;
  }

  lemma SmallMultiple(d: int, n: int)
    requires n > 0 && -n < d * n < n
    ensures d == 0
  {
    if d >= 1 {
      AtLeastOnce(d, n);
    } else if d <= -1 {
      AtLeastOnce(-d, n);
    }
  }

  lemma ModuloUnique(a: int, n: nat, q: int, r: int)
    requires n > 0 && a == q * n + r && 0 <= r < n
    ensures a % n == r
  {
    var q', r' := a / n, a % n;
    assert a == q' * n + r';
    assert (q - q') * n == q * n - q' * n == r' - r;
    SmallMultiple(q - q', n);
  }

  /** The program's correction of a negative remainder gives the position on the circle. */
  lemma WrapAround(a: int, n: nat)
    requires n > 0
    ensures var r := GoRemainder(a, n); (if r < 0 then r + n else r) == a % n
  {
    if a < 0 {
      var q, r := (-a) / n, (-a) % n;
      assert -a == q * n + r;
      if r == 0 {
        assert a == (-q) * n + 0;
        ModuloUnique(a, n, -q, 0);
      } else {
        assert a == (-q - 1) * n + (n - r);
        ModuloUnique(a, n, -q - 1, n - r);
      }
    }
  }

  class Engine {
    var players: seq<Player>
    var drawPile: seq<Card>
    var discardPile: seq<Card>
    var dealerSeat: int
    var currentSeat: int
    var direction: int
    var currentColor: Color
    var pendingDraw: int
    var phase: Phase
    var drawnCardID: int
    var pendingColor: Option<PendingColor>
    var unoChallenges: map<int, Challenge>
    var winnerCandidates: seq<int>
    var result: Option<RoundResult>
    const challengeWindow: int

    /** The persisted state. */
    function State(): Game
      reads this
    {
      Game(players, drawPile, discardPile, dealerSeat, currentSeat, direction, currentColor, pendingDraw, phase,
           drawnCardID, pendingColor, unoChallenges, winnerCandidates, result)
    }

    ghost predicate Valid()
      reads this
    {
      Inv(State(), false)
    }

    constructor (g: Game, challengeWindow: int)
      ensures State() == g && this.challengeWindow == challengeWindow
    {
      players, drawPile, discardPile := g.players, g.drawPile, g.discardPile;
      dealerSeat, currentSeat, direction := g.dealerSeat, g.currentSeat, g.direction;
      currentColor, pendingDraw, phase, drawnCardID := g.color, g.pendingDraw, g.phase, g.drawnCardID;
      pendingColor, unoChallenges := g.pendingColor, g.challenges;
      winnerCandidates, result := g.candidates, g.result;
      this.challengeWindow := challengeWindow;
    }

    // ----- Lookups -----

    method PlayerSeat(playerID: int) returns (seat: Option<nat>)
      ensures seat == SeatOf(players, playerID)
    {
      for s := 0 to |players|
        invariant forall t :: 0 <= t < s ==> players[t].id != playerID
      {
        if players[s].id == playerID {
          return Some(s);
        }
      }
      seat := None;
    }

    method HandCardIndex(seat: nat, cardID: int) returns (index: Option<nat>)
      requires seat < |players|
      ensures index == CardIndex(players[seat].hand, cardID)
    {
      var hand := players[seat].hand;
      for i := 0 to |hand|
        invariant forall j :: 0 <= j < i ==> hand[j].id != cardID
      {
        if hand[i].id == cardID {
          return Some(i);
        }
      }
      index := None;
    }

    method StepFrom(seat: int, steps: int) returns (position: int)
      requires |players| > 0
      ensures position == NextSeat(State(), seat, steps)
    {
      position := GoRemainder(seat + steps * direction, |players|);
      WrapAround(seat + steps * direction, |players|);
      if position < 0 {
        position := position + |players|;
      }
    }

    method RequireCurrentPlayer(playerID: int) returns (r: Result<nat, Error>)
      ensures r == CurrentPlayer(State(), playerID)
    {
      var seat := PlayerSeat(playerID);
      match seat
      case None => r := Err(PlayerNotFound);
      case Some(s) => r := if s != currentSeat then Err(NotYourTurn) else Ok(s);
    }

    // ----- Piles and hands -----

    method RemoveHandCard(seat: nat, index: nat) returns (card: Card)
      requires seat < |players| && index < |players[seat].hand|
      modifies this`players
      ensures card == old(players[seat].hand[index])
      ensures State() == SetHand(old(State()), seat, RemoveAt(old(players[seat].hand), index))
    {
      var hand := players[seat].hand;
      card := hand[index];
      players := players[seat := players[seat].(hand := hand[..index] + hand[index + 1..])];
    }

    method RecycleDiscardPile(shuffle: Shuffle) returns (ok: bool)
      modifies this`drawPile, this`discardPile
      ensures |old(discardPile)| <= 1 ==> ok && unchanged(this)
      ensures |old(discardPile)| > 1 ==>
                var bottom := |old(discardPile)| - 1;
                var shuffled := shuffle(old(discardPile)[..bottom]);
                && ok == shuffled.ok
                && (if ok then drawPile == shuffled.cards && discardPile == old(discardPile)[bottom..]
                    else drawPile == old(drawPile) && discardPile == old(discardPile))
    {
      if |discardPile| <= 1 {
        return true;
      }
      var topIndex := |discardPile| - 1;
      var shuffled := shuffle(discardPile[..topIndex]);
      if !shuffled.ok {
        return false;
      }
      discardPile, drawPile := [discardPile[topIndex]], shuffled.cards;
      ok := true;
    }

    /** One card from the pile, recycling it first when it is empty; nothing when there is none to be had. */
    method DrawOneCard(shuffle: Shuffle) returns (r: Result<seq<Card>, Error>)
      modifies this`drawPile, this`discardPile
      ensures match DealCards(old(drawPile), old(discardPile), 1, shuffle)
              case ShuffleFailed => r == Err(ShuffleError) && drawPile == old(drawPile) && discardPile == old(discardPile)
              case Dealt(drawn, pile, discards) => r == Ok(drawn) && drawPile == pile && discardPile == discards
    {
      DealOne(drawPile, discardPile, shuffle);
      if |drawPile| == 0 {
        var ok := RecycleDiscardPile(shuffle);
        if !ok {
          return Err(ShuffleError);
        }
      }
      if |drawPile| == 0 {
        return Ok([]);
      }
      var last := |drawPile| - 1;
      r := Ok([drawPile[last]]);
      drawPile := drawPile[..last];
    }

    method RemoveWinnerCandidate(seat: int)
      requires DistinctSeats(winnerCandidates)
      modifies this`winnerCandidates
      ensures winnerCandidates == Without(old(winnerCandidates), seat)
    {
      for i := 0 to |winnerCandidates|
        invariant winnerCandidates == old(winnerCandidates)
        invariant seat !in winnerCandidates[..i]
      {
        if winnerCandidates[i] == seat {
          RemoveFirst(winnerCandidates, i, seat);
          winnerCandidates := winnerCandidates[..i] + winnerCandidates[i + 1..];
          return;
        }
      }
      assert winnerCandidates[..|winnerCandidates|] == winnerCandidates;
      WithoutAbsent(winnerCandidates, seat);
    }

    /** Draws up to `count` cards; a failing shuffle puts both piles back as they were. */
    method DrawUpTo(count: nat, shuffle: Shuffle) returns (r: Result<seq<Card>, Error>)
      modifies this`drawPile, this`discardPile
      ensures match DealCards(old(drawPile), old(discardPile), count, shuffle)
              case ShuffleFailed => r == Err(ShuffleError) && drawPile == old(drawPile) && discardPile == old(discardPile)
              case Dealt(drawn, pile, discards) => r == Ok(drawn) && drawPile == pile && discardPile == discards
    {
      hide DealCards;
      var originalDrawPile, originalDiscardPile := drawPile, discardPile;
      var drawn: seq<Card> := [];
      var exhausted := false;
      ghost var whole := DealCards(drawPile, discardPile, count, shuffle);
      OntoNothing(whole);
      while |drawn| < count && !exhausted
        invariant |drawn| <= count
        invariant whole == if exhausted then Dealt(drawn, drawPile, discardPile)
                           else Onto(drawn, DealCards(drawPile, discardPile, count - |drawn|, shuffle))
        decreases count - |drawn|, !exhausted
      {
        DealOneByOne(drawPile, discardPile, count - |drawn|, shuffle);
        var next := DrawOneCard(shuffle);
        if next.Err? {
          drawPile, discardPile := originalDrawPile, originalDiscardPile;
          return Err(ShuffleError);
        }
        if next.value == [] {
          assert drawn + [] == drawn;
          exhausted := true;
        } else {
          OntoStep(drawn, next.value[0], DealCards(drawPile, discardPile, count - |drawn| - 1, shuffle));
          drawn := drawn + [next.value[0]];
        }
      }
      if !exhausted {
        DealNothing(drawPile, discardPile, shuffle);
        assert drawn + [] == drawn;
      }
      r := Ok(drawn);
    }

    /** Deals to a seat one card at a time. */
    method DrawCardsTo(seat: nat, count: nat, shuffle: Shuffle) returns (r: Result<seq<Card>, Error>)
      requires seat < |players| && DistinctSeats(winnerCandidates)
      modifies this`players, this`drawPile, this`discardPile, this`winnerCandidates, this`unoChallenges
      ensures match Rules.DrawCardsTo(old(State()), seat, count, shuffle)
              case None => r == Err(ShuffleError) && State() == old(State())
              case Some((dealt, drawn)) => r == Ok(drawn) && State() == dealt
    {
      r := DrawUpTo(count, shuffle);
      if r.Err? {
        return;
      }
      var drawn := r.value;
      players := players[seat := players[seat].(hand := players[seat].hand + drawn)];
      if |drawn| > 0 {
        RemoveWinnerCandidate(seat);
      }
      if |players[seat].hand| != 1 {
        unoChallenges := unoChallenges - {players[seat].id};
      }
    }

    // ----- Starting a game -----

    method PopDrawPile() returns (card: Option<Card>)
      modifies this`drawPile
      ensures if old(drawPile) == [] then card.None? && drawPile == []
              else card == Some(old(drawPile)[|old(drawPile)| - 1]) && drawPile == old(drawPile)[..|old(drawPile)| - 1]
    {
      if |drawPile| == 0 {
        return None;
      }
      var last := |drawPile| - 1;
      card := Some(drawPile[last]);
      drawPile := drawPile[..last];
    }

    method DealInitialHands() returns (ok: bool)
      modifies this`players, this`drawPile
      ensures match DealRounds(Dealing(old(players), old(drawPile)), HAND_SIZE)
              case None => !ok
              case Some(d) => ok && players == d.players && drawPile == d.pile
    {
      ghost var start := Dealing(players, drawPile);
      for round := 0 to HAND_SIZE
        invariant DealRounds(Dealing(players, drawPile), HAND_SIZE - round) == DealRounds(start, HAND_SIZE)
      {
        ghost var roundStart := Dealing(players, drawPile);
        for seat := 0 to |players|
          invariant |players| == |roundStart.players|
          invariant DealRound(Dealing(players, drawPile), seat) == DealRound(roundStart, 0)
        {
          var card := PopDrawPile();
          if card.None? {
            return false;
          }
          players := players[seat := players[seat].(hand := players[seat].hand + [card.value])];
        }
      }
      ok := true;
    }

    method DrawOpeningCard(shuffles: nat -> Shuffle) returns (r: Result<Card, Error>)
      modifies this`drawPile
      ensures match DrawOpening(old(drawPile), 0, shuffles)
              case Err(e) => r == Err(e)
              case Ok(opening) => r == Ok(opening.card) && drawPile == opening.pile
    {
      for attempts := 0 to DECK_SIZE
        invariant DrawOpening(drawPile, attempts, shuffles) == DrawOpening(old(drawPile), 0, shuffles)
      {
        var card := PopDrawPile();
        if card.None? {
          return Err(InvalidSnapshot);
        }
        if card.value.kind != WildDrawFour {
          return Ok(card.value);
        }
        var returned := shuffles(attempts + 1)([card.value] + drawPile);
        if !returned.ok {
          return Err(ShuffleError);
        }
        drawPile := returned.cards;
      }
      r := Err(InvalidSnapshot);
    }

    /** The opening card's own rule; false when its penalty cannot be dealt or it is a wild draw four. */
    method ApplyOpeningCard(card: Card, shuffle: Shuffle) returns (r: Result<(), Error>)
      requires |players| > 0 && DistinctSeats(winnerCandidates) && 0 <= dealerSeat < |players|
      modifies this
      ensures match ApplyOpening(old(State()), card, shuffle)
              case Err(e) => r == Err(e)
              case Ok(g) => r == Ok(()) && State() == g
    {
      var firstSeat := StepFrom(dealerSeat, 1);
      currentColor := card.color;
      match card.kind {
        case Number =>
          currentSeat := firstSeat;
        case Skip =>
          currentSeat := StepFrom(firstSeat, 1);
        case Reverse =>
          if |players| == 2 {
            currentSeat := StepFrom(firstSeat, 1);
            return Ok(());
          }
          direction := -1;
          currentSeat := StepFrom(dealerSeat, 1);
        case DrawTwo =>
          hide DealCards;
          var drawn := DrawCardsTo(firstSeat, 2, shuffle);
          if drawn.Err? {
            return Err(ShuffleError);
          }
          currentSeat := StepFrom(firstSeat, 1);
        case Wild =>
          currentColor := NoColor;
          currentSeat := firstSeat;
          phase := AwaitingColor;
          pendingColor := Some(PendingColor(firstSeat, card, true));
        case _ =>
          return Err(IllegalCard);
      }
      r := Ok(());
    }

    // ----- Settling -----

    method PointsIn(hand: seq<Card>) returns (points: int)
      ensures points == HandPoints(hand)
    {
      points := 0;
      for i := 0 to |hand|
        invariant points == SumBy(POINTS, hand[..i])
      {
        assert hand[..i + 1] == hand[..i] + [hand[i]];
        SumByAppend(POINTS, hand[..i], [hand[i]]);
        points := points + hand[i].Points();
      }
      assert hand[..|hand|] == hand;
    }

    /** The row of one seat before the winner's score is known. */
    ghost function Row(winnerSeat: nat, s: nat): PlayerResult
      reads this
      requires s < |players|
    {
      PlayerResult(players[s].id, s == winnerSeat, 0, HandPoints(players[s].hand), |players[s].hand|)
    }

    method FinishRound(winnerSeat: nat)
      requires winnerSeat < |players|
      modifies this
      ensures State() == Rules.FinishRound(old(State()), winnerSeat)
    {
      var winnerID := players[winnerSeat].id;
      var results: seq<PlayerResult> := [];
      var winnerScore := 0;
      for s := 0 to |players|
        invariant State() == old(State())
        invariant winnerScore == OthersPoints(players, winnerSeat, s)
        invariant |results| == s && forall t :: 0 <= t < s ==> results[t] == Row(winnerSeat, t)
      {
        var handPoints := PointsIn(players[s].hand);
        if s != winnerSeat {
          winnerScore := winnerScore + handPoints;
        }
        results := results + [PlayerResult(players[s].id, s == winnerSeat, 0, handPoints, |players[s].hand|)];
      }
      for i := 0 to |results|
        invariant State() == old(State())
        invariant |results| == |players|
        invariant forall t :: 0 <= t < |results| ==>
                    results[t] == if t < i && t == winnerSeat then Row(winnerSeat, t).(score := winnerScore) else Row(winnerSeat, t)
      {
        if results[i].isWinner {
          results := results[i := results[i].(score := winnerScore)];
        }
      }
      assert RoundResult(winnerID, winnerScore, results) == ResultFor(players, winnerSeat);
      result := Some(RoundResult(winnerID, winnerScore, results));
      winnerCandidates := [winnerSeat];
      phase := Finished;
      currentSeat := -1;
      pendingDraw := 0;
      drawnCardID := 0;
      pendingColor := None;
      unoChallenges := map[];
    }

    /** The candidates whose hands are still empty, in order. */
    method ActiveCandidates() returns (active: seq<int>)
      requires SeatsBelow(winnerCandidates, |players|)
      ensures active == StillEmpty(players, winnerCandidates)
    {
      active := [];
      var candidates := winnerCandidates;
      PushNone(StillEmpty(players, candidates));
      assert candidates[0..] == candidates;
      for i := 0 to |candidates|
        invariant active + StillEmpty(players, candidates[i..]) == StillEmpty(players, candidates)
      {
        StillEmptyStep(players, candidates, i, active);
        if players[candidates[i]].hand == [] {
          active := active + [candidates[i]];
        }
      }
      assert candidates[|candidates|..] == [] && active + [] == active;
    }

    method FinishIfResolved()
      requires SeatsBelow(winnerCandidates, |players|)
      modifies this
      ensures State() == Rules.FinishIfResolved(old(State()))
    {
      if pendingDraw > 0 || phase == AwaitingColor {
        return;
      }
      hide StillEmpty;
      winnerCandidates := ActiveCandidates();
      if |winnerCandidates| > 0 {
        FinishRound(winnerCandidates[0]);
      }
    }

    method AddWinnerCandidate(seat: int)
      modifies this`winnerCandidates
      ensures winnerCandidates == if seat in old(winnerCandidates) then old(winnerCandidates) else old(winnerCandidates) + [seat]
    {
      for i := 0 to |winnerCandidates|
        invariant winnerCandidates == old(winnerCandidates)
        invariant seat !in winnerCandidates[..i]
      {
        if winnerCandidates[i] == seat {
          return;
        }
      }
      winnerCandidates := winnerCandidates + [seat];
    }

    method ApplyCardEffect(seat: int, card: Card)
      requires |players| > 0 && SeatsBelow(winnerCandidates, |players|)
      modifies this
      ensures State() == Rules.ApplyCardEffect(old(State()), seat, card)
    {
      phase := Playing;
      match card.kind {
        case Skip =>
          currentSeat := StepFrom(seat, 2);
        case Reverse =>
          if |players| == 2 {
            currentSeat := StepFrom(seat, 2);
          } else {
            direction := -direction;
            currentSeat := StepFrom(seat, 1);
          }
        case DrawTwo =>
          pendingDraw := pendingDraw + 2;
          currentSeat := StepFrom(seat, 1);
        case WildDrawFour =>
          pendingDraw := pendingDraw + 4;
          currentSeat := StepFrom(seat, 1);
        case _ =>
          currentSeat := StepFrom(seat, 1);
      }
      assert State() == Turned(old(State()), seat, card);
      FinishIfResolved();
    }

    // ----- Challenges -----

    method RecordUNOAfterPlay(seat: nat, sayUNO: bool, now: int)
      requires seat < |players|
      modifies this`unoChallenges
      ensures var id := players[seat].id;
              unoChallenges == if |players[seat].hand| != 1 || sayUNO then old(unoChallenges) - {id}
                               else old(unoChallenges)[id := Challenge(id, now + challengeWindow)]
    {
      var id := players[seat].id;
      if |players[seat].hand| != 1 || sayUNO {
        unoChallenges := unoChallenges - {id};
        return;
      }
      unoChallenges := unoChallenges[id := Challenge(id, now + challengeWindow)];
    }

    /** Finds a challenge that still stands, and drops one that has expired. */
    method ActiveUNOChallenge(playerID: int, now: int) returns (active: bool)
      modifies this`unoChallenges
      ensures active == ChallengeActive(old(State()), playerID, now)
      ensures State() == Cleaned(old(State()), playerID, now)
    {
      if playerID !in unoChallenges {
        return false;
      }
      if DeadlineReached(now, unoChallenges[playerID].expiresAt) {
        unoChallenges := unoChallenges - {playerID};
        return false;
      }
      active := true;
    }

    // ----- Commands -----

    method Play(playerID: int, cardID: int, sayUNO: bool, env: Env) returns (reply: Reply)
      requires Valid() && EnvOk(env) && env.window == challengeWindow
      modifies this
      ensures Valid()
      ensures Outcome(State(), reply) == PlayCard(old(State()), playerID, cardID, sayUNO, env)
    {
      ghost var before := State();
      InvShape(before, false);
      PlayCardInv(before, playerID, cardID, sayUNO, env, false);
      hide Inv;
      if phase == Finished {
        return Failed(GameNotPlaying);
      }
      if phase != Playing && phase != AwaitingDrawDecision {
        return Failed(ActionNotAllowed);
      }
      var seat := RequireCurrentPlayer(playerID);
      if seat.Err? {
        return Failed(seat.error);
      }
      var index := HandCardIndex(seat.value, cardID);
      if index.None? {
        return Failed(CardNotFound);
      }
      var card := players[seat.value].hand[index.value];
      if phase == AwaitingDrawDecision && card.id != drawnCardID {
        return Failed(IllegalCard);
      }
      if !Playable(State(), card) {
        return Failed(IllegalCard);
      }
      PlayChecked(seat.value, index.value, sayUNO, env);
      reply := Done;
    }

    /** The part of `Play` that changes anything: all checks have passed. */
    method PlayChecked(seat: nat, index: nat, sayUNO: bool, env: Env)
      requires |players| > 0 && SeatsBelow(winnerCandidates, |players|) && env.window == challengeWindow
      requires seat < |players| && index < |players[seat].hand|
      modifies this
      ensures var g, card := old(State()), old(players[seat].hand[index]);
              var d := Discarded(g, seat, index, sayUNO, env);
              State() == if card.IsWild() then
                           d.(color := NoColor, phase := AwaitingColor, pendingColor := Some(PendingColor(seat, card, false)))
                         else Rules.ApplyCardEffect(d.(color := card.color), seat, card)
    {
      ghost var d := Discarded(State(), seat, index, sayUNO, env);
      assert SeatsBelow(d.candidates, |d.players|);
      hide Discarded;
      var card := Discard(seat, index, sayUNO, env);
      if card.IsWild() {
        currentColor := NoColor;
        phase := AwaitingColor;
        pendingColor := Some(PendingColor(seat, card, false));
        return;
      }
      currentColor := card.color;
      ApplyCardEffect(seat, card);
    }

    method Discard(seat: nat, index: nat, sayUNO: bool, env: Env) returns (card: Card)
      requires seat < |players| && index < |players[seat].hand| && env.window == challengeWindow
      modifies this
      ensures card == old(players[seat].hand[index])
      ensures State() == Discarded(old(State()), seat, index, sayUNO, env)
    {
      card := RemoveHandCard(seat, index);
      drawnCardID := 0;
      discardPile := discardPile + [card];
      RecordUNOAfterPlay(seat, sayUNO, env.now);
      if |players[seat].hand| == 0 {
        AddWinnerCandidate(seat);
      }
    }

    method ChooseColor(playerID: int, color: Color) returns (reply: Reply)
      requires Valid()
      modifies this
      ensures Valid()
      ensures Outcome(State(), reply) == PickColor(old(State()), playerID, color)
    {
      ghost var before := State();
      InvShape(before, false);
      PickColorInv(before, playerID, color, false);
      hide Inv, Rules.ApplyCardEffect;
      if phase == Finished {
        return Failed(GameNotPlaying);
      }
      if !color.Valid() {
        return Failed(InvalidColor);
      }
      if phase != AwaitingColor || pendingColor.None? {
        return Failed(ActionNotAllowed);
      }
      var chooser := pendingColor.value;
      if players[chooser.seat].id != playerID {
        var seat := PlayerSeat(playerID);
        return Failed(if seat.None? then PlayerNotFound else NotYourTurn);
      }
      currentColor := color;
      pendingColor := None;
      phase := Playing;
      if chooser.opening {
        return Done;
      }
      ApplyCardEffect(chooser.seat, chooser.card);
      reply := Done;
    }

    method Draw(playerID: int, env: Env) returns (reply: Reply)
      requires Valid() && EnvOk(env)
      modifies this
      ensures Valid()
      ensures Outcome(State(), reply) == DrawCard(old(State()), playerID, env)
    {
      ghost var before := State();
      InvShape(before, false);
      DrawCardInv(before, playerID, env, false);
      assert DistinctSeats(winnerCandidates);
      hide Inv;
      if phase == Finished {
        return Failed(GameNotPlaying);
      }
      if phase != Playing {
        return Failed(ActionNotAllowed);
      }
      var seat := RequireCurrentPlayer(playerID);
      if seat.Err? {
        return Failed(seat.error);
      }
      if pendingDraw > 0 {
        reply := AcceptPenalty(seat.value, env);
      } else {
        reply := DrawForTurn(seat.value, env);
      }
    }

    method AcceptPenalty(seat: nat, env: Env) returns (reply: Reply)
      requires Shape(State()) && DistinctSeats(winnerCandidates) && seat < |players| && pendingDraw > 0
      modifies this
      ensures Outcome(State(), reply) == TakePenalty(old(State()), seat, env)
    {
      var penalty := pendingDraw;
      hide DealCards;
      var drawn := DrawCardsTo(seat, penalty, env.shuffle);
      if drawn.Err? {
        return Failed(ShuffleError);
      }
      pendingDraw := 0;
      currentSeat := StepFrom(seat, 1);
      FinishIfResolved();
      reply := Drew(DrawResult(drawn.value, false, true, true));
    }

    method DrawForTurn(seat: nat, env: Env) returns (reply: Reply)
      requires Shape(State()) && seat < |players|
      modifies this
      ensures Outcome(State(), reply) == DrawOne(old(State()), seat, env)
    {
      if DealCards(drawPile, discardPile, 1, env.shuffle).Dealt? {
        DealKeepsTop(drawPile, discardPile, 1, env.shuffle);
      }
      hide DealCards, Playable;
      var drawn := DrawOneCard(env.shuffle);
      if drawn.Err? {
        return Failed(ShuffleError);
      }
      if drawn.value == [] {
        currentSeat := StepFrom(seat, 1);
        return Drew(DrawResult([], false, false, true));
      }
      SamePlayable(old(State()), State(), drawn.value[0]);
      reply := TakeDrawn(seat, drawn.value[0]);
    }

    /** The drawn card joins the hand and is either on offer or ends the turn. */
    method TakeDrawn(seat: nat, card: Card) returns (reply: Reply)
      requires Shape(State()) && seat < |players|
      modifies this
      ensures var g := old(State());
              var dealt := Forget(SetHand(g, seat, g.players[seat].hand + [card]), g.players[seat].id);
              Outcome(State(), reply) ==
              if Playable(g, card) then
                Outcome(dealt.(phase := AwaitingDrawDecision, drawnCardID := card.id), Drew(DrawResult([card], true, false, false)))
              else Outcome(dealt.(currentSeat := NextSeat(g, seat, 1)), Drew(DrawResult([card], false, false, true)))
    {
      players := players[seat := players[seat].(hand := players[seat].hand + [card])];
      unoChallenges := unoChallenges - {players[seat].id};
      if Playable(State(), card) {
        phase := AwaitingDrawDecision;
        drawnCardID := card.id;
        return Drew(DrawResult([card], true, false, false));
      }
      currentSeat := StepFrom(seat, 1);
      reply := Drew(DrawResult([card], false, false, true));
    }

    method Pass(playerID: int) returns (reply: Reply)
      requires Valid()
      modifies this
      ensures Valid()
      ensures Outcome(State(), reply) == PassTurn(old(State()), playerID)
    {
      ghost var before := State();
      InvShape(before, false);
      PassTurnInv(before, playerID, false);
      hide Inv;
      if phase == Finished {
        return Failed(GameNotPlaying);
      }
      if phase != AwaitingDrawDecision || drawnCardID == 0 {
        return Failed(ActionNotAllowed);
      }
      var seat := RequireCurrentPlayer(playerID);
      if seat.Err? {
        return Failed(seat.error);
      }
      drawnCardID := 0;
      phase := Playing;
      currentSeat := StepFrom(seat.value, 1);
      reply := Done;
    }

    method CallUNO(playerID: int, env: Env) returns (reply: Reply)
      requires Valid()
      modifies this
      ensures Valid()
      ensures Outcome(State(), reply) == Call(old(State()), playerID, env)
    {
      ghost var before := State();
      InvShape(before, false);
      CallInv(before, playerID, env, false);
      hide Inv;
      if phase == Finished {
        return Failed(GameNotPlaying);
      }
      var seat := PlayerSeat(playerID);
      if seat.None? {
        return Failed(PlayerNotFound);
      }
      var active := ActiveUNOChallenge(playerID, env.now);
      if !active {
        return Failed(NoUNOChallenge);
      }
      unoChallenges := unoChallenges - {unoChallenges[playerID].playerID};
      reply := Done;
    }

    method CatchUNO(challengerID: int, targetID: int, env: Env) returns (reply: Reply)
      requires Valid() && EnvOk(env)
      modifies this
      ensures Valid()
      ensures Outcome(State(), reply) == Catch(old(State()), challengerID, targetID, env)
    {
      ghost var before := State();
      InvShape(before, false);
      CatchInv(before, challengerID, targetID, env, false);
      assert DistinctSeats(winnerCandidates);
      hide Inv, CaughtOut;
      if phase == Finished {
        return Failed(GameNotPlaying);
      }
      var challenger := PlayerSeat(challengerID);
      if challenger.None? {
        return Failed(PlayerNotFound);
      }
      var target := PlayerSeat(targetID);
      if target.None? {
        return Failed(PlayerNotFound);
      }
      if challengerID == targetID {
        return Failed(CannotCatchSelf);
      }
      var active := ActiveUNOChallenge(targetID, env.now);
      if !active {
        return Failed(NoUNOChallenge);
      }
      reply := PenalizeMissedCall(target.value, env);
    }

    method PenalizeMissedCall(seat: nat, env: Env) returns (reply: Reply)
      requires seat < |players| && DistinctSeats(winnerCandidates)
      modifies this
      ensures Outcome(State(), reply) == CaughtOut(old(State()), seat, env)
    {
      hide DealCards;
      var drawn := DrawCardsTo(seat, 2, env.shuffle);
      if drawn.Err? {
        return Failed(ShuffleError);
      }
      unoChallenges := unoChallenges - {players[seat].id};
      reply := Drew(DrawResult(drawn.value, false, true, false));
    }

    /** Drops the challenges whose window is over and reports whose they were, in seat order. */
    method ExpireUNOChallenges(env: Env) returns (expired: seq<int>)
      requires Valid()
      modifies this`unoChallenges
      ensures Valid()
      ensures Outcome(State(), Expired(expired)) == Expire(old(State()), env)
    {
      ghost var before := State();
      ExpireInv(before, env, false);
      assert DistinctPlayers(before.players);
      hide Inv, Drop, ExpiredIDs;
      expired := [];
      DropNone(before.challenges);
      for s := 0 to |players|
        invariant State() == before.(challenges := Drop(before.challenges, expired))
        invariant expired + ExpiredIDs(before.players[s..], before.challenges, env.now)
               == ExpiredIDs(before.players, before.challenges, env.now)
        invariant forall id :: id in expired ==> exists t :: 0 <= t < s && before.players[t].id == id
      {
        var playerID := players[s].id;
        ExpiredStep(before.players, s, before.challenges, env.now, expired);
        DropOneMore(before.challenges, expired, playerID);
        if playerID in unoChallenges && DeadlineReached(env.now, unoChallenges[playerID].expiresAt) {
          unoChallenges := unoChallenges - {playerID};
          expired := expired + [playerID];
        }
      }
      ExpiredAll(before, expired, env);
    }

    // ----- What leaves the engine -----

    method ViewFor(playerID: int, now: int) returns (r: Result<View, Error>)
      requires Shape(State())
      ensures r == Views.ViewFor(State(), playerID, now)
    {
      var requester := PlayerSeat(playerID);
      if requester.None? {
        return Err(PlayerNotFound);
      }
      var seat := requester.value;
      var public: seq<PlayerView> := [];
      for s := 0 to |players|
        invariant |public| == s && forall t :: 0 <= t < s ==> public[t] == PlayerView(players[t].id, t, |players[t].hand|)
      {
        public := public + [PlayerView(players[s].id, s, |players[s].hand|)];
      }
      var candidateIDs: seq<int> := [];
      for i := 0 to |winnerCandidates|
        invariant |candidateIDs| == i && forall j :: 0 <= j < i ==> candidateIDs[j] == players[winnerCandidates[j]].id
      {
        candidateIDs := candidateIDs + [players[winnerCandidates[i]].id];
      }
      assert public == PublicPlayers(players);
      assert candidateIDs == CandidateIDs(players, winnerCandidates);
      hide PublicPlayers, CandidateIDs;
      var playable: seq<int> := [];
      if seat == currentSeat && (phase == Playing || phase == AwaitingDrawDecision) {
        playable := Offered(players[seat].hand);
      }
      var challenges := Live(now);
      r := Ok(View(phase, public, players[seat].hand, playable, Top(State()), currentColor, direction,
                   CurrentPlayerID(State()), ColorChooserID(State()), pendingDraw, |drawPile|, |discardPile|,
                   if seat == currentSeat && phase == AwaitingDrawDecision then drawnCardID else 0,
                   challenges, candidateIDs, result));
    }

    method Offered(hand: seq<Card>) returns (ids: seq<int>)
      requires Shape(State())
      ensures ids == OfferedIDs(State(), hand)
    {
      ids := [];
      for i := 0 to |hand|
        invariant ids + OfferedIDs(State(), hand[i..]) == OfferedIDs(State(), hand)
      {
        ghost var rest := OfferedIDs(State(), hand[i + 1..]);
        assert hand[i..][1..] == hand[i + 1..];
        if phase == AwaitingDrawDecision && hand[i].id != drawnCardID {
          PushNone(rest);
        } else if Playable(State(), hand[i]) {
          PushOne(ids, hand[i].id, rest);
          ids := ids + [hand[i].id];
        } else {
          PushNone(rest);
        }
      }
      assert hand[|hand|..] == [] && ids + [] == ids;
    }

    method Live(now: int) returns (challenges: seq<Challenge>)
      ensures challenges == LiveChallenges(players, unoChallenges, now)
    {
      challenges := [];
      for s := 0 to |players|
        invariant challenges + LiveChallenges(players[s..], unoChallenges, now) == LiveChallenges(players, unoChallenges, now)
      {
        var id := players[s].id;
        ghost var rest := LiveChallenges(players[s + 1..], unoChallenges, now);
        assert players[s..][1..] == players[s + 1..];
        if id in unoChallenges && !DeadlineReached(now, unoChallenges[id].expiresAt) {
          PushOne(challenges, unoChallenges[id], rest);
          challenges := challenges + [unoChallenges[id]];
        } else {
          PushNone(rest);
        }
      }
      assert players[|players|..] == [] && challenges + [] == challenges;
    }

    method Snapshot() returns (s: Snapshot)
      requires Shape(State())
      ensures s == TakeSnapshot(State())
    {
      var pending := None;
      if pendingColor.Some? {
        var p := pendingColor.value;
        pending := Some(PendingColorSnapshot(players[p.seat].id, p.card, p.opening));
      }
      var challenges: seq<Challenge> := [];
      for i := 0 to |players|
        invariant challenges + SeatChallenges(players[i..], unoChallenges) == SeatChallenges(players, unoChallenges)
      {
        var id := players[i].id;
        ghost var rest := SeatChallenges(players[i + 1..], unoChallenges);
        assert players[i..][1..] == players[i + 1..];
        if id in unoChallenges {
          PushOne(challenges, unoChallenges[id], rest);
          challenges := challenges + [unoChallenges[id]];
        } else {
          PushNone(rest);
        }
      }
      assert players[|players|..] == [] && challenges + [] == challenges;
      s := Snapshots.Snapshot(SCHEMA_VERSION, players, drawPile, discardPile, dealerSeat, currentSeat, direction, currentColor,
                              pendingDraw, phase, drawnCardID, pending, challenges, winnerCandidates, result);
    }
  }

  lemma PushOne<T>(list: seq<T>, x: T, rest: seq<T>)
    ensures list + ([x] + rest) == (list + [x]) + rest
  {
  }

  lemma PushNone<T>(rest: seq<T>)
    ensures [] + rest == rest
  {
  }

  lemma ExpiredStep(players: seq<Player>, s: nat, challenges: map<int, Challenge>, now: int, expired: seq<int>)
    requires s < |players|
    ensures var id := players[s].id;
            var found := id in challenges && DeadlineReached(now, challenges[id].expiresAt);
            expired + ExpiredIDs(players[s..], challenges, now)
            == (if found then expired + [id] else expired) + ExpiredIDs(players[s + 1..], challenges, now)
  {
    assert players[s..][1..] == players[s + 1..];
    var id, rest := players[s].id, ExpiredIDs(players[s + 1..], challenges, now);
    PushOne(expired, id, rest);
    PushNone(rest);
  }

  function Drop(challenges: map<int, Challenge>, ids: seq<int>): map<int, Challenge> {
    challenges - (set i | i in ids)
  }

  lemma DropNone(challenges: map<int, Challenge>)
    ensures Drop(challenges, []) == challenges
  {
  }

  lemma DropOneMore(challenges: map<int, Challenge>, ids: seq<int>, id: int)
    ensures Drop(challenges, ids) - {id} == Drop(challenges, ids + [id])
    ensures id !in ids ==> (id in Drop(challenges, ids) <==> id in challenges)
    ensures id in Drop(challenges, ids) ==> id in challenges && Drop(challenges, ids)[id] == challenges[id]
  {
  }

  lemma ExpiredAll(g: Game, expired: seq<int>, env: Env)
    requires expired + ExpiredIDs(g.players[|g.players|..], g.challenges, env.now)
          == ExpiredIDs(g.players, g.challenges, env.now)
    ensures Outcome(g.(challenges := Drop(g.challenges, expired)), Expired(expired)) == Expire(g, env)
  {
    assert g.players[|g.players|..] == [];
    assert expired + [] == expired;
  }

  lemma SamePlayable(g: Game, g': Game, card: Card)
    requires |g.discardPile| > 0 && |g'.discardPile| > 0 && Top(g) == Top(g')
    requires g.pendingDraw == g'.pendingDraw && g.color == g'.color
    ensures Playable(g, card) == Playable(g', card)
  {
  }

  lemma StillEmptyStep(players: seq<Player>, candidates: seq<int>, i: nat, active: seq<int>)
    requires SeatsBelow(candidates, |players|) && i < |candidates|
    ensures active + StillEmpty(players, candidates[i..])
         == (if players[candidates[i]].hand == [] then active + [candidates[i]] else active)
            + StillEmpty(players, candidates[i + 1..])
  {
    assert candidates[i..][1..] == candidates[i + 1..];
    var rest := StillEmpty(players, candidates[i + 1..]);
    PushOne(active, candidates[i], rest);
    PushNone(rest);
  }

  lemma OntoNothing(rest: Deal)
    ensures Onto([], rest) == rest
  {
    if rest.Dealt? { assert [] + rest.drawn == rest.drawn; }
  }

  lemma DealNothing(drawPile: seq<Card>, discardPile: seq<Card>, shuffle: Shuffle)
    ensures DealCards(drawPile, discardPile, 0, shuffle) == Dealt([], drawPile, discardPile)
  {
    assert drawPile[..|drawPile|] == drawPile;
  }

  /** What has been dealt so far, in front of what the rest of the deal gives. */
  ghost function Onto(drawn: seq<Card>, rest: Deal): Deal {
    match rest
    case ShuffleFailed => ShuffleFailed
    case Dealt(more, pile, discards) => Dealt(drawn + more, pile, discards)
  }

  lemma OntoStep(drawn: seq<Card>, card: Card, rest: Deal)
    ensures Onto(drawn, Prepend(card, rest)) == Onto(drawn + [card], rest)
  {
    if rest.Dealt? {
      assert drawn + ([card] + rest.drawn) == (drawn + [card]) + rest.drawn;
    }
  }

  lemma {:induction false} RemoveFirst(s: seq<int>, i: nat, x: int)
    requires DistinctSeats(s) && i < |s| && s[i] == x
    ensures s[..i] + s[i + 1..] == Without(s, x)
  {
    if i == 0 {
      WithoutAbsent(s[1..], x);
    } else {
      assert s[0] != x;
      RemoveFirst(s[1..], i - 1, x);
      assert s[..i] + s[i + 1..] == [s[0]] + (s[1..][..i - 1] + s[1..][i..]);
    }
  }
}
