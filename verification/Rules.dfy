/** One game as a value, and what each command does to it. */
module Rules {
  import opened Wrappers
  import opened Cards
  import opened Piles

  datatype Phase = Playing | AwaitingColor | AwaitingDrawDecision | Finished | OtherPhase(name: string)

  datatype Error =
    | NotYourTurn | IllegalCard | GameNotPlaying | InvalidPlayers | PlayerNotFound | CardNotFound
    | ActionNotAllowed | InvalidColor | NoUNOChallenge | CannotCatchSelf | InvalidSnapshot | ShuffleError

  datatype Player = Player(id: int, hand: seq<Card>)

  datatype PendingColor = PendingColor(seat: int, card: Card, opening: bool)

  /** Instants are integers; `ZERO_TIME` is Go's zero time. */
  const ZERO_TIME: int := 0

  datatype Challenge = Challenge(playerID: int, expiresAt: int)

  datatype PlayerResult = PlayerResult(playerID: int, isWinner: bool, score: int, handPoints: int, cardsLeft: nat)

  datatype RoundResult = RoundResult(winnerID: int, score: int, players: seq<PlayerResult>)

  datatype DrawResult = DrawResult(cards: seq<Card>, canPlay: bool, penalty: bool, turnEnded: bool)

  /** The persisted state of the engine. */
  datatype Game = Game(
    players: seq<Player>,
    drawPile: seq<Card>,
    discardPile: seq<Card>,
    dealerSeat: int,
    currentSeat: int,
    direction: int,
    color: Color,
    pendingDraw: int,
    phase: Phase,
    drawnCardID: int,
    pendingColor: Option<PendingColor>,
    challenges: map<int, Challenge>,
    candidates: seq<int>,
    result: Option<RoundResult>)

  /** What a command reads from outside: the clock, the challenge window and the shuffle. */
  datatype Env = Env(now: int, window: int, shuffle: Shuffle)

  datatype Command =
    | Play(playerID: int, cardID: int, sayUNO: bool)
    | ChooseColor(playerID: int, color: Color)
    | Draw(playerID: int)
    | Pass(playerID: int)
    | CallUNO(playerID: int)
    | CatchUNO(challengerID: int, targetID: int)
    | ExpireUNO

  datatype Reply = Done | Drew(draw: DrawResult) | Expired(ids: seq<int>) | Failed(error: Error)

  datatype Outcome = Outcome(game: Game, reply: Reply)

  // ----- Seats, hands and the discard top -----

  function SeatOf(players: seq<Player>, id: int): (seat: Option<nat>)
    ensures seat.Some? ==> seat.value < |players| && players[seat.value].id == id
                           && forall s :: 0 <= s < seat.value ==> players[s].id != id
    ensures seat.None? ==> forall s :: 0 <= s < |players| ==> players[s].id != id
  {
    if players == [] then None
    else if players[0].id == id then Some(0)
    else match SeatOf(players[1..], id)
         case None => None
         case Some(s) => Some(s + 1)
  }

  function CardIndex(hand: seq<Card>, id: int): (index: Option<nat>)
    ensures index.Some? ==> index.value < |hand| && hand[index.value].id == id
                            && forall i :: 0 <= i < index.value ==> hand[i].id != id
    ensures index.None? ==> forall i :: 0 <= i < |hand| ==> hand[i].id != id
  {
    if hand == [] then None
    else if hand[0].id == id then Some(0)
    else match CardIndex(hand[1..], id)
         case None => None
         case Some(i) => Some(i + 1)
  }

  /** Turn order is a circle: the seat `steps` places along, whatever the direction. */
  function NextSeat(g: Game, seat: int, steps: int): int
    requires |g.players| > 0
  {
    (seat + steps * g.direction) % |g.players|
  }

  function Top(g: Game): Card
    requires |g.discardPile| > 0
  {
    g.discardPile[|g.discardPile| - 1]
  }

  /** During a penalty chain only penalty cards may be played; otherwise the ordinary match decides. */
  predicate Playable(g: Game, card: Card)
    requires |g.discardPile| > 0
  {
    if g.pendingDraw > 0 then card.IsDrawPenalty() else card.Matches(Top(g), g.color)
  }

  function SetHand(g: Game, seat: int, hand: seq<Card>): Game
    requires 0 <= seat < |g.players|
  {
    g.(players := g.players[seat := g.players[seat].(hand := hand)])
  }

  function Forget(g: Game, id: int): Game {
    g.(challenges := g.challenges - {id})
  }

  function RemoveAt<T>(s: seq<T>, i: nat): seq<T>
    requires i < |s|
  {
    s[..i] + s[i + 1..]
  }

  function Without(s: seq<int>, x: int): (r: seq<int>)
    ensures forall i :: 0 <= i < |r| ==> r[i] in s && r[i] != x
  {
    if s == [] then [] else (if s[0] == x then [] else [s[0]]) + Without(s[1..], x)
  }

  predicate SeatsBelow(seats: seq<int>, n: nat) {
    forall i :: 0 <= i < |seats| ==> 0 <= seats[i] < n
  }

  /** The candidates whose hands are still empty, in the same order. */
  function StillEmpty(players: seq<Player>, candidates: seq<int>): (active: seq<int>)
    requires SeatsBelow(candidates, |players|)
    ensures SeatsBelow(active, |players|)
    ensures forall i :: 0 <= i < |active| ==> players[active[i]].hand == [] && active[i] in candidates
  {
    if candidates == [] then []
    else (if players[candidates[0]].hand == [] then [candidates[0]] else []) + StillEmpty(players, candidates[1..])
  }

  /** What every command relies on, so that no index is ever out of range. */
  ghost predicate Shape(g: Game) {
    && |g.players| >= 2
    && |g.discardPile| > 0
    && SeatsBelow(g.candidates, |g.players|)
    && (g.pendingColor.Some? ==> 0 <= g.pendingColor.value.seat < |g.players|)
    && (g.direction == 1 || g.direction == -1)
    && (g.phase != Finished ==> 0 <= g.currentSeat < |g.players|)
  }

  // ----- Shared effects -----

  /** A seat takes the dealt cards: it is no candidate any more, and with other than one card not to be caught. */
  function Receive(g: Game, seat: int, drawn: seq<Card>, drawPile: seq<Card>, discardPile: seq<Card>): Game
    requires 0 <= seat < |g.players|
  {
    var hand := g.players[seat].hand + drawn;
    SetHand(g, seat, hand).(
    drawPile := drawPile,
    discardPile := discardPile,
    candidates := if drawn == [] then g.candidates else Without(g.candidates, seat),
    challenges := if |hand| != 1 then g.challenges - {g.players[seat].id} else g.challenges)
  }

  /** Deals `count` cards to a seat; `None` when the shuffle fails. */
  function DrawCardsTo(g: Game, seat: int, count: nat, shuffle: Shuffle): Option<(Game, seq<Card>)>
    requires 0 <= seat < |g.players|
  {
    match DealCards(g.drawPile, g.discardPile, count, shuffle)
    case ShuffleFailed => None
    case Dealt(drawn, drawPile, discardPile) => Some((Receive(g, seat, drawn, drawPile, discardPile), drawn))
  }

  function HandPoints(hand: seq<Card>): int { SumBy(POINTS, hand) }

  /** The points left in every hand but the winner's, over the first n seats. */
  function OthersPoints(players: seq<Player>, winner: int, n: nat): int
    requires n <= |players|
  {
    if n == 0 then 0
    else OthersPoints(players, winner, n - 1) + (if n - 1 == winner then 0 else HandPoints(players[n - 1].hand))
  }

  function ResultFor(players: seq<Player>, winner: int): RoundResult
    requires 0 <= winner < |players|
  {
    var score := OthersPoints(players, winner, |players|);
    RoundResult(players[winner].id, score,
                seq(|players|, s requires 0 <= s < |players| =>
                  PlayerResult(players[s].id, s == winner, if s == winner then score else 0,
                               HandPoints(players[s].hand), |players[s].hand|)))
  }

  function FinishRound(g: Game, winner: int): Game
    requires 0 <= winner < |g.players|
  {
    g.(result := Some(ResultFor(g.players, winner)), candidates := [winner], phase := Finished, currentSeat := -1,
    pendingDraw := 0, drawnCardID := 0, pendingColor := None, challenges := map[])
  }

  /** Ends the round once nothing is pending and somebody has no cards left. */
  function FinishIfResolved(g: Game): Game
    requires SeatsBelow(g.candidates, |g.players|)
  {
    if g.pendingDraw > 0 || g.phase == AwaitingColor then g
    else
      var active := StillEmpty(g.players, g.candidates);
      if active == [] then g.(candidates := [])
      else FinishRound(g.(candidates := active), active[0])
  }

  lemma {:induction false} StillEmptyMembers(players: seq<Player>, candidates: seq<int>)
    requires SeatsBelow(candidates, |players|)
    ensures forall c :: c in StillEmpty(players, candidates) <==> c in candidates && players[c].hand == []
  {
    if candidates != [] {
      StillEmptyMembers(players, candidates[1..]);
      assert candidates == [candidates[0]] + candidates[1..];
    }
  }

  /** Moves the turn on, turns the table round, or lengthens the penalty chain. */
  function Turned(g: Game, seat: int, card: Card): Game
    requires |g.players| > 0
  {
    var p := g.(phase := Playing);
    match card.kind
    case Skip => p.(currentSeat := NextSeat(p, seat, 2))
    case Reverse =>
      if |p.players| == 2 then p.(currentSeat := NextSeat(p, seat, 2))
      else
        var reversed := p.(direction := -p.direction);
        reversed.(currentSeat := NextSeat(reversed, seat, 1))
    case _ => p.(pendingDraw := p.pendingDraw + card.Penalty(), currentSeat := NextSeat(p, seat, 1))
  }

  function ApplyCardEffect(g: Game, seat: int, card: Card): Game
    requires |g.players| > 0
    requires SeatsBelow(g.candidates, |g.players|)
  {
    FinishIfResolved(Turned(g, seat, card))
  }

  // ----- Commands -----

  /** The seat that may act for `id`, or why it may not. */
  function CurrentPlayer(g: Game, id: int): Result<nat, Error> {
    match SeatOf(g.players, id)
    case None => Err(PlayerNotFound)
    case Some(seat) => if seat == g.currentSeat then Ok(seat) else Err(NotYourTurn)
  }

  /** Why a card may not be played now, if so; otherwise its seat and its index in that hand. */
  function PlayCheck(g: Game, playerID: int, cardID: int): (r: Result<(nat, nat), Error>)
    requires Shape(g)
    ensures r.Ok? ==> r.value.0 == g.currentSeat < |g.players| && r.value.1 < |g.players[r.value.0].hand|
                      && g.players[r.value.0].hand[r.value.1].id == cardID
  {
    if g.phase == Finished then Err(GameNotPlaying)
    else if g.phase != Playing && g.phase != AwaitingDrawDecision then Err(ActionNotAllowed)
    else match CurrentPlayer(g, playerID)
         case Err(e) => Err(e)
         case Ok(seat) =>
           match CardIndex(g.players[seat].hand, cardID)
           case None => Err(CardNotFound)
           case Some(index) =>
             if g.phase == AwaitingDrawDecision && cardID != g.drawnCardID then Err(IllegalCard)
             else if !Playable(g, g.players[seat].hand[index]) then Err(IllegalCard)
             else Ok((seat, index))
  }

  /** The card leaves the hand for the discard pile; the player's challenge and candidacy follow. */
  function Discarded(g: Game, seat: nat, index: nat, sayUNO: bool, env: Env): Game
    requires seat < |g.players| && index < |g.players[seat].hand|
  {
    var card := g.players[seat].hand[index];
    var hand := RemoveAt(g.players[seat].hand, index);
    var id := g.players[seat].id;
    SetHand(g, seat, hand).(
    drawnCardID := 0,
    discardPile := g.discardPile + [card],
    challenges := if |hand| != 1 || sayUNO then g.challenges - {id}
    else g.challenges[id := Challenge(id, env.now + env.window)],
    candidates := if hand == [] && seat !in g.candidates then g.candidates + [seat] else g.candidates)
  }

  function PlayCard(g: Game, playerID: int, cardID: int, sayUNO: bool, env: Env): Outcome
    requires Shape(g)
  {
    match PlayCheck(g, playerID, cardID)
    case Err(e) => Outcome(g, Failed(e))
    case Ok((seat, index)) =>
      var card := g.players[seat].hand[index];
      var played := Discarded(g, seat, index, sayUNO, env);
      if card.IsWild() then
        Outcome(played.(color := NoColor, phase := AwaitingColor, pendingColor := Some(PendingColor(seat, card, false))),
                Done)
      else
        Outcome(ApplyCardEffect(played.(color := card.color), seat, card), Done)
  }

  function PickColor(g: Game, playerID: int, color: Color): Outcome
    requires Shape(g)
  {
    if g.phase == Finished then Outcome(g, Failed(GameNotPlaying))
    else if !color.Valid() then Outcome(g, Failed(InvalidColor))
    else if g.phase != AwaitingColor || g.pendingColor.None? then Outcome(g, Failed(ActionNotAllowed))
    else
      var chooser := g.pendingColor.value;
      if g.players[chooser.seat].id != playerID then
        Outcome(g, Failed(if SeatOf(g.players, playerID).None? then PlayerNotFound else NotYourTurn))
      else
        var chosen := g.(color := color, pendingColor := None, phase := Playing);
        Outcome(if chooser.opening then chosen else ApplyCardEffect(chosen, chooser.seat, chooser.card), Done)
  }

  function DrawCard(g: Game, playerID: int, env: Env): Outcome
    requires Shape(g)
  {
    if g.phase == Finished then Outcome(g, Failed(GameNotPlaying))
    else if g.phase != Playing then Outcome(g, Failed(ActionNotAllowed))
    else match CurrentPlayer(g, playerID)
         case Err(e) => Outcome(g, Failed(e))
         case Ok(seat) => if g.pendingDraw > 0 then TakePenalty(g, seat, env) else DrawOne(g, seat, env)
  }

  /** Takes the whole pending penalty and ends the turn. */
  function TakePenalty(g: Game, seat: nat, env: Env): Outcome
    requires Shape(g) && seat < |g.players| && g.pendingDraw > 0
  {
    match DrawCardsTo(g, seat, g.pendingDraw, env.shuffle)
    case None => Outcome(g, Failed(ShuffleError))
    case Some((dealt, drawn)) =>
      Outcome(FinishIfResolved(dealt.(pendingDraw := 0, currentSeat := NextSeat(g, seat, 1))),
              Drew(DrawResult(drawn, false, true, true)))
  }

  /** Takes one card; a playable one opens the play-or-pass decision, any other ends the turn. */
  function DrawOne(g: Game, seat: nat, env: Env): Outcome
    requires Shape(g) && seat < |g.players|
  {
    match DealCards(g.drawPile, g.discardPile, 1, env.shuffle)
    case ShuffleFailed => Outcome(g, Failed(ShuffleError))
    case Dealt(drawn, drawPile, discardPile) =>
      if drawn == [] then
        Outcome(g.(drawPile := drawPile, discardPile := discardPile, currentSeat := NextSeat(g, seat, 1)),
                Drew(DrawResult([], false, false, true)))
      else
        var card := drawn[0];
        var dealt := Forget(SetHand(g, seat, g.players[seat].hand + [card]), g.players[seat].id)
          .(drawPile := drawPile, discardPile := discardPile);
        if Playable(g, card) then
          Outcome(dealt.(phase := AwaitingDrawDecision, drawnCardID := card.id),
                  Drew(DrawResult([card], true, false, false)))
        else
          Outcome(dealt.(currentSeat := NextSeat(g, seat, 1)), Drew(DrawResult([card], false, false, true)))
  }

  lemma {:induction false} WithoutMembers(s: seq<int>, x: int)
    ensures forall y :: y in Without(s, x) <==> y in s && y != x
  {
    if s != [] {
      WithoutMembers(s[1..], x);
      assert s == [s[0]] + s[1..];
    }
  }

  function PassTurn(g: Game, playerID: int): Outcome
    requires Shape(g)
  {
    if g.phase == Finished then Outcome(g, Failed(GameNotPlaying))
    else if g.phase != AwaitingDrawDecision || g.drawnCardID == 0 then Outcome(g, Failed(ActionNotAllowed))
    else match CurrentPlayer(g, playerID)
         case Err(e) => Outcome(g, Failed(e))
         case Ok(seat) => Outcome(g.(drawnCardID := 0, phase := Playing, currentSeat := NextSeat(g, seat, 1)), Done)
  }

  /** A deadline that is exactly now has passed. */
  predicate DeadlineReached(now: int, deadline: int) { now >= deadline }

  predicate ChallengeActive(g: Game, id: int, now: int) {
    id in g.challenges && !DeadlineReached(now, g.challenges[id].expiresAt)
  }

  /** Looking a challenge up drops it when it has expired. */
  function Cleaned(g: Game, id: int, now: int): Game {
    if id in g.challenges && DeadlineReached(now, g.challenges[id].expiresAt) then Forget(g, id) else g
  }

  function Call(g: Game, playerID: int, env: Env): Outcome
    requires Shape(g)
  {
    if g.phase == Finished then Outcome(g, Failed(GameNotPlaying))
    else if SeatOf(g.players, playerID).None? then Outcome(g, Failed(PlayerNotFound))
    else if !ChallengeActive(g, playerID, env.now) then
      Outcome(Cleaned(g, playerID, env.now), Failed(NoUNOChallenge))
    else Outcome(Forget(g, g.challenges[playerID].playerID), Done)
  }

  function Catch(g: Game, challengerID: int, targetID: int, env: Env): Outcome
    requires Shape(g)
  {
    if g.phase == Finished then Outcome(g, Failed(GameNotPlaying))
    else if SeatOf(g.players, challengerID).None? || SeatOf(g.players, targetID).None? then
      Outcome(g, Failed(PlayerNotFound))
    else if challengerID == targetID then Outcome(g, Failed(CannotCatchSelf))
    else if !ChallengeActive(g, targetID, env.now) then
      Outcome(Cleaned(g, targetID, env.now), Failed(NoUNOChallenge))
    else CaughtOut(g, SeatOf(g.players, targetID).value, env)
  }

  /** Two penalty cards, and the challenge is over. */
  function CaughtOut(g: Game, seat: nat, env: Env): Outcome
    requires seat < |g.players|
  {
    match DrawCardsTo(g, seat, 2, env.shuffle)
    case None => Outcome(g, Failed(ShuffleError))
    case Some((dealt, drawn)) =>
      Outcome(Forget(dealt, g.players[seat].id), Drew(DrawResult(drawn, false, true, false)))
  }

  /** The seated players, in order, whose challenge has expired. */
  function ExpiredIDs(players: seq<Player>, challenges: map<int, Challenge>, now: int): seq<int> {
    if players == [] then []
    else
      var id := players[0].id;
      (if id in challenges && DeadlineReached(now, challenges[id].expiresAt) then [id] else [])
      + ExpiredIDs(players[1..], challenges, now)
  }

  function Expire(g: Game, env: Env): Outcome {
    var ids := ExpiredIDs(g.players, g.challenges, env.now);
    Outcome(g.(challenges := g.challenges - (set id | id in ids)), Expired(ids))
  }

  function Apply(g: Game, command: Command, env: Env): Outcome
    requires Shape(g)
  {
    match command
    case Play(playerID, cardID, sayUNO) => PlayCard(g, playerID, cardID, sayUNO, env)
    case ChooseColor(playerID, color) => PickColor(g, playerID, color)
    case Draw(playerID) => DrawCard(g, playerID, env)
    case Pass(playerID) => PassTurn(g, playerID)
    case CallUNO(playerID) => Call(g, playerID, env)
    case CatchUNO(challengerID, targetID) => Catch(g, challengerID, targetID, env)
    case ExpireUNO => Expire(g, env)
  }
}
