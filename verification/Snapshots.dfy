/** Saving a game, checking a saved game and restoring it. */
module Snapshots {
  import opened Wrappers
  import opened Cards
  import opened Piles
  import opened Rules
  import opened Invariant
  import opened Preservation

  const SCHEMA_VERSION: int := 1

  datatype PendingColorSnapshot = PendingColorSnapshot(playerID: int, card: Card, opening: bool)

  /** The persisted form: player ids instead of seats, a list of challenges in seat order instead of a map. */
  datatype Snapshot = Snapshot(
    schemaVersion: int,
    players: seq<Player>,
    drawPile: seq<Card>,
    discardPile: seq<Card>,
    dealerSeat: int,
    currentSeat: int,
    direction: int,
    color: Color,
    pendingDraw: int,
    phase: Phase,
    drawnCardID: int,
    pendingColor: Option<PendingColorSnapshot>,
    challenges: seq<Challenge>,
    candidates: seq<int>,
    result: Option<RoundResult>)

  function SeatChallenges(players: seq<Player>, challenges: map<int, Challenge>): seq<Challenge> {
    if players == [] then []
    else (if players[0].id in challenges then [challenges[players[0].id]] else [])
         + SeatChallenges(players[1..], challenges)
  }

  function TakeSnapshot(g: Game): Snapshot
    requires Shape(g)
  {
    Snapshot(SCHEMA_VERSION, g.players, g.drawPile, g.discardPile, g.dealerSeat, g.currentSeat, g.direction, g.color,
             g.pendingDraw, g.phase, g.drawnCardID,
             (match g.pendingColor
              case None => None
              case Some(p) => Some(PendingColorSnapshot(g.players[p.seat].id, p.card, p.opening))),
             SeatChallenges(g.players, g.challenges), g.candidates, g.result)
  }

  // ----- What a saved game is checked for -----

  ghost predicate ValidShape(s: Snapshot) {
    && s.schemaVersion == SCHEMA_VERSION
    && 2 <= |s.players| <= 6
    && (forall i :: 0 <= i < |s.players| ==> s.players[i].id > 0)
    && DistinctPlayers(s.players)
    && 0 <= s.dealerSeat < |s.players|
    && (s.direction == 1 || s.direction == -1)
    && |s.discardPile| > 0
    && s.pendingDraw >= 0
    && !s.phase.OtherPhase?
    && SeatsBelow(s.candidates, |s.players|)
    && (forall i :: 0 <= i < |s.candidates| ==> s.players[s.candidates[i]].hand == [])
    && DistinctSeats(s.candidates)
  }

  predicate ValidLifecycle(s: Snapshot)
    requires |s.discardPile| > 0
  {
    && (if s.phase == Finished then
          s.currentSeat == -1 && s.result.Some? && s.pendingDraw == 0 && |s.candidates| > 0
        else 0 <= s.currentSeat < |s.players| && s.result.None?)
    && (s.phase != Finished && |s.candidates| > 0 && s.pendingDraw == 0 ==> s.phase == AwaitingColor)
    && (if s.phase == AwaitingColor then s.pendingColor.Some? && s.color == NoColor else s.pendingColor.None?)
    && (if s.phase == AwaitingDrawDecision then s.drawnCardID != 0 && s.pendingDraw == 0 else s.drawnCardID == 0)
    && (s.phase != AwaitingColor ==> s.color.Valid())
    && var top := s.discardPile[|s.discardPile| - 1];
       !top.IsWild() ==> s.color == top.color
  }

  function SnapshotCards(s: Snapshot): seq<Card> {
    s.drawPile + s.discardPile + AllHands(s.players)
  }

  ghost predicate ValidCards(s: Snapshot) {
    var cards := SnapshotCards(s);
    |cards| == DECK_SIZE && DistinctIDs(cards) && forall i :: 0 <= i < |cards| ==> IsCanonical(cards[i])
  }

  /** A challenge belongs to a seated player with one card and has a deadline. */
  predicate ChallengeOk(players: seq<Player>, c: Challenge) {
    && SeatOf(players, c.playerID).Some?
    && |players[SeatOf(players, c.playerID).value].hand| == 1
    && c.expiresAt != ZERO_TIME
  }

  ghost predicate DistinctChallenges(challenges: seq<Challenge>) {
    forall i, j :: 0 <= i < j < |challenges| ==> challenges[i].playerID != challenges[j].playerID
  }

  ghost predicate ValidPending(s: Snapshot)
    requires |s.discardPile| > 0
  {
    && (s.phase == AwaitingDrawDecision ==>
          0 <= s.currentSeat < |s.players| && Holds(s.players[s.currentSeat].hand, s.drawnCardID))
    && (s.pendingColor.Some? ==>
          var p, top := s.pendingColor.value, s.discardPile[|s.discardPile| - 1];
          && SeatOf(s.players, p.playerID).Some?
          && SeatOf(s.players, p.playerID).value == s.currentSeat
          && top.IsWild() && top == p.card
          && (p.opening ==> top.kind == Wild))
    && (forall i :: 0 <= i < |s.challenges| ==> ChallengeOk(s.players, s.challenges[i]))
    && DistinctChallenges(s.challenges)
  }

  /** The stored result is the one the hands and the first candidate give. */
  ghost predicate ValidResult(s: Snapshot)
    requires SeatsBelow(s.candidates, |s.players|)
  {
    s.result.Some? ==> |s.candidates| > 0 && s.result.value == ResultFor(s.players, s.candidates[0])
  }

  ghost predicate ValidSnapshot(s: Snapshot) {
    ValidShape(s) && ValidLifecycle(s) && ValidCards(s) && ValidPending(s) && ValidResult(s)
  }

  // ----- Restoring -----

  function ChallengeMap(challenges: seq<Challenge>): map<int, Challenge> {
    if challenges == [] then map[]
    else
      var last := challenges[|challenges| - 1];
      ChallengeMap(challenges[..|challenges| - 1])[last.playerID := last]
  }

  function Restored(s: Snapshot): Game
    requires s.pendingColor.Some? ==> SeatOf(s.players, s.pendingColor.value.playerID).Some?
  {
    Game(s.players, s.drawPile, s.discardPile, s.dealerSeat, s.currentSeat, s.direction, s.color, s.pendingDraw,
         s.phase, s.drawnCardID,
         (match s.pendingColor
          case None => None
          case Some(p) => Some(PendingColor(SeatOf(s.players, p.playerID).value, p.card, p.opening))),
         ChallengeMap(s.challenges), s.candidates, s.result)
  }

  ghost function Restore(s: Snapshot): Result<Game, Error> {
    if ValidSnapshot(s) then Ok(Restored(s)) else Err(InvalidSnapshot)
  }

  // ----- Challenges as list and as map -----

  lemma {:induction false} ChallengeMapFacts(challenges: seq<Challenge>)
    requires DistinctChallenges(challenges)
    ensures forall i :: 0 <= i < |challenges| ==>
                          challenges[i].playerID in ChallengeMap(challenges)
                          && ChallengeMap(challenges)[challenges[i].playerID] == challenges[i]
    ensures forall id :: id in ChallengeMap(challenges) ==>
                           exists i :: 0 <= i < |challenges| && challenges[i].playerID == id
  {
    if challenges != [] {
      ChallengeMapFacts(challenges[..|challenges| - 1]);
    }
  }

  lemma {:induction false} SeatChallengesFacts(players: seq<Player>, challenges: map<int, Challenge>)
    requires DistinctPlayers(players)
    requires forall id :: id in challenges ==> challenges[id].playerID == id
    ensures var list := SeatChallenges(players, challenges);
            && DistinctChallenges(list)
            && (forall i :: 0 <= i < |list| ==>
                  list[i].playerID in challenges && challenges[list[i].playerID] == list[i]
                  && exists s :: 0 <= s < |players| && players[s].id == list[i].playerID)
            && (forall s :: 0 <= s < |players| && players[s].id in challenges ==> challenges[players[s].id] in list)
  {
    if players != [] {
      var rest := SeatChallenges(players[1..], challenges);
      SeatChallengesFacts(players[1..], challenges);
      if players[0].id in challenges {
        forall i | 0 <= i < |rest| ensures rest[i].playerID != players[0].id {
          var s :| 0 <= s < |players[1..]| && players[1..][s].id == rest[i].playerID;
          assert players[0].id != players[s + 1].id;
        }
      }
      forall s | 0 <= s < |players| && players[s].id in challenges
        ensures challenges[players[s].id] in SeatChallenges(players, challenges)
      {
        if s > 0 { assert players[s] == players[1..][s - 1]; }
      }
    }
  }

  lemma ListOfMap(list: seq<Challenge>, m: map<int, Challenge>)
    requires DistinctChallenges(list)
    requires forall i :: 0 <= i < |list| ==> list[i].playerID in m && m[list[i].playerID] == list[i]
    requires forall id :: id in m ==> m[id].playerID == id && m[id] in list
    ensures ChallengeMap(list) == m
  {
    ChallengeMapFacts(list);
    var back := ChallengeMap(list);
    hide ChallengeMap;
    forall id | id in m ensures id in back && back[id] == m[id] {
      var i :| 0 <= i < |list| && list[i] == m[id];
    }
    forall id | id in back ensures id in m {
      var i :| 0 <= i < |list| && list[i].playerID == id;
    }
  }

  /** Every key of a map of seated challenges comes back from the list. */
  lemma ChallengesRoundTrip(players: seq<Player>, challenges: map<int, Challenge>)
    requires DistinctPlayers(players) && InvChallenges(players, challenges)
    ensures ChallengeMap(SeatChallenges(players, challenges)) == challenges
  {
    var list := SeatChallenges(players, challenges);
    SeatChallengesFacts(players, challenges);
    forall id | id in challenges ensures challenges[id] in list {
      var s :| 0 <= s < |players| && players[s].id == id && |players[s].hand| == 1;
    }
    hide InvChallenges, SeatChallenges;
    ListOfMap(list, challenges);
  }

  lemma SeatOfDistinct(players: seq<Player>, s: nat)
    requires DistinctPlayers(players) && s < |players|
    ensures SeatOf(players, players[s].id) == Some(s)
  {
    var t := SeatOf(players, players[s].id);
    assert t.Some?;
  }

  lemma OneCardSeat(players: seq<Player>, id: int)
    requires DistinctPlayers(players)
    ensures HoldsOneCard(players, id) <==> SeatOf(players, id).Some? && |players[SeatOf(players, id).value].hand| == 1
  {
    if HoldsOneCard(players, id) {
      var s :| 0 <= s < |players| && players[s].id == id && |players[s].hand| == 1;
      SeatOfDistinct(players, s);
    }
  }

  // ----- What is saved is accepted -----

  lemma SavedChallengesOk(players: seq<Player>, challenges: map<int, Challenge>)
    requires DistinctPlayers(players) && InvChallenges(players, challenges)
    ensures DistinctChallenges(SeatChallenges(players, challenges))
    ensures forall i :: 0 <= i < |SeatChallenges(players, challenges)| ==>
                          ChallengeOk(players, SeatChallenges(players, challenges)[i])
  {
    SeatChallengesFacts(players, challenges);
    var list := SeatChallenges(players, challenges);
    forall i | 0 <= i < |list| ensures ChallengeOk(players, list[i]) {
      OneCardSeat(players, list[i].playerID);
    }
  }

  lemma SavedCardsOk(g: Game)
    requires Conserved(g) && Shape(g)
    ensures ValidCards(TakeSnapshot(g))
  {
    ConservedIff(g);
    FullDeckIff(AllCards(g));
  }

  /** Every game that keeps the invariant passes the check for saved games. */
  lemma InvValid(g: Game, exact: bool)
    requires Inv(g, exact)
    ensures ValidSnapshot(TakeSnapshot(g))
  {
    var s := TakeSnapshot(g);
    SavedCardsOk(g);
    SavedChallengesOk(g.players, g.challenges);
    if g.pendingColor.Some? {
      SeatOfDistinct(g.players, g.currentSeat);
    }
    assert ValidShape(s) && ValidLifecycle(s);
    assert ValidResult(s);
    assert ValidPending(s);
    hide ValidCards, Conserved;
  }

  /** Restoring what was saved gives back every persisted field. */
  lemma RestoreSnapshot(g: Game, exact: bool)
    requires Inv(g, exact)
    ensures Restore(TakeSnapshot(g)) == Ok(g)
  {
    InvValid(g, exact);
    ChallengesRoundTrip(g.players, g.challenges);
    if g.pendingColor.Some? {
      SeatOfDistinct(g.players, g.currentSeat);
    }
  }

  // ----- What is accepted can be played on -----

  /** The one saved state that play cannot continue from: an opening colour choice with a player already out. */
  predicate DeadOpening(s: Snapshot) {
    s.pendingColor.Some? && s.pendingColor.value.opening && s.candidates != [] && s.pendingDraw == 0
  }

  lemma RestoredChallenges(s: Snapshot)
    requires ValidSnapshot(s)
    ensures InvChallenges(s.players, ChallengeMap(s.challenges))
  {
    ChallengeMapFacts(s.challenges);
    var m := ChallengeMap(s.challenges);
    forall id | id in m
      ensures m[id].playerID == id && m[id].expiresAt != ZERO_TIME && HoldsOneCard(s.players, id)
    {
      var i :| 0 <= i < |s.challenges| && s.challenges[i].playerID == id;
      assert ChallengeOk(s.players, s.challenges[i]);
      OneCardSeat(s.players, id);
    }
  }

  lemma RestoredInv(s: Snapshot)
    requires ValidSnapshot(s) && !DeadOpening(s)
    ensures Inv(Restored(s), false)
  {
    var g := Restored(s);
    RestoredChallenges(s);
    assert Conserved(g) by {
      ConservedIff(g);
      assert AllCards(g) == SnapshotCards(s);
      FullDeckIff(AllCards(g));
    }
    hide Conserved, ValidCards, InvChallenges;
    assert InvPendingColor(g, Top(g), false);
    assert InvResult(g, false);
    assert InvDecision(g.players, g.phase, g.drawnCardID, g.pendingDraw, g.currentSeat);
  }

  function SeatIndex(players: seq<Player>, c: Challenge): nat {
    match SeatOf(players, c.playerID)
    case None => 0
    case Some(s) => s
  }

  /** Seat numbers rise along the list. */
  ghost predicate InSeatOrder(players: seq<Player>, challenges: seq<Challenge>) {
    forall i, j :: 0 <= i < j < |challenges| ==> SeatIndex(players, challenges[i]) < SeatIndex(players, challenges[j])
  }

  lemma {:induction false} SeatChallengesInOrder(players: seq<Player>, challenges: map<int, Challenge>, from: nat)
    requires from <= |players| && DistinctPlayers(players)
    requires forall id :: id in challenges ==> challenges[id].playerID == id
    ensures var list := SeatChallenges(players[from..], challenges);
            && InSeatOrder(players, list)
            && (forall i :: 0 <= i < |list| ==> SeatIndex(players, list[i]) >= from)
    decreases |players| - from
  {
    if from < |players| {
      SeatChallengesInOrder(players, challenges, from + 1);
      assert players[from..][1..] == players[from + 1..];
      SeatOfDistinct(players, from);
    }
  }

  lemma OrderedTail(players: seq<Player>, a: seq<Challenge>, b: seq<Challenge>)
    requires InSeatOrder(players, a) && a != [] && b != [] && a[0] == b[0]
    requires forall c :: c in a ==> c in b
    ensures forall c :: c in a[1..] ==> c in b[1..]
  {
    forall c | c in a[1..] ensures c in b[1..] {
      var k :| 0 <= k < |a[1..]| && a[1..][k] == c;
      assert a[k + 1] == c && c != a[0];
      assert c in b;
      var j :| 0 <= j < |b| && b[j] == c;
      assert b[1..][j - 1] == c;
    }
  }

  lemma InOrderTail(players: seq<Player>, a: seq<Challenge>)
    requires InSeatOrder(players, a) && a != []
    ensures InSeatOrder(players, a[1..])
  {
  }

  lemma SameHead(players: seq<Player>, a: seq<Challenge>, b: seq<Challenge>)
    requires InSeatOrder(players, a) && InSeatOrder(players, b) && a != [] && b != []
    requires a[0] in b && b[0] in a
    ensures a[0] == b[0]
  {
    var j :| 0 <= j < |b| && b[j] == a[0];
    var i :| 0 <= i < |a| && a[i] == b[0];
  }

  /** A list is determined by its members when the order is strict. */
  lemma {:induction false} SameInOrder(players: seq<Player>, a: seq<Challenge>, b: seq<Challenge>)
    requires InSeatOrder(players, a) && InSeatOrder(players, b)
    requires forall c :: c in a <==> c in b
    ensures a == b
  {
    assert b != [] ==> b[0] in a;
    if a != [] {
      assert a[0] in b;
      SameHead(players, a, b);
      hide InSeatOrder;
      OrderedTail(players, a, b);
      OrderedTail(players, b, a);
      InOrderTail(players, a);
      InOrderTail(players, b);
      SameInOrder(players, a[1..], b[1..]);
      assert a == [a[0]] + a[1..] && b == [b[0]] + b[1..];
    }
  }

  lemma SameChallenges(s: Snapshot)
    requires ValidSnapshot(s)
    ensures forall c :: c in SeatChallenges(s.players, ChallengeMap(s.challenges)) <==> c in s.challenges
  {
    var m := ChallengeMap(s.challenges);
    var list := SeatChallenges(s.players, m);
    RestoredChallenges(s);
    ChallengeMapFacts(s.challenges);
    SeatChallengesFacts(s.players, m);
    forall c | c in s.challenges ensures c in list {
      var i :| 0 <= i < |s.challenges| && s.challenges[i] == c;
      assert ChallengeOk(s.players, s.challenges[i]);
      assert s.players[SeatOf(s.players, c.playerID).value].id in m;
    }
    forall c | c in list ensures c in s.challenges {
      var i :| 0 <= i < |list| && list[i] == c;
      var j :| 0 <= j < |s.challenges| && s.challenges[j].playerID == c.playerID;
    }
  }

  /** Saving what was restored gives the saved game back, with the same challenges put in seat order;
      it is identical exactly when they were in seat order already. */
  lemma SnapshotRestored(s: Snapshot)
    requires ValidSnapshot(s)
    ensures var again := SeatChallenges(s.players, ChallengeMap(s.challenges));
            && Shape(Restored(s))
            && TakeSnapshot(Restored(s)) == s.(challenges := again)
            && (forall c :: c in again <==> c in s.challenges)
            && (TakeSnapshot(Restored(s)) == s <==> InSeatOrder(s.players, s.challenges))
  {
    var again := SeatChallenges(s.players, ChallengeMap(s.challenges));
    SameChallenges(s);
    RestoredChallenges(s);
    SeatChallengesInOrder(s.players, ChallengeMap(s.challenges), 0);
    assert s.players[0..] == s.players;
    if InSeatOrder(s.players, s.challenges) {
      SameInOrder(s.players, again, s.challenges);
    }
  }

  // ----- The check is not kept by play, and exactly when -----

  ghost predicate KeepsValid(g: Game)
    requires Shape(g)
  {
    forall command: Command, env: Env :: EnvOk(env) ==>
      Shape(Apply(g, command, env).game) && ValidSnapshot(TakeSnapshot(Apply(g, command, env).game))
  }

  /** Every command keeps a checked saved game valid, unless it is a dead opening: then choosing the colour leaves
      a game in play whose winner was never declared. */
  lemma KeepsValidIff(s: Snapshot)
    requires ValidSnapshot(s)
    ensures Shape(Restored(s))
    ensures KeepsValid(Restored(s)) <==> !DeadOpening(s)
  {
    var g := Restored(s);
    if DeadOpening(s) {
      var env := Env(1, 1, pile => ShuffleResult(true, pile));
      var command := ChooseColor(s.pendingColor.value.playerID, Red);
      assert EnvOk(env);
      var after := Apply(g, command, env).game;
      assert after.phase == Playing && after.candidates == s.candidates && after.pendingDraw == 0;
      assert !ValidLifecycle(TakeSnapshot(after));
    } else {
      RestoredInv(s);
      hide DeadOpening, ValidSnapshot, Restored, Inv;
      forall command: Command, env: Env | EnvOk(env)
        ensures Shape(Apply(g, command, env).game) && ValidSnapshot(TakeSnapshot(Apply(g, command, env).game))
      {
        ApplyInv(g, command, env, false);
        InvValid(Apply(g, command, env).game, false);
      }
    }
  }

  /** A dead opening: both hands empty, a wild turned over, seat 0 already out. */
  function DeadSave(drawPile: seq<Card>, wild: Card): Snapshot {
    Snapshot(SCHEMA_VERSION, [Player(1, []), Player(2, [])], drawPile, [wild], 0, 0, 1, NoColor,
             0, AwaitingColor, 0, Some(PendingColorSnapshot(1, wild, true)), [], [0], None)
  }

  lemma DeadSaveValid(drawPile: seq<Card>, wild: Card)
    requires wild.kind == Wild && IsFullDeck(drawPile + [wild])
    ensures ValidSnapshot(DeadSave(drawPile, wild)) && DeadOpening(DeadSave(drawPile, wild))
  {
    var s := DeadSave(drawPile, wild);
    assert ValidCards(s) by {
      assert AllHands(s.players[1..]) == [];
      assert SnapshotCards(s) == drawPile + [wild];
      FullDeckIff(drawPile + [wild]);
    }
    assert SeatOf(s.players, 1) == Some(0);
    hide ValidCards, SeatOf;
  }

  /** The checked saved games that play cannot continue from do exist. */
  lemma DeadOpeningExists()
    ensures exists s :: ValidSnapshot(s) && DeadOpening(s)
  {
    var wild := CanonicalCard(101);
    var rest := AllBut(101);
    DeadSaveValid(rest, wild);
    hide *;
  }

  /** A finished round of two: seat 0 has won, both hands are empty. */
  function FinishedSave(drawPile: seq<Card>, top: Card): Snapshot {
    var players := [Player(1, []), Player(2, [])];
    Snapshot(SCHEMA_VERSION, players, drawPile, [top], 0, -1, 1, top.color, 0, Finished, 0, None, [], [0],
             Some(ResultFor(players, 0)))
  }

  lemma FinishedSaveValid(drawPile: seq<Card>, top: Card)
    requires top.color.Valid() && !top.IsWild() && IsFullDeck(drawPile + [top])
    ensures ValidSnapshot(FinishedSave(drawPile, top))
  {
    var s := FinishedSave(drawPile, top);
    assert ValidCards(s) by {
      assert AllHands(s.players[1..]) == [];
      assert SnapshotCards(s) == drawPile + [top];
      FullDeckIff(drawPile + [top]);
    }
    hide ValidCards, ResultFor, AllHands, IsFullDeck;
    assert ValidShape(s);
    assert ValidLifecycle(s) && ValidPending(s) && ValidResult(s);
  }

  /** The deck without one card. */
  lemma AllBut(id: nat) returns (rest: seq<Card>)
    requires 1 <= id <= DECK_SIZE
    ensures IsFullDeck(rest + [CanonicalCard(id)])
  {
    var deck := StandardDeck();
    rest := deck[..id - 1] + deck[id..];
    assert deck == deck[..id - 1] + [deck[id - 1]] + deck[id..];
  }

  /** A snapshot of any other version is refused, whatever else it holds; an accepted one comes from this version. */
  lemma OneVersion(s: Snapshot, version: int)
    requires ValidSnapshot(s)
    ensures s.schemaVersion == 1
    ensures version != 1 ==> Restore(s.(schemaVersion := version)) == Err(InvalidSnapshot)
  {
    hide ValidLifecycle, ValidCards, ValidPending, ValidResult;
  }
}
