/** The checks a saved game goes through, as the program runs them, and the engine built from one that passes. */
module Validation {
  import opened Wrappers
  import opened Cards
  import opened Piles
  import opened Rules
  import opened Invariant
  import opened Setup
  import opened Snapshots
  import opened Engines

  method ValidatePlayerIDs(ids: seq<int>) returns (ok: bool)
    ensures ok <==> ValidPlayerIDs(ids)
  {
    if |ids| < 2 || |ids| > 6 {
      return false;
    }
    var seen: set<int> := {};
    for i := 0 to |ids|
      invariant forall j :: 0 <= j < i ==> ids[j] > 0
      invariant forall j, k :: 0 <= j < k < i ==> ids[j] != ids[k]
      invariant forall id :: id in seen <==> id in ids[..i]
    {
      if ids[i] <= 0 || ids[i] in seen {
        return false;
      }
      seen := seen + {ids[i]};
    }
    ok := true;
  }

  method ValidateCandidates(players: seq<Player>, candidates: seq<int>) returns (ok: bool)
    ensures ok <==> && SeatsBelow(candidates, |players|)
                    && (forall i :: 0 <= i < |candidates| ==> players[candidates[i]].hand == [])
                    && DistinctSeats(candidates)
  {
    var seen: set<int> := {};
    for i := 0 to |candidates|
      invariant forall j :: 0 <= j < i ==> 0 <= candidates[j] < |players| && players[candidates[j]].hand == []
      invariant forall j, k :: 0 <= j < k < i ==> candidates[j] != candidates[k]
      invariant forall s :: s in seen <==> s in candidates[..i]
    {
      var seat := candidates[i];
      if seat < 0 || seat >= |players| || |players[seat].hand| != 0 {
        return false;
      }
      if seat in seen {
        return false;
      }
      seen := seen + {seat};
    }
    ok := true;
  }

  method ValidateShape(s: Snapshot) returns (ok: bool)
    ensures ok <==> ValidShape(s)
  {
    if s.schemaVersion != SCHEMA_VERSION {
      return false;
    }
    var ids: seq<int> := [];
    for i := 0 to |s.players|
      invariant |ids| == i && forall j :: 0 <= j < i ==> ids[j] == s.players[j].id
    {
      ids := ids + [s.players[i].id];
    }
    SameIDs(s.players, ids);
    var idsOk := ValidatePlayerIDs(ids);
    if !idsOk || s.dealerSeat < 0 || s.dealerSeat >= |s.players| || (s.direction != 1 && s.direction != -1) {
      return false;
    }
    if |s.discardPile| == 0 || s.pendingDraw < 0 || s.phase.OtherPhase? {
      return false;
    }
    ok := ValidateCandidates(s.players, s.candidates);
  }

  lemma SameIDs(players: seq<Player>, ids: seq<int>)
    requires |ids| == |players| && forall i :: 0 <= i < |ids| ==> ids[i] == players[i].id
    ensures ValidPlayerIDs(ids) <==>
            && 2 <= |players| <= 6
            && (forall i :: 0 <= i < |players| ==> players[i].id > 0)
            && DistinctPlayers(players)
  {
    if ValidPlayerIDs(ids) {
      forall i | 0 <= i < |players| ensures players[i].id > 0 { assert ids[i] > 0; }
      forall i, j | 0 <= i < j < |players| ensures players[i].id != players[j].id { assert ids[i] != ids[j]; }
    }
  }

  /** Adds the cards of one place to those already seen, unless one is wrong or seen before. */
  method AddCards(cards: seq<Card>, seen: set<nat>, ghost before: seq<Card>, canonicalDeck: seq<Card>)
    returns (ok: bool, seen': set<nat>)
    requires canonicalDeck == StandardDeck()
    requires CardsSeen(before, seen)
    ensures ok <==> DistinctIDs(before + cards) && forall i :: 0 <= i < |cards| ==> IsCanonical(cards[i])
    ensures ok ==> CardsSeen(before + cards, seen')
  {
    hide CardsSeen, DistinctIDs, IsCanonical;
    seen' := seen;
    assert before + cards[..0] == before;
    for i := 0 to |cards|
      invariant CardsSeen(before + cards[..i], seen')
      invariant forall j :: 0 <= j < i ==> IsCanonical(cards[j])
    {
      var cardOk := CheckCard(cards[i], canonicalDeck);
      if !cardOk {
        return false, seen';
      }
      if cards[i].id in seen' {
        SeenTwice(before, cards, i, seen');
        return false, seen';
      }
      SeenOneMore(before + cards[..i], seen', cards[i]);
      assert before + cards[..i + 1] == (before + cards[..i]) + [cards[i]];
      seen' := seen' + {cards[i].id};
    }
    assert cards[..|cards|] == cards;
    SeenAll(before + cards, seen');
    ok := true;
  }

  /** Field by field the card the deck has under this id. */
  method CheckCard(card: Card, canonicalDeck: seq<Card>) returns (ok: bool)
    requires canonicalDeck == StandardDeck()
    ensures ok <==> IsCanonical(card)
  {
    if !card.Valid() || card.id > DECK_SIZE {
      NotCanonical(card);
      return false;
    }
    ok := card == canonicalDeck[card.id - 1];
  }

  lemma NotCanonical(card: Card)
    requires !card.Valid() || card.id > DECK_SIZE
    ensures !IsCanonical(card)
  {
    if 1 <= card.id <= DECK_SIZE { CanonicalIsValid(card.id); }
  }

  /** The seen ids are those of the cards so far, which are all different. */
  ghost predicate CardsSeen(cards: seq<Card>, seen: set<nat>) {
    && DistinctIDs(cards)
    && |seen| == |cards|
    && forall id :: id in seen <==> exists i :: 0 <= i < |cards| && cards[i].id == id
  }

  lemma SeenOneMore(cards: seq<Card>, seen: set<nat>, card: Card)
    requires CardsSeen(cards, seen) && card.id !in seen
    ensures CardsSeen(cards + [card], seen + {card.id})
  {
    var more := cards + [card];
    forall id | id in seen + {card.id} ensures exists i :: 0 <= i < |more| && more[i].id == id {
      if id == card.id {
        assert more[|cards|].id == id;
      } else {
        var i :| 0 <= i < |cards| && cards[i].id == id;
        assert more[i].id == id;
      }
    }
  }

  lemma SeenTwice(before: seq<Card>, cards: seq<Card>, i: nat, seen: set<nat>)
    requires i < |cards| && CardsSeen(before + cards[..i], seen) && cards[i].id in seen
    ensures !DistinctIDs(before + cards)
  {
    var so := before + cards[..i];
    var j :| 0 <= j < |so| && so[j].id == cards[i].id;
    assert (before + cards)[j] == so[j] && (before + cards)[|before| + i] == cards[i];
  }

  ghost predicate AllCanonical(cards: seq<Card>) {
    forall i :: 0 <= i < |cards| ==> IsCanonical(cards[i])
  }

  /** Adds one place of a table whose cards are `all`; what is wrong so far is wrong with all of them. */
  method AddPlace(cards: seq<Card>, seen: set<nat>, ghost before: seq<Card>, ghost all: seq<Card>, canonicalDeck: seq<Card>)
    returns (ok: bool, seen': set<nat>)
    requires canonicalDeck == StandardDeck() && CardsSeen(before, seen) && AllCanonical(before)
    requires before + cards <= all
    ensures if ok then CardsSeen(before + cards, seen') && AllCanonical(before + cards)
            else !(DistinctIDs(all) && AllCanonical(all))
  {
    ok, seen' := AddCards(cards, seen, before, canonicalDeck);
    ghost var so := before + cards;
    assert forall k :: 0 <= k < |so| ==> so[k] == all[k];
    assert forall k :: 0 <= k < |cards| ==> cards[k] == all[|before| + k];
  }

  method ValidateCards(s: Snapshot) returns (ok: bool)
    ensures ok <==> ValidCards(s)
  {
    ghost var all := SnapshotCards(s);
    assert ValidCards(s) <==> |all| == DECK_SIZE && DistinctIDs(all) && AllCanonical(all);
    assert CardsSeen([], {}) && AllCanonical([]);
    assert CardsSeen(all, {}) ==> DistinctIDs(all);
    hide CardsSeen, AllCanonical, DistinctIDs, ValidCards, StandardDeck;
    var canonicalDeck := NewStandardDeck();
    ghost var before: seq<Card> := [];
    var placeOk, seen := AddPlace(s.drawPile, {}, before, all, canonicalDeck);
    if !placeOk {
      return false;
    }
    before := s.drawPile;
    assert [] + s.drawPile == before;
    placeOk, seen := AddPlace(s.discardPile, seen, before, all, canonicalDeck);
    if !placeOk {
      return false;
    }
    before := before + s.discardPile;
    for i := 0 to |s.players|
      invariant CardsSeen(before, seen) && AllCanonical(before)
      invariant before + AllHands(s.players[i..]) == all
    {
      NextHand(before, s.players, i);
      placeOk, seen := AddPlace(s.players[i].hand, seen, before, all, canonicalDeck);
      if !placeOk {
        return false;
      }
      before := before + s.players[i].hand;
    }
    NoMoreHands(before, s.players);
    SeenAll(all, seen);
    ok := |seen| == DECK_SIZE;
  }

  lemma NextHand(before: seq<Card>, players: seq<Player>, i: nat)
    requires i < |players|
    ensures before + AllHands(players[i..]) == (before + players[i].hand) + AllHands(players[i + 1..])
  {
    assert players[i..][1..] == players[i + 1..];
    Associative(before, players[i].hand, AllHands(players[i + 1..]));
  }

  lemma NoMoreHands(before: seq<Card>, players: seq<Player>)
    ensures before + AllHands(players[|players|..]) == before
  {
    assert players[|players|..] == [];
  }

  lemma SeenAll(cards: seq<Card>, seen: set<nat>)
    requires CardsSeen(cards, seen)
    ensures DistinctIDs(cards) && |seen| == |cards|
  {
  }

  method ValidateChallenges(players: seq<Player>, challenges: seq<Challenge>) returns (ok: bool)
    ensures ok <==> (forall i :: 0 <= i < |challenges| ==> ChallengeOk(players, challenges[i]))
                    && DistinctChallenges(challenges)
  {
    var seen: set<int> := {};
    for i := 0 to |challenges|
      invariant forall j :: 0 <= j < i ==> ChallengeOk(players, challenges[j])
      invariant forall j, k :: 0 <= j < k < i ==> challenges[j].playerID != challenges[k].playerID
      invariant forall id :: id in seen <==> exists j :: 0 <= j < i && challenges[j].playerID == id
    {
      var challenge := challenges[i];
      var seat := SeatOf(players, challenge.playerID);
      if seat.None? || |players[seat.value].hand| != 1 || challenge.expiresAt == ZERO_TIME {
        return false;
      }
      if challenge.playerID in seen {
        return false;
      }
      seen := seen + {challenge.playerID};
    }
    ok := true;
  }

  method ValidatePending(s: Snapshot) returns (ok: bool)
    requires |s.discardPile| > 0 && (s.phase == AwaitingDrawDecision ==> 0 <= s.currentSeat < |s.players|)
    ensures ok <==> ValidPending(s)
  {
    if s.phase == AwaitingDrawDecision {
      var held := CardIndex(s.players[s.currentSeat].hand, s.drawnCardID);
      if held.None? {
        return false;
      }
      assert s.players[s.currentSeat].hand[held.value].id == s.drawnCardID;
    }
    if s.pendingColor.Some? {
      var p, top := s.pendingColor.value, s.discardPile[|s.discardPile| - 1];
      var chooser := SeatOf(s.players, p.playerID);
      if chooser.None? || chooser.value != s.currentSeat || !top.IsWild() || top != p.card {
        return false;
      }
      if p.opening && top.kind != Wild {
        return false;
      }
    }
    ok := ValidateChallenges(s.players, s.challenges);
  }

  /** Adds the settlement up again from the hands and compares every row. */
  method ValidateResult(s: Snapshot) returns (ok: bool)
    requires s.result.Some? && SeatsBelow(s.candidates, |s.players|)
    ensures ok <==> ValidResult(s)
  {
    if |s.candidates| == 0 {
      return false;
    }
    var r, winner := s.result.value, s.candidates[0];
    if r.winnerID != s.players[winner].id || |r.players| != |s.players| {
      return false;
    }
    ghost var expected := ResultFor(s.players, winner);
    var winnerScore := 0;
    for seat := 0 to |s.players|
      invariant winnerScore == OthersPoints(s.players, winner, seat)
      invariant forall t :: 0 <= t < seat ==> r.players[t].(score := 0) == expected.players[t].(score := 0)
    {
      var handPoints := HandPoints(s.players[seat].hand);
      if seat != winner {
        winnerScore := winnerScore + handPoints;
      }
      var row := r.players[seat];
      assert expected.players[seat].(score := 0)
          == PlayerResult(s.players[seat].id, seat == winner, 0, handPoints, |s.players[seat].hand|);
      if row.playerID != s.players[seat].id || row.isWinner != (seat == winner)
         || row.handPoints != handPoints || row.cardsLeft != |s.players[seat].hand|
      {
        return false;
      }
    }
    if r.score != winnerScore {
      return false;
    }
    for seat := 0 to |r.players|
      invariant forall t :: 0 <= t < seat ==> r.players[t] == expected.players[t]
    {
      var wantScore := if seat == winner then winnerScore else 0;
      assert r.players[seat].(score := 0) == expected.players[seat].(score := 0);
      if r.players[seat].score != wantScore {
        return false;
      }
    }
    assert r.players == expected.players;
    ok := true;
  }

  /** The whole check, cheapest parts first. */
  method Validate(s: Snapshot) returns (ok: bool)
    ensures ok <==> ValidSnapshot(s)
  {
    hide ValidCards, ValidPending;
    ok := ValidateShape(s);
    if !ok || !ValidLifecycle(s) {
      return false;
    }
    ok := ValidateCards(s);
    if !ok {
      return false;
    }
    ok := ValidatePending(s);
    if !ok {
      return false;
    }
    if s.result.Some? {
      ok := ValidateResult(s);
    }
  }

  /** Fills in the defaults; the program's own shuffle and clock are inputs of each command here. */
  method NormalizeConfig(config: Config, players: nat) returns (r: Result<Config, Error>)
    ensures r == NormalizedConfig(config, players)
    ensures r.Ok? ==> r.value.window > 0 && 0 <= r.value.dealerSeat < players
  {
    var normalized := config;
    if config.dealerSeat < 0 || config.dealerSeat >= players {
      return Err(InvalidPlayers);
    }
    if config.window <= 0 {
      normalized := normalized.(window := CHALLENGE_WINDOW);
    }
    r := Ok(normalized);
  }

  /** A new engine from a saved game, or nothing when the saved game or the configuration is refused. */
  method RestoreEngine(s: Snapshot, config: Config) returns (r: Result<Engine, Error>)
    ensures match Restore(s)
            case Err(e) => r == Err(e)
            case Ok(g) =>
              if NormalizedConfig(config, |s.players|).Err? then r == Err(InvalidSnapshot)
              else r.Ok? && fresh(r.value) && r.value.State() == g
                   && r.value.challengeWindow == NormalizedConfig(config, |s.players|).value.window
  {
    var ok := Validate(s);
    if !ok {
      return Err(InvalidSnapshot);
    }
    var normalized := NormalizeConfig(config, |s.players|);
    if normalized.Err? {
      return Err(InvalidSnapshot);
    }
    var challenges: map<int, Challenge> := map[];
    for i := 0 to |s.challenges|
      invariant challenges == ChallengeMap(s.challenges[..i])
    {
      assert s.challenges[..i + 1][..i] == s.challenges[..i];
      challenges := challenges[s.challenges[i].playerID := s.challenges[i]];
    }
    assert s.challenges[..|s.challenges|] == s.challenges;
    var pending := None;
    if s.pendingColor.Some? {
      var p := s.pendingColor.value;
      pending := Some(PendingColor(SeatOf(s.players, p.playerID).value, p.card, p.opening));
    }
    hide ValidSnapshot;
    var engine := new Engine(Game(s.players, s.drawPile, s.discardPile, s.dealerSeat, s.currentSeat, s.direction, s.color,
                                  s.pendingDraw, s.phase, s.drawnCardID, pending, challenges, s.candidates, s.result),
                             normalized.value.window);
    r := Ok(engine);
  }

  /** A new engine: shuffle, deal, turn over the opening card and apply it. */
  method NewEngine(ids: seq<int>, config: Config, shuffles: nat -> Shuffle) returns (r: Result<Engine, Error>)
    ensures match NewGame(ids, config.dealerSeat, shuffles)
            case Err(e) => r == Err(e)
            case Ok(g) =>
              r.Ok? && fresh(r.value) && r.value.State() == g && NormalizedConfig(config, |ids|).Ok?
              && r.value.challengeWindow == NormalizedConfig(config, |ids|).value.window
  {
    hide DealRounds, DrawOpening, ApplyOpening, StandardDeck, ValidPlayerIDs;
    var idsOk := ValidatePlayerIDs(ids);
    if !idsOk {
      return Err(InvalidPlayers);
    }
    var normalized := NormalizeConfig(config, |ids|);
    if normalized.Err? {
      return Err(InvalidPlayers);
    }
    var dealerSeat := normalized.value.dealerSeat;
    var deck := NewStandardDeck();
    var shuffled := shuffles(0)(deck);
    if !shuffled.ok {
      return Err(ShuffleError);
    }
    var seats := Seated(ids);
    var engine := new Engine(Game(seats, shuffled.cards, [], dealerSeat, -1, 1, NoColor, 0, Playing, 0, None, map[], [], None),
                             normalized.value.window);
    var dealt := engine.DealInitialHands();
    if !dealt {
      return Err(InvalidSnapshot);
    }
    SeatsKept(Dealing(seats, shuffled.cards), HAND_SIZE);
    var opening := engine.DrawOpeningCard(shuffles);
    if opening.Err? {
      return Err(opening.error);
    }
    engine.discardPile := engine.discardPile + [opening.value];
    assert engine.discardPile == [opening.value];
    assert engine.State() == Table(Dealing(engine.players, []), Opening(opening.value, engine.drawPile), dealerSeat);
    var applied := engine.ApplyOpeningCard(opening.value, shuffles(DECK_SIZE + 1));
    if applied.Err? {
      return Err(applied.error);
    }
    r := Ok(engine);
  }

  lemma {:induction false} RoundKeepsSeats(d: Dealing, seat: nat)
    requires seat <= |d.players|
    ensures DealRound(d, seat).Some? ==> |DealRound(d, seat).value.players| == |d.players|
    decreases |d.players| - seat
  {
    if seat < |d.players| && d.pile != [] {
      var hand := d.players[seat].hand + [d.pile[|d.pile| - 1]];
      RoundKeepsSeats(Dealing(d.players[seat := d.players[seat].(hand := hand)], d.pile[..|d.pile| - 1]), seat + 1);
    }
  }

  lemma {:induction false} SeatsKept(d: Dealing, rounds: nat)
    ensures DealRounds(d, rounds).Some? ==> |DealRounds(d, rounds).value.players| == |d.players|
    decreases rounds
  {
    if rounds > 0 {
      RoundKeepsSeats(d, 0);
      if DealRound(d, 0).Some? {
        SeatsKept(DealRound(d, 0).value, rounds - 1);
      }
    }
  }
}
