/** A finished round on its way into the match table. */
module Settlement {
  import opened Wrappers
  import opened Cards
  import opened Rules
  import opened Invariant
  import opened Preservation
  import opened IdGen

  datatype MatchStatus = MatchPlaying | MatchFinished | MatchAborted

  datatype Match = Match(
    id: int, roomID: string, status: MatchStatus, playerCount: int, winnerPlayerID: Option<int>,
    startedAt: int, endedAt: Option<int>, createdAt: int)

  datatype MatchResult = MatchResult(
    id: int, matchID: int, playerID: int, seatIndex: int, isWinner: bool, score: int, handPoints: int, cardsLeft: int,
    createdAt: int)

  /** Narrowing to eight signed bits keeps the low byte. */
  function Int8(x: int): int {
    (x + 128) % 256 - 128
  }

  /** The match as it is written before its first turn. */
  function StartedMatch(matchID: int, roomID: string, players: nat, startedAt: int): Match {
    Match(matchID, roomID, MatchPlaying, Int8(players), None, startedAt, None, startedAt)
  }

  /** What the store asks of a match that begins. */
  predicate ValidStart(m: Match) {
    m.id > 0 && m.status == MatchPlaying
  }

  function Row(matchID: int, result: RoundResult, seat: nat, id: int, endedAt: int): MatchResult
    requires seat < |result.players|
  {
    var p := result.players[seat];
    MatchResult(id, matchID, p.playerID, Int8(seat), p.isWinner, p.score, p.handPoints, Int8(p.cardsLeft), endedAt)
  }

  function Rows(matchID: int, result: RoundResult, ids: seq<int>, endedAt: int): seq<MatchResult>
    requires |ids| == |result.players|
  {
    seq(|ids|, s requires 0 <= s < |ids| => Row(matchID, result, s, ids[s], endedAt))
  }

  function FinishedMatch(matchID: int, roomID: string, startedAt: int, result: RoundResult, endedAt: int): Match {
    Match(matchID, roomID, MatchFinished, Int8(|result.players|), Some(result.winnerID), startedAt, Some(endedAt), startedAt)
  }

  /** The first `n` answers of the generator are ids. */
  predicate AllIssued(issues: nat -> Result<int, IdError>, n: nat) {
    forall i: nat :: i < n ==> issues(i).Ok?
  }

  function IssuedIDs(issues: nat -> Result<int, IdError>, n: nat): (ids: seq<int>)
    requires AllIssued(issues, n)
    ensures |ids| == n && forall i :: 0 <= i < n ==> issues(i) == Ok(ids[i])
  {
    if n == 0 then [] else IssuedIDs(issues, n - 1) + [issues(n - 1).value]
  }

  /** One row per seat; the first id that cannot be issued ends it. */
  method BuildRows(matchID: int, result: RoundResult, issues: nat -> Result<int, IdError>, endedAt: int)
    returns (rows: Result<seq<MatchResult>, IdError>)
    ensures rows.Ok? <==> AllIssued(issues, |result.players|)
    ensures rows.Ok? ==> rows.value == Rows(matchID, result, IssuedIDs(issues, |result.players|), endedAt)
  {
    var built: seq<MatchResult> := [];
    for seat := 0 to |result.players|
      invariant |built| == seat
      invariant forall i: nat :: i < seat ==> issues(i).Ok? && built[i] == Row(matchID, result, i, issues(i).value, endedAt)
    {
      if issues(seat).Err? {
        return Err(issues(seat).error);
      }
      built := built + [Row(matchID, result, seat, issues(seat).value, endedAt)];
    }
    rows := Ok(built);
  }

  // ----- What the store checks -----

  predicate ValidRow(m: Match, row: MatchResult, seat: nat) {
    && row.id > 0 && row.matchID == m.id && row.playerID > 0 && row.seatIndex == seat
    && row.score >= 0 && row.handPoints >= 0 && row.cardsLeft >= 0
    && (row.isWinner ==> m.winnerPlayerID == Some(row.playerID))
    && (!row.isWinner ==> row.score == 0)
  }

  /** A finished match: one row per seat, ids and players distinct, and exactly one winner, who alone may score. */
  ghost predicate ValidSettlement(m: Match, rows: seq<MatchResult>) {
    && m.id > 0 && m.status == MatchFinished && m.winnerPlayerID.Some? && m.endedAt.Some?
    && |rows| >= 2 && m.playerCount == |rows|
    && (forall s :: 0 <= s < |rows| ==> ValidRow(m, rows[s], s))
    && DistinctRows(rows)
    && (exists s :: 0 <= s < |rows| && rows[s].isWinner)
  }

  function SeenIDs(rows: seq<MatchResult>): set<int> {
    if rows == [] then {} else SeenIDs(rows[..|rows| - 1]) + {rows[|rows| - 1].id}
  }

  function SeenPlayers(rows: seq<MatchResult>): set<int> {
    if rows == [] then {} else SeenPlayers(rows[..|rows| - 1]) + {rows[|rows| - 1].playerID}
  }

  function WinnerCount(rows: seq<MatchResult>): nat {
    if rows == [] then 0 else WinnerCount(rows[..|rows| - 1]) + if rows[|rows| - 1].isWinner then 1 else 0
  }

  lemma {:induction false} SeenFacts(rows: seq<MatchResult>, id: int)
    ensures id in SeenIDs(rows) <==> exists s :: 0 <= s < |rows| && rows[s].id == id
    ensures id in SeenPlayers(rows) <==> exists s :: 0 <= s < |rows| && rows[s].playerID == id
  {
    if rows != [] {
      var front, last := rows[..|rows| - 1], rows[|rows| - 1];
      SeenFacts(front, id);
      assert forall s :: 0 <= s < |front| ==> front[s] == rows[s];
      assert last == rows[|rows| - 1];
    }
  }

  ghost predicate DistinctRows(rows: seq<MatchResult>) {
    forall s, t :: 0 <= s < t < |rows| ==> rows[s].id != rows[t].id && rows[s].playerID != rows[t].playerID
  }

  /** A row is no repetition exactly when neither its id nor its player has been seen. */
  lemma FreshRow(rows: seq<MatchResult>, row: MatchResult)
    requires DistinctRows(rows)
    ensures DistinctRows(rows + [row]) <==> row.id !in SeenIDs(rows) && row.playerID !in SeenPlayers(rows)
  {
    SeenFacts(rows, row.id);
    SeenFacts(rows, row.playerID);
    var more := rows + [row];
    if row.id in SeenIDs(rows) {
      var s :| 0 <= s < |rows| && rows[s].id == row.id;
      assert more[s].id == more[|rows|].id;
    } else if row.playerID in SeenPlayers(rows) {
      var s :| 0 <= s < |rows| && rows[s].playerID == row.playerID;
      assert more[s].playerID == more[|rows|].playerID;
    } else {
      forall s, t | 0 <= s < t < |more|
        ensures more[s].id != more[t].id && more[s].playerID != more[t].playerID
      {
        assert more[s] == rows[s];
        assert t < |rows| ==> more[t] == rows[t];
      }
    }
  }

  /** Distinct rows that all name the same winner hold at most one. */
  lemma {:induction false} WinnersAtMostOne(m: Match, rows: seq<MatchResult>)
    requires DistinctRows(rows) && forall s :: 0 <= s < |rows| ==> ValidRow(m, rows[s], s)
    ensures WinnerCount(rows) <= 1
    ensures WinnerCount(rows) == 1 <==> exists s :: 0 <= s < |rows| && rows[s].isWinner
  {
    if rows != [] {
      var front, last := rows[..|rows| - 1], rows[|rows| - 1];
      assert forall s :: 0 <= s < |front| ==> front[s] == rows[s];
      WinnersAtMostOne(m, front);
      if WinnerCount(front) == 1 {
        var s :| 0 <= s < |front| && front[s].isWinner;
        assert rows[s].isWinner && rows[s].playerID != last.playerID;
      }
    }
  }

  lemma PrefixOf(rows: seq<MatchResult>, n: nat)
    requires n < |rows|
    ensures rows[..n + 1] == rows[..n] + [rows[n]] && rows[..n + 1][..n] == rows[..n]
    ensures DistinctRows(rows) ==> DistinctRows(rows[..n + 1])
  {
  }

  method ValidateSettlement(m: Match, rows: seq<MatchResult>) returns (ok: bool)
    ensures ok <==> ValidSettlement(m, rows)
  {
    if m.id <= 0 || m.status != MatchFinished || m.winnerPlayerID.None? || m.endedAt.None? {
      return false;
    }
    if |rows| < 2 || m.playerCount != |rows| {
      return false;
    }
    hide SeenIDs, SeenPlayers, WinnerCount, DistinctRows;
    var seenPlayers: set<int>, seenIDs: set<int>, winners := {}, {}, 0;
    NothingSeen(rows);
    for seat := 0 to |rows|
      invariant seenIDs == SeenIDs(rows[..seat]) && seenPlayers == SeenPlayers(rows[..seat])
      invariant winners == WinnerCount(rows[..seat])
      invariant DistinctRows(rows[..seat]) && forall s :: 0 <= s < seat ==> ValidRow(m, rows[s], s)
    {
      var row := rows[seat];
      PrefixOf(rows, seat);
      FreshRow(rows[..seat], row);
      OneMoreSeen(rows[..seat], row);
      if row.id <= 0 || row.matchID != m.id || row.playerID <= 0 || row.seatIndex != seat
         || row.score < 0 || row.handPoints < 0 || row.cardsLeft < 0 {
        assert !ValidRow(m, row, seat);
        return false;
      }
      if row.id in seenIDs {
        return false;
      }
      seenIDs := seenIDs + {row.id};
      if row.playerID in seenPlayers {
        return false;
      }
      seenPlayers := seenPlayers + {row.playerID};
      if row.isWinner {
        winners := winners + 1;
        if row.playerID != m.winnerPlayerID.value {
          assert !ValidRow(m, row, seat);
          return false;
        }
      } else if row.score != 0 {
        assert !ValidRow(m, row, seat);
        return false;
      }
    }
    assert rows[..|rows|] == rows;
    WinnersAtMostOne(m, rows);
    ok := winners == 1;
  }

  lemma NothingSeen(rows: seq<MatchResult>)
    ensures SeenIDs(rows[..0]) == {} && SeenPlayers(rows[..0]) == {} && WinnerCount(rows[..0]) == 0 && DistinctRows(rows[..0])
  {
  }

  lemma OneMoreSeen(rows: seq<MatchResult>, row: MatchResult)
    ensures SeenIDs(rows + [row]) == SeenIDs(rows) + {row.id}
    ensures SeenPlayers(rows + [row]) == SeenPlayers(rows) + {row.playerID}
    ensures WinnerCount(rows + [row]) == WinnerCount(rows) + if row.isWinner then 1 else 0
  {
    assert (rows + [row])[..|rows|] == rows;
  }

  // ----- What the engine hands over -----

  lemma {:induction false} SumNonNegative(cards: seq<Card>)
    requires forall i :: 0 <= i < |cards| ==> cards[i].Points() >= 0
    ensures SumBy(POINTS, cards) >= 0
  {
    if cards != [] {
      SumNonNegative(cards[1..]);
    }
  }

  lemma HandFacts(g: Game, seat: nat)
    requires Conserved(g) && seat < |g.players|
    ensures HandPoints(g.players[seat].hand) >= 0 && |g.players[seat].hand| <= DECK_SIZE
  {
    var hand := g.players[seat].hand;
    forall i | 0 <= i < |hand| ensures hand[i].Points() >= 0 {
      CardIsCanonical(g, seat, i);
    }
    SumNonNegative(hand);
    HandBound(g.players, seat);
    assert |Bag(g.players, g.drawPile, g.discardPile)| == |StandardDeck()|;
  }

  lemma {:induction false} HandBound(players: seq<Player>, seat: nat)
    requires seat < |players|
    ensures |players[seat].hand| <= |HandBag(players)|
  {
    if seat > 0 {
      HandBound(players[1..], seat - 1);
    }
  }

  lemma {:induction false} OthersNonNegative(g: Game, winner: int, n: nat)
    requires Conserved(g) && n <= |g.players|
    ensures OthersPoints(g.players, winner, n) >= 0
  {
    if n > 0 {
      OthersNonNegative(g, winner, n - 1);
      HandFacts(g, n - 1);
    }
  }

  /** The result the engine keeps for a finished round. */
  lemma RoundFacts(g: Game, exact: bool)
    requires Inv(g, exact) && g.phase == Finished
    ensures |g.candidates| > 0 && 0 <= g.candidates[0] < |g.players|
    ensures g.result == Some(ResultFor(g.players, g.candidates[0]))
    ensures g.players[g.candidates[0]].hand == []
    ensures 2 <= |g.players| <= 6 && DistinctPlayers(g.players) && Conserved(g)
    ensures forall s :: 0 <= s < |g.players| ==> g.players[s].id > 0
  {
  }

  lemma RowIsValid(g: Game, m: Match, seat: nat, id: int, endedAt: int, exact: bool)
    requires Inv(g, exact) && g.phase == Finished && id > 0 && seat < |g.players|
    requires g.result.Some? && m.winnerPlayerID == Some(g.result.value.winnerID)
    ensures |g.result.value.players| == |g.players|
    ensures var row := Row(m.id, g.result.value, seat, id, endedAt);
            && ValidRow(m, row, seat)
            && row.id == id && row.playerID == g.players[seat].id
            && row.isWinner == (seat == g.candidates[0])
            && row.seatIndex == seat && row.cardsLeft == |g.players[seat].hand|
  {
    RoundFacts(g, exact);
    HandFacts(g, seat);
    OthersNonNegative(g, g.candidates[0], |g.players|);
    hide Inv, Conserved, HandPoints, OthersPoints;
  }

  ghost predicate Distinct(ids: seq<int>) {
    forall i, j :: 0 <= i < j < |ids| ==> ids[i] != ids[j]
  }

  ghost predicate Usable(ids: seq<int>) {
    Distinct(ids) && forall i :: 0 <= i < |ids| ==> ids[i] > 0
  }

  /** The settlement of a finished round is accepted exactly when its ids are positive and distinct; nothing else about
      it can be refused, and narrowing to eight bits loses nothing in it. */
  lemma SettlementAccepted(g: Game, matchID: int, roomID: string, startedAt: int, endedAt: int, ids: seq<int>, exact: bool)
    requires Inv(g, exact) && g.phase == Finished && matchID > 0 && |ids| == |g.players|
    ensures g.result.Some? && |g.result.value.players| == |ids|
    ensures var result := g.result.value;
            var m, rows := FinishedMatch(matchID, roomID, startedAt, result, endedAt), Rows(matchID, result, ids, endedAt);
            && (ValidSettlement(m, rows) <==> Usable(ids))
            && m.playerCount == |g.players|
            && (forall s :: 0 <= s < |rows| ==> rows[s].seatIndex == s && rows[s].cardsLeft == |g.players[s].hand|)
  {
    RoundFacts(g, exact);
    var result := g.result.value;
    var m, rows := FinishedMatch(matchID, roomID, startedAt, result, endedAt), Rows(matchID, result, ids, endedAt);
    forall s | 0 <= s < |rows|
      ensures rows[s].id == ids[s] && rows[s].seatIndex == s && rows[s].cardsLeft == |g.players[s].hand|
      ensures ids[s] > 0 ==> ValidRow(m, rows[s], s) && rows[s].playerID == g.players[s].id
                             && rows[s].isWinner == (s == g.candidates[0])
    {
      Narrowed(g, m, s, ids[s], endedAt, exact);
      if ids[s] > 0 { RowIsValid(g, m, s, ids[s], endedAt, exact); }
    }
    hide Inv, Row, ResultFor, Conserved;
    if Usable(ids) {
      assert rows[g.candidates[0]].isWinner;
    }
  }

  lemma Narrowed(g: Game, m: Match, seat: nat, id: int, endedAt: int, exact: bool)
    requires Inv(g, exact) && g.phase == Finished && seat < |g.players| && g.result.Some?
    ensures |g.result.value.players| == |g.players|
    ensures var row := Row(m.id, g.result.value, seat, id, endedAt);
            row.id == id && row.seatIndex == seat && row.cardsLeft == |g.players[seat].hand|
  {
    RoundFacts(g, exact);
    HandFacts(g, seat);
    hide Inv, Conserved, HandPoints, OthersPoints;
  }

  /** With ids of one generator: while no request comes back to a millisecond whose wait failed nothing more has to be
      assumed about them. */
  lemma GeneratedSettlementAccepted(g: Game, matchID: int, roomID: string, startedAt: int, endedAt: int, gen: Gen,
                                    fallen: bool, done: seq<int>, requests: seq<Request>, exact: bool)
    requires Inv(g, exact) && g.phase == Finished && matchID > 0
    requires IdGen.Valid(gen) && AllReturn(gen, requests) && History(gen, fallen, done) && Steady(gen, fallen, requests)
    requires |IDs(gen, requests)| == |g.players|
    ensures g.result.Some? && |g.result.value.players| == |g.players|
    ensures ValidSettlement(FinishedMatch(matchID, roomID, startedAt, g.result.value, endedAt),
                            Rows(matchID, g.result.value, IDs(gen, requests), endedAt))
  {
    var ids := IDs(gen, requests);
    IDsIncreaseIff(gen, fallen, done, requests);
    hide Inv, IDs, AllReturn, Steady, History;
    assert forall k :: 0 <= k < |ids| ==> (done + ids)[|done| + k] == ids[k];
    assert Usable(ids);
    SettlementAccepted(g, matchID, roomID, startedAt, endedAt, ids, exact);
  }

  // ----- No point is lost -----

  lemma {:induction false} PointsInHands(players: seq<Player>, winner: nat)
    requires winner < |players| && players[winner].hand == []
    ensures OthersPoints(players, winner, |players|) == SumBy(POINTS, AllHands(players))
  {
    OthersPrefix(players, winner, |players|);
    assert players[..|players|] == players;
  }

  lemma {:induction false} OthersPrefix(players: seq<Player>, winner: nat, n: nat)
    requires winner < |players| && players[winner].hand == [] && n <= |players|
    ensures OthersPoints(players, winner, n) == SumBy(POINTS, AllHands(players[..n]))
  {
    if n > 0 {
      OthersPrefix(players, winner, n - 1);
      assert players[..n] == players[..n - 1] + [players[n - 1]];
      AllHandsAppend(players[..n - 1], players[n - 1]);
      SumByAppend(POINTS, AllHands(players[..n - 1]), players[n - 1].hand);
    }
  }

  lemma {:induction false} AllHandsAppend(players: seq<Player>, p: Player)
    ensures AllHands(players + [p]) == AllHands(players) + p.hand
  {
    if players == [] {
      assert [p][1..] == [];
      assert AllHands([p]) == p.hand + AllHands([]);
    } else {
      assert (players + [p])[1..] == players[1..] + [p];
      AllHandsAppend(players[1..], p);
    }
  }

  /** The winner's score and the points left in the two piles are the whole deck. */
  lemma ScoreIsTheRest(g: Game, exact: bool)
    requires Inv(g, exact) && g.phase == Finished
    ensures g.result.Some?
    ensures g.result.value.score + SumBy(POINTS, g.drawPile) + SumBy(POINTS, g.discardPile) == 1240
  {
    RoundFacts(g, exact);
    ConservedIff(g);
    PointsInHands(g.players, g.candidates[0]);
    hide Inv, OthersPoints, SumBy, AllHands, StandardDeck;
    var hands := AllHands(g.players);
    SumByPermutation(POINTS, AllCards(g), StandardDeck());
    DeckTotals();
    SumByAppend(POINTS, g.drawPile, g.discardPile);
    SumByAppend(POINTS, g.drawPile + g.discardPile, hands);
  }

  // ----- What the rows say -----

  function TotalHandPoints(rows: seq<MatchResult>): int {
    if rows == [] then 0 else TotalHandPoints(rows[..|rows| - 1]) + rows[|rows| - 1].handPoints
  }

  /** What the row of a seat says of its hand. */
  ghost predicate RowTells(row: MatchResult, p: Player, seat: nat, matchID: int, endedAt: int) {
    && row.matchID == matchID && row.playerID == p.id && row.seatIndex == seat && row.createdAt == endedAt
    && row.handPoints == SumBy(POINTS, p.hand) && row.cardsLeft == |p.hand|
  }

  lemma RowsTell(g: Game, matchID: int, endedAt: int, ids: seq<int>, seat: nat, exact: bool)
    requires Inv(g, exact) && g.phase == Finished && |ids| == |g.players| && seat < |ids|
    ensures g.result.Some? && |g.result.value.players| == |ids|
    ensures var row := Rows(matchID, g.result.value, ids, endedAt)[seat];
            && RowTells(row, g.players[seat], seat, matchID, endedAt) && row.id == ids[seat]
            && (row.isWinner <==> seat == g.candidates[0])
            && row.score == if seat == g.candidates[0] then g.result.value.score else 0
  {
    RoundFacts(g, exact);
    HandFacts(g, seat);
    hide Inv, Conserved, OthersPoints;
  }

  lemma {:induction false} HandPointsAdd(players: seq<Player>, winner: nat, rows: seq<MatchResult>, n: nat)
    requires winner < |players| && players[winner].hand == [] && n <= |rows| == |players|
    requires forall s :: 0 <= s < |rows| ==> rows[s].handPoints == SumBy(POINTS, players[s].hand)
    ensures TotalHandPoints(rows[..n]) == OthersPoints(players, winner, n)
  {
    if n > 0 {
      HandPointsAdd(players, winner, rows, n - 1);
      assert rows[..n][..n - 1] == rows[..n - 1];
    }
  }

  /** The settlement says what is on the table: one row per seat with the points and the number of the cards left in its
      hand; the winner is out of cards, and scores the points of all rows, which with both piles are the whole deck. */
  lemma SettlementTells(g: Game, matchID: int, roomID: string, startedAt: int, endedAt: int, ids: seq<int>, exact: bool)
    requires Inv(g, exact) && g.phase == Finished && |ids| == |g.players|
    ensures g.result.Some? && |g.result.value.players| == |ids| && |g.candidates| > 0 && 0 <= g.candidates[0] < |g.players|
    ensures var m, w := FinishedMatch(matchID, roomID, startedAt, g.result.value, endedAt), g.candidates[0];
            var rows := Rows(matchID, g.result.value, ids, endedAt);
            && |rows| == |g.players| && (forall s :: 0 <= s < |rows| ==> RowTells(rows[s], g.players[s], s, matchID, endedAt))
            && (forall s :: 0 <= s < |rows| ==> rows[s].id == ids[s] && (rows[s].isWinner <==> s == w))
            && (forall s :: 0 <= s < |rows| && s != w ==> rows[s].score == 0)
            && g.players[w].hand == [] && rows[w].score == TotalHandPoints(rows)
            && rows[w].score + SumBy(POINTS, g.drawPile) + SumBy(POINTS, g.discardPile) == 1240
            && m.winnerPlayerID == Some(g.players[w].id) && m.playerCount == |g.players|
            && m.id == matchID && m.roomID == roomID && m.startedAt == startedAt && m.endedAt == Some(endedAt)
  {
    RoundFacts(g, exact);
    assert 2 <= |g.players| <= 6;
    ScoreIsTheRest(g, exact);
    var rows := Rows(matchID, g.result.value, ids, endedAt);
    hide Inv, Conserved, Rows, SumBy, OthersPoints, RowTells, TotalHandPoints;
    AllRowsTell(g, matchID, endedAt, ids, exact);
    RowsAdd(g, matchID, endedAt, rows);
  }

  lemma AllRowsTell(g: Game, matchID: int, endedAt: int, ids: seq<int>, exact: bool)
    requires Inv(g, exact) && g.phase == Finished && |ids| == |g.players|
    ensures g.result.Some? && |g.result.value.players| == |ids| && |g.candidates| > 0
    ensures var rows := Rows(matchID, g.result.value, ids, endedAt);
            && |rows| == |ids|
            && forall s :: 0 <= s < |rows| ==>
                 && RowTells(rows[s], g.players[s], s, matchID, endedAt) && rows[s].id == ids[s]
                 && (rows[s].isWinner <==> s == g.candidates[0])
                 && rows[s].score == if s == g.candidates[0] then g.result.value.score else 0
  {
    RoundFacts(g, exact);
    hide Inv, Conserved, RowTells;
    forall s | 0 <= s < |ids|
      ensures var row := Rows(matchID, g.result.value, ids, endedAt)[s];
              && RowTells(row, g.players[s], s, matchID, endedAt) && row.id == ids[s]
              && (row.isWinner <==> s == g.candidates[0])
              && row.score == if s == g.candidates[0] then g.result.value.score else 0
    {
      RowsTell(g, matchID, endedAt, ids, s, exact);
    }
  }

  lemma RowsAdd(g: Game, matchID: int, endedAt: int, rows: seq<MatchResult>)
    requires |rows| == |g.players| && |g.candidates| > 0 && 0 <= g.candidates[0] < |g.players| && g.players[g.candidates[0]].hand == []
    requires forall s :: 0 <= s < |rows| ==> RowTells(rows[s], g.players[s], s, matchID, endedAt)
    ensures TotalHandPoints(rows) == OthersPoints(g.players, g.candidates[0], |g.players|)
  {
    hide OthersPoints, TotalHandPoints, SumBy;
    HandPointsAdd(g.players, g.candidates[0], rows, |rows|);
    assert rows[..|rows|] == rows;
  }

  /** Whatever rows the store lets pass: seats in order, nobody and no id twice, and exactly one winner, the one the match
      names, who alone may have scored. */
  lemma CheckedRows(m: Match, rows: seq<MatchResult>) returns (winner: nat)
    requires ValidSettlement(m, rows)
    ensures winner < |rows| && rows[winner].isWinner && m.winnerPlayerID == Some(rows[winner].playerID)
    ensures forall s :: 0 <= s < |rows| && s != winner ==> !rows[s].isWinner && rows[s].score == 0
    ensures forall s :: 0 <= s < |rows| ==>
                          rows[s].matchID == m.id > 0 && rows[s].seatIndex == s && rows[s].playerID > 0 && rows[s].id > 0
                          && rows[s].score >= 0 && rows[s].handPoints >= 0 && rows[s].cardsLeft >= 0
    ensures forall s, t :: 0 <= s < t < |rows| ==> rows[s].id != rows[t].id && rows[s].playerID != rows[t].playerID
    ensures m.status == MatchFinished && m.playerCount == |rows| >= 2 && m.endedAt.Some?
  {
    winner :| winner < |rows| && rows[winner].isWinner;
  }

  /** A match is written before its first turn: playing, without winner or end, with its room, its players and this moment. */
  lemma StartTells(matchID: int, roomID: string, players: nat, now: int)
    requires players <= 127
    ensures var m := StartedMatch(matchID, roomID, players, now);
            && (ValidStart(m) <==> matchID > 0)
            && m.id == matchID && m.roomID == roomID && m.status == MatchPlaying && m.playerCount == players
            && m.winnerPlayerID == None && m.endedAt == None && m.startedAt == now && m.createdAt == now
  {
  }
}
