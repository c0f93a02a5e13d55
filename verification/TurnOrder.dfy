/** The circle of turns. */
module TurnOrder {
  import opened Cards
  import opened Rules
  import Engines

  ghost predicate AtTable(g: Game, seat: int) {
    2 <= |g.players| <= 6 && (g.direction == 1 || g.direction == -1) && 0 <= seat < |g.players|
  }

  /** A step one way and a step the other way lead back to the same seat. */
  lemma TurningBack(g: Game, seat: int)
    requires AtTable(g, seat)
    ensures var turned := g.(direction := -g.direction);
            NextSeat(turned, NextSeat(g, seat, 1), 1) == seat
  {
    if |g.players| == 2 {} else if |g.players| == 3 {} else if |g.players| == 4 {} else if |g.players| == 5 {} else {}
  }

  /** Fewer steps than players wrap round the table at most once. */
  lemma FewSteps(g: Game, seat: int, k: nat)
    requires AtTable(g, seat) && k < |g.players|
    ensures var ahead := seat + k * g.direction;
            NextSeat(g, seat, k) == if ahead < 0 then ahead + |g.players| else if ahead >= |g.players| then ahead - |g.players| else ahead
  {
    var n, ahead := |g.players|, seat + k * g.direction;
    assert -n < ahead < 2 * n;
    Wrapped(ahead, n);
  }

  lemma Wrapped(a: int, n: int)
    requires 0 < n && -n < a < 2 * n
    ensures a % n == if a < 0 then a + n else if a >= n then a - n else a
  {
    if a < 0 {
      Engines.ModuloUnique(a, n, -1, a + n);
    } else if a >= n {
      Engines.ModuloUnique(a, n, 1, a - n);
    }
  }

  /** Before anybody's turn comes again everybody else has had his: each seat is reached in exactly one number of steps
      below the number of players. */
  lemma EverybodyOncePerRound(g: Game, seat: int, target: int) returns (steps: nat)
    requires AtTable(g, seat) && 0 <= target < |g.players|
    ensures steps < |g.players| && NextSeat(g, seat, steps) == target
    ensures forall k: nat :: k < |g.players| && NextSeat(g, seat, k) == target ==> k == steps
    ensures steps == 0 <==> target == seat
  {
    hide NextSeat;
    var n := |g.players|;
    steps := if g.direction == 1 then (if target >= seat then target - seat else target - seat + n)
    else (if seat >= target then seat - target else seat - target + n);
    FewSteps(g, seat, steps);
    forall k: nat | k < n && NextSeat(g, seat, k) == target
      ensures k == steps
    {
      FewSteps(g, seat, k);
    }
  }

  lemma TwoSteps(g: Game, seat: int)
    requires AtTable(g, seat)
    ensures NextSeat(g, seat, 2) == NextSeat(g, NextSeat(g, seat, 1), 1)
    ensures |g.players| == 2 ==> NextSeat(g, seat, 2) == seat
  {
    if |g.players| == 2 {} else if |g.players| == 3 {} else if |g.players| == 4 {} else if |g.players| == 5 {} else {}
  }

  /** Stepping looks only at the number of players and the direction. */
  lemma SameCircle(g: Game, h: Game, seat: int, steps: int)
    requires |g.players| == |h.players| > 0 && g.direction == h.direction
    ensures NextSeat(g, seat, steps) == NextSeat(h, seat, steps)
  {
  }

  /** Who is on turn after a card took effect, as the house rules put it: a skip passes over exactly the next player, a
      reverse hands the turn back to the one who played before (with two players it comes straight back), anything else
      passes it on. */
  lemma WhoComesNext(g: Game, seat: int, card: Card)
    requires AtTable(g, seat)
    ensures var t := Turned(g, seat, card);
            && t.players == g.players
            && (card.kind == Skip ==> t.currentSeat == NextSeat(g, NextSeat(g, seat, 1), 1) && t.direction == g.direction)
            && (card.kind == Reverse && |g.players| == 2 ==> t.currentSeat == seat && t.direction == g.direction)
            && (card.kind == Reverse && |g.players| > 2 ==> NextSeat(g, t.currentSeat, 1) == seat && t.direction == -g.direction)
            && (card.kind != Skip && card.kind != Reverse ==> t.currentSeat == NextSeat(g, seat, 1) && t.direction == g.direction)
            && (|g.players| == 2 && (card.kind == Skip || card.kind == Reverse) ==> t.currentSeat == seat)
  {
    hide NextSeat;
    var p := g.(phase := Playing);
    var reversed := p.(direction := -p.direction);
    TwoSteps(p, seat);
    TurningBack(reversed, seat);
    SameCircle(p, g, seat, 1);
    SameCircle(p, g, NextSeat(p, seat, 1), 1);
    SameCircle(reversed.(direction := -reversed.direction), g, NextSeat(reversed, seat, 1), 1);
  }
}
