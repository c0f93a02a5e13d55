/** Dealing a new game: shuffle, seven rounds of cards, an opening card and its effect. */
module Setup {
  import opened Wrappers
  import opened Cards
  import opened Piles
  import opened Rules
  import opened Invariant
  import opened Preservation

  const HAND_SIZE: nat := 7

  ghost predicate ValidPlayerIDs(ids: seq<int>) {
    && 2 <= |ids| <= 6
    && (forall i :: 0 <= i < |ids| ==> ids[i] > 0)
    && (forall i, j :: 0 <= i < j < |ids| ==> ids[i] != ids[j])
  }

  /** The default challenge window of four seconds, in nanoseconds. */
  const CHALLENGE_WINDOW: int := 4_000_000_000

  datatype Config = Config(dealerSeat: int, window: int)

  /** A dealer who is not seated is refused; a window that is not positive becomes the default. */
  function NormalizedConfig(config: Config, players: nat): Result<Config, Error> {
    if config.dealerSeat < 0 || config.dealerSeat >= players then Err(InvalidPlayers)
    else Ok(config.(window := if config.window <= 0 then CHALLENGE_WINDOW else config.window))
  }

  datatype Dealing = Dealing(players: seq<Player>, pile: seq<Card>)

  /** One card to each seat from `seat` on; `None` when the pile runs out. */
  function DealRound(d: Dealing, seat: nat): Option<Dealing>
    requires seat <= |d.players|
    decreases |d.players| - seat
  {
    if seat == |d.players| then Some(d)
    else if d.pile == [] then None
    else
      var card := d.pile[|d.pile| - 1];
      var hand := d.players[seat].hand + [card];
      DealRound(Dealing(d.players[seat := d.players[seat].(hand := hand)], d.pile[..|d.pile| - 1]), seat + 1)
  }

  function DealRounds(d: Dealing, rounds: nat): Option<Dealing>
    decreases rounds
  {
    if rounds == 0 then Some(d)
    else match DealRound(d, 0)
         case None => None
         case Some(next) => DealRounds(next, rounds - 1)
  }

  datatype Opening = Opening(card: Card, pile: seq<Card>)

  /** Turns cards over until one is no wild draw four; a rejected card goes to the bottom and the pile is reshuffled. */
  function DrawOpening(pile: seq<Card>, attempts: nat, shuffles: nat -> Shuffle): Result<Opening, Error>
    requires attempts <= DECK_SIZE
    decreases DECK_SIZE - attempts
  {
    if attempts == DECK_SIZE || pile == [] then Err(InvalidSnapshot)
    else
      var card, rest := pile[|pile| - 1], pile[..|pile| - 1];
      if card.kind != WildDrawFour then Ok(Opening(card, rest))
      else
        var reshuffled := shuffles(attempts + 1)([card] + rest);
        if reshuffled.ok then DrawOpening(reshuffled.cards, attempts + 1, shuffles) else Err(ShuffleError)
  }

  /** The opening card takes effect on the seat after the dealer. */
  function ApplyOpening(g: Game, card: Card, shuffle: Shuffle): Result<Game, Error>
    requires |g.players| > 0
  {
    var first := NextSeat(g, g.dealerSeat, 1);
    var shown := g.(color := card.color);
    match card.kind
    case Number => Ok(shown.(currentSeat := first))
    case Skip => Ok(shown.(currentSeat := NextSeat(g, first, 1)))
    case Reverse =>
      if |g.players| == 2 then Ok(shown.(currentSeat := NextSeat(g, first, 1)))
      else
        var turned := shown.(direction := -1);
        Ok(turned.(currentSeat := NextSeat(turned, g.dealerSeat, 1)))
    case DrawTwo =>
      (match DrawCardsTo(shown, first, 2, shuffle)
       case None => Err(ShuffleError)
       case Some((dealt, drawn)) => Ok(dealt.(currentSeat := NextSeat(g, first, 1))))
    case Wild =>
      Ok(shown.(color := NoColor, currentSeat := first, phase := AwaitingColor,
      pendingColor := Some(PendingColor(first, card, true))))
    case _ => Err(IllegalCard)
  }

  function Seated(ids: seq<int>): seq<Player> {
    seq(|ids|, s requires 0 <= s < |ids| => Player(ids[s], []))
  }

  function Table(d: Dealing, opening: Opening, dealerSeat: int): Game {
    Game(d.players, opening.pile, [opening.card], dealerSeat, -1, 1, NoColor, 0, Playing, 0, None, map[], [], None)
  }

  /** Shuffle number 0 is the first one, number i + 1 follows rejected opening card i. */
  ghost function NewGame(ids: seq<int>, dealerSeat: int, shuffles: nat -> Shuffle): Result<Game, Error> {
    if !ValidPlayerIDs(ids) || !(0 <= dealerSeat < |ids|) then Err(InvalidPlayers)
    else
      var deck := shuffles(0)(StandardDeck());
      if !deck.ok then Err(ShuffleError)
      else match DealRounds(Dealing(Seated(ids), deck.cards), HAND_SIZE)
           case None => Err(InvalidSnapshot)
           case Some(d) =>
             match DrawOpening(d.pile, 0, shuffles)
             case Err(e) => Err(e)
             case Ok(opening) =>
               if |d.players| == 0 then Err(InvalidPlayers)
               else ApplyOpening(Table(d, opening, dealerSeat), opening.card, shuffles(DECK_SIZE + 1))
  }

  // ----- Dealing -----

  ghost function DealingBag(d: Dealing): multiset<Card> { multiset(d.pile) + HandBag(d.players) }

  ghost predicate SameSeats(a: seq<Player>, b: seq<Player>) {
    |a| == |b| && forall s :: 0 <= s < |a| ==> a[s].id == b[s].id
  }

  lemma {:induction false} DealRoundFacts(d: Dealing, seat: nat)
    requires seat <= |d.players| && |d.pile| >= |d.players| - seat
    ensures var r := DealRound(d, seat);
            && r.Some?
            && SameSeats(r.value.players, d.players)
            && |r.value.pile| == |d.pile| - (|d.players| - seat)
            && (forall s :: 0 <= s < |d.players| ==>
                              r.value.players[s].hand ==
                              if s < seat then d.players[s].hand
                              else d.players[s].hand + [d.pile[|d.pile| - 1 - (s - seat)]])
            && r.value.pile == d.pile[..|d.pile| - (|d.players| - seat)]
    decreases |d.players| - seat
  {
    if seat < |d.players| {
      var below := d.pile[..|d.pile| - 1];
      var hand := d.players[seat].hand + [d.pile[|d.pile| - 1]];
      DealRoundFacts(Dealing(d.players[seat := d.players[seat].(hand := hand)], below), seat + 1);
    } else {
      assert d.pile[..|d.pile|] == d.pile;
    }
  }

  lemma {:induction false} DealRoundBag(d: Dealing, seat: nat)
    requires seat <= |d.players| && DealRound(d, seat).Some?
    ensures DealingBag(DealRound(d, seat).value) == DealingBag(d)
    decreases |d.players| - seat
  {
    if seat < |d.players| {
      var card, below := d.pile[|d.pile| - 1], d.pile[..|d.pile| - 1];
      var hand := d.players[seat].hand;
      var after := d.players[seat := d.players[seat].(hand := hand + [card])];
      HandUpdate(d.players, seat, hand + [card]);
      BagCancel(HandBag(after), HandBag(d.players) + multiset{card}, multiset(hand));
      assert d.pile == below + [card];
      DealRoundBag(Dealing(after, below), seat + 1);
    }
  }

  /** The cards that `rounds` rounds take from the pile. */
  function Needed(n: nat, rounds: nat): nat {
    if rounds == 0 then 0 else n + Needed(n, rounds - 1)
  }

  lemma NeededForHands(n: nat)
    ensures Needed(n, HAND_SIZE) == HAND_SIZE * n
  {
    assert Needed(n, 1) == n;
    assert Needed(n, 3) == 3 * n;
    assert Needed(n, 5) == 5 * n;
  }

  /** Seven rounds: nothing is lost, everybody gets the cards that lay in turn order on the pile. */
  lemma {:induction false} DealRoundsFacts(d: Dealing, rounds: nat)
    requires |d.pile| >= Needed(|d.players|, rounds)
    ensures var r := DealRounds(d, rounds);
            && r.Some?
            && DealingBag(r.value) == DealingBag(d)
            && SameSeats(r.value.players, d.players)
            && |r.value.pile| == |d.pile| - Needed(|d.players|, rounds)
            && (forall s :: 0 <= s < |d.players| ==> |r.value.players[s].hand| == |d.players[s].hand| + rounds)
    decreases rounds
  {
    if rounds > 0 {
      DealRoundFacts(d, 0);
      DealRoundBag(d, 0);
      DealRoundsFacts(DealRound(d, 0).value, rounds - 1);
    }
  }

  /** Every n-th card of a pile from the top, starting s cards down. */
  function EveryNth(pile: seq<Card>, n: nat, s: nat, rounds: nat): seq<Card>
    requires s < n && |pile| >= Needed(n, rounds)
    decreases rounds
  {
    if rounds == 0 then []
    else [pile[|pile| - 1 - s]] + EveryNth(pile[..|pile| - n], n, s, rounds - 1)
  }

  /** Dealing round by round gives seat s of n every n-th card from the top. */
  lemma {:induction false} DealtInTurn(d: Dealing, rounds: nat, s: nat)
    requires |d.pile| >= Needed(|d.players|, rounds) && s < |d.players|
    ensures DealRounds(d, rounds).Some? && |DealRounds(d, rounds).value.players| == |d.players|
    ensures DealRounds(d, rounds).value.players[s].hand == d.players[s].hand + EveryNth(d.pile, |d.players|, s, rounds)
    decreases rounds
  {
    if rounds == 0 {
      assert EveryNth(d.pile, |d.players|, s, 0) == [];
    } else {
      FirstRound(d, rounds, s);
      var n, next := |d.players|, DealRound(d, 0).value;
      hide DealRound, DealRounds, EveryNth;
      DealtInTurn(next, rounds - 1, s);
      Associative(d.players[s].hand, [d.pile[|d.pile| - 1 - s]], EveryNth(next.pile, n, s, rounds - 1));
    }
  }

  lemma FirstRound(d: Dealing, rounds: nat, s: nat)
    requires rounds > 0 && |d.pile| >= Needed(|d.players|, rounds) && s < |d.players|
    ensures DealRound(d, 0).Some?
    ensures var n, next := |d.players|, DealRound(d, 0).value;
            && |next.players| == n && |next.pile| >= Needed(n, rounds - 1)
            && next.players[s].hand == d.players[s].hand + [d.pile[|d.pile| - 1 - s]]
            && DealRounds(d, rounds) == DealRounds(next, rounds - 1)
            && EveryNth(d.pile, n, s, rounds) == [d.pile[|d.pile| - 1 - s]] + EveryNth(next.pile, n, s, rounds - 1)
  {
    assert DealRound(d, 0).Some? && |DealRound(d, 0).value.players| == |d.players|
        && DealRound(d, 0).value.pile == d.pile[..|d.pile| - |d.players|]
        && DealRound(d, 0).value.players[s].hand == d.players[s].hand + [d.pile[|d.pile| - 1 - s]] by {
      DealRoundFacts(d, 0);
    }
    hide DealRound;
  }

  lemma Associative(a: seq<Card>, b: seq<Card>, c: seq<Card>)
    ensures (a + b) + c == a + (b + c)
  {
  }

  // ----- The opening card -----

  lemma {:induction false} DrawOpeningFacts(pile: seq<Card>, attempts: nat, shuffles: nat -> Shuffle)
    requires attempts <= DECK_SIZE && forall i :: Permuting(shuffles(i))
    ensures var r := DrawOpening(pile, attempts, shuffles);
            r.Ok? ==>
              && r.value.card.kind != WildDrawFour
              && multiset(r.value.pile) + multiset{r.value.card} == multiset(pile)
    decreases DECK_SIZE - attempts
  {
    if attempts < DECK_SIZE && pile != [] {
      var card, rest := pile[|pile| - 1], pile[..|pile| - 1];
      assert pile == rest + [card];
      if card.kind == WildDrawFour {
        var reshuffled := shuffles(attempts + 1)([card] + rest);
        if reshuffled.ok {
          DrawOpeningFacts(reshuffled.cards, attempts + 1, shuffles);
        }
      }
    }
  }

  ghost predicate Identity(shuffle: Shuffle) {
    forall pile: seq<Card> :: shuffle(pile) == ShuffleResult(true, pile)
  }

  lemma IdentityPermutes(shuffle: Shuffle)
    requires Identity(shuffle)
    ensures Permuting(shuffle)
  {
  }

  function FromTop(pile: seq<Card>, j: nat): Card
    requires j < |pile|
  {
    pile[|pile| - 1 - j]
  }

  /** The first k cards from the top are wild draw fours, the next one is not. */
  ghost predicate FirstAcceptable(pile: seq<Card>, k: nat) {
    && k < |pile|
    && (forall j: nat :: j < k ==> FromTop(pile, j).kind == WildDrawFour)
    && FromTop(pile, k).kind != WildDrawFour
  }

  /** With a shuffle that keeps the order, the opening card is the first acceptable one from the top. */
  lemma {:induction false} OpeningInOrder(pile: seq<Card>, k: nat, attempts: nat, shuffles: nat -> Shuffle)
    requires forall i :: i > 0 ==> Identity(shuffles(i))
    requires FirstAcceptable(pile, k) && attempts + k < DECK_SIZE
    ensures DrawOpening(pile, attempts, shuffles).Ok?
    ensures DrawOpening(pile, attempts, shuffles).value.card == FromTop(pile, k)
    decreases k
  {
    if k > 0 {
      var card := FromTop(pile, 0);
      var returned := [card] + pile[..|pile| - 1];
      assert shuffles(attempts + 1)(returned) == ShuffleResult(true, returned);
      forall j: nat | j < k ensures FromTop(returned, j) == FromTop(pile, j + 1) {
      }
      OpeningInOrder(returned, k - 1, attempts + 1, shuffles);
    }
  }

  /** There are only four wild draw fours, so one of any five cards is something else. */
  lemma NotFiveDrawFours(pile: seq<Card>)
    requires multiset(pile) <= multiset(StandardDeck()) && |pile| >= 5
    ensures exists j: nat :: j < 5 && FromTop(pile, j).kind != WildDrawFour
  {
    hide StandardDeck, SumBy;
    var top := pile[|pile| - 5..];
    assert pile == pile[..|pile| - 5] + top;
    assert multiset(top) <= multiset(pile);
    SubDeckWeight(DRAW_FOURS, top);
    DeckTotals();
    if forall i :: 0 <= i < 5 ==> top[i].kind == WildDrawFour {
      CountDrawFours(top);
    }
    var i :| 0 <= i < 5 && top[i].kind != WildDrawFour;
    assert FromTop(pile, 4 - i) == top[i];
  }

  lemma AcceptableWithinFive(pile: seq<Card>) returns (k: nat)
    requires multiset(pile) <= multiset(StandardDeck()) && |pile| >= 5
    ensures k < 5 && FirstAcceptable(pile, k)
  {
    NotFiveDrawFours(pile);
    k := 0;
    while FromTop(pile, k).kind == WildDrawFour
      invariant k < 5
      invariant forall j: nat :: j < k ==> FromTop(pile, j).kind == WildDrawFour
      decreases 5 - k
    {
      k := k + 1;
    }
  }

  lemma {:induction false} CountDrawFours(cards: seq<Card>)
    requires forall i :: 0 <= i < |cards| ==> cards[i].kind == WildDrawFour
    ensures SumBy(DRAW_FOURS, cards) == |cards|
  {
    if cards != [] {
      CountDrawFours(cards[1..]);
    }
  }

  /** Part of the deck weighs no more than the deck, for weights that are never negative. */
  lemma SubDeckWeight(weight: Card -> int, cards: seq<Card>)
    requires multiset(cards) <= multiset(StandardDeck()) && forall c :: IsCanonical(c) ==> weight(c) >= 0
    ensures SumBy(weight, cards) <= SumBy(weight, StandardDeck())
  {
    var deck := StandardDeck();
    StandardDeckDistinct();
    var others := SeqOf(multiset(deck) - multiset(cards));
    assert multiset(cards + others) == multiset(deck);
    SumByPermutation(weight, cards + others, deck);
    SumByAppend(weight, cards, others);
    forall i | 0 <= i < |others| ensures weight(others[i]) >= 0 {
      assert others[i] in multiset(others);
      assert others[i] in multiset(deck);
    }
    SumNonNegative(weight, others);
  }

  ghost function SeqOf(m: multiset<Card>): (s: seq<Card>)
    ensures multiset(s) == m
    decreases |m|
  {
    if m == multiset{} then [] else var c :| c in m; [c] + SeqOf(m - multiset{c})
  }

  lemma {:induction false} SumNonNegative(weight: Card -> int, cards: seq<Card>)
    requires forall i :: 0 <= i < |cards| ==> weight(cards[i]) >= 0
    ensures SumBy(weight, cards) >= 0
  {
    if cards != [] {
      SumNonNegative(weight, cards[1..]);
    }
  }

  // ----- The new game -----

  /** The table before the opening card takes effect. */
  ghost predicate Laid(g: Game, ids: seq<int>, card: Card) {
    && InvTable(g.players, g.dealerSeat, g.direction)
    && Conserved(g)
    && |g.players| == |ids| && (forall s :: 0 <= s < |ids| ==> g.players[s].id == ids[s])
    && (forall s :: 0 <= s < |ids| ==> |g.players[s].hand| == HAND_SIZE)
    && g.discardPile == [card]
    && |g.drawPile| == DECK_SIZE - HAND_SIZE * |ids| - 1
    && g.direction == 1 && g.pendingDraw == 0 && g.phase == Playing && g.drawnCardID == 0 && g.pendingColor == None
    && g.challenges == map[] && g.candidates == [] && g.result == None
  }

  lemma SeatedEmpty(ids: seq<int>)
    ensures HandBag(Seated(ids)) == multiset{}
    ensures |Seated(ids)| == |ids| && forall s :: 0 <= s < |ids| ==> Seated(ids)[s] == Player(ids[s], [])
  {
    NoHands(Seated(ids));
  }

  lemma {:induction false} NoHands(players: seq<Player>)
    requires forall s :: 0 <= s < |players| ==> players[s].hand == []
    ensures HandBag(players) == multiset{}
  {
    if players != [] {
      NoHands(players[1..]);
    }
  }

  /** A permuted deck is enough for seven rounds at any table. */
  lemma HandsDealt(ids: seq<int>, deck: seq<Card>)
    requires ValidPlayerIDs(ids) && multiset(deck) == multiset(StandardDeck())
    ensures var d := DealRounds(Dealing(Seated(ids), deck), HAND_SIZE);
            && d.Some?
            && DealingBag(d.value) == multiset(StandardDeck())
            && SameSeats(d.value.players, Seated(ids))
            && |d.value.pile| == DECK_SIZE - HAND_SIZE * |ids|
            && (forall s :: 0 <= s < |ids| ==> |d.value.players[s].hand| == HAND_SIZE)
  {
    assert |deck| == |multiset(deck)| == |multiset(StandardDeck())| == DECK_SIZE;
    SeatedEmpty(ids);
    NeededForHands(|ids|);
    DealRoundsFacts(Dealing(Seated(ids), deck), HAND_SIZE);
  }

  lemma TableLaid(ids: seq<int>, dealerSeat: int, d: Dealing, opening: Opening)
    requires ValidPlayerIDs(ids) && 0 <= dealerSeat < |ids|
    requires SameSeats(d.players, Seated(ids)) && DealingBag(d) == multiset(StandardDeck())
    requires |d.pile| == DECK_SIZE - HAND_SIZE * |ids|
    requires forall s :: 0 <= s < |ids| ==> |d.players[s].hand| == HAND_SIZE
    requires multiset(opening.pile) + multiset{opening.card} == multiset(d.pile)
    ensures Laid(Table(d, opening, dealerSeat), ids, opening.card)
    ensures IsCanonical(opening.card)
  {
    var g := Table(d, opening, dealerSeat);
    SeatedEmpty(ids);
    assert multiset(opening.pile) + multiset([opening.card]) + HandBag(d.players) == multiset(StandardDeck());
    assert opening.card in multiset(StandardDeck());
    StandardDeckDistinct();
    assert |multiset(opening.pile)| + 1 == |multiset(d.pile)|;
    forall s | 0 <= s < |ids| ensures d.players[s].id == ids[s] { assert Seated(ids)[s].id == ids[s]; }
  }

  /** Seven cards each, or nine for the player hit by an opening draw two. */
  ghost predicate OpeningHands(g: Game, ids: seq<int>, card: Card) {
    |g.players| == |ids| > 0 &&
    forall s :: 0 <= s < |ids| ==>
      |g.players[s].hand| ==
      HAND_SIZE + if card.kind == DrawTwo && s == NextSeat(g, g.dealerSeat, 1) then 2 else 0
  }

  lemma OpeningColored(g: Game, ids: seq<int>, card: Card, seat: int, direction: int)
    requires Laid(g, ids, card) && IsCanonical(card) && !card.IsWild() && 0 <= seat < |ids|
    requires direction == 1 || direction == -1
    ensures Inv(g.(color := card.color, direction := direction, currentSeat := seat), true)
  {
    CanonicalIsValid(card.id);
  }

  lemma OpeningWild(g: Game, ids: seq<int>, card: Card, seat: int)
    requires Laid(g, ids, card) && card.kind == Wild && 0 <= seat < |ids|
    ensures Inv(g.(color := NoColor, currentSeat := seat, phase := AwaitingColor,
                pendingColor := Some(PendingColor(seat, card, true))), true)
  {
  }

  lemma OpeningDrawTwo(g: Game, ids: seq<int>, card: Card, shuffle: Shuffle)
    requires Laid(g, ids, card) && IsCanonical(card) && card.kind == DrawTwo && Permuting(shuffle)
    ensures var first := NextSeat(g, g.dealerSeat, 1);
            var dealt := DrawCardsTo(g.(color := card.color), first, 2, shuffle);
            && dealt.Some?
            && Inv(dealt.value.0.(currentSeat := NextSeat(g, first, 1)), true)
            && dealt.value.0.discardPile == [card]
            && dealt.value.0.challenges == map[] && dealt.value.0.candidates == []
            && SameSeats(dealt.value.0.players, g.players)
            && OpeningHands(dealt.value.0, ids, card)
  {
    var first := NextSeat(g, g.dealerSeat, 1);
    NextSeatInRange(g, g.dealerSeat, 1);
    NextSeatInRange(g, first, 1);
    var g0 := g.(color := card.color, currentSeat := first);
    OpeningColored(g, ids, card, first, 1);
    assert g0 == g.(color := card.color, direction := 1, currentSeat := first);
    var d0 := DrawCardsTo(g0, first, 2, shuffle).value.0;
    var d := DrawCardsTo(g.(color := card.color), first, 2, shuffle).value.0;
    assert d.(currentSeat := NextSeat(g, first, 1)) == d0.(currentSeat := NextSeat(g, first, 1));
    hide Inv, InvTable, Conserved;
    CaughtInv(g0, first, Env(1, 1, shuffle), true);
    OpeningDrawnTurn(d0, NextSeat(g, first, 1));
    assert g.challenges - {g.players[first].id} == map[];
  }

  lemma OpeningDrawnTurn(d: Game, seat: int)
    requires Inv(d, true) && d.phase == Playing && d.pendingDraw == 0 && 0 <= seat < |d.players|
    ensures Inv(d.(currentSeat := seat), true)
  {
    assert d.(currentSeat := seat) == d.(currentSeat := seat, direction := d.direction, pendingDraw := 0);
    TurnMoved(d, seat, d.direction, 0, true);
  }

  /** The opening card is settled by its own rule, and the game that starts satisfies the invariant. */
  lemma OpeningInv(g: Game, ids: seq<int>, card: Card, shuffle: Shuffle)
    requires Laid(g, ids, card) && IsCanonical(card) && card.kind != WildDrawFour && Permuting(shuffle)
    ensures var r := ApplyOpening(g, card, shuffle);
            && r.Ok?
            && Inv(r.value, true)
            && r.value.discardPile == [card]
            && r.value.challenges == map[] && r.value.pendingDraw == 0 && r.value.candidates == []
            && SameSeats(r.value.players, g.players)
            && OpeningHands(r.value, ids, card)
  {
    CanonicalIsValid(card.id);
    var first := NextSeat(g, g.dealerSeat, 1);
    var turned := g.(direction := -1);
    NextSeatInRange(g, g.dealerSeat, 1);
    NextSeatInRange(g, first, 1);
    NextSeatInRange(turned, turned.dealerSeat, 1);
    if card.kind == DrawTwo {
      OpeningDrawTwo(g, ids, card, shuffle);
    } else {
      var r := ApplyOpening(g, card, shuffle).value;
      assert SameSeats(r.players, g.players) && OpeningHands(r, ids, card);
      hide Inv, Laid, OpeningHands, SameSeats;
      if card.kind == Wild {
        OpeningWild(g, ids, card, first);
      } else {
        assert r == g.(color := card.color, direction := r.direction, currentSeat := r.currentSeat);
        OpeningColored(g, ids, card, r.currentSeat, r.direction);
      }
    }
  }

  /** A new game is either refused or starts in order, with all the cards on the table and no wild draw four on top. */
  lemma NewGameInv(ids: seq<int>, dealerSeat: int, shuffles: nat -> Shuffle)
    requires forall i :: Permuting(shuffles(i))
    ensures var r := NewGame(ids, dealerSeat, shuffles);
            r.Ok? ==>
              && ValidPlayerIDs(ids) && 0 <= dealerSeat < |ids|
              && Inv(r.value, true)
              && |r.value.players| == |ids| && (forall s :: 0 <= s < |ids| ==> r.value.players[s].id == ids[s])
              && |r.value.discardPile| == 1 && Top(r.value).kind != WildDrawFour
              && OpeningHands(r.value, ids, Top(r.value))
              && r.value.challenges == map[] && r.value.pendingDraw == 0 && r.value.candidates == []
  {
    if ValidPlayerIDs(ids) && 0 <= dealerSeat < |ids| {
      var deck := shuffles(0)(StandardDeck());
      if deck.ok {
        HandsDealt(ids, deck.cards);
        var d := DealRounds(Dealing(Seated(ids), deck.cards), HAND_SIZE).value;
        DrawOpeningFacts(d.pile, 0, shuffles);
        var opening := DrawOpening(d.pile, 0, shuffles);
        if opening.Ok? {
          TableLaid(ids, dealerSeat, d, opening.value);
          OpeningInv(Table(d, opening.value, dealerSeat), ids, opening.value.card, shuffles(DECK_SIZE + 1));
        }
      }
    }
  }

  /** With a shuffle that keeps the order after the first, a valid table always gets its game:
      the opening card is found within five tries. */
  lemma OpeningConverges(ids: seq<int>, dealerSeat: int, shuffles: nat -> Shuffle)
    requires ValidPlayerIDs(ids) && 0 <= dealerSeat < |ids|
    requires Permuting(shuffles(0)) && shuffles(0)(StandardDeck()).ok
    requires forall i :: i > 0 ==> Identity(shuffles(i))
    ensures NewGame(ids, dealerSeat, shuffles).Ok?
    ensures var d := DealRounds(Dealing(Seated(ids), shuffles(0)(StandardDeck()).cards), HAND_SIZE);
            && d.Some? && |d.value.pile| >= 5
            && exists k :: 0 <= k < 5 && FirstAcceptable(d.value.pile, k)
                           && Top(NewGame(ids, dealerSeat, shuffles).value) == FromTop(d.value.pile, k)
  {
    var d := DealRounds(Dealing(Seated(ids), shuffles(0)(StandardDeck()).cards), HAND_SIZE);
    assert d.Some? && |d.value.pile| >= 5 && multiset(d.value.pile) <= multiset(StandardDeck()) by {
      HandsDealt(ids, shuffles(0)(StandardDeck()).cards);
      assert multiset(d.value.pile) <= DealingBag(d.value);
    }
    hide DealRounds, StandardDeck, Seated;
    var k := AcceptableWithinFive(d.value.pile);
    assert forall i: nat :: Permuting(shuffles(i)) by {
      forall i: nat ensures Permuting(shuffles(i)) {
        if i > 0 { IdentityPermutes(shuffles(i)); }
      }
    }
    OpeningInOrder(d.value.pile, k, 0, shuffles);
    hide NewGame, DrawOpening;
    OpeningTakesEffect(ids, dealerSeat, shuffles, d.value);
  }

  lemma OpeningTakesEffect(ids: seq<int>, dealerSeat: int, shuffles: nat -> Shuffle, d: Dealing)
    requires ValidPlayerIDs(ids) && 0 <= dealerSeat < |ids| && forall i :: Permuting(shuffles(i))
    requires shuffles(0)(StandardDeck()).ok
    requires DealRounds(Dealing(Seated(ids), shuffles(0)(StandardDeck()).cards), HAND_SIZE) == Some(d)
    requires DrawOpening(d.pile, 0, shuffles).Ok?
    ensures NewGame(ids, dealerSeat, shuffles).Ok?
    ensures |NewGame(ids, dealerSeat, shuffles).value.discardPile| > 0
    ensures Top(NewGame(ids, dealerSeat, shuffles).value) == DrawOpening(d.pile, 0, shuffles).value.card
  {
    HandsDealt(ids, shuffles(0)(StandardDeck()).cards);
    DrawOpeningFacts(d.pile, 0, shuffles);
    var opening := DrawOpening(d.pile, 0, shuffles).value;
    TableLaid(ids, dealerSeat, d, opening);
    OpeningInv(Table(d, opening, dealerSeat), ids, opening.card, shuffles(DECK_SIZE + 1));
    hide DealRounds, DrawOpening, ApplyOpening, Laid, Inv, StandardDeck;
  }
}
