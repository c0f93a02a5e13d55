/** The engine's lists as Go slices: shrunk, shifted and filtered inside one backing array. */
module Slices {
  import opened Rules
  import opened Invariant
  import opened Preservation
  import opened Engines

  /** `copy(a[index:], a[index+1:])` over the first `n` places: the gap closes, the order stays. */
  method CloseGap<T>(a: array<T>, n: nat, index: nat)
    requires index < n <= a.Length
    modifies a
    ensures a[..n - 1] == RemoveAt(old(a[..n]), index)
    ensures a[n - 1..] == old(a[n - 1..])
  {
    for i := index to n - 1
      invariant a[..index] == old(a[..index])
      invariant forall k :: index <= k < i ==> a[k] == old(a[k + 1])
      invariant a[i..] == old(a[i..])
    {
      a[i] := a[i + 1];
      assert a[i + 1..] == old(a[i..])[1..];
      assert old(a[i..])[1..] == old(a[i + 1..]);
    }
    assert forall k :: 0 <= k < n - 1 ==> a[..n - 1][k] == RemoveAt(old(a[..n]), index)[k];
  }

  /** The hand keeps its order when one card is taken out of it. */
  method RemoveFromHand<T>(hand: array<T>, n: nat, index: nat) returns (card: T, left: nat)
    requires index < n <= hand.Length
    modifies hand
    ensures card == old(hand[index]) && left == n - 1
    ensures hand[..left] == RemoveAt(old(hand[..n]), index)
  {
    card := hand[index];
    CloseGap(hand, n, index);
    left := n - 1;
  }

  /** A candidate who has to draw is taken out of the list; nobody else moves up or down. */
  method RemoveCandidate(candidates: array<int>, n: nat, seat: int) returns (left: nat)
    requires n <= candidates.Length && DistinctSeats(candidates[..n])
    modifies candidates
    ensures left <= n && candidates[..left] == Without(old(candidates[..n]), seat)
  {
    for index := 0 to n
      invariant seat !in candidates[..index] && candidates[..n] == old(candidates[..n])
    {
      if candidates[index] == seat {
        RemoveFirst(candidates[..n], index, seat);
        CloseGap(candidates, n, index);
        return n - 1;
      }
    }
    WithoutAbsent(candidates[..n], seat);
    left := n;
  }

  /** Filters the candidates into the front of their own array while it is being read: the writing place never
      overtakes the reading one, so what is still to be read is untouched. */
  method KeepEmptyHanded(players: seq<Player>, candidates: array<int>, n: nat) returns (kept: nat)
    requires n <= candidates.Length && SeatsBelow(candidates[..n], |players|)
    modifies candidates
    ensures kept <= n && candidates[..kept] == StillEmpty(players, old(candidates[..n]))
    ensures candidates[n..] == old(candidates[n..])
  {
    hide StillEmpty;
    kept := 0;
    ghost var list := candidates[..n];
    assert candidates[..0] == [] && list[0..] == list;
    Begin(players, list);
    for i := 0 to n
      invariant kept <= i
      invariant forall k :: i <= k < candidates.Length ==> candidates[k] == old(candidates[k])
      invariant candidates[..kept] + StillEmpty(players, list[i..]) == StillEmpty(players, list)
    {
      var seat := candidates[i];
      ghost var front := candidates[..kept];
      StillEmptyStep(players, list, i, front);
      if players[seat].hand == [] {
        candidates[kept] := seat;
        kept := kept + 1;
        assert candidates[..kept] == front + [seat];
      }
    }
    assert list[n..] == [];
    End(players, candidates[..kept]);
  }

  lemma Begin(players: seq<Player>, list: seq<int>)
    requires SeatsBelow(list, |players|)
    ensures [] + StillEmpty(players, list) == StillEmpty(players, list)
  {
  }

  lemma End(players: seq<Player>, kept: seq<int>)
    ensures kept + StillEmpty(players, []) == kept
  {
  }
}
