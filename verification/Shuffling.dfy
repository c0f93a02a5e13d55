/** The default shuffle: an in-place Fisher-Yates pass driven by a random source that may fail. */
module Shuffling {
  import opened Wrappers
  import opened Cards
  import opened Piles

  /** One draw of the random source per index: a value in [0, index], or an error. */
  ghost predicate IsRandom(random: seq<Option<nat>>) {
    forall i :: 0 <= i < |random| && random[i].Some? ==> random[i].value <= i
  }

  ghost predicate IsPicks(picks: seq<nat>) {
    forall i :: 0 <= i < |picks| ==> picks[i] <= i
  }

  function Swap(s: seq<Card>, i: nat, j: nat): (r: seq<Card>)
    requires i < |s| && j < |s|
  {
    s[i := s[j]][j := s[i]]
  }

  /** The cards after the positions from `k` down to 1 have been fixed in turn. */
  function Shuffled(s: seq<Card>, k: nat, picks: seq<nat>): (r: seq<Card>)
    requires IsPicks(picks) && |picks| == |s| && (k == 0 || k < |s|)
    ensures |r| == |s| && forall i :: k < i < |s| ==> r[i] == s[i]
    decreases k
  {
    if k == 0 then s else Shuffled(Swap(s, k, picks[k]), k - 1, picks)
  }

  lemma SwapPermutes(s: seq<Card>, i: nat, j: nat)
    requires i < |s| && j < |s|
    ensures multiset(Swap(s, i, j)) == multiset(s)
  {
  }

  lemma {:induction false} ShuffledPermutes(s: seq<Card>, k: nat, picks: seq<nat>)
    requires IsPicks(picks) && |picks| == |s| && (k == 0 || k < |s|)
    ensures multiset(Shuffled(s, k, picks)) == multiset(s)
    decreases k
  {
    if k > 0 {
      SwapPermutes(s, k, picks[k]);
      ShuffledPermutes(Swap(s, k, picks[k]), k - 1, picks);
    }
  }

  /** Whatever happens the cards are permuted; it succeeds exactly when every draw did. */
  method SecureShuffle(cards: array<Card>, random: seq<Option<nat>>) returns (ok: bool)
    requires |random| == cards.Length && IsRandom(random)
    modifies cards
    ensures multiset(cards[..]) == multiset(old(cards[..]))
    ensures ok <==> AllDrawn(random, 0)
    ensures ok ==> cards[..] == Shuffled(old(cards[..]), LastIndex(cards.Length), Values(random))
  {
    var index: nat := LastIndex(cards.Length);
    ghost var before, picks := cards[..], Values(random);
    ok := true;
    while index > 0 && ok
      invariant index == 0 || index < cards.Length
      invariant if ok then AllDrawn(random, index) else !AllDrawn(random, 0)
      invariant Shuffled(cards[..], index, picks) == Shuffled(before, LastIndex(cards.Length), picks)
      decreases index, ok
    {
      if random[index].None? {
        ok := false;
      } else {
        Exchange(cards, index, random[index].value);
        index := index - 1;
      }
    }
    ShuffledPermutes(cards[..], index, picks);
    ShuffledPermutes(before, LastIndex(cards.Length), picks);
  }

  function LastIndex(length: nat): nat { if length == 0 then 0 else length - 1 }

  /** Every draw for an index above k succeeded. */
  ghost predicate AllDrawn(random: seq<Option<nat>>, k: nat) {
    forall i :: k < i < |random| ==> random[i].Some?
  }

  method Exchange(cards: array<Card>, i: nat, j: nat)
    requires i < cards.Length && j < cards.Length
    modifies cards
    ensures cards[..] == Swap(old(cards[..]), i, j)
  {
    cards[i], cards[j] := cards[j], cards[i];
  }

  function Values(random: seq<Option<nat>>): (picks: seq<nat>)
    requires IsRandom(random)
    ensures IsPicks(picks) && |picks| == |random|
    ensures forall i :: 0 <= i < |random| && random[i].Some? ==> picks[i] == random[i].value
  {
    seq(|random|, i requires 0 <= i < |random| => if random[i].Some? then random[i].value else 0)
  }

  /** The card wanted at position k is still among the positions not yet fixed. */
  lemma FindPick(s: seq<Card>, k: nat, t: seq<Card>) returns (j: nat)
    requires |s| == |t| && k < |s| && multiset(s) == multiset(t)
    requires s[k + 1..] == t[k + 1..]
    ensures j <= k && s[j] == t[k]
  {
    assert s == s[..k + 1] + s[k + 1..] && t == t[..k + 1] + t[k + 1..];
    assert multiset(s[..k + 1]) == multiset(s) - multiset(s[k + 1..]);
    assert multiset(t[..k + 1]) == multiset(t) - multiset(t[k + 1..]);
    assert t[k] == t[..k + 1][k];
    assert t[k] in multiset(s[..k + 1]);
    j :| 0 <= j < k + 1 && s[..k + 1][j] == t[k];
  }

  /** Every order of the cards can come out. */
  lemma {:induction false} EveryOrderReachable(s: seq<Card>, k: nat, t: seq<Card>) returns (picks: seq<nat>)
    requires |s| == |t| && k < |s| && multiset(s) == multiset(t) && s[k + 1..] == t[k + 1..]
    ensures IsPicks(picks) && |picks| == |s| && Shuffled(s, k, picks) == t
    decreases k
  {
    var j := FindPick(s, k, t);
    if k == 0 {
      picks := seq(|s|, i => 0);
      assert s == [s[0]] + s[1..] && t == [t[0]] + t[1..];
    } else {
      var s' := Swap(s, k, j);
      SwapPermutes(s, k, j);
      SwapFixes(s, k, j, t);
      var rest := EveryOrderReachable(s', k - 1, t);
      picks := rest[k := j];
      AddPick(s, k, j, rest);
    }
  }

  /** The pick for position k is read once, before the others. */
  lemma AddPick(s: seq<Card>, k: nat, j: nat, rest: seq<nat>)
    requires 0 < k < |s| && j <= k && IsPicks(rest) && |rest| == |s|
    ensures IsPicks(rest[k := j]) && Shuffled(s, k, rest[k := j]) == Shuffled(Swap(s, k, j), k - 1, rest)
  {
    SamePicks(Swap(s, k, j), k - 1, rest, rest[k := j]);
  }

  lemma SwapFixes(s: seq<Card>, k: nat, j: nat, t: seq<Card>)
    requires |s| == |t| && j <= k < |s| && s[j] == t[k] && s[k + 1..] == t[k + 1..]
    ensures Swap(s, k, j)[k..] == t[k..]
  {
    assert Swap(s, k, j)[k..] == [t[k]] + s[k + 1..];
    assert t[k..] == [t[k]] + t[k + 1..];
  }

  lemma {:induction false} SamePicks(s: seq<Card>, k: nat, p: seq<nat>, q: seq<nat>)
    requires IsPicks(p) && IsPicks(q) && |p| == |q| == |s| && k < |s|
    requires forall i :: 1 <= i <= k ==> p[i] == q[i]
    ensures Shuffled(s, k, p) == Shuffled(s, k, q)
    decreases k
  {
    if k > 0 {
      SamePicks(Swap(s, k, p[k]), k - 1, p, q);
    }
  }

  lemma SwapKeepsDistinct(s: seq<Card>, k: nat, j: nat)
    requires k < |s| && j <= k && DistinctIDs(s)
    ensures DistinctIDs(Swap(s, k, j))
  {
    var r := Swap(s, k, j);
    forall a, b | 0 <= a < b < |r| ensures r[a].id != r[b].id {
      var a' := if a == k then j else if a == j then k else a;
      var b' := if b == k then j else if b == j then k else b;
      assert r[a] == s[a'] && r[b] == s[b'] && a' != b';
      if a' < b' { assert s[a'].id != s[b'].id; } else { assert s[b'].id != s[a'].id; }
    }
  }

  lemma SameCard(s: seq<Card>, i: nat, j: nat)
    requires i < |s| && j < |s| && DistinctIDs(s) && s[i] == s[j]
    ensures i == j
  {
  }

  /** No order comes out of two different sequences of draws: with uniform draws the shuffle is unbiased. */
  lemma {:induction false} EveryOrderOnce(s: seq<Card>, k: nat, p: seq<nat>, q: seq<nat>)
    requires IsPicks(p) && IsPicks(q) && |p| == |q| == |s| && k < |s| && DistinctIDs(s)
    requires Shuffled(s, k, p) == Shuffled(s, k, q)
    ensures forall i :: 1 <= i <= k ==> p[i] == q[i]
    decreases k
  {
    if k > 0 {
      var a, b := Swap(s, k, p[k]), Swap(s, k, q[k]);
      assert Shuffled(s, k, p)[k] == a[k] == s[p[k]];
      assert Shuffled(s, k, q)[k] == b[k] == s[q[k]];
      SameCard(s, p[k], q[k]);
      SwapKeepsDistinct(s, k, p[k]);
      EveryOrderOnce(a, k - 1, p, q);
    }
  }
}
