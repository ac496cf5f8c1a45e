/** Hand arithmetic of the blackjack engine: card ranks, hand totals with the
    ace-as-eleven rule, bust, score, naturals and the three-way comparison.
    Everything here is a pure function of a hand. */
module Hand {

  /** A card rank: 1 is an ace, 2..9 count as themselves, 10 stands for any
      ten-valued card (10, jack, queen, king). */
  type Rank = r: int | 1 <= r <= 10 witness 1

  /** The plain sum of the ranks in a hand, every ace counted as 1. */
  function Sum(h: seq<Rank>): int {
    if h == [] then 0 else Sum(h[..|h| - 1]) + h[|h| - 1]
  }

  /** Every card adds between 1 and 10 to the plain sum. */
  lemma {:induction false} SumBounds(h: seq<Rank>)
    ensures |h| <= Sum(h) <= 10 * |h|
  {
    if h != [] {
      SumBounds(h[..|h| - 1]);
    }
  }

  /** The hand holds an ace that can count as 11 without passing 21. */
  predicate UsableAce(h: seq<Rank>)
    ensures UsableAce(h) ==> |h| >= 1 && Sum(h) <= 11
  {
    1 in h && Sum(h) + 10 <= 21
  }

  /** The hand total: the plain sum, plus 10 when an ace is usable. */
  function SumHand(h: seq<Rank>): (t: int)
    ensures Sum(h) <= t <= Sum(h) + 10
    ensures t != Sum(h) ==> 1 in h && t <= 21
  {
    if UsableAce(h) then Sum(h) + 10 else Sum(h)
  }

  /** A hand is bust when its total passes 21; the ace bonus is then never
      counted. */
  predicate IsBust(h: seq<Rank>)
    ensures IsBust(h) ==> Sum(h) > 21
  {
    SumHand(h) > 21
  }

  /** The score of a hand: 0 for a bust hand, its total otherwise. */
  function Score(h: seq<Rank>): (s: int)
    ensures 0 <= s <= 21
    ensures s == 0 ==> IsBust(h) || h == []
  {
    SumBounds(h);
    if IsBust(h) then 0 else SumHand(h)
  }

  /** The sign of a - b as a real: 1 for greater, 0 for equal, -1 for less,
      obtained as the difference of the two comparison indicators. */
  function Cmp(a: int, b: int): (r: real)
    ensures r == 1.0 <==> a > b
    ensures r == 0.0 <==> a == b
    ensures r == -1.0 <==> a < b
  {
    (if a > b then 1.0 else 0.0) - (if a < b then 1.0 else 0.0)
  }

  predicate Ascending(s: seq<Rank>) {
    forall i, j :: 0 <= i < j < |s| ==> s[i] <= s[j]
  }

  /** Inserts x into an ascending sequence, keeping it ascending. */
  function Insert(x: Rank, s: seq<Rank>): (r: seq<Rank>)
    requires Ascending(s)
    ensures Ascending(r)
    ensures multiset(r) == multiset(s) + multiset{x}
  {
    if s == [] || x <= s[0] then
      AscendingCons(x, s);
      [x] + s
    else
      assert s == [s[0]] + s[1..];
      var t := Insert(x, s[1..]);
      AllAtLeast(s[0], x, s[1..], t);
      AscendingCons(s[0], t);
      [s[0]] + t
  }

  /** A card no greater than the first of an ascending sequence can be put in
      front of it. */
  lemma AscendingCons(a: Rank, t: seq<Rank>)
    requires Ascending(t) && (t == [] || a <= t[0])
    ensures Ascending([a] + t)
  {
    forall i, j | 0 <= i < j < |[a] + t| ensures ([a] + t)[i] <= ([a] + t)[j] {
      if i == 0 {
        assert ([a] + t)[j] == t[j - 1];
        assert t[0] <= t[j - 1];
      } else {
        assert ([a] + t)[i] == t[i - 1] && ([a] + t)[j] == t[j - 1];
      }
    }
  }

  /** Every element of a sequence made of x and the elements of s is at least
      any common lower bound of x and s. */
  lemma AllAtLeast(lo: Rank, x: Rank, s: seq<Rank>, t: seq<Rank>)
    requires lo <= x && forall i :: 0 <= i < |s| ==> lo <= s[i]
    requires multiset(t) == multiset(s) + multiset{x}
    ensures forall k :: 0 <= k < |t| ==> lo <= t[k]
  {
    forall k | 0 <= k < |t| ensures lo <= t[k] {
      assert t[k] in multiset(t);
      if t[k] != x {
        assert t[k] in multiset(s);
        var j :| 0 <= j < |s| && s[j] == t[k];
      }
    }
  }

  /** The hand in ascending order of rank: an ascending permutation of it. */
  function Sorted(h: seq<Rank>): (r: seq<Rank>)
    ensures Ascending(r)
    ensures multiset(r) == multiset(h)
  {
    if h == [] then [] else
      assert h == [h[0]] + h[1..];
      Insert(h[0], Sorted(h[1..]))
  }

  /** A natural blackjack: the sorted hand is exactly [1, 10]. */
  predicate IsNatural(h: seq<Rank>)
    ensures IsNatural(h) ==> |h| == 2 && 1 in h && 10 in h
  {
    Sorted(h) == [1, 10]
  }

  /** The dealer, going from hand d0 to hand d, drew only while the total was
      below 17: every hand on the way, before its last card, totalled less. */
  ghost predicate DrewBelow17(d0: seq<Rank>, d: seq<Rank>) {
    forall j :: |d0| <= j < |d| ==> SumHand(d[..j]) < 17
  }

  lemma {:induction false} DrewBelow17Append(d0: seq<Rank>, d: seq<Rank>, c: Rank)
    requires |d0| <= |d| && DrewBelow17(d0, d) && SumHand(d) < 17
    ensures DrewBelow17(d0, d + [c])
  {
    forall j | |d0| <= j < |d + [c]|
      ensures SumHand((d + [c])[..j]) < 17
    {
      if j < |d| {
        assert (d + [c])[..j] == d[..j];
      } else {
        assert (d + [c])[..j] == d;
      }
    }
  }

  lemma SumAppend(h: seq<Rank>, c: Rank)
    ensures Sum(h + [c]) == Sum(h) + c
  {
    assert (h + [c])[..|h|] == h;
  }

  /** The total is the plain sum plus 10 exactly when the hand holds an ace
      and the sum plus 10 does not pass 21; otherwise it is the plain sum. */
  lemma SumHandSpec(h: seq<Rank>)
    ensures SumHand(h) == Sum(h) + 10 <==> 1 in h && Sum(h) + 10 <= 21
    ensures SumHand(h) == Sum(h) <==> !(1 in h && Sum(h) + 10 <= 21)
    ensures Sum(h) <= SumHand(h)
  {
  }

  /** A bust hand never has a usable ace, so its total is its plain sum. */
  lemma BustHasNoUsableAce(h: seq<Rank>)
    requires IsBust(h)
    ensures !UsableAce(h) && SumHand(h) == Sum(h) && Sum(h) > 21
  {
  }

  /** The score of a non-empty hand is 0 exactly when it is bust; otherwise it
      lies between the plain sum and 21. */
  lemma ScoreSpec(h: seq<Rank>)
    requires |h| >= 1
    ensures Score(h) == 0 <==> IsBust(h)
    ensures !IsBust(h) ==> Sum(h) <= Score(h) <= 21
  {
  }

  /** One more card on a hand that is not bust gives a total of at most 31,
      so the player's total always fits the observation range 0..31. */
  lemma {:induction false} HitTotalBound(h: seq<Rank>, c: Rank)
    requires !IsBust(h)
    ensures 0 <= SumHand(h + [c]) <= 31
  {
    SumBounds(h);
    SumAppend(h, c);
  }

  lemma TwoCardSum(a: Rank, b: Rank)
    ensures Sum([a, b]) == a + b
  {
    assert [a, b][..1] == [a];
    assert [a][..0] == [];
    assert Sum([a]) == a;
  }

  /** A hand that is not bust, left as it is or given one more card, totals
      at most 31. */
  lemma {:induction false} ExtendedTotalBound(before: seq<Rank>, after: seq<Rank>)
    requires !IsBust(before)
    requires after == before || (|after| == |before| + 1 && after[..|before|] == before)
    ensures 0 <= SumHand(after) <= 31
  {
    SumBounds(after);
    if after != before {
      assert after == before + [after[|before|]];
      HitTotalBound(before, after[|before|]);
    }
  }

  /** A two-card hand is never bust. */
  lemma TwoCardsNotBust(a: Rank, b: Rank)
    ensures !IsBust([a, b])
    ensures 2 <= SumHand([a, b]) <= 21
  {
    TwoCardSum(a, b);
  }

  /** The naturals are exactly the hands [1, 10] and [10, 1]. */
  lemma IsNaturalExactly(h: seq<Rank>)
    ensures IsNatural(h) <==> h == [1, 10] || h == [10, 1]
  {
    if IsNatural(h) {
      NaturalMultiset(h);
    }
    if h == [1, 10] || h == [10, 1] {
      assert h[1..] == [h[1]] && [h[1]][1..] == [];
      assert Sorted([h[1]]) == [h[1]];
    }
  }

  /** A hand whose multiset of ranks is {1, 10} is [1, 10] or [10, 1]. */
  lemma NaturalMultiset(h: seq<Rank>)
    requires multiset(h) == multiset([1, 10])
    ensures h == [1, 10] || h == [10, 1]
  {
    assert |h| == |multiset(h)| == 2;
    assert h == [h[0]] + [h[1]];
    assert multiset(h) == multiset{h[0]} + multiset{h[1]};
    assert h[0] in multiset(h);
    assert h[1] in multiset(h);
  }

  /** Only a two-card hand can be natural, and a natural totals 21. */
  lemma NaturalIsTwoCardTwentyOne(h: seq<Rank>)
    ensures IsNatural(h) ==> |h| == 2 && SumHand(h) == 21 && !IsBust(h)
  {
    IsNaturalExactly(h);
    if IsNatural(h) {
      TwoCardSum(h[0], h[1]);
      assert h == [h[0], h[1]];
    }
  }
}
