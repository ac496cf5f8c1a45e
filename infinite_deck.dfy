/** The infinite card source of the first two environments, and the dealer's
    stand-on-17 policy played against it.

    The environment's random generator is injected: an `Rng` holds the whole
    sequence of choices the seeded generator will make (`choices(k)` is the
    index into `DECK` that the k-th draw picks) and the number of draws made so
    far. Every contract below holds for every such sequence. */
module InfiniteDeck {
  import opened Hand

  /** The 13 card faces, ten-valued faces collapsed to rank 10. */
  const DECK: seq<Rank> := [1, 2, 3, 4, 5, 6, 7, 8, 9, 10, 10, 10, 10]

  type DeckIndex = i: int | 0 <= i < 13

  /** The injected random generator of an environment. */
  class Rng {
    const choices: nat -> DeckIndex
    var drawn: nat

    constructor (choices: nat -> DeckIndex)
      ensures this.choices == choices && drawn == 0
    {
      this.choices := choices;
      drawn := 0;
    }
  }

  /** The card that a generator with these choices deals as its k-th card. */
  function CardAt(choices: nat -> DeckIndex, k: nat): (c: Rank)
    ensures c in DECK
  {
    DECK[choices(k)]
  }

  /** The first nine faces are the ranks 1..9; the last four are ten-valued. */
  lemma CardAtFace(choices: nat -> DeckIndex, k: nat)
    ensures choices(k) < 9 ==> CardAt(choices, k) == choices(k) + 1
    ensures CardAt(choices, k) == 10 <==> choices(k) >= 9
  {
  }

  /** Draws one card: the face that the generator's next choice picks. */
  method DrawCard(rng: Rng) returns (c: Rank)
    modifies rng
    ensures c == CardAt(rng.choices, old(rng.drawn)) && c in DECK
    ensures rng.drawn == old(rng.drawn) + 1
  {
    c := DECK[rng.choices(rng.drawn)];
    rng.drawn := rng.drawn + 1;
  }

  /** Draws a two-card hand in drawing order. */
  method DrawHand(rng: Rng) returns (h: seq<Rank>)
    modifies rng
    ensures h == [CardAt(rng.choices, old(rng.drawn)), CardAt(rng.choices, old(rng.drawn) + 1)]
    ensures rng.drawn == old(rng.drawn) + 2
  {
    var a := DrawCard(rng);
    var b := DrawCard(rng);
    h := [a, b];
  }

  /** The dealer's hand after the stand-on-17 policy, starting from hand d with
      the generator's choices from index `next` on: cards are appended until
      the total reaches 17. The plain sum, which grows with every card, bounds
      the number of draws. */
  function DealerPlay(d: seq<Rank>, choices: nat -> DeckIndex, next: nat): (r: seq<Rank>)
    decreases 17 - Sum(d)
  {
    if SumHand(d) >= 17 then d
    else
      var c := CardAt(choices, next);
      SumAppend(d, c);
      DealerPlay(d + [c], choices, next + 1)
  }

  /** The dealer's final hand extends the starting hand and totals at least 17. */
  lemma {:induction false} DealerPlayExtends(d: seq<Rank>, choices: nat -> DeckIndex, next: nat)
    decreases 17 - Sum(d)
    ensures var r := DealerPlay(d, choices, next);
            |d| <= |r| && r[..|d|] == d && SumHand(r) >= 17
  {
    if SumHand(d) < 17 {
      var c := CardAt(choices, next);
      SumAppend(d, c);
      DealerPlayExtends(d + [c], choices, next + 1);
      var r := DealerPlay(d + [c], choices, next + 1);
      assert r[..|d|] == r[..|d| + 1][..|d|];
    }
  }

  /** The generator's next n cards from index `next` on, in drawing order. */
  function Draws(choices: nat -> DeckIndex, next: nat, n: nat): (s: seq<Rank>)
    decreases n
    ensures |s| == n
  {
    if n == 0 then [] else [CardAt(choices, next)] + Draws(choices, next + 1, n - 1)
  }

  /** The dealer draws exactly the generator's next cards, in order: the final
      hand is the starting hand followed by that many of them. */
  lemma {:induction false} DealerPlayCards(d: seq<Rank>, choices: nat -> DeckIndex, next: nat)
    decreases 17 - Sum(d)
    ensures |d| <= |DealerPlay(d, choices, next)|
    ensures DealerPlay(d, choices, next) ==
              d + Draws(choices, next, |DealerPlay(d, choices, next)| - |d|)
  {
    if SumHand(d) < 17 {
      var c := CardAt(choices, next);
      DealerPlayDraw(d, choices, next);
      DealerPlayCards(d + [c], choices, next + 1);
      var r := DealerPlay(d + [c], choices, next + 1);
      var n := |r| - |d|;
      var rest := Draws(choices, next + 1, n - 1);
      assert |r| - |d + [c]| == n - 1;
      assert r == d + [c] + rest;
      assert Draws(choices, next, n) == [c] + rest;
      assert d + [c] + rest == d + ([c] + rest);
    } else {
      assert Draws(choices, next, 0) == [];
    }
  }

  /** The dealer stops at the first total of 17 or more: every hand on the way
      totalled less, and a hand already at 17 draws nothing. */
  lemma {:induction false} DealerPlayStops(d: seq<Rank>, choices: nat -> DeckIndex, next: nat)
    decreases 17 - Sum(d)
    ensures SumHand(d) >= 17 ==> DealerPlay(d, choices, next) == d
    ensures DrewBelow17(d, DealerPlay(d, choices, next))
  {
    if SumHand(d) < 17 {
      var c := CardAt(choices, next);
      SumAppend(d, c);
      DealerPlayStops(d + [c], choices, next + 1);
      DealerPlayExtends(d + [c], choices, next + 1);
      var r := DealerPlay(d + [c], choices, next + 1);
      forall j | |d| <= j < |r| ensures SumHand(r[..j]) < 17 {
        if j == |d| {
          assert r[..j] == r[..|d| + 1][..|d|];
        }
      }
    }
  }

  /** A dealer hand that totals at most 26 still totals at most 26 after
      playing out: the last card is drawn on a plain sum of at most 16. */
  lemma {:induction false} DealerPlayBound(d: seq<Rank>, choices: nat -> DeckIndex, next: nat)
    requires SumHand(d) <= 26
    decreases 17 - Sum(d)
    ensures 17 <= SumHand(DealerPlay(d, choices, next)) <= 26
  {
    if SumHand(d) < 17 {
      var c := CardAt(choices, next);
      SumAppend(d, c);
      DealerPlayBound(d + [c], choices, next + 1);
    }
  }

  /** Below 17 the dealer takes the generator's next card and plays on. */
  lemma DealerPlayDraw(d: seq<Rank>, choices: nat -> DeckIndex, next: nat)
    requires SumHand(d) < 17
    ensures Sum(d + [CardAt(choices, next)]) > Sum(d)
    ensures DealerPlay(d, choices, next) == DealerPlay(d + [CardAt(choices, next)], choices, next + 1)
  {
    SumAppend(d, CardAt(choices, next));
  }

  /** Plays the dealer's hand out from the generator. */
  method PlayDealer(dealer: seq<Rank>, rng: Rng) returns (d: seq<Rank>)
    modifies rng
    ensures d == DealerPlay(dealer, rng.choices, old(rng.drawn))
    ensures rng.drawn == old(rng.drawn) + |d| - |dealer|
  {
    ghost var start := rng.drawn;
    d := dealer;
    while SumHand(d) < 17
      invariant |dealer| <= |d| && rng.drawn == start + |d| - |dealer|
      invariant DealerPlay(d, rng.choices, rng.drawn) == DealerPlay(dealer, rng.choices, start)
      decreases 17 - Sum(d)
    {
      d := DealerHit(d, rng);
    }
    DealerPlayStops(d, rng.choices, rng.drawn);
  }

  /** One draw of the dealer below 17: the generator's next card joins the
      hand, and the hand still plays out to the same final hand. */
  method DealerHit(d: seq<Rank>, rng: Rng) returns (e: seq<Rank>)
    requires SumHand(d) < 17
    modifies rng
    ensures e == d + [CardAt(rng.choices, old(rng.drawn))] && Sum(e) > Sum(d)
    ensures rng.drawn == old(rng.drawn) + 1
    ensures DealerPlay(e, rng.choices, rng.drawn) == DealerPlay(d, rng.choices, old(rng.drawn))
  {
    DealerPlayDraw(d, rng.choices, rng.drawn);
    var c := DrawCard(rng);
    e := d + [c];
  }
}
