/** The finite shoe of the third environment: per-rank remaining counts, the
    number of cards left, and a running card-counting value.

    `cards[i]` is the number of cards of rank i + 1 still in the shoe. The
    running value moves by the weight of every card drawn; since the full
    composition weighs 0, it always equals the weight of the cards that are
    still in the shoe, which is what `Valid` records. */
module Shoe {
  import opened Hand

  /** The composition of a fresh shoe: four of each rank 1..9 and sixteen
      ten-valued cards, 52 in all. */
  const FULL: seq<int> := [4, 4, 4, 4, 4, 4, 4, 4, 4, 16]

  /** The counting weight of each rank; rank r weighs CARD_VALUES[r - 1]. */
  const CARD_VALUES: seq<int> := [0, 1, 1, 2, 2, 1, 1, 0, 0, -2]

  /** The lowest running value a shoe can reach; the reported value is offset
      by it so that it is never negative. */
  const MIN_VALUE: int := -32

  /** The counting weight of a card: +1 or +2 for the low cards 2..7, 0 for
      aces, 8 and 9, and -2 for the ten-valued cards. */
  function CardValue(card: Rank): (v: int)
    ensures -2 <= v <= 2
    ensures v < 0 <==> card == 10
    ensures v == 0 <==> card in {1, 8, 9}
  {
    CARD_VALUES[card - 1]
  }

  /** The number of cards described by a list of per-rank counts. */
  function Total(cards: seq<int>): (n: int)
    ensures (forall i :: 0 <= i < |cards| ==> cards[i] >= 0) ==> n >= 0
  {
    if cards == [] then 0 else Total(cards[..|cards| - 1]) + cards[|cards| - 1]
  }

  /** The counting weight of the cards described by per-rank counts (the
      counts of the first |cards| ranks). */
  function Weight(cards: seq<int>): (w: int)
    requires |cards| <= 10
  {
    if cards == [] then 0
    else Weight(cards[..|cards| - 1]) + CARD_VALUES[|cards| - 1] * cards[|cards| - 1]
  }

  /** Counts that a shoe can hold: one per rank, none negative and none above
      the fresh shoe's count. */
  ghost predicate InShoe(cards: seq<int>) {
    |cards| == 10 && forall i :: 0 <= i < 10 ==> 0 <= cards[i] <= FULL[i]
  }

  /** The counts after one card of the given rank leaves the shoe. */
  function Remove(cards: seq<int>, card: Rank): (r: seq<int>)
    requires |cards| == 10
    ensures |r| == 10
  {
    cards[card - 1 := cards[card - 1] - 1]
  }

  /** The counts after the given cards, in order, leave the shoe. */
  function RemoveAll(cards: seq<int>, drawn: seq<Rank>): (r: seq<int>)
    requires |cards| == 10
    ensures |r| == 10
    ensures Total(r) == Total(cards) - |drawn|
  {
    if drawn == [] then cards
    else
      var before := RemoveAll(cards, drawn[..|drawn| - 1]);
      var card := drawn[|drawn| - 1];
      UpdateEffect(before, (card as int) - 1, before[card - 1] - 1);
      Remove(before, card)
  }

  lemma RemoveAllAppend(cards: seq<int>, drawn: seq<Rank>, card: Rank)
    requires |cards| == 10
    ensures RemoveAll(cards, drawn + [card]) == Remove(RemoveAll(cards, drawn), card)
  {
    assert (drawn + [card])[..|drawn|] == drawn;
  }

  /** Changing the count of one rank changes the number of cards by the
      difference and the weight by that rank's weight times the difference. */
  lemma {:induction false} UpdateEffect(cards: seq<int>, k: nat, v: int)
    requires k < |cards| <= 10
    ensures Total(cards[k := v]) == Total(cards) + v - cards[k]
    ensures Weight(cards[k := v]) == Weight(cards) + CARD_VALUES[k] * (v - cards[k])
  {
    var n := |cards| - 1;
    var u := cards[k := v];
    assert u[..n] == if k < n then cards[..n][k := v] else cards[..n];
    if k < n {
      UpdateEffect(cards[..n], k, v);
    }
  }

  /** Setting one count to a value the fresh shoe allows keeps a shoe. */
  lemma InShoeUpdate(cards: seq<int>, k: nat, v: int)
    requires InShoe(cards) && k < 10 && 0 <= v <= FULL[k]
    ensures InShoe(cards[k := v])
  {
    forall i | 0 <= i < 10 ensures 0 <= cards[k := v][i] <= FULL[i] {
      if i != k {
        assert cards[k := v][i] == cards[i];
      }
    }
  }

  /** Drawing a card of a rank that has cards left keeps a shoe, with one
      card fewer and that card's weight less. */
  lemma RemoveEffect(cards: seq<int>, card: Rank)
    requires InShoe(cards) && cards[card - 1] > 0
    ensures InShoe(Remove(cards, card))
    ensures Total(Remove(cards, card)) == Total(cards) - 1
    ensures Weight(Remove(cards, card)) == Weight(cards) - CardValue(card)
  {
    UpdateEffect(cards, card - 1, cards[card - 1] - 1);
    InShoeUpdate(cards, card - 1, cards[card - 1] - 1);
  }

  /** The fresh shoe holds 52 cards and weighs 0: the low cards weigh 32 and
      the sixteen tens weigh -32. */
  lemma FullComposition()
    ensures Total(FULL) == 52
    ensures Weight(FULL[..9]) == 32
    ensures Weight(FULL) == 0
    ensures InShoe(FULL)
  {
    assert FULL[..1] == [4] && FULL[..1][..0] == [];
    assert Total(FULL[..1]) == Total(FULL[..1][..0]) + 4;
    assert Weight(FULL[..1]) == 0 && Total(FULL[..1]) == 4;
    assert FULL[..2][..1] == FULL[..1];
    assert Weight(FULL[..2]) == 4 && Total(FULL[..2]) == 8;
    assert FULL[..3][..2] == FULL[..2];
    assert Weight(FULL[..3]) == 8 && Total(FULL[..3]) == 12;
    assert FULL[..4][..3] == FULL[..3];
    assert Weight(FULL[..4]) == 16 && Total(FULL[..4]) == 16;
    assert FULL[..5][..4] == FULL[..4];
    assert Weight(FULL[..5]) == 24 && Total(FULL[..5]) == 20;
    assert FULL[..6][..5] == FULL[..5];
    assert Weight(FULL[..6]) == 28 && Total(FULL[..6]) == 24;
    assert FULL[..7][..6] == FULL[..6];
    assert Weight(FULL[..7]) == 32 && Total(FULL[..7]) == 28;
    assert FULL[..8][..7] == FULL[..7];
    assert Weight(FULL[..8]) == 32 && Total(FULL[..8]) == 32;
    assert FULL[..9][..8] == FULL[..8];
    assert Weight(FULL[..9]) == 32 && Total(FULL[..9]) == 36;
    assert FULL[..10] == FULL;
  }

  /** On the ranks whose weight is not negative, fewer cards never weigh more. */
  lemma {:induction false} WeightMonotone(a: seq<int>, b: seq<int>)
    requires |a| == |b| <= 9
    requires forall i :: 0 <= i < |a| ==> 0 <= a[i] <= b[i]
    ensures 0 <= Weight(a) <= Weight(b)
  {
    if a != [] {
      var n := |a| - 1;
      WeightMonotone(a[..n], b[..n]);
      var w := CARD_VALUES[n];
      assert 0 <= w;
      assert w * a[n] <= w * b[n] by {
        assert w * b[n] - w * a[n] == w * (b[n] - a[n]);
      }
    }
  }

  /** The weight of any shoe lies in [-32, 32], so the reported value
      `weight - MIN_VALUE` lies in [0, 64]. */
  lemma {:induction false} WeightBounds(cards: seq<int>)
    requires InShoe(cards)
    ensures -32 <= Weight(cards) <= 32
  {
    FullComposition();
    WeightMonotone(cards[..9], FULL[..9]);
    assert Weight(cards) == Weight(cards[..9]) - 2 * cards[9];
  }

  /** Counts that are never negative and add up to a positive number hold a
      rank with a card left. */
  lemma {:induction false} SomeRankLeft(cards: seq<int>)
    requires forall i :: 0 <= i < |cards| ==> cards[i] >= 0
    requires Total(cards) > 0
    ensures exists i :: 0 <= i < |cards| && cards[i] > 0
  {
    var n := |cards| - 1;
    if cards[n] <= 0 {
      SomeRankLeft(cards[..n]);
      var i :| 0 <= i < n && cards[..n][i] > 0;
      assert cards[i] > 0;
    }
  }

  class Deck {
    var cards: seq<int>
    /** The number of cards left (`_deck_count`). */
    var count: int
    /** The running counting value (`_deck_value`). */
    var runningValue: int

    ghost predicate Valid()
      reads this
    {
      InShoe(cards) && count == Total(cards) && runningValue == Weight(cards)
    }

    constructor ()
      ensures Valid()
      ensures cards == FULL && count == 52 && runningValue == 0
    {
      cards := FULL;
      count := 52;
      runningValue := 0;
      FullComposition();
    }

    /** Puts every card back: the shoe is fresh again. */
    method ResetDeck()
      modifies this
      ensures Valid()
      ensures cards == FULL && count == 52 && runningValue == 0
    {
      cards := FULL;
      count := 52;
      runningValue := 0;
      FullComposition();
    }

    /** Draws a card of some rank that still has cards left (which one is not
        determined here: the source picks uniformly among such ranks). Exactly
        that rank's count drops by one, one card fewer is left, and the running
        value drops by the card's weight. */
    method DrawCard() returns (card: Rank)
      requires Valid() && DeckCount() > 0
      modifies this
      ensures Valid()
      ensures old(cards)[card - 1] > 0
      ensures cards == Remove(old(cards), card)
      ensures count == old(count) - 1
      ensures runningValue == old(runningValue) - CardValue(card)
    {
      SomeRankLeft(cards);
      var i :| 0 <= i < |cards| && cards[i] > 0;
      card := i + 1;
      RemoveEffect(cards, card);
      cards := Remove(cards, card);
      count := count - 1;
      runningValue := runningValue - CardValue(card);
    }

    /** The reported counting value, offset to be non-negative: it always lies
        in the observation range 0..64. */
    function DeckValue(): (v: int)
      reads this
      requires Valid()
      ensures 0 <= v <= 64
      ensures v == Weight(cards) + 32
    {
      WeightBounds(cards);
      runningValue - MIN_VALUE
    }

    /** The number of cards left, which is the sum of the per-rank counts; it
        is 0 exactly when no rank has a card left. */
    function DeckCount(): (n: int)
      reads this
      requires Valid()
      ensures 0 <= n <= 52
      ensures n == 0 <==> forall i :: 0 <= i < 10 ==> cards[i] == 0
    {
      CountBounds(cards);
      count
    }
  }

  /** A shoe holds between 0 and 52 cards, and none exactly when every count
      is 0. */
  lemma {:induction false} CountBounds(cards: seq<int>)
    requires InShoe(cards)
    ensures 0 <= Total(cards) <= 52
    ensures Total(cards) == 0 <==> forall i :: 0 <= i < 10 ==> cards[i] == 0
  {
    FullComposition();
    TotalMonotone(cards, FULL);
    if Total(cards) > 0 {
      SomeRankLeft(cards);
    } else {
      TotalZero(cards);
    }
  }

  lemma {:induction false} TotalMonotone(a: seq<int>, b: seq<int>)
    requires |a| == |b|
    requires forall i :: 0 <= i < |a| ==> 0 <= a[i] <= b[i]
    ensures 0 <= Total(a) <= Total(b)
  {
    if a != [] {
      TotalMonotone(a[..|a| - 1], b[..|b| - 1]);
    }
  }

  lemma {:induction false} TotalZero(cards: seq<int>)
    requires forall i :: 0 <= i < |cards| ==> cards[i] >= 0
    requires Total(cards) == 0
    ensures forall i :: 0 <= i < |cards| ==> cards[i] == 0
  {
    if cards != [] {
      var n := |cards| - 1;
      TotalMonotone(cards[..n], cards[..n]);
      TotalZero(cards[..n]);
      assert forall i :: 0 <= i < n ==> cards[i] == cards[..n][i];
    }
  }
}
