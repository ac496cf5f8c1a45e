/** `BlackjackEnvDoubleDeck`: hit (1), stand (0) and double-down (2) dealt from
    a finite shoe that persists across episodes and is refilled at `Reset` when
    fewer than 15 cards are left. Its observation adds the shoe's counting
    value and whether the dealer's hole card is still unknown. While it is
    unknown, the hole card's weight is added back, so the reported value is the
    count of the cards the player has not seen and does not depend on the hole
    card's rank.

    Drawing from an empty shoe raises in the source (a choice over an empty
    list); here `Step` reports it as the outcome `ShoeEmpty` and leaves the
    hands as they were at that moment. */
module DeckEnv {
  import opened Hand
  import opened Payout
  import opened Shoe

  /** An observation: the player's total, the dealer's face-up card, whether
      the player holds a usable ace, the counting value, and whether the
      dealer's hole card is still unknown. */
  datatype DeckObs = DeckObs(playerTotal: int, dealerCard: Rank, usableAce: bool,
                             knownValue: int, unknownDealer: bool)

  /** The declared observation space:
      Discrete(32) x Discrete(11) x Discrete(2) x Discrete(65) x Discrete(2). */
  predicate InObservationSpace(o: DeckObs) {
    0 <= o.playerTotal < 32 && 0 <= o.dealerCard < 11 && 0 <= o.knownValue < 65
  }

  /** What a step returns, or the failure of a draw from an empty shoe. */
  datatype StepOutcome = Stepped(obs: DeckObs, reward: real, done: bool) | ShoeEmpty

  /** The counts with one card of the given rank back in the shoe. */
  function PutBack(cards: seq<int>, card: Rank): (r: seq<int>)
    requires |cards| == 10
    ensures |r| == 10 && Remove(r, card) == cards
  {
    cards[card - 1 := cards[card - 1] + 1]
  }

  /** The last card of a non-empty hand. */
  function Last(h: seq<Rank>): (c: Rank)
    requires |h| >= 1
  {
    h[|h| - 1]
  }

  class BlackjackEnvDoubleDeck {
    var player: seq<Rank>
    var dealer: seq<Rank>
    /** Pay 1.5 for a winning natural, as casino rules do. */
    const natural: bool
    const deck: Deck

    ghost predicate Valid()
      reads this, deck
    {
      deck.Valid()
    }

    /** The dealer's hole card was drawn from the shoe as it is now, so the
        shoe is short of at least one card of that rank. */
    ghost predicate HoleCardDrawn()
      reads this, deck
      requires Valid() && |dealer| >= 2
    {
      deck.cards[dealer[1] - 1] < FULL[dealer[1] - 1]
    }

    /** An episode is under way: both hands are dealt from the current shoe. */
    ghost predicate Dealt()
      reads this, deck
    {
      Valid() && |player| >= 2 && |dealer| >= 2 && HoleCardDrawn()
    }

    /** A fresh environment holds a fresh shoe and no hands; `Reset` must run
        before the first `Step` or observation. */
    constructor (natural: bool)
      ensures Valid() && fresh(deck) && this.natural == natural
      ensures player == [] && dealer == []
      ensures deck.cards == FULL && deck.count == 52 && deck.runningValue == 0
    {
      this.natural := natural;
      deck := new Deck();
      player := [];
      dealer := [];
    }

    /** The observation of the current state. While the hole card is unknown,
        the counting value is that of the shoe with the hole card put back;
        otherwise it is the shoe's own value. Either way it lies in 0..64. */
    function GetObs(unknownDealer: bool): (o: DeckObs)
      reads this, deck
      requires Valid() && |dealer| >= 1
      requires unknownDealer ==> |dealer| >= 2
      ensures o.playerTotal == SumHand(player) && o.dealerCard == dealer[0]
      ensures o.usableAce == UsableAce(player)
      ensures o.unknownDealer == unknownDealer
      ensures unknownDealer ==> o.knownValue == Weight(PutBack(deck.cards, dealer[1])) + 32
      ensures !unknownDealer ==> o.knownValue == Weight(deck.cards) + 32
      ensures (unknownDealer ==> HoleCardDrawn()) ==> 0 <= o.knownValue <= 64
    {
      var v := deck.DeckValue();
      var known :=
        if unknownDealer then
          HoleCardHidden(deck.cards, dealer[1]);
          v + CardValue(dealer[1])
        else v;
      DeckObs(SumHand(player), dealer[0], UsableAce(player), known, unknownDealer)
    }

    /** Starts an episode. The shoe is refilled first when fewer than 15 cards
        are left; then the dealer and the player each get a card, twice, in
        that order, so four cards leave the shoe. */
    method Reset() returns (obs: DeckObs)
      requires Valid()
      modifies this, deck
      ensures Dealt() && |dealer| == 2 && |player| == 2
      ensures var base := if old(deck.count) < 15 then FULL else old(deck.cards);
              deck.cards == RemoveAll(base, [dealer[0], player[0], dealer[1], player[1]])
      ensures deck.count == (if old(deck.count) < 15 then 52 else old(deck.count)) - 4
      ensures var base := if old(deck.count) < 15 then FULL else old(deck.cards);
              PutBack(deck.cards, dealer[1]) == RemoveAll(base, [dealer[0], player[0], player[1]])
      ensures !IsBust(player)
      ensures obs == GetObs(true) && InObservationSpace(obs)
    {
      dealer := [];
      player := [];
      if deck.DeckCount() < 15 {
        deck.ResetDeck();
      }
      ghost var base := deck.cards;
      Deal();
      HiddenValueIgnoresHoleRank(base, [dealer[0], player[0]], [player[1]], dealer[1], dealer[1]);
      assert [dealer[0], player[0]] + [dealer[1]] + [player[1]] == [dealer[0], player[0], dealer[1], player[1]];
      assert [dealer[0], player[0]] + [player[1]] == [dealer[0], player[0], player[1]];
      TwoCardsNotBust(player[0], player[1]);
      assert player == [player[0], player[1]];
      obs := GetObs(true);
    }

    /** Deals two rounds, one card to the dealer and then one to the player. */
    method Deal()
      requires Valid() && deck.count >= 15 && dealer == [] && player == []
      modifies this`dealer, this`player, deck
      ensures Dealt() && |dealer| == 2 && |player| == 2
      ensures deck.cards == RemoveAll(old(deck.cards), [dealer[0], player[0], dealer[1], player[1]])
      ensures deck.count == old(deck.count) - 4
    {
      ghost var cards0 := deck.cards;
      ghost var count0 := deck.count;
      ghost var drawn: seq<Rank> := [];
      for k := 0 to 2
        invariant Valid() && |dealer| == k && |player| == k
        invariant deck.count == count0 - 2 * k
        invariant deck.cards == RemoveAll(cards0, drawn)
        invariant k == 0 ==> drawn == []
        invariant k == 1 ==> drawn == [dealer[0], player[0]]
        invariant k == 2 ==> drawn == [dealer[0], player[0], dealer[1], player[1]]
        invariant k == 2 ==> HoleCardDrawn()
      {
        var d, p := DealRound();
        RemoveAllConcat(cards0, drawn, [d, p]);
        drawn := drawn + [d, p];
      }
      assert cards0 == old(deck.cards) && count0 == old(deck.count);
    }

    /** One round of the deal: a card to the dealer, then one to the player.
        The shoe is left short of the dealer's card's rank. */
    method DealRound() returns (d: Rank, p: Rank)
      requires Valid() && deck.count >= 2
      modifies this`dealer, this`player, deck
      ensures Valid()
      ensures dealer == old(dealer) + [d] && player == old(player) + [p]
      ensures deck.cards == RemoveAll(old(deck.cards), [d, p])
      ensures deck.count == old(deck.count) - 2
      ensures deck.cards[d - 1] < FULL[d - 1]
    {
      d := deck.DrawCard();
      dealer := dealer + [d];
      ghost var middle := deck.cards;
      p := deck.DrawCard();
      player := player + [p];
      assert deck.cards[d - 1] <= middle[d - 1] < old(deck.cards)[d - 1] <= FULL[d - 1];
      RemoveAllAppend(old(deck.cards), [d], p);
      assert [d] + [p] == [d, p];
      assert RemoveAll(old(deck.cards), [d]) == middle by {
        assert [d][..0] == [];
      }
    }

    /** The dealer draws while the hand totals less than 17. On success the
        dealer stands at the first total of 17 or more; if the shoe runs dry
        first, `ok` is false and the shoe is empty. The cards drawn are the
        ones appended to the dealer's hand. */
    method PlayDealer() returns (ok: bool)
      requires Dealt()
      modifies this`dealer, deck
      ensures Dealt()
      ensures |old(dealer)| <= |dealer| && dealer[..|old(dealer)|] == old(dealer)
      ensures deck.cards == RemoveAll(old(deck.cards), dealer[|old(dealer)|..])
      ensures DrewBelow17(old(dealer), dealer)
      ensures ok ==> SumHand(dealer) >= 17
      ensures !ok ==> deck.count == 0 && SumHand(dealer) < 17
      ensures SumHand(old(dealer)) <= 26 ==> SumHand(dealer) <= 26
    {
      ghost var d0 := dealer;
      ghost var cards0 := deck.cards;
      ghost var drawn: seq<Rank> := [];
      ok := true;
      while SumHand(dealer) < 17
        invariant Dealt()
        invariant dealer == d0 + drawn
        invariant deck.cards == RemoveAll(cards0, drawn)
        invariant DrewBelow17(d0, dealer)
        invariant SumHand(d0) <= 26 ==> SumHand(dealer) <= 26
        decreases 17 - Sum(dealer)
      {
        if deck.DeckCount() == 0 {
          ok := false;
          break;
        }
        ghost var prev := dealer;
        var c := DealerDraw();
        RemoveAllAppend(cards0, drawn, c);
        SumAppend(prev, c);
        DrewBelow17Append(d0, prev, c);
        drawn := drawn + [c];
      }
      assert d0 == old(dealer) && cards0 == old(deck.cards);
      assert dealer[|d0|..] == drawn;
      assert dealer[..|d0|] == d0;
      assert deck.cards == RemoveAll(old(deck.cards), dealer[|old(dealer)|..]);
      assert DrewBelow17(old(dealer), dealer);
    }

    /** One dealer draw: the card leaves the shoe and joins the dealer's hand. */
    method DealerDraw() returns (c: Rank)
      requires Dealt() && deck.DeckCount() > 0
      modifies this`dealer, deck
      ensures Dealt()
      ensures dealer == old(dealer) + [c]
      ensures deck.cards == Remove(old(deck.cards), c)
    {
      c := deck.DrawCard();
      dealer := dealer + [c];
      assert dealer[1] == old(dealer)[1];
    }

    /** The outcome of a hit (see `Hit`). */
    twostate predicate HitOutcome(out: StepOutcome)
      reads this, deck
    {
      && old(Dealt()) && Dealt()
      && dealer == old(dealer)
      && (out.ShoeEmpty? <==> old(deck.count) == 0)
      && (out.ShoeEmpty? ==> player == old(player) && deck.cards == old(deck.cards))
      && (out.Stepped? ==>
            && |player| == |old(player)| + 1 && player[..|old(player)|] == old(player)
            && old(deck.cards)[Last(player) - 1] > 0
            && deck.cards == Remove(old(deck.cards), Last(player))
            && out.done == IsBust(player)
            && out.reward == (if out.done then -1.0 else 0.0)
            && out.obs == GetObs(true))
    }

    /** The outcome of a stand (see `Stand`). */
    twostate predicate StandOutcome(out: StepOutcome)
      reads this, deck
    {
      && old(Dealt()) && Dealt()
      && player == old(player)
      && |old(dealer)| <= |dealer| && dealer[..|old(dealer)|] == old(dealer)
      && deck.cards == RemoveAll(old(deck.cards), dealer[|old(dealer)|..])
      && DrewBelow17(old(dealer), dealer)
      && (out.ShoeEmpty? ==> deck.count == 0 && SumHand(dealer) < 17)
      && (out.Stepped? ==>
            && SumHand(dealer) >= 17
            && out.done
            && out.reward == Settle(natural, player, dealer)
            && out.obs == GetObs(false))
    }

    /** The outcome of a double-down (see `DoubleDown`). */
    twostate predicate DoubleOutcome(out: StepOutcome)
      reads this, deck
    {
      && old(Dealt()) && Dealt()
      && (old(deck.count) == 0 ==>
            out.ShoeEmpty? && player == old(player) && dealer == old(dealer) &&
            deck.cards == old(deck.cards))
      && (old(deck.count) != 0 ==>
            && |player| == |old(player)| + 1 && player[..|old(player)|] == old(player)
            && old(deck.cards)[Last(player) - 1] > 0
            && |old(dealer)| <= |dealer| && dealer[..|old(dealer)|] == old(dealer)
            && deck.cards == RemoveAll(old(deck.cards), [Last(player)] + dealer[|old(dealer)|..])
            && DrewBelow17(old(dealer), dealer)
            && (IsBust(player) ==> dealer == old(dealer) && out.Stepped?))
      && (out.ShoeEmpty? ==>
            && deck.count == 0
            && (old(deck.count) == 0 || (!IsBust(player) && SumHand(dealer) < 17)))
      && (out.Stepped? ==>
            && out.done
            && (!IsBust(player) ==> SumHand(dealer) >= 17)
            && out.reward == SettleDouble(natural, player, dealer)
            && out.reward in {-2.0, -1.0, 0.0, 2.0}
            && out.obs == GetObs(true))
    }

    /** Hit (1): one card from the shoe goes to the player; the episode ends
        exactly when that busts the player, with reward -1, else reward 0. */
    method Hit() returns (out: StepOutcome)
      requires Dealt()
      modifies this`player, deck
      ensures HitOutcome(out)
    {
      if deck.DeckCount() == 0 {
        return ShoeEmpty;
      }
      var c := deck.DrawCard();
      player := player + [c];
      assert player[..|old(player)|] == old(player);
      var done, reward;
      if IsBust(player) {
        done := true;
        reward := -1.0;
      } else {
        done := false;
        reward := 0.0;
      }
      out := Stepped(GetObs(true), reward, done);
    }

    /** Stand (0): the dealer plays out and the hand is settled; the hole card
        is no longer unknown. */
    method Stand() returns (out: StepOutcome)
      requires Dealt()
      modifies this`dealer, deck
      ensures StandOutcome(out)
    {
      var ok := PlayDealer();
      if !ok {
        return ShoeEmpty;
      }
      var reward := Settle(natural, player, dealer);
      out := Stepped(GetObs(false), reward, true);
    }

    /** Double (2): the player takes exactly one card and the episode ends. A
        bust pays -1 (not doubled) and the dealer does not play; otherwise the
        dealer plays out and the settled reward is doubled. The observation
        still reports the hole card as unknown, even when the dealer played. */
    method DoubleDown() returns (out: StepOutcome)
      requires Dealt()
      modifies this, deck
      ensures DoubleOutcome(out)
    {
      if deck.DeckCount() == 0 {
        return ShoeEmpty;
      }
      ghost var cards0 := deck.cards;
      var c := deck.DrawCard();
      player := player + [c];
      assert player[..|old(player)|] == old(player);
      assert Remove(cards0, c) == RemoveAll(cards0, [c]) by {
        assert [c][..0] == [];
      }
      var reward;
      if IsBust(player) {
        reward := -1.0;
        assert dealer[|old(dealer)|..] == [];
        assert [c] + dealer[|old(dealer)|..] == [c];
      } else {
        var ok := PlayDealer();
        RemoveAllConcat(cards0, [c], dealer[|old(dealer)|..]);
        if !ok {
          return ShoeEmpty;
        }
        reward := Settle(natural, player, dealer);
        reward := reward * 2.0;
      }
      SettleDoubleValues(natural, player, dealer);
      out := Stepped(GetObs(true), reward, true);
    }

    /** One step of the episode. From a hand that is not bust, every
        observation it returns lies in the declared observation space. */
    method Step(action: int) returns (out: StepOutcome)
      requires Dealt() && 0 <= action < 3
      modifies this, deck
      ensures Dealt()
      ensures action == 1 ==> HitOutcome(out)
      ensures action == 0 ==> StandOutcome(out)
      ensures action == 2 ==> DoubleOutcome(out)
      ensures out.Stepped? ==> out.obs.unknownDealer == (action != 0)
      ensures out.Stepped? && !IsBust(old(player)) ==> InObservationSpace(out.obs)
    {
      if action == 1 {
        out := Hit();
        if out.Stepped? && !IsBust(old(player)) {
          ExtendedTotalBound(old(player), player);
        }
      } else if action == 0 {
        out := Stand();
      } else {
        out := DoubleDown();
        if out.Stepped? && !IsBust(old(player)) {
          ExtendedTotalBound(old(player), player);
        }
      }
    }
  }

  /** Putting one card back raises the weight by the card's weight; when the
      shoe is short of that rank, the result is still a shoe, so its weight
      stays in [-32, 32]. Adding the hole card's weight to the shoe's value
      therefore reports the shoe with the hole card hidden again, not the
      hole card itself. */
  lemma {:induction false} HoleCardHidden(cards: seq<int>, hole: Rank)
    requires InShoe(cards)
    ensures Weight(PutBack(cards, hole)) == Weight(cards) + CardValue(hole)
    ensures cards[hole - 1] < FULL[hole - 1] ==> -32 <= Weight(PutBack(cards, hole)) <= 32
  {
    var k := hole - 1;
    var p := PutBack(cards, hole);
    assert p == cards[k := cards[k] + 1];
    UpdateEffect(cards, k, cards[k] + 1);
    assert CardValue(hole) == CARD_VALUES[k];
    if cards[k] < FULL[k] {
      InShoeUpdate(cards, k, cards[k] + 1);
      WeightBounds(p);
    }
  }

  /** Removing two cards from the shoe in either order leaves the same counts. */
  lemma RemoveCommutes(cards: seq<int>, a: Rank, b: Rank)
    requires |cards| == 10
    ensures Remove(Remove(cards, a), b) == Remove(Remove(cards, b), a)
  {
  }

  /** A card drawn in the middle of a run leaves the same counts as the rest
      of the run followed by that card. */
  lemma {:induction false} RemoveAllMiddle(cards: seq<int>, before: seq<Rank>, c: Rank, later: seq<Rank>)
    requires |cards| == 10
    ensures RemoveAll(cards, before + [c] + later) == Remove(RemoveAll(cards, before + later), c)
  {
    if later == [] {
      assert before + [c] + later == before + [c];
      assert before + later == before;
      RemoveAllAppend(cards, before, c);
    } else {
      var n := |later| - 1;
      var x := later[n];
      RemoveAllMiddle(cards, before, c, later[..n]);
      assert before + [c] + later == (before + [c] + later[..n]) + [x];
      assert before + later == (before + later[..n]) + [x];
      RemoveAllAppend(cards, before + [c] + later[..n], x);
      RemoveAllAppend(cards, before + later[..n], x);
      RemoveCommutes(RemoveAll(cards, before + later[..n]), c, x);
    }
  }

  /** Whenever the hole card was drawn, with any cards drawn before and after
      it, putting it back gives the shoe with only the other cards drawn. So
      the value reported while the hole card is unknown is the same whatever
      the hole card's rank. */
  lemma HiddenValueIgnoresHoleRank(base: seq<int>, before: seq<Rank>, later: seq<Rank>, a: Rank, b: Rank)
    requires |base| == 10
    ensures PutBack(RemoveAll(base, before + [a] + later), a) == RemoveAll(base, before + later)
    ensures Weight(PutBack(RemoveAll(base, before + [a] + later), a)) ==
            Weight(PutBack(RemoveAll(base, before + [b] + later), b))
  {
    var rest := RemoveAll(base, before + later);
    RemoveAllMiddle(base, before, a, later);
    RemoveAllMiddle(base, before, b, later);
    PutBackRemove(rest, a);
    PutBackRemove(rest, b);
  }

  /** Putting a removed card back restores the counts. */
  lemma PutBackRemove(cards: seq<int>, card: Rank)
    requires |cards| == 10
    ensures PutBack(Remove(cards, card), card) == cards
  {
  }

  /** Removing two runs of cards one after the other removes their
      concatenation. */
  lemma {:induction false} RemoveAllConcat(cards: seq<int>, a: seq<Rank>, b: seq<Rank>)
    requires |cards| == 10
    ensures RemoveAll(cards, a + b) == RemoveAll(RemoveAll(cards, a), b)
  {
    if b != [] {
      var n := |b| - 1;
      RemoveAllConcat(cards, a, b[..n]);
      assert (a + b)[..|a + b| - 1] == a + b[..n];
    } else {
      assert a + b == a;
    }
  }
}
