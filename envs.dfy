/** The two environments that draw from the infinite deck: `BlackjackEnv`
    (stand = 0, hit = 1) and `BlackjackEnvDouble` (adds double-down = 2).
    Each owns the player's and the dealer's hand, which `Reset` deals fresh
    and `Step` extends in place. */
module Envs {
  import opened Hand
  import opened Payout
  import opened InfiniteDeck

  /** An observation: the player's total, the dealer's face-up card and
      whether the player holds a usable ace. */
  datatype Obs = Obs(playerTotal: int, dealerCard: Rank, usableAce: bool)

  /** The declared observation space: Discrete(32) x Discrete(11) x Discrete(2). */
  predicate InObservationSpace(o: Obs) {
    0 <= o.playerTotal < 32 && 0 <= o.dealerCard < 11
  }

  class BlackjackEnv {
    var player: seq<Rank>
    var dealer: seq<Rank>
    /** Pay 1.5 for a winning natural, as casino rules do. */
    const natural: bool
    /** The injected random generator; seeding it is the caller's concern. */
    const rng: Rng

    /** Both hands have been dealt (true from the first `Reset` on). */
    ghost predicate Dealt()
      reads this
    {
      |player| >= 2 && |dealer| >= 2
    }

    /** Builds the environment and starts the first episode. */
    constructor (natural: bool, rng: Rng)
      modifies rng
      ensures this.natural == natural && this.rng == rng && Dealt()
      ensures dealer == [CardAt(rng.choices, old(rng.drawn)), CardAt(rng.choices, old(rng.drawn) + 1)]
      ensures player == [CardAt(rng.choices, old(rng.drawn) + 2), CardAt(rng.choices, old(rng.drawn) + 3)]
      ensures rng.drawn == old(rng.drawn) + 4
    {
      this.natural := natural;
      this.rng := rng;
      new;
      var _ := Reset();
    }

    /** The observation of the current state. */
    function GetObs(): (o: Obs)
      reads this
      requires |dealer| >= 1
      ensures o.dealerCard == dealer[0] && o.playerTotal == SumHand(player)
      ensures o.usableAce == UsableAce(player)
      ensures !IsBust(player) ==> InObservationSpace(o) && o.playerTotal <= 21
    {
      SumBounds(player);
      Obs(SumHand(player), dealer[0], UsableAce(player))
    }

    /** Starts an episode: two cards to the dealer, then two to the player. */
    method Reset() returns (obs: Obs)
      modifies this, rng
      ensures dealer == [CardAt(rng.choices, old(rng.drawn)), CardAt(rng.choices, old(rng.drawn) + 1)]
      ensures player == [CardAt(rng.choices, old(rng.drawn) + 2), CardAt(rng.choices, old(rng.drawn) + 3)]
      ensures rng.drawn == old(rng.drawn) + 4
      ensures Dealt() && !IsBust(player) && obs == GetObs() && InObservationSpace(obs)
    {
      dealer := DrawHand(rng);
      player := DrawHand(rng);
      TwoCardsNotBust(player[0], player[1]);
      assert player == [player[0], player[1]];
      obs := GetObs();
    }

    /** Hit (1) adds one card to the player's hand and ends the episode
        exactly when that busts the player, with reward -1, else reward 0.
        Stand (0) plays the dealer out to 17 or more and settles. */
    method Step(action: int) returns (obs: Obs, reward: real, done: bool)
      requires Dealt() && 0 <= action < 2
      modifies this, rng
      ensures Dealt() && obs == GetObs()
      ensures !IsBust(old(player)) ==> InObservationSpace(obs)
      ensures action == 1 ==>
                && player == old(player) + [CardAt(rng.choices, old(rng.drawn))]
                && dealer == old(dealer)
                && rng.drawn == old(rng.drawn) + 1
                && done == IsBust(player)
                && reward == (if done then -1.0 else 0.0)
      ensures action == 0 ==>
                && done
                && player == old(player)
                && dealer == DealerPlay(old(dealer), rng.choices, old(rng.drawn))
                && rng.drawn == old(rng.drawn) + |dealer| - |old(dealer)|
                && reward == Settle(natural, player, dealer)
    {
      if action != 0 {
        var c := DrawCard(rng);
        player := player + [c];
        if IsBust(player) {
          done := true;
          reward := -1.0;
        } else {
          done := false;
          reward := 0.0;
        }
      } else {
        done := true;
        DealerPlayExtends(dealer, rng.choices, rng.drawn);
        dealer := PlayDealer(dealer, rng);
        reward := Settle(natural, player, dealer);
      }
      obs := GetObs();
      if !IsBust(old(player)) {
        ExtendedTotalBound(old(player), player);
      }
    }
  }

  class BlackjackEnvDouble {
    var player: seq<Rank>
    var dealer: seq<Rank>
    /** Pay 1.5 for a winning natural, as casino rules do. */
    const natural: bool
    /** The injected random generator; seeding it is the caller's concern. */
    const rng: Rng

    /** Both hands have been dealt (true from the first `Reset` on). */
    ghost predicate Dealt()
      reads this
    {
      |player| >= 2 && |dealer| >= 2
    }

    /** Builds the environment and starts the first episode. */
    constructor (natural: bool, rng: Rng)
      modifies rng
      ensures this.natural == natural && this.rng == rng && Dealt()
      ensures dealer == [CardAt(rng.choices, old(rng.drawn)), CardAt(rng.choices, old(rng.drawn) + 1)]
      ensures player == [CardAt(rng.choices, old(rng.drawn) + 2), CardAt(rng.choices, old(rng.drawn) + 3)]
      ensures rng.drawn == old(rng.drawn) + 4
    {
      this.natural := natural;
      this.rng := rng;
      new;
      var _ := Reset();
    }

    /** The observation of the current state. */
    function GetObs(): (o: Obs)
      reads this
      requires |dealer| >= 1
      ensures o.dealerCard == dealer[0] && o.playerTotal == SumHand(player)
      ensures o.usableAce == UsableAce(player)
      ensures !IsBust(player) ==> InObservationSpace(o) && o.playerTotal <= 21
    {
      SumBounds(player);
      Obs(SumHand(player), dealer[0], UsableAce(player))
    }

    /** Starts an episode: two cards to the dealer, then two to the player. */
    method Reset() returns (obs: Obs)
      modifies this, rng
      ensures dealer == [CardAt(rng.choices, old(rng.drawn)), CardAt(rng.choices, old(rng.drawn) + 1)]
      ensures player == [CardAt(rng.choices, old(rng.drawn) + 2), CardAt(rng.choices, old(rng.drawn) + 3)]
      ensures rng.drawn == old(rng.drawn) + 4
      ensures Dealt() && !IsBust(player) && obs == GetObs() && InObservationSpace(obs)
    {
      dealer := DrawHand(rng);
      player := DrawHand(rng);
      TwoCardsNotBust(player[0], player[1]);
      assert player == [player[0], player[1]];
      obs := GetObs();
    }

    /** Hit (1) and stand (0) as in `BlackjackEnv`. Double (2) always ends the
        episode: the player takes exactly one card; if it busts, the reward is
        -1 (not doubled) and the dealer does not play; otherwise the dealer
        plays out and the settled reward is doubled. */
    method Step(action: int) returns (obs: Obs, reward: real, done: bool)
      requires Dealt() && 0 <= action < 3
      modifies this, rng
      ensures Dealt() && obs == GetObs()
      ensures !IsBust(old(player)) ==> InObservationSpace(obs)
      ensures action == 1 ==>
                && player == old(player) + [CardAt(rng.choices, old(rng.drawn))]
                && dealer == old(dealer)
                && rng.drawn == old(rng.drawn) + 1
                && done == IsBust(player)
                && reward == (if done then -1.0 else 0.0)
      ensures action == 0 ==>
                && done
                && player == old(player)
                && dealer == DealerPlay(old(dealer), rng.choices, old(rng.drawn))
                && rng.drawn == old(rng.drawn) + |dealer| - |old(dealer)|
                && reward == Settle(natural, player, dealer)
      ensures action == 2 ==>
                && done
                && player == old(player) + [CardAt(rng.choices, old(rng.drawn))]
                && (IsBust(player) ==> dealer == old(dealer) && rng.drawn == old(rng.drawn) + 1)
                && (!IsBust(player) ==>
                      dealer == DealerPlay(old(dealer), rng.choices, old(rng.drawn) + 1) &&
                      rng.drawn == old(rng.drawn) + 1 + |dealer| - |old(dealer)|)
                && reward == SettleDouble(natural, player, dealer)
                && reward in {-2.0, -1.0, 0.0, 2.0}
    {
      if action == 1 {
        var c := DrawCard(rng);
        player := player + [c];
        if IsBust(player) {
          done := true;
          reward := -1.0;
        } else {
          done := false;
          reward := 0.0;
        }
      } else if action == 0 {
        done := true;
        DealerPlayExtends(dealer, rng.choices, rng.drawn);
        dealer := PlayDealer(dealer, rng);
        reward := Settle(natural, player, dealer);
      } else {
        done := true;
        reward := DoubleDown();
      }
      obs := GetObs();
      if !IsBust(old(player)) {
        ExtendedTotalBound(old(player), player);
      }
    }

    /** The double-down branch of `Step`. */
    method DoubleDown() returns (reward: real)
      requires Dealt()
      modifies this, rng
      ensures Dealt()
      ensures player == old(player) + [CardAt(rng.choices, old(rng.drawn))]
      ensures IsBust(player) ==> dealer == old(dealer) && rng.drawn == old(rng.drawn) + 1
      ensures !IsBust(player) ==>
                dealer == DealerPlay(old(dealer), rng.choices, old(rng.drawn) + 1) &&
                rng.drawn == old(rng.drawn) + 1 + |dealer| - |old(dealer)|
      ensures reward == SettleDouble(natural, player, dealer)
      ensures reward in {-2.0, -1.0, 0.0, 2.0}
    {
      var c := DrawCard(rng);
      player := player + [c];
      if IsBust(player) {
        reward := -1.0;
      } else {
        DealerPlayExtends(dealer, rng.choices, rng.drawn);
        dealer := PlayDealer(dealer, rng);
        reward := Settle(natural, player, dealer);
        reward := reward * 2.0;
      }
      SettleDoubleValues(natural, player, dealer);
    }
  }
}
