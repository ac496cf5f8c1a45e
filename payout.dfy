/** Terminal rewards shared by the three environments: settling a stand, and
    settling a double-down. Rewards are exact values, kept as `real`. */
module Payout {
  import opened Hand

  /** The reward of a finished hand: the comparison of the scores, raised to
      1.5 when natural payouts are enabled, the player holds a natural and the
      comparison came out as a win. */
  function Settle(natural: bool, player: seq<Rank>, dealer: seq<Rank>): (r: real)
    ensures r in {-1.0, 0.0, 1.0, 1.5}
    ensures r > 0.0 <==> Score(player) > Score(dealer)
  {
    var c := Cmp(Score(player), Score(dealer));
    if natural && IsNatural(player) && c == 1.0 then 1.5 else c
  }

  /** The reward of a double-down: -1 (not doubled) when the extra card busts
      the player, two times the settled reward otherwise. */
  function SettleDouble(natural: bool, player: seq<Rank>, dealer: seq<Rank>): (r: real)
    ensures IsBust(player) ==> r == -1.0
    ensures !IsBust(player) ==> r in {-2.0, 0.0, 2.0, 3.0}
  {
    if IsBust(player) then -1.0 else 2.0 * Settle(natural, player, dealer)
  }

  /** A settled reward is one of -1, 0, 1 and 1.5; it is 1.5 exactly under the
      natural rule, and otherwise it is the sign of the score difference. */
  lemma SettleValues(natural: bool, player: seq<Rank>, dealer: seq<Rank>)
    ensures Settle(natural, player, dealer) in {-1.0, 0.0, 1.0, 1.5}
    ensures Settle(natural, player, dealer) == 1.5 <==>
              natural && IsNatural(player) && Score(player) > Score(dealer)
    ensures Settle(natural, player, dealer) != 1.5 ==>
              Settle(natural, player, dealer) == Cmp(Score(player), Score(dealer))
  {
  }

  /** After a double-down the player holds at least three cards, so the 1.5
      payout cannot apply: the reward is -1 for a bust, otherwise -2, 0 or 2,
      twice the sign of the score difference. */
  lemma {:induction false} SettleDoubleValues(natural: bool, player: seq<Rank>, dealer: seq<Rank>)
    requires |player| >= 3
    ensures SettleDouble(natural, player, dealer) in {-2.0, -1.0, 0.0, 2.0}
    ensures IsBust(player) ==> SettleDouble(natural, player, dealer) == -1.0
    ensures !IsBust(player) ==>
              SettleDouble(natural, player, dealer) == 2.0 * Cmp(Score(player), Score(dealer))
  {
    NaturalIsTwoCardTwentyOne(player);
  }
}
