# Blackjack environments, modelled in Dafny

This project models the blackjack engine in `hw1/blackjack.py`. The engine has
three reinforcement-learning environments that follow the gym protocol.

- **Hand arithmetic.** Card ranks 1..10, with the ace as 1 and ten-valued
  faces collapsed to 10. A hand's total counts one ace as 11 when that does not
  pass 21. The module also covers bust, score, the natural blackjack and the
  three-way comparison `cmp`.
- **The infinite deck.** Its 13 faces are drawn with replacement by the
  environment's seeded generator. `BlackjackEnv` (stand 0, hit 1) and
  `BlackjackEnvDouble` (adds double-down 2) deal from it.
- **The finite shoe `Deck`.** It keeps per-rank counts, the number of cards
  left and a running card-counting value. `BlackjackEnvDoubleDeck` deals from
  it. Its observation adds the counting value and whether the dealer's hole
  card is still unknown.

The model has six modules:

| module | contents |
|---|---|
| `Hand` | pure hand arithmetic |
| `Payout` | settling a stand and a double-down |
| `InfiniteDeck` | the injected generator as a class `Rng`; the dealer's stand-on-17 policy as the function `DealerPlay` and the method `PlayDealer` |
| `Shoe` | the `Deck` class |
| `Envs` | the two infinite-deck environments |
| `DeckEnv` | the shoe-backed environment |

The environments are classes whose hands are fields that the methods update
in place.

The properties proved include:
- the observed player total stays inside the declared range 0..31 whenever the
  hand was not already bust;
- the dealer stops at the first total of 17 or more; starting from a total of
  at most 26 (every dealt two-card hand), it never ends above 26, both for the
  infinite deck (`InfiniteDeck.DealerPlayBound`) and for the shoe
  (`DeckEnv.BlackjackEnvDoubleDeck.PlayDealer`);
- a settled reward is one of -1, 0, 1 and 1.5; a double-down pays -2, -1, 0
  or 2;
- the naturals are exactly the hands [1, 10] and [10, 1];
- the shoe's running value always equals the counting weight of the cards
  still in the shoe, so the reported value lies in 0..64;
- while the hole card is unknown, the hole card's weight is added back to the
  shoe's value, so the reported value is the count of the cards the player has
  not seen: the shoe with only the other drawn cards taken out. Whatever cards
  were drawn before and after the hole card, it does not depend on the hole
  card's rank, and it still lies in 0..64.

Where the code departs from what its names or the usual rules suggest, the
model follows the code:
- `BlackjackEnvDoubleDeck` (`hw1/blackjack.py:196`) deals from a single
  52-card shoe (`hw1/blackjack.py:157`), not from two decks as its name
  suggests.
- A long episode can empty the shoe. `Reset` refills only below 15 cards, so
  as few as 11 remain after the deal. The source then raises on
  `np.random.choice([])`; the model returns the outcome `ShoeEmpty` (see
  `DeckEnv.BlackjackEnvDoubleDeck.Step`).
- A double-down that busts pays -1, not -2 (`hw1/blackjack.py:131-133`).
- After a double-down the observation still reports the hole card as unknown
  (`hw1/blackjack.py:222`, `252`), even when the dealer played.

## Model

| member | source | states |
|---|---|---|
| `Hand.Sum` | hw1/blackjack.py:24-30 | the plain sum of the ranks, counting aces as 1; its properties are stated by `Hand.SumBounds`, `Hand.SumAppend` and `Hand.TwoCardSum` |
| `Hand.SumBounds` | hw1/blackjack.py:24 | the plain sum of a hand lies between one and ten times its number of cards |
| `Hand.UsableAce` | hw1/blackjack.py:23-24 | a hand with a usable ace is non-empty and its plain sum is at most 11 |
| `Hand.SumHand` | hw1/blackjack.py:27-30 | the total is never below the plain sum and at most 10 above it; when it differs from the plain sum, the hand holds an ace and the total is at most 21 |
| `Hand.IsBust` | hw1/blackjack.py:33-34 | a bust hand's plain sum passes 21 |
| `Hand.Score` | hw1/blackjack.py:37-38 | a score lies in 0..21, and it is 0 only for a bust or an empty hand |
| `Hand.Cmp` | hw1/blackjack.py:7-8 | the comparison is 1, 0 or -1 exactly when a > b, a == b or a < b |
| `Hand.SumHandSpec` | hw1/blackjack.py:23-30 | the total is the sum plus 10 exactly when the hand holds an ace and the sum plus 10 is at most 21; otherwise it is the sum; it is never below the sum |
| `Hand.SumAppend` | hw1/blackjack.py:27-30 | one more card raises the plain sum by that card's rank |
| `Hand.BustHasNoUsableAce` | hw1/blackjack.py:23-34 | a bust hand has no usable ace, and its total is its plain sum, above 21 |
| `Hand.ScoreSpec` | hw1/blackjack.py:37-38 | a non-empty hand scores 0 exactly when it is bust; otherwise its score lies between its plain sum and 21 |
| `Hand.HitTotalBound` | hw1/blackjack.py:66-67 | one card on a hand that is not bust gives a total in 0..31 |
| `Hand.ExtendedTotalBound` | hw1/blackjack.py:83-84 | a hand that is not bust, kept or extended by one card, totals 0..31, which is the first component of the observation space |
| `Hand.TwoCardSum` | hw1/blackjack.py:19-20 | the plain sum of a two-card hand is the sum of its two ranks |
| `Hand.TwoCardsNotBust` | hw1/blackjack.py:86-89 | a freshly dealt two-card hand totals 2..21 and is never bust |
| `Hand.AscendingCons` | hw1/blackjack.py:42 | a card no greater than the first of an ascending sequence can be put in front of it |
| `Hand.Insert` | hw1/blackjack.py:42 | inserting into an ascending sequence gives an ascending permutation of it plus the new card |
| `Hand.AllAtLeast` | hw1/blackjack.py:42 | a lower bound of x and of every element of s bounds every element of a permutation of s plus x |
| `Hand.Sorted` | hw1/blackjack.py:42 | the sorted hand is ascending and a permutation of the hand |
| `Hand.IsNaturalExactly` | hw1/blackjack.py:41-42 | a hand is natural if and only if it is [1, 10] or [10, 1] |
| `Hand.NaturalMultiset` | hw1/blackjack.py:41-42 | a hand whose multiset of ranks is {1, 10} is [1, 10] or [10, 1] |
| `Hand.NaturalIsTwoCardTwentyOne` | hw1/blackjack.py:41-42 | a natural has two cards, totals 21 and is not bust |
| `Hand.IsNatural` | hw1/blackjack.py:41-42 | a natural hand has two cards, an ace and a ten-valued card |
| `Hand.DrewBelow17Append` | hw1/blackjack.py:76-77 | drawing one more card on a total below 17 keeps the record that every draw was made below 17 |
| `Payout.Settle` | hw1/blackjack.py:78-80 | a stand pays one of -1, 0, 1, 1.5, and pays a positive amount exactly when the player's score beats the dealer's |
| `Payout.SettleDouble` | hw1/blackjack.py:131-140 | a busted double-down pays -1; otherwise the reward is twice a settled reward, one of -2, 0, 2, 3 |
| `Payout.SettleValues` | hw1/blackjack.py:78-80 | a stand pays one of -1, 0, 1, 1.5; it pays 1.5 exactly when natural payouts are on, the hand is natural and the player's score beats the dealer's; otherwise it pays `cmp` of the scores |
| `Payout.SettleDoubleValues` | hw1/blackjack.py:128-140 | a double-down, with at least three player cards, pays -2, -1, 0 or 2; a bust pays -1; otherwise it pays twice `cmp` of the scores, because no three-card hand is natural |
| `InfiniteDeck.Rng.constructor` | hw1/blackjack.py:60-62 | a generator starts at the first of its choices |
| `InfiniteDeck.CardAt` | hw1/blackjack.py:16 | the k-th card a generator deals is one of the 13 faces |
| `InfiniteDeck.CardAtFace` | hw1/blackjack.py:11-16 | the k-th card is the face its k-th choice picks: choices 0..8 give ranks 1..9, and exactly choices 9..12 give a ten-valued card |
| `InfiniteDeck.DrawCard` | hw1/blackjack.py:15-16 | the card drawn is the face the generator's next choice picks, one of the 13 faces, and the generator advances by one |
| `InfiniteDeck.DrawHand` | hw1/blackjack.py:19-20 | a hand is the generator's next two cards in drawing order |
| `InfiniteDeck.DealerPlay` | hw1/blackjack.py:76-77 | the stand-on-17 policy as a function of the starting hand and the generator; its contract is stated by the four lemmas below |
| `InfiniteDeck.DealerPlayExtends` | hw1/blackjack.py:76-77 | the dealer's final hand extends the starting hand and totals at least 17 |
| `InfiniteDeck.Draws` | hw1/blackjack.py:15-16 | the generator's next n cards are n cards |
| `InfiniteDeck.DealerPlayCards` | hw1/blackjack.py:76-77 | the final hand is the starting hand followed by the generator's next cards, in order |
| `InfiniteDeck.DealerPlayDraw` | hw1/blackjack.py:76-77 | below 17 the dealer takes the generator's next card, which raises the plain sum, and plays on from there |
| `InfiniteDeck.DealerPlayStops` | hw1/blackjack.py:76-77 | every hand the dealer drew on totalled below 17; a hand already at 17 or more draws nothing |
| `InfiniteDeck.DealerPlayBound` | hw1/blackjack.py:76-77 | a dealer starting at 26 or less finishes between 17 and 26 |
| `InfiniteDeck.PlayDealer` | hw1/blackjack.py:76-77 | the loop yields exactly `DealerPlay` of the starting hand and the generator's position, and the generator advances by the number of cards drawn |
| `InfiniteDeck.DealerHit` | hw1/blackjack.py:77 | one draw below 17 appends the generator's next card, advances the generator by one and leaves the final hand of the policy unchanged |
| `Envs.BlackjackEnv.constructor` | hw1/blackjack.py:47-58 | the environment keeps the natural flag and the generator, and deals the first episode |
| `Envs.BlackjackEnv.GetObs` | hw1/blackjack.py:83-84 | the observation is the player's total, the dealer's face-up card and whether the player has a usable ace; for a hand that is not bust it lies in the observation space |
| `Envs.BlackjackEnv.Reset` | hw1/blackjack.py:86-89 | the dealer gets the generator's next two cards, then the player the two after; the player is not bust and the observation is in the space |
| `Envs.BlackjackEnv.Step` | hw1/blackjack.py:64-81 | hit appends the next card and ends exactly on a bust with reward -1, else 0; stand plays the dealer out by `DealerPlay` and pays `Settle`; the observation stays in the space from a hand that is not bust |
| `Envs.BlackjackEnvDouble.constructor` | hw1/blackjack.py:94-105 | as for `BlackjackEnv` |
| `Envs.BlackjackEnvDouble.GetObs` | hw1/blackjack.py:143-144 | as for `BlackjackEnv` |
| `Envs.BlackjackEnvDouble.Reset` | hw1/blackjack.py:146-149 | as for `BlackjackEnv` |
| `Envs.BlackjackEnvDouble.Step` | hw1/blackjack.py:111-141 | hit and stand as in `BlackjackEnv`; double ends the episode with exactly one more player card, where a bust leaves the dealer alone, otherwise the dealer plays out; it pays `SettleDouble`, one of -2, -1, 0, 2 |
| `Envs.BlackjackEnvDouble.DoubleDown` | hw1/blackjack.py:128-140 | the double-down branch, with the same promises as `Step` for action 2 |
| `Shoe.CardValue` | hw1/blackjack.py:158-169 | a card weighs between -2 and 2; exactly the ten-valued cards weigh less than 0, and exactly aces, 8 and 9 weigh 0 |
| `Shoe.Weight` | hw1/blackjack.py:158-183 | the counting weight of the cards a list of counts describes, which `_deck_value` tracks (`Shoe.Deck.Valid` ties the two); its properties are stated by `Shoe.UpdateEffect`, `Shoe.FullComposition`, `Shoe.WeightMonotone` and `Shoe.WeightBounds` |
| `Shoe.Total` | hw1/blackjack.py:170 | counts that are not negative total a number that is not negative |
| `Shoe.RemoveAll` | hw1/blackjack.py:181-182 | removing a run of cards leaves ten counts and lowers the total by the length of the run |
| `Shoe.InShoeUpdate` | hw1/blackjack.py:181 | setting one count to a value the fresh shoe allows keeps a valid shoe |
| `Shoe.RemoveEffect` | hw1/blackjack.py:181-183 | drawing a card of a rank with cards left keeps a valid shoe, with one card fewer and that card's weight less |
| `Shoe.Remove` | hw1/blackjack.py:181 | removing a card leaves ten per-rank counts |
| `Shoe.RemoveAllAppend` | hw1/blackjack.py:178-184 | removing one more card after a run removes the extended run |
| `Shoe.UpdateEffect` | hw1/blackjack.py:181-183 | changing one rank's count changes the card total by the difference and the counting weight by that rank's weight times the difference |
| `Shoe.FullComposition` | hw1/blackjack.py:157-171 | a fresh shoe holds 52 cards; the low ranks weigh 32, the whole shoe weighs 0 |
| `Shoe.WeightMonotone` | hw1/blackjack.py:158-169 | on ranks 1..9, whose weights are not negative, fewer cards never weigh more |
| `Shoe.WeightBounds` | hw1/blackjack.py:154 | every shoe's weight lies in [-32, 32], the bound that `MIN_VALUE` offsets |
| `Shoe.SomeRankLeft` | hw1/blackjack.py:179 | a shoe with cards left has a rank with a positive count, so the choice in `draw_card` is over a non-empty list |
| `Shoe.CountBounds` | hw1/blackjack.py:190-192 | a shoe holds 0..52 cards, and none exactly when every count is 0 |
| `Shoe.TotalMonotone` | hw1/blackjack.py:170 | fewer cards per rank never make a larger total |
| `Shoe.TotalZero` | hw1/blackjack.py:179 | counts that are not negative and total 0 are all 0 |
| `Shoe.Deck.constructor` | hw1/blackjack.py:156-171 | a new shoe is fresh: four of each rank 1..9, sixteen tens, 52 cards, running value 0 |
| `Shoe.Deck.ResetDeck` | hw1/blackjack.py:173-176 | refilling restores the fresh shoe and its invariant |
| `Shoe.Deck.DrawCard` | hw1/blackjack.py:178-184 | the card drawn is of a rank with cards left; exactly that count drops by one, one card fewer is left, the running value drops by the card's weight, and the running value still equals the weight of the remaining cards |
| `Shoe.Deck.DeckValue` | hw1/blackjack.py:186-188 | the reported value is the remaining cards' weight minus `MIN_VALUE`, always in 0..64 |
| `Shoe.Deck.DeckCount` | hw1/blackjack.py:190-192 | the count lies in 0..52 and is 0 exactly when no rank has a card left |
| `DeckEnv.PutBack` | hw1/blackjack.py:256-257 | putting a card back is undone by removing it |
| `DeckEnv.HoleCardHidden` | hw1/blackjack.py:255-257 | adding the hole card's weight back to the shoe's value gives the value of the shoe with the hole card put back, which lies in 0..64 when it was drawn from this shoe |
| `DeckEnv.PutBackRemove` | hw1/blackjack.py:255-257 | putting a removed card back restores the counts |
| `DeckEnv.RemoveCommutes` | hw1/blackjack.py:181 | two cards removed in either order leave the same counts |
| `DeckEnv.RemoveAllMiddle` | hw1/blackjack.py:271-273 | a card drawn anywhere in a run leaves the same counts as the rest of the run and then that card |
| `DeckEnv.HiddenValueIgnoresHoleRank` | hw1/blackjack.py:255-257 | with any cards drawn before and after the hole card, putting it back gives the shoe with only the other cards drawn, so the reported value is the same whatever the hole card's rank |
| `DeckEnv.RemoveAllConcat` | hw1/blackjack.py:241-247 | removing two runs one after the other removes their concatenation |
| `DeckEnv.BlackjackEnvDoubleDeck.constructor` | hw1/blackjack.py:198-214 | a new environment has a fresh shoe and empty hands |
| `DeckEnv.BlackjackEnvDoubleDeck.GetObs` | hw1/blackjack.py:254-264 | the player's total, the dealer's face-up card, the usable ace and the hole-card flag; the counting value is the shoe's, plus the hole card's weight while it is unknown, and lies in 0..64 |
| `DeckEnv.BlackjackEnvDoubleDeck.Reset` | hw1/blackjack.py:266-274 | below 15 cards the shoe is refilled; then dealer, player, dealer, player each take a card out of it; putting the hole card back gives the shoe with only the three cards the player saw taken out; the player is not bust and the observation is in the space |
| `DeckEnv.BlackjackEnvDoubleDeck.Deal` | hw1/blackjack.py:271-273 | two rounds of dealing remove exactly the four dealt cards, in order, from the shoe |
| `DeckEnv.BlackjackEnvDoubleDeck.DealRound` | hw1/blackjack.py:272-273 | one round gives a card to the dealer, then one to the player, removing both from the shoe |
| `DeckEnv.BlackjackEnvDoubleDeck.DealerDraw` | hw1/blackjack.py:235 | one dealer draw moves one card from the shoe to the dealer's hand |
| `DeckEnv.BlackjackEnvDoubleDeck.PlayDealer` | hw1/blackjack.py:234-235 | the dealer draws only below 17 and stands at the first 17 or more; the drawn cards leave the shoe; it fails only when the shoe is empty; a dealer starting at 26 or less ends at 26 or less |
| `DeckEnv.BlackjackEnvDoubleDeck.Hit` | hw1/blackjack.py:223-230 | one card leaves the shoe for the player; the episode ends exactly on a bust, with reward -1, else 0 |
| `DeckEnv.BlackjackEnvDoubleDeck.Stand` | hw1/blackjack.py:231-238 | the dealer plays out from the shoe; the hand pays `Settle`; the hole card is reported as known |
| `DeckEnv.BlackjackEnvDoubleDeck.DoubleDown` | hw1/blackjack.py:239-251 | one player card leaves the shoe, then the cards the dealer draws; a bust pays -1 without a dealer draw; the reward is `SettleDouble`, one of -2, -1, 0, 2; it fails only on an empty shoe before the player's card or when the dealer, below 17, finds the shoe empty |
| `DeckEnv.BlackjackEnvDoubleDeck.Step` | hw1/blackjack.py:220-252 | dispatches hit, stand and double with the outcomes above; the hole card is reported unknown for every action but stand; the observation stays in the space from a hand that is not bust |

## Left out

- The gym plumbing is not modelled: `gym.Env`, the `spaces` objects and the
  `info` dictionary. The declared spaces appear as the `InObservationSpace`
  predicates.
- `seed` and `seeding.np_random` are not modelled. The infinite-deck
  generator is a parameter holding an arbitrary sequence of choices, so every
  result holds for every seed. The uniform distribution is not modelled, only
  its support.
- The shoe's `np.random.choice` is the global generator. It is modelled as an
  arbitrary choice among the ranks with cards left.
- `float` rewards are modelled as exact `real` values. All of them (-2, -1, 0,
  1, 1.5, 2) are exact in binary floating point.
- The `ValueError` raised when drawing from an empty shoe is modelled as the
  outcome `ShoeEmpty`. The hands then stay as they were when the draw failed;
  `Deck.DrawCard` itself requires a card to be left.
- `DeckEnv.BlackjackEnvDoubleDeck.Step` requires a dealt episode, so `step`
  on a fresh environment whose `reset` has not run is not modelled. In the
  source, only a hit then fails, with an `IndexError` reading `dealer[1]` for
  the observation (`hw1/blackjack.py:257`). A stand or a double-down instead
  lets the dealer draw from an empty hand (`hw1/blackjack.py:234`, `246`). The
  hand then settles against a player hand of no cards or one card. The `Envs`
  steps require both hands dealt, which their constructors already ensure by
  calling `Reset` (`hw1/blackjack.py:58`, `105`).
- `Step` requires an action in the action space. The source stops with an
  assertion error otherwise.
