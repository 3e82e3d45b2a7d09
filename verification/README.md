# Poker-best-decision, modelled in Dafny

Poker-best-decision simulates Texas Hold'em games between scripted bots.
It also gives a main character advice on what to do next. This project
models its core and proves what the code promises about it:

- **Hand evaluation.** `Evaluator` models `hand_rank` of utils.py, which
  gives the category from 1 (high card) to 9 (straight flush) of the hole
  cards plus the board. Game_fraude.py:337-400 is a method with the same
  logic, which reads its value list from `self.values`. `Poker` models the string-card evaluator of
  poker.py and its `card_reveal`.
- **Deck and dealing.** `Cards` holds the 52-card deck. `Dealing.Deal`
  is the dealer of deal.py: a deck popped from its end, the board and the
  street counter.
- **The game.** `Engine.Game` is the betting state machine of
  Game_fraude.py. It covers the blinds, the betting rounds, the pot
  awarded to the last player, and the showdown. The bots' replies come
  from an oracle. The betting round is also written as functions of the
  table (`TurnOn`, `AskOn`, `PassOn`, `RoundOn`), and so is the game
  (`BlindsOn`, `StreetOn`, `StreetsOn`). Each method is proved to compute
  the matching function.
- **Statistics.** Each of the three `Stat` classes, in Stats_improved.py,
  stats.py and code_v.2.0code_v2.0/stats.py, computes the following with
  the same text, from `pot_odds` to `Monte_Carlo`:
  - pot odds, MDF, fold equity and the expected values (`Odds`);
  - the outs and the Monte Carlo equity (`Equity`);
  - the equity cache (`Statistics.Stat`).

  Only Stats_improved.py also keeps the opponent's range and reweighs it
  after an action, with the hand and board-texture labels (`Ranges`).
  The three `win_chance_and_choice` rules differ, and each is a module of
  its own: `ImprovedPolicy`, `RandomPolicy` and `TierPolicy`.
- **Players.** `Bots` models the player that follows the recommendation
  (players_class/best_choice.py) and the calling station
  (players_class/calling_station.py).

## How the source is represented

- **Cards.** A card is a (colour, value) pair. Its value is the number
  `value_map` gives, from 2 to 14. poker.py's cards are two-character
  strings such as `"KH"`.
- **Money and equity.** In the statistics and the players they are
  `real`. The engine's chips are `int`. Python's `round` (half to even)
  and `int()` (toward zero) are explicit functions in `Py`.
- **Python exceptions** are the `Err` case of a `Result`. For example,
  `pop` on a short deck gives `IndexError`, and the river's
  `deal_board` gives `TypeError`.
- **Randomness.** The shuffled deck, the shuffled pool of each Monte
  Carlo trial, and the draws of `random.random`, `random.uniform` and
  `np.random.rand` are all parameters.
- **Imperative code stays imperative.** Methods with `while` loops model
  the counting and search loops, the Monte Carlo loop, the outs loop, the
  range loops and the betting round. Each is proved equal to a
  specification function, and the properties are lemmas about that
  function.

## Model

| member | source | states |
|---|---|---|
| Cards.FullDeck | deal.py:12-16 | the deck `cards_init` builds before shuffling: 52 cards, card i has colour i / 13 and value i % 13 + 2 |
| Cards.FullDeckComplete | deal.py:6-7 | every (colour, value) card appears in the deck, and none appears twice |
| Cards.ShuffleIsPermutation | deal.py:17 | a shuffled deck is exactly a reordering of the unshuffled one: 52 distinct cards |
| Dealing.PopN | deal.py:24 | popping n cards returns the last n cards of the deck, last one first, and leaves the first cards; together they are the old deck |
| Dealing.Deal.constructor | deal.py:4-10 | a fresh dealer holds the shuffled 52 distinct cards, an empty board and state 0, and the partition invariant holds |
| Dealing.Deal.CardsInit | deal.py:12-18 | the deck becomes the shuffled full deck and is returned; board and state are unchanged |
| Dealing.Deal.DealPlayerHand | deal.py:20-25 | two cards are popped, the last one first, and returned wrapped in one more list; with fewer than two cards it raises IndexError; deck, board and handed-out cards stay a partition of the 52 cards |
| Dealing.Deal.DealBoard | deal.py:27-42 | every call adds 1 to the state; the first call makes the board the 3 cards popped, the second appends 1 card and returns the board wrapped in a list, and the third raises TypeError with nothing dealt; the partition invariant is kept |
| Dealing.Deal.DealFlop | deal.py:33-36 | the flop branch: three cards popped onto the empty board, or IndexError when the deck is short |
| Dealing.Deal.DealTurn | deal.py:37-40 | the turn branch: one card popped and appended to the board, or IndexError on an empty deck |
| Evaluator.HandRank | utils.py:3-68 | fewer than 5 cards give category 1 with the cards themselves, not an error; otherwise the category of the cards; always 1..9 |
| Evaluator.CategoryOf | utils.py:22-68 | the category is in 1..9, its test holds, and no higher category's test holds (tests run from 9 down with early return) |
| Evaluator.StraightFlushIff | utils.py:22-32 | category 9 exactly when some colour with at least 5 distinct cards holds 5 consecutive values or A-5-4-3-2 |
| Evaluator.FullHouseNeedsThreeAndTwo | utils.py:39-41 | category 7 only when one value occurs exactly 3 times and another exactly 2 times |
| Evaluator.TwoTripsNoPair | utils.py:40-41 | two three-of-a-kinds with no pair and no quads are not a full house: the result is 9, 6, 5 or 4 |
| Evaluator.StraightTestIff | utils.py:47-53 | the straight test holds exactly when five consecutive values or the ace-to-five wheel are held |
| Evaluator.StraightAtLeastFive | utils.py:47-53 | any straight, the wheel included, is category 5 or better |
| Evaluator.FiveIsStraight | utils.py:47-53 | category 5 is only given to a hand holding a straight |
| Evaluator.TwoPairIff | utils.py:59-61 | the two-pair test holds exactly when two different values each occur exactly twice |
| Evaluator.TestsPermutation | utils.py:9-20 | each category test depends only on the multiset of cards |
| Evaluator.CategoryPermutation | utils.py:9-20 | the category depends only on the multiset of hand plus board, not on the order or on how the cards split between hand and board |
| Poker.ValueOf | poker.py:30-31 | `value_map` is defined exactly on "23456789TJQKA" and maps the character at position i to i + 2 |
| Poker.CountOccurrences | poker.py:39-44 | the counting loop builds the dict `Tally` of the characters: each key once, in first-seen order, with its number of occurrences |
| Poker.TallyCounts | poker.py:39-44 | the count the dict holds for a character is its number of occurrences |
| Poker.Revealed | poker.py:15-16 | after a reveal the card is on the board or in the hand, and the board has grown by at most one card |
| Poker.Poker.constructor | poker.py:5-11 | the hand is kept; a missing board starts empty |
| Poker.Poker.CardReveal | poker.py:13-16 | the card is appended only when it is on neither the board nor the hand; the hand is unchanged |
| Poker.RevealProperties | poker.py:15-16 | a reveal is idempotent, keeps every card seen, adds only the revealed card, and keeps a board without repeats and without hole cards |
| Poker.Poker.HandRank | poker.py:18-130 | the counting loops and the cascade compute `Evaluate(hand + board)`: (1, cards) below 5 cards, IndexError or KeyError on unreadable cards |
| Poker.RankIsCategory | poker.py:47-130 | for 5 readable cards or more, `hand_rank` returns the strongest category that holds among straight flush (as its search finds it), quads, full house, flush, straight, trips, two pair, pair and high card |
| Poker.ClassifyIsCategory | poker.py:47-130 | when each test on the counted dicts agrees with its meaning on the cards, the cascade returns that strongest category |
| Poker.BelowFlushIsCategory | poker.py:85-130 | below the flush, the cascade picks the strongest of straight, three of a kind, two pair, pair and high card that holds |
| Poker.CountsAgree | poker.py:47-119 | each test on the counted dicts agrees with its meaning on the cards: a value held 4, 3 or 2 times, two pairs, a suit held 5 times, a straight |
| Poker.KickersExist | poker.py:60-116 | for 5 readable cards or more, the quads branch and the two-pair branch always find their kicker and return |
| Poker.EvaluateByClassify | poker.py:23-44 | for 5 readable cards or more, `hand_rank` is the cascade applied to the counts of the values and of the suits |
| Poker.QuadsKicker | poker.py:63 | the quads kicker is the largest value other than the quads' value, when there is one |
| Poker.QuadsHaveKicker | poker.py:63 | with 5 cards or more, a value held exactly 4 times leaves a card of another value for the kicker |
| Poker.TopPairsAreHighest | poker.py:109-111 | two pair keeps the two highest paired values, highest first |
| Poker.TwoPairsHaveKicker | poker.py:112 | with 5 cards or more and two values held twice, a card of a third value is left for the kicker |
| Poker.TakeHighest | poker.py:80-81 | the five flush cards (the first n of the cards sorted by value) are in descending order, are taken from the cards, number n when there are n, and no card left out is higher than the last one taken |
| Poker.StraightIff | poker.py:86-97 | the straight check succeeds exactly when five consecutive values or the ace-to-five straight are held |
| Poker.WheelStraightFlushMissed | poker.py:51-58 | as written, a suit holding A K 5 4 3 2 has no straight flush found, though it holds A-5-4-3-2; the corrected search finds it |
| Poker.SuitRunFixedFinds | poker.py:51-58 | the corrected suit search finds a straight flush exactly when five of the suit's values are consecutive or it holds the wheel, preferring the highest run |
| Poker.SuitRunFixedExtends | poker.py:52-58 | whatever the written search finds, the corrected one finds too |
| Odds.PotOdds | Stats_improved.py:57-64 | 0 when pot + call is 0, otherwise C/(P+C); in [0,1] for non-negative pot and call |
| Odds.MDF | Stats_improved.py:104-111 | 1 when pot + call is 0, otherwise P/(P+C); in [0,1] for non-negative pot and call |
| Odds.FoldEquity | Stats_improved.py:113-119 | 1 - MDF: 0 when pot + call is 0, otherwise C/(P+C) |
| Odds.EVFold | Stats_improved.py:98-102 | folding is worth 0 |
| Odds.EVCall | Stats_improved.py:66-75 | e(P+C) - (1-e)C, that is e(P+2C) - C |
| Odds.EVBet | Stats_improved.py:87-96 | fold equity times the pot plus (1 - fold equity) times (EV of the call less the bet) |
| Odds.PotOddsAndMDF | Stats_improved.py:57-119 | when pot + call is not 0, pot odds and MDF sum to 1 and the fold equity equals the pot odds |
| Odds.GuardedOdds | Stats_improved.py:57-111 | when pot + call is 0 the guards give pot odds 0 and MDF 1, which still sum to 1, and fold equity 0 |
| Odds.CallBreakEven | Stats_improved.py:75 | a call is not losing exactly when e(P+2C) >= C, which is not the pot-odds threshold |
| Odds.FoldBelowPotOddsDespitePositiveEV | Stats_improved.py:640-641 | an equity of 0.4 facing a pot-sized bet is below the pot odds (a fold) though the call has positive EV |
| Odds.BetEVMonotone | Stats_improved.py:93-96 | a larger bet has a strictly lower EV when MDF > 0, and the same EV when MDF is 0 |
| Odds.BetWithNothingToCall | Stats_improved.py:87-119 | with nothing to call the fold equity is 0 and a bet is worth e·P - size |
| Equity.Available | Stats_improved.py:140 | the unseen cards are exactly the deck's cards not known, in deck order |
| Equity.AvailableCount | Stats_improved.py:140-151 | on a shuffled deck the unseen cards and the known cards together are the deck, and number 52 - known |
| Equity.Outs | Stats_improved.py:121-161 | the outs are the unseen cards whose arrival raises the category, in deck order; their number is the list's length; the chance is the turn-or-river percentage rounded to 2 decimals |
| Equity.CollectOuts | Stats_improved.py:143-148 | the loop keeps exactly the candidate cards that raise the score, in order |
| Equity.OutsAreImprovingUnseenCards | Stats_improved.py:140-148 | a card is an out exactly when it is unseen and putting it on the board strictly raises the category |
| Equity.NoOutsBeforeFlop | Stats_improved.py:141-147 | with fewer than 4 known cards there are no outs, since `hand_rank` gives 1 before and after |
| Equity.HitPercentRange | Stats_improved.py:151-161 | the hit chance is in [0,100], 0 with no outs, and 100 when every remaining card is an out |
| Equity.OutsChanceIsPercentage | Stats_improved.py:151-161 | on a real deal the outs never outnumber the remaining cards, so the chance is a percentage |
| Equity.Draw | Stats_improved.py:191-196 | a trial pops the opponent's two cards, then the missing board cards, from the end of its pool; the board is completed to 5 |
| Equity.DrawnCardsUnseen | Stats_improved.py:188-196 | the drawn cards are unseen cards, each drawn at most as often as it is in the pool |
| Equity.TrialComparesScores | Stats_improved.py:200-210 | a trial is a win, tie or loss by comparing the two categories only |
| Equity.RunTrials | Stats_improved.py:190-210 | the loop's counters are the wins and ties of the trials; IndexError when the pools are too small |
| Equity.MonteCarlo | Stats_improved.py:173-212 | returns (wins + ties / 2) / n as `MonteCarloEquity`; a result is in [0,1] |
| Equity.EquityInUnitInterval | Stats_improved.py:212 | the estimated equity is in [0,1] |
| Equity.MonteCarloSucceeds | Stats_improved.py:173-212 | on a real deal the simulation returns exactly when the number of trials is not 0 |
| Ranges.MakeComboSorted | Stats_improved.py:234 | a combo key holds the two cards in sorted order, and the same key comes from either order |
| Ranges.HandCategory | Stats_improved.py:244-292 | pairs are premium from 10, strong from 7, medium below; two different values both at least 12 are premium if suited and strong otherwise; offsuit non-pairs are never weak; a weak hand is suited and connected |
| Ranges.CategoryDependsOnSuits | Stats_improved.py:252-292 | the label of an ace-ten offsuit depends on which card sorts first: medium with the ace first, trash with the ten first |
| Ranges.BoardTexture | Stats_improved.py:294-347 | preflop under 3 cards; otherwise paired, flush draw (a colour 3 times), straight draw (two values at most 2 apart), rainbow, coordinated, draw heavy and dry as the code combines them |
| Ranges.SortedAdjacentClose | Stats_improved.py:317-324 | on sorted values the neighbour test finds two close values exactly when any two are close |
| Ranges.PairedBoardIsCoordinated | Stats_improved.py:310-327 | a paired board is always a straight draw and coordinated, so never dry |
| Ranges.DryBoard | Stats_improved.py:336 | a board is dry exactly when no two cards are within 2 values and no colour shows three times |
| Ranges.TexturePermutation | Stats_improved.py:294-347 | the texture depends only on which cards are on the board, not on their order |
| Ranges.AllPairsMembers | Stats_improved.py:232-234 | the nested loops meet exactly the combos of two cards at different positions |
| Ranges.AddRow | Stats_improved.py:233-235 | the inner loop adds each new combo of the card with a later card once, in order |
| Ranges.InitFullRange | Stats_improved.py:224-242 | the range built by the loops is `FullRange` of the unseen cards |
| Ranges.FullRangeProperties | Stats_improved.py:232-240 | one key per unordered pair of unseen cards, each weighted 1/total, summing to 1 |
| Ranges.Clamp | Stats_improved.py:485 | a weight is clamped to [0.01, 3.0] and kept when already inside |
| Ranges.ActionFactor | Stats_improved.py:374-465 | every factor of the action table is positive |
| Ranges.Reweigh | Stats_improved.py:368-485 | a new weight is always in [0.01, 3.0] |
| Ranges.Reweighted | Stats_improved.py:368-487 | every combo is reweighed, in the same order |
| Ranges.ReweightedTotalPositive | Stats_improved.py:489-495 | the reweighed total of a non-empty range is at least 0.01 per combo, so the fallback is never taken |
| Ranges.ApplyActionProperties | Stats_improved.py:359-495 | an empty range is unchanged; the combos stay the same, each weight is clamped then normalised, and the weights sum to 1 |
| Ranges.NarrowOppHand | Stats_improved.py:499-509 | the new opponent cards are a subsequence of the old, keeping exactly those in a combo weighted at least 0.001 |
| Statistics.Stat.constructor | Stats_improved.py:9-42 | the opponent's cards are the unseen cards, the range is the full range, the cache is empty, and the object is valid |
| Statistics.Stat.GetEquity | Stats_improved.py:163-171 | the first call runs the simulation and caches it; later calls return the cached value whatever the number of trials; nothing else changes |
| Statistics.Stat.ApplyAction | Stats_improved.py:349-509 | the range becomes the reweighed, normalised range and the opponent's cards are narrowed to the kept combos; an empty range changes nothing; validity is kept |
| Statistics.ReweighAll | Stats_improved.py:368-487 | the loop over the range's items computes `Reweighted` |
| Statistics.FullRangeValid | Stats_improved.py:224-242 | the full range has each combo once, positive weights, and weights summing to 1 |
| Statistics.Stat.ImprovedWinChanceAndChoice | Stats_improved.py:583-702 | a fresh simulation, then the improved rule on its equity; the simulation's error is passed on |
| Statistics.Stat.TierWinChanceAndChoice | code_v.2.0code_v2.0/stats.py:241-289 | a fresh simulation, then the MDF-tier rule on its equity |
| Statistics.Stat.RandomWinChanceAndChoice | stats.py:231-386 | the cached equity, computed on first use, then the random-draw rule on it; only the cache changes |
| Sizing.Cap | Stats_improved.py:608-609 | `min(x, stack)` when there is a main character, x otherwise |
| Sizing.RoundedCapWithin | Stats_improved.py:608-610 | a capped amount, rounded, stays within the whole-chip stack |
| ImprovedPolicy.ImprovedDecision | Stats_improved.py:597-702 | the rule, step by step, computes `ImprovedChoice` |
| ImprovedPolicy.SearchRaises | Stats_improved.py:650-669 | the loop over the five ratios computes the search `BestRaise` |
| ImprovedPolicy.RaiseOrCall | Stats_improved.py:672-702 | the end of the rule facing a bet computes `FinalChoice` |
| ImprovedPolicy.BestRaiseProperties | Stats_improved.py:650-669 | the search never ends below the call's EV; with no raise kept it is the call; a kept raise is one of the capped candidates and beats the call |
| ImprovedPolicy.ImprovedOpening | Stats_improved.py:597-631 | with nothing to call it checks for 0 exactly below 35% equity, otherwise bets 0.33, 0.66, 1 or 1.5 pot by band, within 1/2 of rounding, capped at the stack |
| ImprovedPolicy.ImprovedFacingBet | Stats_improved.py:634-702 | facing a bet it folds exactly below the pot odds, calls for `amount_to_call` up to pot odds + 0.20, and raises only with a margin over 0.25 |
| ImprovedPolicy.ImprovedRaiseBeatsCall | Stats_improved.py:697-700 | every raise returned has a higher EV than the call |
| ImprovedPolicy.ImprovedRaiseWithinStack | Stats_improved.py:655-691 | every raise returned is within the main character's stack |
| TierPolicy.TierFoldIff | code_v.2.0code_v2.0/stats.py:250-251 | it folds exactly when the equity is below the pot odds |
| TierPolicy.TierNothingToCall | code_v.2.0code_v2.0/stats.py:275-279 | with nothing to call and non-negative equity it never folds; a bet is at least 1, a check is for 0 |
| TierPolicy.TierOpeningIsThirdPot | code_v.2.0code_v2.0/stats.py:255-264 | with nothing to call the share is a third of the pot above 50% equity and 0 otherwise, so it checks up to 50% |
| TierPolicy.TierFacingBet | code_v.2.0code_v2.0/stats.py:282-289 | facing a bet it folds, calls for the amount to call, or says 'bet' (never 'raise') with more than the amount to call |
| TierPolicy.TierBetWithinStack | code_v.2.0code_v2.0/stats.py:266-270 | every bet is within the main character's stack |
| RandomPolicy.RandomDecision | stats.py:231-386 | the rule, given its draws, computes `RandomChoice` |
| RandomPolicy.FacingDecision | stats.py:309-386 | the branch facing a bet, step by step, computes `FacingChoice` on the raise search |
| RandomPolicy.SearchPressure | stats.py:357-374 | the loop over the raise factors computes the search `BestPressure` |
| RandomPolicy.BestPressureProperties | stats.py:357-374 | the search never ends below the call's EV; a kept raise is above twice the call and beats the call |
| RandomPolicy.RandomStageError | stats.py:254 | the rule raises IndexError exactly when the stage index is below -4 |
| RandomPolicy.RandomBetWithinStack | stats.py:272-360 | whatever the draws, it never says 'raise', and every bet is within the player's stack |
| RandomPolicy.RandomOpening | stats.py:260-306 | with nothing to call it checks for 0 or bets |
| RandomPolicy.RandomAllIn | stats.py:311-315 | facing a bet at least the stack, it calls exactly when `EV_call` reaches -tolerance (10 above 35% equity, else 5), and the amount is the stack either way |
| RandomPolicy.RandomFacingBet | stats.py:317-386 | facing a smaller bet it folds below 20% equity when the call loses more than half of it, and otherwise folds, calls the amount to call, or bets above twice the call |
| Bots.MaxZero | players_class/best_choice.py:36-37 | a negative amount becomes 0 and a non-negative one is kept |
| Bots.BestChoiceFolds | players_class/best_choice.py:40-88 | no recommendation, an empty stack or a 'fold' gives fold; a 'check' gives check whatever the amount to call |
| Bots.BestChoiceCall | players_class/best_choice.py:51-63 | a 'call' folds exactly when the call is above 40% of the stack and the equity (0.3 when unknown) is below 55%; otherwise it calls the amount clamped to [0, stack] |
| Bots.BestChoiceBet | players_class/best_choice.py:65-85 | a 'bet' or 'raise' clamps the amount to [0, stack]; from 1% of the stack it keeps its key with the rounded amount, below it becomes a check with nothing to call and a call otherwise |
| Bots.BestChoiceWithinStack | players_class/best_choice.py:62-85 | no amount is negative, and with a whole-chip stack no amount exceeds the stack |
| Bots.BestChoiceRoundsPastFractionalStack | players_class/best_choice.py:76-85 | with a fractional stack the rounding can pass it: stack 10.6 and a bet of 20 give a bet of 11 |
| Bots.CallingStationMoves | players_class/calling_station.py:53-83 | it only checks, calls or folds; a check or fold carries 0 and a call a positive amount within the stack |
| Bots.CallingStationThresholds | players_class/calling_station.py:60-83 | calls up to 2% of the stack; for the stack or more, calls the stack exactly with 70% equity; otherwise calls up to 30% of the stack with 25% equity, else exactly with 17.5% equity and a draw below 0.08 |
| Bots.CallingStationEdges | players_class/calling_station.py:39-57 | an empty stack folds; nothing (or an unreadable amount) to call checks |
| Engine.PlayerAction | Game_fraude.py:174-190 | an exception becomes a fold; a string reply becomes its key with value True; a dict is kept |
| Engine.WithChips | Game_fraude.py:44 | the players with chips, each once, in seat order |
| Engine.CurrentBet | Game_fraude.py:121 | the largest contribution, reached by some player, or 0 with no contributions |
| Engine.Payment | Game_fraude.py:147-158 | a call pays `min(to_call, stack)` and a bet or raise `min(to_call + amount, stack)`: never more than the stack, and not negative for non-negative amounts |
| Engine.PaymentWithinStack | Game_fraude.py:148-158 | a payment of `min(x, stack)` leaves a stack that is not negative |
| Engine.ZeroBets | Game_fraude.py:81 | every active player's contribution is 0, and only theirs |
| Engine.Game.constructor | Game_fraude.py:13-34 | five players with the initial stack, no game played, empty history |
| Engine.BlindsOn | Game_fraude.py:56-70 | the blinds: only the players in the hand have a contribution, and the pot holds exactly the two blinds |
| Engine.BlindsPaid | Game_fraude.py:59-70 | the blinds keep the account: what the two stacks lose is their contributions and the pot |
| Engine.BlindsBets | Game_fraude.py:59-70 | the first player contributes `min(small_blind, stack)`, the second `min(big_blind, stack)`, every other player 0; no stack goes negative, and for non-negative blinds the pot is not negative |
| Engine.Game.PostBlinds | Game_fraude.py:56-70 | the first two players post `min(blind, stack)`; the pot is their sum; the chips are accounted for; no stack goes negative; the new state is `BlindsOn`'s |
| Engine.Game.DealHands | Game_fraude.py:49-50 | the i-th player with chips gets cards 2i+1 and 2i+2 from the end of the deck, wrapped in one more list; the deck loses exactly those; the other players keep their hands |
| Engine.Game.Pay | Game_fraude.py:148-162 | the seat's stack loses x, and its contribution and the pot gain x |
| Engine.TurnOn | Game_fraude.py:133-162 | a turn counts as acting unless it is a check facing a bet; it changes no other seat's contribution and adds no player |
| Engine.TurnPays | Game_fraude.py:147-162 | a turn keeps the account: each chip paid leaves the seat's stack for its contribution and the pot |
| Engine.TurnKeepsOrder | Game_fraude.py:134-145 | after a turn the players left keep their order, each once |
| Engine.TurnKeepsSigns | Game_fraude.py:147-162 | a turn takes no stack below 0, and nothing out of the pot when the amount to call and the bet are not negative |
| Engine.Game.Turn | Game_fraude.py:133-163 | a fold, or a check with something to call, removes the player; only such a check does not count as acting; a fold or check moves no chip; a call, bet or raise moves exactly `Payment` from the stack to the contribution and the pot; the new state is `TurnOn`'s |
| Engine.AskOn | Game_fraude.py:123-131 | a player without chips is skipped with nothing asked and nothing changed; any other is asked one more question; a fold counts as acting |
| Engine.AskPays | Game_fraude.py:123-162 | a player's turn keeps the account |
| Engine.AskKeepsOrder | Game_fraude.py:123-145 | a player's turn keeps the players left in order, each once |
| Engine.AskKeepsSigns | Game_fraude.py:123-162 | a player's turn takes no stack below 0, nor, for non-negative bets and amount to call, anything from the pot |
| Engine.Game.Ask | Game_fraude.py:123-131 | a player without chips is skipped with nothing changed; any other is asked the next question, and its reply, through `_get_player_action`, is played out by `TurnOn`; the new state is `AskOn`'s |
| Engine.NoDupsAfter | Game_fraude.py:123 | in a snapshot without repeats, the players after the j-th are not the j-th |
| Engine.PassOn | Game_fraude.py:121-164 | a pass that reports `done` has left one player; it adds no player, keeps every contribution's seat and every stack |
| Engine.PassStep | Game_fraude.py:123-164 | a pass is its first player's turn followed, unless that was a fold leaving one player, by the pass over the rest |
| Engine.PassPays | Game_fraude.py:121-164 | a pass keeps the account |
| Engine.PassKeepsOrder | Game_fraude.py:121-164 | a pass keeps the players left in order, each once |
| Engine.PassKeepsSigns | Game_fraude.py:121-164 | a pass takes no stack below 0, nor anything from the pot when every player faces `current_bet` from at most that much |
| Engine.RoundOn | Game_fraude.py:113-172 | a betting round adds no player and keeps every contribution's seat and every stack's seat |
| Engine.RoundStep | Game_fraude.py:116-170 | a round with passes left is a pass over the players in the hand followed, unless the pass ends it, by the round with one pass fewer |
| Engine.RoundPays | Game_fraude.py:113-172 | a betting round keeps the account |
| Engine.RoundKeepsOrder | Game_fraude.py:113-172 | a betting round keeps the players left in order, each once |
| Engine.RoundKeepsSigns | Game_fraude.py:113-172 | a betting round takes no stack below 0 and, for non-negative bets, nothing from the pot |
| Engine.Game.BettingPass | Game_fraude.py:121-164 | one pass over the snapshot with `current_bet` fixed when it starts: the result is `PassOn`'s; the active players stay a subsequence; the pass stops early only when one player is left; chips are accounted for |
| Engine.Game.RunPass | Game_fraude.py:123-164 | the loop over the snapshot computes `PassOn` |
| Engine.Game.PassTurn | Game_fraude.py:124-164 | one iteration of that loop advances `PassOn` by one player |
| Engine.Game.BettingRound | Game_fraude.py:109-172 | the result is `RoundOn` with ten passes: at most 10 passes, ending earlier only with one player left or settled bets after someone acted; pot plus stacks is constant; no stack goes negative; the pot never shrinks |
| Engine.Game.RunRound | Game_fraude.py:113-172 | the while loop computes `RoundOn` with ten passes |
| Engine.Game.RoundPass | Game_fraude.py:116-170 | one iteration of that loop advances `RoundOn` by one pass |
| Engine.AwardLast | Game_fraude.py:76-77 | the pot is awarded exactly when one player is left; the players and the pot stay as they are |
| Engine.AwardLastPays | Game_fraude.py:76-77 | an award moves the whole pot to the last player's stack and changes no other stack; no award changes nothing |
| Engine.RoundAccount | Game_fraude.py:109-172 | a betting round of ten passes keeps pot plus stacks |
| Engine.StreetOn | Game_fraude.py:73-77 | a street ends the game exactly when one player is left; it adds no player and keeps every stack's seat |
| Engine.StreetPays | Game_fraude.py:73-77 | a street keeps the account; when it ends the game the pot is in the winner's stack |
| Engine.StreetKeepsOrder | Game_fraude.py:73-77 | a street keeps the players left in their order, each once |
| Engine.StreetKeepsSigns | Game_fraude.py:73-77 | a street takes no stack below 0 and nothing from the pot |
| Engine.NextStreet | Game_fraude.py:80-81 | a new street resets every contribution of the players in the hand to 0 and keeps the players, the stacks and the pot |
| Engine.StreetsFrom | Game_fraude.py:72-95 | the streets from the k-th on: the game ends on street k or later, on the preflop, flop or turn exactly when one player is left, and reaches the river deal only with more than one |
| Engine.StreetsOn | Game_fraude.py:72-98 | the preflop, flop and turn: the game ends on one of them exactly when one player is left |
| Engine.StreetsPays | Game_fraude.py:72-95 | the streets keep the account; the pot is in no stack only when the river deal is reached |
| Engine.StreetsKeepOrder | Game_fraude.py:72-95 | the streets keep the players left in their order, each once |
| Engine.StreetsKeepSigns | Game_fraude.py:72-95 | the streets take no stack below 0 and nothing from the pot |
| Engine.Game.AwardIfLast | Game_fraude.py:76-77 | with one player left the pot goes to that player and a record is appended; otherwise nothing changes; the new stacks are `AwardLast`'s |
| Engine.Game.Street | Game_fraude.py:73-77 | a betting round from the street's contributions, then the pot to the last player when one is left; the outcome, the stacks, the players and the pot are `StreetOn`'s |
| Engine.Game.Streets | Game_fraude.py:72-98 | the preflop, flop and turn rounds each end the game when one player is left; dealing the river raises TypeError; the stacks and the outcome are `StreetsOn`'s |
| Engine.Game.LaterStreets | Game_fraude.py:79-98 | the flop deals its board, resets the contributions to 0 and plays its street, then the turn; the stacks and the outcome are `StreetsFrom`'s from the flop |
| Engine.Game.TurnStreet | Game_fraude.py:88-98 | the turn deals its board, resets the contributions to 0 and plays its street; then the river deal raises TypeError; the stacks and the outcome are `StreetsFrom`'s from the turn |
| Engine.Game.PlayHand | Game_fraude.py:40-98 | with the players with chips known: the hands, the blinds and the streets; the stacks and the outcome are `StreetsOn`'s from `BlindsOn`'s state on the deck left after the hands |
| Engine.Game.Play | Game_fraude.py:36-107 | no game with fewer than two players with chips; a finished game has one winner and keeps the total of the stacks; otherwise TypeError; stacks stay non-negative; with two or more players the stacks and the outcome are those of `StreetsOn` after `BlindsOn` |
| Engine.Game.AwardPot | Game_fraude.py:192-208 | the winner's stack takes the whole pot, and the record is appended to the history |
| Engine.ScanWinners | Game_fraude.py:214-223 | the showdown loop computes the best rank and the winners |
| Engine.WinnersAreBest | Game_fraude.py:214-223 | the winners are exactly the active players of the maximal rank, in order |
| Engine.CreditAll | Game_fraude.py:227-228 | the crediting loop adds the share to each winner |
| Engine.Game.Showdown | Game_fraude.py:210-241 | as written: each winner gets `pot // n`, so the stacks gain the pot less `pot % n`; with no winner it raises ZeroDivisionError |
| Engine.SplitPotLosesOddChip | Game_fraude.py:226 | a pot of 101 split between two tied players pays out only 100 |
| Engine.SplitPot | Game_fraude.py:226-228 | the corrected payout loop computes `PaidOut` |
| Engine.OddChipToFirst | Game_fraude.py:226-228 | the corrected payout adds the whole pot to the stacks, changes only the winners' stacks, and lowers none for a non-negative pot |
| Engine.Game.ShowdownConserving | Game_fraude.py:210-241 | the showdown with the odd chips given to the first winner: the winners' stacks gain the whole pot |

## Left out

- Randomness is not modelled. The shuffled deck, the trial pools and the draws of `random.random`, `random.uniform` and `np.random.rand` are parameters, and no statistical property of the equity estimate is stated.
- Floating point is modelled as exact reals. Python's `round` is half-to-even and `int()` truncates toward zero, both as explicit functions; IEEE rounding errors are not modelled.
- The description strings of both evaluators are not modelled, and the printed messages of the game are left out.
- `log_decision`, the JSON files, `simulation`, `_calculate_stats`, `_print_ranking`, `save_json` and the rendering modules are I/O and are left out.
- The players the game seats (imported from players/ at Game_fraude.py:1-5) and the sigmoid players of players_class/ (tag.py, lag.py, nit.py, maniac.py) are not part of this model. The engine takes every player's reply from an oracle instead.
- `opp_hand_guess`, `call_equity` and `EV_call_suivi` are not part of this model; no modelled operation calls them.
- `Poker.probability` and `Poker.recommendation` are not part of this model: one is a coin flip and the other is built on it.
- Engine.Game.Showdown: the showdown takes the rank of each active player's hand as a parameter, since `hand_rank` there is the evaluator of utils.py, modelled in `Evaluator`.
- Engine.Game.Play: a game cannot reach the showdown, because `deal_board` raises on its third call. The river round and the showdown in it are therefore unreachable, and the chips in the pot at that moment are in no stack.
- Engine.Game.BettingRound: an action dict whose key is none of the five moves is not modelled.
- Engine.PlayerAction: a bare-string reply becomes `{name: True}` for every seat, while `_get_player_action` converts strings only for the calling station (seat 0). The game imports its other players from players/ (Game_fraude.py:1-5), and none of them replies with a string: players/lag.py and players/maniac.py declare `action` with four parameters while Game_fraude.py:186 passes three, so the call raises TypeError, which Game_fraude.py:187-189 turns into a fold (players/lag.py:20-21 would return `None` in any case). players/tag.py, players/nit.py and players/calling_station.py are not part of this model.
- Engine.Game.BettingRound: the amount of a bet or raise is an integer of chips; amounts that are not whole numbers are not modelled.
- Sizing.Cap: the main character's stack is a whole number of chips (`Option<int>`), while the players store `float(stack)` (players_class/best_choice.py:14). ImprovedPolicy.ImprovedRaiseWithinStack, TierPolicy.TierBetWithinStack and the stack clause of ImprovedPolicy.ImprovedOpening are proved only for whole-chip stacks.
- Ranges.ActionFactor: only the five moves are modelled as actions (Stats_improved.py:374-420). In the source, an action string that is none of them leaves the weight unchanged apart from the clamp to [0.01, 3.0]. The model's `Move` has no such string, so `Ranges.Reweigh` does not cover that case.
- Engine.Game.DealHands: hands are the nested lists `deal_player_hand` returns (`[[c1, c2]]`), so the evaluator sees fewer than five items.
- Poker.Poker.CardReveal: the board is a value, so aliasing between the board list passed in and other references to it is not modelled.
- Poker.Poker.HandRank: the straight-flush and straight searches are recursive functions. The card strings they build, such as "14H", are modelled as written.
- Statistics.Stat.RandomWinChanceAndChoice: the draws `coin` and `u` are the results of `random.random()` and `random.uniform` and are passed in.
- Statistics.Stat.ApplyAction: the range, its reweighing and the narrowing of the opponent's cards exist only in Stats_improved.py (Stats_improved.py:224-509). In stats.py and code_v.2.0code_v2.0/stats.py, `__init__` builds no range and `apply_action` does nothing (stats.py:212-216, code_v.2.0code_v2.0/stats.py:222-226). The single `Statistics.Stat` class carries Stats_improved.py's range under all three rules, and none of the rules reads it.
- Statistics.Stat.GetEquity: the simulation inside it is the same `Monte_Carlo` the three `Stat` files share; the three files' default trial counts are not modelled.

## Findings

| source | as written | input that shows it | evidently intended | confidence | as-written member | corrected member |
|---|---|---|---|---|---|---|
| Game_fraude.py:226 | each of n tied winners gets `pot // n`, and `pot % n` chips go to nobody | a pot of 101 split between two players tied at the showdown pays out 100 | the whole pot paid out, the odd chips to one winner | not executed | Engine.SplitPotLosesOddChip | Engine.Game.ShowdownConserving |
| poker.py:57 | the ace-low straight flush is checked on the first five values of the suit, inside the window loop | A K 5 4 3 2 of hearts: the first five are A K 5 4 3, so no straight flush is found | any suit holding A 5 4 3 2 is a straight flush | not executed | Poker.WheelStraightFlushMissed | Poker.SuitRunFixedFinds |
