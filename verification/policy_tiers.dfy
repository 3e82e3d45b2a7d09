/** The decision rule of code_v.2.0code_v2.0/stats.py
    (`win_chance_and_choice`): fold below the pot odds, otherwise size a
    bet by how far the equity clears the minimum defence frequency, and
    bet it or else check or call. The equity it starts from is that file's
    `Monte_Carlo`, `Stat.TierWinChanceAndChoice`. */
module TierPolicy {
  import opened Py
  import opened Moves
  import opened Odds
  import opened Sizing

  /** The share of the pot the rule would bet: the whole pot when the
      equity clears the defence frequency by more than 0.25, two thirds by
      more than 0.1, a third with more than 50% equity and nothing to call,
      and nothing otherwise. */
  function TierShare(e: real, pot: real, call: real): real {
    var margin := e - MDF(pot, call);
    if margin > 0.25 then 1.0
    else if margin > 0.1 then 0.66
    else if e > 0.5 && call == 0.0 then 0.33
    else 0.0
  }

  /** `optimal_sizing` before rounding: the share of the pot, capped at the
      stack. */
  function TierBet(e: real, pot: real, call: real, stack: Option<int>): real {
    Cap(pot * TierShare(e, pot, call), stack)
  }

  /** The whole rule, as a function of the equity. A sizing above the
      amount to call is answered with 'bet', never 'raise'. */
  function TierChoice(e: real, pot: real, call: real, stack: Option<int>): Decision {
    if e < PotOdds(pot, call) then Decision(Fold, 0.0)
    else
      var sizing := RoundHalfEven(TierBet(e, pot, call, stack));
      if call == 0.0 then
        if sizing > 0 then Decision(Bet, sizing as real) else Decision(Check, 0.0)
      else if sizing as real > call then Decision(Bet, sizing as real)
      else Decision(Call, call)
  }

  // ---------------------------------------------------------------------
  // Lemmas

  /** The rule folds exactly when the equity is below the pot odds, and a
      fold carries no amount. */
  lemma TierFoldIff(e: real, pot: real, call: real, stack: Option<int>)
    ensures TierChoice(e, pot, call, stack).move == Fold <==> e < PotOdds(pot, call)
    ensures TierChoice(e, pot, call, stack).move == Fold ==> TierChoice(e, pot, call, stack).amount == 0.0
  {
  }

  /** With nothing to call the pot odds are 0, so a non-negative equity
      never folds: the rule checks or bets a positive whole amount, and
      never says 'call' or 'raise'. */
  lemma TierNothingToCall(e: real, pot: real, stack: Option<int>)
    requires e >= 0.0
    ensures TierChoice(e, pot, 0.0, stack).move in {Check, Bet}
    ensures TierChoice(e, pot, 0.0, stack).move == Check ==> TierChoice(e, pot, 0.0, stack).amount == 0.0
    ensures TierChoice(e, pot, 0.0, stack).move == Bet ==> TierChoice(e, pot, 0.0, stack).amount >= 1.0
  {
    if pot != 0.0 {
      assert PotOdds(pot, 0.0) == 0.0 / pot == 0.0;
    }
  }

  /** Facing a bet the rule folds, calls with the amount to call, or
      'bets' a whole amount larger than the amount to call; it never checks
      and never says 'raise'. */
  lemma TierFacingBet(e: real, pot: real, call: real, stack: Option<int>)
    requires call != 0.0
    ensures TierChoice(e, pot, call, stack).move in {Fold, Call, Bet}
    ensures TierChoice(e, pot, call, stack).move == Call ==> TierChoice(e, pot, call, stack).amount == call
    ensures TierChoice(e, pot, call, stack).move == Bet ==> TierChoice(e, pot, call, stack).amount > call
  {
  }

  /** Every bet is within the main character's stack. */
  lemma TierBetWithinStack(e: real, pot: real, call: real, stack: Option<int>)
    requires stack.Some?
    ensures TierChoice(e, pot, call, stack).move == Bet ==> TierChoice(e, pot, call, stack).amount <= stack.value as real
  {
    RoundWithin(TierBet(e, pot, call, stack), stack.value);
  }

  /** With nothing to call and a non-empty pot the defence frequency is 1,
      so the two larger tiers need an equity above 1.1: for any equity in
      [0, 1] the rule bets a third of the pot (rounded, capped) above 50%
      and checks otherwise. */
  lemma TierOpeningIsThirdPot(e: real, pot: real, stack: Option<int>)
    requires pot != 0.0 && 0.0 <= e <= 1.0
    ensures TierShare(e, pot, 0.0) == (if e > 0.5 then 0.33 else 0.0)
    ensures stack.None? && pot > 0.0 && e > 0.5 ==>
      -(1.0 / 2.0) <= TierChoice(e, pot, 0.0, stack).amount - 0.33 * pot <= 1.0 / 2.0
    ensures e <= 0.5 && (stack.Some? ==> stack.value >= 0) ==> TierChoice(e, pot, 0.0, stack) == Decision(Check, 0.0)
  {
    assert MDF(pot, 0.0) == pot / pot == 1.0;
    assert PotOdds(pot, 0.0) == 0.0 / pot == 0.0;
    if stack.None? && pot > 0.0 && e > 0.5 {
      var x := TierBet(e, pot, 0.0, stack);
      assert x == pot * 0.33;
      RoundNonNegative(x);
      if RoundHalfEven(x) == 0 {
        assert x <= 1.0 / 2.0;
      }
    }
    if e <= 0.5 && (stack.Some? ==> stack.value >= 0) {
      assert TierBet(e, pot, 0.0, stack) == Cap(0.0, stack);
      assert RoundHalfEven(0.0) == 0;
    }
  }
}
