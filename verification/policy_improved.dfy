/** The decision rule of Stats_improved.py (`win_chance_and_choice`): from
    the equity `e`, the pot P, the amount to call C and, when there is a
    main character, its stack, an action and an amount. The Monte Carlo
    equity it starts from is `Stat.ImprovedWinChanceAndChoice`. */
module ImprovedPolicy {
  import opened Py
  import opened Moves
  import opened Odds
  import opened Sizing

  /** The raises tried when facing a bet, as shares of the pot. */
  const RaiseRatios: seq<real> := [0.5, 0.75, 1.0, 1.5, 2.0]

  /** The opening bet as a share of the pot, by equity band (equity at
      least 0.35). */
  function OpeningShare(e: real): real {
    if e < 0.50 then 0.33
    else if e < 0.65 then 0.66
    else if e < 0.80 then 1.0
    else 1.5
  }

  /** The opening bet before rounding: the equity band's share of the pot,
      capped at the stack. */
  function OpeningBet(e: real, pot: real, stack: Option<int>): real {
    Cap(pot * OpeningShare(e), stack)
  }

  /** The raise for one share of the pot: the call plus that share of the
      pot, capped at the stack. */
  function RaiseAmount(pot: real, call: real, ratio: real, stack: Option<int>): real {
    Cap(call + pot * ratio, stack)
  }

  /** `EV_bet` at the given equity, pot and call, as a function of the
      bet's size. */
  function BetValue(e: real, pot: real, call: real): real -> real {
    size => EVBet(e, pot, call, size)
  }

  /** One step of the raise search: keep the candidate when its value beats
      the best so far. */
  function ConsiderRaise(value: real -> real, pot: real, call: real, stack: Option<int>, best: Best, ratio: real): Best {
    var amount := RaiseAmount(pot, call, ratio, stack);
    var ev := value(amount);
    if ev > best.ev then Best(ev, amount, true) else best
  }

  /** The search over `ratios`, from the call (worth `start`, for the amount
      to call, not a raise). */
  function BestRaise(value: real -> real, start: real, pot: real, call: real, stack: Option<int>, ratios: seq<real>): Best
    decreases |ratios|
  {
    if ratios == [] then Best(start, call, false)
    else ConsiderRaise(value, pot, call, stack, BestRaise(value, start, pot, call, stack, ratios[..|ratios| - 1]), ratios[|ratios| - 1])
  }

  /** The raise chosen by the equity's margin over the pot odds, as a share
      of the pot (`None`: the margin is too thin, call). */
  function OptimalShare(margin: real): Option<real> {
    if margin > 0.45 then Some(2.0)
    else if margin > 0.35 then Some(1.5)
    else if margin > 0.25 then Some(1.0)
    else None
  }

  /** With nothing to call: check below 35% equity, otherwise bet the
      equity band's share of the pot, capped and rounded. */
  function OpeningChoice(e: real, pot: real, stack: Option<int>): Decision {
    if e < 0.35 then Decision(Check, 0.0)
    else Decision(Bet, RoundHalfEven(OpeningBet(e, pot, stack)) as real)
  }

  /** The end of the rule facing a bet, once the search has found `best`:
      the raise sized by the margin if it beats both the search and the
      call, else the search's raise if it beats the call, else a call. */
  function FinalChoice(e: real, pot: real, call: real, stack: Option<int>, best: Best): Decision {
    var share := OptimalShare(e - PotOdds(pot, call));
    if share.None? then Decision(Call, call)
    else
      var optimal := RoundHalfEven(RaiseAmount(pot, call, share.value, stack)) as real;
      var evOptimal := EVBet(e, pot, call, optimal);
      if evOptimal > best.ev && evOptimal > EVCall(e, pot, call) then Decision(Raise, optimal)
      else if best.raised && best.ev > EVCall(e, pot, call) then Decision(Raise, best.amount)
      else Decision(Call, call)
  }

  /** The search over the five ratios, valued by `EV_bet`. */
  function ImprovedSearch(e: real, pot: real, call: real, stack: Option<int>): Best {
    BestRaise(BetValue(e, pot, call), EVCall(e, pot, call), pot, call, stack, RaiseRatios)
  }

  /** The whole rule, as a function of the equity. */
  function ImprovedChoice(e: real, pot: real, call: real, stack: Option<int>): Decision {
    if call == 0.0 then OpeningChoice(e, pot, stack)
    else if e < PotOdds(pot, call) then Decision(Fold, 0.0)
    else if e < PotOdds(pot, call) + 0.20 then Decision(Call, call)
    else FinalChoice(e, pot, call, stack, ImprovedSearch(e, pot, call, stack))
  }

  /** `win_chance_and_choice` once the equity is known, step by step: the
      opening tiers, the fold and call bands, the loop over the raise
      ratios, then the raise picked by the margin over the pot odds. */
  method ImprovedDecision(e: real, pot: real, call: real, stack: Option<int>) returns (d: Decision)
    ensures d == ImprovedChoice(e, pot, call, stack)
  {
    if call == 0.0 {
      if e < 0.35 {
        return Decision(Check, 0.0);
      }
      var sizing := OpeningBet(e, pot, stack);
      return Decision(Bet, RoundHalfEven(sizing) as real);
    }
    var potOdds := PotOdds(pot, call);
    if e < potOdds {
      return Decision(Fold, 0.0);
    }
    if e < potOdds + 0.20 {
      return Decision(Call, call);
    }
    var best := SearchRaises(e, pot, call, stack, RaiseRatios);
    d := RaiseOrCall(e, pot, call, stack, best);
  }

  /** The end of `win_chance_and_choice` facing a bet: the raise sized by
      the margin over the pot odds, capped and rounded, against the best
      raise of the search and the call. */
  method RaiseOrCall(e: real, pot: real, call: real, stack: Option<int>, best: Best) returns (d: Decision)
    ensures d == FinalChoice(e, pot, call, stack, best)
  {
    var share := OptimalShare(e - PotOdds(pot, call));
    if share.None? {
      return Decision(Call, call);
    }
    var rounded := RoundHalfEven(RaiseAmount(pot, call, share.value, stack)) as real;
    var evOptimal := EVBet(e, pot, call, rounded);
    var evCall := EVCall(e, pot, call);
    if evOptimal > best.ev && evOptimal > evCall {
      d := Decision(Raise, rounded);
    } else if best.raised && best.ev > evCall {
      d := Decision(Raise, best.amount);
    } else {
      d := Decision(Call, call);
    }
  }

  /** The loop over `raise_sizings`: each ratio's raise, capped at the
      stack, replaces the best option when its `EV_bet` is higher. */
  method SearchRaises(e: real, pot: real, call: real, stack: Option<int>, ratios: seq<real>) returns (best: Best)
    ensures best == BestRaise(BetValue(e, pot, call), EVCall(e, pot, call), pot, call, stack, ratios)
  {
    var bestEv := EVCall(e, pot, call);
    var bestSizing := call;
    var bestRaised := false;
    var i := 0;
    while i < |ratios|
      invariant 0 <= i <= |ratios|
      invariant Best(bestEv, bestSizing, bestRaised) == BestRaise(BetValue(e, pot, call), EVCall(e, pot, call), pot, call, stack, ratios[..i])
    {
      BestRaiseSnoc(BetValue(e, pot, call), EVCall(e, pot, call), pot, call, stack, ratios, i);
      var raiseAmount := RaiseAmount(pot, call, ratios[i], stack);
      var evRaise := EVBet(e, pot, call, raiseAmount);
      if evRaise > bestEv {
        bestEv := evRaise;
        bestSizing := raiseAmount;
        bestRaised := true;
      }
      i := i + 1;
    }
    assert ratios[..i] == ratios;
    best := Best(bestEv, bestSizing, bestRaised);
  }

  /** One more ratio is one more step of the search. */
  lemma BestRaiseSnoc(value: real -> real, start: real, pot: real, call: real, stack: Option<int>, ratios: seq<real>, i: int)
    requires 0 <= i < |ratios|
    ensures BestRaise(value, start, pot, call, stack, ratios[..i + 1])
      == ConsiderRaise(value, pot, call, stack, BestRaise(value, start, pot, call, stack, ratios[..i]), ratios[i])
  {
    assert ratios[..i + 1][..i] == ratios[..i];
  }

  // ---------------------------------------------------------------------
  // Lemmas

  /** The raise search never ends below where it started; a raise it
      keeps is one of the candidates, capped at the stack, and is worth its
      value, more than the start. */
  lemma {:induction false} BestRaiseProperties(value: real -> real, start: real, pot: real, call: real, stack: Option<int>, ratios: seq<real>)
    ensures BestRaise(value, start, pot, call, stack, ratios).ev >= start
    ensures !BestRaise(value, start, pot, call, stack, ratios).raised ==>
      BestRaise(value, start, pot, call, stack, ratios) == Best(start, call, false)
    ensures BestRaise(value, start, pot, call, stack, ratios).raised ==>
      && BestRaise(value, start, pot, call, stack, ratios).ev == value(BestRaise(value, start, pot, call, stack, ratios).amount)
      && BestRaise(value, start, pot, call, stack, ratios).ev > start
      && (exists k :: 0 <= k < |ratios| && BestRaise(value, start, pot, call, stack, ratios).amount == RaiseAmount(pot, call, ratios[k], stack))
    decreases |ratios|
  {
    if ratios != [] {
      var init := ratios[..|ratios| - 1];
      BestRaiseProperties(value, start, pot, call, stack, init);
      var prev := BestRaise(value, start, pot, call, stack, init);
      var b := BestRaise(value, start, pot, call, stack, ratios);
      if b.raised {
        if b == prev {
          var k :| 0 <= k < |init| && prev.amount == RaiseAmount(pot, call, init[k], stack);
          assert ratios[k] == init[k];
        } else {
          assert b.amount == RaiseAmount(pot, call, ratios[|ratios| - 1], stack);
        }
      }
    }
  }

  /** With nothing to call the rule checks below 35% equity and otherwise
      bets: within half a chip of 0.33, 0.66, 1 or 1.5 times the pot by
      equity band when there is no stack to cap it, never above the stack
      when there is, and never a negative amount out of a non-negative pot
      and stack. */
  lemma ImprovedOpening(e: real, pot: real, stack: Option<int>)
    ensures ImprovedChoice(e, pot, 0.0, stack).move in {Check, Bet}
    ensures ImprovedChoice(e, pot, 0.0, stack).move == Check <==> e < 0.35
    ensures ImprovedChoice(e, pot, 0.0, stack).move == Check ==> ImprovedChoice(e, pot, 0.0, stack).amount == 0.0
    ensures stack.None? && 0.35 <= e < 0.50 ==> -(1.0 / 2.0) <= ImprovedChoice(e, pot, 0.0, stack).amount - 0.33 * pot <= 1.0 / 2.0
    ensures stack.None? && 0.50 <= e < 0.65 ==> -(1.0 / 2.0) <= ImprovedChoice(e, pot, 0.0, stack).amount - 0.66 * pot <= 1.0 / 2.0
    ensures stack.None? && 0.65 <= e < 0.80 ==> -(1.0 / 2.0) <= ImprovedChoice(e, pot, 0.0, stack).amount - pot <= 1.0 / 2.0
    ensures stack.None? && 0.80 <= e ==> -(1.0 / 2.0) <= ImprovedChoice(e, pot, 0.0, stack).amount - 1.5 * pot <= 1.0 / 2.0
    ensures stack.Some? && ImprovedChoice(e, pot, 0.0, stack).move == Bet ==> ImprovedChoice(e, pot, 0.0, stack).amount <= stack.value as real
    ensures pot >= 0.0 && (stack.Some? ==> stack.value >= 0) ==> ImprovedChoice(e, pot, 0.0, stack).amount >= 0.0
  {
    assert ImprovedChoice(e, pot, 0.0, stack) == OpeningChoice(e, pot, stack);
    if e >= 0.35 {
      var x := OpeningBet(e, pot, stack);
      assert OpeningChoice(e, pot, stack).amount == RoundHalfEven(x) as real;
      if stack.Some? {
        RoundedCapWithin(pot * OpeningShare(e), stack);
      }
      if pot >= 0.0 && (stack.Some? ==> stack.value >= 0) {
        assert pot * OpeningShare(e) >= 0.0;
        RoundNonNegative(x);
      }
    }
  }

  /** Facing a bet the rule folds exactly when the equity is below the pot
      odds, calls (with the amount to call) in the band up to 0.20 above
      them, never checks or bets, and raises only when the equity clears the
      pot odds by more than 0.25. */
  lemma ImprovedFacingBet(e: real, pot: real, call: real, stack: Option<int>)
    requires call != 0.0
    ensures ImprovedChoice(e, pot, call, stack).move in {Fold, Call, Raise}
    ensures ImprovedChoice(e, pot, call, stack).move == Fold <==> e < PotOdds(pot, call)
    ensures ImprovedChoice(e, pot, call, stack).move == Fold ==> ImprovedChoice(e, pot, call, stack).amount == 0.0
    ensures PotOdds(pot, call) <= e < PotOdds(pot, call) + 0.20 ==> ImprovedChoice(e, pot, call, stack) == Decision(Call, call)
    ensures ImprovedChoice(e, pot, call, stack).move == Call ==> ImprovedChoice(e, pot, call, stack).amount == call
    ensures ImprovedChoice(e, pot, call, stack).move == Raise ==> e - PotOdds(pot, call) > 0.25
  {
  }

  /** Every raise the rule returns has a higher expected value than
      calling. */
  lemma ImprovedRaiseBeatsCall(e: real, pot: real, call: real, stack: Option<int>)
    ensures ImprovedChoice(e, pot, call, stack).move == Raise ==>
      EVBet(e, pot, call, ImprovedChoice(e, pot, call, stack).amount) > EVCall(e, pot, call)
  {
    var d := ImprovedChoice(e, pot, call, stack);
    if d.move == Raise {
      var best := ImprovedSearch(e, pot, call, stack);
      assert d == FinalChoice(e, pot, call, stack, best);
      BestRaiseProperties(BetValue(e, pot, call), EVCall(e, pot, call), pot, call, stack, RaiseRatios);
      if best.raised && best.ev > EVCall(e, pot, call) && d.amount == best.amount {
        assert best.ev == BetValue(e, pot, call)(best.amount);
      }
    }
  }

  /** Every raise the rule returns stays within the main character's
      stack. */
  lemma ImprovedRaiseWithinStack(e: real, pot: real, call: real, stack: Option<int>)
    requires stack.Some?
    ensures ImprovedChoice(e, pot, call, stack).move == Raise ==>
      ImprovedChoice(e, pot, call, stack).amount <= stack.value as real
  {
    var d := ImprovedChoice(e, pot, call, stack);
    if d.move == Raise {
      var best := ImprovedSearch(e, pot, call, stack);
      assert d == FinalChoice(e, pot, call, stack, best);
      BestRaiseProperties(BetValue(e, pot, call), EVCall(e, pot, call), pot, call, stack, RaiseRatios);
      var share := OptimalShare(e - PotOdds(pot, call));
      if share.Some? {
        RoundWithin(RaiseAmount(pot, call, share.value, stack), stack.value);
      }
      if best.raised {
        var k :| 0 <= k < |RaiseRatios| && best.amount == RaiseAmount(pot, call, RaiseRatios[k], stack);
      }
    }
  }
}
