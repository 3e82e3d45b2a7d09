/** Two scripted players that decide without any transcendental maths: the
    player that follows the statistics' recommendation
    (players_class/best_choice.py) and the calling station
    (players_class/calling_station.py). Their `action` reads the player's
    stack and never changes it, so each is a function of the stack and the
    arguments. An argument that is `None` or that `float()` cannot parse is
    `None` here. The returned dict `{move: amount}` is a `Decision`; the
    `True` of `{"fold": True}` and `{"check": True}` is an amount of 0. */
module Bots {
  import opened Py
  import opened Moves
  import opened Sizing

  /** `float(x)` with a default for `None` and unparseable values. */
  function ParseOr(x: Option<real>, default: real): real {
    if x.Some? then x.value else default
  }

  // ---------------------------------------------------------------------
  // best_choice

  /** `best_choice.action`: `choice` is the recommended move (`None` for no
      recommendation; a string other than the five moves acts as 'fold' and
      is `Some(Fold)` here). The amount to call and the recommended bet are
      clamped at 0; a call is capped at the stack and refused above 40% of
      the stack without 55% equity (30% assumed when unknown); a bet or
      raise is capped at the stack, turned into a check or a call below 1%
      of the stack, and rounded to a whole amount otherwise. */
  function BestChoiceAction(stack: real, amountToCall: Option<real>, choice: Option<Move>,
                            betAmount: Option<real>, winChance: Option<real>): Decision
  {
    var amount := MaxZero(ParseOr(amountToCall, 0.0));
    if choice.None? || stack <= 0.0 then Decision(Fold, 0.0)
    else if choice.value == Check then Decision(Check, 0.0)
    else if choice.value == Call then
      if amount > 0.4 * stack && ParseOr(winChance, 0.3) < 0.55 then Decision(Fold, 0.0)
      else Decision(Call, MinReal(amount, stack))
    else if choice.value == Bet || choice.value == Raise then
      var bet := MinReal(MaxZero(ParseOr(betAmount, 0.0)), stack);
      if bet < 0.01 * stack then
        if amount <= 0.0 then Decision(Check, 0.0) else Decision(Call, MinReal(amount, stack))
      else Decision(choice.value, RoundHalfEven(bet) as real)
    else Decision(Fold, 0.0)
  }

  /** A negative value replaced by 0, as `if x < 0: x = 0.0` does. */
  function MaxZero(x: real): (r: real)
    ensures r >= 0.0
    ensures x >= 0.0 ==> r == x
  {
    if x < 0.0 then 0.0 else x
  }

  /** The cases that fold outright: no recommendation, an empty stack, or
      a recommendation that is none of check, call, bet and raise. */
  lemma BestChoiceFolds(stack: real, amountToCall: Option<real>, choice: Option<Move>,
                        betAmount: Option<real>, winChance: Option<real>)
    ensures choice.None? || stack <= 0.0 || choice == Some(Fold) ==>
      BestChoiceAction(stack, amountToCall, choice, betAmount, winChance) == Decision(Fold, 0.0)
    ensures stack > 0.0 && choice == Some(Check) ==>
      BestChoiceAction(stack, amountToCall, choice, betAmount, winChance) == Decision(Check, 0.0)
  {
  }

  /** A 'call' recommendation: folded when the call is more than 40% of the
      stack and the equity (0.3 when unknown) is below 55%, otherwise a call
      of the amount to call, clamped to [0, stack]. */
  lemma BestChoiceCall(stack: real, amountToCall: Option<real>, betAmount: Option<real>, winChance: Option<real>)
    requires stack > 0.0
    ensures var amount := MaxZero(ParseOr(amountToCall, 0.0));
      (BestChoiceAction(stack, amountToCall, Some(Call), betAmount, winChance).move == Fold <==> amount > 0.4 * stack && ParseOr(winChance, 0.3) < 0.55)
    ensures (BestChoiceAction(stack, amountToCall, Some(Call), betAmount, None).move == Fold <==> ParseOr(amountToCall, 0.0) > 0.4 * stack)
    ensures BestChoiceAction(stack, amountToCall, Some(Call), betAmount, winChance).move == Call ==>
      && 0.0 <= BestChoiceAction(stack, amountToCall, Some(Call), betAmount, winChance).amount <= stack
      && (amountToCall.Some? && 0.0 <= amountToCall.value <= stack ==>
            BestChoiceAction(stack, amountToCall, Some(Call), betAmount, winChance).amount == amountToCall.value)
  {
  }

  /** A 'bet' or 'raise' recommendation keeps its key when the clamped bet
      reaches 1% of the stack, and is then the clamped bet rounded to a
      whole amount; below 1% it becomes a check with nothing to call and a
      call otherwise. */
  lemma BestChoiceBet(stack: real, amountToCall: Option<real>, choice: Move, betAmount: Option<real>, winChance: Option<real>)
    requires stack > 0.0 && (choice == Bet || choice == Raise)
    ensures var bet := MinReal(MaxZero(ParseOr(betAmount, 0.0)), stack);
      && 0.0 <= bet <= stack
      && (bet >= 0.01 * stack ==>
            BestChoiceAction(stack, amountToCall, Some(choice), betAmount, winChance) == Decision(choice, RoundHalfEven(bet) as real))
      && (bet < 0.01 * stack && MaxZero(ParseOr(amountToCall, 0.0)) == 0.0 ==>
            BestChoiceAction(stack, amountToCall, Some(choice), betAmount, winChance) == Decision(Check, 0.0))
      && (bet < 0.01 * stack && MaxZero(ParseOr(amountToCall, 0.0)) > 0.0 ==>
            BestChoiceAction(stack, amountToCall, Some(choice), betAmount, winChance).move == Call)
  {
  }

  /** No amount is negative, and with a non-negative whole-chip stack no
      amount exceeds the stack. */
  lemma BestChoiceWithinStack(stack: real, amountToCall: Option<real>, choice: Option<Move>,
                              betAmount: Option<real>, winChance: Option<real>)
    ensures BestChoiceAction(stack, amountToCall, choice, betAmount, winChance).amount >= 0.0
    ensures stack >= 0.0 && stack == stack.Floor as real ==>
      BestChoiceAction(stack, amountToCall, choice, betAmount, winChance).amount <= stack
  {
    var d := BestChoiceAction(stack, amountToCall, choice, betAmount, winChance);
    if stack > 0.0 && choice.Some? && (choice.value == Bet || choice.value == Raise) {
      var bet := MinReal(MaxZero(ParseOr(betAmount, 0.0)), stack);
      if bet >= 0.01 * stack {
        RoundNonNegative(bet);
        if stack == stack.Floor as real {
          RoundWithin(bet, stack.Floor);
        }
      }
    }
  }

  /** With a fractional stack the rounding can pass it: a bet recommended
      at 20 with a stack of 10.6 is capped at 10.6 and rounded to 11. */
  lemma BestChoiceRoundsPastFractionalStack()
    ensures BestChoiceAction(10.6, Some(0.0), Some(Bet), Some(20.0), None) == Decision(Bet, 11.0)
  {
    assert RoundHalfEven(10.6) == 11;
  }

  // ---------------------------------------------------------------------
  // Calling_station

  /** `Calling_station.action`: folds with an empty stack, checks with
      nothing to call, calls anything up to 2% of the stack, calls all-in
      only with 70% equity, calls up to 30% of the stack with 25% equity,
      and otherwise calls only when the equity reaches 0.25 × 0.7 and the
      draw `rand` (`np.random.rand()`) is below 0.08. A missing equity is
      0. */
  function CallingStationAction(stack: real, amountToCall: Option<real>, winChance: Option<real>, rand: real): Decision {
    var amount := ParseOr(amountToCall, 0.0);
    var win := ParseOr(winChance, 0.0);
    if stack <= 0.0 then Decision(Fold, 0.0)
    else if amount <= 0.0 then Decision(Check, 0.0)
    else if amount <= 0.02 * stack then Decision(Call, amount)
    else if amount >= stack then
      if win >= 0.70 then Decision(Call, stack) else Decision(Fold, 0.0)
    else if amount / stack <= 0.30 && win >= 0.25 then Decision(Call, amount)
    else if win >= 0.25 * 0.7 && rand < 0.08 then Decision(Call, amount)
    else Decision(Fold, 0.0)
  }

  /** The calling station only checks, calls or folds; a check or fold
      carries no amount and a call a positive amount within the stack. */
  lemma CallingStationMoves(stack: real, amountToCall: Option<real>, winChance: Option<real>, rand: real)
    ensures CallingStationAction(stack, amountToCall, winChance, rand).move in {Check, Call, Fold}
    ensures CallingStationAction(stack, amountToCall, winChance, rand).move != Call ==>
      CallingStationAction(stack, amountToCall, winChance, rand).amount == 0.0
    ensures CallingStationAction(stack, amountToCall, winChance, rand).move == Call ==>
      0.0 < CallingStationAction(stack, amountToCall, winChance, rand).amount <= stack
  {
  }

  /** The thresholds, case by case, for a positive stack and a positive
      amount to call `a`: everything up to 2% of the stack is called; a
      call of the whole stack or more is called (for the stack) exactly with
      70% equity; in between the call is made with 25% equity up to 30% of
      the stack, and otherwise exactly when the equity reaches 0.175 and the
      draw is below 0.08. */
  lemma CallingStationThresholds(stack: real, a: real, winChance: Option<real>, rand: real)
    requires stack > 0.0 && a > 0.0
    ensures a <= 0.02 * stack ==> CallingStationAction(stack, Some(a), winChance, rand) == Decision(Call, a)
    ensures a >= stack ==>
      (CallingStationAction(stack, Some(a), winChance, rand).move == Call <==> ParseOr(winChance, 0.0) >= 0.70)
    ensures a >= stack && ParseOr(winChance, 0.0) >= 0.70 ==>
      CallingStationAction(stack, Some(a), winChance, rand).amount == stack
    ensures 0.02 * stack < a <= 0.30 * stack && ParseOr(winChance, 0.0) >= 0.25 ==>
      CallingStationAction(stack, Some(a), winChance, rand) == Decision(Call, a)
    ensures 0.02 * stack < a < stack && !(a <= 0.30 * stack && ParseOr(winChance, 0.0) >= 0.25) ==>
      (CallingStationAction(stack, Some(a), winChance, rand).move == Call <==> ParseOr(winChance, 0.0) >= 0.175 && rand < 0.08)
  {
    DivAtMost(a, stack, 0.30);
  }

  /** A quotient by a positive number is at most `c` exactly when the
      dividend is at most `c` times the divisor. */
  lemma DivAtMost(a: real, s: real, c: real)
    requires s > 0.0
    ensures a / s <= c <==> a <= c * s
  {
    var q := a / s;
    assert q * s == a;
    assert c * s - a == (c - q) * s;
    if q <= c {
      assert (c - q) * s >= 0.0;
    } else {
      assert (q - c) * s > 0.0;
    }
  }

  /** An empty stack folds; a positive stack with nothing (or an unreadable
      amount) to call checks, whatever the equity and the draw. */
  lemma CallingStationEdges(stack: real, amountToCall: Option<real>, winChance: Option<real>, rand: real)
    ensures stack <= 0.0 ==> CallingStationAction(stack, amountToCall, winChance, rand) == Decision(Fold, 0.0)
    ensures stack > 0.0 && ParseOr(amountToCall, 0.0) <= 0.0 ==>
      CallingStationAction(stack, amountToCall, winChance, rand) == Decision(Check, 0.0)
    ensures stack > 0.0 && amountToCall.None? ==> CallingStationAction(stack, amountToCall, winChance, rand).move == Check
  {
  }
}
