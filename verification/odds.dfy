/** The closed-form statistics of the `Stat` classes: pot odds, minimum
    defence frequency, fold equity and the expected values of folding,
    calling and betting. The three `Stat` classes (Stats_improved.py,
    stats.py, code_v.2.0code_v2.0/stats.py) share these formulas word for
    word. `pot` is P, `call` (the amount to call) is C, `e` the equity. */
module Odds {

  /** `pot_odds()`: the share of the final pot the caller puts in, C/(P+C);
      0 when the pot and the call are both empty. */
  function PotOdds(pot: real, call: real): (r: real)
    ensures pot + call == 0.0 ==> r == 0.0
    ensures pot + call != 0.0 ==> r * (pot + call) == call
    ensures pot >= 0.0 && call >= 0.0 ==> 0.0 <= r <= 1.0
  {
    if pot + call == 0.0 then 0.0
    else
      Fraction(call, pot + call);
      call / (pot + call)
  }

  /** `MDF()`: P/(P+C), the share of hands that must defend; 1 when the pot
      and the call are both empty. */
  function MDF(pot: real, call: real): (r: real)
    ensures pot + call == 0.0 ==> r == 1.0
    ensures pot + call != 0.0 ==> r * (pot + call) == pot
    ensures pot >= 0.0 && call >= 0.0 ==> 0.0 <= r <= 1.0
  {
    if pot + call == 0.0 then 1.0
    else
      Fraction(pot, pot + call);
      pot / (pot + call)
  }

  /** `estimate_fold_equity()`: the prior 1 - MDF. */
  function FoldEquity(pot: real, call: real): (r: real)
    ensures pot + call == 0.0 ==> r == 0.0
    ensures pot + call != 0.0 ==> r * (pot + call) == call
  {
    1.0 - MDF(pot, call)
  }

  /** `EV_fold()`: folding neither wins nor loses anything more. */
  function EVFold(): (r: real)
    ensures r == 0.0
  {
    0.0
  }

  /** `EV_call(equity)`: e(P+C) - (1-e)C. */
  function EVCall(e: real, pot: real, call: real): (r: real)
    ensures r == e * (pot + 2.0 * call) - call
  {
    e * (pot + call) - (1.0 - e) * call
  }

  /** `EV_bet(bet_size, equity)`: with fold equity fe, fe·P + (1-fe)(EV_call - s). */
  function EVBet(e: real, pot: real, call: real, size: real): (r: real)
    ensures r == FoldEquity(pot, call) * pot + MDF(pot, call) * (EVCall(e, pot, call) - size)
  {
    var fe := FoldEquity(pot, call);
    fe * pot + (1.0 - fe) * (EVCall(e, pot, call) - size)
  }

  // ---------------------------------------------------------------------
  // Lemmas

  /** A part of a positive whole, divided by the whole, lies in [0, 1]. */
  lemma Fraction(a: real, d: real)
    requires d != 0.0
    ensures 0.0 <= a <= d ==> 0.0 <= a / d <= 1.0
  {
    if 0.0 <= a <= d {
      assert d > 0.0;
      assert a / d * d == a;
    }
  }

  /** Pot odds and the defence frequency split 1 whenever the division is
      taken, and fold equity then coincides with the pot odds. */
  lemma PotOddsAndMDF(pot: real, call: real)
    requires pot + call != 0.0
    ensures PotOdds(pot, call) + MDF(pot, call) == 1.0
    ensures FoldEquity(pot, call) == PotOdds(pot, call)
  {
    var d := pot + call;
    var a := PotOdds(pot, call);
    var b := MDF(pot, call);
    assert (a + b - 1.0) * d == a * d + b * d - d;
    ProductZero(a + b - 1.0, d);
  }

  /** A product with a non-zero factor vanishes only with the other one. */
  lemma ProductZero(x: real, d: real)
    requires d != 0.0 && x * d == 0.0
    ensures x == 0.0
  {
  }

  /** With nothing in the pot and nothing to call the guards answer 0 and 1,
      which still add up to 1. */
  lemma GuardedOdds(pot: real, call: real)
    requires pot + call == 0.0
    ensures PotOdds(pot, call) + MDF(pot, call) == 1.0
    ensures FoldEquity(pot, call) == 0.0
  {
  }

  /** Calling breaks even at equity C/(P+2C), not at the pot odds C/(P+C):
      the call formula counts the caller's own chips among the winnings. */
  lemma CallBreakEven(e: real, pot: real, call: real)
    requires pot + 2.0 * call > 0.0
    ensures EVCall(e, pot, call) >= 0.0 <==> e * (pot + 2.0 * call) >= call
  {
  }

  /** An equity below the pot odds (so a fold in the decision rules) can
      still give the call a positive expected value: P = C = 100, e = 0.4. */
  lemma FoldBelowPotOddsDespitePositiveEV()
    ensures 0.4 < PotOdds(100.0, 100.0)
    ensures EVCall(0.4, 100.0, 100.0) > 0.0
  {
    assert PotOdds(100.0, 100.0) == 0.5;
  }

  /** The expected value of a bet falls as the bet grows whenever fold
      equity is below 1, and does not depend on the size when it is 1. */
  lemma BetEVMonotone(e: real, pot: real, call: real, s1: real, s2: real)
    requires s1 < s2
    ensures MDF(pot, call) > 0.0 ==> EVBet(e, pot, call, s1) > EVBet(e, pot, call, s2)
    ensures MDF(pot, call) == 0.0 ==> EVBet(e, pot, call, s1) == EVBet(e, pot, call, s2)
  {
    var m := MDF(pot, call);
    var fe := FoldEquity(pot, call);
    var c := EVCall(e, pot, call);
    assert EVBet(e, pot, call, s1) == fe * pot + m * (c - s1);
    assert EVBet(e, pot, call, s2) == fe * pot + m * (c - s2);
    assert m * (c - s1) - m * (c - s2) == m * (s2 - s1);
    if m > 0.0 {
      assert m * (s2 - s1) > 0.0;
    }
  }

  /** With nothing to call the bet is never folded to (fold equity 0 when
      the pot is non-zero) and its value is the call's value minus the bet. */
  lemma BetWithNothingToCall(e: real, pot: real, size: real)
    requires pot != 0.0
    ensures FoldEquity(pot, 0.0) == 0.0
    ensures EVBet(e, pot, 0.0, size) == e * pot - size
  {
    assert MDF(pot, 0.0) == 1.0;
  }
}
