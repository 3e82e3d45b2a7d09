/** Pieces shared by the three `win_chance_and_choice` rules: the cap at the
    main character's stack, the best option found so far while candidate
    raises are tried, and the bound that `round` keeps under a whole-chip
    stack. */
module Sizing {
  import opened Py

  /** `min(x, main_character.stack)` when there is a main character with a
      stack (its stack is a whole number of chips), `x` otherwise. */
  function Cap(x: real, stack: Option<int>): (r: real)
    ensures r <= x
    ensures stack.Some? ==> r <= stack.value as real && (r == x || r == stack.value as real)
    ensures stack.None? ==> r == x
  {
    if stack.Some? then MinReal(x, stack.value as real) else x
  }

  /** The option kept by a raise search: its expected value, its amount, and
      whether it is a raise (`best_action`) rather than the initial call. */
  datatype Best = Best(ev: real, amount: real, raised: bool)

  /** Rounding to the nearest whole number never passes a whole number the
      value does not pass. */
  lemma RoundWithin(x: real, n: int)
    requires x <= n as real
    ensures RoundHalfEven(x) <= n
  {
    var r := RoundHalfEven(x);
    assert r as real <= n as real + 1.0 / 2.0;
  }

  /** Rounding a non-negative value gives a non-negative whole number. */
  lemma RoundNonNegative(x: real)
    requires x >= 0.0
    ensures RoundHalfEven(x) >= 0
  {
    var r := RoundHalfEven(x);
    assert r as real >= -(1.0 / 2.0);
  }

  /** Rounding keeps a capped amount within the stack. */
  lemma RoundedCapWithin(x: real, stack: Option<int>)
    requires stack.Some?
    ensures RoundHalfEven(Cap(x, stack)) <= stack.value
  {
    RoundWithin(Cap(x, stack), stack.value);
  }
}
