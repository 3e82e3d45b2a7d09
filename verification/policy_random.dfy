/** The decision rule of stats.py (`win_chance_and_choice`), which mixes
    its choices with random draws. The draws are parameters: `coin` is the
    one `random.random()` a path compares with a frequency, `u` the
    `random.random()` inside `random.uniform(a, b)`, which Python computes
    as a + (b - a)·u. The equity it starts from is the cached `get_equity`,
    `Stat.RandomWinChanceAndChoice`. */
module RandomPolicy {
  import opened Py
  import opened Moves
  import opened Odds
  import opened Sizing

  /** `position_main_character`; `Elsewhere` stands for any other value,
      `None` included. */
  datatype Position = BTN | CO | MP | UTG | SB | BB | Elsewhere

  /** The aggression bonus of a seat, 0.10 for an unlisted one. */
  function PositionAggression(p: Position): real {
    match p
    case BTN => 0.15
    case CO => 0.12
    case MP => 0.08
    case UTG => 0.05
    case SB => 0.10
    case BB => 0.07
    case Elsewhere => 0.10
  }

  /** The aggression bonus by street, preflop to river. */
  const StageAggression: seq<real> := [0.05, 0.12, 0.15, 0.18]

  /** The main character's stack, 10000 without a main character. */
  function PlayerStack(stack: Option<int>): int {
    if stack.Some? then stack.value else 10000
  }

  /** The stack-to-pot ratio, the pot counted as at least 1. */
  function StackToPot(ps: int, pot: real): real {
    ps as real / MaxReal(pot, 1.0)
  }

  /** `random.uniform(lo, hi)` from the draw `u`. */
  function Uniform(lo: real, hi: real, u: real): real {
    lo + (hi - lo) * u
  }

  /** `int(pot * random.uniform(lo, hi))` */
  function PotFraction(pot: real, lo: real, hi: real, u: real): int {
    Trunc(pot * Uniform(lo, hi, u))
  }

  /** The rule with nothing to call: bluff, bet for value or check, each
      with a frequency raised by the aggression bonus `agg`. */
  function OpenChoice(e: real, pot: real, ps: int, spr: real, stage: int, agg: real, coin: real, u: real): Decision {
    if e < 0.35 then
      if coin < 0.25 + agg then
        var size := if stage == 0 then PotFraction(pot, 0.60, 0.85, u) else PotFraction(pot, 0.50, 0.75, u);
        Decision(Bet, Min(size, ps) as real)
      else Decision(Check, 0.0)
    else if e < 0.60 then
      if coin < 0.65 + agg then
        var size := if spr < 3.0 then PotFraction(pot, 0.70, 0.95, u) else PotFraction(pot, 0.55, 0.75, u);
        Decision(Bet, Min(size, ps) as real)
      else Decision(Check, 0.0)
    else
      var checkFrequency := if stage >= 2 then 0.05 else 0.02;
      if coin < checkFrequency then Decision(Check, 0.0)
      else
        var size :=
          if spr < 2.0 then ps
          else if e > 0.80 then PotFraction(pot, 0.60, 0.85, u)
          else PotFraction(pot, 0.50, 0.75, u);
        Decision(Bet, Min(size, ps) as real)
  }

  /** The raises tried, as shares of the pot, short-stacked or deep. */
  function PressureFactors(spr: real): seq<real> {
    if spr < 3.0 then [0.5, 0.75, 1.0] else [0.35, 0.5, 0.65]
  }

  /** The raise for one factor: 2.5 times the call plus that share of the
      pot, truncated and capped at the stack. */
  function PressureSize(pot: real, call: real, ps: int, factor: real): int {
    Min(Trunc(call * 2.5 + pot * factor), ps)
  }

  /** The value of raising to `size`: `EV_bet` of the chips added beyond
      the call, plus the pressure bonus (e - 0.5)·size·0.05. */
  function PressureEV(e: real, pot: real, call: real, size: real): real {
    EVBet(e, pot, call, size - call) + (e - 0.50) * size * 0.05
  }

  /** `PressureEV` at the given equity, pot and call, as a function of the
      raise. */
  function PressureValue(e: real, pot: real, call: real): real -> real {
    size => PressureEV(e, pot, call, size)
  }

  /** One step of the raise search: a raise not above twice the call is
      skipped; otherwise it is kept when its value beats the best so far. */
  function ConsiderPressure(value: real -> real, pot: real, call: real, ps: int, best: Best, factor: real): Best {
    var size := PressureSize(pot, call, ps, factor);
    if size as real <= call * 2.0 then best
    else
      var ev := value(size as real);
      if ev > best.ev then Best(ev, size as real, true) else best
  }

  /** The search over `factors`, from the call (worth `start`). */
  function BestPressure(value: real -> real, start: real, pot: real, call: real, ps: int, factors: seq<real>): Best
    decreases |factors|
  {
    if factors == [] then Best(start, call, false)
    else ConsiderPressure(value, pot, call, ps, BestPressure(value, start, pot, call, ps, factors[..|factors| - 1]), factors[|factors| - 1])
  }

  /** The raise frequency of a profitable call, by equity. */
  function RaiseFrequency(e: real, agg: real): real {
    if e > 0.55 then 0.45 + agg
    else if e > 0.45 then 0.25 + agg
    else 0.10 + agg
  }

  /** The call frequency of a bluff catcher, clamped to [0.15, 0.65]. */
  function BluffCatchFrequency(e: real, pot: real, call: real, agg: real): real {
    MaxReal(0.15, MinReal(0.65, 0.30 + (PotOdds(pot, call) - e) * 0.5 + agg))
  }

  /** The rule facing a bet of `call`, once the search (`best`, used only
      when the call is profitable and the raise draw succeeds) is known. */
  function FacingChoice(e: real, pot: real, call: real, ps: int, agg: real, coin: real, best: Best): Decision {
    var evCall := EVCall(e, pot, call);
    if call >= ps as real then
      var tolerance := if e > 0.35 then 10.0 else 5.0;
      Decision(if evCall >= -tolerance then Call else Fold, ps as real)
    else if e < 0.20 && evCall < -call * 0.5 then Decision(Fold, 0.0)
    else if 0.35 < e < 0.52 && evCall < 0.0 then
      if coin < BluffCatchFrequency(e, pot, call, agg) then Decision(Call, call) else Decision(Fold, 0.0)
    else if evCall > 0.0 then
      if coin < RaiseFrequency(e, agg) then Decision(if best.raised then Bet else Call, best.amount)
      else Decision(Call, call)
    else if 0.30 < e < 0.45 && call < pot * 0.4 && coin < 0.20 + agg * 0.5 then Decision(Call, call)
    else Decision(Fold, 0.0)
  }

  /** The search over the factors for the stack-to-pot ratio, valued by
      `PressureEV`. */
  function RandomSearch(e: real, pot: real, call: real, ps: int): Best {
    BestPressure(PressureValue(e, pot, call), EVCall(e, pot, call), pot, call, ps, PressureFactors(StackToPot(ps, pot)))
  }

  /** The whole rule, as a function of the equity and the draws. The stage
      index `min(stage, 3)` is a Python index, so a stage below -4 raises. */
  function RandomChoice(e: real, pot: real, call: real, stack: Option<int>, position: Position, stage: int, coin: real, u: real): Result<Decision> {
    var ps := PlayerStack(stack);
    var stageAggression := PyIndex(StageAggression, Min(stage, 3));
    if stageAggression.Err? then Err(stageAggression.error)
    else
      var agg := PositionAggression(position) + stageAggression.value;
      if call == 0.0 then Ok(OpenChoice(e, pot, ps, StackToPot(ps, pot), stage, agg, coin, u))
      else Ok(FacingChoice(e, pot, call, ps, agg, coin, RandomSearch(e, pot, call, ps)))
  }

  /** `win_chance_and_choice` once the equity is known. */
  method RandomDecision(e: real, pot: real, call: real, stack: Option<int>, position: Position, stage: int, coin: real, u: real)
    returns (r: Result<Decision>)
    ensures r == RandomChoice(e, pot, call, stack, position, stage, coin, u)
  {
    var ps := PlayerStack(stack);
    var spr := StackToPot(ps, pot);
    var stageAggression := PyIndex(StageAggression, Min(stage, 3));
    if stageAggression.Err? {
      return Err(stageAggression.error);
    }
    var agg := PositionAggression(position) + stageAggression.value;
    if call == 0.0 {
      return Ok(OpenChoice(e, pot, ps, spr, stage, agg, coin, u));
    }
    var d := FacingDecision(e, pot, call, ps, agg, coin);
    r := Ok(d);
  }

  /** The branch facing a bet, step by step: the all-in decision, the
      obvious fold, the bluff catcher, the raise search of a profitable
      call, the occasional defence, and the fold by default. */
  method FacingDecision(e: real, pot: real, call: real, ps: int, agg: real, coin: real) returns (d: Decision)
    ensures d == FacingChoice(e, pot, call, ps, agg, coin, RandomSearch(e, pot, call, ps))
  {
    var evCall := EVCall(e, pot, call);
    if call >= ps as real {
      var tolerance := if e > 0.35 then 10.0 else 5.0;
      return Decision(if evCall >= -tolerance then Call else Fold, ps as real);
    }
    if e < 0.20 && evCall < -call * 0.5 {
      return Decision(Fold, 0.0);
    }
    if 0.35 < e < 0.52 && evCall < 0.0 {
      if coin < BluffCatchFrequency(e, pot, call, agg) {
        return Decision(Call, call);
      }
      return Decision(Fold, 0.0);
    }
    if evCall > 0.0 {
      if coin < RaiseFrequency(e, agg) {
        var best := SearchPressure(e, pot, call, ps, PressureFactors(StackToPot(ps, pot)));
        return Decision(if best.raised then Bet else Call, best.amount);
      }
      return Decision(Call, call);
    }
    if 0.30 < e < 0.45 && call < pot * 0.4 && coin < 0.20 + agg * 0.5 {
      return Decision(Call, call);
    }
    d := Decision(Fold, 0.0);
  }

  /** The loop over `raise_factors`: a raise not above twice the call is
      skipped, and one whose value beats the best so far replaces it. */
  method SearchPressure(e: real, pot: real, call: real, ps: int, factors: seq<real>) returns (best: Best)
    ensures best == BestPressure(PressureValue(e, pot, call), EVCall(e, pot, call), pot, call, ps, factors)
  {
    var bestEv := EVCall(e, pot, call);
    var bestAmount := call;
    var raised := false;
    var i := 0;
    while i < |factors|
      invariant 0 <= i <= |factors|
      invariant Best(bestEv, bestAmount, raised) == BestPressure(PressureValue(e, pot, call), EVCall(e, pot, call), pot, call, ps, factors[..i])
    {
      BestPressureSnoc(PressureValue(e, pot, call), EVCall(e, pot, call), pot, call, ps, factors, i);
      var raiseSize := PressureSize(pot, call, ps, factors[i]);
      if raiseSize as real > call * 2.0 {
        var evRaise := PressureEV(e, pot, call, raiseSize as real);
        if evRaise > bestEv {
          bestEv := evRaise;
          bestAmount := raiseSize as real;
          raised := true;
        }
      }
      i := i + 1;
    }
    assert factors[..i] == factors;
    best := Best(bestEv, bestAmount, raised);
  }

  /** One more factor is one more step of the search. */
  lemma BestPressureSnoc(value: real -> real, start: real, pot: real, call: real, ps: int, factors: seq<real>, i: int)
    requires 0 <= i < |factors|
    ensures BestPressure(value, start, pot, call, ps, factors[..i + 1])
      == ConsiderPressure(value, pot, call, ps, BestPressure(value, start, pot, call, ps, factors[..i]), factors[i])
  {
    assert factors[..i + 1][..i] == factors[..i];
  }

  // ---------------------------------------------------------------------
  // Lemmas

  /** The search never ends below where it started; a raise it keeps is
      worth its value, more than the start, is a whole number of chips
      above twice the call and is within the stack. */
  lemma {:induction false} BestPressureProperties(value: real -> real, start: real, pot: real, call: real, ps: int, factors: seq<real>)
    ensures BestPressure(value, start, pot, call, ps, factors).ev >= start
    ensures !BestPressure(value, start, pot, call, ps, factors).raised ==>
      BestPressure(value, start, pot, call, ps, factors) == Best(start, call, false)
    ensures BestPressure(value, start, pot, call, ps, factors).raised ==>
      && BestPressure(value, start, pot, call, ps, factors).ev == value(BestPressure(value, start, pot, call, ps, factors).amount)
      && BestPressure(value, start, pot, call, ps, factors).ev > start
      && BestPressure(value, start, pot, call, ps, factors).amount > call * 2.0
      && BestPressure(value, start, pot, call, ps, factors).amount <= ps as real
      && BestPressure(value, start, pot, call, ps, factors).amount == BestPressure(value, start, pot, call, ps, factors).amount.Floor as real
    decreases |factors|
  {
    if factors != [] {
      BestPressureProperties(value, start, pot, call, ps, factors[..|factors| - 1]);
    }
  }

  /** The rule raises `IndexError` exactly when the stage is below -4, and
      otherwise decides. */
  lemma RandomStageError(e: real, pot: real, call: real, stack: Option<int>, position: Position, stage: int, coin: real, u: real)
    ensures RandomChoice(e, pot, call, stack, position, stage, coin, u).Err? <==> stage < -4
    ensures RandomChoice(e, pot, call, stack, position, stage, coin, u).Err? ==>
      RandomChoice(e, pot, call, stack, position, stage, coin, u).error == IndexError
  {
  }

  /** Whatever the draws, the rule never says 'raise', and every bet is
      within the player's stack (10000 without a main character). */
  lemma RandomBetWithinStack(e: real, pot: real, call: real, stack: Option<int>, position: Position, stage: int, coin: real, u: real)
    ensures RandomChoice(e, pot, call, stack, position, stage, coin, u).Ok? ==>
      && RandomChoice(e, pot, call, stack, position, stage, coin, u).value.move != Raise
      && (RandomChoice(e, pot, call, stack, position, stage, coin, u).value.move == Bet ==>
            RandomChoice(e, pot, call, stack, position, stage, coin, u).value.amount <= PlayerStack(stack) as real)
  {
    var ps := PlayerStack(stack);
    if call != 0.0 {
      BestPressureProperties(PressureValue(e, pot, call), EVCall(e, pot, call), pot, call, ps, PressureFactors(StackToPot(ps, pot)));
    }
  }

  /** With nothing to call the rule checks (for nothing) or bets. */
  lemma RandomOpening(e: real, pot: real, stack: Option<int>, position: Position, stage: int, coin: real, u: real)
    requires stage >= -4
    ensures RandomChoice(e, pot, 0.0, stack, position, stage, coin, u).Ok?
    ensures RandomChoice(e, pot, 0.0, stack, position, stage, coin, u).value.move in {Check, Bet}
    ensures RandomChoice(e, pot, 0.0, stack, position, stage, coin, u).value.move == Check ==>
      RandomChoice(e, pot, 0.0, stack, position, stage, coin, u).value.amount == 0.0
  {
  }

  /** Facing a bet at least as large as the stack the rule calls exactly
      when the call loses no more than the tolerance (10 chips above 35%
      equity, 5 otherwise), folds otherwise, and names the whole stack
      either way. */
  lemma RandomAllIn(e: real, pot: real, call: real, stack: Option<int>, position: Position, stage: int, coin: real, u: real)
    requires stage >= -4 && call != 0.0 && call >= PlayerStack(stack) as real
    ensures RandomChoice(e, pot, call, stack, position, stage, coin, u).Ok?
    ensures RandomChoice(e, pot, call, stack, position, stage, coin, u).value.amount == PlayerStack(stack) as real
    ensures RandomChoice(e, pot, call, stack, position, stage, coin, u).value.move in {Call, Fold}
    ensures RandomChoice(e, pot, call, stack, position, stage, coin, u).value.move == Call <==>
      EVCall(e, pot, call) >= -(if e > 0.35 then 10.0 else 5.0)
  {
  }

  /** Facing a bet below the stack: below 20% equity a call losing more
      than half the bet is always folded; a call names the amount to call
      or a raise above twice it; a call that loses chips is made only as a
      bluff catcher (equity between 35% and 52%) or as the occasional
      defence (equity between 30% and 45% against a bet under 40% of the
      pot); and the rule never checks. */
  lemma RandomFacingBet(e: real, pot: real, call: real, stack: Option<int>, position: Position, stage: int, coin: real, u: real)
    requires stage >= -4 && call != 0.0 && call < PlayerStack(stack) as real
    ensures RandomChoice(e, pot, call, stack, position, stage, coin, u).Ok?
    ensures e < 0.20 && EVCall(e, pot, call) < -call * 0.5 ==>
      RandomChoice(e, pot, call, stack, position, stage, coin, u).value == Decision(Fold, 0.0)
    ensures RandomChoice(e, pot, call, stack, position, stage, coin, u).value.move in {Fold, Call, Bet}
    ensures RandomChoice(e, pot, call, stack, position, stage, coin, u).value.move == Fold ==>
      RandomChoice(e, pot, call, stack, position, stage, coin, u).value.amount == 0.0
    ensures RandomChoice(e, pot, call, stack, position, stage, coin, u).value.move == Call ==>
      RandomChoice(e, pot, call, stack, position, stage, coin, u).value.amount == call
    ensures RandomChoice(e, pot, call, stack, position, stage, coin, u).value.move == Bet ==>
      RandomChoice(e, pot, call, stack, position, stage, coin, u).value.amount > call * 2.0
    ensures RandomChoice(e, pot, call, stack, position, stage, coin, u).value.move == Call && EVCall(e, pot, call) <= 0.0 ==>
      (0.35 < e < 0.52 && EVCall(e, pot, call) < 0.0) || (0.30 < e < 0.45 && call < pot * 0.4)
  {
    var ps := PlayerStack(stack);
    BestPressureProperties(PressureValue(e, pot, call), EVCall(e, pot, call), pot, call, ps, PressureFactors(StackToPot(ps, pot)));
  }
}
