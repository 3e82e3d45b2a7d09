/** The `Stat` object of Stats_improved.py: the situation of the main
    player (hand, board, pot, amount to call), the cards the opponent may
    still hold, the opponent's weighted range, and the cached equity. The
    `Stat` classes of stats.py and code_v.2.0code_v2.0/stats.py keep the
    same equity cache and no range. */
module Statistics {
  import opened Lists
  import opened Cards
  import opened Py
  import opened Moves
  import opened Equity
  import opened Ranges
  import ImprovedPolicy
  import TierPolicy
  import RandomPolicy

  class Stat {
    var hand: seq<Card>
    var board: seq<Card>
    var pot: real
    var amountToCall: real
    /** `opp_hand`: the cards the opponent may hold, in deck order. */
    var oppHand: seq<Card>
    /** `opponent_range`: the `{combo: weight}` dict in key order. */
    var opponentRange: seq<Weighted>
    /** `_equity_cache`: `None` until the first `get_equity`. */
    var equityCache: Option<real>

    /** The opponent's cards are unseen, the range has each combo once, its
        weights are positive and, unless it is empty, sum to 1. */
    ghost predicate Valid()
      reads this
    {
      && (forall c :: c in oppHand ==> c !in hand + board)
      && NoDups(Combos(opponentRange))
      && (forall i :: 0 <= i < |opponentRange| ==> opponentRange[i].weight > 0.0)
      && (opponentRange != [] ==> SumReal(Weights(opponentRange)) == 1.0)
    }

    /** `Stat(hand, board, pot, amount_to_call)`, with `deck` the shuffled
        deck `Deal().cards_init()` returns: the opponent's cards are the
        unseen cards in deck order and the range is the full range over
        them. */
    constructor (hand: seq<Card>, board: seq<Card>, pot: real, amountToCall: real, deck: seq<Card>)
      ensures Valid()
      ensures this.hand == hand && this.board == board
      ensures this.pot == pot && this.amountToCall == amountToCall
      ensures oppHand == Available(deck, hand + board)
      ensures opponentRange == FullRange(oppHand)
      ensures equityCache == None
    {
      this.hand := hand;
      this.board := board;
      this.pot := pot;
      this.amountToCall := amountToCall;
      var unseen := Available(deck, hand + board);
      oppHand := unseen;
      var range := InitFullRange(unseen);
      opponentRange := range;
      equityCache := None;
      new;
      FullRangeValid(unseen);
    }

    /** `get_equity(num)`: the cached equity if there is one, whatever
        `num` is; otherwise `Monte_Carlo(num)`, which is cached when it
        returns. `deck` and `pools` stand for the shuffles of that run. */
    method GetEquity(num: int, deck: seq<Card>, pools: seq<seq<Card>>) returns (r: Result<real>)
      requires |pools| == (if num > 0 then num else 0)
      requires forall i :: 0 <= i < |pools| ==> multiset(pools[i]) == multiset(Available(deck, hand + board))
      requires forall i :: 0 <= i < |pools| ==> |pools[i]| == |Available(deck, hand + board)|
      modifies this
      ensures hand == old(hand) && board == old(board) && pot == old(pot) && amountToCall == old(amountToCall)
      ensures oppHand == old(oppHand) && opponentRange == old(opponentRange)
      ensures old(equityCache).Some? ==> r == Ok(old(equityCache).value) && equityCache == old(equityCache)
      ensures old(equityCache).None? ==>
        && r == MonteCarloEquity(hand, board, num, |Available(deck, hand + board)|, pools)
        && equityCache == (if r.Ok? then Some(r.value) else None)
      ensures r.Ok? ==> 0.0 <= r.value <= 1.0 || old(equityCache).Some?
    {
      if equityCache.None? {
        r := MonteCarlo(hand, board, deck, num, pools);
        if r.Ok? {
          equityCache := Some(r.value);
        }
      } else {
        r := Ok(equityCache.value);
      }
    }

    /** `win_chance_and_choice(num)` of Stats_improved.py: a fresh Monte
        Carlo equity (the cache is neither read nor written) and the
        decision for it; `stack` is the main character's stack, if any. */
    method ImprovedWinChanceAndChoice(num: int, deck: seq<Card>, pools: seq<seq<Card>>, stack: Option<int>)
      returns (r: Result<(real, Decision)>)
      requires |pools| == (if num > 0 then num else 0)
      requires forall i :: 0 <= i < |pools| ==> multiset(pools[i]) == multiset(Available(deck, hand + board))
      requires forall i :: 0 <= i < |pools| ==> |pools[i]| == |Available(deck, hand + board)|
      ensures MonteCarloEquity(hand, board, num, |Available(deck, hand + board)|, pools).Err? ==>
        r == Err(MonteCarloEquity(hand, board, num, |Available(deck, hand + board)|, pools).error)
      ensures MonteCarloEquity(hand, board, num, |Available(deck, hand + board)|, pools).Ok? ==>
        && r.Ok?
        && r.value.0 == MonteCarloEquity(hand, board, num, |Available(deck, hand + board)|, pools).value
        && r.value.1 == ImprovedPolicy.ImprovedChoice(r.value.0, pot, amountToCall, stack)
        && 0.0 <= r.value.0 <= 1.0
    {
      var equity := MonteCarlo(hand, board, deck, num, pools);
      if equity.Err? {
        return Err(equity.error);
      }
      var d := ImprovedPolicy.ImprovedDecision(equity.value, pot, amountToCall, stack);
      r := Ok((equity.value, d));
    }

    /** `win_chance_and_choice(num)` of code_v.2.0code_v2.0/stats.py: a
        fresh Monte Carlo equity and the tiered decision for it. */
    method TierWinChanceAndChoice(num: int, deck: seq<Card>, pools: seq<seq<Card>>, stack: Option<int>)
      returns (r: Result<(real, Decision)>)
      requires |pools| == (if num > 0 then num else 0)
      requires forall i :: 0 <= i < |pools| ==> multiset(pools[i]) == multiset(Available(deck, hand + board))
      requires forall i :: 0 <= i < |pools| ==> |pools[i]| == |Available(deck, hand + board)|
      ensures MonteCarloEquity(hand, board, num, |Available(deck, hand + board)|, pools).Err? ==>
        r == Err(MonteCarloEquity(hand, board, num, |Available(deck, hand + board)|, pools).error)
      ensures MonteCarloEquity(hand, board, num, |Available(deck, hand + board)|, pools).Ok? ==>
        && r.Ok?
        && r.value.0 == MonteCarloEquity(hand, board, num, |Available(deck, hand + board)|, pools).value
        && r.value.1 == TierPolicy.TierChoice(r.value.0, pot, amountToCall, stack)
        && 0.0 <= r.value.0 <= 1.0
    {
      var equity := MonteCarlo(hand, board, deck, num, pools);
      if equity.Err? {
        return Err(equity.error);
      }
      r := Ok((equity.value, TierPolicy.TierChoice(equity.value, pot, amountToCall, stack)));
    }

    /** `win_chance_and_choice(num)` of stats.py: the cached equity of
        `get_equity`, then the decision for it with the draws `coin` and
        `u`, the seat and the street. */
    method RandomWinChanceAndChoice(num: int, deck: seq<Card>, pools: seq<seq<Card>>, stack: Option<int>,
                                    position: RandomPolicy.Position, stage: int, coin: real, u: real)
      returns (r: Result<(real, Decision)>)
      requires |pools| == (if num > 0 then num else 0)
      requires forall i :: 0 <= i < |pools| ==> multiset(pools[i]) == multiset(Available(deck, hand + board))
      requires forall i :: 0 <= i < |pools| ==> |pools[i]| == |Available(deck, hand + board)|
      modifies this
      ensures hand == old(hand) && board == old(board) && pot == old(pot) && amountToCall == old(amountToCall)
      ensures oppHand == old(oppHand) && opponentRange == old(opponentRange)
      ensures old(equityCache).Some? ==> equityCache == old(equityCache)
      ensures old(equityCache).None? ==>
        equityCache == (var m := MonteCarloEquity(hand, board, num, |Available(deck, hand + board)|, pools);
                        if m.Ok? then Some(m.value) else None)
      ensures equityCache.Some? ==>
        var d := RandomPolicy.RandomChoice(equityCache.value, pot, amountToCall, stack, position, stage, coin, u);
        r == (if d.Ok? then Ok((equityCache.value, d.value)) else Err(d.error))
      ensures equityCache.None? ==> r.Err?
    {
      var equity := GetEquity(num, deck, pools);
      if equity.Err? {
        return Err(equity.error);
      }
      var d := RandomPolicy.RandomDecision(equity.value, pot, amountToCall, stack, position, stage, coin, u);
      if d.Err? {
        return Err(d.error);
      }
      r := Ok((equity.value, d.value));
    }

    /** `apply_action(action, sizing_ratio, board)`: reweighs every combo of
        the range for the observed action and the board's texture, clamps
        and renormalises the weights, then keeps in `opp_hand` only the
        cards of combos left with weight at least 0.001. An empty range
        leaves everything as it is. */
    method ApplyAction(action: Move, sizing: real, onBoard: seq<Card>)
      requires Valid()
      modifies this
      ensures Valid()
      ensures opponentRange == ApplyActionRange(old(opponentRange), action, sizing, onBoard)
      ensures old(opponentRange) != [] ==> oppHand == NarrowOppHand(old(oppHand), opponentRange)
      ensures old(opponentRange) == [] ==> oppHand == old(oppHand)
      ensures hand == old(hand) && board == old(board) && pot == old(pot) && amountToCall == old(amountToCall)
      ensures equityCache == old(equityCache)
    {
      if opponentRange == [] {
        return;
      }
      var range := opponentRange;
      var newRange := ReweighAll(range, action, sizing, BoardTexture(onBoard));
      var total := SumReal(Weights(newRange));
      var normalized: seq<Weighted>;
      if total > 0.0 {
        normalized := Normalized(newRange, total);
      } else {
        normalized := Uniform(Combos(newRange));
      }
      assert normalized == ApplyActionRange(range, action, sizing, onBoard);
      ApplyActionProperties(range, action, sizing, onBoard);
      var narrowed := NarrowOppHand(oppHand, normalized);
      SubsequenceMembers(narrowed, oppHand);
      opponentRange := normalized;
      oppHand := narrowed;
    }
  }

  /** The loop of `apply_action` over `opponent_range.items()`: each combo's
      weight multiplied by the factors for its strength, the action, the
      sizing and the texture, then clamped, into `new_range`. */
  method ReweighAll(range: seq<Weighted>, action: Move, sizing: real, texture: Texture)
    returns (newRange: seq<Weighted>)
    ensures newRange == Reweighted(range, action, sizing, texture)
  {
    newRange := [];
    var i := 0;
    while i < |range|
      invariant 0 <= i <= |range|
      invariant newRange == Reweighted(range[..i], action, sizing, texture)
    {
      var entry := range[i];
      var strength := HandCategory(entry.combo);
      ReweightedSnoc(range, i, action, sizing, texture);
      newRange := newRange + [Weighted(entry.combo, Reweigh(entry.weight, action, sizing, strength, texture))];
      i := i + 1;
    }
    assert range[..i] == range;
  }

  /** The step of the reweighing loop. */
  lemma ReweightedSnoc(range: seq<Weighted>, i: int, action: Move, sizing: real, t: Texture)
    requires 0 <= i < |range|
    ensures Reweighted(range[..i + 1], action, sizing, t)
      == Reweighted(range[..i], action, sizing, t)
         + [Weighted(range[i].combo, Reweigh(range[i].weight, action, sizing, HandCategory(range[i].combo), t))]
  {
    var a := Reweighted(range[..i + 1], action, sizing, t);
    var b := Reweighted(range[..i], action, sizing, t)
         + [Weighted(range[i].combo, Reweigh(range[i].weight, action, sizing, HandCategory(range[i].combo), t))];
    forall k | 0 <= k < |a|
      ensures a[k] == b[k]
    {
      assert range[..i + 1][k] == range[k];
    }
  }

  /** The full range is a valid range. */
  lemma FullRangeValid(oppHand: seq<Card>)
    ensures NoDups(Combos(FullRange(oppHand)))
    ensures forall i :: 0 <= i < |FullRange(oppHand)| ==> FullRange(oppHand)[i].weight > 0.0
    ensures FullRange(oppHand) != [] ==> SumReal(Weights(FullRange(oppHand))) == 1.0
  {
    FullRangeProperties(oppHand);
    var r := FullRange(oppHand);
    if r != [] {
      assert Combos(r)[0] in Combos(r);
      assert |oppHand| >= 2;
    }
  }
}
