/** The card-counting statistics of the `Stat` classes: the unseen cards,
    the outs that improve the hand with one more board card, the chance of
    hitting one by the river, and the Monte Carlo equity against one random
    opponent hand. The three `Stat` classes share this code; only the
    default number of simulations differs. The shuffles are not modelled:
    the deck `Deal().cards_init()` yields and the pool each simulation
    shuffles are parameters. */
module Equity {
  import opened Lists
  import opened Cards
  import opened Py
  import opened Evaluator
  import opened Dealing
  import Odds

  /** Element `[0]` of `hand_rank(hand, board)`. */
  function Score(hand: seq<Card>, board: seq<Card>): (r: int)
    ensures 1 <= r <= 9
  {
    Category(HandRank(hand, board))
  }

  /** `[card for card in all_cards if card not in known_cards]`: the cards
      of the deck that are neither in hand nor on the board, in deck order. */
  function Available(deck: seq<Card>, known: seq<Card>): (r: seq<Card>)
    ensures forall c :: c in r <==> c in deck && c !in known
    ensures IsSubsequence(r, deck)
  {
    var unseen := (c: Card) => c !in known;
    FilterSubsequence(deck, unseen);
    Filter(deck, unseen)
  }

  /** Putting `c` on the board strictly raises the hand's score; `outs()`
      scores with `Score`. */
  function Improves(score: (seq<Card>, seq<Card>) -> int, hand: seq<Card>, board: seq<Card>): Card -> bool {
    (c: Card) => score(hand, board + [c]) > score(hand, board)
  }

  /** The outs in deck order: the unseen cards whose arrival raises the
      category. */
  function OutsList(hand: seq<Card>, board: seq<Card>, deck: seq<Card>): seq<Card> {
    Filter(Available(deck, hand + board), Improves(Score, hand, board))
  }

  /** `prob_turn_or_river` before rounding, for `cr` cards remaining and
      `n` outs: 100 (1 - miss_turn * miss_river), or 0 without cards. */
  function HitPercent(cr: int, n: int): real {
    if cr > 0 then
      var missTurn := (cr - n) as real / cr as real;
      var missRiver := if cr > 1 then (cr - n - 1) as real / (cr - 1) as real else 1.0;
      (1.0 - missTurn * missRiver) * 100.0
    else 0.0
  }

  /** `outs()`: the number of outs, the outs in deck order, and the chance
      in percent, rounded to two decimals, of hitting one on turn or river.
      `deck` is the shuffled deck of `cards_init`. */
  method Outs(hand: seq<Card>, board: seq<Card>, deck: seq<Card>) returns (nb: int, outs: seq<Card>, prob: real)
    ensures outs == OutsList(hand, board, deck)
    ensures nb == |outs|
    ensures prob == RoundTo2(HitPercent(52 - |hand + board|, nb))
  {
    outs := CollectOuts(hand, board, Available(deck, hand + board), Score);
    nb := |outs|;
    prob := RoundTo2(HitPercent(52 - |hand + board|, nb));
  }

  /** The loop of `outs()`: every candidate card is put on a copy of the
      board and kept when the score rises. */
  method CollectOuts(hand: seq<Card>, board: seq<Card>, available: seq<Card>, score: (seq<Card>, seq<Card>) -> int)
    returns (outs: seq<Card>)
    ensures outs == Filter(available, Improves(score, hand, board))
  {
    var improves := Improves(score, hand, board);
    var current := score(hand, board);
    outs := [];
    var i := 0;
    while i < |available|
      invariant 0 <= i <= |available|
      invariant outs == Filter(available[..i], improves)
    {
      var card := available[i];
      var newBoard := board + [card];
      assert available[..i + 1] == available[..i] + [card];
      FilterAppend(available[..i], [card], improves);
      FilterSingle(card, improves);
      if score(hand, newBoard) > current {
        outs := outs + [card];
      }
      i := i + 1;
    }
    assert available[..i] == available;
  }

  // ---------------------------------------------------------------------
  // Monte Carlo

  datatype Outcome = Win | Tie | Loss

  /** The board cards a simulation still has to draw: `5 - len(board)`,
      and none when that is negative. */
  function Needed(board: seq<Card>): nat {
    if |board| < 5 then 5 - |board| else 0
  }

  /** One simulation on a shuffled pool large enough for it: two cards
      popped for the opponent, then the missing board cards. Returns the
      opponent hand and the final board. */
  function Draw(board: seq<Card>, pool: seq<Card>): (r: (seq<Card>, seq<Card>))
    requires |pool| >= 2 + Needed(board)
    ensures r.0 == [pool[|pool| - 1], pool[|pool| - 2]]
    ensures |r.1| == |board| + Needed(board) && r.1[..|board|] == board
    ensures multiset(r.0) + multiset(r.1[|board|..]) <= multiset(pool)
  {
    var (opp, rest) := PopN(pool, 2);
    var (drawn, _) := PopN(rest, Needed(board));
    var final := board + drawn;
    assert final[..|board|] == board && final[|board|..] == drawn;
    (opp, final)
  }

  /** The comparison of one simulation: by the number `score` gives each
      hand on the same final board, and nothing else. `Monte_Carlo` scores
      with the category of `hand_rank` (`Score`). */
  function Trial(hand: seq<Card>, board: seq<Card>, pool: seq<Card>, score: (seq<Card>, seq<Card>) -> int): (r: Outcome)
    requires |pool| >= 2 + Needed(board)
  {
    var (opp, final) := Draw(board, pool);
    var hero := score(hand, final);
    var villain := score(opp, final);
    if hero > villain then Win
    else if hero == villain then Tie
    else Loss
  }

  /** A simulation is decided by the two scores alone: a win when the
      hero's is higher, a tie when they are equal. Kickers play no part. */
  lemma TrialComparesScores(hand: seq<Card>, board: seq<Card>, pool: seq<Card>, score: (seq<Card>, seq<Card>) -> int)
    requires |pool| >= 2 + Needed(board)
    ensures var (opp, final) := Draw(board, pool);
      && (Trial(hand, board, pool, score) == Win <==> score(hand, final) > score(opp, final))
      && (Trial(hand, board, pool, score) == Tie <==> score(hand, final) == score(opp, final))
      && (Trial(hand, board, pool, score) == Loss <==> score(hand, final) < score(opp, final))
  {
  }

  /** Every pool is large enough for a simulation. */
  predicate PoolsLargeEnough(board: seq<Card>, pools: seq<seq<Card>>) {
    forall i :: 0 <= i < |pools| ==> |pools[i]| >= 2 + Needed(board)
  }

  /** When the pools all have one size, any prefix of them is large
      enough as soon as that size is. */
  lemma PrefixLargeEnough(board: seq<Card>, pools: seq<seq<Card>>, poolSize: int, k: int)
    requires forall i :: 0 <= i < |pools| ==> |pools[i]| == poolSize
    requires 0 <= k <= |pools| && (k > 0 ==> poolSize >= 2 + Needed(board))
    ensures PoolsLargeEnough(board, pools[..k])
  {
  }

  /** Wins and ties over the given simulations. */
  function Tally(hand: seq<Card>, board: seq<Card>, pools: seq<seq<Card>>, score: (seq<Card>, seq<Card>) -> int): (r: (int, int))
    requires PoolsLargeEnough(board, pools)
    ensures 0 <= r.0 && 0 <= r.1 && r.0 + r.1 <= |pools|
  {
    if pools == [] then (0, 0)
    else Count(Tally(hand, board, pools[..|pools| - 1], score), Trial(hand, board, pools[|pools| - 1], score))
  }

  /** The win and tie counters after one more simulation. */
  function Count(counts: (int, int), o: Outcome): (r: (int, int))
    ensures r.0 + r.1 <= counts.0 + counts.1 + 1
    ensures r.0 >= counts.0 && r.1 >= counts.1
  {
    if o == Win then (counts.0 + 1, counts.1)
    else if o == Tie then (counts.0, counts.1 + 1)
    else counts
  }

  /** What `Monte_Carlo(num)` returns or raises, when every simulation
      shuffles a pool of `poolSize` unseen cards: the first pop from a pool
      too small raises, no simulation at all divides by zero, and otherwise
      the result is `(win + tie / 2) / num`. */
  function MonteCarloEquity(hand: seq<Card>, board: seq<Card>, num: int, poolSize: int, pools: seq<seq<Card>>): (r: Result<real>)
    requires |pools| == (if num > 0 then num else 0)
    requires forall i :: 0 <= i < |pools| ==> |pools[i]| == poolSize
  {
    if num > 0 && poolSize < 2 + Needed(board) then Err(IndexError)
    else if num == 0 then Err(ZeroDivisionError)
    else Ok(Share(Tally(hand, board, pools, Score), num))
  }

  /** `(win + tie / 2) / num` */
  function Share(counts: (int, int), num: int): real
    requires num != 0
  {
    (counts.0 as real + counts.1 as real / 2.0) / num as real
  }

  /** `Monte_Carlo(num_simulations)`, with `pools[i]` the unseen cards as
      the i-th simulation shuffles them. */
  method MonteCarlo(hand: seq<Card>, board: seq<Card>, deck: seq<Card>, num: int, pools: seq<seq<Card>>)
    returns (r: Result<real>)
    requires |pools| == (if num > 0 then num else 0)
    requires forall i :: 0 <= i < |pools| ==> multiset(pools[i]) == multiset(Available(deck, hand + board))
    requires forall i :: 0 <= i < |pools| ==> |pools[i]| == |Available(deck, hand + board)|
    ensures r == MonteCarloEquity(hand, board, num, |Available(deck, hand + board)|, pools)
    ensures r.Ok? ==> 0.0 <= r.value <= 1.0
  {
    var poolSize := |Available(deck, hand + board)|;
    var counts := RunTrials(hand, board, pools, poolSize, Score);
    if counts.Err? {
      return Err(counts.error);
    }
    if num == 0 {
      return Err(ZeroDivisionError);
    }
    r := Ok(Share(counts.value, num));
    ShareInUnitInterval(counts.value, num, |pools|);
  }

  /** The simulation loop of `Monte_Carlo`: pops the opponent's and the
      missing board cards from each pool and counts wins and ties; a pool
      too small raises at its first pop. */
  method RunTrials(hand: seq<Card>, board: seq<Card>, pools: seq<seq<Card>>, poolSize: int, score: (seq<Card>, seq<Card>) -> int)
    returns (r: Result<(int, int)>)
    requires forall i :: 0 <= i < |pools| ==> |pools[i]| == poolSize
    ensures pools != [] && poolSize < 2 + Needed(board) ==> r == Err(IndexError)
    ensures pools == [] || poolSize >= 2 + Needed(board) ==>
      PoolsLargeEnough(board, pools) && r == Ok(Tally(hand, board, pools, score))
  {
    var counts := (0, 0);
    var i := 0;
    while i < |pools|
      invariant 0 <= i <= |pools|
      invariant i > 0 ==> poolSize >= 2 + Needed(board)
      invariant PoolsLargeEnough(board, pools[..i])
      invariant Tally(hand, board, pools[..i], score) == counts
    {
      var pool := pools[i];
      if |pool| < 2 + Needed(board) {
        return Err(IndexError);
      }
      PrefixLargeEnough(board, pools, poolSize, i + 1);
      TallyStep(hand, board, pools, score, i);
      counts := Count(counts, Trial(hand, board, pool, score));
      i := i + 1;
    }
    assert pools[..i] == pools;
    r := Ok(counts);
  }

  /** One more simulation adds its outcome to the counters. */
  lemma TallyStep(hand: seq<Card>, board: seq<Card>, pools: seq<seq<Card>>, score: (seq<Card>, seq<Card>) -> int, i: int)
    requires 0 <= i < |pools| && PoolsLargeEnough(board, pools[..i + 1])
    ensures PoolsLargeEnough(board, pools[..i])
    ensures Tally(hand, board, pools[..i + 1], score)
      == Count(Tally(hand, board, pools[..i], score), Trial(hand, board, pools[i], score))
  {
    var done := pools[..i + 1];
    assert done[..i] == pools[..i] && done[i] == pools[i];
  }

  // ---------------------------------------------------------------------
  // Lemmas

  /** Wins plus half the ties, out of at most `n` simulations run, is a
      share between 0 and 1 (0 when a negative count ran none). */
  lemma ShareInUnitInterval(counts: (int, int), num: int, n: int)
    requires num != 0 && 0 <= counts.0 && 0 <= counts.1 && counts.0 + counts.1 <= n
    requires n == (if num > 0 then num else 0)
    ensures 0.0 <= Share(counts, num) <= 1.0
  {
    Odds.Fraction(counts.0 as real + counts.1 as real / 2.0, num as real);
  }

  /** The estimated equity lies between 0 and 1. */
  lemma EquityInUnitInterval(hand: seq<Card>, board: seq<Card>, num: int, poolSize: int, pools: seq<seq<Card>>)
    requires |pools| == (if num > 0 then num else 0)
    requires forall i :: 0 <= i < |pools| ==> |pools[i]| == poolSize
    ensures MonteCarloEquity(hand, board, num, poolSize, pools).Ok? ==>
      0.0 <= MonteCarloEquity(hand, board, num, poolSize, pools).value <= 1.0
  {
    if MonteCarloEquity(hand, board, num, poolSize, pools).Ok? {
      ShareInUnitInterval(Tally(hand, board, pools, Score), num, |pools|);
    }
  }

  /** The cards a simulation draws, for the opponent and for the board,
      are different unseen cards: none is in the hero's hand or on the
      board already. */
  lemma DrawnCardsUnseen(hand: seq<Card>, board: seq<Card>, deck: seq<Card>, pool: seq<Card>)
    requires multiset(pool) == multiset(Available(deck, hand + board))
    requires |pool| >= 2 + Needed(board)
    ensures forall c :: c in Draw(board, pool).0 ==> c !in hand + board
    ensures forall c :: c in Draw(board, pool).1[|board|..] ==> c !in hand + board
    ensures multiset(Draw(board, pool).0) + multiset(Draw(board, pool).1[|board|..]) <= multiset(Available(deck, hand + board))
  {
    var (opp, final) := Draw(board, pool);
    forall c | c in opp ensures c !in hand + board {
      assert c in multiset(pool);
    }
    forall c | c in final[|board|..] ensures c !in hand + board {
      assert c in multiset(pool);
    }
  }

  /** The unseen cards of a shuffled deck number 52 minus the known cards,
      when the known cards are distinct. */
  lemma AvailableCount(deck: seq<Card>, known: seq<Card>)
    requires IsShuffle(deck) && NoDups(known)
    ensures multiset(Available(deck, known)) + multiset(known) == multiset(deck)
    ensures |Available(deck, known)| == 52 - |known|
  {
    var unseen := (c: Card) => c !in known;
    var a := Available(deck, known);
    assert a == Filter(deck, unseen);
    NoDupsIffCountsAtMostOne(known);
    forall c ensures (multiset(a) + multiset(known))[c] == multiset(deck)[c] {
      FilterCount(deck, unseen, c);
      if c in known {
        assert multiset(known)[c] == 1;
      } else {
        assert multiset(known)[c] == 0;
      }
    }
    assert multiset(a) + multiset(known) == multiset(deck);
    ShuffleIsPermutation(deck);
    assert |multiset(a)| + |multiset(known)| == |multiset(deck)|;
  }

  /** On a real deal (two hole cards, at most five distinct board cards)
      the pool always suffices, so the equity is computed whenever at
      least one simulation is asked for, and is between 0 and 1. */
  lemma MonteCarloSucceeds(hand: seq<Card>, board: seq<Card>, deck: seq<Card>, num: int, pools: seq<seq<Card>>)
    requires IsShuffle(deck) && NoDups(hand + board) && |hand| == 2 && |board| <= 5
    requires |pools| == (if num > 0 then num else 0)
    requires forall i :: 0 <= i < |pools| ==> |pools[i]| == |Available(deck, hand + board)|
    ensures MonteCarloEquity(hand, board, num, |Available(deck, hand + board)|, pools).Ok? <==> num != 0
  {
    AvailableCount(deck, hand + board);
  }

  /** Every out is a card nobody holds whose arrival strictly raises the
      category, and every such card of the deck is an out. */
  lemma OutsAreImprovingUnseenCards(hand: seq<Card>, board: seq<Card>, deck: seq<Card>, c: Card)
    ensures c in OutsList(hand, board, deck) <==>
      c in deck && c !in hand + board && Score(hand, board + [c]) > Score(hand, board)
  {
  }

  /** Before the flop (and with any fewer than four known cards) there is
      no out: with one more card there are still fewer than five cards, so
      every category stays 1. */
  lemma NoOutsBeforeFlop(hand: seq<Card>, board: seq<Card>, deck: seq<Card>)
    requires |hand + board| < 4
    ensures OutsList(hand, board, deck) == []
  {
    var isOut := Improves(Score, hand, board);
    forall c ensures !isOut(c) {
      assert |hand + (board + [c])| < 5;
      assert Score(hand, board + [c]) == 1 == Score(hand, board);
    }
    FilterNone(Available(deck, hand + board), isOut);
  }

  /** For 0 <= n <= cr outs among cr remaining cards, the chance of hitting
      lies between 0 and 100 percent; it is 0 without outs and 100 when
      every remaining card is an out. */
  lemma HitPercentRange(cr: int, n: int)
    requires 0 <= n <= cr
    ensures 0.0 <= HitPercent(cr, n) <= 100.0
    ensures n == 0 ==> HitPercent(cr, n) == 0.0
    ensures n == cr ==> HitPercent(cr, n) == (if cr > 0 then 100.0 else 0.0)
  {
    if cr > 0 {
      var missTurn := (cr - n) as real / cr as real;
      Odds.Fraction((cr - n) as real, cr as real);
      if n == cr {
        assert missTurn == 0.0;
      } else if cr > 1 {
        var missRiver := (cr - n - 1) as real / (cr - 1) as real;
        Odds.Fraction((cr - n - 1) as real, (cr - 1) as real);
        UnitProduct(missTurn, missRiver);
        if n == 0 {
          assert missTurn == 1.0 && missRiver == 1.0;
        }
      } else {
        assert n == 0;
        assert missTurn == 1.0;
      }
    }
  }

  lemma UnitProduct(a: real, b: real)
    requires 0.0 <= a <= 1.0 && 0.0 <= b <= 1.0
    ensures 0.0 <= a * b <= 1.0
  {
    NonNegProduct(1.0 - a, b);
    NonNegProduct(a, b);
    assert (1.0 - a) * b == b - a * b;
  }

  lemma NonNegProduct(x: real, y: real)
    requires 0.0 <= x && 0.0 <= y
    ensures 0.0 <= x * y
  {
  }

  /** On a real deal the outs never outnumber the remaining cards, so the
      reported chance is a percentage. */
  lemma OutsChanceIsPercentage(hand: seq<Card>, board: seq<Card>, deck: seq<Card>)
    requires IsShuffle(deck) && NoDups(hand + board)
    ensures 0.0 <= HitPercent(52 - |hand + board|, |OutsList(hand, board, deck)|) <= 100.0
  {
    AvailableCount(deck, hand + board);
    HitPercentRange(52 - |hand + board|, |OutsList(hand, board, deck)|);
  }
}
