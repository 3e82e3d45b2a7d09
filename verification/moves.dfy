/** The five betting actions the players, the statistics and the game loop
    exchange (the strings 'fold', 'check', 'call', 'bet' and 'raise'), and a
    decision: an action with the amount that goes with it. */
module Moves {

  datatype Move = Fold | Check | Call | Bet | Raise

  /** A decision as the advisers return it: `(action, amount)`. */
  datatype Decision = Decision(move: Move, amount: real)

  /** 'bet' or 'raise'. */
  predicate Aggressive(m: Move) {
    m == Bet || m == Raise
  }
}
