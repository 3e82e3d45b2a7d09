/** The dealer of deal.py: a deck that is popped from its end, the board,
    and a street counter. The shuffle is not modelled: every shuffled deck
    is a parameter that must be a reordering of the 52 cards. */
module Dealing {
  import opened Lists
  import opened Cards
  import opened Py

  /** `s` in reverse order. */
  function Reverse<T>(s: seq<T>): (r: seq<T>)
    ensures |r| == |s|
    ensures forall i :: 0 <= i < |s| ==> r[i] == s[|s| - 1 - i]
    ensures multiset(r) == multiset(s)
  {
    if s == [] then []
    else
      assert s == [s[0]] + s[1..];
      Reverse(s[1..]) + [s[0]]
  }

  /** `[deck.pop() for _ in range(n)]` on a deck holding at least n cards:
      the popped cards, last card first, and the remaining deck. */
  function PopN(deck: seq<Card>, n: nat): (r: (seq<Card>, seq<Card>))
    requires n <= |deck|
    ensures r.1 == deck[..|deck| - n]
    ensures |r.0| == n
    ensures forall i :: 0 <= i < n ==> r.0[i] == deck[|deck| - 1 - i]
    ensures multiset(r.0) + multiset(r.1) == multiset(deck)
  {
    var top := deck[|deck| - n..];
    assert deck == deck[..|deck| - n] + top;
    (Reverse(top), deck[..|deck| - n])
  }

  class Deal {
    /** The deck; `pop()` takes its last card. */
    var cards: seq<Card>
    var board: seq<Card>
    /** Streets dealt so far: 1 after the flop, 2 after the turn. */
    var state: int
    /** Cards taken off the deck other than into the board: the hole cards
        handed out, and a card popped by a deal that then failed. */
    ghost var out: seq<Card>
    /** The shuffled deck of the last `cards_init`. */
    ghost var deck: seq<Card>

    /** The deck, the board and the cards handed out together are the 52
        cards of the shuffled deck, each exactly once; the board is empty
        before the flop. */
    ghost predicate Valid()
      reads this
    {
      && |deck| == 52 && NoDups(deck)
      && multiset(cards) + multiset(board) + multiset(out) == multiset(deck)
      && state >= 0
      && (state == 0 ==> board == [])
    }

    /** `Deal()`, with the shuffled deck `cards_init` would produce. */
    constructor (shuffled: seq<Card>)
      requires IsShuffle(shuffled)
      ensures Valid()
      ensures cards == shuffled && board == [] && state == 0 && out == []
      ensures |cards| == 52 && NoDups(cards)
    {
      cards := shuffled;
      board := [];
      state := 0;
      out := [];
      deck := shuffled;
      new;
      ShuffleIsPermutation(shuffled);
    }

    /** `cards_init()`: a fresh full deck in the given shuffled order. The
        board and the street counter are left as they are. */
    method CardsInit(shuffled: seq<Card>) returns (r: seq<Card>)
      requires IsShuffle(shuffled)
      modifies this
      ensures cards == shuffled && r == shuffled
      ensures board == old(board) && state == old(state) && out == []
      ensures old(board) == [] && old(state) == 0 ==> Valid()
    {
      cards := shuffled;
      out := [];
      deck := shuffled;
      ShuffleIsPermutation(shuffled);
      r := cards;
    }

    /** `deal_player_hand()`: pops two cards, the last one first, and
        returns them wrapped in one more list. */
    method DealPlayerHand() returns (r: Result<seq<Item>>)
      requires Valid()
      modifies this
      ensures Valid()
      ensures board == old(board) && state == old(state)
      ensures |old(cards)| >= 2 ==>
        && r == Ok([Group([old(cards)[|old(cards)| - 1], old(cards)[|old(cards)| - 2]])])
        && cards == old(cards)[..|old(cards)| - 2]
      ensures |old(cards)| < 2 ==> r == Err(IndexError) && cards == []
    {
      if |cards| < 2 {
        HandedOut(cards, board, out, cards, []);
        out := out + cards;
        cards := [];
        return Err(IndexError);
      }
      var main := [cards[|cards| - 1], cards[|cards| - 2]];
      var rest := cards[..|cards| - 2];
      PopTwo(cards);
      HandedOut(cards, board, out, main, rest);
      cards := rest;
      out := out + main;
      r := Ok([Group(main)]);
    }

    /** `deal_board()`: moves to the next street. The flop replaces the
        board with three popped cards and returns them; the turn appends
        one card and returns the board wrapped in one more list; any later
        call reaches `assert self.board < 4`, which raises because a list
        cannot be compared with an int, so no river is ever dealt. */
    method DealBoard() returns (r: Result<seq<Item>>)
      requires Valid()
      modifies this
      ensures Valid()
      ensures state == old(state) + 1
      ensures old(state) == 0 && |old(cards)| >= 3 ==>
        && cards == old(cards)[..|old(cards)| - 3]
        && board == PopN(old(cards), 3).0
        && r == Ok(Singles(board))
      ensures old(state) == 1 && |old(cards)| >= 1 ==>
        && cards == old(cards)[..|old(cards)| - 1]
        && board == old(board) + [old(cards)[|old(cards)| - 1]]
        && r == Ok([Group(board)])
      ensures old(state) == 0 && |old(cards)| < 3 ==>
        r == Err(IndexError) && cards == [] && board == old(board)
      ensures old(state) == 1 && old(cards) == [] ==>
        r == Err(IndexError) && cards == [] && board == old(board)
      ensures old(state) >= 2 ==> r == Err(TypeError) && cards == old(cards) && board == old(board)
    {
      state := state + 1;
      if state == 1 {
        r := DealFlop();
      } else if state == 2 {
        r := DealTurn();
      } else {
        r := Err(TypeError);
      }
    }

    /** The flop branch of `deal_board`: three cards popped onto the empty
        board, or an `IndexError` once the deck runs out. */
    method DealFlop() returns (r: Result<seq<Item>>)
      requires Valid() && state == 1 && board == []
      modifies this
      ensures Valid() && state == old(state)
      ensures |old(cards)| >= 3 ==>
        && cards == old(cards)[..|old(cards)| - 3]
        && board == PopN(old(cards), 3).0
        && r == Ok(Singles(board))
      ensures |old(cards)| < 3 ==> r == Err(IndexError) && cards == [] && board == []
    {
      if |cards| < 3 {
        out := out + cards;
        cards := [];
        return Err(IndexError);
      }
      var (flop, rest) := PopN(cards, 3);
      board := flop;
      cards := rest;
      r := Ok(Singles(board));
    }

    /** The turn branch of `deal_board`: one card popped onto the board,
        which is returned wrapped in a list, or an `IndexError` on an empty
        deck. */
    method DealTurn() returns (r: Result<seq<Item>>)
      requires Valid() && state == 2
      modifies this
      ensures Valid() && state == old(state)
      ensures |old(cards)| >= 1 ==>
        && cards == old(cards)[..|old(cards)| - 1]
        && board == old(board) + [old(cards)[|old(cards)| - 1]]
        && r == Ok([Group(board)])
      ensures old(cards) == [] ==> r == Err(IndexError) && cards == [] && board == old(board)
    {
      if |cards| < 1 {
        return Err(IndexError);
      }
      var (turn, rest) := PopN(cards, 1);
      board := board + turn;
      cards := rest;
      r := Ok([Group(board)]);
    }
  }

  /** Popping twice takes the last two cards off the deck. */
  lemma PopTwo(cards: seq<Card>)
    requires |cards| >= 2
    ensures multiset([cards[|cards| - 1], cards[|cards| - 2]]) + multiset(cards[..|cards| - 2]) == multiset(cards)
  {
    var (main, rest) := PopN(cards, 2);
    assert main == [cards[|cards| - 1], cards[|cards| - 2]];
  }

  /** Moving the cards `main` of the deck `cards` out of it keeps the
      cards of deck, board and hand-out together. */
  lemma HandedOut(cards: seq<Card>, board: seq<Card>, out: seq<Card>, main: seq<Card>, rest: seq<Card>)
    requires multiset(main) + multiset(rest) == multiset(cards)
    ensures multiset(rest) + multiset(board) + multiset(out + main)
      == multiset(cards) + multiset(board) + multiset(out)
  {
  }

  /** The cards as a flat list of single items. */
  function Singles(cards: seq<Card>): (r: seq<Item>)
    ensures |r| == |cards|
    ensures forall i :: 0 <= i < |r| ==> r[i] == Single(cards[i])
  {
    if cards == [] then [] else [Single(cards[0])] + Singles(cards[1..])
  }
}
