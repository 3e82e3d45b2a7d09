/** Playing cards as the simulator represents them: a (colour, value) pair
    whose value is one of "2".."A". The value is kept as its number in the
    evaluator's `value_map` (2..14); `ValueChar` gives back the character. */
module Cards {
  import opened Lists

  /** Diamond, Heart, Spade, Club. */
  datatype Suit = D | H | S | C

  /** A card value as numbered by `value_map`: "2" is 2, ..., "A" is 14. */
  type Rank = r: int | 2 <= r <= 14 witness 2

  datatype Card = Card(suit: Suit, value: Rank)

  /** An element of a list that may hold cards or, where the dealer wraps
      its result in an extra list, a list of cards. */
  datatype Item = Single(card: Card) | Group(cards: seq<Card>)

  /** The dealer's colour list, in its order. */
  const Colors: seq<Suit> := [D, H, S, C]

  /** Entry `i` of the dealer's value list "2".."A", as a number. */
  function ValueAt(i: int): (r: Rank)
    requires 0 <= i < 13
    ensures r == i + 2
  {
    i + 2
  }

  /** The position of a colour in `Colors`. */
  function SuitIndex(s: Suit): (r: int)
    ensures 0 <= r < 4 && Colors[r] == s
  {
    match s
    case D => 0
    case H => 1
    case S => 2
    case C => 3
  }

  function SuitChar(s: Suit): char {
    match s
    case D => 'D'
    case H => 'H'
    case S => 'S'
    case C => 'C'
  }

  /** The value character of the source's card tuples. */
  function ValueChar(v: Rank): char {
    "23456789TJQKA"[v - 2]
  }

  function ValueOf(c: Card): int { c.value }

  /** The unshuffled deck `cards_init` builds before shuffling,
      `[(color, value) for color in colors for value in values]`: entry i
      pairs colour i / 13 with value i % 13. */
  function FullDeck(): (r: seq<Card>)
    ensures |r| == 52
    ensures forall i :: 0 <= i < 52 ==> r[i] == Card(Colors[i / 13], ValueAt(i % 13))
  {
    seq(52, i requires 0 <= i < 52 => Card(Colors[i / 13], ValueAt(i % 13)))
  }

  /** The values of `cards`, in order: `[card[1] for card in cards]`. */
  function ValuesOf(cards: seq<Card>): (r: seq<int>)
    ensures |r| == |cards|
    ensures forall i :: 0 <= i < |r| ==> r[i] == cards[i].value
  {
    MapSeq(cards, ValueOf)
  }

  /** The values of the cards of colour `s`, in order:
      `[card[1] for card in cards if card[0] == suit]`. */
  function SuitValues(cards: seq<Card>, s: Suit): (r: seq<int>)
    ensures |r| <= |cards|
    ensures forall v :: v in r ==> 2 <= v <= 14 && Card(s, v as Rank) in cards
    ensures forall c :: c in cards && c.suit == s ==> c.value as int in r
  {
    if cards == [] then []
    else
      assert forall c :: c in cards <==> c == cards[0] || c in cards[1..] by {
        assert cards == [cards[0]] + cards[1..];
      }
      if cards[0].suit == s then [cards[0].value as int] + SuitValues(cards[1..], s)
      else SuitValues(cards[1..], s)
  }

  /** How many of `cards` have colour `s`: `Counter(suits)[s]`. */
  function SuitCount(cards: seq<Card>, s: Suit): nat {
    |SuitValues(cards, s)|
  }

  // ---------------------------------------------------------------------
  // Lemmas

  /** `cards_init` lists each of the 52 cards, each exactly once. */
  lemma FullDeckComplete()
    ensures forall c :: c in FullDeck()
    ensures NoDups(FullDeck())
  {
    var d := FullDeck();
    forall c ensures c in d {
      var i := SuitIndex(c.suit) * 13 + (c.value - 2);
      assert i / 13 == SuitIndex(c.suit) && i % 13 == c.value - 2;
      assert d[i] == c;
    }
    forall i, j | 0 <= i < j < 52 ensures d[i] != d[j] {
      assert i / 13 != j / 13 || i % 13 != j % 13;
    }
  }

  /** Every one of the 52 cards exactly once: what `cards_init` produces,
      before and after its shuffle. */
  ghost predicate IsShuffle(deck: seq<Card>) {
    forall c :: multiset(deck)[c] == 1
  }

  /** The unshuffled deck holds each card once. */
  lemma FullDeckIsShuffle()
    ensures IsShuffle(FullDeck())
  {
    FullDeckComplete();
    NoDupsIffCountsAtMostOne(FullDeck());
    forall c ensures multiset(FullDeck())[c] == 1 {
      assert c in FullDeck();
    }
  }

  /** The shuffled decks are exactly the reorderings of the unshuffled
      deck, and each has 52 different cards. */
  lemma ShuffleIsPermutation(deck: seq<Card>)
    ensures IsShuffle(deck) <==> multiset(deck) == multiset(FullDeck())
    ensures IsShuffle(deck) ==> |deck| == 52 && NoDups(deck)
  {
    FullDeckIsShuffle();
    if IsShuffle(deck) {
      assert multiset(deck) == multiset(FullDeck());
      assert |deck| == |multiset(deck)| == |multiset(FullDeck())| == 52;
      NoDupsIffCountsAtMostOne(deck);
    }
  }

  /** A shuffled deck has 52 cards. */
  lemma ShuffleLength(deck: seq<Card>)
    requires IsShuffle(deck)
    ensures |deck| == 52
  {
    ShuffleIsPermutation(deck);
  }

  /** The values of colour `s` depend only on the multiset of cards. */
  lemma {:induction false} SuitCountPermutation(a: seq<Card>, b: seq<Card>, s: Suit)
    requires multiset(a) == multiset(b)
    ensures multiset(SuitValues(a, s)) == multiset(SuitValues(b, s))
  {
    SuitValuesAsMap(a, s);
    SuitValuesAsMap(b, s);
    FilterPermutation(a, b, (c: Card) => c.suit == s);
    MapSeqPermutation(Filter(a, (c: Card) => c.suit == s), Filter(b, (c: Card) => c.suit == s), ValueOf);
  }

  lemma {:induction false} SuitValuesAsMap(cards: seq<Card>, s: Suit)
    ensures SuitValues(cards, s) == MapSeq(Filter(cards, (c: Card) => c.suit == s), ValueOf)
  {
    if cards != [] {
      SuitValuesAsMap(cards[1..], s);
    }
  }
}
