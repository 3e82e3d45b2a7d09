/** The string-card evaluator of poker.py. A card is a string: its first
    character is the value ('2'..'9', 'T', 'J', 'Q', 'K', 'A') and its
    second the suit, so "KH" is the king of hearts. `hand_rank` returns the
    category (1 high card .. 9 straight flush) with the cards that make it;
    its description text is not modelled. */
module Poker {
  import opened Lists
  import opened Py

  /** The keys of `value_map`, in the dict's order: the value of
      `ValueKeys[i]` is i + 2. */
  const ValueKeys: string := "23456789TJQKA"

  /** The ace-to-five straight, as the sorted values it is checked against. */
  const Wheel: seq<int> := [14, 5, 4, 3, 2]

  /** `value_map[ch]`, `None` when `ch` is not a key. */
  function ValueOf(ch: char): (r: Option<int>)
    ensures r.Some? <==> ch in ValueKeys
    ensures r.Some? ==> 2 <= r.value <= 14 && ValueKeys[r.value - 2] == ch
  {
    match ch
    case '2' => Some(2)
    case '3' => Some(3)
    case '4' => Some(4)
    case '5' => Some(5)
    case '6' => Some(6)
    case '7' => Some(7)
    case '8' => Some(8)
    case '9' => Some(9)
    case 'T' => Some(10)
    case 'J' => Some(11)
    case 'Q' => Some(12)
    case 'K' => Some(13)
    case 'A' => Some(14)
    case _ => None
  }

  /** The value of a key of `value_map`, 0 for any other character. */
  function KeyValue(ch: char): int {
    if ValueOf(ch).Some? then ValueOf(ch).value else 0
  }

  /** `list(value_map.keys())[list(value_map.values()).index(v)]`: the key of
      the value `v`, and `ValueError` for a value the dict does not hold. */
  function KeyOf(v: int): (r: Result<char>)
    ensures r.Ok? <==> 2 <= v <= 14
    ensures r.Ok? ==> ValueOf(r.value) == Some(v)
    ensures r.Err? ==> r.error == ValueError
  {
    if 2 <= v <= 14 then Ok(ValueKeys[v - 2]) else Err(ValueError)
  }

  /** `card[0]`, for a card that has one. */
  function ValueChar(card: string): char {
    if |card| >= 1 then card[0] else ' '
  }

  /** `card[1]`, for a card that has one. */
  function SuitChar(card: string): char {
    if |card| >= 2 then card[1] else ' '
  }

  /** `value_map[card[0]]`, for a card whose value is a key. */
  function CardValue(card: string): int {
    KeyValue(ValueChar(card))
  }

  /** A card with a value and a suit whose value is a key of `value_map`. */
  predicate Readable(card: string) {
    |card| >= 2 && IsValueKey(card[0])
  }

  /** `ch in value_map` */
  predicate IsValueKey(ch: char) {
    ValueOf(ch).Some?
  }

  /** `f"{v}"` for a non-negative integer. */
  function NumText(v: nat): (r: string)
    ensures |r| >= 1
  {
    if v < 10 then ["0123456789"[v]] else NumText(v / 10) + ["0123456789"[v % 10]]
  }

  /** `s[:n]` */
  function Take<T>(s: seq<T>, n: nat): (r: seq<T>)
    ensures |r| == if |s| <= n then |s| else n
  {
    if |s| <= n then s else s[..n]
  }

  /** `max(s)`, `None` for the empty list (where `max` raises). */
  function MaxOf(s: seq<int>): (r: Option<int>)
    ensures r.None? <==> s == []
    ensures r.Some? ==> r.value in s && forall v :: v in s ==> v <= r.value
  {
    if s == [] then None
    else
      var m := MaxOf(s[1..]);
      assert s == [s[0]] + s[1..];
      if m.None? || s[0] >= m.value then Some(s[0]) else m
  }

  // ---------------------------------------------------------------------
  // Counting

  /** A dict of counts built by `d[x] = d.get(x, 0) + 1` over a list: its
      keys in insertion order and the count of each key. */
  datatype Counter = Counter(keys: seq<char>, count: map<char, int>)

  /** The dict the counting loop builds over `xs`: each character, in turn,
      has its count raised by one, or is added as a new key counted once. */
  function Tally(xs: seq<char>): Counter {
    if xs == [] then Counter([], map[])
    else
      var c := Tally(xs[..|xs| - 1]);
      var x := xs[|xs| - 1];
      Counter(if x in c.count then c.keys else c.keys + [x],
              c.count[x := (if x in c.count then c.count[x] else 0) + 1])
  }

  /** The counting loops of `hand_rank` (`value_counts`, `suit_counts`). */
  method CountOccurrences(xs: seq<char>) returns (c: Counter)
    ensures c == Tally(xs)
  {
    var keys: seq<char> := [];
    var count: map<char, int> := map[];
    var i := 0;
    while i < |xs|
      invariant 0 <= i <= |xs|
      invariant Counter(keys, count) == Tally(xs[..i])
    {
      var x := xs[i];
      assert xs[..i + 1][..i] == xs[..i];
      if x !in count {
        keys := keys + [x];
      }
      count := count[x := (if x in count then count[x] else 0) + 1];
      i := i + 1;
    }
    assert xs[..i] == xs;
    c := Counter(keys, count);
  }

  /** What the counted dict holds: its keys are the characters of `xs` in
      order of first occurrence, each once, and each is counted as often as
      it occurs. */
  lemma TallyCounts(xs: seq<char>)
    ensures Tally(xs).keys == Dedup(xs)
    ensures forall x :: x in Tally(xs).count <==> x in xs
    ensures forall x :: x in Tally(xs).count ==> Tally(xs).count[x] == multiset(xs)[x]
  {
    TallyCountsMembers(xs);
    TallyKeys(xs);
  }

  /** The counter counts exactly the characters seen, each as often as it
      occurs. */
  lemma {:induction false} TallyCountsMembers(xs: seq<char>)
    ensures forall x :: x in Tally(xs).count <==> x in xs
    ensures forall x :: x in Tally(xs).count ==> Tally(xs).count[x] == multiset(xs)[x]
  {
    if xs != [] {
      var p := xs[..|xs| - 1];
      var x := xs[|xs| - 1];
      TallyCountsMembers(p);
      assert xs == p + [x];
      assert multiset(xs) == multiset(p) + multiset{x};
      assert forall y :: y in xs <==> y in p || y == x;
    }
  }

  /** The counter's keys are the characters in order of first sight. */
  lemma {:induction false} TallyKeys(xs: seq<char>)
    ensures Tally(xs).keys == Dedup(xs)
  {
    if xs != [] {
      var p := xs[..|xs| - 1];
      TallyKeys(p);
      TallyCountsMembers(p);
    }
  }

  /** `n in d.values()` */
  predicate HasCount(c: Counter, n: int) {
    exists k :: k in c.count && c.count[k] == n
  }

  /** `[k for k, v in d.items() if v == n][0]`, `None` where that list is
      empty: the first key counted `n` times. */
  function FirstWithCount(keys: seq<char>, count: map<char, int>, n: int): (r: Option<char>)
    ensures r.Some? ==> r.value in keys && r.value in count && count[r.value] == n
    ensures r.None? <==> forall k :: k in keys && k in count ==> count[k] != n
  {
    if keys == [] then None
    else if keys[0] in count && count[keys[0]] == n then Some(keys[0])
    else
      assert forall k :: k in keys <==> k == keys[0] || k in keys[1..] by {
        assert keys == [keys[0]] + keys[1..];
      }
      FirstWithCount(keys[1..], count, n)
  }

  /** `max(d.values())`, 0 for a dict with no key. */
  function MaxCount(keys: seq<char>, count: map<char, int>): (m: int)
    ensures forall k :: k in keys && k in count ==> count[k] <= m
    ensures keys != [] && (forall k :: k in keys ==> k in count) ==> exists k :: k in keys && count[k] == m
  {
    if keys == [] then 0
    else
      var rest := MaxCount(keys[1..], count);
      assert forall k :: k in keys <==> k == keys[0] || k in keys[1..] by {
        assert keys == [keys[0]] + keys[1..];
      }
      var here := if keys[0] in count then count[keys[0]] else 0;
      if keys[1..] == [] || here >= rest then here else rest
  }

  // ---------------------------------------------------------------------
  // Card selections

  /** `[card for card in cards if card[1] == suit]` */
  function OfSuit(cards: seq<string>, suit: char): (r: seq<string>)
    ensures forall c :: c in r <==> c in cards && SuitChar(c) == suit
  {
    Filter(cards, c => SuitChar(c) == suit)
  }

  /** `[f"{k}{s}" for s in suits if f"{k}{s}" in cards]`: the cards of value
      `k` that are held, once for every card of their suit in `suits`. */
  function WithSuits(k: char, suits: seq<char>, cards: seq<string>): (r: seq<string>)
    ensures forall c :: c in r ==> c in cards && |c| == 2 && c[0] == k && c[1] in suits
  {
    var all := MapSeq(suits, s => [k, s]);
    assert forall c :: c in all ==> |c| == 2 && c[0] == k && c[1] in suits by {
      forall c | c in all ensures |c| == 2 && c[0] == k && c[1] in suits {
        var i :| 0 <= i < |all| && all[i] == c;
        assert c == [k, suits[i]];
      }
    }
    Filter(all, x => x in cards)
  }

  /** `[f"{k}{s}" for k in keys for s in suits if f"{k}{s}" in cards]` */
  function SuitedCards(keys: seq<char>, suits: seq<char>, cards: seq<string>): (r: seq<string>)
    ensures forall c :: c in r ==> c in cards && |c| == 2 && c[0] in keys
  {
    if keys == [] then [] else WithSuits(keys[0], suits, cards) + SuitedCards(keys[1..], suits, cards)
  }

  /** `[k for k, v in value_map.items() if v in vals]` */
  function KeysWithValueIn(vals: seq<int>): (r: seq<char>)
    ensures forall k :: k in r ==> k in ValueKeys && KeyValue(k) in vals
  {
    Filter(ValueKeys, k => KeyValue(k) in vals)
  }

  /** `[f"{v}{suit}" for v in vals]`: the numbers themselves followed by the
      suit, as the straight flush branch writes its cards ("14H"). */
  function NumberCards(vals: seq<int>, suit: char): (r: seq<string>)
    ensures |r| == |vals|
  {
    MapSeq(vals, v => NumText(if v >= 0 then v else 0) + [suit])
  }

  // ---------------------------------------------------------------------
  // Straights

  /** Five values from `i` that form a run: `vals[i] - vals[i + 4] == 4`
      and no value repeated. */
  predicate RunAt(vals: seq<int>, i: nat)
    requires i + 4 < |vals|
  {
    vals[i] - vals[i + 4] == 4 && |Distinct(vals[i..i + 5])| == 5
  }

  /** `set(s)` */
  function Distinct(s: seq<int>): set<int> {
    set v | v in s
  }

  /** `for i in range(len(vals) - 4): if <run at i>: return i`, from `i`. */
  function FirstRun(vals: seq<int>, i: nat): (r: Option<nat>)
    ensures r.Some? ==> i <= r.value && r.value + 4 < |vals| && RunAt(vals, r.value)
    ensures r.None? ==> forall j :: i <= j && j + 4 < |vals| ==> !RunAt(vals, j)
    decreases |vals| - i
  {
    if i + 4 >= |vals| then None
    else if RunAt(vals, i) then Some(i)
    else FirstRun(vals, i + 1)
  }

  /** `sorted([value_map[card[0]] for card in cards if card[1] == suit],
      reverse=True)` */
  function SuitValues(cards: seq<string>, suit: char): (r: seq<int>)
    ensures SortedByDesc(r, Ident)
  {
    SortDesc(MapSeq(OfSuit(cards, suit), CardValue))
  }

  /** The inner loop of the straight flush check as written: at each start
      `i`, a run of five is taken; failing that, the ace-to-five straight
      is taken only if it is exactly the first five values of the suit. */
  function SuitRun(sv: seq<int>, suit: char, i: nat): (r: Option<seq<string>>)
    ensures r.Some? ==> |r.value| == 5
    decreases |sv| - i
  {
    if i + 4 >= |sv| then None
    else if RunAt(sv, i) then Some(NumberCards(sv[i..i + 5], suit))
    else if sv[..5] == Wheel then Some(NumberCards(Wheel, suit))
    else SuitRun(sv, suit, i + 1)
  }

  /** Every value of the ace-to-five straight occurs in `vals`. */
  predicate HasWheel(vals: seq<int>) {
    forall v :: v in Wheel ==> v in vals
  }

  /** The straight flush search of one suit as evidently intended: the
      highest run of five, else the ace-to-five straight wherever its
      values stand in the suit. */
  function SuitRunFixed(sv: seq<int>, suit: char): (r: Option<seq<string>>)
    ensures r.Some? ==> |r.value| == 5
  {
    var run := FirstRun(sv, 0);
    if run.Some? then Some(NumberCards(sv[run.value..run.value + 5], suit))
    else if HasWheel(sv) then Some(NumberCards(Wheel, suit))
    else None
  }

  /** The straight flush check: the suits in `suit_counts` order, each
      with at least five cards searched with `SuitRun` as written, or with
      `SuitRunFixed` when `wheelFix` holds. */
  function StraightFlush(cards: seq<string>, keys: seq<char>, sc: Counter, wheelFix: bool): (r: Option<seq<string>>)
    ensures r.Some? ==> |r.value| == 5
  {
    if keys == [] then None
    else
      var suit := keys[0];
      var sv := SuitValues(cards, suit);
      var found :=
        if suit !in sc.count || sc.count[suit] < 5 then None
        else if wheelFix then SuitRunFixed(sv, suit)
        else SuitRun(sv, suit, 0);
      if found.Some? then found else StraightFlush(cards, keys[1..], sc, wheelFix)
  }

  // ---------------------------------------------------------------------
  // Categories

  /** What `hand_rank` returns, without the description: the category and
      the cards. */
  datatype Evaluation = Evaluation(rank: int, cards: seq<string>)

  /** The kicker of four of a kind: `max` of the values other than the
      quads' value. */
  function QuadsKicker(nums: seq<int>, quad: int): (r: Option<int>)
    ensures r.Some? <==> exists v :: v in nums && v != quad
    ensures r.Some? ==> r.value in nums && r.value != quad
    ensures r.Some? ==> forall v :: v in nums && v != quad ==> v <= r.value
  {
    MaxOf(Filter(nums, v => v != quad))
  }

  /** The two pairs kept by two pair: the paired keys sorted by value,
      highest first, cut to two. */
  function TopPairs(pairs: seq<char>): seq<char> {
    Take(SortByKeyDesc(pairs, KeyValue), 2)
  }

  /** Two pair keeps two of the paired keys, the higher first, and no pair
      left out is higher than the lower one kept. */
  lemma TopPairsAreHighest(pairs: seq<char>)
    requires |pairs| >= 2
    ensures |TopPairs(pairs)| == 2
    ensures multiset(TopPairs(pairs)) <= multiset(pairs)
    ensures KeyValue(TopPairs(pairs)[0]) >= KeyValue(TopPairs(pairs)[1])
    ensures forall k :: k in multiset(pairs) - multiset(TopPairs(pairs)) ==> KeyValue(k) <= KeyValue(TopPairs(pairs)[1])
  {
    TakeHighest(pairs, KeyValue, 2);
  }

  /** Pairs listed once each give two different pairs. */
  lemma TopPairsDistinct(pairs: seq<char>)
    requires |pairs| >= 2 && NoDups(pairs)
    ensures |TopPairs(pairs)| == 2 && TopPairs(pairs)[0] != TopPairs(pairs)[1]
    ensures TopPairs(pairs)[0] in pairs && TopPairs(pairs)[1] in pairs
  {
    var r := TopPairs(pairs);
    TopPairsAreHighest(pairs);
    assert r[0] in multiset(r) && r[1] in multiset(r);
    NoDupsIffCountsAtMostOne(pairs);
  }

  /** Four of a kind of the key `q`: the held cards of that value, then
      those of the kicker. */
  function QuadsCards(q: char, nums: seq<int>, suits: seq<char>, cards: seq<string>): Result<Evaluation> {
    var kicker := QuadsKicker(nums, KeyValue(q));
    if kicker.None? then Err(ValueError)
    else
      var kc := KeyOf(kicker.value);
      if kc.Err? then Err(kc.error)
      else Ok(Evaluation(8, WithSuits(q, suits, cards) + WithSuits(kc.value, suits, cards)))
  }

  /** The flush: the cards of the first most frequent suit, sorted by value
      (highest first, ties in their order), cut to five. */
  function FlushCards(cards: seq<string>, sc: Counter): seq<string> {
    var suit := FirstWithCount(sc.keys, sc.count, MaxCount(sc.keys, sc.count));
    var s := if suit.Some? then suit.value else ' ';
    Take(SortByKeyDesc(OfSuit(cards, s), CardValue), 5)
  }

  /** The straight check on the distinct values: a run of five, else the
      ace-to-five straight; the held cards of those values, by key order
      of `value_map` and then in `suits` order. */
  function Straight(nums: seq<int>, suits: seq<char>, cards: seq<string>): Option<seq<string>> {
    var unique := SortDesc(Dedup(nums));
    var run := FirstRun(unique, 0);
    if run.Some? then Some(SuitedCards(KeysWithValueIn(unique[run.value..run.value + 5]), suits, cards))
    else if HasWheel(nums) then Some(SuitedCards(KeysWithValueIn(Wheel), suits, cards))
    else None
  }

  /** Three of a kind of the key `t` with the keys of the two highest other
      values. */
  function TripsCards(t: char, nums: seq<int>, suits: seq<char>, cards: seq<string>): seq<string> {
    var kickers := Take(SortDesc(Filter(nums, v => v != KeyValue(t))), 2);
    WithSuits(t, suits, cards) + SuitedCards(KeysWithValueIn(kickers), suits, cards)
  }

  /** Two pair: the two highest pairs and the highest value of neither. */
  function TwoPairCards(pairs: seq<char>, nums: seq<int>, suits: seq<char>, cards: seq<string>): Result<Evaluation> {
    var top := TopPairs(pairs);
    var kicker := MaxOf(Filter(nums, v => v !in MapSeq(top, KeyValue)));
    if kicker.None? then Err(ValueError)
    else
      var kc := KeyOf(kicker.value);
      if kc.Err? then Err(kc.error)
      else Ok(Evaluation(3, SuitedCards(top, suits, cards) + WithSuits(kc.value, suits, cards)))
  }

  /** One pair of the key `p` with the keys of the three highest other
      values. */
  function PairCards(p: char, nums: seq<int>, suits: seq<char>, cards: seq<string>): seq<string> {
    var kickers := Take(SortDesc(Filter(nums, v => v != KeyValue(p))), 3);
    WithSuits(p, suits, cards) + SuitedCards(KeysWithValueIn(kickers), suits, cards)
  }

  /** The categories of `hand_rank` tested from the strongest down, the
      first that holds returning, for five readable cards or more with the
      value counts `vc`, the suit counts `sc` and the straight flush search
      `sf`. */
  function Classify(cards: seq<string>, vc: Counter, sc: Counter, sf: Option<seq<string>>): Result<Evaluation> {
    var suits := SuitChars(cards);
    var nums := SortDesc(MapSeq(cards, CardValue));
    var quad := FirstWithCount(vc.keys, vc.count, 4);
    var three := FirstWithCount(vc.keys, vc.count, 3);
    var pair := FirstWithCount(vc.keys, vc.count, 2);
    if sf.Some? then Ok(Evaluation(9, sf.value))
    else if quad.Some? then QuadsCards(quad.value, nums, suits, cards)
    else if three.Some? && pair.Some? then
      Ok(Evaluation(7, WithSuits(three.value, suits, cards) + WithSuits(pair.value, suits, cards)))
    else if MaxCount(sc.keys, sc.count) >= 5 then Ok(Evaluation(6, FlushCards(cards, sc)))
    else BelowFlush(cards, vc)
  }

  /** The tests of `hand_rank` after the flush: straight, three of a kind,
      two pair, pair, high card. */
  function BelowFlush(cards: seq<string>, vc: Counter): Result<Evaluation> {
    var suits := SuitChars(cards);
    var nums := SortDesc(MapSeq(cards, CardValue));
    var three := FirstWithCount(vc.keys, vc.count, 3);
    var pair := FirstWithCount(vc.keys, vc.count, 2);
    var pairs := Pairs(vc);
    var straight := Straight(nums, suits, cards);
    if straight.Some? then Ok(Evaluation(5, straight.value))
    else if three.Some? then Ok(Evaluation(4, TripsCards(three.value, nums, suits, cards)))
    else if |pairs| >= 2 then TwoPairCards(pairs, nums, suits, cards)
    else if pair.Some? then Ok(Evaluation(2, PairCards(pair.value, nums, suits, cards)))
    else Ok(Evaluation(1, HighCards(cards)))
  }

  /** `[k for k, v in value_counts.items() if v == 2]` */
  function Pairs(vc: Counter): (r: seq<char>)
    ensures forall k :: k in r <==> k in vc.keys && k in vc.count && vc.count[k] == 2
  {
    Filter(vc.keys, k => k in vc.count && vc.count[k] == 2)
  }

  /** The high card hand: the five highest cards, ties in their order. */
  function HighCards(cards: seq<string>): seq<string> {
    Take(SortByKeyDesc(cards, CardValue), 5)
  }

  /** The characters at position 0 and 1 of every card. */
  function ValueChars(cards: seq<string>): seq<char> { MapSeq(cards, ValueChar) }
  function SuitChars(cards: seq<string>): seq<char> { MapSeq(cards, SuitChar) }

  /** `hand_rank()` on the cards `hand + board`, with the straight flush
      search as written (`wheelFix` false) or as evidently intended: under
      five cards the high card with all the cards; a card without a value
      or a suit raises `IndexError`; a value that is not a key of
      `value_map` raises `KeyError`; otherwise the classification. */
  function EvaluateBy(cards: seq<string>, wheelFix: bool): Result<Evaluation> {
    if |cards| < 5 then Ok(Evaluation(1, cards))
    else if exists c :: c in cards && |c| < 2 then Err(IndexError)
    else if exists c :: c in cards && !Readable(c) then Err(KeyError)
    else
      var sc := Tally(SuitChars(cards));
      Classify(cards, Tally(ValueChars(cards)), sc, StraightFlushFound(cards, sc, wheelFix))
  }

  /** The straight flush branch, entered only when some suit has five
      cards. */
  function StraightFlushFound(cards: seq<string>, sc: Counter, wheelFix: bool): Option<seq<string>> {
    if MaxCount(sc.keys, sc.count) >= 5 then StraightFlush(cards, sc.keys, sc, wheelFix) else None
  }

  /** `hand_rank()` as written. */
  function Evaluate(cards: seq<string>): Result<Evaluation> {
    EvaluateBy(cards, false)
  }

  /** `hand_rank()` with the ace-to-five straight flush found wherever it
      stands in the suit. */
  function EvaluateCorrected(cards: seq<string>): Result<Evaluation> {
    EvaluateBy(cards, true)
  }

  // ---------------------------------------------------------------------
  // The Poker object

  /** The board after `card_reveal(card)`: the card is appended unless it
      is already on the board or in the hand. */
  function Revealed(board: seq<string>, hand: seq<string>, card: string): (r: seq<string>)
    ensures card in hand + r
    ensures |board| <= |r| <= |board| + 1
  {
    if card in board || card in hand then board else board + [card]
  }

  /** A player's hole cards and the community cards seen so far. */
  class Poker {
    var hand: seq<string>
    var board: seq<string>

    /** `Poker(hand, board)`: a missing or empty board starts empty. */
    constructor (hand: seq<string>, board: Option<seq<string>>)
      ensures this.hand == hand
      ensures this.board == if board.Some? then board.value else []
    {
      this.hand := hand;
      this.board := if board.Some? then board.value else [];
    }

    /** `card_reveal(card)` */
    method CardReveal(card: string)
      modifies this
      ensures hand == old(hand)
      ensures board == Revealed(old(board), hand, card)
    {
      if card !in board && card !in hand {
        board := board + [card];
      }
    }

    /** `hand_rank()`: the two counting loops, then the classification. */
    method HandRank() returns (r: Result<Evaluation>)
      ensures r == Evaluate(hand + board)
    {
      var cards := hand + board;
      if |cards| < 5 {
        return Ok(Evaluation(1, cards));
      }
      if exists c :: c in cards && |c| < 2 {
        return Err(IndexError);
      }
      if exists c :: c in cards && !Readable(c) {
        return Err(KeyError);
      }
      var valueCounts := CountOccurrences(ValueChars(cards));
      var suitCounts := CountOccurrences(SuitChars(cards));
      r := Classify(cards, valueCounts, suitCounts, StraightFlushFound(cards, suitCounts, false));
    }
  }

  /** Revealing a card is idempotent, keeps every card seen, and keeps a
      board without repeats and without the hole cards that way. */
  lemma RevealProperties(board: seq<string>, hand: seq<string>, card: string)
    ensures Revealed(Revealed(board, hand, card), hand, card) == Revealed(board, hand, card)
    ensures forall c :: c in board ==> c in Revealed(board, hand, card)
    ensures forall c :: c in Revealed(board, hand, card) ==> c in board || c == card
    ensures NoDups(board) && (forall c :: c in board ==> c !in hand) ==>
      NoDups(Revealed(board, hand, card)) && forall c :: c in Revealed(board, hand, card) ==> c !in hand
  {
  }

  // ---------------------------------------------------------------------
  // The straight flush with the ace low

  /** As written, a suit holding A K 5 4 3 2 has no straight flush: the
      first five values are A K 5 4 3, not the ace-to-five straight, and no
      five of them are consecutive. The corrected search finds the
      ace-to-five straight. */
  lemma WheelStraightFlushMissed()
    ensures HasWheel([14, 13, 5, 4, 3, 2])
    ensures SuitRun([14, 13, 5, 4, 3, 2], 'H', 0) == None
    ensures SuitRunFixed([14, 13, 5, 4, 3, 2], 'H') == Some(NumberCards(Wheel, 'H'))
  {
    var sv := [14, 13, 5, 4, 3, 2];
    assert sv[..5] == [14, 13, 5, 4, 3];
    assert !RunAt(sv, 0) && !RunAt(sv, 1);
    assert forall v :: v in Wheel ==> v in sv;
  }

  /** The corrected search of one suit finds a straight flush exactly when
      five of its values are consecutive or it holds the ace-to-five
      straight, and then prefers the highest run. */
  lemma SuitRunFixedFinds(sv: seq<int>, suit: char)
    ensures SuitRunFixed(sv, suit).Some? <==> (exists i: nat :: i + 4 < |sv| && RunAt(sv, i)) || HasWheel(sv)
    ensures forall i: nat :: i + 4 < |sv| && RunAt(sv, i) ==>
      SuitRunFixed(sv, suit) == Some(NumberCards(sv[FirstRun(sv, 0).value..FirstRun(sv, 0).value + 5], suit))
  {
  }

  /** Whatever the written search finds, the corrected one finds too. */
  lemma {:induction false} SuitRunFixedExtends(sv: seq<int>, suit: char, i: nat)
    requires forall j: nat :: j < i && j + 4 < |sv| ==> !RunAt(sv, j)
    ensures SuitRun(sv, suit, i).Some? ==> SuitRunFixed(sv, suit).Some?
    decreases |sv| - i
  {
    if i + 4 < |sv| && !RunAt(sv, i) && sv[..5] != Wheel {
      SuitRunFixedExtends(sv, suit, i + 1);
    } else if i + 4 < |sv| && !RunAt(sv, i) {
      assert forall v :: v in Wheel ==> v in sv by {
        forall v | v in Wheel ensures v in sv {
          var k :| 0 <= k < 5 && Wheel[k] == v;
          assert sv[k] == v;
        }
      }
    }
  }

  // ---------------------------------------------------------------------
  // What the categories mean

  /** Some value is held exactly `n` times. */
  predicate OfAKind(cards: seq<string>, n: int) {
    exists k :: k in ValueChars(cards) && multiset(ValueChars(cards))[k] == n
  }

  /** Two different values are each held exactly twice. */
  predicate TwoPairsHeld(cards: seq<string>) {
    exists a, b :: a in ValueChars(cards) && b in ValueChars(cards) && a != b
      && multiset(ValueChars(cards))[a] == 2 && multiset(ValueChars(cards))[b] == 2
  }

  /** Some suit is held five times or more. */
  predicate FlushHeld(cards: seq<string>) {
    exists s :: s in SuitChars(cards) && multiset(SuitChars(cards))[s] >= 5
  }

  /** Five consecutive values are held, or the ace-to-five straight. */
  predicate StraightHeld(cards: seq<string>) {
    var unique := SortDesc(Dedup(MapSeq(cards, CardValue)));
    (exists i: nat :: i + 4 < |unique| && RunAt(unique, i)) || HasWheel(MapSeq(cards, CardValue))
  }

  /** The category of a hand of five cards or more, from the counts of its
      values and suits, given whether the straight flush search succeeded:
      the strongest that holds. */
  function Category(cards: seq<string>, straightFlush: bool): (c: int)
    ensures 1 <= c <= 9
  {
    if straightFlush then 9
    else if OfAKind(cards, 4) then 8
    else if OfAKind(cards, 3) && OfAKind(cards, 2) then 7
    else if FlushHeld(cards) then 6
    else if StraightHeld(cards) then 5
    else if OfAKind(cards, 3) then 4
    else if TwoPairsHeld(cards) then 3
    else if OfAKind(cards, 2) then 2
    else 1
  }

  /** The first key counted `n` times exists exactly when some character
      occurs `n` times. */
  lemma FirstWithCountTally(xs: seq<char>, n: int)
    ensures FirstWithCount(Tally(xs).keys, Tally(xs).count, n).Some? <==> exists k :: k in xs && multiset(xs)[k] == n
    ensures FirstWithCount(Tally(xs).keys, Tally(xs).count, n).Some? ==>
      var k := FirstWithCount(Tally(xs).keys, Tally(xs).count, n).value;
      k in xs && multiset(xs)[k] == n
  {
    TallyCounts(xs);
  }

  /** The largest count reaches five exactly when some character occurs
      five times or more. */
  lemma MaxCountTally(xs: seq<char>)
    ensures MaxCount(Tally(xs).keys, Tally(xs).count) >= 5 <==> exists k :: k in xs && multiset(xs)[k] >= 5
  {
    TallyCounts(xs);
    var c := Tally(xs);
    if MaxCount(c.keys, c.count) >= 5 {
      assert c.keys != [];
      var k :| k in c.keys && c.count[k] == MaxCount(c.keys, c.count);
    } else {
      forall k | k in xs ensures multiset(xs)[k] < 5 {
        assert k in c.keys && k in c.count;
      }
    }
  }

  /** The keys counted twice, each once. */
  lemma PairsNoDups(xs: seq<char>)
    ensures NoDups(Pairs(Tally(xs)))
  {
    TallyCounts(xs);
    var c := Tally(xs);
    var p := Pairs(c);
    NoDupsIffCountsAtMostOne(c.keys);
    forall x ensures multiset(p)[x] <= 1 {
      FilterCount(c.keys, k => k in c.count && c.count[k] == 2, x);
    }
    NoDupsIffCountsAtMostOne(p);
  }

  /** Two keys are counted twice exactly when two different characters
      each occur twice. */
  lemma PairsTally(xs: seq<char>)
    ensures |Pairs(Tally(xs))| >= 2 <==> exists a, b :: a in xs && b in xs && a != b && multiset(xs)[a] == 2 && multiset(xs)[b] == 2
  {
    var p := Pairs(Tally(xs));
    if |p| >= 2 {
      PairsNoDups(xs);
      TallyCounts(xs);
      assert p[0] in p && p[1] in p && p[0] != p[1];
    }
    if exists a, b :: a in xs && b in xs && a != b && multiset(xs)[a] == 2 && multiset(xs)[b] == 2 {
      var a, b :| a in xs && b in xs && a != b && multiset(xs)[a] == 2 && multiset(xs)[b] == 2;
      TallyCounts(xs);
      assert a in p && b in p;
      TwoMembersLength(p, a, b);
    }
  }

  /** A list holding two different elements has at least two entries. */
  lemma TwoMembersLength(p: seq<char>, a: char, b: char)
    requires a in p && b in p && a != b
    ensures |p| >= 2
  {
  }

  /** A list whose every element is `a` or `b` is as long as their counts
      together (or the count of `a` when they are the same). */
  lemma {:induction false} OnlyTwoValues(xs: seq<char>, a: char, b: char)
    requires forall i :: 0 <= i < |xs| ==> xs[i] == a || xs[i] == b
    ensures a != b ==> |xs| == multiset(xs)[a] + multiset(xs)[b]
    ensures a == b ==> |xs| == multiset(xs)[a]
  {
    if xs != [] {
      OnlyTwoValues(xs[1..], a, b);
      assert xs == [xs[0]] + xs[1..];
      assert multiset(xs) == multiset{xs[0]} + multiset(xs[1..]);
    }
  }

  /** Every value of a readable card is between 2 and 14. */
  lemma ReadableValues(cards: seq<string>)
    requires forall c :: c in cards ==> Readable(c)
    ensures forall v :: v in MapSeq(cards, CardValue) ==> 2 <= v <= 14
  {
    var m := MapSeq(cards, CardValue);
    forall v | v in m ensures 2 <= v <= 14 {
      var i :| 0 <= i < |m| && m[i] == v;
      assert cards[i] in cards;
    }
  }

  /** Every value of a readable hand, sorted, is between 2 and 14. */
  lemma NumsWithin(cards: seq<string>)
    requires forall c :: c in cards ==> Readable(c)
    ensures forall v :: v in SortDesc(MapSeq(cards, CardValue)) ==> 2 <= v <= 14
  {
    ReadableValues(cards);
    SortDescMembers(MapSeq(cards, CardValue));
  }

  /** Sorting keeps the members. */
  lemma SortDescMembers(s: seq<int>)
    ensures forall v :: v in SortDesc(s) <==> v in s
  {
    assert forall v :: v in SortDesc(s) <==> v in multiset(SortDesc(s));
    assert forall v :: v in s <==> v in multiset(s);
  }

  /** Two keys of `value_map` with the same value are the same key. */
  lemma KeyValueInjective(a: char, b: char)
    requires ValueOf(a).Some? && ValueOf(b).Some? && KeyValue(a) == KeyValue(b)
    ensures a == b
  {
  }

  /** Each number of `m` is the value of the character at the same
      position of `vcs`, and every character of `vcs` is a key of
      `value_map`. */
  predicate ValueLinked(m: seq<int>, vcs: seq<char>) {
    && |m| == |vcs|
    && (forall i :: 0 <= i < |vcs| ==> IsValueKey(vcs[i]) && m[i] == KeyValue(vcs[i]))
    && (forall k :: k in vcs ==> IsValueKey(k))
  }

  /** For a readable hand, each card's value is the value of its value
      character, which is a key of `value_map`. */
  lemma ValueLink(cards: seq<string>)
    requires forall c :: c in cards ==> Readable(c)
    ensures ValueLinked(MapSeq(cards, CardValue), ValueChars(cards))
  {
    var vcs := ValueChars(cards);
    forall i | 0 <= i < |cards|
      ensures IsValueKey(vcs[i]) && MapSeq(cards, CardValue)[i] == KeyValue(vcs[i])
    {
      assert cards[i] in cards;
    }
    forall k | k in vcs ensures IsValueKey(k) {
      var j :| 0 <= j < |vcs| && vcs[j] == k;
    }
  }

  /** Values read from keys of `value_map`: when the characters `a` and `b`
      do not account for every position, some value differs from both of
      theirs. */
  lemma OtherValue(m: seq<int>, vcs: seq<char>, a: char, b: char)
    requires ValueLinked(m, vcs) && a in vcs && b in vcs
    requires (if a == b then multiset(vcs)[a] else multiset(vcs)[a] + multiset(vcs)[b]) < |vcs|
    ensures exists v :: v in m && v != KeyValue(a) && v != KeyValue(b)
  {
    var i: int;
    if a == b {
      i := OtherIndex(vcs, a);
    } else {
      i := ThirdIndex(vcs, a, b);
    }
    assert m[i] != KeyValue(a) by {
      if m[i] == KeyValue(a) {
        KeyValueInjective(vcs[i], a);
      }
    }
    assert m[i] != KeyValue(b) by {
      if m[i] == KeyValue(b) {
        KeyValueInjective(vcs[i], b);
      }
    }
    assert m[i] in m;
  }

  /** A character occurring fewer times than the list is long leaves a
      position holding another character. */
  lemma OtherIndex(xs: seq<char>, q: char) returns (i: int)
    requires multiset(xs)[q] < |xs|
    ensures 0 <= i < |xs| && xs[i] != q
  {
    if forall j :: 0 <= j < |xs| ==> xs[j] == q {
      OnlyTwoValues(xs, q, q);
    }
    i :| 0 <= i < |xs| && xs[i] != q;
  }

  /** With five readable cards or more, a value held exactly four times
      leaves a card of another value for the kicker. */
  lemma QuadsHaveKicker(cards: seq<string>, q: char)
    requires |cards| >= 5 && forall c :: c in cards ==> Readable(c)
    requires q in ValueChars(cards) && multiset(ValueChars(cards))[q] == 4
    ensures exists v :: v in SortDesc(MapSeq(cards, CardValue)) && v != KeyValue(q)
  {
    ValueLink(cards);
    KickerAmong(MapSeq(cards, CardValue), ValueChars(cards), q, q);
  }

  /** With five readable cards or more, two values held exactly twice leave
      a card of a third value for the kicker. */
  lemma TwoPairsHaveKicker(cards: seq<string>, a: char, b: char)
    requires |cards| >= 5 && forall c :: c in cards ==> Readable(c)
    requires a != b && a in ValueChars(cards) && b in ValueChars(cards)
    requires multiset(ValueChars(cards))[a] == 2 && multiset(ValueChars(cards))[b] == 2
    ensures exists v :: v in SortDesc(MapSeq(cards, CardValue)) && v != KeyValue(a) && v != KeyValue(b)
  {
    ValueLink(cards);
    KickerAmong(MapSeq(cards, CardValue), ValueChars(cards), a, b);
  }

  /** A value character occurring too few times to fill the list, or two
      of them, leave a number in the sorted values that is neither's. */
  lemma KickerAmong(m: seq<int>, vcs: seq<char>, a: char, b: char)
    requires ValueLinked(m, vcs) && a in vcs && b in vcs
    requires (if a == b then multiset(vcs)[a] else multiset(vcs)[a] + multiset(vcs)[b]) < |vcs|
    ensures exists v :: v in SortDesc(m) && v != KeyValue(a) && v != KeyValue(b)
  {
    OtherValue(m, vcs, a, b);
    SortDescMembers(m);
  }

  /** Two different characters occurring fewer times together than the
      list is long leave a position holding a third one. */
  lemma ThirdIndex(xs: seq<char>, a: char, b: char) returns (i: int)
    requires a != b && multiset(xs)[a] + multiset(xs)[b] < |xs|
    ensures 0 <= i < |xs| && xs[i] != a && xs[i] != b
  {
    if forall j :: 0 <= j < |xs| ==> xs[j] == a || xs[j] == b {
      OnlyTwoValues(xs, a, b);
    }
    i :| 0 <= i < |xs| && xs[i] != a && xs[i] != b;
  }

  /** The four of a kind branch returns once a value other than the
      quads' is held and every value is one of `value_map`. */
  lemma QuadsBranchOk(q: char, nums: seq<int>, suits: seq<char>, cards: seq<string>)
    requires exists v :: v in nums && v != KeyValue(q)
    requires forall v :: v in nums ==> 2 <= v <= 14
    ensures QuadsCards(q, nums, suits, cards).Ok? && QuadsCards(q, nums, suits, cards).value.rank == 8
  {
    var v :| v in nums && v != KeyValue(q);
    KickerWithin(nums, KeyValue(q), v);
    QuadsCardsOk(q, nums, suits, cards);
  }

  /** Four of a kind returns once its kicker is a value of `value_map`. */
  lemma QuadsCardsOk(q: char, nums: seq<int>, suits: seq<char>, cards: seq<string>)
    requires QuadsKicker(nums, KeyValue(q)).Some?
    requires 2 <= QuadsKicker(nums, KeyValue(q)).value <= 14
    ensures QuadsCards(q, nums, suits, cards).Ok? && QuadsCards(q, nums, suits, cards).value.rank == 8
  {
  }

  /** A value other than the quads' makes the kicker exist, among the
      values. */
  lemma KickerWithin(nums: seq<int>, quad: int, v: int)
    requires v in nums && v != quad
    ensures QuadsKicker(nums, quad).Some? && QuadsKicker(nums, quad).value in nums
  {
  }

  /** The two pair branch returns for readable cards: the kicker exists and
      is a value of `value_map`. */
  lemma TwoPairBranchOk(cards: seq<string>)
    requires |cards| >= 5 && forall c :: c in cards ==> Readable(c)
    requires |Pairs(Tally(ValueChars(cards)))| >= 2
    ensures TwoPairCards(Pairs(Tally(ValueChars(cards))), SortDesc(MapSeq(cards, CardValue)), SuitChars(cards), cards).Ok?
    ensures TwoPairCards(Pairs(Tally(ValueChars(cards))), SortDesc(MapSeq(cards, CardValue)), SuitChars(cards), cards).value.rank == 3
  {
    var vcs := ValueChars(cards);
    var m := MapSeq(cards, CardValue);
    var nums := SortDesc(m);
    var pairs := Pairs(Tally(vcs));
    var top := TopPairs(pairs);
    PairsNoDups(vcs);
    TopPairsDistinct(pairs);
    assert top[0] in vcs && top[1] in vcs && multiset(vcs)[top[0]] == 2 && multiset(vcs)[top[1]] == 2 by {
      TallyCounts(vcs);
    }
    TwoPairsHaveKicker(cards, top[0], top[1]);
    var v :| v in nums && v != KeyValue(top[0]) && v != KeyValue(top[1]);
    NumsWithin(cards);
    TwoPairCardsOk(pairs, nums, SuitChars(cards), cards, v);
  }

  /** Two pair returns once a value other than the two pairs' is held and
      every value is one of `value_map`. */
  lemma TwoPairCardsOk(pairs: seq<char>, nums: seq<int>, suits: seq<char>, cards: seq<string>, v: int)
    requires |TopPairs(pairs)| == 2
    requires v in nums && v != KeyValue(TopPairs(pairs)[0]) && v != KeyValue(TopPairs(pairs)[1])
    requires forall v :: v in nums ==> 2 <= v <= 14
    ensures TwoPairCards(pairs, nums, suits, cards).Ok? && TwoPairCards(pairs, nums, suits, cards).value.rank == 3
  {
    var top := TopPairs(pairs);
    var pv := MapSeq(top, KeyValue);
    assert v !in pv by {
      assert |pv| == 2 && pv[0] == KeyValue(top[0]) && pv[1] == KeyValue(top[1]);
    }
    var kicker := MaxOf(Filter(nums, v => v !in pv));
    assert kicker.Some? && kicker.value in nums by {
      assert v in Filter(nums, v => v !in pv);
    }
  }

  /** Lists without repeats that hold the same elements are permutations
      of each other. */
  lemma SameMembersPermutation(a: seq<int>, b: seq<int>)
    requires NoDups(a) && NoDups(b)
    requires forall x :: x in a <==> x in b
    ensures multiset(a) == multiset(b)
  {
    NoDupsIffCountsAtMostOne(a);
    NoDupsIffCountsAtMostOne(b);
    forall x ensures multiset(a)[x] == multiset(b)[x] {
      assert x in a <==> x in multiset(a);
      assert x in b <==> x in multiset(b);
    }
  }

  /** The straight check of `hand_rank` succeeds exactly when five
      consecutive values or the ace-to-five straight are held. */
  lemma StraightIff(cards: seq<string>)
    ensures Straight(SortDesc(MapSeq(cards, CardValue)), SuitChars(cards), cards).Some? <==> StraightHeld(cards)
  {
    var m := MapSeq(cards, CardValue);
    SortDescMembers(m);
    var u1 := SortDesc(Dedup(SortDesc(m)));
    var u2 := SortDesc(Dedup(m));
    SameMembersPermutation(Dedup(SortDesc(m)), Dedup(m));
    SortedUnique(u1, u2);
    assert HasWheel(SortDesc(m)) <==> HasWheel(m);
  }

  /** For five readable cards or more, `hand_rank` returns, and its
      category is the strongest of the value and suit counts that holds
      (with the straight flush as found by the search). */
  lemma RankIsCategory(cards: seq<string>, wheelFix: bool)
    requires |cards| >= 5 && forall c :: c in cards ==> Readable(c)
    ensures EvaluateBy(cards, wheelFix).Ok?
    ensures EvaluateBy(cards, wheelFix).value.rank
      == Category(cards, StraightFlushFound(cards, Tally(SuitChars(cards)), wheelFix).Some?)
  {
    var sc := Tally(SuitChars(cards));
    CountsAgree(cards);
    KickersExist(cards);
    ClassifyIsCategory(cards, Tally(ValueChars(cards)), sc, StraightFlushFound(cards, sc, wheelFix));
    EvaluateByClassify(cards, wheelFix);
  }

  /** Each test of `hand_rank` on the counted dicts agrees with its
      meaning on the cards. */
  lemma CountsAgree(cards: seq<string>)
    ensures var vc := Tally(ValueChars(cards));
      && (FirstWithCount(vc.keys, vc.count, 4).Some? <==> OfAKind(cards, 4))
      && (FirstWithCount(vc.keys, vc.count, 3).Some? <==> OfAKind(cards, 3))
      && (FirstWithCount(vc.keys, vc.count, 2).Some? <==> OfAKind(cards, 2))
      && (|Pairs(vc)| >= 2 <==> TwoPairsHeld(cards))
    ensures var sc := Tally(SuitChars(cards));
      MaxCount(sc.keys, sc.count) >= 5 <==> FlushHeld(cards)
    ensures Straight(SortDesc(MapSeq(cards, CardValue)), SuitChars(cards), cards).Some? <==> StraightHeld(cards)
  {
    var vcs := ValueChars(cards);
    FirstWithCountTally(vcs, 4);
    FirstWithCountTally(vcs, 3);
    FirstWithCountTally(vcs, 2);
    PairsTally(vcs);
    MaxCountTally(SuitChars(cards));
    StraightIff(cards);
  }

  /** For five readable cards or more, the branches of `hand_rank` that
      look for a kicker find one. */
  lemma KickersExist(cards: seq<string>)
    requires |cards| >= 5 && forall c :: c in cards ==> Readable(c)
    ensures var vc := Tally(ValueChars(cards));
      var quad := FirstWithCount(vc.keys, vc.count, 4);
      quad.Some? ==>
        var r := QuadsCards(quad.value, SortDesc(MapSeq(cards, CardValue)), SuitChars(cards), cards);
        r.Ok? && r.value.rank == 8
    ensures var vc := Tally(ValueChars(cards));
      |Pairs(vc)| >= 2 ==>
        var r := TwoPairCards(Pairs(vc), SortDesc(MapSeq(cards, CardValue)), SuitChars(cards), cards);
        r.Ok? && r.value.rank == 3
  {
    var vcs := ValueChars(cards);
    var vc := Tally(vcs);
    var quad := FirstWithCount(vc.keys, vc.count, 4);
    if quad.Some? {
      FirstWithCountTally(vcs, 4);
      QuadsHaveKicker(cards, quad.value);
      NumsWithin(cards);
      QuadsBranchOk(quad.value, SortDesc(MapSeq(cards, CardValue)), SuitChars(cards), cards);
    }
    if |Pairs(vc)| >= 2 {
      TwoPairBranchOk(cards);
    }
  }

  /** For five readable cards or more, `hand_rank` is the cascade on the
      counts of the values and of the suits. */
  lemma EvaluateByClassify(cards: seq<string>, wheelFix: bool)
    requires |cards| >= 5 && forall c :: c in cards ==> Readable(c)
    ensures EvaluateBy(cards, wheelFix)
      == Classify(cards, Tally(ValueChars(cards)), Tally(SuitChars(cards)),
                  StraightFlushFound(cards, Tally(SuitChars(cards)), wheelFix))
  {
    assert !exists c :: c in cards && |c| < 2;
    assert !exists c :: c in cards && !Readable(c);
  }

  /** The cascade of `hand_rank` picks the strongest category that holds,
      once each test of the counts agrees with its meaning and the two
      branches that look for a kicker return. */
  lemma ClassifyIsCategory(cards: seq<string>, vc: Counter, sc: Counter, sf: Option<seq<string>>)
    requires FirstWithCount(vc.keys, vc.count, 4).Some? <==> OfAKind(cards, 4)
    requires FirstWithCount(vc.keys, vc.count, 3).Some? <==> OfAKind(cards, 3)
    requires FirstWithCount(vc.keys, vc.count, 2).Some? <==> OfAKind(cards, 2)
    requires |Pairs(vc)| >= 2 <==> TwoPairsHeld(cards)
    requires MaxCount(sc.keys, sc.count) >= 5 <==> FlushHeld(cards)
    requires Straight(SortDesc(MapSeq(cards, CardValue)), SuitChars(cards), cards).Some? <==> StraightHeld(cards)
    requires FirstWithCount(vc.keys, vc.count, 4).Some? ==>
      var r := QuadsCards(FirstWithCount(vc.keys, vc.count, 4).value, SortDesc(MapSeq(cards, CardValue)), SuitChars(cards), cards);
      r.Ok? && r.value.rank == 8
    requires |Pairs(vc)| >= 2 ==>
      var r := TwoPairCards(Pairs(vc), SortDesc(MapSeq(cards, CardValue)), SuitChars(cards), cards);
      r.Ok? && r.value.rank == 3
    ensures Classify(cards, vc, sc, sf).Ok?
    ensures Classify(cards, vc, sc, sf).value.rank == Category(cards, sf.Some?)
  {
    BelowFlushIsCategory(cards, vc);
  }

  /** Below the flush, the cascade picks the strongest of straight, three
      of a kind, two pair, pair and high card that holds. */
  lemma BelowFlushIsCategory(cards: seq<string>, vc: Counter)
    requires FirstWithCount(vc.keys, vc.count, 3).Some? <==> OfAKind(cards, 3)
    requires FirstWithCount(vc.keys, vc.count, 2).Some? <==> OfAKind(cards, 2)
    requires |Pairs(vc)| >= 2 <==> TwoPairsHeld(cards)
    requires Straight(SortDesc(MapSeq(cards, CardValue)), SuitChars(cards), cards).Some? <==> StraightHeld(cards)
    requires |Pairs(vc)| >= 2 ==>
      var r := TwoPairCards(Pairs(vc), SortDesc(MapSeq(cards, CardValue)), SuitChars(cards), cards);
      r.Ok? && r.value.rank == 3
    ensures BelowFlush(cards, vc).Ok?
    ensures BelowFlush(cards, vc).value.rank
      == if StraightHeld(cards) then 5
         else if OfAKind(cards, 3) then 4
         else if TwoPairsHeld(cards) then 3
         else if OfAKind(cards, 2) then 2
         else 1
  {
  }

  // ---------------------------------------------------------------------
  // Lemmas

  /** The first n of a list sorted by a key, highest first: in order, taken
      from the list, and no element left out has a higher key than the
      last one taken. */
  lemma TakeHighest<T>(s: seq<T>, key: T -> int, n: nat)
    ensures SortedByDesc(Take(SortByKeyDesc(s, key), n), key)
    ensures multiset(Take(SortByKeyDesc(s, key), n)) <= multiset(s)
    ensures |s| >= n ==> |Take(SortByKeyDesc(s, key), n)| == n
    ensures var r := Take(SortByKeyDesc(s, key), n);
      |r| > 0 ==> forall x :: x in multiset(s) - multiset(r) ==> key(x) <= key(r[|r| - 1])
  {
    TakeOfSorted(s, SortByKeyDesc(s, key), key, n);
  }

  /** The first n of a sorted reordering of `s`. */
  lemma TakeOfSorted<T>(s: seq<T>, sorted: seq<T>, key: T -> int, n: nat)
    requires SortedByDesc(sorted, key) && multiset(sorted) == multiset(s) && |sorted| == |s|
    ensures SortedByDesc(Take(sorted, n), key)
    ensures multiset(Take(sorted, n)) <= multiset(s)
    ensures |s| >= n ==> |Take(sorted, n)| == n
    ensures var r := Take(sorted, n);
      |r| > 0 ==> forall x :: x in multiset(s) - multiset(r) ==> key(x) <= key(r[|r| - 1])
  {
    var m := if |sorted| <= n then |sorted| else n;
    var r := Take(sorted, n);
    assert r == sorted[..m];
    SortedSplit(sorted, key, m);
  }

  /** A list sorted by key, highest first, cut at m: both parts are in
      the list, the first part is sorted, and nothing in the second part
      has a higher key than the last element of the first. */
  lemma SortedSplit<T>(sorted: seq<T>, key: T -> int, m: nat)
    requires SortedByDesc(sorted, key) && m <= |sorted|
    ensures SortedByDesc(sorted[..m], key)
    ensures multiset(sorted) - multiset(sorted[..m]) == multiset(sorted[m..])
    ensures multiset(sorted[..m]) <= multiset(sorted)
    ensures m > 0 ==> forall x :: x in multiset(sorted[m..]) ==> key(x) <= key(sorted[..m][m - 1])
  {
    assert sorted == sorted[..m] + sorted[m..];
    assert multiset(sorted) == multiset(sorted[..m]) + multiset(sorted[m..]);
    if m > 0 {
      SortedPrefixDominates(sorted, key, m);
    }
  }

  /** In a list sorted by key, highest first, nothing after position n - 1
      has a higher key than the element there. */
  lemma SortedPrefixDominates<T>(sorted: seq<T>, key: T -> int, n: nat)
    requires SortedByDesc(sorted, key) && 0 < n <= |sorted|
    ensures forall x :: x in multiset(sorted[n..]) ==> key(x) <= key(sorted[n - 1])
  {
    forall x | x in multiset(sorted[n..]) ensures key(x) <= key(sorted[n - 1]) {
      var k :| 0 <= k < |sorted[n..]| && sorted[n..][k] == x;
      assert sorted[n + k] == x;
    }
  }
}
