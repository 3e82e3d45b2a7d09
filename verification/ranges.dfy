/** The opponent model of Stats_improved.py: two-card combos, their strength
    label, the texture of the board, and the weighted range of combos the
    opponent may hold, narrowed after each observed action. A range is the
    `{combo: weight}` dict in its key order. */
module Ranges {
  import opened Lists
  import opened Cards
  import opened Py
  import opened Moves

  /** A dict key `tuple(sorted([card1, card2]))`. */
  datatype Combo = Combo(first: Card, second: Card)

  /** The labels of `get_hand_category`. */
  datatype Strength = Premium | Strong | Medium | Weak | Trash

  /** The order `sorted` puts card tuples in: by colour character, then by
      value character ("2" < ... < "9" < "A" < "J" < "K" < "Q" < "T"). */
  predicate CardBefore(a: Card, b: Card) {
    SuitChar(a.suit) < SuitChar(b.suit)
    || (SuitChar(a.suit) == SuitChar(b.suit) && ValueChar(a.value) < ValueChar(b.value))
  }

  /** `tuple(sorted([c1, c2]))`. */
  function MakeCombo(c1: Card, c2: Card): Combo {
    if CardBefore(c2, c1) then Combo(c2, c1) else Combo(c1, c2)
  }

  function Abs(x: int): (r: nat)
    ensures r == x || r == -x
  {
    if x < 0 then -x else x
  }

  /** `get_hand_category(combo)`: the first rule that matches, in the
      source's order. "Pair" compares the two value characters, which is
      comparing the values; the first card of the tuple plays a part of its
      own, so the label depends on which card sorts first. */
  function HandCategory(c: Combo): (r: Strength)
    ensures c.first.value == c.second.value ==>
      r == (if c.first.value >= 10 then Premium else if c.first.value >= 7 then Strong else Medium)
    ensures c.first.value != c.second.value && c.first.value >= 12 && c.second.value >= 12 ==>
      r == (if c.first.suit == c.second.suit then Premium else Strong)
    ensures c.first.suit != c.second.suit && c.first.value != c.second.value ==>
      && (r == Strong <==> c.first.value >= 12 && c.second.value >= 12)
      && (r == Medium <==> !(c.first.value >= 12 && c.second.value >= 12) && c.first.value >= 11 && c.second.value >= 10)
      && r != Premium && r != Weak
    ensures r == Weak ==> c.first.suit == c.second.suit && Abs(c.first.value - c.second.value) <= 2
  {
    var v1 := c.first.value;
    var v2 := c.second.value;
    var pair := v1 == v2;
    var suited := c.first.suit == c.second.suit;
    if pair && v1 >= 10 then Premium
    else if v1 >= 12 && v2 >= 12 then (if suited then Premium else Strong)
    else if pair && v1 >= 7 then Strong
    else if v1 >= 11 && v2 >= 10 then (if suited then Strong else Medium)
    else if suited && Abs(v1 - v2) <= 1 && v1 >= 9 then Medium
    else if pair then Medium
    else if suited && (v1 >= 11 || v2 >= 11) then Medium
    else if suited && Abs(v1 - v2) <= 2 then Weak
    else Trash
  }

  // ---------------------------------------------------------------------
  // Board texture

  /** The dict `analyze_board_texture` returns. Before the flop it has only
      'type', 'draw_heavy', 'paired' and 'coordinated', all false. */
  datatype Texture =
    | Preflop
    | Postflop(paired: bool, flushDraw: bool, straightDraw: bool, coordinated: bool,
               drawHeavy: bool, rainbow: bool, dry: bool)

  /** `texture.get('paired')`, `texture.get('draw_heavy')`, `texture.get('dry')`:
      false (or missing) before the flop. */
  predicate IsPaired(t: Texture) { t.Postflop? && t.paired }
  predicate IsDrawHeavy(t: Texture) { t.Postflop? && t.drawHeavy }
  predicate IsDry(t: Texture) { t.Postflop? && t.dry }

  /** Two different cards whose values are at most 2 apart. */
  predicate CloseValues(vals: seq<int>) {
    exists i, j :: 0 <= i < |vals| && 0 <= j < |vals| && i != j && -2 <= vals[i] - vals[j] <= 2
  }

  /** The search loop of the straight-draw test on sorted values: some
      neighbours differ by at most 2. The neighbours of the ascending sort
      are those of the descending one. */
  predicate AdjacentClose(sv: seq<int>) {
    exists i :: 0 <= i < |sv| - 1 && sv[i] - sv[i + 1] <= 2
  }

  /** The colours present: the keys of `Counter(suits)`. */
  function SuitsOf(board: seq<Card>): set<Suit> {
    set c | c in board :: c.suit
  }

  /** `analyze_board_texture(board)`. */
  function BoardTexture(board: seq<Card>): (r: Texture)
    ensures r.Preflop? <==> |board| < 3
    ensures r.Postflop? ==>
      (r.paired <==> exists i, j :: 0 <= i < j < |board| && board[i].value == board[j].value)
    ensures r.Postflop? ==> (r.flushDraw <==> exists s :: SuitCount(board, s) >= 3)
    ensures r.Postflop? ==> (r.straightDraw <==> CloseValues(ValuesOf(board)))
    ensures r.Postflop? ==> (r.rainbow <==> |SuitsOf(board)| >= 3)
  {
    if |board| < 3 then Preflop
    else
      var vals := ValuesOf(board);
      var paired := !NoDups(vals);
      PairedIff(board);
      var flush := SuitCount(board, D) >= 3 || SuitCount(board, H) >= 3
                   || SuitCount(board, S) >= 3 || SuitCount(board, C) >= 3;
      FlushIff(board);
      var sv := SortDesc(vals);
      SortedAdjacentClose(sv);
      CloseValuesPermutation(sv, vals);
      CloseValuesPermutation(vals, sv);
      var straight := AdjacentClose(sv);
      var coordinated := flush || straight;
      Postflop(paired, flush, straight, coordinated, flush && straight,
               |SuitsOf(board)| >= 3, !paired && !coordinated)
  }

  /** Repeated values are two positions of the board holding one value. */
  lemma PairedIff(board: seq<Card>)
    ensures !NoDups(ValuesOf(board)) <==>
      exists i, j :: 0 <= i < j < |board| && board[i].value == board[j].value
  {
    var vals := ValuesOf(board);
    if !NoDups(vals) {
      var i, j :| 0 <= i < j < |vals| && vals[i] == vals[j];
      assert board[i].value == board[j].value;
    }
    if exists i, j :: 0 <= i < j < |board| && board[i].value == board[j].value {
      var i, j :| 0 <= i < j < |board| && board[i].value == board[j].value;
      assert vals[i] == vals[j];
    }
  }

  /** Testing the four colours one by one finds any colour shown three
      times. */
  lemma FlushIff(board: seq<Card>)
    ensures (SuitCount(board, D) >= 3 || SuitCount(board, H) >= 3
             || SuitCount(board, S) >= 3 || SuitCount(board, C) >= 3)
            <==> exists s :: SuitCount(board, s) >= 3
  {
    if exists s :: SuitCount(board, s) >= 3 {
      var s :| SuitCount(board, s) >= 3;
      assert s == D || s == H || s == S || s == C;
    }
  }

  // ---------------------------------------------------------------------
  // Lemmas about combos, labels and textures

  /** The value characters "2".."A" are all different. */
  lemma ValueCharInjective(a: Rank, b: Rank)
    ensures ValueChar(a) == ValueChar(b) ==> a == b
  {
  }

  /** A key holds the two cards, the one that sorts first first, and a pair
      of different cards gives the same key in either order. */
  lemma MakeComboSorted(c1: Card, c2: Card)
    ensures multiset{MakeCombo(c1, c2).first, MakeCombo(c1, c2).second} == multiset{c1, c2}
    ensures !CardBefore(MakeCombo(c1, c2).second, MakeCombo(c1, c2).first)
    ensures c1 != c2 ==> MakeCombo(c1, c2) == MakeCombo(c2, c1)
  {
    ValueCharInjective(c1.value, c2.value);
  }

  /** The label of an ace-ten offsuit depends on the colours: with the ace
      sorting first it is 'medium', with the ten first it is 'trash'. */
  lemma CategoryDependsOnSuits()
    ensures HandCategory(MakeCombo(Card(D, 10), Card(C, 14))) == Medium
    ensures HandCategory(MakeCombo(Card(D, 14), Card(C, 10))) == Trash
  {
    assert MakeCombo(Card(D, 10), Card(C, 14)) == Combo(Card(C, 14), Card(D, 10));
    assert MakeCombo(Card(D, 14), Card(C, 10)) == Combo(Card(C, 10), Card(D, 14));
  }

  /** In a sorted list the neighbour test finds two close values exactly
      when some two positions hold close values. */
  lemma SortedAdjacentClose(sv: seq<int>)
    requires SortedByDesc(sv, Ident)
    ensures AdjacentClose(sv) <==> CloseValues(sv)
  {
    if AdjacentClose(sv) {
      var i :| 0 <= i < |sv| - 1 && sv[i] - sv[i + 1] <= 2;
      SortedAt(sv, i, i + 1);
      assert 0 <= i < |sv| && 0 <= i + 1 < |sv| && i != i + 1 && -2 <= sv[i] - sv[i + 1] <= 2;
    }
    if CloseValues(sv) {
      var i, j :| 0 <= i < |sv| && 0 <= j < |sv| && i != j && -2 <= sv[i] - sv[j] <= 2;
      if j < i {
        i, j := j, i;
      }
      SortedAt(sv, i, i + 1);
      SortedAt(sv, i + 1, j);
      assert 0 <= i < |sv| - 1 && sv[i] - sv[i + 1] <= 2;
    }
  }

  /** An earlier entry of a descending list is at least a later one. */
  lemma SortedAt(sv: seq<int>, i: int, j: int)
    requires SortedByDesc(sv, Ident) && 0 <= i <= j < |sv|
    ensures sv[i] >= sv[j]
  {
    if i < j {
      assert Ident(sv[i]) >= Ident(sv[j]);
    }
  }

  /** Two positions holding `x` make its count at least 2. */
  lemma TwoPositionsCount(s: seq<int>, i: int, j: int)
    requires 0 <= i < j < |s| && s[i] == s[j]
    ensures multiset(s)[s[i]] >= 2
  {
    assert s == s[..j] + s[j..];
    assert s[i] in s[..j];
    assert s[j] == s[j..][0];
  }

  /** A count of at least 2 gives two positions holding `x`. */
  lemma {:induction false} CountTwoPositions(s: seq<int>, x: int) returns (i: int, j: int)
    requires multiset(s)[x] >= 2
    ensures 0 <= i < j < |s| && s[i] == x && s[j] == x
  {
    assert s == [s[0]] + s[1..];
    if s[0] == x {
      assert multiset(s[1..])[x] >= 1;
      var k :| 0 <= k < |s[1..]| && s[1..][k] == x;
      i, j := 0, k + 1;
    } else {
      var a, b := CountTwoPositions(s[1..], x);
      i, j := a + 1, b + 1;
    }
  }

  /** Having two close values depends only on the multiset of values. */
  lemma CloseValuesPermutation(a: seq<int>, b: seq<int>)
    requires multiset(a) == multiset(b)
    ensures CloseValues(a) ==> CloseValues(b)
  {
    if CloseValues(a) {
      var i, j :| 0 <= i < |a| && 0 <= j < |a| && i != j && -2 <= a[i] - a[j] <= 2;
      if a[i] == a[j] {
        if i < j { TwoPositionsCount(a, i, j); } else { TwoPositionsCount(a, j, i); }
        var k, l := CountTwoPositions(b, a[i]);
        assert 0 <= k < |b| && 0 <= l < |b| && k != l && -2 <= b[k] - b[l] <= 2;
      } else {
        assert a[i] in multiset(b) && a[j] in multiset(b);
        var k :| 0 <= k < |b| && b[k] == a[i];
        var l :| 0 <= l < |b| && b[l] == a[j];
        assert 0 <= k < |b| && 0 <= l < |b| && k != l && -2 <= b[k] - b[l] <= 2;
      }
    }
  }

  /** A paired board always counts as a straight draw (two equal values
      differ by 0), so it is coordinated and never dry. */
  lemma PairedBoardIsCoordinated(board: seq<Card>)
    requires IsPaired(BoardTexture(board))
    ensures BoardTexture(board).straightDraw && BoardTexture(board).coordinated
    ensures !IsDry(BoardTexture(board))
  {
    var vals := ValuesOf(board);
    var i, j :| 0 <= i < j < |board| && board[i].value == board[j].value;
    assert 0 <= i < |vals| && 0 <= j < |vals| && i != j && -2 <= vals[i] - vals[j] <= 2;
  }

  /** A dry board is one where every two cards are more than 2 values apart
      and no colour shows three times. */
  lemma DryBoard(board: seq<Card>)
    requires |board| >= 3
    ensures IsDry(BoardTexture(board)) <==>
      && (forall i, j :: 0 <= i < |board| && 0 <= j < |board| && i != j ==>
            !(-2 <= board[i].value - board[j].value <= 2))
      && (forall s :: SuitCount(board, s) <= 2)
  {
    if IsDry(BoardTexture(board)) {
      DrySpread(board);
    } else {
      var i, j := NotDryClose(board);
    }
  }

  /** A dry board has its values more than 2 apart and no colour three
      times. */
  lemma DrySpread(board: seq<Card>)
    requires |board| >= 3 && IsDry(BoardTexture(board))
    ensures forall i, j :: 0 <= i < |board| && 0 <= j < |board| && i != j ==>
      !(-2 <= board[i].value - board[j].value <= 2)
    ensures forall s :: SuitCount(board, s) <= 2
  {
    var vals := ValuesOf(board);
    forall i, j | 0 <= i < |board| && 0 <= j < |board| && i != j
      ensures !(-2 <= board[i].value - board[j].value <= 2)
    {
      assert vals[i] == board[i].value && vals[j] == board[j].value;
    }
  }

  /** A board that is not dry shows a colour three times, or has two cards
      (at positions `i` and `j`) at most 2 values apart. */
  lemma NotDryClose(board: seq<Card>) returns (i: int, j: int)
    requires |board| >= 3 && !IsDry(BoardTexture(board))
    ensures (exists s :: SuitCount(board, s) >= 3) ||
      (0 <= i < |board| && 0 <= j < |board| && i != j && -2 <= board[i].value - board[j].value <= 2)
  {
    var t := BoardTexture(board);
    var vals := ValuesOf(board);
    if t.paired {
      PairedBoardIsCoordinated(board);
    }
    i, j := 0, 0;
    if t.straightDraw {
      i, j :| 0 <= i < |vals| && 0 <= j < |vals| && i != j && -2 <= vals[i] - vals[j] <= 2;
      assert vals[i] == board[i].value && vals[j] == board[j].value;
    }
  }

  /** The colour counts depend only on the multiset of cards. */
  lemma SuitCountsPermutation(a: seq<Card>, b: seq<Card>)
    requires multiset(a) == multiset(b)
    ensures forall s :: SuitCount(a, s) == SuitCount(b, s)
    ensures SuitsOf(a) == SuitsOf(b)
  {
    forall s ensures SuitCount(a, s) == SuitCount(b, s) {
      SuitCountPermutation(a, b, s);
      assert |multiset(SuitValues(a, s))| == |multiset(SuitValues(b, s))|;
    }
    forall c ensures c in a <==> c in b {
      assert c in a <==> c in multiset(a);
      assert c in b <==> c in multiset(b);
    }
  }

  /** Whether a value repeats, and whether two values are close, depend
      only on the multiset of cards. */
  lemma ValueTestsPermutation(a: seq<Card>, b: seq<Card>)
    requires multiset(a) == multiset(b)
    ensures NoDups(ValuesOf(a)) <==> NoDups(ValuesOf(b))
    ensures CloseValues(ValuesOf(a)) <==> CloseValues(ValuesOf(b))
  {
    var va := ValuesOf(a);
    var vb := ValuesOf(b);
    assert va == MapSeq(a, ValueOf) && vb == MapSeq(b, ValueOf);
    MapSeqPermutation(a, b, ValueOf);
    if NoDups(va) { NoDupsPermutation(va, vb); }
    if NoDups(vb) { NoDupsPermutation(vb, va); }
    CloseValuesPermutation(va, vb);
    CloseValuesPermutation(vb, va);
  }

  /** The texture depends only on which cards are on the board, not on
      their order. */
  lemma TexturePermutation(a: seq<Card>, b: seq<Card>)
    requires multiset(a) == multiset(b)
    ensures BoardTexture(a) == BoardTexture(b)
  {
    assert |a| == |multiset(a)| == |multiset(b)| == |b|;
    SuitCountsPermutation(a, b);
    ValueTestsPermutation(a, b);
    var ta, tb := BoardTexture(a), BoardTexture(b);
    if |a| >= 3 {
      assert ta.paired == tb.paired;
      assert ta.flushDraw == tb.flushDraw;
      assert ta.straightDraw == tb.straightDraw;
      assert ta.rainbow == tb.rainbow;
    }
  }

  // ---------------------------------------------------------------------
  // The weighted range

  /** One `combo: weight` entry of `opponent_range`. */
  datatype Weighted = Weighted(combo: Combo, weight: real)

  /** The keys of a range, in order. */
  function Combos(range: seq<Weighted>): (r: seq<Combo>)
    ensures |r| == |range|
    ensures forall i :: 0 <= i < |r| ==> r[i] == range[i].combo
  {
    if range == [] then [] else [range[0].combo] + Combos(range[1..])
  }

  /** The weights of a range, in order: `new_range.values()`. */
  function Weights(range: seq<Weighted>): (r: seq<real>)
    ensures |r| == |range|
    ensures forall i :: 0 <= i < |r| ==> r[i] == range[i].weight
  {
    if range == [] then [] else [range[0].weight] + Weights(range[1..])
  }

  /** The combos of `c` with each later card: one pass of the inner loop
      of `init_full_range`. */
  function Row(c: Card, rest: seq<Card>): (r: seq<Combo>)
    ensures |r| == |rest|
    ensures forall k :: 0 <= k < |rest| ==> r[k] == MakeCombo(c, rest[k])
  {
    if rest == [] then [] else [MakeCombo(c, rest[0])] + Row(c, rest[1..])
  }

  /** Every combo the nested loops of `init_full_range` meet, in order. */
  function AllPairs(cards: seq<Card>): seq<Combo> {
    if cards == [] then [] else Row(cards[0], cards[1..]) + AllPairs(cards[1..])
  }

  /** The combos met by the first `i` passes of the outer loop. */
  function Rows(cards: seq<Card>, i: nat): seq<Combo>
    requires i <= |cards|
  {
    if i == 0 then [] else Rows(cards, i - 1) + Row(cards[i - 1], cards[i..])
  }

  /** Each key weighted `w`. */
  function WeighAll(keys: seq<Combo>, w: real): (r: seq<Weighted>)
    ensures Combos(r) == keys
    ensures forall i :: 0 <= i < |r| ==> r[i].weight == w
  {
    if keys == [] then [] else [Weighted(keys[0], w)] + WeighAll(keys[1..], w)
  }

  /** `{combo: 1.0/total for combo in keys}`, or the empty dict. */
  function Uniform(keys: seq<Combo>): seq<Weighted> {
    if keys == [] then [] else WeighAll(keys, 1.0 / |keys| as real)
  }

  /** The range `init_full_range` returns for the unseen cards `oppHand`. */
  function FullRange(oppHand: seq<Card>): seq<Weighted> {
    Uniform(Dedup(AllPairs(oppHand)))
  }

  /** `init_full_range()`: one key per combo met by the nested loops (a
      repeated key keeps its first place), then every weight set to one
      over the number of keys. */
  method InitFullRange(oppHand: seq<Card>) returns (range: seq<Weighted>)
    ensures range == FullRange(oppHand)
  {
    var keys: seq<Combo> := [];
    ghost var met: seq<Combo> := [];
    var i := 0;
    while i < |oppHand|
      invariant 0 <= i <= |oppHand|
      invariant met == Rows(oppHand, i)
      invariant keys == Dedup(met)
    {
      keys := AddRow(keys, met, oppHand[i], oppHand[i + 1..]);
      met := met + Row(oppHand[i], oppHand[i + 1..]);
      i := i + 1;
    }
    assert AllPairs(oppHand) == met by {
      AllPairsSplit(oppHand, |oppHand|);
      assert oppHand[|oppHand|..] == [];
    }
    range := Uniform(keys);
  }

  /** The inner loop of `init_full_range`: `full_range[combo] = 1.0` for
      the combo of `c` with each card of `rest`, which adds the combo as a
      new key unless it is one already. */
  method AddRow(keys: seq<Combo>, ghost met: seq<Combo>, c: Card, rest: seq<Card>) returns (r: seq<Combo>)
    requires keys == Dedup(met)
    ensures r == Dedup(met + Row(c, rest))
  {
    ghost var row := Row(c, rest);
    r := keys;
    var j := 0;
    assert met + row[..0] == met;
    while j < |rest|
      invariant 0 <= j <= |rest|
      invariant r == Dedup(met + row[..j])
    {
      var combo := MakeCombo(c, rest[j]);
      DedupSnoc(met + row[..j], combo);
      if combo !in r {
        r := r + [combo];
      }
      PrefixSnoc(row, j);
      assert met + row[..j + 1] == (met + row[..j]) + [combo];
      j := j + 1;
    }
    assert row[..j] == row;
  }

  /** Clamps a weight to [0.01, 3.0]: `max(0.01, min(w, 3.0))`. */
  function Clamp(w: real): (r: real)
    ensures 0.01 <= r <= 3.0
    ensures 0.01 <= w <= 3.0 ==> r == w
    ensures w < 0.01 ==> r == 0.01
    ensures w > 3.0 ==> r == 3.0
  {
    MaxReal(0.01, MinReal(w, 3.0))
  }

  /** The factor the action table of `apply_action` gives a combo of the
      given strength; the sizing is the bet as a fraction of the pot. */
  function ActionFactor(action: Move, sizing: real, s: Strength, t: Texture): (r: real)
    ensures r > 0.0
  {
    match action
    case Fold => if s == Premium || s == Strong || s == Medium then 0.05 else 0.95
    case Check => if s == Premium then 0.2 else if s == Strong then 0.6 else 1.2
    case Call =>
      if sizing < 0.4 then
        (if s == Premium || s == Strong then 1.3 else if s == Medium then 1.5 else 0.8)
      else if sizing < 0.75 then
        (if s == Premium || s == Strong then 1.4 else if s == Medium then 1.2 else 0.4)
      else
        (if s == Premium then 1.6 else if s == Strong then 1.3 else if s == Medium then 0.7 else 0.2)
    case _ =>
      if sizing < 0.4 then
        (if s == Premium || s == Strong then 1.3 else if s == Medium then 1.4 else 1.1)
      else if sizing < 0.75 then
        (if s == Premium then 1.6 else if s == Strong then 1.4
         else if s == Medium then (if IsDrawHeavy(t) then 1.2 * 1.3 else 1.2)
         else 0.6)
      else if sizing < 1.25 then
        (if s == Premium then 2.0 else if s == Strong then 1.5 else if s == Medium then 0.5 else 0.8)
      else
        (if s == Premium then 2.5 else if s == Strong then 0.8 else if s == Medium then 0.3 else 1.2)
  }

  /** The new weight of one combo: the action factor, then the three texture
      adjustments, then the clamp. */
  function Reweigh(w: real, action: Move, sizing: real, s: Strength, t: Texture): (r: real)
    ensures 0.01 <= r <= 3.0
  {
    var w1 := w * ActionFactor(action, sizing, s, t);
    var w2 := if IsPaired(t) && Aggressive(action) && (s == Weak || s == Trash) then w1 * 0.6 else w1;
    var w3 := if IsDrawHeavy(t) && Aggressive(action) && s == Medium then w2 * 1.3 else w2;
    var w4 := if IsDry(t) && action == Check && (s == Premium || s == Strong) then w3 * 1.2 else w3;
    Clamp(w4)
  }

  /** `new_range`: every combo reweighed, in the same order. */
  function Reweighted(range: seq<Weighted>, action: Move, sizing: real, t: Texture): (r: seq<Weighted>)
    ensures |r| == |range|
    ensures forall i :: 0 <= i < |r| ==>
      r[i] == Weighted(range[i].combo, Reweigh(range[i].weight, action, sizing, HandCategory(range[i].combo), t))
  {
    if range == [] then []
    else
      [Weighted(range[0].combo, Reweigh(range[0].weight, action, sizing, HandCategory(range[0].combo), t))]
      + Reweighted(range[1..], action, sizing, t)
  }

  /** `{combo: w/total for combo, w in range.items()}`. */
  function Normalized(range: seq<Weighted>, total: real): (r: seq<Weighted>)
    requires total != 0.0
    ensures |r| == |range|
    ensures forall i :: 0 <= i < |r| ==> r[i] == Weighted(range[i].combo, range[i].weight / total)
  {
    if range == [] then [] else [Weighted(range[0].combo, range[0].weight / total)] + Normalized(range[1..], total)
  }

  /** The range `apply_action` leaves: unchanged when empty, otherwise the
      reweighed range divided by its total (or, were the total not
      positive, every combo weighted one over their number). */
  function ApplyActionRange(range: seq<Weighted>, action: Move, sizing: real, board: seq<Card>): seq<Weighted> {
    if range == [] then range
    else
      var nr := Reweighted(range, action, sizing, BoardTexture(board));
      var total := SumReal(Weights(nr));
      if total > 0.0 then Normalized(nr, total)
      else Uniform(Combos(nr))
  }

  /** A combo whose weight is at least the threshold 0.001 holds `c`. */
  predicate InKeptCombo(range: seq<Weighted>, c: Card) {
    exists i :: 0 <= i < |range| && range[i].weight >= 0.001
      && (range[i].combo.first == c || range[i].combo.second == c)
  }

  function Kept(range: seq<Weighted>): Card -> bool {
    (c: Card) => InKeptCombo(range, c)
  }

  /** `[card for card in opp_hand if card in new_opp_hand_set]`. */
  function NarrowOppHand(oppHand: seq<Card>, range: seq<Weighted>): (r: seq<Card>)
    ensures IsSubsequence(r, oppHand)
    ensures forall c :: c in r <==> c in oppHand && InKeptCombo(range, c)
  {
    FilterSubsequence(oppHand, Kept(range));
    Filter(oppHand, Kept(range))
  }

  // ---------------------------------------------------------------------
  // Lemmas about ranges

  lemma DedupSnoc<T(!new)>(s: seq<T>, x: T)
    ensures Dedup(s + [x]) == if x in Dedup(s) then Dedup(s) else Dedup(s) + [x]
  {
    assert (s + [x])[..|s + [x]| - 1] == s;
  }

  /** The combos of the whole loop are those of the first `i` passes
      followed by those of the rest. */
  lemma {:induction false} AllPairsSplit(cards: seq<Card>, i: nat)
    requires i <= |cards|
    ensures AllPairs(cards) == Rows(cards, i) + AllPairs(cards[i..])
  {
    if i > 0 {
      AllPairsSplit(cards, i - 1);
      var t := cards[i - 1..];
      assert t[0] == cards[i - 1] && t[1..] == cards[i..];
      assert AllPairs(t) == Row(cards[i - 1], cards[i..]) + AllPairs(cards[i..]);
    }
  }

  /** The loops meet exactly the combos of two cards at different
      positions of `cards`. */
  lemma AllPairsMembers(cards: seq<Card>, x: Combo)
    ensures x in AllPairs(cards) <==>
      exists i, j :: 0 <= i < j < |cards| && x == MakeCombo(cards[i], cards[j])
  {
    if x in AllPairs(cards) {
      var i, j := AllPairsSound(cards, x);
    }
    if exists i, j :: 0 <= i < j < |cards| && x == MakeCombo(cards[i], cards[j]) {
      var i, j :| 0 <= i < j < |cards| && x == MakeCombo(cards[i], cards[j]);
      AllPairsComplete(cards, i, j);
    }
  }

  /** Every combo the loops meet pairs two cards at different positions. */
  lemma {:induction false} AllPairsSound(cards: seq<Card>, x: Combo) returns (i: int, j: int)
    requires x in AllPairs(cards)
    ensures 0 <= i < j < |cards| && x == MakeCombo(cards[i], cards[j])
  {
    var t := cards[1..];
    if x in Row(cards[0], t) {
      var k :| 0 <= k < |t| && Row(cards[0], t)[k] == x;
      i, j := 0, k + 1;
    } else {
      var a, b := AllPairsSound(t, x);
      i, j := a + 1, b + 1;
    }
  }

  /** The loops meet the combo of every two cards at different positions. */
  lemma {:induction false} AllPairsComplete(cards: seq<Card>, i: int, j: int)
    requires 0 <= i < j < |cards|
    ensures MakeCombo(cards[i], cards[j]) in AllPairs(cards)
  {
    var t := cards[1..];
    var x := MakeCombo(cards[i], cards[j]);
    var row := Row(cards[0], t);
    assert AllPairs(cards) == row + AllPairs(t);
    if i == 0 {
      assert x in row by {
        assert row[j - 1] == x;
      }
    } else {
      assert x in AllPairs(t) by {
        assert t[i - 1] == cards[i] && t[j - 1] == cards[j];
        AllPairsComplete(t, i - 1, j - 1);
      }
    }
  }

  /** Summing `n` copies of `w`. */
  lemma SumWeighAll(keys: seq<Combo>, w: real)
    ensures SumReal(Weights(WeighAll(keys, w))) == |keys| as real * w
  {
    SumConstant(Weights(WeighAll(keys, w)), w);
  }

  /** A list of `n` entries all equal to `w` sums to n·w. */
  lemma {:induction false} SumConstant(s: seq<real>, w: real)
    requires forall i :: 0 <= i < |s| ==> s[i] == w
    ensures SumReal(s) == |s| as real * w
  {
    if s != [] {
      SumConstant(s[1..], w);
      assert SumReal(s) == w + SumReal(s[1..]);
      assert w + (|s| - 1) as real * w == |s| as real * w;
    }
  }

  /** Uniform weights: one over the number of keys each, summing to 1. */
  lemma UniformWeights(keys: seq<Combo>)
    ensures Combos(Uniform(keys)) == keys
    ensures forall i :: 0 <= i < |keys| ==> Uniform(keys)[i].weight == 1.0 / |keys| as real
    ensures keys != [] ==> SumReal(Weights(Uniform(keys))) == 1.0
  {
    if keys != [] {
      var n := |keys| as real;
      var w := 1.0 / n;
      DivTimes(1.0, n);
      SumWeighAll(keys, w);
      assert SumReal(Weights(Uniform(keys))) == n * w;
    }
  }

  /** `init_full_range` gives one key for each unordered pair of unseen
      cards, no key twice, equal weights, and weights that sum to 1 as soon
      as there are two cards to pair. */
  lemma FullRangeProperties(oppHand: seq<Card>)
    ensures NoDups(Combos(FullRange(oppHand)))
    ensures forall x :: x in Combos(FullRange(oppHand)) <==>
      exists i, j :: 0 <= i < j < |oppHand| && x == MakeCombo(oppHand[i], oppHand[j])
    ensures forall i :: 0 <= i < |FullRange(oppHand)| ==>
      FullRange(oppHand)[i].weight == 1.0 / |FullRange(oppHand)| as real
    ensures |oppHand| >= 2 ==> SumReal(Weights(FullRange(oppHand))) == 1.0
  {
    var keys := Dedup(AllPairs(oppHand));
    UniformWeights(keys);
    forall x ensures x in keys <==>
      exists i, j :: 0 <= i < j < |oppHand| && x == MakeCombo(oppHand[i], oppHand[j])
    {
      AllPairsMembers(oppHand, x);
    }
    if |oppHand| >= 2 {
      assert MakeCombo(oppHand[0], oppHand[1]) in keys;
    }
  }

  /** Dividing by `t` and multiplying back, and the sign of a quotient. */
  lemma DivTimes(a: real, t: real)
    requires t != 0.0
    ensures (a / t) * t == a
    ensures a > 0.0 && t > 0.0 ==> a / t > 0.0
  {
  }


  /** A sum of weights each at least `lo` is at least `lo` times their
      number. */
  lemma {:induction false} SumAtLeast(xs: seq<real>, lo: real)
    requires forall i :: 0 <= i < |xs| ==> xs[i] >= lo
    ensures SumReal(xs) >= lo * |xs| as real
  {
    if xs != [] {
      SumAtLeast(xs[1..], lo);
    }
  }

  /** Dividing every weight by `t` divides their sum by `t`. */
  lemma {:induction false} SumDivided(xs: seq<real>, ys: seq<real>, t: real)
    requires t != 0.0 && |xs| == |ys|
    requires forall i :: 0 <= i < |xs| ==> xs[i] == ys[i] / t
    ensures SumReal(xs) == SumReal(ys) / t
  {
    if xs != [] {
      SumDivided(xs[1..], ys[1..], t);
    }
  }

  /** Dividing every weight by their positive total makes them sum to 1. */
  lemma NormalizedSumsToOne(nr: seq<Weighted>)
    requires SumReal(Weights(nr)) > 0.0
    ensures SumReal(Weights(Normalized(nr, SumReal(Weights(nr))))) == 1.0
  {
    var t := SumReal(Weights(nr));
    var r := Normalized(nr, t);
    SumDivided(Weights(r), Weights(nr), t);
    assert t / t == 1.0;

  }

  /** The reweighed total is positive for a non-empty range, so the
      fallback that spreads the weight evenly is never taken. */
  lemma ReweightedTotalPositive(range: seq<Weighted>, action: Move, sizing: real, t: Texture)
    requires range != []
    ensures SumReal(Weights(Reweighted(range, action, sizing, t))) >= 0.01 * |range| as real > 0.0
  {
    SumAtLeast(Weights(Reweighted(range, action, sizing, t)), 0.01);
  }

  /** `apply_action` leaves an empty range alone, keeps the combos and
      their order, and leaves weights that are positive, sum to 1 and are
      the clamped new weights divided by their total. */
  lemma ApplyActionProperties(range: seq<Weighted>, action: Move, sizing: real, board: seq<Card>)
    ensures range == [] ==> ApplyActionRange(range, action, sizing, board) == []
    ensures Combos(ApplyActionRange(range, action, sizing, board)) == Combos(range)
    ensures range != [] ==> SumReal(Weights(ApplyActionRange(range, action, sizing, board))) == 1.0
    ensures range != [] ==>
      var nr := Reweighted(range, action, sizing, BoardTexture(board));
      var r := ApplyActionRange(range, action, sizing, board);
      && SumReal(Weights(nr)) > 0.0
      && forall i :: 0 <= i < |r| ==>
        && r[i].weight == nr[i].weight / SumReal(Weights(nr))
        && 0.01 <= nr[i].weight <= 3.0
        && r[i].weight > 0.0
  {
    if range != [] {
      var nr := Reweighted(range, action, sizing, BoardTexture(board));
      var total := SumReal(Weights(nr));
      ReweightedTotalPositive(range, action, sizing, BoardTexture(board));
      var r := Normalized(nr, total);
      assert r == ApplyActionRange(range, action, sizing, board);
      NormalizedSumsToOne(nr);
      assert Combos(r) == Combos(range);
      forall i | 0 <= i < |r| ensures r[i].weight > 0.0 {
        DivTimes(nr[i].weight, total);
      }
    }
  }
}
