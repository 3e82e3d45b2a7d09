/** The canonical hand evaluator `hand_rank(hand, board)` of utils.py (the
    method `hand_rank` of Game_fraude.py has the same logic, with its value
    list in `self.values`). It joins hand and board,
    answers category 1 together with the raw cards when fewer than five
    cards are known, and otherwise tries the categories from straight flush
    (9) down to high card (1), returning the first that matches. Only the
    category is modelled; the description strings are not. */
module Evaluator {
  import opened Lists
  import opened Cards

  /** `(1, cards)` for fewer than five cards, `(category, description)`
      otherwise. */
  datatype Ranking = TooFew(cards: seq<Card>) | Made(category: int)

  /** Element `[0]` of the result, the only part callers compare. */
  function Category(r: Ranking): int {
    if r.TooFew? then 1 else r.category
  }

  // ---------------------------------------------------------------------
  // The coded tests, as the source writes them

  /** Entries i..i+4 of a descending list span exactly four and hold five
      different values (`len(set(window)) == 5` for a five-entry window). */
  predicate WindowAt(sv: seq<int>, i: int)
    requires 0 <= i && i + 4 < |sv|
  {
    sv[i] - sv[i + 4] == 4 && NoDups(sv[i..i + 5])
  }

  /** `for i in range(len(sv) - 4): if <window at i>: return ...` */
  predicate HasWindow(sv: seq<int>) {
    exists i :: 0 <= i && i + 4 < |sv| && WindowAt(sv, i)
  }

  /** `set([14, 5, 4, 3, 2]).issubset(set(vals))` */
  predicate HasWheel(vals: seq<int>) {
    14 in vals && 5 in vals && 4 in vals && 3 in vals && 2 in vals
  }

  /** `Counter(values)`: how often each value occurs among the cards. */
  function ValueCounts(cards: seq<Card>): multiset<int> {
    multiset(ValuesOf(cards))
  }

  /** `n in value_counts.values()` */
  predicate HasCount(cards: seq<Card>, n: nat) {
    exists v :: v in ValuesOf(cards) && ValueCounts(cards)[v] == n
  }

  /** The keys of `value_counts` whose count is 2. */
  function PairedValues(cards: seq<Card>): set<int> {
    PairedIn(ValuesOf(cards))
  }

  /** The values occurring exactly twice in `vs`. */
  function PairedIn(vs: seq<int>): set<int> {
    set v | v in vs && multiset(vs)[v] == 2
  }

  /** `max(suit_counts.values()) >= 5` */
  predicate HasFlush(cards: seq<Card>) {
    exists s :: s in Colors && SuitCount(cards, s) >= 5
  }

  /** The straight-flush search over the colours with at least five cards. */
  predicate StraightFlushTest(cards: seq<Card>) {
    exists s :: s in Colors && SuitCount(cards, s) >= 5 &&
      (HasWindow(SortDesc(SuitValues(cards, s))) || HasWheel(SuitValues(cards, s)))
  }

  /** `unique_values = sorted(set(num_values), reverse=True)` */
  function UniqueValues(cards: seq<Card>): seq<int> {
    SortDesc(Dedup(ValuesOf(cards)))
  }

  predicate StraightTest(cards: seq<Card>) {
    HasWindow(UniqueValues(cards)) || HasWheel(ValuesOf(cards))
  }

  /** The test guarding category `k`, in the order the source writes them. */
  predicate Test(k: int, cards: seq<Card>) {
    if k == 9 then StraightFlushTest(cards)
    else if k == 8 then HasCount(cards, 4)
    else if k == 7 then HasCount(cards, 3) && HasCount(cards, 2)
    else if k == 6 then HasFlush(cards)
    else if k == 5 then StraightTest(cards)
    else if k == 4 then HasCount(cards, 3)
    else if k == 3 then |PairedValues(cards)| >= 2
    else if k == 2 then HasCount(cards, 2)
    else k == 1
  }

  /** The category of five or more cards: the highest one whose test
      holds, since the tests run from 9 down and return on the first hit. */
  function CategoryOf(cards: seq<Card>): (r: int)
    ensures 1 <= r <= 9
    ensures Test(r, cards)
    ensures forall j :: r < j <= 9 ==> !Test(j, cards)
  {
    if StraightFlushTest(cards) then 9
    else if HasCount(cards, 4) then 8
    else if HasCount(cards, 3) && HasCount(cards, 2) then 7
    else if HasFlush(cards) then 6
    else if StraightTest(cards) then 5
    else if HasCount(cards, 3) then 4
    else if |PairedValues(cards)| >= 2 then 3
    else if HasCount(cards, 2) then 2
    else 1
  }

  /** `hand_rank(hand, board)` */
  function HandRank(hand: seq<Card>, board: seq<Card>): (r: Ranking)
    ensures |hand + board| < 5 ==> r == TooFew(hand + board)
    ensures |hand + board| >= 5 ==> r == Made(CategoryOf(hand + board))
    ensures 1 <= Category(r) <= 9
  {
    var cards := hand + board;
    if |cards| < 5 then TooFew(cards) else Made(CategoryOf(cards))
  }

  // ---------------------------------------------------------------------
  // Reference definitions, stated on the values present

  /** h, h-1, h-2, h-3 and h-4 all occur in `vals`. */
  predicate FiveDown(vals: seq<int>, h: int) {
    h in vals && h - 1 in vals && h - 2 in vals && h - 3 in vals && h - 4 in vals
  }

  /** Five consecutive values, or the ace-to-five wheel. */
  ghost predicate HasStraightValues(vals: seq<int>) {
    (exists h :: FiveDown(vals, h)) || HasWheel(vals)
  }

  predicate StrictlyDesc(s: seq<int>) {
    forall i, j :: 0 <= i < j < |s| ==> s[i] > s[j]
  }

  // ---------------------------------------------------------------------
  // Lemmas: the window search finds exactly the five-value runs

  lemma {:induction false} StrictGap(sv: seq<int>, j: int, k: int)
    requires StrictlyDesc(sv) && 0 <= j <= k < |sv|
    ensures sv[j] - sv[k] >= k - j
    decreases k - j
  {
    if j < k {
      StrictGap(sv, j + 1, k);
    }
  }

  lemma WindowIsRun(sv: seq<int>, i: int)
    requires StrictlyDesc(sv) && 0 <= i && i + 4 < |sv| && WindowAt(sv, i)
    ensures FiveDown(sv, sv[i])
  {
    StrictGap(sv, i, i + 1);
    StrictGap(sv, i + 1, i + 4);
    StrictGap(sv, i, i + 2);
    StrictGap(sv, i + 2, i + 4);
    StrictGap(sv, i, i + 3);
    StrictGap(sv, i + 3, i + 4);
  }

  /** A later entry of a strictly descending list is never larger. */
  lemma DescAtLeast(sv: seq<int>, i: int, j: int)
    requires StrictlyDesc(sv) && 0 <= i <= j < |sv|
    ensures sv[i] >= sv[j]
  {
  }

  /** In a strictly descending list holding h at p and h-1..h-m, the m
      entries after p are exactly h-1..h-m. */
  lemma {:induction false} RunFollows(sv: seq<int>, p: int, h: int, m: int)
    requires StrictlyDesc(sv) && 0 <= p < |sv| && sv[p] == h && 0 <= m <= 4
    requires FiveDown(sv, h)
    ensures p + m < |sv| && sv[p + m] == h - m
  {
    if m > 0 {
      RunFollows(sv, p, h, m - 1);
      assert h - m in sv;
      var q :| 0 <= q < |sv| && sv[q] == h - m;
      assert q > p + m - 1;
      DescAtLeast(sv, p + m, q);
      assert sv[p + m - 1] > sv[p + m];
    }
  }

  /** For a strictly descending list, the window search succeeds exactly
      when five consecutive values occur. */
  lemma WindowIffRun(sv: seq<int>)
    requires StrictlyDesc(sv)
    ensures HasWindow(sv) <==> exists h :: FiveDown(sv, h)
  {
    if HasWindow(sv) {
      var i :| 0 <= i && i + 4 < |sv| && WindowAt(sv, i);
      WindowIsRun(sv, i);
    }
    if exists h :: FiveDown(sv, h) {
      var h :| FiveDown(sv, h);
      var p :| 0 <= p < |sv| && sv[p] == h;
      RunFollows(sv, p, h, 4);
      assert WindowAt(sv, p) by {
        var w := sv[p..p + 5];
        forall a, b | 0 <= a < b < 5 ensures w[a] != w[b] {
          assert w[a] == sv[p + a] && w[b] == sv[p + b];
        }
      }
    }
  }

  lemma SortedNoDupsStrict(s: seq<int>)
    requires SortedByDesc(s, Ident) && NoDups(s)
    ensures StrictlyDesc(s)
  {
    forall i, j | 0 <= i < j < |s| ensures s[i] > s[j] {
      assert Ident(s[i]) >= Ident(s[j]);
    }
  }

  /** The same values present give the same runs. */
  lemma SameMembers(a: seq<int>, b: seq<int>)
    requires forall x :: x in a <==> x in b
    ensures HasStraightValues(a) <==> HasStraightValues(b)
    ensures HasWheel(a) <==> HasWheel(b)
    ensures (exists h :: FiveDown(a, h)) <==> (exists h :: FiveDown(b, h))
  {
    if exists h :: FiveDown(a, h) {
      var h :| FiveDown(a, h);
      assert FiveDown(b, h);
    }
    if exists h :: FiveDown(b, h) {
      var h :| FiveDown(b, h);
      assert FiveDown(a, h);
    }
  }

  /** Sorting keeps the values present. */
  lemma SortedMembers(s: seq<int>)
    ensures forall x :: x in SortDesc(s) <==> x in s
  {
    var r := SortDesc(s);
    forall x ensures x in r <==> x in s {
      assert x in r <==> x in multiset(r);
      assert x in s <==> x in multiset(s);
    }
  }

  /** A list without repeats has a strictly descending sorted form with the
      same values, and the window search on it detects exactly the runs. */
  lemma SortedWindowIffStraight(s: seq<int>)
    requires NoDups(s)
    ensures HasWindow(SortDesc(s)) || HasWheel(s) <==> HasStraightValues(s)
  {
    var r := SortDesc(s);
    NoDupsPermutation(s, r);
    SortedNoDupsStrict(r);
    WindowIffRun(r);
    SortedMembers(s);
    SameMembers(r, s);
  }

  /** Distinct cards of one colour have distinct values. */
  lemma {:induction false} SuitValuesNoDups(cards: seq<Card>, s: Suit)
    requires NoDups(cards)
    ensures NoDups(SuitValues(cards, s))
  {
    if cards != [] {
      var t := cards[1..];
      assert NoDups(t) by {
        forall i, j | 0 <= i < j < |t| ensures t[i] != t[j] {
          assert t[i] == cards[i + 1] && t[j] == cards[j + 1];
        }
      }
      SuitValuesNoDups(t, s);
      if cards[0].suit == s {
        var v := cards[0].value as int;
        assert forall k :: 0 <= k < |t| ==> t[k] == cards[k + 1];
        assert cards[0] !in t;
        assert v !in SuitValues(t, s);
        var r := [v] + SuitValues(t, s);
        forall i, j | 0 <= i < j < |r| ensures r[i] != r[j] {
          if i == 0 {
            assert r[j] in SuitValues(t, s);
          }
        }
      }
    }
  }

  // ---------------------------------------------------------------------
  // The properties of `hand_rank`

  /** Category 9 holds exactly when some colour with at least five cards
      holds five consecutive values or the wheel (for distinct cards, as a
      dealt hand and board always are). */
  lemma StraightFlushIff(cards: seq<Card>)
    requires NoDups(cards)
    ensures CategoryOf(cards) == 9 <==>
      exists s :: s in Colors && SuitCount(cards, s) >= 5 && HasStraightValues(SuitValues(cards, s))
  {
    forall s | s in Colors
      ensures HasWindow(SortDesc(SuitValues(cards, s))) || HasWheel(SuitValues(cards, s))
          <==> HasStraightValues(SuitValues(cards, s))
    {
      SuitValuesNoDups(cards, s);
      SortedWindowIffStraight(SuitValues(cards, s));
    }
  }

  /** The straight test holds exactly when five consecutive values or the
      wheel occur among the cards, repeated values or not. */
  lemma StraightTestIff(cards: seq<Card>)
    ensures StraightTest(cards) <==> HasStraightValues(ValuesOf(cards))
  {
    var d := Dedup(ValuesOf(cards));
    SortedWindowIffStraight(d);
    SameMembers(d, ValuesOf(cards));
  }

  /** A straight, the wheel A-2-3-4-5 included, is category 5 or better. */
  lemma StraightAtLeastFive(cards: seq<Card>)
    requires HasStraightValues(ValuesOf(cards))
    ensures CategoryOf(cards) >= 5
  {
    StraightTestIff(cards);
    assert Test(5, cards);
  }

  /** Category 5 is only ever given to a straight. */
  lemma FiveIsStraight(cards: seq<Card>)
    requires CategoryOf(cards) == 5
    ensures HasStraightValues(ValuesOf(cards))
  {
    StraightTestIff(cards);
  }

  /** Full house needs one value exactly three times and another exactly
      twice. */
  lemma FullHouseNeedsThreeAndTwo(cards: seq<Card>)
    requires CategoryOf(cards) == 7
    ensures exists v, w :: v != w && ValueCounts(cards)[v] == 3 && ValueCounts(cards)[w] == 2
  {
    var v :| v in ValuesOf(cards) && ValueCounts(cards)[v] == 3;
    var w :| w in ValuesOf(cards) && ValueCounts(cards)[w] == 2;
    assert v != w;
  }

  /** Two three-of-a-kinds without any pair are not a full house: the
      category falls through to straight flush, flush, straight or three of
      a kind. */
  lemma TwoTripsNoPair(cards: seq<Card>, v: int, w: int)
    requires v != w && ValueCounts(cards)[v] == 3 && ValueCounts(cards)[w] == 3
    requires forall x :: ValueCounts(cards)[x] != 2
    requires forall x :: ValueCounts(cards)[x] != 4
    ensures CategoryOf(cards) in {9, 6, 5, 4}
  {
    assert v in ValuesOf(cards) by {
      assert v in ValueCounts(cards);
    }
    assert HasCount(cards, 3);
    assert !HasCount(cards, 2);
    assert !HasCount(cards, 4);
  }

  lemma TwoMembers(s: set<int>)
    requires |s| >= 2
    ensures exists a, b :: a in s && b in s && a != b
  {
    var a := Pick(s);
    var t := s - {a};
    assert |t| == |s| - 1;
    var b := Pick(t);
  }

  lemma TwoMembersCardinality(s: set<int>, a: int, b: int)
    requires a in s && b in s && a != b
    ensures |s| >= 2
  {
    assert {a, b} <= s;
    assert |{a, b}| == 2;
    SubsetCardinality({a, b}, s);
  }

  lemma SubsetCardinality(a: set<int>, b: set<int>)
    requires a <= b
    ensures |a| <= |b|
  {
    assert b == a + (b - a);
  }

  /** Two pair holds exactly when two different values each occur exactly
      twice. */
  lemma TwoPairIff(cards: seq<Card>)
    ensures Test(3, cards) <==>
      exists v, w :: v != w && ValueCounts(cards)[v] == 2 && ValueCounts(cards)[w] == 2
  {
    assert Test(3, cards) <==> |PairedIn(ValuesOf(cards))| >= 2;
    assert ValueCounts(cards) == multiset(ValuesOf(cards));
    TwoPairedIff(ValuesOf(cards));
  }

  /** Two values occur exactly twice each exactly when there are at least
      two such values. */
  lemma TwoPairedIff(vs: seq<int>)
    ensures |PairedIn(vs)| >= 2 <==>
      exists v, w :: v != w && multiset(vs)[v] == 2 && multiset(vs)[w] == 2
  {
    var p := PairedIn(vs);
    if |p| >= 2 {
      TwoMembers(p);
      var v, w :| v in p && w in p && v != w;
    }
    if exists v, w :: v != w && multiset(vs)[v] == 2 && multiset(vs)[w] == 2 {
      var v, w :| v != w && multiset(vs)[v] == 2 && multiset(vs)[w] == 2;
      assert v in multiset(vs) && w in multiset(vs);
      assert v in p && w in p;
      TwoMembersCardinality(p, v, w);
    }
  }

  /** Reordering the cards keeps the value counts and the sorted list of
      distinct values. */
  lemma ValuesPermutation(a: seq<Card>, b: seq<Card>)
    requires multiset(a) == multiset(b)
    ensures ValueCounts(a) == ValueCounts(b)
    ensures forall x :: x in ValuesOf(a) <==> x in ValuesOf(b)
    ensures UniqueValues(a) == UniqueValues(b)
  {
    MapSeqPermutation(a, b, ValueOf);
    var va, vb := ValuesOf(a), ValuesOf(b);
    forall x ensures x in va <==> x in vb {
      assert x in va <==> x in multiset(va);
      assert x in vb <==> x in multiset(vb);
    }
    var da, db := Dedup(va), Dedup(vb);
    NoDupsIffCountsAtMostOne(da);
    NoDupsIffCountsAtMostOne(db);
    forall x ensures multiset(da)[x] == multiset(db)[x] {
      assert x in da <==> x in db;
      assert x in da <==> multiset(da)[x] > 0;
      assert x in db <==> multiset(db)[x] > 0;
    }
    assert multiset(da) == multiset(db);
    SortedUnique(SortDesc(da), SortDesc(db));
  }

  /** Reordering the cards keeps each colour's count, sorted values and
      wheel test. */
  lemma SuitPermutation(a: seq<Card>, b: seq<Card>, s: Suit)
    requires multiset(a) == multiset(b)
    ensures SuitCount(a, s) == SuitCount(b, s)
    ensures SortDesc(SuitValues(a, s)) == SortDesc(SuitValues(b, s))
    ensures HasWheel(SuitValues(a, s)) <==> HasWheel(SuitValues(b, s))
  {
    SuitCountPermutation(a, b, s);
    var sa, sb := SuitValues(a, s), SuitValues(b, s);
    assert |sa| == |multiset(sa)| == |multiset(sb)| == |sb|;
    SortedUnique(SortDesc(sa), SortDesc(sb));
    forall x ensures x in sa <==> x in sb {
      assert x in sa <==> x in multiset(sa);
      assert x in sb <==> x in multiset(sb);
    }
    SameMembers(sa, sb);
  }

  lemma StraightFlushPermutation(a: seq<Card>, b: seq<Card>)
    requires multiset(a) == multiset(b)
    ensures StraightFlushTest(a) ==> StraightFlushTest(b)
  {
    if StraightFlushTest(a) {
      var s :| s in Colors && SuitCount(a, s) >= 5 &&
        (HasWindow(SortDesc(SuitValues(a, s))) || HasWheel(SuitValues(a, s)));
      SuitPermutation(a, b, s);
    }
  }

  lemma FlushPermutation(a: seq<Card>, b: seq<Card>)
    requires multiset(a) == multiset(b)
    ensures HasFlush(a) ==> HasFlush(b)
  {
    if HasFlush(a) {
      var s :| s in Colors && SuitCount(a, s) >= 5;
      SuitPermutation(a, b, s);
    }
  }

  lemma CountPermutation(a: seq<Card>, b: seq<Card>, n: nat)
    requires multiset(a) == multiset(b)
    ensures HasCount(a, n) ==> HasCount(b, n)
  {
    ValuesPermutation(a, b);
    if HasCount(a, n) {
      var v :| v in ValuesOf(a) && ValueCounts(a)[v] == n;
      assert v in ValuesOf(b);
    }
  }

  /** Each coded test depends only on the multiset of cards. */
  lemma TestsPermutation(a: seq<Card>, b: seq<Card>, k: int)
    requires multiset(a) == multiset(b)
    ensures Test(k, a) <==> Test(k, b)
  {
    if k == 9 {
      StraightFlushPermutation(a, b);
      StraightFlushPermutation(b, a);
    } else if k == 6 {
      FlushPermutation(a, b);
      FlushPermutation(b, a);
    } else if k == 5 {
      ValuesPermutation(a, b);
      SameMembers(ValuesOf(a), ValuesOf(b));
    } else if k == 3 {
      ValuesPermutation(a, b);
      assert PairedValues(a) == PairedValues(b);
    } else if k in {8, 7, 4, 2} {
      CountPermutation(a, b, 2);
      CountPermutation(b, a, 2);
      CountPermutation(a, b, 3);
      CountPermutation(b, a, 3);
      CountPermutation(a, b, 4);
      CountPermutation(b, a, 4);
    }
  }

  /** The category depends only on which cards are known, not on their
      order nor on how they are split between hand and board. */
  lemma CategoryPermutation(h1: seq<Card>, b1: seq<Card>, h2: seq<Card>, b2: seq<Card>)
    requires multiset(h1 + b1) == multiset(h2 + b2)
    ensures Category(HandRank(h1, b1)) == Category(HandRank(h2, b2))
  {
    var a, b := h1 + b1, h2 + b2;
    assert |a| == |multiset(a)| == |multiset(b)| == |b|;
    if |a| >= 5 {
      forall k ensures Test(k, a) <==> Test(k, b) {
        TestsPermutation(a, b, k);
      }
    }
  }
}
