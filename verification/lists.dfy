/** Sequence helpers that stand for the Python list idioms the poker code
    relies on: comprehensions that map or filter, `Counter` lookups (a
    multiset count), `sorted(..., reverse=True)` (a stable sort on a key),
    de-duplication in first-seen order (the key order of a `dict` or
    `Counter`), `list.remove` and `sum`. */
module Lists {

  /** No element occurs twice. */
  predicate NoDups<T(==)>(s: seq<T>) {
    forall i, j :: 0 <= i < j < |s| ==> s[i] != s[j]
  }

  /** `[f(x) for x in s]` */
  function MapSeq<A, B>(s: seq<A>, f: A -> B): (r: seq<B>)
    ensures |r| == |s|
    ensures forall i :: 0 <= i < |s| ==> r[i] == f(s[i])
  {
    if s == [] then [] else [f(s[0])] + MapSeq(s[1..], f)
  }

  /** `[x for x in s if p(x)]` */
  function Filter<T(==,!new)>(s: seq<T>, p: T -> bool): (r: seq<T>)
    ensures |r| <= |s|
    ensures forall x :: x in r <==> x in s && p(x)
  {
    if s == [] then []
    else if p(s[0]) then [s[0]] + Filter(s[1..], p)
    else Filter(s[1..], p)
  }

  /** The integer key used to sort plain integer lists. */
  function Ident(x: int): int { x }

  /** Non-increasing by `key`. */
  predicate SortedByDesc<T>(s: seq<T>, key: T -> int) {
    forall i, j :: 0 <= i < j < |s| ==> key(s[i]) >= key(s[j])
  }

  /** Inserts `x` in front of every element whose key is not larger:
      the step of a stable insertion sort run from the back of the list. */
  function InsertByKey<T>(x: T, s: seq<T>, key: T -> int): (r: seq<T>)
    requires SortedByDesc(s, key)
    ensures SortedByDesc(r, key)
    ensures multiset(r) == multiset(s) + multiset{x}
    ensures |r| == |s| + 1
  {
    if s == [] || key(x) >= key(s[0]) then [x] + s
    else
      assert s == [s[0]] + s[1..];
      var t := InsertByKey(x, s[1..], key);
      HeadDominates(s, x, t, key);
      [s[0]] + t
  }

  /** The head of a sorted list has a key at least that of every element
      of its tail with a smaller-keyed `x` added. */
  lemma HeadDominates<T>(s: seq<T>, x: T, t: seq<T>, key: T -> int)
    requires s != [] && SortedByDesc(s, key) && key(x) < key(s[0])
    requires multiset(t) == multiset(s[1..]) + multiset{x}
    ensures forall j :: 0 <= j < |t| ==> key(s[0]) >= key(t[j])
  {
    forall j | 0 <= j < |t| ensures key(s[0]) >= key(t[j]) {
      assert t[j] in multiset(t);
      if t[j] != x {
        assert t[j] in multiset(s[1..]);
        var k :| 0 <= k < |s[1..]| && s[1..][k] == t[j];
        assert s[k + 1] == t[j];
      }
    }
  }

  /** `sorted(s, key=key, reverse=True)`: a permutation of `s`, non-increasing
      by key, equal keys kept in their original order. */
  function SortByKeyDesc<T>(s: seq<T>, key: T -> int): (r: seq<T>)
    ensures SortedByDesc(r, key)
    ensures multiset(r) == multiset(s)
    ensures |r| == |s|
  {
    if s == [] then []
    else
      assert s == [s[0]] + s[1..];
      InsertByKey(s[0], SortByKeyDesc(s[1..], key), key)
  }

  /** `sorted(s, reverse=True)` for integers. */
  function SortDesc(s: seq<int>): (r: seq<int>)
    ensures SortedByDesc(r, Ident)
    ensures multiset(r) == multiset(s)
    ensures |r| == |s|
  {
    SortByKeyDesc(s, Ident)
  }

  /** The elements of `s` in order of first occurrence, each once: the key
      order of a `dict` or `Counter` built from `s`, and `list(set(s))`
      up to order. */
  function Dedup<T(==,!new)>(s: seq<T>): (r: seq<T>)
    ensures NoDups(r)
    ensures forall x :: x in r <==> x in s
    ensures |r| <= |s|
  {
    if s == [] then []
    else
      var r := Dedup(s[..|s| - 1]);
      var x := s[|s| - 1];
      assert forall y :: y in s <==> y in s[..|s| - 1] || y == x by {
        assert s == s[..|s| - 1] + [x];
      }
      if x in r then r else r + [x]
  }

  /** `list.remove(x)`: drops the first occurrence of `x`, if any. */
  function RemoveFirst<T(==)>(s: seq<T>, x: T): (r: seq<T>)
    ensures x in s ==> |r| == |s| - 1
    ensures x !in s ==> r == s
    ensures multiset(r) == multiset(s) - multiset{x}
  {
    if s == [] then []
    else if s[0] == x then
      assert s == [x] + s[1..];
      s[1..]
    else
      assert s == [s[0]] + s[1..];
      [s[0]] + RemoveFirst(s[1..], x)
  }

  /** `sum(s)` */
  function Sum(s: seq<int>): int {
    if s == [] then 0 else s[0] + Sum(s[1..])
  }

  /** `sum(s)` over reals. */
  function SumReal(s: seq<real>): real {
    if s == [] then 0.0 else s[0] + SumReal(s[1..])
  }

  /** `s` is obtained from `t` by deleting elements, order kept. */
  predicate IsSubsequence<T(==)>(s: seq<T>, t: seq<T>)
    decreases |t|
  {
    s == [] || (t != [] && ((s[0] == t[0] && IsSubsequence(s[1..], t[1..])) || IsSubsequence(s, t[1..])))
  }

  // ---------------------------------------------------------------------
  // Lemmas

  /** A non-empty set has a member. */
  lemma NonEmptyHasMember<T>(s: set<T>)
    requires s != {}
    ensures exists x :: x in s
  {
    if forall x :: x !in s {
      assert false;
    }
  }

  /** Some member of a non-empty set. */
  lemma Pick<T>(s: set<T>) returns (x: T)
    requires s != {}
    ensures x in s
  {
    NonEmptyHasMember(s);
    x :| x in s;
  }

  lemma {:induction false} NoDupsIffCountsAtMostOne<T>(s: seq<T>)
    ensures NoDups(s) <==> forall x :: multiset(s)[x] <= 1
  {
    if s != [] {
      var t := s[1..];
      assert s == [s[0]] + t;
      assert multiset(s) == multiset{s[0]} + multiset(t);
      NoDupsIffCountsAtMostOne(t);
      if NoDups(s) {
        assert NoDups(t) by {
          forall i, j | 0 <= i < j < |t| ensures t[i] != t[j] {
            assert t[i] == s[i + 1] && t[j] == s[j + 1];
          }
        }
        assert forall k :: 0 <= k < |t| ==> t[k] == s[k + 1];
        assert s[0] !in t;
        forall x ensures multiset(s)[x] <= 1 {
          if x == s[0] {
            assert multiset(t)[x] == 0;
          } else {
            assert multiset(s)[x] == multiset(t)[x];
          }
        }
      }
      if forall x :: multiset(s)[x] <= 1 {
        forall x ensures multiset(t)[x] <= 1 {
          assert multiset(t)[x] <= multiset(s)[x];
        }
        assert multiset(s)[s[0]] == 1 + multiset(t)[s[0]];
        assert s[0] !in t;
        forall i, j | 0 <= i < j < |s| ensures s[i] != s[j] {
          if i == 0 {
            assert s[j] == t[j - 1];
          } else {
            assert s[i] == t[i - 1] && s[j] == t[j - 1];
          }
        }
      }
    }
  }

  /** Reordering a list without repeats gives a list without repeats. */
  lemma NoDupsPermutation<T>(a: seq<T>, b: seq<T>)
    requires multiset(a) == multiset(b)
    requires NoDups(a)
    ensures NoDups(b)
  {
    NoDupsIffCountsAtMostOne(a);
    NoDupsIffCountsAtMostOne(b);
  }

  /** Dropping the head keeps a list sorted. */
  lemma SortedTail<T>(s: seq<T>, key: T -> int)
    requires s != [] && SortedByDesc(s, key)
    ensures SortedByDesc(s[1..], key)
  {
    forall i, j | 0 <= i < j < |s| - 1 ensures key(s[1..][i]) >= key(s[1..][j]) {
      assert s[1..][i] == s[i + 1] && s[1..][j] == s[j + 1];
    }
  }

  /** The head of a non-increasing integer list is its largest element. */
  lemma SortedHeadIsMax(s: seq<int>, x: int)
    requires SortedByDesc(s, Ident) && x in multiset(s)
    ensures s[0] >= x
  {
    var k :| 0 <= k < |s| && s[k] == x;
    assert Ident(s[0]) >= Ident(s[k]);
  }

  /** Two non-increasing integer lists with the same elements are equal:
      `sorted(..., reverse=True)` depends only on the multiset. */
  lemma {:induction false} SortedUnique(a: seq<int>, b: seq<int>)
    requires SortedByDesc(a, Ident) && SortedByDesc(b, Ident)
    requires multiset(a) == multiset(b)
    ensures a == b
    decreases |a|
  {
    assert |a| == |multiset(a)| == |multiset(b)| == |b|;
    if a != [] {
      SortedHeadIsMax(b, a[0]);
      SortedHeadIsMax(a, b[0]);
      assert a[0] == b[0];
      TailMultiset(a);
      TailMultiset(b);
      SortedTail(a, Ident);
      SortedTail(b, Ident);
      SortedUnique(a[1..], b[1..]);
      HeadTailEqual(a, b);
    }
  }

  /** Extending a prefix by one element. */
  lemma PrefixSnoc<T>(s: seq<T>, k: int)
    requires 0 <= k < |s|
    ensures s[..k + 1] == s[..k] + [s[k]]
  {
  }

  lemma HeadTailEqual<T>(a: seq<T>, b: seq<T>)
    requires a != [] && b != [] && a[0] == b[0] && a[1..] == b[1..]
    ensures a == b
  {
    assert a == [a[0]] + a[1..];
    assert b == [b[0]] + b[1..];
  }

  lemma TailMultiset<T>(s: seq<T>)
    requires s != []
    ensures multiset(s[1..]) == multiset(s) - multiset{s[0]}
  {
    assert s == [s[0]] + s[1..];
  }

  lemma {:induction false} MapSeqAppend<A, B>(s: seq<A>, t: seq<A>, f: A -> B)
    ensures MapSeq(s + t, f) == MapSeq(s, f) + MapSeq(t, f)
  {
    assert |MapSeq(s + t, f)| == |MapSeq(s, f) + MapSeq(t, f)|;
    forall i | 0 <= i < |s + t| ensures MapSeq(s + t, f)[i] == (MapSeq(s, f) + MapSeq(t, f))[i] {
      if i < |s| {
        assert (s + t)[i] == s[i];
      } else {
        assert (s + t)[i] == t[i - |s|];
      }
    }
  }

  /** Mapping respects reordering: `Counter([f(x) for x in s])` depends only
      on the multiset of `s`. */
  lemma {:induction false} MapSeqPermutation<A, B>(a: seq<A>, b: seq<A>, f: A -> B)
    requires multiset(a) == multiset(b)
    ensures multiset(MapSeq(a, f)) == multiset(MapSeq(b, f))
    decreases |a|
  {
    assert |a| == |multiset(a)| == |multiset(b)| == |b|;
    if a != [] {
      assert a == [a[0]] + a[1..];
      assert a[0] in multiset(b);
      var k :| 0 <= k < |b| && b[k] == a[0];
      var rest := b[..k] + b[k + 1..];
      assert b == b[..k] + [b[k]] + b[k + 1..];
      assert multiset(b) == multiset(b[..k]) + multiset{b[k]} + multiset(b[k + 1..]);
      assert multiset(rest) == multiset(b[..k]) + multiset(b[k + 1..]);
      assert multiset(rest) == multiset(b) - multiset{b[k]};
      TailMultiset(a);
      MapSeqPermutation(a[1..], rest, f);
      MapSeqAppend(b[..k], b[k + 1..], f);
      MapSeqAppend(b[..k] + [b[k]], b[k + 1..], f);
      MapSeqAppend(b[..k], [b[k]], f);
      MapSeqAppend([a[0]], a[1..], f);
    }
  }

  /** Filtering respects reordering. */
  lemma {:induction false} FilterCount<T(!new)>(s: seq<T>, p: T -> bool, x: T)
    ensures multiset(Filter(s, p))[x] == if p(x) then multiset(s)[x] else 0
  {
    if s != [] {
      assert s == [s[0]] + s[1..];
      FilterCount(s[1..], p, x);
      if p(s[0]) {
        assert Filter(s, p) == [s[0]] + Filter(s[1..], p);
      }
    }
  }

  /** Filtering a concatenation filters each part. */
  lemma {:induction false} FilterAppend<T(!new)>(a: seq<T>, b: seq<T>, p: T -> bool)
    ensures Filter(a + b, p) == Filter(a, p) + Filter(b, p)
  {
    if a == [] {
      assert a + b == b;
    } else {
      assert (a + b)[0] == a[0];
      assert (a + b)[1..] == a[1..] + b;
      FilterAppend(a[1..], b, p);
    }
  }

  /** Nothing passes the filter when no element satisfies it. */
  lemma {:induction false} FilterNone<T(!new)>(s: seq<T>, p: T -> bool)
    requires forall x :: x in s ==> !p(x)
    ensures Filter(s, p) == []
  {
    if s != [] {
      assert s[0] in s;
      assert forall x :: x in s[1..] ==> x in s;
      FilterNone(s[1..], p);
    }
  }

  /** Filtering a one-element list. */
  lemma FilterSingle<T(!new)>(x: T, p: T -> bool)
    ensures Filter([x], p) == if p(x) then [x] else []
  {
    assert [x][1..] == [];
  }

  lemma FilterPermutation<T(!new)>(a: seq<T>, b: seq<T>, p: T -> bool)
    requires multiset(a) == multiset(b)
    ensures multiset(Filter(a, p)) == multiset(Filter(b, p))
  {
    forall x ensures multiset(Filter(a, p))[x] == multiset(Filter(b, p))[x] {
      FilterCount(a, p, x);
      FilterCount(b, p, x);
    }
  }

  lemma {:induction false} SumAppend(s: seq<int>, t: seq<int>)
    ensures Sum(s + t) == Sum(s) + Sum(t)
  {
    if s != [] {
      assert (s + t)[0] == s[0];
      assert (s + t)[1..] == s[1..] + t;
      SumAppend(s[1..], t);
    } else {
      assert s + t == t;
    }
  }

  lemma {:induction false} SumRealAppend(s: seq<real>, t: seq<real>)
    ensures SumReal(s + t) == SumReal(s) + SumReal(t)
  {
    if s != [] {
      assert (s + t)[0] == s[0];
      assert (s + t)[1..] == s[1..] + t;
      SumRealAppend(s[1..], t);
    } else {
      assert s + t == t;
    }
  }

  /** Changing one entry changes the sum by the difference. */
  lemma {:induction false} SumUpdate(s: seq<int>, i: nat, v: int)
    requires i < |s|
    ensures Sum(s[i := v]) == Sum(s) - s[i] + v
  {
    if i == 0 {
      assert s[i := v][1..] == s[1..];
    } else {
      assert s[i := v][1..] == s[1..][i - 1 := v];
      SumUpdate(s[1..], i - 1, v);
    }
  }

  lemma {:induction false} RemoveFirstSubsequence<T>(s: seq<T>, x: T)
    ensures IsSubsequence(RemoveFirst(s, x), s)
  {
    if s != [] {
      if s[0] == x {
        SubsequenceOfTail(s[1..], s);
      } else {
        RemoveFirstSubsequence(s[1..], x);
      }
    }
  }

  lemma {:induction false} SubsequenceRefl<T>(s: seq<T>)
    ensures IsSubsequence(s, s)
  {
    if s != [] {
      SubsequenceRefl(s[1..]);
    }
  }

  lemma SubsequenceOfTail<T>(s: seq<T>, t: seq<T>)
    requires t != [] && s == t[1..]
    ensures IsSubsequence(s, t)
  {
    SubsequenceRefl(s);
  }

  lemma {:induction false} SubsequenceTrans<T>(a: seq<T>, b: seq<T>, c: seq<T>)
    requires IsSubsequence(a, b) && IsSubsequence(b, c)
    ensures IsSubsequence(a, c)
    decreases |c|
  {
    if a != [] {
      assert c != [];
      if b[0] == c[0] && IsSubsequence(b[1..], c[1..]) {
        if a[0] == b[0] && IsSubsequence(a[1..], b[1..]) {
          SubsequenceTrans(a[1..], b[1..], c[1..]);
        } else {
          SubsequenceTrans(a, b[1..], c[1..]);
        }
      } else {
        SubsequenceTrans(a, b, c[1..]);
      }
    }
  }

  lemma {:induction false} SubsequenceMembers<T>(s: seq<T>, t: seq<T>)
    requires IsSubsequence(s, t)
    ensures forall x :: x in s ==> x in t
    decreases |t|
  {
    if s != [] {
      if s[0] == t[0] && IsSubsequence(s[1..], t[1..]) {
        SubsequenceMembers(s[1..], t[1..]);
        assert s == [s[0]] + s[1..];
      } else {
        SubsequenceMembers(s, t[1..]);
      }
    }
  }

  lemma {:induction false} FilterSubsequence<T(!new)>(s: seq<T>, p: T -> bool)
    ensures IsSubsequence(Filter(s, p), s)
  {
    if s != [] {
      FilterSubsequence(s[1..], p);
      if !p(s[0]) {
        var r := Filter(s[1..], p);
        if r != [] {
          assert IsSubsequence(r, s[1..]);
        }
      }
    }
  }
}
