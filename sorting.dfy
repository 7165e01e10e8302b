/** Sorting by a caller-supplied order, standing for the standard library's
    stable `slice::sort` and `slice::sort_by_key`. `SortBy` is insertion
    sort: each element goes in front of the first element it does not
    exceed, so elements that compare equal keep their input order. */
module Sorting {

  import opened Common

  /** `le` is a total preorder on the elements of `s`: any two of them are
      comparable and the relation is transitive among them. */
  ghost predicate TotalOn<T>(le: (T, T) -> bool, s: seq<T>) {
    && (forall a, b :: a in s && b in s ==> le(a, b) || le(b, a))
    && (forall a, b, c :: a in s && b in s && c in s && le(a, b) && le(b, c) ==> le(a, c))
  }

  /** `le` is antisymmetric on the elements of `s`. */
  ghost predicate AntisymmetricOn<T>(le: (T, T) -> bool, s: seq<T>) {
    forall a, b :: a in s && b in s && le(a, b) && le(b, a) ==> a == b
  }

  ghost predicate SortedBy<T>(s: seq<T>, le: (T, T) -> bool) {
    forall i, j :: 0 <= i < j < |s| ==> le(s[i], s[j])
  }

  function Insert<T>(x: T, s: seq<T>, le: (T, T) -> bool): (r: seq<T>)
    ensures multiset(r) == multiset(s) + multiset{x}
    ensures |r| == |s| + 1
  {
    if s == [] || le(x, s[0]) then [x] + s
    else
      assert s == [s[0]] + s[1..];
      [s[0]] + Insert(x, s[1..], le)
  }

  function SortBy<T>(s: seq<T>, le: (T, T) -> bool): (r: seq<T>)
    ensures multiset(r) == multiset(s)
    ensures |r| == |s|
  {
    if s == [] then []
    else
      assert s == [s[0]] + s[1..];
      Insert(s[0], SortBy(s[1..], le), le)
  }

  /** Exchanging two elements keeps the same elements. */
  lemma SwapPermutes<T>(s: seq<T>, i: nat, j: nat)
    requires i < |s| && j < |s|
    ensures multiset(s[i := s[j]][j := s[i]]) == multiset(s)
  {
  }

  /** A relation total on a collection is total on any part of it. */
  lemma TotalOnPart<T>(le: (T, T) -> bool, s: seq<T>, t: seq<T>)
    requires TotalOn(le, t) && multiset(s) <= multiset(t)
    ensures TotalOn(le, s)
  {
    forall y | y in s ensures y in t {
      assert y in multiset(s);
    }
  }

  /** The head of a sorted sequence is below every later element. */
  lemma HeadBelow<T>(a: seq<T>, y: T, le: (T, T) -> bool)
    requires SortedBy(a, le) && a != [] && y in a
    ensures y == a[0] || le(a[0], y)
  {
  }

  /** Putting an element below all of a sorted sequence in front of it keeps
      the sequence sorted. */
  lemma LeadSorted<T>(h: T, t: seq<T>, le: (T, T) -> bool)
    requires SortedBy(t, le) && forall y :: y in t ==> le(h, y)
    ensures SortedBy([h] + t, le)
  {
    var r := [h] + t;
    forall i, j | 0 <= i < j < |r| ensures le(r[i], r[j]) {
      if i == 0 {
        assert r[j] == t[j - 1];
      } else {
        assert r[i] == t[i - 1] && r[j] == t[j - 1];
      }
    }
  }

  /** When `x` goes after the head of a sorted `s`, the head is below
      everything it is inserted among. */
  lemma BelowInserted<T>(x: T, s: seq<T>, y: T, le: (T, T) -> bool)
    requires TotalOn(le, [x] + s) && SortedBy(s, le)
    requires s != [] && !le(x, s[0]) && y in Insert(x, s[1..], le)
    ensures le(s[0], y)
  {
    assert y in multiset(Insert(x, s[1..], le));
    assert s[0] in [x] + s && x in [x] + s;
    if y != x {
      assert y in multiset(s[1..]);
      assert y in s[1..];
    }
  }

  lemma {:induction false} InsertSorted<T>(x: T, s: seq<T>, le: (T, T) -> bool)
    requires TotalOn(le, [x] + s) && SortedBy(s, le)
    ensures SortedBy(Insert(x, s, le), le)
  {
    if s == [] || le(x, s[0]) {
      forall y | y in s ensures le(x, y) {
        HeadBelow(s, y, le);
        assert x in [x] + s && s[0] in [x] + s && y in [x] + s;
      }
      LeadSorted(x, s, le);
    } else {
      assert s == [s[0]] + s[1..];
      TotalOnPart(le, [x] + s[1..], [x] + s);
      InsertSorted(x, s[1..], le);
      var rest := Insert(x, s[1..], le);
      forall y | y in rest ensures le(s[0], y) {
        BelowInserted(x, s, y, le);
      }
      LeadSorted(s[0], rest, le);
    }
  }

  /** The result of `SortBy` is ordered by `le` (and, by its contract, a
      permutation of the input) whenever `le` totally preorders the input. */
  lemma {:induction false} SortBySorted<T>(s: seq<T>, le: (T, T) -> bool)
    requires TotalOn(le, s)
    ensures SortedBy(SortBy(s, le), le)
  {
    if s != [] {
      var tail := SortBy(s[1..], le);
      assert s == [s[0]] + s[1..];
      TotalOnPart(le, s[1..], s);
      SortBySorted(s[1..], le);
      TotalOnPart(le, [s[0]] + tail, s);
      InsertSorted(s[0], tail, le);
    }
  }

  /** A sequence whose neighbours are in order is sorted, when the order is
      a total preorder on its elements. */
  lemma ChainSorted<T>(s: seq<T>, le: (T, T) -> bool)
    requires TotalOn(le, s) && forall i :: 0 <= i < |s| - 1 ==> le(s[i], s[i + 1])
    ensures SortedBy(s, le)
  {
    forall i, j | 0 <= i < j < |s| ensures le(s[i], s[j]) {
      ChainStep(s, le, i, j);
    }
  }

  lemma {:induction false} ChainStep<T>(s: seq<T>, le: (T, T) -> bool, i: nat, j: nat)
    requires TotalOn(le, s) && forall k :: 0 <= k < |s| - 1 ==> le(s[k], s[k + 1])
    requires i < j < |s|
    ensures le(s[i], s[j])
    decreases j - i
  {
    if j > i + 1 {
      ChainStep(s, le, i, j - 1);
      assert le(s[j - 1], s[j]);
      assert s[i] in s && s[j - 1] in s && s[j] in s;
    }
  }

  /** Two sorted arrangements of one collection start with the same element
      when the order is antisymmetric on it. */
  lemma SortedHeadsEqual<T>(a: seq<T>, b: seq<T>, le: (T, T) -> bool)
    requires SortedBy(a, le) && SortedBy(b, le) && multiset(a) == multiset(b)
    requires AntisymmetricOn(le, a) && a != []
    ensures b != [] && a[0] == b[0]
  {
    assert |a| == |multiset(a)| == |b|;
    assert b[0] in multiset(a) && a[0] in multiset(b);
    assert b[0] in a && a[0] in b;
    HeadBelow(a, b[0], le);
    HeadBelow(b, a[0], le);
    assert a[0] in a;
  }

  /** Under an order that is antisymmetric on the elements, a sorted
      arrangement of a collection is unique. */
  lemma {:induction false} SortedUnique<T>(a: seq<T>, b: seq<T>, le: (T, T) -> bool)
    requires SortedBy(a, le) && SortedBy(b, le) && multiset(a) == multiset(b)
    requires AntisymmetricOn(le, a)
    ensures a == b
    decreases |a|
  {
    assert |a| == |multiset(a)| == |b|;
    if a != [] {
      SortedHeadsEqual(a, b, le);
      MultisetTail(a, b);
      assert AntisymmetricOn(le, a[1..]) by {
        forall y | y in a[1..] ensures y in a {
        }
      }
      SortedUnique(a[1..], b[1..], le);
    }
  }
}
