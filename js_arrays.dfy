/** The JavaScript array operations the pages rely on: `filter`, `filter` by index, and
    `sort` with a comparator (stable, as ECMAScript 2019 requires). */
module JsArrays {

  /** `s.filter(p)`. */
  function Filter<T>(s: seq<T>, p: T -> bool): (r: seq<T>)
    ensures |r| <= |s|
    ensures forall i :: 0 <= i < |r| ==> r[i] in s && p(r[i])
    ensures forall i :: 0 <= i < |s| && p(s[i]) ==> s[i] in r
    decreases |s|
  {
    if |s| == 0 then []
    else if p(s[0]) then [s[0]] + Filter(s[1..], p)
    else Filter(s[1..], p)
  }

  /** `a` is `b` with some elements left out, the rest in the same order. */
  ghost predicate IsSubseq<T>(a: seq<T>, b: seq<T>)
    decreases |b|
  {
    if |a| == 0 then true
    else if |b| == 0 then false
    else (a[0] == b[0] && IsSubseq(a[1..], b[1..])) || IsSubseq(a, b[1..])
  }

  lemma {:induction false} FilterIsSubseq<T>(s: seq<T>, p: T -> bool)
    ensures IsSubseq(Filter(s, p), s)
    decreases |s|
  {
    if |s| > 0 {
      FilterIsSubseq(s[1..], p);
      if p(s[0]) {
        assert Filter(s, p)[1..] == Filter(s[1..], p);
      }
    }
  }

  /** A filter that every element passes changes nothing. */
  lemma {:induction false} FilterKeepsAll<T>(s: seq<T>, p: T -> bool)
    requires forall i :: 0 <= i < |s| ==> p(s[i])
    ensures Filter(s, p) == s
    decreases |s|
  {
    if |s| > 0 {
      FilterKeepsAll(s[1..], p);
    }
  }

  lemma {:induction false} FilterAppend<T>(a: seq<T>, b: seq<T>, p: T -> bool)
    ensures Filter(a + b, p) == Filter(a, p) + Filter(b, p)
    decreases |a|
  {
    if |a| > 0 {
      FilterAppend(a[1..], b, p);
      assert (a + b)[1..] == a[1..] + b;
      assert (a + b)[0] == a[0];
    } else {
      assert a + b == b;
    }
  }

  /** `s.filter((_, idx) => idx !== i)` applied to the suffix of an array that starts at index `from`. */
  function DropIndexFrom<T>(s: seq<T>, i: int, from: int): seq<T>
    decreases |s|
  {
    if |s| == 0 then []
    else (if from == i then [] else [s[0]]) + DropIndexFrom(s[1..], i, from + 1)
  }

  /** `s.filter((_, idx) => idx !== i)`. */
  function RemoveAt<T>(s: seq<T>, i: int): seq<T> {
    DropIndexFrom(s, i, 0)
  }

  lemma {:induction false} DropIndexFromSlices<T>(s: seq<T>, i: int, from: int)
    ensures from <= i < from + |s| ==> DropIndexFrom(s, i, from) == s[..i - from] + s[i - from + 1..]
    ensures !(from <= i < from + |s|) ==> DropIndexFrom(s, i, from) == s
    decreases |s|
  {
    if |s| > 0 {
      DropIndexFromSlices(s[1..], i, from + 1);
      if from < i < from + |s| {
        assert s[..i - from] == [s[0]] + s[1..][..i - from - 1];
        assert s[i - from + 1..] == s[1..][i - from..];
      }
    }
  }

  /** Removing index `i` leaves every other element, in order; an index outside the list removes nothing. */
  lemma RemoveAtSlices<T>(s: seq<T>, i: int)
    ensures 0 <= i < |s| ==> RemoveAt(s, i) == s[..i] + s[i + 1..]
    ensures 0 <= i < |s| ==> |RemoveAt(s, i)| == |s| - 1
    ensures !(0 <= i < |s|) ==> RemoveAt(s, i) == s
  {
    DropIndexFromSlices(s, i, 0);
  }

  // ---------------------------------------------------------------------------------
  // `sort` with a comparator: negative means "a before b", zero "keep the input order".

  /** Every pair is ordered one way or the other. */
  ghost predicate TotalComparator<T(!new)>(cmp: (T, T) -> int) {
    forall a, b :: cmp(a, b) <= 0 || cmp(b, a) <= 0
  }

  /** "Not after" is transitive. */
  ghost predicate TransitiveComparator<T(!new)>(cmp: (T, T) -> int) {
    forall a, b, c :: cmp(a, b) <= 0 && cmp(b, c) <= 0 ==> cmp(a, c) <= 0
  }

  /** Neighbours are in order. */
  predicate Sorted<T>(s: seq<T>, cmp: (T, T) -> int) {
    forall i :: 0 < i < |s| ==> cmp(s[i - 1], s[i]) <= 0
  }

  /** `a` and `b` compare equal both ways. */
  predicate Ties<T>(cmp: (T, T) -> int, a: T, b: T) {
    cmp(a, b) == 0 && cmp(b, a) == 0
  }

  /** Insert `x` before the first element it does not come after. */
  function Insert<T>(x: T, s: seq<T>, cmp: (T, T) -> int): (r: seq<T>)
    ensures multiset(r) == multiset(s) + multiset{x}
    decreases |s|
  {
    if |s| == 0 then [x]
    else if cmp(x, s[0]) <= 0 then [x] + s
    else
      var r := [s[0]] + Insert(x, s[1..], cmp);
      assert s == [s[0]] + s[1..];
      r
  }

  /** `s.sort(cmp)`, as a stable insertion sort. */
  function SortBy<T>(s: seq<T>, cmp: (T, T) -> int): (r: seq<T>)
    ensures multiset(r) == multiset(s)
    decreases |s|
  {
    if |s| == 0 then []
    else
      var r := Insert(s[0], SortBy(s[1..], cmp), cmp);
      assert s == [s[0]] + s[1..];
      r
  }

  lemma {:induction false} InsertSorted<T(!new)>(x: T, s: seq<T>, cmp: (T, T) -> int)
    requires TotalComparator(cmp)
    requires Sorted(s, cmp)
    ensures Sorted(Insert(x, s, cmp), cmp)
    ensures |s| > 0 && |Insert(x, s, cmp)| > 0 ==> Insert(x, s, cmp)[0] == x || Insert(x, s, cmp)[0] == s[0]
    decreases |s|
  {
    if |s| > 0 && cmp(x, s[0]) > 0 {
      InsertSorted(x, s[1..], cmp);
      var r := Insert(x, s, cmp);
      assert cmp(s[0], x) <= 0;
      if |s| > 1 {
        assert cmp(s[0], s[1]) <= 0;
      }
      assert r[1..] == Insert(x, s[1..], cmp);
    }
  }

  /** With a total comparator the sort puts every pair of neighbours in order. */
  lemma {:induction false} SortBySorted<T(!new)>(s: seq<T>, cmp: (T, T) -> int)
    requires TotalComparator(cmp)
    ensures Sorted(SortBy(s, cmp), cmp)
    decreases |s|
  {
    if |s| > 0 {
      SortBySorted(s[1..], cmp);
      InsertSorted(s[0], SortBy(s[1..], cmp), cmp);
    }
  }

  /** With a transitive comparator ordered neighbours give an ordered list. */
  lemma {:induction false} SortedPairwise<T(!new)>(s: seq<T>, cmp: (T, T) -> int, i: int, j: int)
    requires TransitiveComparator(cmp)
    requires Sorted(s, cmp)
    requires 0 <= i < j < |s|
    ensures cmp(s[i], s[j]) <= 0
    decreases j - i
  {
    if j > i + 1 {
      SortedPairwise(s, cmp, i, j - 1);
    }
  }

  /** Inserting `x` keeps the order among the elements that tie with `z`; `x` goes before all of them. */
  lemma {:induction false} InsertStable<T(!new)>(x: T, s: seq<T>, cmp: (T, T) -> int, z: T)
    requires TransitiveComparator(cmp)
    ensures Filter(Insert(x, s, cmp), y => Ties(cmp, y, z))
         == (if Ties(cmp, x, z) then [x] else []) + Filter(s, y => Ties(cmp, y, z))
    decreases |s|
  {
    var tz := y => Ties(cmp, y, z);
    if |s| > 0 && cmp(x, s[0]) > 0 {
      InsertStable(x, s[1..], cmp, z);
      if Ties(cmp, x, z) {
        assert !tz(s[0]);
      }
      assert Insert(x, s, cmp) == [s[0]] + Insert(x, s[1..], cmp);
    }
  }

  /** The sort is stable: elements that tie keep their input order. */
  lemma {:induction false} SortByStable<T(!new)>(s: seq<T>, cmp: (T, T) -> int, z: T)
    requires TransitiveComparator(cmp)
    ensures Filter(SortBy(s, cmp), y => Ties(cmp, y, z)) == Filter(s, y => Ties(cmp, y, z))
    decreases |s|
  {
    if |s| > 0 {
      SortByStable(s[1..], cmp, z);
      InsertStable(s[0], SortBy(s[1..], cmp), cmp, z);
    }
  }
}
