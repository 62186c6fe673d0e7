/**
 * The collection operations the routes ask of the database, as pure
 * sequence operations: `find(filter)`, `findOne(filter)`, `.sort(...)`
 * and `.limit(n)`.
 */
module Queries {
  import opened Wrappers

  /** `find(filter)`: the matching documents, in collection order. */
  function Filter<T>(s: seq<T>, p: T -> bool): (r: seq<T>)
    ensures |r| <= |s|
    ensures forall x :: x in r ==> p(x) && x in s
    ensures forall i :: 0 <= i < |s| && p(s[i]) ==> s[i] in r
    ensures multiset(r) <= multiset(s)
    ensures (forall x :: x in s ==> !p(x)) ==> r == []
  {
    if s == [] then []
    else
      var rest := Filter(s[1..], p);
      assert s == [s[0]] + s[1..];
      if p(s[0]) then [s[0]] + rest else rest
  }

  /** `findOne(filter)`: the index of the first matching document, if any. */
  function FindIndex<T>(s: seq<T>, p: T -> bool): (r: Option<nat>)
    ensures r.Some? ==> r.value < |s| && p(s[r.value])
    ensures r.Some? ==> forall j :: 0 <= j < r.value ==> !p(s[j])
    ensures r.None? ==> forall j :: 0 <= j < |s| ==> !p(s[j])
  {
    if s == [] then None
    else if p(s[0]) then Some(0)
    else
      match FindIndex(s[1..], p)
      case None => None
      case Some(k) => Some(k + 1)
  }

  /** `findOne(filter)` returning the document itself. */
  function FindFirst<T>(s: seq<T>, p: T -> bool): (r: Option<T>)
    ensures r.Some? ==> r.value in s && p(r.value)
    ensures r.None? ==> forall x :: x in s ==> !p(x)
  {
    match FindIndex(s, p)
    case None => None
    case Some(i) => Some(s[i])
  }

  /** `array.map(f)`. */
  function MapSeq<T, U>(s: seq<T>, f: T -> U): (r: seq<U>)
    ensures |r| == |s|
    ensures forall k :: 0 <= k < |s| ==> r[k] == f(s[k])
  {
    seq(|s|, k requires 0 <= k < |s| => f(s[k]))
  }

  /** `.limit(n)`. */
  function Take<T>(s: seq<T>, n: nat): (r: seq<T>)
    ensures |r| == if |s| <= n then |s| else n
    ensures r == s[..|r|]
  {
    if |s| <= n then s else s[..n]
  }

  /** Each element may stand before its successor. */
  ghost predicate Sorted<T>(s: seq<T>, before: (T, T) -> bool) {
    forall i :: 0 <= i < |s| - 1 ==> before(s[i], s[i + 1])
  }

  /** Every element may stand before every later one. */
  ghost predicate SortedPairwise<T>(s: seq<T>, before: (T, T) -> bool) {
    forall i, j :: 0 <= i < j < |s| ==> before(s[i], s[j])
  }

  ghost predicate Total<T(!new)>(before: (T, T) -> bool) {
    forall a, b :: before(a, b) || before(b, a)
  }

  ghost predicate Transitive<T(!new)>(before: (T, T) -> bool) {
    forall a, b, c :: before(a, b) && before(b, c) ==> before(a, c)
  }

  /** Inserts `x` before the first element it may stand before. */
  function Insert<T>(x: T, s: seq<T>, before: (T, T) -> bool): (r: seq<T>)
    ensures |r| == |s| + 1
    ensures multiset(r) == multiset(s) + multiset{x}
    ensures r[0] == x || (s != [] && r[0] == s[0])
  {
    if s == [] || before(x, s[0]) then [x] + s
    else
      assert s == [s[0]] + s[1..];
      [s[0]] + Insert(x, s[1..], before)
  }

  /** `.sort(...)`: insertion sort, which keeps equal keys in collection order. */
  function SortBy<T>(s: seq<T>, before: (T, T) -> bool): (r: seq<T>)
    ensures |r| == |s|
    ensures multiset(r) == multiset(s)
  {
    if s == [] then []
    else
      assert s == [s[0]] + s[1..];
      Insert(s[0], SortBy(s[1..], before), before)
  }

  lemma {:induction false} InsertSorted<T(!new)>(x: T, s: seq<T>, before: (T, T) -> bool)
    requires Total(before)
    requires Sorted(s, before)
    ensures Sorted(Insert(x, s, before), before)
    decreases |s|
  {
    if s != [] && !before(x, s[0]) {
      InsertSorted(x, s[1..], before);
      var rest := Insert(x, s[1..], before);
      assert before(s[0], x);
      assert Insert(x, s, before) == [s[0]] + rest;
    }
  }

  /** A total comparison is enough for insertion sort to produce sorted output. */
  lemma {:induction false} SortBySorted<T(!new)>(s: seq<T>, before: (T, T) -> bool)
    requires Total(before)
    ensures Sorted(SortBy(s, before), before)
    decreases |s|
  {
    if s != [] {
      SortBySorted(s[1..], before);
      InsertSorted(s[0], SortBy(s[1..], before), before);
    }
  }

  lemma {:induction false} SortedIsPairwise<T(!new)>(s: seq<T>, before: (T, T) -> bool)
    requires Transitive(before)
    requires Sorted(s, before)
    ensures SortedPairwise(s, before)
    decreases |s|
  {
    if |s| > 1 {
      SortedIsPairwise(s[1..], before);
      forall i, j | 0 <= i < j < |s| ensures before(s[i], s[j]) {
        if i > 0 {
          assert before(s[1..][i - 1], s[1..][j - 1]);
        } else if j > 1 {
          assert before(s[0], s[1]);
          assert before(s[1..][0], s[1..][j - 1]);
        }
      }
    }
  }

  /**
   * What `.sort(before).limit(k)` promises: some of the input's documents
   * (with multiplicity), as many as the limit allows, in order, and no
   * document left behind that should have come before one returned.
   */
  ghost predicate IsTopK<T>(r: seq<T>, s: seq<T>, before: (T, T) -> bool, k: nat) {
    && multiset(r) <= multiset(s)
    && |r| == (if |s| <= k then |s| else k)
    && SortedPairwise(r, before)
    && (forall x, y :: x in s && x !in r && y in r ==> before(y, x))
  }

  function TopK<T>(s: seq<T>, before: (T, T) -> bool, k: nat): seq<T>
  {
    Take(SortBy(s, before), k)
  }

  lemma TopKCorrect<T(!new)>(s: seq<T>, before: (T, T) -> bool, k: nat)
    requires Total(before) && Transitive(before)
    ensures IsTopK(TopK(s, before, k), s, before, k)
  {
    var sorted := SortBy(s, before);
    var r := Take(sorted, k);
    SortBySorted(s, before);
    SortedIsPairwise(sorted, before);
    assert multiset(r) <= multiset(sorted) by {
      assert sorted == r + sorted[|r|..];
    }
    forall x, y | x in s && x !in r && y in r ensures before(y, x) {
      assert x in multiset(sorted);
      var i :| 0 <= i < |sorted| && sorted[i] == x;
      var j :| 0 <= j < |r| && r[j] == y;
      assert i >= |r|;
    }
  }

  /** The whole input comes back whenever the limit is not reached. */
  lemma TopKUnderLimit<T>(s: seq<T>, before: (T, T) -> bool, k: nat)
    requires |s| <= k
    ensures multiset(TopK(s, before, k)) == multiset(s)
  {
  }

  /** A full sort (no limit) returns the same documents, each as often as the input has it. */
  lemma SortByKeepsMembers<T>(s: seq<T>, before: (T, T) -> bool)
    ensures forall x :: x in SortBy(s, before) <==> x in s
  {
    var r := SortBy(s, before);
    forall x ensures x in r <==> x in s {
      assert x in r <==> x in multiset(r);
      assert x in s <==> x in multiset(s);
    }
  }

  /** `.sort(...).limit(k)` returns documents of its input only. */
  lemma TopKMembers<T>(s: seq<T>, before: (T, T) -> bool, k: nat)
    ensures forall x :: x in TopK(s, before, k) ==> x in s
  {
    var sorted := SortBy(s, before);
    SortByKeepsMembers(s, before);
    var r := TopK(s, before, k);
    forall x | x in r ensures x in s {
      var i :| 0 <= i < |r| && r[i] == x;
      assert r == Take(sorted, k) == sorted[..|r|];
      assert sorted[i] == x;
      assert x in sorted;
    }
  }
}
