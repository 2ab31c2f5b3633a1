/** A stable sort by a comparator that is a strict weak order. */
module Sorting {
  ghost predicate StrictWeakOrder<T(!new)>(before: (T, T) -> bool) {
    && (forall a, b :: before(a, b) ==> !before(b, a))
    && (forall a, b, c :: !before(a, b) && !before(b, c) ==> !before(a, c))
  }

  /** An element goes before the first one that is not strictly before it. */
  function Insert<T>(x: T, sorted: seq<T>, before: (T, T) -> bool): (r: seq<T>)
    ensures |r| == |sorted| + 1
  {
    if sorted != [] && before(sorted[0], x) then [sorted[0]] + Insert(x, sorted[1..], before) else [x] + sorted
  }

  function Sort<T>(s: seq<T>, before: (T, T) -> bool): (r: seq<T>)
    ensures |r| == |s|
  {
    if s == [] then [] else Insert(s[0], Sort(s[1..], before), before)
  }

  lemma {:induction false} InsertHead<T>(x: T, sorted: seq<T>, before: (T, T) -> bool)
    ensures multiset(Insert(x, sorted, before)) == multiset(sorted)[x := multiset(sorted)[x] + 1]
    ensures Insert(x, sorted, before)[0] == if sorted != [] && before(sorted[0], x) then sorted[0] else x
  {
    if sorted != [] && before(sorted[0], x) {
      InsertHead(x, sorted[1..], before);
      assert sorted == [sorted[0]] + sorted[1..];
    }
  }

  /** No element comes strictly before a predecessor. */
  ghost predicate Ordered<T>(s: seq<T>, before: (T, T) -> bool) {
    forall i, j :: 0 <= i < j < |s| ==> !before(s[j], s[i])
  }

  lemma {:induction false} InsertKeepsOrder<T(!new)>(x: T, sorted: seq<T>, before: (T, T) -> bool)
    requires StrictWeakOrder(before) && Ordered(sorted, before)
    ensures Ordered(Insert(x, sorted, before), before)
  {
    var r := Insert(x, sorted, before);
    if sorted != [] && before(sorted[0], x) {
      var rest := sorted[1..];
      InsertKeepsOrder(x, rest, before);
      InsertHead(x, rest, before);
      forall j | 0 < j < |r| ensures !before(r[j], r[0]) {
        assert r[j] in multiset(r[1..]) && r[1..] == Insert(x, rest, before);
        if r[j] != x { assert r[j] in multiset(rest); }
      }
      assert r == [r[0]] + r[1..];
    } else if sorted != [] {
      forall j | 0 < j < |r| ensures !before(r[j], x) { assert r[j] == sorted[j - 1] && !before(sorted[0], x); }
    }
  }

  lemma {:induction false} SortSorts<T(!new)>(s: seq<T>, before: (T, T) -> bool)
    requires StrictWeakOrder(before)
    ensures multiset(Sort(s, before)) == multiset(s) && Ordered(Sort(s, before), before)
  {
    if s != [] {
      SortSorts(s[1..], before);
      InsertHead(s[0], Sort(s[1..], before), before);
      InsertKeepsOrder(s[0], Sort(s[1..], before), before);
      assert s == [s[0]] + s[1..];
    }
  }

  /** The first element that no other one comes strictly before. */
  ghost predicate IsFirstTop<T>(s: seq<T>, i: nat, before: (T, T) -> bool) {
    && i < |s| && (forall x :: x in s ==> !before(x, s[i]))
    && forall j :: 0 <= j < i ==> before(s[i], s[j])
  }

  lemma OneMore<T(!new)>(x: T, rest: seq<T>, k: nat, before: (T, T) -> bool)
    requires StrictWeakOrder(before) && IsFirstTop(rest, k, before)
    ensures IsFirstTop([x] + rest, if before(rest[k], x) then k + 1 else 0, before)
  {
    var s := [x] + rest;
    if before(rest[k], x) {
      forall j | 0 <= j < k + 1 ensures before(s[k + 1], s[j]) { if j > 0 { assert s[j] == rest[j - 1]; } }
    }
  }

  /** Stability: among the elements that tie for the first place, the earliest gets it. */
  lemma {:induction false} SortPutsTheFirstTopFirst<T(!new)>(s: seq<T>, before: (T, T) -> bool) returns (i: nat)
    requires s != [] && StrictWeakOrder(before)
    ensures IsFirstTop(s, i, before) && Sort(s, before)[0] == s[i]
  {
    var rest := s[1..];
    assert s == [s[0]] + rest;
    InsertHead(s[0], Sort(rest, before), before);
    if rest == [] {
      i := 0;
    } else {
      var k := SortPutsTheFirstTopFirst(rest, before);
      OneMore(s[0], rest, k, before);
      i := if before(rest[k], s[0]) then k + 1 else 0;
    }
  }
}
