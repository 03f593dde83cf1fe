/** The library sort the program relies on: stable, ascending by a real key. */
module Sorting {
  import opened Common

  ghost predicate Sorted<T>(xs: seq<T>, key: T -> real) {
    forall i, j :: 0 <= i < j < |xs| ==> key(xs[i]) <= key(xs[j])
  }

  /** Equal keys occur only on equal elements: a sort leaves no choice of order. */
  ghost predicate KeyIdentifies<T>(xs: seq<T>, key: T -> real) {
    forall x, y :: x in xs && y in xs && key(x) == key(y) ==> x == y
  }

  /** Where the first element whose key is not smaller than `k` stands. */
  function Position<T>(k: real, xs: seq<T>, key: T -> real): (p: nat)
    ensures p <= |xs|
    ensures forall i :: 0 <= i < p ==> key(xs[i]) < k
    ensures p < |xs| ==> k <= key(xs[p])
    decreases |xs|
  {
    if xs == [] || k <= key(xs[0]) then 0 else 1 + Position(k, xs[1..], key)
  }

  function Insert<T>(x: T, xs: seq<T>, key: T -> real): (r: seq<T>)
    ensures |r| == |xs| + 1
  {
    var p := Position(key(x), xs, key);
    xs[..p] + [x] + xs[p..]
  }

  function SortBy<T>(xs: seq<T>, key: T -> real): (r: seq<T>)
    ensures |r| == |xs|
    decreases |xs|
  {
    if xs == [] then [] else Insert(xs[0], SortBy(xs[1..], key), key)
  }

  lemma {:induction false} InsertSorted<T>(x: T, xs: seq<T>, key: T -> real)
    requires Sorted(xs, key)
    ensures Sorted(Insert(x, xs, key), key)
  {
    var p, r := Position(key(x), xs, key), Insert(x, xs, key);
    forall i, j | 0 <= i < j < |r| ensures key(r[i]) <= key(r[j]) {
      assert r[i] == if i < p then xs[i] else if i == p then x else xs[i - 1];
      assert r[j] == if j < p then xs[j] else if j == p then x else xs[j - 1];
      assert i == p ==> key(xs[p]) <= key(xs[j - 1]);
    }
  }

  lemma {:induction false} InsertBag<T>(x: T, xs: seq<T>, key: T -> real)
    ensures multiset(Insert(x, xs, key)) == multiset(xs) + multiset{x}
  {
    var p := Position(key(x), xs, key);
    assert xs == xs[..p] + xs[p..];
  }

  /** The result holds the same elements in ascending order. */
  lemma {:induction false} SortCorrect<T>(xs: seq<T>, key: T -> real)
    ensures Sorted(SortBy(xs, key), key)
    ensures multiset(SortBy(xs, key)) == multiset(xs)
    decreases |xs|
  {
    if xs != [] {
      SortCorrect(xs[1..], key);
      InsertSorted(xs[0], SortBy(xs[1..], key), key);
      InsertBag(xs[0], SortBy(xs[1..], key), key);
      Uncons(xs);
    }
  }

  lemma {:induction false} SortKeeps<T>(xs: seq<T>, key: T -> real)
    ensures forall x :: x in SortBy(xs, key) <==> x in xs
  {
    SortCorrect(xs, key);
    SameMembers(SortBy(xs, key), xs);
  }

  lemma {:induction false} KeysCarryOver<T>(xs: seq<T>, ys: seq<T>, key: T -> real)
    requires multiset(xs) == multiset(ys) && KeyIdentifies(xs, key)
    ensures KeyIdentifies(ys, key)
  {
    SameMembers(xs, ys);
  }

  /** Two sorted lists of the same elements agree when keys identify elements. */
  lemma {:induction false} SortedUnique<T>(xs: seq<T>, ys: seq<T>, key: T -> real)
    requires multiset(xs) == multiset(ys)
    requires Sorted(xs, key) && Sorted(ys, key)
    requires KeyIdentifies(xs, key)
    ensures xs == ys
    decreases |xs|
  {
    SameMembers(xs, ys);
    if xs != [] {
      SameHead(xs, ys, key);
      Uncons(xs);
      Uncons(ys);
      TailSorted(xs, key);
      TailSorted(ys, key);
      SortedUnique(xs[1..], ys[1..], key);
    }
  }

  lemma {:induction false} TailSorted<T>(xs: seq<T>, key: T -> real)
    requires xs != [] && Sorted(xs, key)
    ensures Sorted(xs[1..], key)
    ensures KeyIdentifies(xs, key) ==> KeyIdentifies(xs[1..], key)
  {
    assert forall x :: x in xs[1..] ==> x in xs;
  }

  lemma {:induction false} SameHead<T>(xs: seq<T>, ys: seq<T>, key: T -> real)
    requires xs != [] && ys != []
    requires forall x :: x in xs <==> x in ys
    requires Sorted(xs, key) && Sorted(ys, key)
    requires KeyIdentifies(xs, key)
    ensures xs[0] == ys[0]
  {
    assert xs[0] in ys && ys[0] in xs;
    var i :| 0 <= i < |ys| && ys[i] == xs[0];
    var j :| 0 <= j < |xs| && xs[j] == ys[0];
  }

  /** The order of the input does not matter to a sort whose keys identify elements. */
  lemma {:induction false} SortIgnoresOrder<T>(xs: seq<T>, ys: seq<T>, key: T -> real)
    requires multiset(xs) == multiset(ys)
    requires KeyIdentifies(xs, key)
    ensures SortBy(xs, key) == SortBy(ys, key)
  {
    SortCorrect(xs, key);
    SortCorrect(ys, key);
    KeysCarryOver(xs, SortBy(xs, key), key);
    SortedUnique(SortBy(xs, key), SortBy(ys, key), key);
  }

  /** In ascending order of one key, and of another where the first agrees. */
  ghost predicate SortedByBoth<T>(xs: seq<T>, first: T -> real, second: T -> real) {
    forall i, j :: 0 <= i < j < |xs| ==>
      first(xs[i]) < first(xs[j]) || (first(xs[i]) == first(xs[j]) && second(xs[i]) <= second(xs[j]))
  }

  lemma {:induction false} InsertStable<T>(x: T, xs: seq<T>, first: T -> real, second: T -> real)
    requires SortedByBoth(xs, first, second) && forall i :: 0 <= i < |xs| ==> second(x) <= second(xs[i])
    ensures SortedByBoth(Insert(x, xs, first), first, second)
  {
    var p, r := Position(first(x), xs, first), Insert(x, xs, first);
    forall i, j | 0 <= i < j < |r|
      ensures first(r[i]) < first(r[j]) || (first(r[i]) == first(r[j]) && second(r[i]) <= second(r[j]))
    {
      assert r[i] == if i < p then xs[i] else if i == p then x else xs[i - 1];
      assert r[j] == if j < p then xs[j] else if j == p then x else xs[j - 1];
      if i == p {
        assert second(x) <= second(xs[j - 1]);
        assert p < j - 1 ==> first(xs[p]) <= first(xs[j - 1]);
      }
    }
  }

  /** Sorting by one key keeps the order by another where the first agrees. */
  lemma {:induction false} SortStable<T>(xs: seq<T>, first: T -> real, second: T -> real)
    requires Sorted(xs, second)
    ensures SortedByBoth(SortBy(xs, first), first, second)
    decreases |xs|
  {
    if xs != [] {
      var rest := xs[1..];
      var sorted := SortBy(rest, first);
      SortStable(rest, first, second);
      SortCorrect(rest, first);
      forall k | 0 <= k < |sorted| ensures second(xs[0]) <= second(sorted[k]) {
        assert sorted[k] in multiset(sorted);
        var m :| 0 <= m < |rest| && rest[m] == sorted[k];
        assert second(xs[0]) <= second(xs[m + 1]);
      }
      InsertStable(xs[0], sorted, first, second);
    }
  }
}
