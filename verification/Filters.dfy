/** Selecting the elements of a list that satisfy a condition, in order. */
module Filters {
  import opened Common

  function WhereUpTo<T>(xs: seq<T>, n: nat, p: T -> bool): (r: seq<T>)
    requires n <= |xs|
    ensures |r| <= n
  {
    if n == 0 then [] else
      var r := WhereUpTo(xs, n - 1, p);
      if p(xs[n - 1]) then r + [xs[n - 1]] else r
  }

  function Where<T>(xs: seq<T>, p: T -> bool): (r: seq<T>)
    ensures |r| <= |xs|
  {
    WhereUpTo(xs, |xs|, p)
  }

  lemma {:induction false} UpToMembers<T>(xs: seq<T>, n: nat, p: T -> bool, x: T)
    requires n <= |xs|
    ensures x in WhereUpTo(xs, n, p) <==> x in xs[..n] && p(x)
    decreases n
  {
    if n != 0 {
      UpToMembers(xs, n - 1, p, x);
      Snoc(xs, n - 1);
    }
  }

  lemma {:induction false} WhereMember<T>(xs: seq<T>, p: T -> bool, x: T)
    ensures x in Where(xs, p) <==> x in xs && p(x)
  {
    UpToMembers(xs, |xs|, p, x);
    assert xs[..|xs|] == xs;
  }

  lemma {:induction false} WhereMembers<T>(xs: seq<T>, p: T -> bool)
    ensures forall x :: x in Where(xs, p) <==> x in xs && p(x)
  {
    forall x ensures x in Where(xs, p) <==> x in xs && p(x) {
      WhereMember(xs, p, x);
    }
  }

  lemma {:induction false} UpToSame<T>(xs: seq<T>, n: nat, p: T -> bool, q: T -> bool)
    requires n <= |xs| && forall i :: 0 <= i < n ==> p(xs[i]) == q(xs[i])
    ensures WhereUpTo(xs, n, p) == WhereUpTo(xs, n, q)
    decreases n
  {
    if n != 0 {
      UpToSame(xs, n - 1, p, q);
    }
  }

  lemma {:induction false} WhereSame<T>(xs: seq<T>, p: T -> bool, q: T -> bool)
    requires forall i :: 0 <= i < |xs| ==> p(xs[i]) == q(xs[i])
    ensures Where(xs, p) == Where(xs, q)
  {
    UpToSame(xs, |xs|, p, q);
  }

  lemma {:induction false} UpToPrefix<T>(xs: seq<T>, ys: seq<T>, n: nat, p: T -> bool)
    requires n <= |xs|
    ensures WhereUpTo(xs + ys, n, p) == WhereUpTo(xs, n, p)
    decreases n
  {
    if n != 0 {
      UpToPrefix(xs, ys, n - 1, p);
    }
  }

  lemma {:induction false} WhereSnoc<T>(xs: seq<T>, x: T, p: T -> bool)
    ensures Where(xs + [x], p) == Where(xs, p) + if p(x) then [x] else []
  {
    UpToPrefix(xs, [x], |xs|, p);
  }

  /** Selecting twice is selecting by both conditions. */
  lemma {:induction false} WhereTwice<T>(xs: seq<T>, n: nat, p: T -> bool, q: T -> bool, both: T -> bool)
    requires n <= |xs| && forall i :: 0 <= i < n ==> both(xs[i]) == (p(xs[i]) && q(xs[i]))
    ensures Where(WhereUpTo(xs, n, p), q) == WhereUpTo(xs, n, both)
    decreases n
  {
    if n != 0 {
      WhereTwice(xs, n - 1, p, q, both);
      if p(xs[n - 1]) {
        WhereSnoc(WhereUpTo(xs, n - 1, p), xs[n - 1], q);
      }
    }
  }

  lemma {:induction false} MapSnoc<T, U>(f: T -> U, xs: seq<T>, x: T)
    ensures Map(f, xs + [x]) == Map(f, xs) + [f(x)]
  {
  }

  /** Selecting by the image and taking the image commute. */
  lemma {:induction false} WhereOfMap<T, U>(f: T -> U, xs: seq<T>, n: nat, p: T -> bool, q: U -> bool)
    requires n <= |xs| && forall i :: 0 <= i < n ==> p(xs[i]) == q(f(xs[i]))
    ensures Map(f, WhereUpTo(xs, n, p)) == WhereUpTo(Map(f, xs), n, q)
    decreases n
  {
    if n != 0 {
      WhereOfMap(f, xs, n - 1, p, q);
      if p(xs[n - 1]) {
        MapSnoc(f, WhereUpTo(xs, n - 1, p), xs[n - 1]);
      }
    }
  }

  lemma {:induction false} BagsGrow<T>(a: seq<T>, b: seq<T>, all: seq<T>, x: T)
    requires multiset(a) + multiset(b) == multiset(all)
    ensures multiset(a + [x]) + multiset(b) == multiset(all) + multiset{x}
    ensures multiset(a) + multiset(b + [x]) == multiset(all) + multiset{x}
  {
    assert multiset(a + [x]) == multiset(a) + multiset{x};
    assert multiset(b + [x]) == multiset(b) + multiset{x};
  }

  /** Every element is selected by a condition or by its opposite. */
  lemma {:induction false} WhereSplits<T>(xs: seq<T>, n: nat, p: T -> bool, q: T -> bool)
    requires n <= |xs| && forall i :: 0 <= i < n ==> p(xs[i]) == !q(xs[i])
    ensures multiset(WhereUpTo(xs, n, p)) + multiset(WhereUpTo(xs, n, q)) == multiset(xs[..n])
    decreases n
  {
    if n != 0 {
      WhereSplits(xs, n - 1, p, q);
      BagSnoc(xs, n - 1);
      BagsGrow(WhereUpTo(xs, n - 1, p), WhereUpTo(xs, n - 1, q), xs[..n - 1], xs[n - 1]);
    }
  }

  lemma {:induction false} UpToAll<T>(xs: seq<T>, n: nat, p: T -> bool)
    requires n <= |xs| && forall i :: 0 <= i < n ==> p(xs[i])
    ensures WhereUpTo(xs, n, p) == xs[..n]
    decreases n
  {
    if n != 0 {
      UpToAll(xs, n - 1, p);
      Snoc(xs, n - 1);
    }
  }
}
