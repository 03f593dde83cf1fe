/** Small value types and sequence facts shared by every component. */
module Common {

  datatype Option<+T> = None | Some(value: T) {
    function GetOr(default: T): T {
      if Some? then value else default
    }
  }

  datatype Result<+T, +E> = Ok(value: T) | Err(error: E)

  ghost predicate NoDup<T>(xs: seq<T>) {
    forall i, j :: 0 <= i < j < |xs| ==> xs[i] != xs[j]
  }

  lemma {:induction false} Snoc<T>(xs: seq<T>, i: nat)
    requires i < |xs|
    ensures xs[..i + 1] == xs[..i] + [xs[i]]
    ensures xs[..i + 1][..i] == xs[..i]
  {
  }

  /** A list read in order, one image per element. */
  function Map<T, U>(f: T -> U, xs: seq<T>): (r: seq<U>)
    ensures |r| == |xs|
    ensures forall i :: 0 <= i < |xs| ==> r[i] == f(xs[i])
  {
    seq(|xs|, i requires 0 <= i < |xs| => f(xs[i]))
  }

  function Without<T>(xs: seq<T>, k: nat): (r: seq<T>)
    requires k < |xs|
    ensures |r| == |xs| - 1
  {
    xs[..k] + xs[k + 1..]
  }

  /** Removing one occurrence of an element removes it once from the multiset. */
  lemma {:induction false} RemoveAt<T>(xs: seq<T>, k: nat)
    requires k < |xs|
    ensures multiset(xs) == multiset(Without(xs, k)) + multiset{xs[k]}
    ensures multiset(Without(xs, k)) == multiset(xs) - multiset{xs[k]}
  {
    assert xs == xs[..k] + [xs[k]] + xs[k + 1..];
  }

  lemma {:induction false} BagSnoc<T>(xs: seq<T>, i: nat)
    requires i < |xs|
    ensures multiset(xs[..i + 1]) == multiset(xs[..i]) + multiset{xs[i]}
  {
    Snoc(xs, i);
  }

  lemma {:induction false} MapConcat<T, U>(f: T -> U, xs: seq<T>, ys: seq<T>)
    ensures Map(f, xs + ys) == Map(f, xs) + Map(f, ys)
    ensures multiset(Map(f, xs + ys)) == multiset(Map(f, xs)) + multiset(Map(f, ys))
  {
    assert Map(f, xs + ys) == Map(f, xs) + Map(f, ys);
  }

  lemma {:induction false} WithoutLater<T>(xs: seq<T>, k: nat)
    requires 0 < k < |xs|
    ensures Without(xs, k) != [] && Without(xs, k)[0] == xs[0]
    ensures Without(xs, k)[1..] == Without(xs[1..], k - 1) && xs[1..][k - 1] == xs[k]
  {
  }

  lemma {:induction false} Uncons<T>(xs: seq<T>)
    requires xs != []
    ensures xs == [xs[0]] + xs[1..]
    ensures multiset(xs) == multiset(xs[1..]) + multiset{xs[0]}
    ensures multiset(xs[1..]) == multiset(xs) - multiset{xs[0]}
  {
    RemoveAt(xs, 0);
    assert Without(xs, 0) == xs[1..];
  }

  lemma {:induction false} SameMembers<T>(xs: seq<T>, ys: seq<T>)
    requires multiset(xs) == multiset(ys)
    ensures forall x :: x in xs <==> x in ys
    ensures |xs| == |ys|
  {
    forall x ensures x in xs <==> x in ys {
      assert x in xs <==> x in multiset(xs);
      assert x in ys <==> x in multiset(ys);
    }
    assert |multiset(xs)| == |xs| && |multiset(ys)| == |ys|;
  }

  lemma {:induction false} WithoutMap<T, U>(f: T -> U, xs: seq<T>, k: nat)
    requires k < |xs|
    ensures Map(f, Without(xs, k)) == Without(Map(f, xs), k)
  {
  }

  /** Two lists with the same elements have images with the same elements. */
  lemma {:induction false} MapPermutation<T, U>(f: T -> U, xs: seq<T>, ys: seq<T>)
    requires multiset(xs) == multiset(ys)
    ensures multiset(Map(f, xs)) == multiset(Map(f, ys))
    decreases |xs|
  {
    SameMembers(xs, ys);
    if xs != [] {
      assert xs[0] in ys;
      var k :| 0 <= k < |ys| && ys[k] == xs[0];
      RemoveAt(xs, 0);
      RemoveAt(ys, k);
      MapPermutation(f, Without(xs, 0), Without(ys, k));
      WithoutMap(f, xs, 0);
      WithoutMap(f, ys, k);
      RemoveAt(Map(f, xs), 0);
      RemoveAt(Map(f, ys), k);
    }
  }

  lemma {:induction false} NoMembers<T>(xs: seq<T>)
    ensures (forall x :: x !in xs) <==> xs == []
  {
    assert |xs| > 0 ==> xs[0] in xs;
  }

  /** Two keyed lists with the same keys, each once, and the same value at each key hold the same values. */
  lemma {:induction false} MatchByKey<K, V>(ka: seq<K>, a: seq<V>, kb: seq<K>, b: seq<V>)
    requires |ka| == |a| && |kb| == |b| && NoDup(ka) && NoDup(kb)
    requires forall k :: k in ka <==> k in kb
    requires forall i, j :: 0 <= i < |ka| && 0 <= j < |kb| && ka[i] == kb[j] ==> a[i] == b[j]
    ensures multiset(a) == multiset(b)
    decreases |ka|
  {
    if ka == [] {
      NoMembers(kb);
    } else {
      assert ka[0] in kb;
      var j :| 0 <= j < |kb| && kb[j] == ka[0];
      OthersMatch(ka, kb, j);
      MatchByKey(ka[1..], a[1..], Without(kb, j), Without(b, j));
      Uncons(a);
      RemoveAt(b, j);
    }
  }

  lemma {:induction false} OthersMatch<K>(ka: seq<K>, kb: seq<K>, j: nat)
    requires ka != [] && j < |kb| && kb[j] == ka[0] && NoDup(ka) && NoDup(kb)
    requires forall k :: k in ka <==> k in kb
    ensures NoDup(ka[1..]) && NoDup(Without(kb, j))
    ensures forall k :: k in ka[1..] <==> k in Without(kb, j)
  {
    forall i | 0 <= i < |ka| - 1 ensures ka[1..][i] in Without(kb, j) {
      assert ka[i + 1] in ka;
      var m :| 0 <= m < |kb| && kb[m] == ka[i + 1];
      assert Without(kb, j)[if m < j then m else m - 1] == ka[i + 1];
    }
    forall m | 0 <= m < |kb| - 1 ensures Without(kb, j)[m] in ka[1..] {
      var k := Without(kb, j)[m];
      assert k == kb[if m < j then m else m + 1];
      assert k in kb;
      var i :| 0 <= i < |ka| && ka[i] == k;
      assert ka[1..][i - 1] == k;
    }
  }
}
