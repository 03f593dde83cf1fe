/** Robust weight statistics: median and MAD, one trimming pass, and the grade they decide. */
module Weight {
  import opened Common
  import opened Sorting

  const REL_TOLERANCE: real := 0.08
  const ABS_FLOOR_G: real := 100.0
  const MIN_CORROBORATING_SAMPLES: nat := 5
  const OUTLIER_MAD_MULTIPLE: real := 4.0
  const OUTLIER_FLOOR_G: real := 300.0
  const MIN_SAMPLES_TO_TRIM: nat := 4

  datatype WeightStats = WeightStats(median: real, spread: real, n: nat)

  function Max(a: real, b: real): real { if a < b then b else a }

  function Distance(a: real, b: real): real { if a < b then b - a else a - b }

  function Self(x: real): real { x }

  /** The middle value, or the mean of the two middle values. */
  function Median(ws: seq<real>): real
    requires ws != []
  {
    var s, n := SortBy(ws, Self), |ws|;
    if n % 2 == 1 then s[n / 2] else (s[n / 2 - 1] + s[n / 2]) / 2.0
  }

  function Deviations(ws: seq<real>, m: real): (r: seq<real>)
    ensures |r| == |ws| && forall i :: 0 <= i < |r| ==> r[i] == Distance(ws[i], m)
  {
    seq(|ws|, i requires 0 <= i < |ws| => Distance(ws[i], m))
  }

  /** The median absolute deviation. */
  function Mad(ws: seq<real>): real
    requires ws != []
  {
    Median(Deviations(ws, Median(ws)))
  }

  /** The observations within `t` of `m`, in order. */
  function Kept(ws: seq<real>, m: real, t: real): seq<real>
    decreases |ws|
  {
    if ws == [] then [] else
      var rest := Kept(ws[1..], m, t);
      if Distance(ws[0], m) <= t then [ws[0]] + rest else rest
  }

  function Threshold(ws: seq<real>): real
    requires ws != []
  {
    Max(OUTLIER_FLOOR_G, OUTLIER_MAD_MULTIPLE * Mad(ws))
  }

  function Trimmed(ws: seq<real>): seq<real>
    requires ws != []
  {
    Kept(ws, Median(ws), Threshold(ws))
  }

  function Stats(ws: seq<real>): Option<WeightStats> {
    if ws == [] then None
    else if |ws| >= MIN_SAMPLES_TO_TRIM && |Trimmed(ws)| >= (if |ws| / 2 < 3 then 3 else |ws| / 2) then
      Some(WeightStats(Median(Trimmed(ws)), Mad(Trimmed(ws)), |ws|))
    else Some(WeightStats(Median(ws), Mad(ws), |ws|))
  }

  function Band(weight: real): (real, real) {
    var tol := Max(ABS_FLOOR_G, REL_TOLERANCE * weight);
    (weight - tol, weight + tol)
  }

  predicate Corroborated(weight: real, confirmed: seq<real>) {
    |confirmed| >= MIN_CORROBORATING_SAMPLES
    && Band(weight).0 <= Stats(confirmed).value.median <= Band(weight).1
  }

  // ---- Counting --------------------------------------------------------------------

  /** How many values lie in the closed interval. */
  function Inside(ws: seq<real>, a: real, b: real): (c: nat)
    ensures c <= |ws|
    decreases |ws|
  {
    if ws == [] then 0 else (if a <= ws[0] <= b then 1 else 0) + Inside(ws[1..], a, b)
  }

  lemma {:induction false} InsideWithout(ws: seq<real>, k: nat, a: real, b: real)
    requires k < |ws|
    ensures Inside(ws, a, b) == Inside(Without(ws, k), a, b) + if a <= ws[k] <= b then 1 else 0
    decreases |ws|
  {
    if k == 0 {
      assert Without(ws, 0) == ws[1..];
    } else {
      WithoutLater(ws, k);
      InsideWithout(ws[1..], k - 1, a, b);
    }
  }

  lemma {:induction false} InsidePermutation(ws: seq<real>, vs: seq<real>, a: real, b: real)
    requires multiset(ws) == multiset(vs)
    ensures Inside(ws, a, b) == Inside(vs, a, b)
    decreases |ws|
  {
    SameMembers(ws, vs);
    if ws != [] {
      assert ws[0] in vs;
      var k :| 0 <= k < |vs| && vs[k] == ws[0];
      RemoveAt(ws, 0);
      RemoveAt(vs, k);
      InsidePermutation(Without(ws, 0), Without(vs, k), a, b);
      InsideWithout(ws, 0, a, b);
      InsideWithout(vs, k, a, b);
    }
  }

  lemma {:induction false} InsideSorted(ws: seq<real>, a: real, b: real)
    ensures Inside(SortBy(ws, Self), a, b) == Inside(ws, a, b)
  {
    SortCorrect(ws, Self);
    InsidePermutation(SortBy(ws, Self), ws, a, b);
  }

  lemma {:induction false} InsideSplit(xs: seq<real>, ys: seq<real>, a: real, b: real)
    ensures Inside(xs + ys, a, b) == Inside(xs, a, b) + Inside(ys, a, b)
    decreases |xs|
  {
    if xs == [] {
      assert xs + ys == ys;
    } else {
      assert (xs + ys)[1..] == xs[1..] + ys;
      InsideSplit(xs[1..], ys, a, b);
    }
  }

  lemma {:induction false} AllInside(xs: seq<real>, a: real, b: real)
    requires forall i :: 0 <= i < |xs| ==> a <= xs[i] <= b
    ensures Inside(xs, a, b) == |xs|
    decreases |xs|
  {
    if xs != [] {
      AllInside(xs[1..], a, b);
    }
  }

  lemma {:induction false} NoneInside(xs: seq<real>, a: real, b: real)
    requires forall i :: 0 <= i < |xs| ==> !(a <= xs[i] <= b)
    ensures Inside(xs, a, b) == 0
    decreases |xs|
  {
    if xs != [] {
      NoneInside(xs[1..], a, b);
    }
  }

  // ---- The trimming pass keeps a majority --------------------------------------------

  lemma {:induction false} KeptCount(ws: seq<real>, m: real, t: real)
    ensures |Kept(ws, m, t)| == Inside(Deviations(ws, m), 0.0, t)
    decreases |ws|
  {
    if ws != [] {
      KeptCount(ws[1..], m, t);
      assert Deviations(ws, m)[1..] == Deviations(ws[1..], m);
    }
  }

  lemma {:induction false} LowerHalfBelow(s: seq<real>, t: real)
    requires Sorted(s, Self) && s != [] && (forall i :: 0 <= i < |s| ==> s[i] >= 0.0) && s[|s| / 2] <= t
    ensures Inside(s, 0.0, t) >= |s| / 2 + 1
  {
    var k := |s| / 2 + 1;
    forall i | 0 <= i < k ensures 0.0 <= s[i] <= t {
      assert i < |s| / 2 ==> Self(s[i]) <= Self(s[|s| / 2]);
    }
    AllInside(s[..k], 0.0, t);
    assert s == s[..k] + s[k..];
    InsideSplit(s[..k], s[k..], 0.0, t);
  }

  /** Of non-negative values, more than half are at most twice their median. */
  lemma {:induction false} MajorityBelow(ds: seq<real>, t: real)
    requires ds != [] && (forall i :: 0 <= i < |ds| ==> ds[i] >= 0.0) && t >= 2.0 * Median(ds)
    ensures Inside(ds, 0.0, t) >= |ds| / 2 + 1
  {
    var s := SortBy(ds, Self);
    SortCorrect(ds, Self);
    SortKeeps(ds, Self);
    forall i | 0 <= i < |s| ensures s[i] >= 0.0 {
      assert s[i] in s;
    }
    LowerHalfBelow(s, t);
    InsideSorted(ds, 0.0, t);
  }

  lemma {:induction false} MedianNonNegative(ds: seq<real>)
    requires ds != [] && forall i :: 0 <= i < |ds| ==> ds[i] >= 0.0
    ensures Median(ds) >= 0.0
  {
    SortKeeps(ds, Self);
    var s := SortBy(ds, Self);
    forall i | 0 <= i < |s| ensures s[i] >= 0.0 {
      assert s[i] in s;
    }
  }

  /** Trimming always keeps more than half of the sample. */
  lemma {:induction false} TrimKeepsMajority(ws: seq<real>)
    requires ws != []
    ensures |Trimmed(ws)| >= |ws| / 2 + 1
  {
    var ds := Deviations(ws, Median(ws));
    MedianNonNegative(ds);
    KeptCount(ws, Median(ws), Threshold(ws));
    MajorityBelow(ds, Threshold(ws));
  }

  /** So the guard against a razor-thin remainder never fires: from four samples
      on, the reported statistics are always those of the trimmed sample. */
  lemma {:induction false} GuardNeverFails(ws: seq<real>)
    requires |ws| >= MIN_SAMPLES_TO_TRIM
    ensures |Trimmed(ws)| >= (if |ws| / 2 < 3 then 3 else |ws| / 2)
    ensures Trimmed(ws) != []
    ensures Stats(ws) == Some(WeightStats(Median(Trimmed(ws)), Mad(Trimmed(ws)), |ws|))
  {
    TrimKeepsMajority(ws);
  }

  // ---- A majority decides the median ----------------------------------------------------

  ghost predicate Majority(ws: seq<real>, a: real, b: real) { 2 * Inside(ws, a, b) > |ws| }

  /** With `k` values below the interval, the others bound how many are inside. */
  lemma {:induction false} BelowOutside(s: seq<real>, k: nat, a: real, b: real)
    requires k <= |s| && forall i :: 0 <= i < k ==> s[i] < a
    ensures Inside(s, a, b) <= |s| - k
  {
    NoneInside(s[..k], a, b);
    assert s == s[..k] + s[k..];
    InsideSplit(s[..k], s[k..], a, b);
  }

  lemma {:induction false} AboveOutside(s: seq<real>, k: nat, a: real, b: real)
    requires k <= |s| && forall i :: k <= i < |s| ==> s[i] > b
    ensures Inside(s, a, b) <= k
  {
    NoneInside(s[k..], a, b);
    assert s == s[..k] + s[k..];
    InsideSplit(s[..k], s[k..], a, b);
  }

  lemma {:induction false} MiddleInside(s: seq<real>, a: real, b: real)
    requires Sorted(s, Self) && Majority(s, a, b)
    ensures s != [] && a <= s[(|s| - 1) / 2] <= s[|s| / 2] <= b
  {
    var lo, hi := (|s| - 1) / 2, |s| / 2;
    assert forall i :: 0 <= i <= lo ==> Self(s[i]) <= Self(s[lo]);
    assert forall i :: hi <= i < |s| ==> Self(s[hi]) <= Self(s[i]);
    assert Self(s[lo]) <= Self(s[hi]);
    if s[lo] < a {
      BelowOutside(s, lo + 1, a, b);
    }
    if s[hi] > b {
      AboveOutside(s, hi, a, b);
    }
  }

  lemma {:induction false} MiddleMean(s: seq<real>, n: nat, a: real, b: real)
    requires n == |s| > 0 && a <= s[(n - 1) / 2] <= s[n / 2] <= b
    ensures a <= (if n % 2 == 1 then s[n / 2] else (s[n / 2 - 1] + s[n / 2]) / 2.0) <= b
  {
    assert n % 2 == 0 ==> (n - 1) / 2 == n / 2 - 1;
  }

  lemma {:induction false} MedianInMajority(ws: seq<real>, a: real, b: real)
    requires Majority(ws, a, b)
    ensures ws != [] && a <= Median(ws) <= b
  {
    SortCorrect(ws, Self);
    InsideSorted(ws, a, b);
    MiddleInside(SortBy(ws, Self), a, b);
    MiddleMean(SortBy(ws, Self), |ws|, a, b);
  }

  lemma {:induction false} KeptInside(ws: seq<real>, m: real, t: real, a: real, b: real)
    requires a <= m <= b && b - a <= t
    ensures Inside(Kept(ws, m, t), a, b) == Inside(ws, a, b) && |Kept(ws, m, t)| <= |ws|
    decreases |ws|
  {
    if ws != [] {
      KeptInside(ws[1..], m, t, a, b);
      if Distance(ws[0], m) <= t {
        assert Kept(ws, m, t)[1..] == Kept(ws[1..], m, t);
      }
    }
  }

  /** If more than half the sample lies in an interval no wider than 300 g, the
      median lies in it before trimming and the reported one after. */
  lemma {:induction false} ReportedInMajority(ws: seq<real>, a: real, b: real)
    requires Majority(ws, a, b) && b - a <= OUTLIER_FLOOR_G
    ensures Stats(ws).Some? && a <= Stats(ws).value.median <= b && a <= Median(ws) <= b
  {
    MedianInMajority(ws, a, b);
    if |ws| >= MIN_SAMPLES_TO_TRIM {
      GuardNeverFails(ws);
      KeptInside(ws, Median(ws), Threshold(ws), a, b);
      MedianInMajority(Trimmed(ws), a, b);
    }
  }

  /** Outliers cannot talk a profile out of its grade, nor into it: a majority in
      a narrow interval inside the band corroborates as soon as there are five
      samples, and one outside it refutes. */
  lemma {:induction false} MajorityDecides(weight: real, ws: seq<real>, a: real, b: real)
    requires Majority(ws, a, b) && b - a <= OUTLIER_FLOOR_G
    ensures Band(weight).0 <= a && b <= Band(weight).1 ==> (Corroborated(weight, ws) <==> |ws| >= 5)
    ensures b < Band(weight).0 || Band(weight).1 < a ==> !Corroborated(weight, ws)
  {
    ReportedInMajority(ws, a, b);
  }

  // ---- The order of the observations does not matter ---------------------------------------

  lemma {:induction false} MedianPermutation(ws: seq<real>, vs: seq<real>)
    requires multiset(ws) == multiset(vs) && ws != []
    ensures vs != [] && Median(ws) == Median(vs)
  {
    SameMembers(ws, vs);
    SortIgnoresOrder(ws, vs, Self);
  }

  lemma {:induction false} MadPermutation(ws: seq<real>, vs: seq<real>)
    requires multiset(ws) == multiset(vs) && ws != []
    ensures vs != [] && Mad(ws) == Mad(vs)
  {
    MedianPermutation(ws, vs);
    var m := Median(ws);
    var f := (w: real) => Distance(w, m);
    assert Deviations(ws, m) == Map(f, ws) && Deviations(vs, m) == Map(f, vs);
    MapPermutation(f, ws, vs);
    MedianPermutation(Deviations(ws, m), Deviations(vs, m));
  }

  lemma {:induction false} KeptCounts(ws: seq<real>, m: real, t: real, x: real)
    ensures multiset(Kept(ws, m, t))[x] == if Distance(x, m) <= t then multiset(ws)[x] else 0
    decreases |ws|
  {
    if ws != [] {
      KeptCounts(ws[1..], m, t, x);
      Uncons(ws);
    }
  }

  lemma {:induction false} KeptSame(ws: seq<real>, vs: seq<real>, m: real, t: real)
    requires multiset(ws) == multiset(vs)
    ensures multiset(Kept(ws, m, t)) == multiset(Kept(vs, m, t))
  {
    forall x ensures multiset(Kept(ws, m, t))[x] == multiset(Kept(vs, m, t))[x] {
      KeptCounts(ws, m, t, x);
      KeptCounts(vs, m, t, x);
    }
  }

  lemma {:induction false} TrimmedSame(ws: seq<real>, vs: seq<real>)
    requires multiset(ws) == multiset(vs) && ws != []
    ensures vs != [] && multiset(Trimmed(ws)) == multiset(Trimmed(vs))
  {
    SameMembers(ws, vs);
    MedianPermutation(ws, vs);
    MadPermutation(ws, vs);
    KeptSame(ws, vs, Median(ws), Threshold(ws));
  }

  lemma {:induction false} BothSame(ws: seq<real>, vs: seq<real>)
    requires multiset(ws) == multiset(vs) && ws != []
    ensures |ws| == |vs| && vs != [] && Median(ws) == Median(vs) && Mad(ws) == Mad(vs)
  {
    SameMembers(ws, vs);
    MedianPermutation(ws, vs);
    MadPermutation(ws, vs);
  }

  /** The statistics depend on the observations, not on their order. */
  lemma {:induction false} StatsIgnoreOrder(ws: seq<real>, vs: seq<real>)
    requires multiset(ws) == multiset(vs)
    ensures Stats(ws) == Stats(vs)
  {
    SameMembers(ws, vs);
    if ws != [] {
      BothSame(ws, vs);
      TrimmedSame(ws, vs);
      SameMembers(Trimmed(ws), Trimmed(vs));
      if Trimmed(ws) != [] {
        BothSame(Trimmed(ws), Trimmed(vs));
      }
    }
  }
}
