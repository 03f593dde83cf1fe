/** What the weight statistics are, told without sorting, and how they move with the sample. */
module WeightLaws {
  import opened Common
  import opened Sorting
  import opened Weight

  // ---- The median halves the sample ---------------------------------------------------------

  /** Two equally large halves: nothing in `low` above `a`, nothing in `high` below `b`. */
  ghost predicate Apart(low: seq<real>, a: real, b: real, high: seq<real>) {
    && |low| == |high| && a <= b
    && (forall x :: x in low ==> x <= a) && (forall x :: x in high ==> b <= x)
  }

  ghost predicate OddHalves(ws: seq<real>, low: seq<real>, m: real, high: seq<real>) {
    Apart(low, m, m, high) && multiset(ws) == multiset(low) + multiset{m} + multiset(high)
  }

  ghost predicate EvenHalves(ws: seq<real>, low: seq<real>, a: real, b: real, high: seq<real>) {
    a in low && b in high && Apart(low, a, b, high) && multiset(ws) == multiset(low) + multiset(high)
  }

  /** `m` is the one value between two equal halves, or lies midway between the largest
      of the lower half and the smallest of the upper. */
  ghost predicate Halves(ws: seq<real>, m: real) {
    || (exists low, high :: OddHalves(ws, low, m, high))
    || (exists low, high, a, b :: EvenHalves(ws, low, a, b, high) && m - a == b - m)
  }

  lemma {:induction false} SortedAgain(ws: seq<real>, s: seq<real>)
    requires multiset(ws) == multiset(s) && Sorted(s, Self)
    ensures SortBy(ws, Self) == s && |ws| == |s|
  {
    SortCorrect(ws, Self);
    SameMembers(ws, s);
    SortedUnique(SortBy(ws, Self), s, Self);
  }

  lemma {:induction false} MiddleOfOdd(ws: seq<real>, s: seq<real>, k: nat)
    requires SortBy(ws, Self) == s && |s| == 2 * k + 1
    ensures ws != [] && Median(ws) == s[k]
  {
  }

  lemma {:induction false} MiddleOfEven(ws: seq<real>, s: seq<real>, k: nat)
    requires SortBy(ws, Self) == s && |s| == 2 * k > 0
    ensures ws != [] && Median(ws) - s[k - 1] == s[k] - Median(ws)
  {
    assert |ws| / 2 == k && |ws| % 2 == 0;
  }

  lemma {:induction false} SortedJoin(xs: seq<real>, a: real, b: real, ys: seq<real>)
    requires Sorted(xs, Self) && Sorted(ys, Self) && a <= b
    requires (forall x :: x in xs ==> x <= a) && (forall y :: y in ys ==> b <= y)
    ensures Sorted(xs + ys, Self)
  {
    var s := xs + ys;
    forall i, j | 0 <= i < j < |s| ensures Self(s[i]) <= Self(s[j]) {
      if i < |xs| <= j {
        assert s[i] in xs && s[j] in ys;
      } else if j < |xs| {
        assert Self(xs[i]) <= Self(xs[j]);
      } else {
        assert Self(ys[i - |xs|]) <= Self(ys[j - |xs|]);
      }
    }
  }

  lemma {:induction false} SortedHalf(xs: seq<real>) returns (s: seq<real>)
    ensures Sorted(s, Self) && multiset(s) == multiset(xs) && |s| == |xs|
    ensures forall x :: x in s <==> x in xs
  {
    s := SortBy(xs, Self);
    SortCorrect(xs, Self);
    SameMembers(s, xs);
  }

  lemma {:induction false} BagJoin(xs: seq<real>, ys: seq<real>)
    ensures multiset(xs + ys) == multiset(xs) + multiset(ys)
  {
  }

  lemma {:induction false} OddMeans(ws: seq<real>, low: seq<real>, m: real, high: seq<real>)
    requires OddHalves(ws, low, m, high)
    ensures ws != [] && Median(ws) == m
  {
    var l := SortedHalf(low);
    var h := SortedHalf(high);
    SortedJoin([m], m, m, h);
    SortedJoin(l, m, m, [m] + h);
    BagJoin([m], h);
    BagJoin(l, [m] + h);
    SortedAgain(ws, l + ([m] + h));
    MiddleOfOdd(ws, l + ([m] + h), |l|);
  }

  lemma {:induction false} LastIsLargest(s: seq<real>, a: real)
    requires Sorted(s, Self) && a in s && forall x :: x in s ==> x <= a
    ensures s[|s| - 1] == a
  {
    var i :| 0 <= i < |s| && s[i] == a;
    assert s[|s| - 1] in s;
    assert i < |s| - 1 ==> Self(s[i]) <= Self(s[|s| - 1]);
  }

  lemma {:induction false} FirstIsSmallest(s: seq<real>, b: real)
    requires Sorted(s, Self) && b in s && forall x :: x in s ==> b <= x
    ensures s[0] == b
  {
    var i :| 0 <= i < |s| && s[i] == b;
    assert s[0] in s;
    assert 0 < i ==> Self(s[0]) <= Self(s[i]);
  }

  lemma {:induction false} EvenMeans(ws: seq<real>, low: seq<real>, a: real, b: real, high: seq<real>)
    requires EvenHalves(ws, low, a, b, high)
    ensures ws != [] && Median(ws) - a == b - Median(ws)
  {
    var l := SortedHalf(low);
    var h := SortedHalf(high);
    SortedJoin(l, a, b, h);
    BagJoin(l, h);
    SortedAgain(ws, l + h);
    LastIsLargest(l, a);
    FirstIsSmallest(h, b);
    assert (l + h)[|l| - 1] == a && (l + h)[|l|] == b;
    MiddleOfEven(ws, l + h, |l|);
  }

  lemma {:induction false} SplitApart(s: seq<real>, k: nat, n: nat)
    requires Sorted(s, Self) && k <= n && k + n == |s| && 0 < |s| && (k < n ==> n == k + 1)
    ensures k == n ==> Apart(s[..k], s[k - 1], s[k], s[k..]) && s[k - 1] in s[..k] && s[k] in s[k..]
    ensures k < n ==> Apart(s[..k], s[k], s[k], s[n..])
  {
    var top, bottom := if k == n then k - 1 else k, k;
    forall x | x in s[..k] ensures x <= s[top] {
      var i :| 0 <= i < k && s[i] == x;
      assert i < top ==> Self(s[i]) <= Self(s[top]);
    }
    forall x | x in s[n..] ensures s[bottom] <= x {
      var i :| n <= i < |s| && s[i] == x;
      assert bottom < i ==> Self(s[bottom]) <= Self(s[i]);
    }
    if k == n {
      assert s[..k][k - 1] == s[k - 1] && s[k..][0] == s[k];
      assert Self(s[k - 1]) <= Self(s[k]);
    }
  }

  lemma {:induction false} CutBag(s: seq<real>, k: nat)
    requires k <= |s|
    ensures multiset(s) == multiset(s[..k]) + multiset(s[k..])
    ensures k < |s| ==> multiset(s) == multiset(s[..k]) + multiset{s[k]} + multiset(s[k + 1..])
  {
    assert s == s[..k] + s[k..];
    if k < |s| {
      assert s[k..] == [s[k]] + s[k + 1..];
    }
  }

  lemma {:induction false} MedianInBetween(ws: seq<real>)
    requires ws != []
    ensures Halves(ws, Median(ws))
  {
    var s := SortedHalf(ws);
    SortedAgain(ws, s);
    var k := |s| / 2;
    SplitApart(s, k, |s| - k);
    CutBag(s, k);
    if |s| == 2 * k {
      MiddleOfEven(ws, s, k);
      assert EvenHalves(ws, s[..k], s[k - 1], s[k], s[k..]);
    } else {
      MiddleOfOdd(ws, s, k);
      assert OddHalves(ws, s[..k], s[k], s[k + 1..]);
    }
  }

  /** The median is the one value that halves the sample, whatever its size. */
  lemma {:induction false} MedianHalves(ws: seq<real>, m: real)
    requires ws != []
    ensures m == Median(ws) <==> Halves(ws, m)
  {
    MedianInBetween(ws);
    if Halves(ws, m) {
      if low, high :| OddHalves(ws, low, m, high) {
        OddMeans(ws, low, m, high);
      } else {
        var low, high, a, b :| EvenHalves(ws, low, a, b, high) && m - a == b - m;
        EvenMeans(ws, low, a, b, high);
      }
    }
  }

  // ---- Moving and reflecting the sample ---------------------------------------------------------

  /** The sample on another scale: shifted, or reflected and shifted. */
  function Moved(ws: seq<real>, flip: bool, d: real): (r: seq<real>)
    ensures |r| == |ws| && forall i :: 0 <= i < |r| ==> r[i] == At(ws[i], flip, d)
  {
    Map((w: real) => At(w, flip, d), ws)
  }

  function At(w: real, flip: bool, d: real): real { if flip then d - w else w + d }

  lemma {:induction false} MovedBag(ws: seq<real>, vs: seq<real>, flip: bool, d: real)
    requires multiset(ws) == multiset(vs)
    ensures multiset(Moved(ws, flip, d)) == multiset(Moved(vs, flip, d))
  {
    MapPermutation((w: real) => At(w, flip, d), ws, vs);
  }

  lemma {:induction false} MovedMember(ws: seq<real>, flip: bool, d: real, y: real)
    requires y in Moved(ws, flip, d)
    ensures exists x :: x in ws && y == At(x, flip, d)
  {
    var i :| 0 <= i < |ws| && Moved(ws, flip, d)[i] == y;
    assert ws[i] in ws;
  }

  lemma {:induction false} MovedIn(ws: seq<real>, flip: bool, d: real, x: real)
    requires x in ws
    ensures At(x, flip, d) in Moved(ws, flip, d)
  {
    var i :| 0 <= i < |ws| && ws[i] == x;
    assert Moved(ws, flip, d)[i] == At(x, flip, d);
  }

  lemma {:induction false} MovedApart(low: seq<real>, a: real, b: real, high: seq<real>, flip: bool, d: real)
    requires Apart(low, a, b, high)
    ensures var l, h := Moved(low, flip, d), Moved(high, flip, d);
      if flip then Apart(h, d - b, d - a, l) else Apart(l, a + d, b + d, h)
  {
    var l, h := Moved(low, flip, d), Moved(high, flip, d);
    forall y | y in l ensures if flip then d - a <= y else y <= a + d {
      MovedMember(low, flip, d, y);
    }
    forall y | y in h ensures if flip then y <= d - b else b + d <= y {
      MovedMember(high, flip, d, y);
    }
  }

  lemma {:induction false} MovedJoin(xs: seq<real>, ys: seq<real>, flip: bool, d: real)
    ensures multiset(Moved(xs + ys, flip, d)) == multiset(Moved(xs, flip, d)) + multiset(Moved(ys, flip, d))
  {
    MapConcat((w: real) => At(w, flip, d), xs, ys);
  }

  lemma {:induction false} MovedOdd(ws: seq<real>, low: seq<real>, m: real, high: seq<real>, flip: bool, d: real)
    requires OddHalves(ws, low, m, high)
    ensures Halves(Moved(ws, flip, d), At(m, flip, d))
  {
    var l, h := Moved(low, flip, d), Moved(high, flip, d);
    BagJoin([m], high);
    BagJoin(low, [m] + high);
    MovedBag(ws, low + ([m] + high), flip, d);
    MovedJoin([m], high, flip, d);
    MovedJoin(low, [m] + high, flip, d);
    assert Moved([m], flip, d) == [At(m, flip, d)];
    MovedApart(low, m, m, high, flip, d);
    assert if flip then OddHalves(Moved(ws, flip, d), h, At(m, flip, d), l)
      else OddHalves(Moved(ws, flip, d), l, At(m, flip, d), h);
  }

  lemma {:induction false} MovedEven(ws: seq<real>, low: seq<real>, a: real, b: real, high: seq<real>, m: real, flip: bool, d: real)
    requires EvenHalves(ws, low, a, b, high) && m - a == b - m
    ensures Halves(Moved(ws, flip, d), At(m, flip, d))
  {
    var l, h := Moved(low, flip, d), Moved(high, flip, d);
    BagJoin(low, high);
    MovedBag(ws, low + high, flip, d);
    MovedJoin(low, high, flip, d);
    MovedApart(low, a, b, high, flip, d);
    MovedIn(low, flip, d, a);
    MovedIn(high, flip, d, b);
    if flip {
      assert EvenHalves(Moved(ws, flip, d), h, d - b, d - a, l);
    } else {
      assert EvenHalves(Moved(ws, flip, d), l, a + d, b + d, h);
    }
  }

  /** The median moves with the sample: shifted by what shifts it, reflected by what reflects it. */
  lemma {:induction false} MedianMoves(ws: seq<real>, flip: bool, d: real)
    requires ws != []
    ensures Median(Moved(ws, flip, d)) == At(Median(ws), flip, d)
  {
    var m := Median(ws);
    MedianInBetween(ws);
    if low, high :| OddHalves(ws, low, m, high) {
      MovedOdd(ws, low, m, high, flip, d);
    } else {
      var low, high, a, b :| EvenHalves(ws, low, a, b, high) && m - a == b - m;
      MovedEven(ws, low, a, b, high, m, flip, d);
    }
    MedianHalves(Moved(ws, flip, d), At(m, flip, d));
  }

  lemma {:induction false} DeviationsStay(ws: seq<real>, m: real, flip: bool, d: real)
    ensures Deviations(Moved(ws, flip, d), At(m, flip, d)) == Deviations(ws, m)
  {
  }

  lemma {:induction false} MadMoves(ws: seq<real>, flip: bool, d: real)
    requires ws != []
    ensures Mad(Moved(ws, flip, d)) == Mad(ws)
  {
    MedianMoves(ws, flip, d);
    DeviationsStay(ws, Median(ws), flip, d);
  }

  lemma {:induction false} KeptMoves(ws: seq<real>, m: real, t: real, flip: bool, d: real)
    ensures Kept(Moved(ws, flip, d), At(m, flip, d), t) == Moved(Kept(ws, m, t), flip, d)
    decreases |ws|
  {
    if ws != [] {
      KeptMoves(ws[1..], m, t, flip, d);
      assert Moved(ws, flip, d)[1..] == Moved(ws[1..], flip, d);
      assert Moved(ws, flip, d)[0] == At(ws[0], flip, d);
    }
  }

  lemma {:induction false} TrimmedMoves(ws: seq<real>, flip: bool, d: real)
    requires ws != []
    ensures Trimmed(Moved(ws, flip, d)) == Moved(Trimmed(ws), flip, d)
  {
    MedianMoves(ws, flip, d);
    MadMoves(ws, flip, d);
    KeptMoves(ws, Median(ws), Threshold(ws), flip, d);
  }

  /** The observations the report is about. */
  function Used(ws: seq<real>): seq<real> { if |ws| >= 4 then Trimmed(ws) else ws }

  lemma {:induction false} StatsOfUsed(ws: seq<real>)
    requires ws != []
    ensures Used(ws) != [] && Stats(ws) == Some(WeightStats(Median(Used(ws)), Mad(Used(ws)), |ws|))
  {
    if |ws| >= 4 {
      GuardNeverFails(ws);
    }
  }

  lemma {:induction false} UsedMoves(ws: seq<real>, flip: bool, d: real)
    ensures Used(Moved(ws, flip, d)) == Moved(Used(ws), flip, d)
  {
    if |ws| >= 4 {
      TrimmedMoves(ws, flip, d);
    }
  }

  /** So do the reported statistics, and the spread stays as it is. */
  lemma {:induction false} StatsMove(ws: seq<real>, flip: bool, d: real)
    requires ws != []
    ensures Stats(ws).Some?
    ensures var s := Stats(ws).value;
      Stats(Moved(ws, flip, d)) == Some(WeightStats(At(s.median, flip, d), s.spread, s.n))
  {
    var used, vs := Used(ws), Moved(ws, flip, d);
    StatsOfUsed(ws);
    StatsOfUsed(vs);
    UsedMoves(ws, flip, d);
    MedianMoves(used, flip, d);
    MadMoves(used, flip, d);
  }

  // ---- The statistics, told from outside --------------------------------------------------------

  /** How far each observation lies from `m`. */
  ghost predicate Distances(ws: seq<real>, m: real, ds: seq<real>) {
    |ds| == |ws| && forall i :: 0 <= i < |ws| ==> ds[i] >= 0.0 && (ds[i] == ws[i] - m || ds[i] == m - ws[i])
  }

  /** `m` halves the sample, and `d` halves the distances from it. */
  ghost predicate Summary(ws: seq<real>, m: real, d: real) {
    Halves(ws, m) && exists ds :: Distances(ws, m, ds) && Halves(ds, d)
  }

  lemma {:induction false} OneDistances(ws: seq<real>, m: real, ds: seq<real>)
    requires Distances(ws, m, ds)
    ensures ds == Deviations(ws, m)
  {
  }

  lemma {:induction false} SummaryExactly(ws: seq<real>, m: real, d: real)
    requires ws != []
    ensures Summary(ws, m, d) <==> m == Median(ws) && d == Mad(ws)
  {
    MedianHalves(ws, m);
    var deviations := Deviations(ws, Median(ws));
    MedianHalves(deviations, d);
    assert Distances(ws, Median(ws), deviations);
    if Summary(ws, m, d) {
      var ds :| Distances(ws, m, ds) && Halves(ds, d);
      OneDistances(ws, m, ds);
    }
  }

  /** The observations no further than 300 g, or four spreads, from the middle, each as often as it was made. */
  ghost predicate Near(ws: seq<real>, m: real, d: real, near: seq<real>) {
    forall x :: multiset(near)[x] == if -300.0 <= x - m <= 300.0 || -4.0 * d <= x - m <= 4.0 * d then multiset(ws)[x] else 0
  }

  /** What is reported: of up to three observations their own summary, of more the summary
      of those near the middle of all, and always how many there were. */
  lemma {:induction false} StatsExactly(ws: seq<real>, s: WeightStats)
    ensures Stats(ws) == Some(s) <==>
      && ws != [] && s.n == |ws|
      && (|ws| <= 3 ==> Summary(ws, s.median, s.spread))
      && (|ws| >= 4 ==> exists m, d, near :: Summary(ws, m, d) && Near(ws, m, d, near) && Summary(near, s.median, s.spread))
  {
    if 1 <= |ws| <= 3 {
      SummaryExactly(ws, s.median, s.spread);
    } else if |ws| >= 4 {
      TrimmedIsReported(ws, s);
    }
  }

  lemma {:induction false} TrimmedIsReported(ws: seq<real>, s: WeightStats)
    requires |ws| >= 4
    ensures Stats(ws) == Some(s) <==>
      s.n == |ws| && exists m, d, near :: Summary(ws, m, d) && Near(ws, m, d, near) && Summary(near, s.median, s.spread)
  {
    GuardNeverFails(ws);
    var trimmed := Trimmed(ws);
    SummaryExactly(ws, Median(ws), Mad(ws));
    TrimmedNear(ws, trimmed);
    SummaryExactly(trimmed, s.median, s.spread);
    forall m, d, near | Summary(ws, m, d) && Near(ws, m, d, near) && Summary(near, s.median, s.spread)
      ensures Summary(trimmed, s.median, s.spread)
    {
      SummaryExactly(ws, m, d);
      TrimmedNear(ws, near);
      SameSummary(near, trimmed, s.median, s.spread);
    }
  }

  lemma {:induction false} TrimmedNear(ws: seq<real>, near: seq<real>)
    requires ws != []
    ensures Near(ws, Median(ws), Mad(ws), near) <==> multiset(near) == multiset(Trimmed(ws))
  {
    forall x ensures multiset(Trimmed(ws))[x] ==
      if -300.0 <= x - Median(ws) <= 300.0 || -4.0 * Mad(ws) <= x - Median(ws) <= 4.0 * Mad(ws) then multiset(ws)[x] else 0
    {
      KeptCounts(ws, Median(ws), Threshold(ws), x);
    }
  }

  lemma {:induction false} SameSummary(ws: seq<real>, vs: seq<real>, m: real, d: real)
    requires multiset(ws) == multiset(vs) && vs != [] && Summary(ws, m, d)
    ensures Summary(vs, m, d)
  {
    SameMembers(ws, vs);
    BothSame(vs, ws);
    SummaryExactly(ws, m, d);
    SummaryExactly(vs, m, d);
  }

  /** A weight is corroborated by five observations or more whose reported median differs
      from it by at most 100 g, or by at most 8 per cent of it. */
  lemma {:induction false} CorroboratedExactly(weight: real, ws: seq<real>)
    ensures Corroborated(weight, ws) <==>
      |ws| >= 5 && exists s ::
        && Stats(ws) == Some(s)
        && (-100.0 <= s.median - weight <= 100.0 || -0.08 * weight <= s.median - weight <= 0.08 * weight)
  {
    if |ws| >= 5 {
      assert Stats(ws) == Some(Stats(ws).value);
    }
  }
}
