/** Size and age eviction in one pass from the oldest entry, and the directory sweep with its floor. */
module Retention {
  import opened Common
  import opened Sorting

  datatype Entry = Entry(size: nat, created: Option<real>)

  /** A cap that is not set is None. */
  datatype Caps = Caps(maxBytes: Option<nat>, maxAge: Option<real>, now: real)

  function Total(es: seq<Entry>, k: nat): nat
    requires k <= |es|
  {
    if k == 0 then 0 else Total(es, k - 1) + es[k - 1].size
  }

  predicate OverAge(c: Caps, e: Entry) {
    c.maxAge.Some? && e.created.Some? && c.now - e.created.value > c.maxAge.value
  }

  predicate OverSize(c: Caps, total: int) { c.maxBytes.Some? && total > c.maxBytes.value }

  // ---- The rule, entry by entry ---------------------------------------------------

  /** The bytes left once the entries from `i` on were considered, oldest first. */
  function Left(c: Caps, es: seq<Entry>, i: nat): int
    requires i <= |es|
    decreases |es| - i
  {
    if i == |es| then Total(es, |es|) else
      var left := Left(c, es, i + 1);
      if OverSize(c, left) || OverAge(c, es[i]) then left - es[i].size else left
  }

  predicate Expires(c: Caps, es: seq<Entry>, i: nat)
    requires i < |es|
  {
    OverSize(c, Left(c, es, i + 1)) || OverAge(c, es[i])
  }

  /** The items at the expiring positions from `i` on, oldest first. */
  function ExpiredFrom<T>(c: Caps, es: seq<Entry>, items: seq<T>, i: nat): seq<T>
    requires i <= |es| == |items|
    decreases |es| - i
  {
    if i == |es| then [] else
      ExpiredFrom(c, es, items, i + 1) + if Expires(c, es, i) then [items[i]] else []
  }

  /** One pass over the entries in reverse. */
  method SelectExpired<T>(c: Caps, es: seq<Entry>, items: seq<T>) returns (expired: seq<T>, freed: int)
    requires |es| == |items|
    ensures expired == ExpiredFrom(c, es, items, 0)
    ensures freed == Total(es, |es|) - Left(c, es, 0)
  {
    var total: int := 0;
    for k := 0 to |es|
      invariant total == Total(es, k)
    {
      total := total + es[k].size;
    }
    expired, freed := [], 0;
    var i: nat := |es|;
    while i > 0
      invariant i <= |es|
      invariant total == Left(c, es, i)
      invariant expired == ExpiredFrom(c, es, items, i)
      invariant freed == Total(es, |es|) - total
    {
      i := i - 1;
      var overSize := c.maxBytes.Some? && total > c.maxBytes.value;
      var overAge := c.maxAge.Some? && es[i].created.Some? && c.now - es[i].created.value > c.maxAge.value;
      if overSize || overAge {
        expired := expired + [items[i]];
        total := total - es[i].size;
        freed := freed + es[i].size;
      }
    }
  }

  // ---- What the rule achieves -------------------------------------------------------

  /** The `k` newest entries satisfy both caps. */
  ghost predicate Fits(c: Caps, es: seq<Entry>, k: nat)
    requires k <= |es|
  {
    && (c.maxBytes.Some? ==> Total(es, k) <= c.maxBytes.value)
    && forall j :: 0 <= j < k && c.maxAge.Some? && es[j].created.Some? ==> c.now - es[j].created.value <= c.maxAge.value
  }

  ghost predicate NewestFirst(es: seq<Entry>) {
    && (forall i :: 0 <= i < |es| ==> es[i].created.Some?)
    && forall i, j :: 0 <= i < j < |es| ==> es[i].created.value >= es[j].created.value
  }

  /** The longest newest part that satisfies both caps. */
  ghost function Cut(c: Caps, es: seq<Entry>, n: nat): (k: nat)
    requires n <= |es|
    ensures k <= n && Fits(c, es, k) && forall j :: k < j <= n ==> !Fits(c, es, j)
  {
    if Fits(c, es, n) then n else
      assert n > 0 by { assert Fits(c, es, 0); }
      Cut(c, es, n - 1)
  }

  /** A list's size is that of its parts. */
  lemma {:induction false} TotalAdds(a: seq<Entry>, b: seq<Entry>, k: nat)
    requires k <= |b|
    ensures Total(a + b, |a| + k) == Total(a, |a|) + Total(b, k)
    ensures |a| == 1 ==> Total(a, |a|) == a[0].size
    decreases k
  {
    if k == 0 {
      TotalPrefix(a, b, |a|);
    } else {
      TotalAdds(a, b, k - 1);
    }
  }

  lemma {:induction false} TotalPrefix(a: seq<Entry>, b: seq<Entry>, k: nat)
    requires k <= |a|
    ensures Total(a + b, k) == Total(a, k)
    decreases k
  {
    if k != 0 {
      TotalPrefix(a, b, k - 1);
    }
  }

  /** Everything older than the cut goes, and nothing else. */
  lemma {:induction false} ExpiresBeyondCut(c: Caps, es: seq<Entry>, i: nat)
    requires NewestFirst(es) && i <= |es|
    ensures var k := Cut(c, es, |es|); Left(c, es, i) == Total(es, if i < k then k else i)
    ensures i < |es| ==> (Expires(c, es, i) <==> i >= Cut(c, es, |es|))
    decreases |es| - i
  {
    var k := Cut(c, es, |es|);
    if i < |es| {
      ExpiresBeyondCut(c, es, i + 1);
      if i >= k {
        assert !Fits(c, es, i + 1);
        if !OverSize(c, Total(es, i + 1)) {
          var j :| 0 <= j < i + 1 && OverAge(c, es[j]);
          assert j < i ==> es[j].created.value >= es[i].created.value;
        }
      }
    }
  }

  /** Exactly the shortest oldest part whose removal satisfies both caps expires,
      and what is freed is its size. */
  lemma {:induction false} OptimalEviction<T>(c: Caps, es: seq<Entry>, items: seq<T>)
    requires NewestFirst(es) && |items| == |es|
    ensures var k := Cut(c, es, |es|);
      && Fits(c, es, k) && (forall j :: k < j <= |es| ==> !Fits(c, es, j))
      && ExpiredFrom(c, es, items, 0) == Backwards(items[k..])
      && Total(es, |es|) - Left(c, es, 0) == Total(es, |es|) - Total(es, k)
  {
    ExpiresBeyondCut(c, es, 0);
    ExpiredIsTail(c, es, items, 0);
    var k := Cut(c, es, |es|);
  }

  function Backwards<T>(xs: seq<T>): (r: seq<T>)
    ensures |r| == |xs| && forall i :: 0 <= i < |r| ==> r[i] == xs[|xs| - 1 - i]
  {
    seq(|xs|, i requires 0 <= i < |xs| => xs[|xs| - 1 - i])
  }

  lemma {:induction false} ExpiredIsTail<T>(c: Caps, es: seq<Entry>, items: seq<T>, i: nat)
    requires NewestFirst(es) && |items| == |es| && i <= |es|
    ensures var k := Cut(c, es, |es|); ExpiredFrom(c, es, items, i) == Backwards(items[if i < k then k else i..])
    decreases |es| - i
  {
    var k := Cut(c, es, |es|);
    if i < |es| {
      ExpiredIsTail(c, es, items, i + 1);
      ExpiresBeyondCut(c, es, i);
      if i >= k {
        assert Backwards(items[i..]) == Backwards(items[i + 1..]) + [items[i]];
      }
    }
  }

  // ---- Undated entries ------------------------------------------------------------------

  /** Newest first as far as the entries are dated. */
  ghost predicate DatedNewestFirst(es: seq<Entry>) {
    forall i, j :: 0 <= i < j < |es| && es[i].created.Some? && es[j].created.Some? ==>
      es[i].created.value >= es[j].created.value
  }

  /** What expires is an oldest part: nothing newer expires while something older stays. */
  ghost predicate ExpiresOldest(c: Caps, es: seq<Entry>) {
    forall i, j :: 0 <= i < j < |es| && Expires(c, es, i) ==> Expires(c, es, j)
  }

  /** An undated entry that the size cap does not claim stands behind an over-age one. */
  ghost predicate UndatedSpared(c: Caps, es: seq<Entry>) {
    exists i, j :: 0 <= i < j < |es| && es[j].created.None?
      && c.maxAge.Some? && es[i].created.Some? && c.now - es[i].created.value > c.maxAge.value
      && (c.maxBytes.Some? ==> Left(c, es, j + 1) <= c.maxBytes.value)
  }

  lemma {:induction false} LeftShrinks(c: Caps, es: seq<Entry>, i: nat, j: nat)
    requires i <= j <= |es|
    ensures Left(c, es, i) <= Left(c, es, j)
    decreases j - i
  {
    if i < j {
      LeftShrinks(c, es, i + 1, j);
    }
  }

  /** With undated entries among them the entries that expire are an oldest part if and
      only if no undated entry within the size cap stands behind an over-age one. */
  lemma {:induction false} UndatedBreakCut(c: Caps, es: seq<Entry>)
    requires DatedNewestFirst(es)
    ensures ExpiresOldest(c, es) <==> !UndatedSpared(c, es)
  {
    if UndatedSpared(c, es) {
      var i, j :| 0 <= i < j < |es| && es[j].created.None? && OverAge(c, es[i]) && !OverSize(c, Left(c, es, j + 1));
      assert Expires(c, es, i) && !Expires(c, es, j);
    } else {
      forall i, j | 0 <= i < j < |es| && Expires(c, es, i) ensures Expires(c, es, j) {
        LeftShrinks(c, es, i + 1, j + 1);
        assert es[i].created.Some? && es[j].created.Some? ==> es[i].created.value >= es[j].created.value;
      }
    }
  }

  // ---- The directory sweep --------------------------------------------------------------

  datatype File = File(size: nat, mtime: real, path: string)

  function Age(f: File): real { -f.mtime }

  function EntriesOf(fs: seq<File>): (r: seq<Entry>)
    ensures |r| == |fs| && forall i :: 0 <= i < |r| ==> r[i] == Entry(fs[i].size, Some(fs[i].mtime))
  {
    seq(|fs|, i requires 0 <= i < |fs| => Entry(fs[i].size, Some(fs[i].mtime)))
  }

  /** Files younger than the floor are never deleted; a floor of zero is no floor. */
  predicate Protected(minAge: real, now: real, f: File) { minAge != 0.0 && f.mtime > now - minAge }

  function Bytes(fs: seq<File>, k: nat): nat
    requires k <= |fs|
  {
    if k == 0 then 0 else Bytes(fs, k - 1) + fs[k - 1].size
  }

  /** Those of the first `k` files the floor protects, or does not. */
  function Split(fs: seq<File>, k: nat, minAge: real, now: real, young: bool): seq<File>
    requires k <= |fs|
  {
    if k == 0 then [] else
      var r := Split(fs, k - 1, minAge, now, young);
      if Protected(minAge, now, fs[k - 1]) == young then r + [fs[k - 1]] else r
  }

  /** Which files a sweep deletes, oldest first, and which it leaves. */
  ghost function Expired(c: Caps, fs: seq<File>): seq<File> {
    var newest := SortBy(fs, Age);
    Backwards(newest[Cut(c, EntriesOf(newest), |newest|)..])
  }

  ghost function Deleted(c: Caps, fs: seq<File>, minAge: real): seq<File> {
    Split(Expired(c, fs), |Expired(c, fs)|, minAge, c.now, false)
  }

  ghost function Remaining(c: Caps, fs: seq<File>, minAge: real): seq<File> {
    var newest := SortBy(fs, Age);
    newest[..Cut(c, EntriesOf(newest), |newest|)] + Split(Expired(c, fs), |Expired(c, fs)|, minAge, c.now, true)
  }

  method SweepDirectory(c: Caps, fs: seq<File>, minAge: real) returns (doomed: seq<File>, freed: nat)
    ensures doomed == Deleted(c, fs, minAge)
    ensures freed == Bytes(doomed, |doomed|)
  {
    var entries := SortBy(fs, Age);
    SortedNewest(fs);
    var expired, wanted := SelectExpired(c, EntriesOf(entries), entries);
    OptimalEviction(c, EntriesOf(entries), entries);
    doomed, freed := DropYoung(expired, minAge, c.now);
  }

  /** The expired files old enough to go, and their size. */
  method DropYoung(expired: seq<File>, minAge: real, now: real) returns (doomed: seq<File>, freed: nat)
    ensures doomed == Split(expired, |expired|, minAge, now, false)
    ensures freed == Bytes(doomed, |doomed|)
  {
    doomed, freed := [], 0;
    for i := 0 to |expired|
      invariant doomed == Split(expired, i, minAge, now, false)
      invariant freed == Bytes(doomed, |doomed|)
    {
      if !(minAge != 0.0 && expired[i].mtime > now - minAge) {
        BytesMore(doomed, expired[i]);
        doomed := doomed + [expired[i]];
        freed := freed + expired[i].size;
      }
    }
  }

  lemma {:induction false} BytesPrefix(fs: seq<File>, f: File, k: nat)
    requires k <= |fs|
    ensures Bytes(fs + [f], k) == Bytes(fs, k)
    decreases k
  {
    if k != 0 {
      BytesPrefix(fs, f, k - 1);
    }
  }

  lemma {:induction false} BytesMore(fs: seq<File>, f: File)
    ensures Bytes(fs + [f], |fs| + 1) == Bytes(fs, |fs|) + f.size
  {
    BytesPrefix(fs, f, |fs|);
  }

  lemma {:induction false} SortedNewest(fs: seq<File>)
    ensures NewestFirst(EntriesOf(SortBy(fs, Age)))
  {
    SortCorrect(fs, Age);
    var s := SortBy(fs, Age);
    forall i, j | 0 <= i < j < |s| ensures s[i].mtime >= s[j].mtime {
      assert Age(s[i]) <= Age(s[j]);
    }
  }

  // ---- What a sweep leaves behind ----------------------------------------------------------

  lemma {:induction false} SplitBag(fs: seq<File>, k: nat, minAge: real, now: real)
    requires k <= |fs|
    ensures multiset(Split(fs, k, minAge, now, true)) + multiset(Split(fs, k, minAge, now, false)) == multiset(fs[..k])
    decreases k
  {
    if k != 0 {
      SplitBag(fs, k - 1, minAge, now);
      BagSnoc(fs, k - 1);
    }
  }

  lemma {:induction false} BackwardsBag<T>(xs: seq<T>)
    ensures multiset(Backwards(xs)) == multiset(xs)
    decreases |xs|
  {
    if xs != [] {
      BackwardsBag(xs[1..]);
      assert Backwards(xs) == Backwards(xs[1..]) + [xs[0]];
      Uncons(xs);
    }
  }

  lemma {:induction false} SplitWhole(fs: seq<File>, minAge: real, now: real)
    ensures multiset(Split(fs, |fs|, minAge, now, true)) + multiset(Split(fs, |fs|, minAge, now, false)) == multiset(fs)
  {
    SplitBag(fs, |fs|, minAge, now);
    assert fs[..|fs|] == fs;
  }

  lemma {:induction false} BagsJoin(all: seq<File>, k: nat, expired: seq<File>, young: seq<File>, gone: seq<File>)
    requires k <= |all| && multiset(expired) == multiset(all[k..])
    requires multiset(young) + multiset(gone) == multiset(expired)
    ensures multiset(gone) + multiset(all[..k] + young) == multiset(all)
  {
    assert multiset(all[..k] + young) == multiset(all[..k]) + multiset(young);
    assert all[..k] + all[k..] == all;
  }

  /** Every file is deleted or left, and none both. */
  lemma {:induction false} SweepPartitions(c: Caps, fs: seq<File>, minAge: real)
    ensures multiset(Deleted(c, fs, minAge)) + multiset(Remaining(c, fs, minAge)) == multiset(fs)
  {
    var newest := SortBy(fs, Age);
    var k := Cut(c, EntriesOf(newest), |newest|);
    var expired := Expired(c, fs);
    SortCorrect(fs, Age);
    BackwardsBag(newest[k..]);
    SplitWhole(expired, minAge, c.now);
    BagsJoin(newest, k, expired, Split(expired, |expired|, minAge, c.now, true), Deleted(c, fs, minAge));
  }

  lemma {:induction false} SplitMembers(fs: seq<File>, k: nat, minAge: real, now: real, young: bool)
    requires k <= |fs|
    ensures forall f :: f in Split(fs, k, minAge, now, young) <==> f in fs[..k] && Protected(minAge, now, f) == young
    decreases k
  {
    if k != 0 {
      SplitMembers(fs, k - 1, minAge, now, young);
      Snoc(fs, k - 1);
    }
  }

  ghost predicate CapsHold(c: Caps, fs: seq<File>) {
    && (c.maxBytes.Some? ==> Bytes(fs, |fs|) <= c.maxBytes.value)
    && forall f :: f in fs && c.maxAge.Some? ==> c.now - f.mtime <= c.maxAge.value
  }

  /** Younger than the floor. */
  predicate InFlight(minAge: real, now: real, f: File) { minAge != 0.0 && now - f.mtime < minAge }

  lemma {:induction false} BytesTotal(fs: seq<File>, k: nat, n: nat)
    requires n <= k <= |fs|
    ensures Bytes(fs[..k], n) == Total(EntriesOf(fs), n)
    decreases n
  {
    if n != 0 {
      BytesTotal(fs, k, n - 1);
    }
  }

  /** After a sweep either both caps hold of the files left, or every file left is
      younger than the floor; and no file the floor protects is ever deleted. */
  lemma {:induction false} SweepHolds(c: Caps, fs: seq<File>, minAge: real)
    ensures CapsHold(c, Remaining(c, fs, minAge))
      || forall f :: f in Remaining(c, fs, minAge) ==> InFlight(minAge, c.now, f)
    ensures forall f :: f in Deleted(c, fs, minAge) ==> !InFlight(minAge, c.now, f)
  {
    var newest := SortBy(fs, Age);
    var es := EntriesOf(newest);
    var k := Cut(c, es, |newest|);
    var expired := Expired(c, fs);
    var young := Split(expired, |expired|, minAge, c.now, true);
    SplitMembers(expired, |expired|, minAge, c.now, true);
    SplitMembers(expired, |expired|, minAge, c.now, false);
    assert expired[..|expired|] == expired;
    SortedNewest(fs);
    if young == [] {
      assert Remaining(c, fs, minAge) == newest[..k];
      BytesTotal(newest, k, k);
      assert CapsHold(c, newest[..k]);
    } else {
      var f := young[0];
      assert f in young;
      YoungCutsAll(c, newest, k, f, minAge);
    }
  }

  lemma {:induction false} YoungCutsAll(c: Caps, newest: seq<File>, k: nat, f: File, minAge: real)
    requires k <= |newest| && NewestFirst(EntriesOf(newest))
    requires f in Backwards(newest[k..]) && Protected(minAge, c.now, f)
    ensures forall g :: g in newest[..k] ==> Protected(minAge, c.now, g)
  {
    var es := EntriesOf(newest);
    var n :| 0 <= n < |newest[k..]| && Backwards(newest[k..])[n] == f;
    var m := |newest| - 1 - n;
    assert newest[m] == f;
    forall i | 0 <= i < k ensures Protected(minAge, c.now, newest[i]) {
      assert es[i].created.value >= es[m].created.value;
    }
  }
}
