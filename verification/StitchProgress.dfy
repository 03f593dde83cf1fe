/** The sweep converges: every call on a candidate settles rows, so work runs out. */
module StitchProgress {
  import opened Common
  import opened Filters
  import opened MediaTable
  import opened StitchSpec
  import Stitch
  import StitchConservation

  /** Rows no attempt has settled yet. */
  function Left(rows: seq<Row>): nat { |Where(rows, Unclaimed)| }

  // ---- Settling rows lowers the count -------------------------------------------------------

  lemma {:induction false} MarkUpTo(rows: seq<Row>, ids: seq<int>, reason: string, n: nat)
    requires n <= |rows|
    ensures |WhereUpTo(Marked(rows, ids, reason), n, Unclaimed)| <= |WhereUpTo(rows, n, Unclaimed)|
    ensures (exists i :: 0 <= i < n && Unclaimed(rows[i]) && rows[i].id in ids) ==>
      |WhereUpTo(Marked(rows, ids, reason), n, Unclaimed)| < |WhereUpTo(rows, n, Unclaimed)|
    decreases n
  {
    if n != 0 {
      MarkUpTo(rows, ids, reason, n - 1);
    }
  }

  function FreeOf(ids: seq<int>): Row -> bool { (r: Row) => r.id !in ids && Unclaimed(r) }

  lemma {:induction false} KeptUpTo(rows: seq<Row>, ids: seq<int>, n: nat)
    requires n <= |rows|
    ensures |WhereUpTo(rows, n, FreeOf(ids))| <= |WhereUpTo(rows, n, Unclaimed)|
    ensures (exists i :: 0 <= i < n && Unclaimed(rows[i]) && rows[i].id in ids) ==>
      |WhereUpTo(rows, n, FreeOf(ids))| < |WhereUpTo(rows, n, Unclaimed)|
    decreases n
  {
    if n != 0 {
      KeptUpTo(rows, ids, n - 1);
    }
  }

  /** Some listed id is that of an unclaimed row. */
  ghost predicate Settles(rows: seq<Row>, ids: seq<int>) {
    exists r :: r in rows && Unclaimed(r) && r.id in ids
  }

  lemma {:induction false} MarkLowers(rows: seq<Row>, ids: seq<int>, reason: string)
    requires Settles(rows, ids)
    ensures Left(Marked(rows, ids, reason)) < Left(rows)
  {
    var r :| r in rows && Unclaimed(r) && r.id in ids;
    var i :| 0 <= i < |rows| && rows[i] == r;
    MarkUpTo(rows, ids, reason, |rows|);
  }

  lemma {:induction false} SwapLowers(rows: seq<Row>, ids: seq<int>, merged: Row, excluded: seq<int>, reason: string)
    requires Settles(rows, ids) && !Unclaimed(merged)
    ensures Left(Marked(Where(rows, IdNotIn(ids)) + [merged], excluded, reason)) < Left(rows)
  {
    var kept := Where(rows, IdNotIn(ids));
    var r :| r in rows && Unclaimed(r) && r.id in ids;
    var i :| 0 <= i < |rows| && rows[i] == r;
    KeptUpTo(rows, ids, |rows|);
    WhereTwice(rows, |rows|, IdNotIn(ids), Unclaimed, FreeOf(ids));
    WhereSnoc(kept, merged, Unclaimed);
    MarkUpTo(kept + [merged], excluded, reason, |kept| + 1);
  }

  // ---- A healthy table -----------------------------------------------------------------------

  ghost predicate IdsIdentify(w: World) {
    && (forall r :: r in w.rows ==> r.id < w.nextId)
    && forall b, c :: b in w.rows && c in w.rows && b.id == c.id ==> b == c
  }

  /** No row carries the file id an offered episode's clip would get. */
  ghost predicate NoClipYet(categories: seq<string>, rows: seq<Row>) {
    forall r, s :: r in rows && s in rows && Eligible(categories, r) ==> s.fileId != FileIdOf(KeyOf(r))
  }

  /** An event belongs to one device. */
  ghost predicate EventNamesDevice(rows: seq<Row>) {
    forall r, s :: r in rows && s in rows && Unclaimed(r) && Unclaimed(s) && r.rel.Some? && r.rel == s.rel ==> r.device == s.device
  }

  ghost predicate Healthy(categories: seq<string>, w: World) {
    IdsIdentify(w) && NoClipYet(categories, w.rows) && EventNamesDevice(w.rows)
  }

  /** As offered: exactly the unclaimed rows of its key, one of them with a path. */
  ghost predicate Current(categories: seq<string>, rows: seq<Row>, ep: Episode) {
    && |ep.chunks| >= 2
    && (forall r :: r in ep.chunks <==> r in rows && Unclaimed(r) && Belongs(ep.key, r))
    && exists r :: r in ep.chunks && Eligible(categories, r)
  }

  // ---- File ids ---------------------------------------------------------------------------------

  predicate ColonFree(s: string) { forall i :: 0 <= i < |s| ==> s[i] != ':' }

  /** With colon-free categories a file id names its event and category. */
  lemma {:induction false} FileIdNames(a: Key, b: Key)
    requires FileIdOf(a) == FileIdOf(b) && ColonFree(a.category) && ColonFree(b.category)
    ensures a.rel == b.rel && a.category == b.category
  {
    var x, y := a.rel + ":" + a.category, b.rel + ":" + b.category;
    assert FileIdOf(a) == "stitched:" + x && FileIdOf(b) == "stitched:" + y;
    assert x == FileIdOf(a)[9..] && y == FileIdOf(b)[9..];
    assert x[|a.rel|] == ':' && y[|b.rel|] == ':';
    assert forall i :: |a.rel| < i < |x| ==> x[i] == a.category[i - |a.rel| - 1];
    assert forall i :: |b.rel| < i < |y| ==> y[i] == b.category[i - |b.rel| - 1];
    assert |a.rel| == |b.rel|;
    assert a.rel == x[..|a.rel|] && b.rel == y[..|b.rel|];
    assert a.category == x[|a.rel| + 1..] && b.category == y[|b.rel| + 1..];
  }

  // ---- One call -------------------------------------------------------------------------------------

  /** No row is added unclaimed, no row outside the episode is touched, the count goes
      down, and a new file id comes with an episode that is settled for good. */
  ghost predicate Effect(w: World, ep: Episode, after: World) {
    && (forall r :: r in after.rows && Unclaimed(r) ==> r in w.rows)
    && (forall r :: r in w.rows && r.id !in Ids(ep.chunks) ==> r in after.rows)
    && Left(after.rows) < Left(w.rows)
    && IdsIdentify(after)
    && forall s :: s in after.rows ==> FileKnown(w.rows, s.fileId) || (s.fileId == FileIdOf(ep.key) && Done(ep, after.rows))
  }

  ghost predicate FileKnown(rows: seq<Row>, fileId: string) { exists b :: b in rows && b.fileId == fileId }

  ghost predicate Done(ep: Episode, rows: seq<Row>) {
    forall r :: r in rows && Unclaimed(r) ==> r.id !in Ids(ep.chunks)
  }

  lemma {:induction false} ChunkId(cs: seq<Row>, c: Row)
    requires c in cs
    ensures c.id in Ids(cs)
  {
    var i :| 0 <= i < |cs| && cs[i] == c;
    assert Ids(cs)[i] == c.id;
  }

  lemma {:induction false} MarkSource(rows: seq<Row>, ids: seq<int>, reason: string, r: Row)
    requires r in Marked(rows, ids, reason)
    ensures exists c :: (c in rows && c.id == r.id && c.fileId == r.fileId && (Unclaimed(r) ==> r == c)
      && r == if c.id in ids then c.(state := Some(reason)) else c)
  {
    var i :| 0 <= i < |rows| && Marked(rows, ids, reason)[i] == r;
    assert rows[i] in rows;
  }

  lemma {:induction false} MarkedIdentify(w: World, ids: seq<int>, reason: string, b: Row, c: Row)
    requires IdsIdentify(w) && b in Marked(w.rows, ids, reason) && c in Marked(w.rows, ids, reason) && b.id == c.id
    ensures b == c
  {
    MarkSource(w.rows, ids, reason, b);
    MarkSource(w.rows, ids, reason, c);
  }

  lemma {:induction false} MarkKeeps(rows: seq<Row>, ids: seq<int>, reason: string, r: Row)
    requires r in rows && r.id !in ids
    ensures r in Marked(rows, ids, reason)
  {
    var i :| 0 <= i < |rows| && rows[i] == r;
    assert Marked(rows, ids, reason)[i] == r;
  }

  lemma {:induction false} MarkEffect(w: World, ep: Episode, ids: seq<int>, reason: string, files: map<string, Footage>)
    requires IdsIdentify(w) && Settles(w.rows, ids) && forall id :: id in ids ==> id in Ids(ep.chunks)
    ensures Effect(w, ep, World(files, Marked(w.rows, ids, reason), w.nextId))
  {
    var rows := Marked(w.rows, ids, reason);
    MarkLowers(w.rows, ids, reason);
    forall r | r in rows ensures r.id < w.nextId && FileKnown(w.rows, r.fileId) && (Unclaimed(r) ==> r in w.rows) {
      MarkSource(w.rows, ids, reason, r);
    }
    forall b, c | b in rows && c in rows && b.id == c.id ensures b == c {
      MarkedIdentify(w, ids, reason, b, c);
    }
    forall r | r in w.rows && r.id !in Ids(ep.chunks) ensures r in rows {
      MarkKeeps(w.rows, ids, reason, r);
    }
  }

  /** Chunks that go into a join are unclaimed rows of the table. */
  lemma {:induction false} JoinedSettle(t: Tools, w: World, ep: Episode, categories: seq<string>)
    requires Current(categories, w.rows, ep) && |StitchConservation.JoinedOf(t, ep, w)| > 0
    ensures Settles(w.rows, Ids(StitchConservation.JoinedOf(t, ep, w)))
    ensures forall id :: id in Ids(StitchConservation.JoinedOf(t, ep, w)) ==> id in Ids(ep.chunks)
  {
    var joined := StitchConservation.JoinedOf(t, ep, w);
    WhereMembers(ep.chunks, Goes(t, w.files, ep.chunks));
    assert joined[0] in joined;
    ChunkId(joined, joined[0]);
    forall i | 0 <= i < |joined| ensures Ids(joined)[i] in Ids(ep.chunks) {
      assert joined[i] in joined;
      ChunkId(ep.chunks, joined[i]);
    }
  }

  lemma {:induction false} StitchEffect(t: Tools, w: World, ep: Episode, categories: seq<string>)
    requires IdsIdentify(w) && Current(categories, w.rows, ep) && StitchSpec.Stitch(t, ep, w).0.Stitched?
    ensures Effect(w, ep, StitchSpec.Stitch(t, ep, w).1)
  {
    var (outcome, after) := StitchSpec.Stitch(t, ep, w);
    var joined, excluded := StitchConservation.JoinedOf(t, ep, w), StitchConservation.ExcludedOf(t, ep, w);
    StitchConservation.RowsOfStitched(t, ep, w);
    JoinedSettle(t, w, ep, categories);
    var merged := MergedRow(t, ep.key, joined, outcome.path, w.nextId);
    SwapLowers(w.rows, Ids(joined), merged, Ids(excluded), "excluded-stream-mismatch");
    ExcludedWithin(t, w, ep);
    StitchedMembers(t, w, ep, merged, after);
    NextTaken(t, w, ep);
    StitchedRows(w, ep, Ids(excluded), merged, after);
  }

  lemma {:induction false} NextTaken(t: Tools, w: World, ep: Episode)
    requires StitchSpec.Stitch(t, ep, w).0.Stitched?
    ensures StitchSpec.Stitch(t, ep, w).1.nextId == w.nextId + 1
  {
  }

  lemma {:induction false} ExcludedWithin(t: Tools, w: World, ep: Episode)
    requires IdsIdentify(w) && forall c :: c in ep.chunks ==> c in w.rows
    ensures forall id :: id in Ids(StitchConservation.ExcludedOf(t, ep, w)) ==> id in Ids(ep.chunks)
  {
    StitchConservation.IdsSeparate(t, ep, w);
  }

  lemma {:induction false} StitchedMembers(t: Tools, w: World, ep: Episode, merged: Row, after: World)
    requires forall c :: c in ep.chunks ==> c in w.rows
    requires IdsIdentify(w) && StitchSpec.Stitch(t, ep, w).0.Stitched? && after == StitchSpec.Stitch(t, ep, w).1
    requires var joined := StitchConservation.JoinedOf(t, ep, w);
      joined != [] && merged == MergedRow(t, ep.key, joined, StitchSpec.Stitch(t, ep, w).0.path, w.nextId)
    ensures forall r :: r in after.rows <==> AfterStitch(w, ep, Ids(StitchConservation.ExcludedOf(t, ep, w)), merged, r)
  {
    forall r ensures r in after.rows <==> AfterStitch(w, ep, Ids(StitchConservation.ExcludedOf(t, ep, w)), merged, r) {
      StitchConservation.RowsAfterStitch(t, ep, w, r);
    }
  }

  ghost predicate AfterStitch(w: World, ep: Episode, excluded: seq<int>, merged: Row, r: Row) {
    || (r in w.rows && r.id !in Ids(ep.chunks))
    || (exists c :: c in w.rows && c.id in excluded && r == c.(state := Some("excluded-stream-mismatch")))
    || r == merged
  }

  lemma {:induction false} StitchedRows(w: World, ep: Episode, excluded: seq<int>, merged: Row, after: World)
    requires IdsIdentify(w) && Left(after.rows) < Left(w.rows) && after.nextId == w.nextId + 1
    requires merged.id == w.nextId && !Unclaimed(merged) && merged.fileId == FileIdOf(ep.key)
    requires forall id :: id in excluded ==> id in Ids(ep.chunks)
    requires forall r :: r in after.rows <==> AfterStitch(w, ep, excluded, merged, r)
    ensures Effect(w, ep, after)
  {
    forall r | r in after.rows
      ensures r == merged || (exists c :: c in w.rows && c.id == r.id && c.fileId == r.fileId)
      ensures r.id <= w.nextId && (Unclaimed(r) ==> r in w.rows && r.id !in Ids(ep.chunks))
    {
      assert AfterStitch(w, ep, excluded, merged, r);
    }
    forall b, c | b in after.rows && c in after.rows && b.id == c.id ensures b == c {
      assert AfterStitch(w, ep, excluded, merged, b) && AfterStitch(w, ep, excluded, merged, c);
    }
    assert Done(ep, after.rows);
  }

  lemma {:induction false} NotTaken(t: Tools, w: World, ep: Episode, categories: seq<string>)
    requires NoClipYet(categories, w.rows) && Current(categories, w.rows, ep)
    ensures !StitchConservation.Taken(t, ep, w)
  {
    var r :| r in ep.chunks && Eligible(categories, r);
    assert KeyOf(r) == ep.key;
    var kept := Where(w.rows, IdNotIn(Ids(StitchConservation.JoinedOf(t, ep, w))));
    WhereMembers(w.rows, IdNotIn(Ids(StitchConservation.JoinedOf(t, ep, w))));
    forall i | 0 <= i < |kept| ensures kept[i].fileId != FileIdOf(ep.key) {
      assert kept[i] in kept;
    }
  }

  /** A call on a current candidate with a work directory either raises and leaves the
      table as it was, or settles something. */
  lemma {:induction false} CallOutcome(t: Tools, w: World, ep: Episode, categories: seq<string>)
    requires IdsIdentify(w) && Current(categories, w.rows, ep) && t.workDir
    ensures var (outcome, after) := StitchSpec.Stitch(t, ep, w);
      if outcome.Raised? then after.rows == w.rows else Effect(w, ep, after)
  {
    var (outcome, after) := StitchSpec.Stitch(t, ep, w);
    var picked := Picked(t, w.files, ep.chunks);
    if |Existing(w.files, ep.chunks)| < 2 || |picked| < 2 {
      ChunkId(ep.chunks, ep.chunks[0]);
      assert ep.chunks[0] in ep.chunks;
      var reason := if |Existing(w.files, ep.chunks)| < 2 then "missing-files" else "inconsistent-streams";
      MarkEffect(w, ep, Ids(ep.chunks), reason, w.files);
    } else if outcome.Stitched? {
      StitchEffect(t, w, ep, categories);
    } else if outcome.NothingWritten? {
      Stitch.JoinedAreThoseThatGo(t, w.files, ep.chunks);
      JoinedSettle(t, w, ep, categories);
      MarkEffect(w, ep, Ids(Joined(t, picked)), if JoinOk(t, picked) then "move-failed" else "failed", after.files);
    }
  }

  /** So it makes progress exactly unless a verified join was moved into place while
      another row carries the clip's file id. */
  lemma {:induction false} ProgressExactly(t: Tools, w: World, ep: Episode, categories: seq<string>)
    requires IdsIdentify(w) && Current(categories, w.rows, ep) && t.workDir
    requires StitchConservation.Honest(t, w.files) && StitchConservation.Apart(t, ep)
    ensures Effect(w, ep, StitchSpec.Stitch(t, ep, w).1) <==>
      !(StitchConservation.Verified(t, ep, w) && t.movable && StitchConservation.Taken(t, ep, w))
  {
    CallOutcome(t, w, ep, categories);
    StitchConservation.RaisedExactly(t, ep, w);
  }

  lemma {:induction false} RaisedTaken(t: Tools, w: World, ep: Episode)
    requires t.workDir && StitchSpec.Stitch(t, ep, w).0.Raised?
    ensures StitchConservation.Taken(t, ep, w)
  {
    Stitch.JoinedAreThoseThatGo(t, w.files, ep.chunks);
  }

  /** On a table where the clip's file id is free it never raises and always settles something. */
  lemma {:induction false} CallSettles(t: Tools, w: World, ep: Episode, categories: seq<string>)
    requires IdsIdentify(w) && NoClipYet(categories, w.rows) && Current(categories, w.rows, ep) && t.workDir
    ensures var (outcome, after) := StitchSpec.Stitch(t, ep, w); !outcome.Raised? && Effect(w, ep, after)
  {
    CallOutcome(t, w, ep, categories);
    NotTaken(t, w, ep, categories);
    if StitchSpec.Stitch(t, ep, w).0.Raised? {
      RaisedTaken(t, w, ep);
    }
  }

  // ---- One pass ---------------------------------------------------------------------------------------

  ghost predicate ColonFreeAll(categories: seq<string>) {
    forall i :: 0 <= i < |categories| ==> ColonFree(categories[i])
  }

  /** A clip's file id is not that of any episode still open. */
  lemma {:induction false} ClipIsNew(categories: seq<string>, w: World, ep: Episode, after: World, r: Row)
    requires ColonFreeAll(categories) && EventNamesDevice(w.rows) && Current(categories, w.rows, ep)
    requires Effect(w, ep, after) && Done(ep, after.rows) && r in after.rows && Eligible(categories, r)
    ensures FileIdOf(KeyOf(r)) != FileIdOf(ep.key)
  {
    assert Unclaimed(r) && r in w.rows;
    var c :| c in ep.chunks && Eligible(categories, c);
    assert Unclaimed(c) && c in w.rows && KeyOf(c) == ep.key;
    if FileIdOf(KeyOf(r)) == FileIdOf(ep.key) {
      var i, j :| 0 <= i < |categories| && 0 <= j < |categories| && categories[i] == r.category && categories[j] == c.category;
      FileIdNames(KeyOf(r), ep.key);
      assert Belongs(ep.key, r);
      ChunkId(ep.chunks, r);
    }
  }

  lemma {:induction false} HealthyNext(categories: seq<string>, w: World, ep: Episode, after: World)
    requires ColonFreeAll(categories) && Healthy(categories, w) && Current(categories, w.rows, ep) && Effect(w, ep, after)
    ensures Healthy(categories, after)
  {
    forall r, s | r in after.rows && s in after.rows && Eligible(categories, r) ensures s.fileId != FileIdOf(KeyOf(r)) {
      assert Unclaimed(r) && r in w.rows;
      if FileKnown(w.rows, s.fileId) {
        var b :| b in w.rows && b.fileId == s.fileId;
      } else {
        ClipIsNew(categories, w, ep, after, r);
      }
    }
    forall r, s | r in after.rows && s in after.rows && Unclaimed(r) && Unclaimed(s) && r.rel.Some? && r.rel == s.rel
      ensures r.device == s.device
    {
      assert r in w.rows && s in w.rows;
    }
  }

  /** Settling one episode leaves another as offered. */
  lemma {:induction false} CurrentNext(categories: seq<string>, w: World, ep: Episode, after: World, other: Episode)
    requires IdsIdentify(w) && Current(categories, w.rows, ep) && Effect(w, ep, after)
    requires Current(categories, w.rows, other) && other.key != ep.key
    ensures Current(categories, after.rows, other)
  {
    forall r | r in other.chunks ensures r in after.rows {
      assert r in w.rows && Unclaimed(r) && Belongs(other.key, r);
      forall i | 0 <= i < |ep.chunks| ensures Ids(ep.chunks)[i] != r.id {
        assert ep.chunks[i] in ep.chunks && ep.chunks[i] in w.rows && ep.chunks[i] != r;
      }
    }
    forall r | r in after.rows && Unclaimed(r) && Belongs(other.key, r) ensures r in other.chunks {
      assert r in w.rows;
    }
  }

  ghost predicate DistinctKeys(eps: seq<Episode>) { forall i, j :: 0 <= i < j < |eps| ==> eps[i].key != eps[j].key }

  ghost predicate CurrentFrom(categories: seq<string>, rows: seq<Row>, eps: seq<Episode>, n: nat) {
    forall j :: n <= j < |eps| ==> Current(categories, rows, eps[j])
  }

  ghost predicate Progress(categories: seq<string>, eps: seq<Episode>, n: nat, start: World, w: World) {
    Healthy(categories, w) && CurrentFrom(categories, w.rows, eps, n) && Left(w.rows) + n <= Left(start.rows)
  }

  ghost predicate WorkDirs(tools: nat -> Tools) { forall i: nat :: tools(i).workDir }

  /** Each call settles its episode when that is still as offered. */
  ghost predicate Settling(categories: seq<string>, eps: seq<Episode>, call: (nat, World) -> (Outcome, World)) {
    forall i: nat, w: World :: i < |eps| && Healthy(categories, w) && Current(categories, w.rows, eps[i]) ==>
      Effect(w, eps[i], call(i, w).1)
  }

  lemma {:induction false} CallsSettle(categories: seq<string>, tools: nat -> Tools, eps: seq<Episode>)
    requires WorkDirs(tools)
    ensures Settling(categories, eps, Stitch.Calls(tools, eps))
  {
    forall i: nat, w: World | i < |eps| && Healthy(categories, w) && Current(categories, w.rows, eps[i])
      ensures Effect(w, eps[i], Stitch.Calls(tools, eps)(i, w).1)
    {
      CallSettles(tools(i), w, eps[i], categories);
    }
  }

  lemma {:induction false} PassUpTo(categories: seq<string>, eps: seq<Episode>, call: (nat, World) -> (Outcome, World),
                                    n: nat, start: World)
    requires n <= |eps| && ColonFreeAll(categories) && DistinctKeys(eps) && Settling(categories, eps, call)
    requires Progress(categories, eps, 0, start, start)
    ensures Progress(categories, eps, n, start, Stitch.Pass(call, n, start).1)
    decreases n
  {
    if n != 0 {
      PassUpTo(categories, eps, call, n - 1, start);
      var before := Stitch.Pass(call, n - 1, start).1;
      CallStep(categories, eps, n, start, before, call(n - 1, before).1);
    }
  }

  lemma {:induction false} CallStep(categories: seq<string>, eps: seq<Episode>, n: nat, start: World, w: World, after: World)
    requires 0 < n <= |eps| && ColonFreeAll(categories) && DistinctKeys(eps)
    requires Progress(categories, eps, n - 1, start, w) && Effect(w, eps[n - 1], after)
    ensures Progress(categories, eps, n, start, after)
  {
    HealthyNext(categories, w, eps[n - 1], after);
    forall j | n <= j < |eps| ensures Current(categories, after.rows, eps[j]) {
      CurrentNext(categories, w, eps[n - 1], after, eps[j]);
    }
  }

  lemma {:induction false} OfferedOnce(categories: seq<string>, rows: seq<Row>, before: real, ks: seq<Key>, n: nat)
    requires n <= |ks| && NoDup(ks)
    ensures DistinctKeys(OfferedUpTo(categories, rows, before, ks, n))
    ensures forall ep :: ep in OfferedUpTo(categories, rows, before, ks, n) ==> ep.key in ks[..n]
    decreases n
  {
    if n != 0 {
      OfferedOnce(categories, rows, before, ks, n - 1);
      Snoc(ks, n - 1);
      var eps := OfferedUpTo(categories, rows, before, ks, n - 1);
      forall i | 0 <= i < |eps| ensures eps[i].key != ks[n - 1] {
        assert eps[i] in eps;
      }
    }
  }

  lemma {:induction false} CandidatesAreCurrent(categories: seq<string>, rows: seq<Row>, before: real)
    ensures DistinctKeys(Candidates(categories, rows, before))
    ensures CurrentFrom(categories, rows, Candidates(categories, rows, before), 0)
  {
    var ks := Groups(categories, rows, |rows|);
    var eps := Candidates(categories, rows, before);
    GroupMembers(categories, rows, |rows|, Key(0, "", ""));
    OfferedOnce(categories, rows, before, ks, |ks|);
    forall j | 0 <= j < |eps| ensures Current(categories, rows, eps[j]) {
      assert eps[j] in eps;
      CandidateIsCurrent(categories, rows, before, eps[j]);
    }
  }

  lemma {:induction false} CandidateIsCurrent(categories: seq<string>, rows: seq<Row>, before: real, ep: Episode)
    requires ep in Candidates(categories, rows, before)
    ensures Current(categories, rows, ep)
  {
    CandidatesExactly(categories, rows, before, ep);
    ChunksAreRows(rows, ep.key);
    EligibleAreUnclaimed(categories, rows, |rows|, ep.key);
    assert |multiset(ep.chunks)| == |multiset(Where(rows, UnclaimedOf(ep.key)))|;
    var found := Where(rows, EligibleOf(categories, ep.key));
    WhereMembers(rows, EligibleOf(categories, ep.key));
    assert found[0] in found;
    assert found[0] in ep.chunks && Eligible(categories, found[0]);
  }

  /** A pass lowers the number of unsettled rows by at least the number of episodes it
      was offered, and leaves the table healthy. */
  lemma {:induction false} PassSettles(categories: seq<string>, tools: nat -> Tools, before: real, w: World)
    requires ColonFreeAll(categories) && Healthy(categories, w) && WorkDirs(tools)
    ensures var eps := Candidates(categories, w.rows, before);
      var after := Stitch.Pass(Stitch.Calls(tools, eps), |eps|, w).1;
      Healthy(categories, after) && Left(after.rows) + |eps| <= Left(w.rows)
  {
    var eps := Candidates(categories, w.rows, before);
    CandidatesAreCurrent(categories, w.rows, before);
    CallsSettle(categories, tools, eps);
    PassUpTo(categories, eps, Stitch.Calls(tools, eps), |eps|, w);
  }

  // ---- Any number of passes -------------------------------------------------------------------------------

  /** One pass with what it finds outside; nothing is uploaded between passes. */
  datatype Sweep = Sweep(tools: nat -> Tools, before: real)

  function AfterSweeps(categories: seq<string>, sweeps: seq<Sweep>, w: World): World
    decreases |sweeps|
  {
    if sweeps == [] then w else
      var eps := Candidates(categories, w.rows, sweeps[0].before);
      AfterSweeps(categories, sweeps[1..], Stitch.Pass(Stitch.Calls(sweeps[0].tools, eps), |eps|, w).1)
  }

  /** How many of the passes are offered anything. */
  function Busy(categories: seq<string>, sweeps: seq<Sweep>, w: World): nat
    decreases |sweeps|
  {
    if sweeps == [] then 0 else
      var eps := Candidates(categories, w.rows, sweeps[0].before);
      (if eps == [] then 0 else 1) + Busy(categories, sweeps[1..], Stitch.Pass(Stitch.Calls(sweeps[0].tools, eps), |eps|, w).1)
  }

  /** However many passes run, and whatever the outside world does to each, at most as
      many find work as there were unsettled rows. */
  lemma {:induction false} SweepsRunOutOfWork(categories: seq<string>, sweeps: seq<Sweep>, w: World)
    requires ColonFreeAll(categories) && Healthy(categories, w)
    requires forall k :: 0 <= k < |sweeps| ==> WorkDirs(sweeps[k].tools)
    ensures Busy(categories, sweeps, w) + Left(AfterSweeps(categories, sweeps, w).rows) <= Left(w.rows)
    ensures Healthy(categories, AfterSweeps(categories, sweeps, w))
    decreases |sweeps|
  {
    if sweeps != [] {
      var eps := Candidates(categories, w.rows, sweeps[0].before);
      PassSettles(categories, sweeps[0].tools, sweeps[0].before, w);
      SweepsRunOutOfWork(categories, sweeps[1..], Stitch.Pass(Stitch.Calls(sweeps[0].tools, eps), |eps|, w).1);
    }
  }
}
