/** Exactly when an episode becomes a clip, out of which chunks, and what its rows say when it does not. */
module StitchOutcomes {
  import opened Common
  import opened ConcatList
  import opened Filters
  import opened MediaTable
  import opened StitchSpec
  import opened StitchConservation
  import Stitch

  // ---- Which chunks are picked --------------------------------------------------------------

  /** The chunk is on disk and its stream has the given shape. */
  predicate Shaped(t: Tools, files: map<string, Footage>, shape: string, c: Row) {
    c.path.Some? && c.path.value != "" && c.path.value in files && t.streamKey(c.path.value) == Some(shape)
  }

  function HasShape(t: Tools, files: map<string, Footage>, shape: string): Row -> bool {
    c => Shaped(t, files, shape, c)
  }

  /** How many chunks on disk have the shape. */
  function Count(t: Tools, files: map<string, Footage>, cs: seq<Row>, shape: string): nat {
    |Where(cs, HasShape(t, files, shape))|
  }

  /** The chunks on disk of one shape that no other outnumbers, in order; none when no
      chunk on disk could be probed. */
  lemma {:induction false} PickedExactly(t: Tools, files: map<string, Footage>, cs: seq<Row>)
    ensures Picked(t, files, cs) == [] ==> forall shape :: Count(t, files, cs, shape) == 0
    ensures Picked(t, files, cs) != [] ==> exists shape ::
      && Picked(t, files, cs) == Where(cs, HasShape(t, files, shape))
      && forall other :: Count(t, files, cs, other) <= Count(t, files, cs, shape)
  {
    var paths := Paths(Existing(files, cs));
    forall shape
      ensures Count(t, files, cs, shape) == Votes(t, paths, shape)
      ensures MainShape(t, paths) == Some(shape) ==> Picked(t, files, cs) == Where(cs, HasShape(t, files, shape))
      ensures MainShape(t, paths).Some? ==> Votes(t, paths, shape) <= Votes(t, paths, MainShape(t, paths).value)
    {
      CountIsVotes(t, files, cs, shape);
      MainShapeWins(t, paths, shape);
    }
    match MainShape(t, paths)
    case Some(shape) =>
      assert Picked(t, files, cs) == Where(cs, HasShape(t, files, shape));
    case None =>
      forall shape ensures Votes(t, paths, shape) == 0 {
        NoVotes(t, paths, shape);
      }
      NonePicked(t, files, cs);
  }

  lemma {:induction false} NonePicked(t: Tools, files: map<string, Footage>, cs: seq<Row>)
    requires MainShape(t, Paths(Existing(files, cs))).None?
    ensures Picked(t, files, cs) == []
  {
    WhereMembers(cs, Matching(t, files, None));
    NoMembers(Picked(t, files, cs));
  }

  lemma {:induction false} NoVotes(t: Tools, paths: seq<string>, shape: string)
    requires MainShape(t, paths).None?
    ensures Votes(t, paths, shape) == 0
  {
    MainShapeWins(t, paths, shape);
    WhereMembers(paths, HasKey(t, shape));
    NoMembers(Where(paths, HasKey(t, shape)));
  }

  lemma {:induction false} ShapeMatches(t: Tools, files: map<string, Footage>, shape: string, c: Row)
    ensures Matching(t, files, Some(shape))(c) == HasShape(t, files, shape)(c)
  {
    var main := Some(shape);
    assert Matching(t, files, main)(c) == (OnDisk(files)(c) && main.Some? && t.streamKey(c.path.value) == main);
    assert OnDisk(files)(c) == (c.path.Some? && c.path.value != "" && c.path.value in files);
  }

  lemma {:induction false} CountIsVotes(t: Tools, files: map<string, Footage>, cs: seq<Row>, shape: string)
    ensures Where(cs, Matching(t, files, Some(shape))) == Where(cs, HasShape(t, files, shape))
    ensures Count(t, files, cs, shape) == Votes(t, Paths(Existing(files, cs)), shape)
  {
    forall i | 0 <= i < |cs| ensures Matching(t, files, Some(shape))(cs[i]) == HasShape(t, files, shape)(cs[i]) {
      ShapeMatches(t, files, shape, cs[i]);
    }
    WhereSame(cs, Matching(t, files, Some(shape)), HasShape(t, files, shape));
    Stitch.MatchingPaths(t, files, cs, shape);
  }

  // ---- Which of them are joined -----------------------------------------------------------------

  /** The list of these paths can be written, and what ffmpeg makes of it passes. */
  predicate Passes(t: Tools, paths: seq<string>) { WriteList(paths).Ok? && t.ffmpeg(WriteList(paths).value).ok }

  function Decodes(t: Tools): Row -> bool { c => t.decodable(PathOf(c)) }

  function Decodable(t: Tools, picked: seq<Row>): seq<Row> { Where(picked, Decodes(t)) }

  /** A second attempt is worth making: without the undecodable chunks, of which there are
      some, at least two are left. */
  predicate Second(t: Tools, picked: seq<Row>) {
    !Passes(t, Paths(picked)) && |picked| > 2 && 2 <= |Decodable(t, picked)| < |picked|
  }

  /** All of them when their list passes; else those that decode when theirs does. */
  predicate Joins(t: Tools, picked: seq<Row>, used: seq<Row>) {
    || (Passes(t, Paths(picked)) && used == picked)
    || (Second(t, picked) && used == Decodable(t, picked) && Passes(t, Paths(used)))
  }

  lemma {:induction false} TryPasses(t: Tools, paths: seq<string>)
    ensures Try(t, paths).ok <==> Passes(t, paths)
  {
  }

  lemma {:induction false} SecondIsRetry(t: Tools, picked: seq<Row>)
    ensures Retries(t, picked) <==> Second(t, picked)
    ensures Joined(t, picked) == if Second(t, picked) then Decodable(t, picked) else picked
  {
    TryPasses(t, Paths(picked));
    WhereSame(picked, Sound(t), Decodes(t));
  }

  lemma {:induction false} JoinsExactly(t: Tools, picked: seq<Row>, used: seq<Row>)
    ensures Joins(t, picked, used) <==> JoinOk(t, picked) && used == Joined(t, picked)
  {
    SecondIsRetry(t, picked);
    TryPasses(t, Paths(picked));
    TryPasses(t, Paths(Joined(t, picked)));
  }

  /** A row outside the join carries the clip's file id. */
  predicate ClipTaken(rows: seq<Row>, k: Key, used: seq<Row>) {
    exists r :: r in rows && r.id !in Ids(used) && r.fileId == "stitched:" + k.rel + ":" + k.category
  }

  lemma {:induction false} TakenIsClipTaken(t: Tools, ep: Episode, w: World)
    ensures Taken(t, ep, w) <==> ClipTaken(w.rows, ep.key, JoinedOf(t, ep, w))
  {
    var p := IdNotIn(Ids(JoinedOf(t, ep, w)));
    var kept := Where(w.rows, p);
    WhereMembers(w.rows, p);
    if Taken(t, ep, w) {
      var i :| 0 <= i < |kept| && kept[i].fileId == FileIdOf(ep.key);
      assert kept[i] in kept;
    }
    if ClipTaken(w.rows, ep.key, JoinedOf(t, ep, w)) {
      var r :| r in w.rows && r.id !in Ids(JoinedOf(t, ep, w)) && r.fileId == "stitched:" + ep.key.rel + ":" + ep.key.category;
      assert r in kept;
      var i :| 0 <= i < |kept| && kept[i] == r;
    }
  }

  /** The episode's chunks that are joined, when enough are picked and a join of them passes. */
  ghost predicate Uses(t: Tools, ep: Episode, w: World, used: seq<Row>) {
    |Picked(t, w.files, ep.chunks)| >= 2 && Joins(t, Picked(t, w.files, ep.chunks), used)
  }

  lemma {:induction false} PickedExist(t: Tools, ep: Episode, w: World)
    ensures |Picked(t, w.files, ep.chunks)| <= |Existing(w.files, ep.chunks)|
  {
    var main := Matching(t, w.files, MainShape(t, Paths(Existing(w.files, ep.chunks))));
    FewerMatch(ep.chunks, |ep.chunks|, main, OnDisk(w.files));
  }

  lemma {:induction false} FewerMatch<T>(xs: seq<T>, n: nat, p: T -> bool, q: T -> bool)
    requires n <= |xs| && forall i :: 0 <= i < n && p(xs[i]) ==> q(xs[i])
    ensures |WhereUpTo(xs, n, p)| <= |WhereUpTo(xs, n, q)|
    decreases n
  {
    if n != 0 {
      FewerMatch(xs, n - 1, p, q);
    }
  }

  lemma {:induction false} UsesExactly(t: Tools, ep: Episode, w: World, used: seq<Row>)
    requires t.workDir
    ensures Uses(t, ep, w, used) <==> Verified(t, ep, w) && used == JoinedOf(t, ep, w)
  {
    PickedExist(t, ep, w);
    JoinsExactly(t, Picked(t, w.files, ep.chunks), used);
    Stitch.JoinedAreThoseThatGo(t, w.files, ep.chunks);
  }

  // ---- When a clip is made ------------------------------------------------------------------------

  /** With a work directory a clip is made exactly when a join of the picked chunks passes,
      can be moved, and its file id is free; the clip holds those chunks in order. */
  lemma {:induction false} StitchedExactly(t: Tools, ep: Episode, w: World)
    requires Honest(t, w.files) && StitchConservation.Apart(t, ep) && t.workDir
    ensures StitchSpec.Stitch(t, ep, w).0.Stitched? <==>
      t.movable && exists used :: Uses(t, ep, w, used) && !ClipTaken(w.rows, ep.key, used)
    ensures forall used :: Uses(t, ep, w, used) && StitchSpec.Stitch(t, ep, w).0.Stitched? ==>
      var (outcome, after) := StitchSpec.Stitch(t, ep, w);
      outcome.path in after.files && after.files[outcome.path] == JoinFiles(w.files, Paths(used))
  {
    var used := JoinedOf(t, ep, w);
    forall other ensures Uses(t, ep, w, other) <==> Verified(t, ep, w) && other == used {
      UsesExactly(t, ep, w, other);
    }
    RaisedExactly(t, ep, w);
    TakenIsClipTaken(t, ep, w);
    if StitchSpec.Stitch(t, ep, w).0.Stitched? {
      FootageConserved(t, ep, w, StitchSpec.Stitch(t, ep, w).0.path);
    }
  }

  /** After a clip was made its chunks' rows are gone, the episode's other rows are flagged,
      and every row of another episode is as it was. */
  lemma {:induction false} OthersFlagged(t: Tools, ep: Episode, w: World, used: seq<Row>, r: Row)
    requires StitchSpec.Stitch(t, ep, w).0.Stitched? && Uses(t, ep, w, used) && t.workDir && r in w.rows
    requires forall c :: c in w.rows ==> c.id < w.nextId
    requires forall c :: c in ep.chunks ==> c.id < w.nextId
    requires forall b, c :: b in ep.chunks && c in ep.chunks && b.id == c.id ==> b == c
    ensures var rows := StitchSpec.Stitch(t, ep, w).1.rows;
      if r.id in Ids(used) then forall c :: c in rows ==> c.id != r.id
      else if r.id in Ids(ep.chunks) then r.(state := Some("excluded-stream-mismatch")) in rows
      else r in rows
  {
    UsesExactly(t, ep, w, used);
    IdsSeparate(t, ep, w);
    var rows := StitchSpec.Stitch(t, ep, w).1.rows;
    RowsAfterStitch(t, ep, w, r);
    RowsAfterStitch(t, ep, w, r.(state := Some("excluded-stream-mismatch")));
    if r.id in Ids(used) {
      forall c | c in rows ensures c.id != r.id {
        RowsAfterStitch(t, ep, w, c);
      }
    }
  }

  // ---- When none is -----------------------------------------------------------------------------------

  /** The chunk names a file that is there. */
  function Present(files: map<string, Footage>): Row -> bool {
    (c: Row) => match c.path case Some(p) => p != "" && p in files case None => false
  }

  /** What a call that makes no clip writes on the rows: the first reason that applies, on
      the rows it applies to, and nothing at all where the work directory cannot be made.
      A half-made clip is gone if it could be removed. */
  lemma {:induction false} ReasonsExactly(t: Tools, ep: Episode, w: World)
    ensures var (outcome, after) := StitchSpec.Stitch(t, ep, w);
      var picked := Picked(t, w.files, ep.chunks);
      var tried := if Second(t, picked) then Decodable(t, picked) else picked;
      if |Where(ep.chunks, Present(w.files))| < 2 then
        outcome.NothingWritten? && after == w.(rows := Marked(w.rows, Ids(ep.chunks), "missing-files"))
      else if |picked| < 2 then
        outcome.NothingWritten? && after == w.(rows := Marked(w.rows, Ids(ep.chunks), "inconsistent-streams"))
      else if !t.workDir then
        outcome.Raised? && after == w
      else if !Passes(t, Paths(tried)) then
        && outcome.NothingWritten? && after.rows == Marked(w.rows, Ids(tried), "failed")
        && (t.removable(t.tmp) ==> t.tmp !in after.files)
      else !t.movable ==>
        outcome.NothingWritten? && after.rows == Marked(w.rows, Ids(tried), "move-failed")
  {
    var picked := Picked(t, w.files, ep.chunks);
    WhereSame(ep.chunks, OnDisk(w.files), Present(w.files));
    SecondIsRetry(t, picked);
    TryPasses(t, Paths(Joined(t, picked)));
  }

  // ---- What a pass reports -----------------------------------------------------------------------------

  ghost predicate HasId(rows: seq<Row>, id: int) { exists r :: r in rows && r.id == id }

  /** The rows from id `lo` on are clips, one for each id below `hi`. */
  ghost predicate ClipsFrom(rows: seq<Row>, lo: int, hi: int) {
    && (forall r :: r in rows && r.id >= lo ==> r.id < hi && r.state == Some("stitched"))
    && forall id :: lo <= id < hi ==> HasId(rows, id)
  }

  ghost predicate Below(ids: seq<int>, lo: int) { forall id :: id in ids ==> id < lo }

  lemma {:induction false} IdsBelow(cs: seq<Row>, lo: int)
    ensures (forall c :: c in cs ==> c.id < lo) <==> Below(Ids(cs), lo)
  {
    forall i | 0 <= i < |cs| ensures Ids(cs)[i] in Ids(cs) && cs[i] in cs {
    }
  }

  lemma {:induction false} MarkedClips(rows: seq<Row>, ids: seq<int>, reason: string, lo: int, hi: int)
    requires ClipsFrom(rows, lo, hi) && Below(ids, lo)
    ensures ClipsFrom(Marked(rows, ids, reason), lo, hi)
  {
    var marked := Marked(rows, ids, reason);
    forall i | 0 <= i < |rows| && rows[i].id >= lo ensures marked[i] == rows[i] && marked[i] in marked {
    }
    forall id | lo <= id < hi ensures HasId(marked, id) {
      assert HasId(rows, id);
      var r :| r in rows && r.id == id;
      var i :| 0 <= i < |rows| && rows[i] == r;
      assert marked[i] == r;
    }
    forall r | r in marked && r.id >= lo ensures r in rows {
      var i :| 0 <= i < |marked| && marked[i] == r;
    }
  }

  lemma {:induction false} SwappedClips(rows: seq<Row>, ids: seq<int>, merged: Row, lo: int, hi: int)
    requires ClipsFrom(rows, lo, hi) && Below(ids, lo) && lo <= hi && merged.id == hi && merged.state == Some("stitched")
    ensures ClipsFrom(Where(rows, IdNotIn(ids)) + [merged], lo, hi + 1)
  {
    var kept := Where(rows, IdNotIn(ids));
    var all := kept + [merged];
    WhereMembers(rows, IdNotIn(ids));
    assert all[|kept|] == merged;
    forall id | lo <= id < hi + 1 ensures HasId(all, id) {
      if id < hi {
        assert HasId(rows, id);
        var r :| r in rows && r.id == id;
        assert r in kept && r in all;
      }
    }
    forall r | r in all && r.id >= lo ensures r.id < hi + 1 && r.state == Some("stitched") {
      assert r == merged || r in kept;
    }
  }

  lemma {:induction false} ChunkIdsBelow(t: Tools, ep: Episode, w: World, lo: int)
    requires forall c :: c in ep.chunks ==> c.id < lo
    ensures Below(Ids(ep.chunks), lo) && Below(Ids(JoinedOf(t, ep, w)), lo) && Below(Ids(ExcludedOf(t, ep, w)), lo)
    ensures Below(Ids(Joined(t, Picked(t, w.files, ep.chunks))), lo)
  {
    Stitch.JoinedAreThoseThatGo(t, w.files, ep.chunks);
    WhereMembers(ep.chunks, Goes(t, w.files, ep.chunks));
    WhereMembers(ep.chunks, Stays(t, w.files, ep.chunks));
    IdsBelow(ep.chunks, lo);
    IdsBelow(JoinedOf(t, ep, w), lo);
    IdsBelow(ExcludedOf(t, ep, w), lo);
  }

  lemma {:induction false} CallClips(t: Tools, ep: Episode, w: World, lo: int)
    requires ClipsFrom(w.rows, lo, w.nextId) && lo <= w.nextId && forall c :: c in ep.chunks ==> c.id < lo
    ensures var (outcome, after) := StitchSpec.Stitch(t, ep, w);
      after.nextId == w.nextId + (if outcome.Stitched? then 1 else 0) && ClipsFrom(after.rows, lo, after.nextId)
  {
    var (outcome, after) := StitchSpec.Stitch(t, ep, w);
    var picked := Picked(t, w.files, ep.chunks);
    ChunkIdsBelow(t, ep, w, lo);
    if outcome.Stitched? {
      RowsOfStitched(t, ep, w);
      var joined := JoinedOf(t, ep, w);
      var merged := MergedRow(t, ep.key, joined, outcome.path, w.nextId);
      SwappedClips(w.rows, Ids(joined), merged, lo, w.nextId);
      MarkedClips(Where(w.rows, IdNotIn(Ids(joined))) + [merged], Ids(ExcludedOf(t, ep, w)), "excluded-stream-mismatch", lo, w.nextId + 1);
    } else if outcome.NothingWritten? {
      NothingClips(t, ep, w, lo);
    }
  }

  lemma {:induction false} NothingClips(t: Tools, ep: Episode, w: World, lo: int)
    requires ClipsFrom(w.rows, lo, w.nextId) && StitchSpec.Stitch(t, ep, w).0.NothingWritten?
    requires Below(Ids(ep.chunks), lo) && Below(Ids(Joined(t, Picked(t, w.files, ep.chunks))), lo)
    ensures var after := StitchSpec.Stitch(t, ep, w).1; after.nextId == w.nextId && ClipsFrom(after.rows, lo, w.nextId)
  {
    var tried := Ids(Joined(t, Picked(t, w.files, ep.chunks)));
    MarkedClips(w.rows, Ids(ep.chunks), "missing-files", lo, w.nextId);
    MarkedClips(w.rows, Ids(ep.chunks), "inconsistent-streams", lo, w.nextId);
    MarkedClips(w.rows, tried, "failed", lo, w.nextId);
    MarkedClips(w.rows, tried, "move-failed", lo, w.nextId);
  }

  ghost predicate ChunksBelow(eps: seq<Episode>, lo: int) {
    forall i, c :: 0 <= i < |eps| && c in eps[i].chunks ==> c.id < lo
  }

  /** That many clips were added to the table that began with ids up to `lo`. */
  ghost predicate Added(lo: int, done: nat, after: World) {
    after.nextId == lo + done && ClipsFrom(after.rows, lo, after.nextId)
  }

  lemma {:induction false} OneMoreCall(tools: nat -> Tools, eps: seq<Episode>, i: nat, first: World, done: nat, w: World)
    requires i < |eps| && Stitch.Pass(Stitch.Calls(tools, eps), i, first) == (done, w)
    requires Added(first.nextId, done, w) && ChunksBelow(eps, first.nextId)
    ensures var p := Stitch.Pass(Stitch.Calls(tools, eps), i + 1, first); Added(first.nextId, p.0, p.1)
  {
    Stitch.CallNext(tools, eps, i, first, done, w);
    CallClips(tools(i), eps[i], w, first.nextId);
  }

  /** The first calls of a pass, whatever their outcomes: none is skipped, and the number
      reported is the number of clips, whose rows carry the ids from the first free one on. */
  lemma {:induction false} PassClips(tools: nat -> Tools, eps: seq<Episode>, n: nat, w: World)
    requires n <= |eps| && ClipsFrom(w.rows, w.nextId, w.nextId) && ChunksBelow(eps, w.nextId)
    ensures var p := Stitch.Pass(Stitch.Calls(tools, eps), n, w); Added(w.nextId, p.0, p.1)
    decreases n
  {
    if n != 0 {
      PassClips(tools, eps, n - 1, w);
      var p := Stitch.Pass(Stitch.Calls(tools, eps), n - 1, w);
      OneMoreCall(tools, eps, n - 1, w, p.0, p.1);
    }
  }

  /** A pass reports exactly the clips it leaves in the table: the rows with new ids, each a clip. */
  lemma {:induction false} ReportedExactly(categories: seq<string>, tools: nat -> Tools, quiet: real, w: World)
    requires forall r :: r in w.rows ==> r.id < w.nextId
    ensures var eps := Candidates(categories, w.rows, quiet);
      var (done, after) := Stitch.Pass(Stitch.Calls(tools, eps), |eps|, w);
      after.nextId == w.nextId + done && ClipsFrom(after.rows, w.nextId, w.nextId + done)
  {
    var eps := Candidates(categories, w.rows, quiet);
    forall i, c | 0 <= i < |eps| && c in eps[i].chunks ensures c.id < w.nextId {
      assert eps[i] in eps;
      CandidatesExactly(categories, w.rows, quiet, eps[i]);
      ChunksAreRows(w.rows, eps[i].key);
    }
    PassClips(tools, eps, |eps|, w);
  }
}
