/** Footage conservation: where the frames and the rows of an episode are after a call. */
module StitchConservation {
  import opened Common
  import opened ConcatList
  import opened Filters
  import opened MediaTable
  import opened StitchSpec
  import Stitch

  // ---- Which stream shape wins ------------------------------------------------------------

  lemma {:induction false} ShapesSeen(t: Tools, paths: seq<string>, n: nat, key: string)
    requires n <= |paths|
    ensures key in Shapes(t, paths, n) <==> exists i :: 0 <= i < n && t.streamKey(paths[i]) == Some(key)
    decreases n
  {
    if n != 0 {
      ShapesSeen(t, paths, n - 1, key);
    }
  }

  lemma {:induction false} LeadingWins(t: Tools, paths: seq<string>, shapes: seq<string>, n: nat)
    requires n <= |shapes|
    ensures Leading(t, paths, shapes, n).None? <==> n == 0
    ensures n > 0 ==> exists i :: 0 <= i < n && LeadsAt(t, paths, shapes, n, i) && Leading(t, paths, shapes, n) == Some(shapes[i])
    decreases n
  {
    if n > 1 {
      LeadingWins(t, paths, shapes, n - 1);
      var i :| 0 <= i < n - 1 && LeadsAt(t, paths, shapes, n - 1, i) && Leading(t, paths, shapes, n - 1) == Some(shapes[i]);
      var k := if Votes(t, paths, shapes[n - 1]) > Votes(t, paths, shapes[i]) then n - 1 else i;
      LeadsNext(t, paths, shapes, n - 1, i, k);
    } else if n == 1 {
      assert LeadsAt(t, paths, shapes, 1, 0);
    }
  }

  lemma {:induction false} LeadsNext(t: Tools, paths: seq<string>, shapes: seq<string>, n: nat, i: nat, k: nat)
    requires i < n < |shapes| && LeadsAt(t, paths, shapes, n, i) && Leading(t, paths, shapes, n) == Some(shapes[i])
    requires k == if Votes(t, paths, shapes[n]) > Votes(t, paths, shapes[i]) then n else i
    ensures LeadsAt(t, paths, shapes, n + 1, k) && Leading(t, paths, shapes, n + 1) == Some(shapes[k])
  {
  }

  /** More chunks than every earlier shape, and no fewer than any later one. */
  ghost predicate LeadsAt(t: Tools, paths: seq<string>, shapes: seq<string>, n: nat, i: nat)
    requires i < n <= |shapes|
  {
    && (forall j :: 0 <= j < n ==> Votes(t, paths, shapes[j]) <= Votes(t, paths, shapes[i]))
    && (forall j :: 0 <= j < i ==> Votes(t, paths, shapes[j]) < Votes(t, paths, shapes[i]))
  }

  /** No shape is shared by more chunks than the chosen one, and there is a chosen one
      exactly when some chunk could be probed. */
  lemma {:induction false} MainShapeWins(t: Tools, paths: seq<string>, key: string)
    ensures MainShape(t, paths).None? <==> forall i :: 0 <= i < |paths| ==> t.streamKey(paths[i]).None?
    ensures MainShape(t, paths).Some? ==> Votes(t, paths, key) <= Votes(t, paths, MainShape(t, paths).value)
  {
    var shapes := Shapes(t, paths, |paths|);
    LeadingWins(t, paths, shapes, |shapes|);
    forall k ensures k in shapes <==> exists i :: 0 <= i < |paths| && t.streamKey(paths[i]) == Some(k) {
      ShapesSeen(t, paths, |paths|, k);
    }
    NoMembers(shapes);
    if key !in shapes {
      WhereMembers(paths, HasKey(t, key));
      NoMembers(Where(paths, HasKey(t, key)));
    }
  }

  // ---- Trust and bookkeeping ----------------------------------------------------------------

  /** The contents of the files one after the other. */
  function JoinFiles(files: map<string, Footage>, paths: seq<string>): Footage {
    if paths == [] then [] else
      (if paths[0] in files then files[paths[0]] else []) + JoinFiles(files, paths[1..])
  }

  /** What the checks are trusted for: a clip that passes them holds the listed files,
      in the listed order. */
  ghost predicate Honest(t: Tools, files: map<string, Footage>) {
    forall text: string :: t.ffmpeg(text).ok ==>
      ReadList(text).Ok? && t.ffmpeg(text).out == Some(JoinFiles(files, ReadList(text).value))
  }

  /** The work path is neither a chunk's nor the final one. */
  ghost predicate Apart(t: Tools, ep: Episode) {
    && t.tmp !in Paths(ep.chunks)
    && (ep.chunks != [] ==> t.tmp != t.finalFor(ep.chunks[0]))
  }

  function JoinedOf(t: Tools, ep: Episode, w: World): seq<Row> { Where(ep.chunks, Goes(t, w.files, ep.chunks)) }

  function ExcludedOf(t: Tools, ep: Episode, w: World): seq<Row> { Excluded(t, w.files, ep.chunks) }

  /** The call got as far as a verified join. */
  predicate Verified(t: Tools, ep: Episode, w: World) {
    var picked := Picked(t, w.files, ep.chunks);
    |Existing(w.files, ep.chunks)| >= 2 && |picked| >= 2 && t.workDir && JoinOk(t, picked)
  }

  /** The file at `p` in `a` is at `p` in `b`. */
  predicate Keeps(a: map<string, Footage>, b: map<string, Footage>, p: string) {
    p in a ==> p in b && b[p] == a[p]
  }

  // ---- The attempts touch the work path only ---------------------------------------------

  lemma {:induction false} TriesTouchTmp(t: Tools, files: map<string, Footage>, picked: seq<Row>)
    ensures AfterTries(t, files, picked) - {t.tmp} == files - {t.tmp}
  {
  }

  /** After a verified join the work file holds the joined files, in order. */
  lemma {:induction false} TmpHoldsJoin(t: Tools, files: map<string, Footage>, picked: seq<Row>)
    requires Honest(t, files) && JoinOk(t, picked)
    ensures t.tmp in AfterTries(t, files, picked)
    ensures AfterTries(t, files, picked)[t.tmp] == JoinFiles(files, Paths(Joined(t, picked)))
  {
    RoundTrip(Paths(Joined(t, picked)));
  }

  lemma {:induction false} JoinedPaths(t: Tools, ep: Episode, w: World, c: Row)
    requires c in ep.chunks
    ensures (c.path.Some? && c.path.value in Paths(JoinedOf(t, ep, w))) <==> Goes(t, w.files, ep.chunks)(c)
  {
    var p := Goes(t, w.files, ep.chunks);
    Stitch.ChosenByPath(ep.chunks, p);
    assert Stitch.PathIn(Paths(JoinedOf(t, ep, w)))(c) == p(c);
  }

  lemma {:induction false} JoinedAreChunks(t: Tools, ep: Episode, w: World, p: string)
    requires p in Paths(JoinedOf(t, ep, w))
    ensures p in Paths(ep.chunks)
  {
    var joined := JoinedOf(t, ep, w);
    WhereMembers(ep.chunks, Goes(t, w.files, ep.chunks));
    var i :| 0 <= i < |joined| && Paths(joined)[i] == p;
    assert joined[i] in ep.chunks;
    var j :| 0 <= j < |ep.chunks| && ep.chunks[j] == joined[i];
    assert Paths(ep.chunks)[j] == p;
  }

  lemma {:induction false} JoinedNotEmpty(t: Tools, ep: Episode, w: World)
    requires Verified(t, ep, w)
    ensures JoinedOf(t, ep, w) == Joined(t, Picked(t, w.files, ep.chunks)) && |JoinedOf(t, ep, w)| >= 2
  {
    Stitch.JoinedAreThoseThatGo(t, w.files, ep.chunks);
  }

  // ---- Files after a verified join -----------------------------------------------------------

  /** What the directory looks like once sources are unlinked. */
  lemma {:induction false} FilesAfterUnlink(t: Tools, ep: Episode, w: World, p: string)
    requires Verified(t, ep, w) && Honest(t, w.files) && Apart(t, ep)
    ensures var left := AfterTries(t, w.files, Picked(t, w.files, ep.chunks))
        - Unlinked(t, JoinedOf(t, ep, w), t.finalFor(ep.chunks[0]));
      && t.tmp in left && left[t.tmp] == JoinFiles(w.files, Paths(JoinedOf(t, ep, w)))
      && (p in Unlinked(t, JoinedOf(t, ep, w), t.finalFor(ep.chunks[0])) ==> p !in left)
      && (p != t.tmp && p !in Unlinked(t, JoinedOf(t, ep, w), t.finalFor(ep.chunks[0])) ==>
          (p in left <==> p in w.files) && (p in left ==> left[p] == w.files[p]))
  {
    var picked := Picked(t, w.files, ep.chunks);
    JoinedNotEmpty(t, ep, w);
    TmpHoldsJoin(t, w.files, picked);
    TriesTouchTmp(t, w.files, picked);
    if t.tmp in Paths(JoinedOf(t, ep, w)) {
      JoinedAreChunks(t, ep, w, t.tmp);
    }
    var after := AfterTries(t, w.files, picked);
    if p != t.tmp {
      assert p in after <==> p in after - {t.tmp};
      assert p in w.files <==> p in w.files - {t.tmp};
      assert p in after ==> after[p] == (after - {t.tmp})[p];
    }
  }

  /** On success the final file holds exactly the joined chunks' contents in play
      order, joined sources are gone where they could be removed, and every other file
      is as it was. */
  lemma {:induction false} FootageConserved(t: Tools, ep: Episode, w: World, p: string)
    requires Honest(t, w.files) && Apart(t, ep) && StitchSpec.Stitch(t, ep, w).0.Stitched?
    ensures var (outcome, after) := StitchSpec.Stitch(t, ep, w); var joined := Paths(JoinedOf(t, ep, w));
      && Verified(t, ep, w) && |joined| >= 2 && outcome.path == t.finalFor(ep.chunks[0])
      && outcome.path in after.files && after.files[outcome.path] == JoinFiles(w.files, joined)
      && t.tmp !in after.files
      && (p in joined && p != outcome.path && t.removable(p) ==> p !in after.files)
      && (p != outcome.path && p != t.tmp && !(p in joined && t.removable(p)) ==>
          (p in after.files <==> p in w.files) && Keeps(w.files, after.files, p))
  {
    JoinedNotEmpty(t, ep, w);
    FilesAfterUnlink(t, ep, w, p);
    FilesAfterUnlink(t, ep, w, t.finalFor(ep.chunks[0]));
  }

  /** A file left out of the join survives exactly when it does not lie where the
      clip goes, or happens to equal the clip. */
  lemma {:induction false} ExcludedSurvives(t: Tools, ep: Episode, w: World, c: Row)
    requires Honest(t, w.files) && Apart(t, ep) && StitchSpec.Stitch(t, ep, w).0.Stitched?
    requires c in ExcludedOf(t, ep, w) && OnDisk(w.files)(c)
    ensures var (outcome, after) := StitchSpec.Stitch(t, ep, w); var p := c.path.value;
      Keeps(w.files, after.files, p) <==>
        p != outcome.path || w.files[p] == JoinFiles(w.files, Paths(JoinedOf(t, ep, w)))
  {
    WhereMembers(ep.chunks, Stays(t, w.files, ep.chunks));
    JoinedPaths(t, ep, w, c);
    FootageConserved(t, ep, w, c.path.value);
    var i :| 0 <= i < |ep.chunks| && ep.chunks[i] == c;
    assert Paths(ep.chunks)[i] == c.path.value;
  }

  // ---- Calls that write nothing ------------------------------------------------------------------

  ghost predicate ChunksKept(ep: Episode, a: map<string, Footage>, b: map<string, Footage>) {
    forall p :: p in Paths(ep.chunks) ==> Keeps(a, b, p)
  }

  /** Before the join is verified no file but the work file changes. */
  lemma {:induction false} NothingLostBeforeVerified(t: Tools, ep: Episode, w: World)
    requires !Verified(t, ep, w)
    ensures var (outcome, after) := StitchSpec.Stitch(t, ep, w);
      !outcome.Stitched? && after.files - {t.tmp} == w.files - {t.tmp}
  {
    var picked := Picked(t, w.files, ep.chunks);
    if |Existing(w.files, ep.chunks)| >= 2 && |picked| >= 2 {
      TriesTouchTmp(t, w.files, picked);
      var after := AfterTries(t, w.files, picked);
      assert after - {t.tmp} - {t.tmp} == after - {t.tmp};
    }
  }

  /** A call that returns nothing has kept every chunk exactly when the join was never
      verified or no source could be unlinked; when the move fails after the unlinking,
      the footage is in the work file. */
  lemma {:induction false} NothingWrittenKeepsChunks(t: Tools, ep: Episode, w: World)
    requires Honest(t, w.files) && Apart(t, ep) && StitchSpec.Stitch(t, ep, w).0.NothingWritten?
    ensures var after := StitchSpec.Stitch(t, ep, w).1;
      && (ChunksKept(ep, w.files, after.files) <==>
          !Verified(t, ep, w) || Unlinked(t, JoinedOf(t, ep, w), t.finalFor(ep.chunks[0])) == {})
      && (Verified(t, ep, w) ==>
          !t.movable && t.tmp in after.files && after.files[t.tmp] == JoinFiles(w.files, Paths(JoinedOf(t, ep, w))))
  {
    var after := StitchSpec.Stitch(t, ep, w).1;
    if Verified(t, ep, w) {
      JoinedNotEmpty(t, ep, w);
      var gone := Unlinked(t, JoinedOf(t, ep, w), t.finalFor(ep.chunks[0]));
      FilesAfterUnlink(t, ep, w, t.tmp);
      if gone == {} {
        forall p | p in Paths(ep.chunks) ensures Keeps(w.files, after.files, p) {
          FilesAfterUnlink(t, ep, w, p);
        }
      } else {
        var p :| p in gone;
        FilesAfterUnlink(t, ep, w, p);
        JoinedOnDisk(t, ep, w, p);
        JoinedAreChunks(t, ep, w, p);
        assert !Keeps(w.files, after.files, p);
      }
    } else {
      NothingLostBeforeVerified(t, ep, w);
      forall p | p in Paths(ep.chunks) ensures Keeps(w.files, after.files, p) {
        assert p in w.files ==> p in w.files - {t.tmp} && (w.files - {t.tmp})[p] == w.files[p];
      }
    }
  }

  lemma {:induction false} JoinedOnDisk(t: Tools, ep: Episode, w: World, p: string)
    requires p in Paths(JoinedOf(t, ep, w))
    ensures p in w.files
  {
    var joined := JoinedOf(t, ep, w);
    WhereMembers(ep.chunks, Goes(t, w.files, ep.chunks));
    var i :| 0 <= i < |joined| && Paths(joined)[i] == p;
    assert joined[i] in joined;
    assert OnDisk(w.files)(joined[i]);
  }

  /** Whatever the outcome, the frames of every file are still at its path, or in a
      clip at the final or the work path; only a file that lay where the clip went and
      was not part of the join can be lost. */
  lemma {:induction false} OnlyOverwrittenFootageIsLost(t: Tools, ep: Episode, w: World, p: string)
    requires Honest(t, w.files) && Apart(t, ep) && p in w.files && p != t.tmp
    ensures var (outcome, after) := StitchSpec.Stitch(t, ep, w);
      var joined := Paths(JoinedOf(t, ep, w)); var clip := JoinFiles(w.files, joined);
      || Keeps(w.files, after.files, p)
      || (p in joined && (exists q :: q in after.files && after.files[q] == clip))
      || (Verified(t, ep, w) && !outcome.NothingWritten? && p !in joined && p == t.finalFor(ep.chunks[0]) && w.files[p] != clip)
  {
    var after := StitchSpec.Stitch(t, ep, w).1;
    if Verified(t, ep, w) {
      JoinedNotEmpty(t, ep, w);
      FilesAfterUnlink(t, ep, w, p);
      FilesAfterUnlink(t, ep, w, t.finalFor(ep.chunks[0]));
      var final := t.finalFor(ep.chunks[0]);
      var q := if StitchSpec.Stitch(t, ep, w).0.NothingWritten? then t.tmp else final;
      assert q in after.files && after.files[q] == JoinFiles(w.files, Paths(JoinedOf(t, ep, w)));
    } else {
      NothingLostBeforeVerified(t, ep, w);
      assert p in w.files - {t.tmp} && (w.files - {t.tmp})[p] == w.files[p];
    }
  }

  // ---- Rows ---------------------------------------------------------------------------------------

  predicate Taken(t: Tools, ep: Episode, w: World) {
    HasFile(Where(w.rows, IdNotIn(Ids(JoinedOf(t, ep, w)))), FileIdOf(ep.key))
  }

  /** Past the work directory, the call raises exactly when a verified join was moved
      into place and another row already carries the clip's file id. The chunk rows are
      then untouched although their files are gone, and no row leads to the clip. */
  lemma {:induction false} RaisedExactly(t: Tools, ep: Episode, w: World)
    requires Honest(t, w.files) && Apart(t, ep) && t.workDir
    ensures var (outcome, after) := StitchSpec.Stitch(t, ep, w);
      && (outcome.Raised? <==> Verified(t, ep, w) && t.movable && Taken(t, ep, w))
      && (outcome.Stitched? <==> Verified(t, ep, w) && t.movable && !Taken(t, ep, w))
      && (outcome.Raised? ==>
          after.rows == w.rows && t.finalFor(ep.chunks[0]) in after.files && after.files[t.finalFor(ep.chunks[0])] == JoinFiles(w.files, Paths(JoinedOf(t, ep, w))))
  {
    if Verified(t, ep, w) {
      JoinedNotEmpty(t, ep, w);
      FilesAfterUnlink(t, ep, w, t.tmp);
    }
  }

  /** The deleted ids and the flagged ids are the episode's ids, each once. */
  lemma {:induction false} IdsPartition(t: Tools, ep: Episode, w: World)
    ensures multiset(Ids(JoinedOf(t, ep, w))) + multiset(Ids(ExcludedOf(t, ep, w))) == multiset(Ids(ep.chunks))
  {
    var joined, excluded := JoinedOf(t, ep, w), ExcludedOf(t, ep, w);
    WhereSplits(ep.chunks, |ep.chunks|, Goes(t, w.files, ep.chunks), Stays(t, w.files, ep.chunks));
    assert ep.chunks[..|ep.chunks|] == ep.chunks;
    BagAppend(joined, excluded);
    MapPermutation(RowId, joined + excluded, ep.chunks);
    MapConcat(RowId, joined, excluded);
  }

  lemma {:induction false} BagAppend<T>(xs: seq<T>, ys: seq<T>)
    ensures multiset(xs + ys) == multiset(xs) + multiset(ys)
  {
  }

  /** On success the table is: the rows outside the episode as they were, the excluded
      chunks flagged, and one merged row from the first joined start to the last end. */
  lemma {:induction false} RowsAfterStitch(t: Tools, ep: Episode, w: World, r: Row)
    requires StitchSpec.Stitch(t, ep, w).0.Stitched?
    requires forall c :: c in ep.chunks ==> c.id < w.nextId
    requires forall b, c :: b in ep.chunks && c in ep.chunks && b.id == c.id ==> b == c
    ensures var (outcome, after) := StitchSpec.Stitch(t, ep, w); var joined := JoinedOf(t, ep, w);
      joined != [] && (r in after.rows <==>
        || (r in w.rows && r.id !in Ids(ep.chunks))
        || (exists c :: c in w.rows && c.id in Ids(ExcludedOf(t, ep, w)) && r == c.(state := Some("excluded-stream-mismatch")))
        || r == Row(w.nextId, "stitched:" + ep.key.rel + ":" + ep.key.category, ep.key.device, Some(ep.key.rel), ep.key.category, Some(outcome.path),
                    t.now, joined[0].start, joined[|joined| - 1].end, true, Some("stitched")))
  {
    RowsOfStitched(t, ep, w);
    IdsSeparate(t, ep, w);
    var joined := JoinedOf(t, ep, w);
    var merged := MergedRow(t, ep.key, joined, t.finalFor(ep.chunks[0]), w.nextId);
    MarkedMembers(w.rows, merged, Ids(joined), Ids(ExcludedOf(t, ep, w)), Ids(ep.chunks), r);
  }

  lemma {:induction false} RowsOfStitched(t: Tools, ep: Episode, w: World)
    requires StitchSpec.Stitch(t, ep, w).0.Stitched?
    ensures var (outcome, after) := StitchSpec.Stitch(t, ep, w); var joined := JoinedOf(t, ep, w);
      joined != [] && outcome.path == t.finalFor(ep.chunks[0]) && !Taken(t, ep, w) &&
      after.rows == Marked(Where(w.rows, IdNotIn(Ids(joined))) + [MergedRow(t, ep.key, joined, outcome.path, w.nextId)],
                           Ids(ExcludedOf(t, ep, w)), "excluded-stream-mismatch")
  {
    JoinedNotEmpty(t, ep, w);
  }

  lemma {:induction false} MarkedMembers(rows: seq<Row>, merged: Row, joined: seq<int>, excluded: seq<int>, all: seq<int>, r: Row)
    requires merged.id !in all && forall id :: id in all <==> id in joined || id in excluded
    requires forall id :: id in joined ==> id !in excluded
    ensures r in Marked(Where(rows, IdNotIn(joined)) + [merged], excluded, "excluded-stream-mismatch") <==>
      || (r in rows && r.id !in all)
      || (exists c :: c in rows && c.id in excluded && r == c.(state := Some("excluded-stream-mismatch")))
      || r == merged
  {
    var kept := Where(rows, IdNotIn(joined));
    var after := Marked(kept + [merged], excluded, "excluded-stream-mismatch");
    WhereMembers(rows, IdNotIn(joined));
    if r in after {
      var i :| 0 <= i < |after| && after[i] == r;
      assert i < |kept| ==> kept[i] in kept;
    }
    if r in rows && r.id !in all {
      var i :| 0 <= i < |kept| && kept[i] == r;
      assert after[i] == r;
    }
    if c :| c in rows && c.id in excluded && r == c.(state := Some("excluded-stream-mismatch")) {
      assert c in kept;
      var i :| 0 <= i < |kept| && kept[i] == c;
      assert after[i] == r;
    }
    assert after[|kept|] == merged;
  }

  lemma {:induction false} IdsSeparate(t: Tools, ep: Episode, w: World)
    requires forall c :: c in ep.chunks ==> c.id < w.nextId
    requires forall b, c :: b in ep.chunks && c in ep.chunks && b.id == c.id ==> b == c
    ensures w.nextId !in Ids(ep.chunks)
    ensures forall id :: id in Ids(ep.chunks) <==> id in Ids(JoinedOf(t, ep, w)) || id in Ids(ExcludedOf(t, ep, w))
    ensures forall id :: id in Ids(JoinedOf(t, ep, w)) ==> id !in Ids(ExcludedOf(t, ep, w))
  {
    forall id ensures id in Ids(ep.chunks) <==> id in Ids(JoinedOf(t, ep, w)) || id in Ids(ExcludedOf(t, ep, w)) {
      IdsPartition(t, ep, w);
      assert id in Ids(ep.chunks) <==> id in multiset(Ids(ep.chunks));
    }
    forall i | 0 <= i < |ep.chunks| ensures Ids(ep.chunks)[i] != w.nextId {
      assert ep.chunks[i] in ep.chunks;
    }
    forall id | id in Ids(JoinedOf(t, ep, w)) ensures id !in Ids(ExcludedOf(t, ep, w)) {
      Stitch.IdOfChosen(ep.chunks, Goes(t, w.files, ep.chunks), id);
      Stitch.IdOfChosen(ep.chunks, Stays(t, w.files, ep.chunks), id);
    }
  }
}
