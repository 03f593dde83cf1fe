/** The stitcher: joins a finished episode's chunk files and swaps their rows, step by step. */
module Stitch {
  import opened Common
  import opened ConcatList
  import opened Filters
  import opened MediaTable
  import opened StitchSpec

  /** The chunks still on disk, in order. */
  method ExistingChunkPaths(files: map<string, Footage>, cs: seq<Row>) returns (paths: seq<string>)
    ensures paths == Paths(Existing(files, cs))
  {
    paths := [];
    for i := 0 to |cs|
      invariant paths == Paths(WhereUpTo(cs, i, OnDisk(files)))
    {
      if cs[i].path.Some? && cs[i].path.value != "" && cs[i].path.value in files {
        MapSnoc(PathOf, WhereUpTo(cs, i, OnDisk(files)), cs[i]);
        paths := paths + [cs[i].path.value];
      }
    }
  }

  function Bucket(byKey: map<string, seq<string>>, key: string): seq<string> {
    if key in byKey then byKey[key] else []
  }

  /** The paths filed under each stream shape. */
  ghost predicate Filed(t: Tools, paths: seq<string>, n: nat, byKey: map<string, seq<string>>)
    requires n <= |paths|
  {
    forall k :: Bucket(byKey, k) == WhereUpTo(paths, n, HasKey(t, k))
  }

  lemma {:induction false} FiledNext(t: Tools, paths: seq<string>, n: nat, byKey: map<string, seq<string>>)
    requires n < |paths| && Filed(t, paths, n, byKey)
    ensures var key := t.streamKey(paths[n]);
      Filed(t, paths, n + 1, if key.Some? then byKey[key.value := Bucket(byKey, key.value) + [paths[n]]] else byKey)
  {
    var key := t.streamKey(paths[n]);
    var after := if key.Some? then byKey[key.value := Bucket(byKey, key.value) + [paths[n]]] else byKey;
    forall k ensures Bucket(after, k) == WhereUpTo(paths, n + 1, HasKey(t, k)) {
      assert Bucket(byKey, k) == WhereUpTo(paths, n, HasKey(t, k));
    }
  }

  /** The dictionary of shapes, its keys in insertion order. */
  method FileByStream(t: Tools, paths: seq<string>) returns (shapes: seq<string>, byKey: map<string, seq<string>>)
    ensures shapes == Shapes(t, paths, |paths|)
    ensures Filed(t, paths, |paths|, byKey)
  {
    shapes, byKey := [], map[];
    for i := 0 to |paths|
      invariant shapes == Shapes(t, paths, i)
      invariant byKey.Keys == set k | k in shapes
      invariant Filed(t, paths, i, byKey)
    {
      var key := t.streamKey(paths[i]);
      FiledNext(t, paths, i, byKey);
      if key.Some? {
        if key.value !in byKey {
          shapes := shapes + [key.value];
        }
        byKey := byKey[key.value := Bucket(byKey, key.value) + [paths[i]]];
      }
    }
  }

  /** The longest bucket's shape, the earliest on a tie. */
  method LongestBucket(t: Tools, paths: seq<string>, shapes: seq<string>, byKey: map<string, seq<string>>)
    returns (best: Option<string>)
    requires Filed(t, paths, |paths|, byKey)
    ensures best == Leading(t, paths, shapes, |shapes|)
  {
    best := None;
    for i := 0 to |shapes|
      invariant best == Leading(t, paths, shapes, i)
    {
      assert Bucket(byKey, shapes[i]) == Where(paths, HasKey(t, shapes[i]));
      assert best.Some? ==> Bucket(byKey, best.value) == Where(paths, HasKey(t, best.value));
      if best.None? || |Bucket(byKey, shapes[i])| > |Bucket(byKey, best.value)| {
        best := Some(shapes[i]);
      }
    }
  }

  /** The majority stream shape's paths and everything else, both in order. */
  method SplitByStream(t: Tools, paths: seq<string>) returns (main: seq<string>, outliers: seq<string>)
    ensures var key := MainShape(t, paths);
      main == (if key.Some? then Where(paths, HasKey(t, key.value)) else []) && outliers == Where(paths, Unlike(t, key))
  {
    var shapes, byKey := FileByStream(t, paths);
    var best := LongestBucket(t, paths, shapes, byKey);
    if best.None? {
      UpToAll(paths, |paths|, Unlike(t, None));
      assert paths[..|paths|] == paths;
      return [], paths;
    }
    assert Bucket(byKey, best.value) == Where(paths, HasKey(t, best.value));
    main, outliers := Parted(t, paths, best.value, Bucket(byKey, best.value));
  }

  /** The paths in a bucket and those outside it. */
  method Parted(t: Tools, paths: seq<string>, key: string, bucket: seq<string>) returns (main: seq<string>, outliers: seq<string>)
    requires bucket == Where(paths, HasKey(t, key))
    ensures main == Where(paths, HasKey(t, key)) && outliers == Where(paths, Unlike(t, Some(key)))
  {
    main, outliers := [], [];
    for i := 0 to |paths|
      invariant main == WhereUpTo(paths, i, HasKey(t, key)) && outliers == WhereUpTo(paths, i, Unlike(t, Some(key)))
    {
      WhereMember(paths, HasKey(t, key), paths[i]);
      if paths[i] in bucket {
        main := main + [paths[i]];
      } else {
        outliers := outliers + [paths[i]];
      }
    }
  }

  class Disk {
    var files: map<string, Footage>

    /** Writes the list, runs ffmpeg over it and checks what it made. */
    method ConcatVideos(t: Tools, paths: seq<string>) returns (ok: bool)
      modifies this
      ensures ok == Try(t, paths).ok
      ensures files == Wrote(old(files), t.tmp, Try(t, paths))
    {
      match WriteList(paths)
      case Err(_) =>
        ok := false;
      case Ok(text) =>
        var attempt := t.ffmpeg(text);
        if attempt.out.Some? {
          files := files[t.tmp := attempt.out.value];
        }
        ok := attempt.ok;
    }

    /** Unlinks each path; a failure is logged and the next one tried. */
    method RemoveFiles(t: Tools, paths: seq<string>)
      modifies this
      ensures files == old(files) - (set p | p in paths && t.removable(p))
    {
      for i := 0 to |paths|
        invariant files == old(files) - (set p | p in paths[..i] && t.removable(p))
      {
        Snoc(paths, i);
        if paths[i] in files && t.removable(paths[i]) {
          files := files - {paths[i]};
        }
      }
      assert paths[..|paths|] == paths;
    }

    /** The half-made clip goes, if it is there and can be removed. */
    method Discard(t: Tools)
      modifies this
      ensures files == if t.removable(t.tmp) then old(files) - {t.tmp} else old(files)
    {
      if t.tmp in files && t.removable(t.tmp) {
        files := files - {t.tmp};
      }
    }

    method MoveIntoPlace(t: Tools, final: string) returns (ok: bool)
      modifies this
      ensures ok == (t.movable && t.tmp in old(files))
      ensures files == if ok then (old(files) - {t.tmp})[final := old(files)[t.tmp]] else old(files)
    {
      if !t.movable || t.tmp !in files {
        return false;
      }
      files := (files - {t.tmp})[final := files[t.tmp]];
      ok := true;
    }
  }

  // ---- Rows chosen by their paths ---------------------------------------------------------

  function PathIn(paths: seq<string>): Row -> bool { (c: Row) => c.path.Some? && c.path.value in paths }

  function PathNotIn(paths: seq<string>): Row -> bool { (c: Row) => !PathIn(paths)(c) }

  lemma {:induction false} MatchingPaths(t: Tools, files: map<string, Footage>, cs: seq<Row>, key: string)
    ensures Where(Paths(Existing(files, cs)), HasKey(t, key)) == Paths(Where(cs, Matching(t, files, Some(key))))
  {
    var p := (c: Row) => HasKey(t, key)(PathOf(c));
    var there := Existing(files, cs);
    var both := Matching(t, files, Some(key));
    WhereOfMap(PathOf, there, |there|, p, HasKey(t, key));
    forall i | 0 <= i < |cs| ensures both(cs[i]) == (OnDisk(files)(cs[i]) && p(cs[i])) {
      assert OnDisk(files)(cs[i]) ==> PathOf(cs[i]) == cs[i].path.value;
    }
    WhereTwice(cs, |cs|, OnDisk(files), p, both);
  }

  lemma {:induction false} PathsOfPicked(t: Tools, files: map<string, Footage>, cs: seq<Row>)
    ensures var paths := Paths(Existing(files, cs)); var key := MainShape(t, paths);
      (if key.Some? then Where(paths, HasKey(t, key.value)) else []) == Paths(Picked(t, files, cs))
  {
    var key := MainShape(t, Paths(Existing(files, cs)));
    if key.Some? {
      MatchingPaths(t, files, cs, key.value);
    } else {
      WhereMembers(cs, Matching(t, files, None));
      NoMembers(Picked(t, files, cs));
    }
  }

  /** A choice that depends on the path alone can be made by the set of chosen paths. */
  lemma {:induction false} ChosenByPath(cs: seq<Row>, p: Row -> bool)
    requires forall c :: c in cs && p(c) ==> c.path.Some?
    requires forall b, c :: b in cs && c in cs && b.path == c.path ==> p(b) == p(c)
    ensures Where(cs, PathIn(Paths(Where(cs, p)))) == Where(cs, p)
    ensures forall c :: c in cs ==> PathIn(Paths(Where(cs, p)))(c) == p(c)
  {
    var chosen := Where(cs, p);
    WhereMembers(cs, p);
    forall c | c in cs ensures PathIn(Paths(chosen))(c) == p(c) {
      if p(c) {
        var i :| 0 <= i < |chosen| && chosen[i] == c;
        assert Paths(chosen)[i] == c.path.value;
      }
      if PathIn(Paths(chosen))(c) {
        var i :| 0 <= i < |chosen| && Paths(chosen)[i] == c.path.value;
        assert chosen[i] in chosen && chosen[i].path == c.path;
      }
    }
    WhereSame(cs, PathIn(Paths(chosen)), p);
  }

  lemma {:induction false} DecodablePaths(t: Tools, picked: seq<Row>)
    ensures Where(Paths(picked), t.decodable) == Paths(Where(picked, Sound(t)))
  {
    WhereOfMap(PathOf, picked, |picked|, Sound(t), t.decodable);
  }

  // ---- One episode ---------------------------------------------------------------------------

  function Undecodable(t: Tools): string -> bool { p => !t.decodable(p) }

  /** Joins the paths, and once more without the undecodable ones when that came out
      wrong. Returns the rows that went into the last attempt. */
  method JoinChunks(disk: Disk, t: Tools, picked: seq<Row>, paths: seq<string>)
    returns (ok: bool, chunks: seq<Row>, broken: seq<string>)
    requires paths == Paths(picked) && forall c :: c in picked ==> c.path.Some?
    modifies disk
    ensures ok == JoinOk(t, picked) && chunks == Joined(t, picked)
    ensures broken == if Retries(t, picked) then Where(paths, Undecodable(t)) else []
    ensures disk.files == AfterTries(t, old(disk.files), picked)
  {
    chunks, broken := picked, [];
    ok := disk.ConcatVideos(t, paths);
    if !ok && |paths| > 2 {
      var good := Where(paths, t.decodable);
      var bad := Where(paths, Undecodable(t));
      DecodablePaths(t, picked);
      PartSizes(t, paths);
      if bad != [] && |good| >= 2 {
        ChosenByPath(picked, Sound(t));
        chunks := Where(picked, PathIn(good));
        broken := bad;
        ok := disk.ConcatVideos(t, good);
      }
    }
  }

  lemma {:induction false} PartSizes(t: Tools, paths: seq<string>)
    ensures |Where(paths, t.decodable)| + |Where(paths, Undecodable(t))| == |paths|
  {
    WhereSplits(paths, |paths|, t.decodable, Undecodable(t));
    assert paths[..|paths|] == paths;
    assert |multiset(Where(paths, t.decodable)) + multiset(Where(paths, Undecodable(t)))| == |multiset(paths)|;
  }

  /** The verified join replaces its sources, on disk and in the table. */
  method ReplaceChunks(store: Table, disk: Disk, t: Tools, k: Key, chunks: seq<Row>, excluded: seq<int>, final: string)
    returns (outcome: Outcome)
    requires chunks != []
    modifies store, disk
    ensures (outcome, World(disk.files, store.rows, store.nextId))
      == Commit(t, k, chunks, excluded, final, old(World(disk.files, store.rows, store.nextId)))
  {
    var paths := Paths(chunks);
    disk.RemoveFiles(t, Where(paths, NotFinal(final)));
    WhereMembers(paths, NotFinal(final));
    assert disk.files == old(disk.files) - Unlinked(t, chunks, final);
    var moved := disk.MoveIntoPlace(t, final);
    if !moved {
      store.MarkStitchFailed(Ids(chunks), "move-failed");
      return NothingWritten;
    }
    var id := store.ReplaceChunksWithStitched(Ids(chunks), MergedRow(t, k, chunks, final, 0));
    if id.None? {
      return Raised;
    }
    store.MarkStitchFailed(excluded, "excluded-stream-mismatch");
    outcome := Stitched(final);
  }

  function NotFinal(final: string): string -> bool { p => p != final }

  lemma {:induction false} PickedByPath(t: Tools, files: map<string, Footage>, cs: seq<Row>)
    ensures var picked := Picked(t, files, cs);
      && Where(cs, PathIn(Paths(picked))) == picked
      && (forall c :: c in picked ==> c in cs && c.path.Some?)
      && forall c :: c in cs ==> PathIn(Paths(picked))(c) == Matching(t, files, MainShape(t, Paths(Existing(files, cs))))(c)
  {
    var main := Matching(t, files, MainShape(t, Paths(Existing(files, cs))));
    WhereMembers(cs, main);
    ChosenByPath(cs, main);
  }

  /** The chunks joined are those that match the main shape and, after a retry, decode. */
  lemma {:induction false} JoinedAreThoseThatGo(t: Tools, files: map<string, Footage>, cs: seq<Row>)
    ensures Joined(t, Picked(t, files, cs)) == Where(cs, Goes(t, files, cs))
  {
    var main := Matching(t, files, MainShape(t, Paths(Existing(files, cs))));
    if Retries(t, Picked(t, files, cs)) {
      WhereTwice(cs, |cs|, main, Sound(t), Goes(t, files, cs));
    } else {
      WhereSame(cs, main, Goes(t, files, cs));
    }
  }

  lemma {:induction false} BrokenByPath(t: Tools, picked: seq<Row>, c: Row)
    requires c.path.Some?
    ensures PathIn(Where(Paths(picked), Undecodable(t)))(c) <==> PathIn(Paths(picked))(c) && !t.decodable(c.path.value)
  {
    WhereMember(Paths(picked), Undecodable(t), c.path.value);
  }

  /** Left out by stream shape, or afterwards as undecodable: together, every chunk not joined. */
  lemma {:induction false} LeftOut(t: Tools, files: map<string, Footage>, cs: seq<Row>, c: Row)
    requires c in cs
    ensures var picked := Picked(t, files, cs);
      var broken := if Retries(t, picked) then Where(Paths(picked), Undecodable(t)) else [];
      Stays(t, files, cs)(c) <==> PathNotIn(Paths(picked))(c) || PathIn(broken)(c)
  {
    PickedByPath(t, files, cs);
    var picked := Picked(t, files, cs);
    var main := Matching(t, files, MainShape(t, Paths(Existing(files, cs))));
    assert PathIn(Paths(picked))(c) == main(c);
    assert Goes(t, files, cs)(c) == (main(c) && (Retries(t, picked) ==> t.decodable(PathOf(c))));
    if c.path.Some? {
      BrokenByPath(t, picked, c);
    }
  }

  lemma {:induction false} IdOfChosen(cs: seq<Row>, p: Row -> bool, id: int)
    ensures id in Ids(Where(cs, p)) <==> exists c :: c in cs && p(c) && c.id == id
  {
    var chosen := Where(cs, p);
    WhereMembers(cs, p);
    if id in Ids(chosen) {
      var i :| 0 <= i < |chosen| && Ids(chosen)[i] == id;
      assert chosen[i] in chosen && chosen[i].id == id;
    }
    if c :| c in cs && p(c) && c.id == id {
      assert c in chosen;
      var i :| 0 <= i < |chosen| && chosen[i] == c;
      assert Ids(chosen)[i] == id;
    }
  }

  lemma {:induction false} ExcludedInTwoSteps(t: Tools, files: map<string, Footage>, cs: seq<Row>, id: int)
    ensures var picked := Picked(t, files, cs);
      var broken := if Retries(t, picked) then Where(Paths(picked), Undecodable(t)) else [];
      id in Ids(Where(cs, PathNotIn(Paths(picked)))) + Ids(Where(cs, PathIn(broken))) <==> id in Ids(Excluded(t, files, cs))
  {
    var picked := Picked(t, files, cs);
    var broken := if Retries(t, picked) then Where(Paths(picked), Undecodable(t)) else [];
    IdOfChosen(cs, PathNotIn(Paths(picked)), id);
    IdOfChosen(cs, PathIn(broken), id);
    IdOfChosen(cs, Stays(t, files, cs), id);
    forall c | c in cs ensures Stays(t, files, cs)(c) <==> PathNotIn(Paths(picked))(c) || PathIn(broken)(c) {
      LeftOut(t, files, cs, c);
    }
  }

  /** Which rows a mark touches depends on the members of the id list alone. */
  lemma {:induction false} CommitSame(t: Tools, k: Key, joined: seq<Row>, a: seq<int>, b: seq<int>, final: string, w: World)
    requires joined != [] && forall id :: id in a <==> id in b
    ensures Commit(t, k, joined, a, final, w) == Commit(t, k, joined, b, final, w)
  {
    var swapped := Swapped(w.rows, Ids(joined), MergedRow(t, k, joined, final, w.nextId));
    if swapped.Some? {
      assert Marked(swapped.value, a, "excluded-stream-mismatch") == Marked(swapped.value, b, "excluded-stream-mismatch");
    }
  }

  /** The same ids are left out whether they are found by path or by row. */
  lemma {:induction false} ExcludedSame(t: Tools, k: Key, files: map<string, Footage>, cs: seq<Row>, joined: seq<Row>,
                                        final: string, w: World)
    requires joined != []
    ensures var picked := Picked(t, files, cs);
      var broken := if Retries(t, picked) then Where(Paths(picked), Undecodable(t)) else [];
      Commit(t, k, joined, Ids(Where(cs, PathNotIn(Paths(picked)))) + Ids(Where(cs, PathIn(broken))), final, w)
        == Commit(t, k, joined, Ids(Excluded(t, files, cs)), final, w)
  {
    var picked := Picked(t, files, cs);
    var broken := if Retries(t, picked) then Where(Paths(picked), Undecodable(t)) else [];
    var found := Ids(Where(cs, PathNotIn(Paths(picked)))) + Ids(Where(cs, PathIn(broken)));
    forall id ensures id in found <==> id in Ids(Excluded(t, files, cs)) {
      ExcludedInTwoSteps(t, files, cs, id);
    }
    CommitSame(t, k, joined, found, Ids(Excluded(t, files, cs)), final, w);
  }

  /** From the chosen paths to the end of the call. */
  method JoinAndSettle(store: Table, disk: Disk, t: Tools, ep: Episode, paths: seq<string>) returns (outcome: Outcome)
    requires var picked := Picked(t, disk.files, ep.chunks); paths == Paths(picked) && |picked| >= 2
    modifies store, disk
    ensures (outcome, World(disk.files, store.rows, store.nextId))
      == old(Settled(t, ep, Picked(t, disk.files, ep.chunks), World(disk.files, store.rows, store.nextId)))
  {
    ghost var files := disk.files;
    PickedByPath(t, files, ep.chunks);
    var chunks := Where(ep.chunks, PathIn(paths));
    var excluded := Ids(Where(ep.chunks, PathNotIn(paths)));
    var final := t.finalFor(ep.chunks[0]);
    if !t.workDir {
      return Raised;
    }
    var ok, broken;
    ok, chunks, broken := JoinChunks(disk, t, chunks, paths);
    excluded := excluded + Ids(Where(ep.chunks, PathIn(broken)));
    if !ok {
      disk.Discard(t);
      store.MarkStitchFailed(Ids(chunks), "failed");
      return NothingWritten;
    }
    ExcludedSame(t, ep.key, files, ep.chunks, chunks, final, World(disk.files, store.rows, store.nextId));
    outcome := ReplaceChunks(store, disk, t, ep.key, chunks, excluded, final);
  }

  method StitchEpisode(store: Table, disk: Disk, t: Tools, ep: Episode) returns (outcome: Outcome)
    modifies store, disk
    ensures (outcome, World(disk.files, store.rows, store.nextId))
      == StitchSpec.Stitch(t, ep, old(World(disk.files, store.rows, store.nextId)))
  {
    var paths := ExistingChunkPaths(disk.files, ep.chunks);
    if |paths| < 2 {
      store.MarkStitchFailed(Ids(ep.chunks), "missing-files");
      return NothingWritten;
    }
    var outliers;
    PathsOfPicked(t, disk.files, ep.chunks);
    paths, outliers := SplitByStream(t, paths);
    if |paths| < 2 {
      store.MarkStitchFailed(Ids(ep.chunks), "inconsistent-streams");
      return NothingWritten;
    }
    outcome := JoinAndSettle(store, disk, t, ep, paths);
  }

  // ---- A pass over every candidate ------------------------------------------------------------

  /** What the `i`-th call of a pass makes of a world; `tools` is the outside world each
      call finds. */
  function Calls(tools: nat -> Tools, eps: seq<Episode>): (nat, World) -> (Outcome, World) {
    (i: nat, w: World) => if i < |eps| then StitchSpec.Stitch(tools(i), eps[i], w) else (NothingWritten, w)
  }

  /** The first `n` calls one after the other, and how many of them made a clip. */
  function Pass(call: (nat, World) -> (Outcome, World), n: nat, w: World): (nat, World) {
    if n == 0 then (0, w) else
      var (done, before) := Pass(call, n - 1, w);
      var (outcome, after) := call(n - 1, before);
      (if outcome.Stitched? then done + 1 else done, after)
  }

  lemma {:induction false} CallNext(tools: nat -> Tools, eps: seq<Episode>, i: nat, first: World, done: nat, w: World)
    requires i < |eps| && Pass(Calls(tools, eps), i, first) == (done, w)
    ensures var (outcome, after) := StitchSpec.Stitch(tools(i), eps[i], w);
      Pass(Calls(tools, eps), i + 1, first) == (if outcome.Stitched? then done + 1 else done, after)
  {
  }

  method RunOnce(store: Table, disk: Disk, tools: nat -> Tools, categories: seq<string>, before: real) returns (done: nat)
    modifies store, disk
    ensures var w := old(World(disk.files, store.rows, store.nextId));
      var eps := Candidates(categories, w.rows, before);
      (done, World(disk.files, store.rows, store.nextId)) == Pass(Calls(tools, eps), |eps|, w)
  {
    var eps := store.StitchCandidates(categories, before);
    done := 0;
    ghost var first, call := World(disk.files, store.rows, store.nextId), Calls(tools, eps);
    for i := 0 to |eps|
      invariant (done, World(disk.files, store.rows, store.nextId)) == Pass(call, i, first)
    {
      ghost var w := World(disk.files, store.rows, store.nextId);
      var outcome := StitchEpisode(store, disk, tools(i), eps[i]);
      CallNext(tools, eps, i, first, done, w);
      if outcome.Stitched? {
        done := done + 1;
      }
    }
  }
}
