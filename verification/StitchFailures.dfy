/** Single calls: those on which footage, a chunk or a row is lost, and one that needs its second attempt. */
module StitchFailures {
  import opened Common
  import opened ConcatList
  import opened Filters
  import opened MediaTable
  import opened StitchSpec
  import opened StitchConservation
  import opened StitchOutcomes

  // ---- Three chunks, the first of another stream shape ----------------------------------

  const CLIP := Key(1, "event", "full")

  function Chunk(id: int, path: string): Row {
    Row(id, path, CLIP.device, Some(CLIP.rel), CLIP.category, Some(path), 0.0, None, None, true, None)
  }

  const ODD := Chunk(1, "odd")
  const FIRST := Chunk(2, "first")
  const SECOND := Chunk(3, "second")

  const EPISODE := Episode(CLIP, [ODD, FIRST, SECOND])

  function Files(odd: Footage, first: Footage, second: Footage): map<string, Footage> {
    map["odd" := odd, "first" := first, "second" := second]
  }

  /** A joiner that does what its list says. */
  function Faithful(files: map<string, Footage>): string -> Attempt {
    text =>
      match ReadList(text)
      case Ok(paths) => Attempt(Some(JoinFiles(files, paths)), true)
      case Err(_) => Attempt(None, false)
  }

  function ShapeOf(): string -> Option<string> { p => Some(if p == "odd" then "wide" else "tall") }

  function Always<T>(b: bool): T -> bool { x => b }

  /** Everything works, except perhaps the move; the clip goes where the first chunk lies. */
  function Setting(files: map<string, Footage>, movable: bool): Tools {
    Tools(ShapeOf(), Always(true), Faithful(files), Always(true), true, movable, PathOf, "work", 0.0)
  }

  lemma {:induction false} SettingHonest(files: map<string, Footage>, movable: bool)
    ensures Honest(Setting(files, movable), files)
    ensures Apart(Setting(files, movable), EPISODE)
  {
    assert Paths(EPISODE.chunks) == ["odd", "first", "second"];
  }

  lemma {:induction false} WhereThree<T>(x: T, y: T, z: T, p: T -> bool)
    ensures Where([x, y, z], p) == (if p(x) then [x] else []) + (if p(y) then [y] else []) + (if p(z) then [z] else [])
  {
    WhereSnoc([], x, p);
    WhereSnoc([x], y, p);
    WhereSnoc([x, y], z, p);
    assert [] + [x] == [x] && [x] + [y] == [x, y] && [x, y] + [z] == [x, y, z];
  }

  lemma {:induction false} MainIsTall(t: Tools, paths: seq<string>)
    requires t.streamKey == ShapeOf() && paths == ["odd", "first", "second"]
    ensures MainShape(t, paths) == Some("tall")
  {
    WhereThree("odd", "first", "second", HasKey(t, "wide"));
    WhereThree("odd", "first", "second", HasKey(t, "tall"));
    assert Shapes(t, paths, 0) == [] && Shapes(t, paths, 1) == ["wide"];
    assert Shapes(t, paths, 2) == ["wide", "tall"] && Shapes(t, paths, 3) == ["wide", "tall"];
    assert Leading(t, paths, ["wide", "tall"], 1) == Some("wide");
  }

  lemma {:induction false} TallPicked(t: Tools, files: map<string, Footage>)
    requires t.streamKey == ShapeOf() && "odd" in files && "first" in files && "second" in files
    ensures Existing(files, EPISODE.chunks) == EPISODE.chunks
    ensures Picked(t, files, EPISODE.chunks) == [FIRST, SECOND]
  {
    WhereThree(ODD, FIRST, SECOND, OnDisk(files));
    assert Existing(files, EPISODE.chunks) == EPISODE.chunks;
    assert Paths(EPISODE.chunks) == ["odd", "first", "second"];
    MainIsTall(t, ["odd", "first", "second"]);
    WhereThree(ODD, FIRST, SECOND, Matching(t, files, Some("tall")));
  }

  lemma {:induction false} SafeTryWorks(t: Tools, files: map<string, Footage>, paths: seq<string>)
    requires t.ffmpeg == Faithful(files) && forall i :: 0 <= i < |paths| ==> Safe(paths[i])
    ensures Try(t, paths).ok
  {
    RoundTrip(paths);
  }

  lemma {:induction false} PairNames(picked: seq<Row>)
    requires picked == [FIRST, SECOND]
    ensures Ids(picked) == [2, 3] && Paths(picked) == ["first", "second"]
  {
  }

  lemma {:induction false} SafeNames()
    ensures Safe("first") && Safe("second")
  {
  }

  lemma {:induction false} WorksAtOnce(t: Tools, picked: seq<Row>)
    requires Try(t, Paths(picked)).ok
    ensures Joined(t, picked) == picked && JoinOk(t, picked)
  {
  }

  lemma {:induction false} SafePair(a: string, b: string)
    requires Safe(a) && Safe(b)
    ensures forall i :: 0 <= i < |[a, b]| ==> Safe([a, b][i])
  {
  }

  lemma {:induction false} FirstTryWorks(t: Tools, files: map<string, Footage>, picked: seq<Row>)
    requires t.ffmpeg == Faithful(files) && Paths(picked) == ["first", "second"]
    ensures Joined(t, picked) == picked && JoinOk(t, picked)
  {
    SafeNames();
    SafePair("first", "second");
    SafeTryWorks(t, files, ["first", "second"]);
    WorksAtOnce(t, picked);
  }

  lemma {:induction false} TwoJoined(t: Tools, w: World)
    requires t.workDir && Existing(w.files, EPISODE.chunks) == EPISODE.chunks
    requires Picked(t, w.files, EPISODE.chunks) == [FIRST, SECOND]
    requires Joined(t, [FIRST, SECOND]) == [FIRST, SECOND] && JoinOk(t, [FIRST, SECOND])
    ensures Verified(t, EPISODE, w) && JoinedOf(t, EPISODE, w) == [FIRST, SECOND]
  {
    JoinedNotEmpty(t, EPISODE, w);
  }

  lemma {:induction false} OddExcluded(t: Tools, w: World)
    requires JoinedOf(t, EPISODE, w) == [FIRST, SECOND]
    ensures ODD in ExcludedOf(t, EPISODE, w)
  {
    assert ODD in EPISODE.chunks;
    WhereMember(EPISODE.chunks, Goes(t, w.files, EPISODE.chunks), ODD);
    WhereMember(EPISODE.chunks, Stays(t, w.files, EPISODE.chunks), ODD);
    assert ODD.id == 1 && FIRST.id == 2 && SECOND.id == 3;
  }

  lemma {:induction false} Sum(files: map<string, Footage>, a: string, b: string)
    requires a in files && b in files
    ensures JoinFiles(files, [a, b]) == files[a] + files[b]
  {
    assert [a, b][1..] == [b] && [b][1..] == [];
    assert JoinFiles(files, [b]) == files[b] + [];
  }

  /** The two chunks of one shape are joined, the first chunk stays out. */
  lemma {:induction false} TwoGoIn(odd: Footage, first: Footage, second: Footage, t: Tools, w: World)
    requires w.files == Files(odd, first, second) && (t == Setting(w.files, true) || t == Setting(w.files, false))
    ensures Honest(t, w.files) && Apart(t, EPISODE) && Verified(t, EPISODE, w)
    ensures JoinedOf(t, EPISODE, w) == [FIRST, SECOND] && ODD in ExcludedOf(t, EPISODE, w)
    ensures Ids(JoinedOf(t, EPISODE, w)) == [2, 3] && Paths(JoinedOf(t, EPISODE, w)) == ["first", "second"]
  {
    SettingHonest(w.files, t.movable);
    TallPicked(t, w.files);
    PairNames([FIRST, SECOND]);
    FirstTryWorks(t, w.files, [FIRST, SECOND]);
    TwoJoined(t, w);
    OddExcluded(t, w);
  }

  /** The first source is unlinked once the join is verified. */
  lemma {:induction false} FirstUnlinked(files: map<string, Footage>, movable: bool)
    ensures "first" in Unlinked(Setting(files, movable), [FIRST, SECOND], "odd")
  {
    assert Paths([FIRST, SECOND])[0] == "first";
  }

  // ---- What is lost ------------------------------------------------------------------------

  /** A chunk left out of the join is overwritten by the clip that is named after it. */
  lemma {:induction false} ExcludedOverwritten(odd: Footage, first: Footage, second: Footage, t: Tools, w: World)
    requires odd != first + second
    requires w == World(Files(odd, first, second), EPISODE.chunks, 4) && t == Setting(w.files, true)
    ensures var (outcome, after) := StitchSpec.Stitch(t, EPISODE, w);
      outcome == Stitched("odd") && ODD in ExcludedOf(t, EPISODE, w) && !Keeps(w.files, after.files, "odd")
  {
    TwoGoIn(odd, first, second, t, w);
    OnlyOddKept(w, [2, 3]);
    RaisedExactly(t, EPISODE, w);
    FootageConserved(t, EPISODE, w, "odd");
    ExcludedSurvives(t, EPISODE, w, ODD);
    Sum(w.files, "first", "second");
  }

  lemma {:induction false} OnlyOddKept(w: World, ids: seq<int>)
    requires w.rows == EPISODE.chunks && ids == [2, 3]
    ensures !HasFile(Where(w.rows, IdNotIn(ids)), FileIdOf(CLIP))
  {
    WhereThree(ODD, FIRST, SECOND, IdNotIn(ids));
    assert Where(w.rows, IdNotIn(ids)) == [ODD];
    assert ODD.fileId == "odd" && FileIdOf(CLIP)[0] == 's';
  }

  /** A call that returns nothing because the clip cannot be moved has unlinked its chunks. */
  lemma {:induction false} UnmovedUnlinks(odd: Footage, first: Footage, second: Footage, t: Tools, w: World)
    requires w == World(Files(odd, first, second), EPISODE.chunks, 4) && t == Setting(w.files, false)
    ensures var (outcome, after) := StitchSpec.Stitch(t, EPISODE, w);
      outcome.NothingWritten? && !ChunksKept(EPISODE, w.files, after.files)
  {
    TwoGoIn(odd, first, second, t, w);
    RaisedExactly(t, EPISODE, w);
    FirstUnlinked(w.files, false);
    NothingWrittenKeepsChunks(t, EPISODE, w);
  }

  lemma {:induction false} OtherTakes(rows: seq<Row>, other: Row, ids: seq<int>, fileId: string)
    requires other.fileId == fileId && other.id !in ids
    ensures HasFile(Where(rows + [other], IdNotIn(ids)), fileId)
  {
    WhereSnoc(rows, other, IdNotIn(ids));
    var kept := Where(rows + [other], IdNotIn(ids));
    assert kept[|kept| - 1] == other;
  }

  lemma {:induction false} RaisedLoses(t: Tools, ep: Episode, w: World, p: string)
    requires Honest(t, w.files) && Apart(t, ep) && Verified(t, ep, w) && t.movable && Taken(t, ep, w)
    requires p in Unlinked(t, JoinedOf(t, ep, w), t.finalFor(ep.chunks[0]))
    ensures var (outcome, after) := StitchSpec.Stitch(t, ep, w);
      outcome.Raised? && after.rows == w.rows && p !in after.files
  {
    RaisedExactly(t, ep, w);
    JoinedNotEmpty(t, ep, w);
    FilesAfterUnlink(t, ep, w, p);
  }

  /** A call raises when another row carries the clip's file id: the rows still name
      chunks whose files are gone. */
  lemma {:induction false} TakenRaises(odd: Footage, first: Footage, second: Footage, other: Row, t: Tools, w: World)
    requires other.fileId == FileIdOf(CLIP) && other.id == 9
    requires w == World(Files(odd, first, second), EPISODE.chunks + [other], 10) && t == Setting(w.files, true)
    ensures var (outcome, after) := StitchSpec.Stitch(t, EPISODE, w);
      outcome.Raised? && after.rows == w.rows && FIRST in after.rows && "first" !in after.files
  {
    TwoGoIn(odd, first, second, t, w);
    OtherTakes(EPISODE.chunks, other, [2, 3], FileIdOf(CLIP));
    FirstUnlinked(w.files, true);
    RaisedLoses(t, EPISODE, w, "first");
    assert w.rows[1] == FIRST;
  }

  // ---- What the second attempt saves ----------------------------------------------------------

  const THIRD := Chunk(4, "third")

  const WHOLE := Episode(CLIP, [FIRST, SECOND, THIRD])

  /** A joiner that does what its list says, and passes unless one file is on it. */
  function Picky(files: map<string, Footage>, bad: string): string -> Attempt {
    text =>
      match ReadList(text)
      case Ok(paths) => Attempt(Some(JoinFiles(files, paths)), bad !in paths)
      case Err(_) => Attempt(None, false)
  }

  function OneShape(): string -> Option<string> { p => Some("tall") }

  function AllBut(bad: string): string -> bool { p => p != bad }

  function To(path: string): Row -> string { c => path }

  function PickySetting(files: map<string, Footage>): Tools {
    Tools(OneShape(), AllBut("third"), Picky(files, "third"), Always(true), true, true, To("clip"), "work", 0.0)
  }

  lemma {:induction false} PickyHonest(files: map<string, Footage>)
    ensures Honest(PickySetting(files), files) && Apart(PickySetting(files), WHOLE)
  {
    assert Paths(WHOLE.chunks) == ["first", "second", "third"];
  }

  lemma {:induction false} OneShapeMatches(t: Tools, files: map<string, Footage>, cs: seq<Row>)
    requires t.streamKey == OneShape()
    requires forall i :: 0 <= i < |cs| ==> OnDisk(files)(cs[i])
    ensures Count(t, files, cs, "tall") == |cs| && Where(cs, HasShape(t, files, "tall")) == cs
    ensures forall shape :: shape != "tall" ==> Count(t, files, cs, shape) == 0
  {
    UpToAll(cs, |cs|, HasShape(t, files, "tall"));
    assert cs[..|cs|] == cs;
    forall shape | shape != "tall" ensures Count(t, files, cs, shape) == 0 {
      WhereMembers(cs, HasShape(t, files, shape));
      NoMembers(Where(cs, HasShape(t, files, shape)));
    }
  }

  lemma {:induction false} OneShapePicksAll(t: Tools, files: map<string, Footage>, cs: seq<Row>)
    requires t.streamKey == OneShape() && cs != []
    requires forall i :: 0 <= i < |cs| ==> OnDisk(files)(cs[i])
    ensures Picked(t, files, cs) == cs
  {
    PickedExactly(t, files, cs);
    OneShapeMatches(t, files, cs);
    var shape :| Picked(t, files, cs) == Where(cs, HasShape(t, files, shape))
      && forall other :: Count(t, files, cs, other) <= Count(t, files, cs, shape);
    assert Count(t, files, cs, "tall") <= Count(t, files, cs, shape);
  }

  lemma {:induction false} PickyPasses(t: Tools, files: map<string, Footage>, paths: seq<string>)
    requires t.ffmpeg == Picky(files, "third") && forall i :: 0 <= i < |paths| ==> Safe(paths[i])
    ensures Passes(t, paths) <==> "third" !in paths
  {
    RoundTrip(paths);
  }

  lemma {:induction false} ThreeNames()
    ensures Safe("first") && Safe("second") && Safe("third")
    ensures Paths([FIRST, SECOND, THIRD]) == ["first", "second", "third"]
    ensures "third" !in ["first", "second"] && "third" in ["first", "second", "third"]
  {
    assert ["first", "second", "third"][2] == "third";
  }

  lemma {:induction false} TwoDecode(t: Tools)
    requires t.decodable == AllBut("third")
    ensures Decodable(t, WHOLE.chunks) == [FIRST, SECOND]
  {
    WhereThree(FIRST, SECOND, THIRD, Decodes(t));
    assert PathOf(FIRST) == "first" && PathOf(SECOND) == "second" && PathOf(THIRD) == "third";
    assert "first" != "third" && "second" != "third";
  }

  lemma {:induction false} SecondPasses(files: map<string, Footage>, t: Tools)
    requires t == PickySetting(files)
    ensures Joins(t, WHOLE.chunks, [FIRST, SECOND])
  {
    ThreeNames();
    PairNames([FIRST, SECOND]);
    TwoDecode(t);
    SafePair("first", "second");
    PickyPasses(t, files, ["first", "second"]);
    PickyPasses(t, files, ["first", "second", "third"]);
  }

  lemma {:induction false} RetryMakes(t: Tools, w: World, used: seq<Row>)
    requires "first" in w.files && "second" in w.files && "third" in w.files && w.rows == WHOLE.chunks
    requires t == PickySetting(w.files) && used == [FIRST, SECOND]
    ensures Uses(t, WHOLE, w, used) && Ids(used) == [2, 3]
    ensures var (outcome, after) := StitchSpec.Stitch(t, WHOLE, w);
      outcome.Stitched? && outcome.path in after.files && after.files[outcome.path] == w.files["first"] + w.files["second"]
  {
    PairUsed(t, w, used);
    PairNames(used);
    NoClipAmong(w.rows, used);
    PickyHonest(w.files);
    StitchedExactly(t, WHOLE, w);
    Sum(w.files, "first", "second");
  }

  /** Three chunks of which one does not decode and spoils the join of all: the second
      attempt makes the clip out of the other two, and flags the third. */
  lemma {:induction false} RetrySaves(first: Footage, second: Footage, third: Footage, t: Tools, w: World)
    requires w == World(map["first" := first, "second" := second, "third" := third], WHOLE.chunks, 5)
    requires t == PickySetting(w.files)
    ensures var (outcome, after) := StitchSpec.Stitch(t, WHOLE, w);
      && outcome.Stitched? && outcome.path in after.files && after.files[outcome.path] == first + second
      && THIRD.(state := Some("excluded-stream-mismatch")) in after.rows
  {
    RetryMakes(t, w, [FIRST, SECOND]);
    ThirdFlagged(t, w, [FIRST, SECOND]);
  }

  lemma {:induction false} ThirdFlagged(t: Tools, w: World, used: seq<Row>)
    requires StitchSpec.Stitch(t, WHOLE, w).0.Stitched? && Uses(t, WHOLE, w, used) && t.workDir
    requires Ids(used) == [2, 3] && w.rows == WHOLE.chunks && w.nextId == 5
    ensures THIRD.(state := Some("excluded-stream-mismatch")) in StitchSpec.Stitch(t, WHOLE, w).1.rows
  {
    WholeIds();
    OthersFlagged(t, WHOLE, w, used, THIRD);
  }

  lemma {:induction false} WholeIds()
    ensures THIRD in WHOLE.chunks && Ids(WHOLE.chunks) == [2, 3, 4]
    ensures forall c :: c in WHOLE.chunks ==> c.id < 5
    ensures forall b, c :: b in WHOLE.chunks && c in WHOLE.chunks && b.id == c.id ==> b == c
  {
    assert WHOLE.chunks[2] == THIRD;
  }

  lemma {:induction false} WholeOnDisk(files: map<string, Footage>, cs: seq<Row>)
    requires "first" in files && "second" in files && "third" in files && cs == WHOLE.chunks
    ensures cs != [] && forall i :: 0 <= i < |cs| ==> OnDisk(files)(cs[i])
  {
  }

  lemma {:induction false} PairUsed(t: Tools, w: World, used: seq<Row>)
    requires "first" in w.files && "second" in w.files && "third" in w.files
    requires t == PickySetting(w.files) && used == [FIRST, SECOND]
    ensures Uses(t, WHOLE, w, used)
  {
    WholeOnDisk(w.files, WHOLE.chunks);
    OneShapePicksAll(t, w.files, WHOLE.chunks);
    SecondPasses(w.files, t);
  }

  lemma {:induction false} NoClipAmong(rows: seq<Row>, used: seq<Row>)
    requires rows == WHOLE.chunks && Ids(used) == [2, 3]
    ensures !ClipTaken(rows, CLIP, used)
  {
    forall r | r in rows ensures r.fileId != "stitched:" + CLIP.rel + ":" + CLIP.category {
      assert |r.fileId| <= 6 && |"stitched:" + CLIP.rel + ":" + CLIP.category| > 9;
    }
  }
}
