/** What joining one episode does to the chunk files and to the media rows. */
module StitchSpec {
  import opened Common
  import opened ConcatList
  import opened Filters
  import opened MediaTable

  type Footage = seq<int>

  /** What one run of ffmpeg over a list text leaves at the work path, and whether
      the result passed every check. */
  datatype Attempt = Attempt(out: Option<Footage>, ok: bool)

  /** The outside world as one call finds it. */
  datatype Tools = Tools(
    streamKey: string -> Option<string>,
    decodable: string -> bool,
    ffmpeg: string -> Attempt,
    removable: string -> bool,
    workDir: bool,
    movable: bool,
    finalFor: Row -> string,
    tmp: string,
    now: real
  )

  datatype World = World(files: map<string, Footage>, rows: seq<Row>, nextId: int)

  /** Raised leaves the call with an exception; the sweep logs it and goes on. */
  datatype Outcome = Stitched(path: string) | NothingWritten | Raised

  // ---- Which chunks go into the join ---------------------------------------------------

  function OnDisk(files: map<string, Footage>): Row -> bool {
    (c: Row) => c.path.Some? && c.path.value != "" && c.path.value in files
  }

  function PathOf(c: Row): string { c.path.GetOr("") }

  function Paths(cs: seq<Row>): seq<string> { Map(PathOf, cs) }

  function HasKey(t: Tools, key: string): string -> bool { p => t.streamKey(p) == Some(key) }

  function Unlike(t: Tools, key: Option<string>): string -> bool { p => key.None? || t.streamKey(p) != key }

  /** The stream shapes among the first `n` paths, in order of appearance. */
  function Shapes(t: Tools, paths: seq<string>, n: nat): seq<string>
    requires n <= |paths|
  {
    if n == 0 then [] else
      var ks := Shapes(t, paths, n - 1);
      var k := t.streamKey(paths[n - 1]);
      if k.Some? && k.value !in ks then ks + [k.value] else ks
  }

  function Votes(t: Tools, paths: seq<string>, key: string): nat { |Where(paths, HasKey(t, key))| }

  /** The shape with the most chunks among the first `n`; the earlier on a tie. */
  function Leading(t: Tools, paths: seq<string>, shapes: seq<string>, n: nat): Option<string>
    requires n <= |shapes|
  {
    if n == 0 then None else
      var best := Leading(t, paths, shapes, n - 1);
      if best.None? || Votes(t, paths, shapes[n - 1]) > Votes(t, paths, best.value) then Some(shapes[n - 1]) else best
  }

  function MainShape(t: Tools, paths: seq<string>): Option<string> {
    var shapes := Shapes(t, paths, |paths|);
    Leading(t, paths, shapes, |shapes|)
  }

  /** The chunks on disk that share the main shape. */
  function Matching(t: Tools, files: map<string, Footage>, key: Option<string>): Row -> bool {
    (c: Row) => OnDisk(files)(c) && key.Some? && t.streamKey(c.path.value) == key
  }

  function Existing(files: map<string, Footage>, cs: seq<Row>): seq<Row> { Where(cs, OnDisk(files)) }

  function Picked(t: Tools, files: map<string, Footage>, cs: seq<Row>): seq<Row> {
    Where(cs, Matching(t, files, MainShape(t, Paths(Existing(files, cs)))))
  }

  // ---- The attempts ---------------------------------------------------------------------

  function Try(t: Tools, paths: seq<string>): Attempt {
    match WriteList(paths)
    case Ok(text) => t.ffmpeg(text)
    case Err(_) => Attempt(None, false)
  }

  function Sound(t: Tools): Row -> bool { (c: Row) => t.decodable(PathOf(c)) }

  /** A second attempt is made without the undecodable chunks. */
  predicate Retries(t: Tools, picked: seq<Row>) {
    && !Try(t, Paths(picked)).ok && |picked| > 2
    && 2 <= |Where(picked, Sound(t))| < |picked|
  }

  function Joined(t: Tools, picked: seq<Row>): seq<Row> {
    if Retries(t, picked) then Where(picked, Sound(t)) else picked
  }

  /** Which of the episode's chunks go into the final attempt, and which stay out. */
  function Goes(t: Tools, files: map<string, Footage>, cs: seq<Row>): Row -> bool {
    var main := Matching(t, files, MainShape(t, Paths(Existing(files, cs))));
    var again := Retries(t, Picked(t, files, cs));
    (c: Row) => main(c) && (again ==> t.decodable(PathOf(c)))
  }

  function Stays(t: Tools, files: map<string, Footage>, cs: seq<Row>): Row -> bool {
    (c: Row) => !Goes(t, files, cs)(c)
  }

  predicate JoinOk(t: Tools, picked: seq<Row>) { Try(t, Paths(Joined(t, picked))).ok }

  function Wrote(files: map<string, Footage>, tmp: string, a: Attempt): map<string, Footage> {
    if a.out.Some? then files[tmp := a.out.value] else files
  }

  function AfterTries(t: Tools, files: map<string, Footage>, picked: seq<Row>): map<string, Footage> {
    var once := Wrote(files, t.tmp, Try(t, Paths(picked)));
    if Retries(t, picked) then Wrote(once, t.tmp, Try(t, Paths(Joined(t, picked)))) else once
  }

  // ---- The call ---------------------------------------------------------------------------

  function FileIdOf(k: Key): string { "stitched:" + k.rel + ":" + k.category }

  function MergedRow(t: Tools, k: Key, joined: seq<Row>, final: string, id: int): Row
    requires joined != []
  {
    Row(id, FileIdOf(k), k.device, Some(k.rel), k.category, Some(final), t.now,
        joined[0].start, joined[|joined| - 1].end, true, Some("stitched"))
  }

  /** The paths unlinked once the join is verified. */
  function Unlinked(t: Tools, joined: seq<Row>, final: string): set<string> {
    set p | p in Paths(joined) && p != final && t.removable(p)
  }

  function Excluded(t: Tools, files: map<string, Footage>, cs: seq<Row>): seq<Row> { Where(cs, Stays(t, files, cs)) }

  /** Sources out, join into place, rows swapped, the rest flagged. */
  function Commit(t: Tools, k: Key, joined: seq<Row>, excluded: seq<int>, final: string, w: World): (Outcome, World)
    requires joined != []
  {
    var left := w.files - Unlinked(t, joined, final);
    if !t.movable || t.tmp !in left then
      (NothingWritten, w.(files := left, rows := Marked(w.rows, Ids(joined), "move-failed")))
    else
      var moved := (left - {t.tmp})[final := left[t.tmp]];
      match Swapped(w.rows, Ids(joined), MergedRow(t, k, joined, final, w.nextId))
      case None => (Raised, w.(files := moved))
      case Some(rows) =>
        (Stitched(final), World(moved, Marked(rows, excluded, "excluded-stream-mismatch"), w.nextId + 1))
  }

  function GiveUp(t: Tools, joined: seq<Row>, w: World): (Outcome, World) {
    (NothingWritten, w.(files := if t.removable(t.tmp) then w.files - {t.tmp} else w.files,
                        rows := Marked(w.rows, Ids(joined), "failed")))
  }

  /** From two or more matching chunks to the end of the call. */
  function Settled(t: Tools, ep: Episode, picked: seq<Row>, w: World): (Outcome, World)
    requires 2 <= |picked| <= |ep.chunks|
  {
    var tried := w.(files := AfterTries(t, w.files, picked));
    if !t.workDir then (Raised, w)
    else if JoinOk(t, picked) then
      Commit(t, ep.key, Joined(t, picked), Ids(Excluded(t, w.files, ep.chunks)), t.finalFor(ep.chunks[0]), tried)
    else GiveUp(t, Joined(t, picked), tried)
  }

  function Stitch(t: Tools, ep: Episode, w: World): (Outcome, World) {
    var picked := Picked(t, w.files, ep.chunks);
    if |Existing(w.files, ep.chunks)| < 2 then
      (NothingWritten, w.(rows := Marked(w.rows, Ids(ep.chunks), "missing-files")))
    else if |picked| < 2 then
      (NothingWritten, w.(rows := Marked(w.rows, Ids(ep.chunks), "inconsistent-streams")))
    else Settled(t, ep, picked, w)
  }
}
