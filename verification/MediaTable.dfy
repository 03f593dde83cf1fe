/** The media rows the stitcher works on: which episodes it is offered, and how they are settled. */
module MediaTable {
  import opened Common
  import opened Filters
  import opened Sorting

  datatype Row = Row(
    id: int,
    fileId: string,
    device: int,
    rel: Option<string>,
    category: string,
    path: Option<string>,
    created: real,
    start: Option<real>,
    end: Option<real>,
    ready: bool,
    state: Option<string>
  )

  /** What the chunks of one recording share. */
  datatype Key = Key(device: int, rel: string, category: string)

  datatype Episode = Episode(key: Key, chunks: seq<Row>)

  function RowId(r: Row): int { r.id }

  function Ids(rs: seq<Row>): seq<int> { Map(RowId, rs) }

  predicate Unclaimed(r: Row) { r.ready && r.state.None? }

  predicate Belongs(k: Key, r: Row) {
    r.device == k.device && r.rel == Some(k.rel) && r.category == k.category
  }

  /** The rows that make an episode worth offering. */
  predicate Eligible(categories: seq<string>, r: Row) {
    Unclaimed(r) && r.rel.Some? && r.path.Some? && r.category in categories
  }

  function KeyOf(r: Row): Key
    requires r.rel.Some?
  {
    Key(r.device, r.rel.value, r.category)
  }

  function EligibleOf(categories: seq<string>, k: Key): Row -> bool {
    (r: Row) => Eligible(categories, r) && Belongs(k, r)
  }

  function UnclaimedOf(k: Key): Row -> bool {
    (r: Row) => Unclaimed(r) && Belongs(k, r)
  }

  /** The groups among the first `n` rows, in order of appearance. */
  function Groups(categories: seq<string>, rows: seq<Row>, n: nat): seq<Key>
    requires n <= |rows|
  {
    if n == 0 then [] else
      var ks := Groups(categories, rows, n - 1);
      var r := rows[n - 1];
      if Eligible(categories, r) && KeyOf(r) !in ks then ks + [KeyOf(r)] else ks
  }

  function Created(r: Row): real { r.created }

  function Start(r: Row): real { r.start.GetOr(r.created) }

  /** By device time, falling back to insertion time, then by insertion time. */
  function PlayOrder(rs: seq<Row>): seq<Row> { SortBy(SortBy(rs, Created), Start) }

  predicate Quiet(rs: seq<Row>, before: real) { forall i :: 0 <= i < |rs| ==> rs[i].created < before }

  function ChunksOf(rows: seq<Row>, k: Key): seq<Row> { PlayOrder(Where(rows, UnclaimedOf(k))) }

  predicate Offered(categories: seq<string>, rows: seq<Row>, before: real, k: Key) {
    && |Where(rows, EligibleOf(categories, k))| >= 2
    && Quiet(Where(rows, EligibleOf(categories, k)), before)
  }

  /** The episodes offered among the first `n` groups. */
  function OfferedUpTo(categories: seq<string>, rows: seq<Row>, before: real, ks: seq<Key>, n: nat): seq<Episode>
    requires n <= |ks|
  {
    if n == 0 then [] else
      var eps := OfferedUpTo(categories, rows, before, ks, n - 1);
      if Offered(categories, rows, before, ks[n - 1]) && |ChunksOf(rows, ks[n - 1])| >= 2
      then eps + [Episode(ks[n - 1], ChunksOf(rows, ks[n - 1]))] else eps
  }

  function Candidates(categories: seq<string>, rows: seq<Row>, before: real): seq<Episode> {
    var ks := Groups(categories, rows, |rows|);
    OfferedUpTo(categories, rows, before, ks, |ks|)
  }

  function Marked(rows: seq<Row>, ids: seq<int>, reason: string): (r: seq<Row>)
    ensures |r| == |rows|
    ensures forall i :: 0 <= i < |r| ==> r[i] == if rows[i].id in ids then rows[i].(state := Some(reason)) else rows[i]
  {
    seq(|rows|, i requires 0 <= i < |rows| => if rows[i].id in ids then rows[i].(state := Some(reason)) else rows[i])
  }

  function IdNotIn(ids: seq<int>): Row -> bool { (r: Row) => r.id !in ids }

  predicate HasFile(rows: seq<Row>, fileId: string) {
    exists i :: 0 <= i < |rows| && rows[i].fileId == fileId
  }

  /** The chunk rows out and the merged row in, or nothing at all when another row
      already carries its file id. */
  function Swapped(rows: seq<Row>, ids: seq<int>, merged: Row): Option<seq<Row>> {
    var kept := Where(rows, IdNotIn(ids));
    if HasFile(kept, merged.fileId) then None else Some(kept + [merged])
  }

  class Table {
    var rows: seq<Row>
    var nextId: int

    method StitchCandidates(categories: seq<string>, before: real) returns (eps: seq<Episode>)
      ensures eps == Candidates(categories, rows, before)
    {
      var ks := [];
      for i := 0 to |rows|
        invariant ks == Groups(categories, rows, i)
      {
        var r := rows[i];
        if r.ready && r.state.None? && r.rel.Some? && r.path.Some? && r.category in categories {
          if KeyOf(r) !in ks {
            ks := ks + [KeyOf(r)];
          }
        }
      }
      eps := [];
      for i := 0 to |ks|
        invariant eps == OfferedUpTo(categories, rows, before, ks, i)
      {
        var group := Where(rows, EligibleOf(categories, ks[i]));
        if |group| >= 2 && Quiet(group, before) {
          var chunks := ChunksOf(rows, ks[i]);
          if |chunks| >= 2 {
            eps := eps + [Episode(ks[i], chunks)];
          }
        }
      }
    }

    method MarkStitchFailed(ids: seq<int>, reason: string)
      modifies this`rows
      ensures rows == Marked(old(rows), ids, reason)
    {
      if ids == [] {
        return;
      }
      rows := Marked(rows, ids, reason);
    }

    /** One transaction: either both the deletion and the insertion happen or neither. */
    method ReplaceChunksWithStitched(ids: seq<int>, merged: Row) returns (id: Option<int>)
      modifies this
      ensures var swapped := Swapped(old(rows), ids, merged.(id := old(nextId)));
        && id == (if swapped.Some? then Some(old(nextId)) else None)
        && rows == swapped.GetOr(old(rows))
        && nextId == (if swapped.Some? then old(nextId) + 1 else old(nextId))
    {
      var kept := if ids == [] then rows else Where(rows, IdNotIn(ids));
      if ids == [] {
        UpToAll(rows, |rows|, IdNotIn(ids));
      }
      if HasFile(kept, merged.fileId) {
        return None;
      }
      id := Some(nextId);
      rows := kept + [merged.(id := nextId)];
      nextId := nextId + 1;
    }
  }

  // ---- What is offered ----------------------------------------------------------------

  lemma {:induction false} GroupMembers(categories: seq<string>, rows: seq<Row>, n: nat, k: Key)
    requires n <= |rows|
    ensures k in Groups(categories, rows, n) <==> exists i :: 0 <= i < n && EligibleOf(categories, k)(rows[i])
    ensures NoDup(Groups(categories, rows, n))
    decreases n
  {
    if n != 0 {
      GroupMembers(categories, rows, n - 1, k);
      var r := rows[n - 1];
      if Eligible(categories, r) {
        assert EligibleOf(categories, KeyOf(r))(r);
        assert EligibleOf(categories, k)(r) <==> k == KeyOf(r);
      } else {
        assert !EligibleOf(categories, k)(r);
      }
    }
  }

  lemma {:induction false} OfferedMembers(categories: seq<string>, rows: seq<Row>, before: real, ks: seq<Key>, n: nat, ep: Episode)
    requires n <= |ks|
    ensures ep in OfferedUpTo(categories, rows, before, ks, n) <==>
      ep.key in ks[..n] && ep.chunks == ChunksOf(rows, ep.key) && |ep.chunks| >= 2 && Offered(categories, rows, before, ep.key)
    decreases n
  {
    if n != 0 {
      OfferedMembers(categories, rows, before, ks, n - 1, ep);
      Snoc(ks, n - 1);
    }
  }

  lemma {:induction false} EligibleAreUnclaimed(categories: seq<string>, rows: seq<Row>, n: nat, k: Key)
    requires n <= |rows|
    ensures |WhereUpTo(rows, n, EligibleOf(categories, k))| <= |WhereUpTo(rows, n, UnclaimedOf(k))|
    decreases n
  {
    if n != 0 {
      EligibleAreUnclaimed(categories, rows, n - 1, k);
    }
  }

  /** Played chunks are the group's unclaimed rows, each as often as in the table. */
  lemma {:induction false} ChunksAreRows(rows: seq<Row>, k: Key)
    ensures multiset(ChunksOf(rows, k)) == multiset(Where(rows, UnclaimedOf(k)))
    ensures forall r :: r in ChunksOf(rows, k) <==> r in rows && Unclaimed(r) && Belongs(k, r)
  {
    var found := Where(rows, UnclaimedOf(k));
    SortCorrect(found, Created);
    SortCorrect(SortBy(found, Created), Start);
    SameMembers(ChunksOf(rows, k), found);
    WhereMembers(rows, UnclaimedOf(k));
  }

  /** An episode is offered exactly when at least two unclaimed rows of one device,
      event and wanted category have a path and all of those are older than the
      quiet time; it comes with every unclaimed row of its key. */
  lemma {:induction false} CandidatesExactly(categories: seq<string>, rows: seq<Row>, before: real, ep: Episode)
    ensures ep in Candidates(categories, rows, before) <==>
      ep.chunks == ChunksOf(rows, ep.key) && Offered(categories, rows, before, ep.key)
  {
    var ks := Groups(categories, rows, |rows|);
    OfferedMembers(categories, rows, before, ks, |ks|, ep);
    assert ks[..|ks|] == ks;
    GroupMembers(categories, rows, |rows|, ep.key);
    EligibleAreUnclaimed(categories, rows, |rows|, ep.key);
    ChunksAreRows(rows, ep.key);
    assert |multiset(ChunksOf(rows, ep.key))| == |multiset(Where(rows, UnclaimedOf(ep.key)))|;
    if Offered(categories, rows, before, ep.key) {
      var r := Where(rows, EligibleOf(categories, ep.key))[0];
      WhereMember(rows, EligibleOf(categories, ep.key), r);
      var i :| 0 <= i < |rows| && rows[i] == r;
    }
  }

  /** Chunks come in play order: by start, and by insertion when starts agree. */
  lemma {:induction false} ChunksInPlayOrder(rows: seq<Row>, k: Key, i: nat, j: nat)
    requires i < j < |ChunksOf(rows, k)|
    ensures var cs := ChunksOf(rows, k);
      || Start(cs[i]) < Start(cs[j])
      || (Start(cs[i]) == Start(cs[j]) && cs[i].created <= cs[j].created)
  {
    var found := SortBy(Where(rows, UnclaimedOf(k)), Created);
    SortCorrect(Where(rows, UnclaimedOf(k)), Created);
    SortStable(found, Start, Created);
  }

  /** The row counts for its episode: ready and unmarked, of this device, event and category,
      which is wanted, and with a path. */
  function Counts(categories: seq<string>, k: Key): Row -> bool {
    (r: Row) =>
      && r.ready && r.state == None && r.path != None
      && r.device == k.device && r.rel == Some(k.rel) && r.category == k.category && k.category in categories
  }

  /** The query spelled out: two rows that count, all of them before the quiet time; with
      them come all ready unmarked rows of the key, even those without a path. */
  lemma {:induction false} OfferedExactly(categories: seq<string>, rows: seq<Row>, before: real, ep: Episode)
    ensures ep in Candidates(categories, rows, before) <==>
      && ep.chunks == ChunksOf(rows, ep.key)
      && |Where(rows, Counts(categories, ep.key))| >= 2
      && forall r :: r in Where(rows, Counts(categories, ep.key)) ==> r.created < before
    ensures forall r :: r in ChunksOf(rows, ep.key) <==>
      && r in rows && r.ready && r.state == None
      && r.device == ep.key.device && r.rel == Some(ep.key.rel) && r.category == ep.key.category
  {
    CandidatesExactly(categories, rows, before, ep);
    ChunksAreRows(rows, ep.key);
    WhereSame(rows, Counts(categories, ep.key), EligibleOf(categories, ep.key));
  }

  /** By start where it is known and by insertion where not; of one start, by insertion. */
  lemma {:induction false} PlayOrderExactly(rows: seq<Row>, k: Key, i: nat, j: nat)
    requires i < j < |ChunksOf(rows, k)|
    ensures var a, b := ChunksOf(rows, k)[i], ChunksOf(rows, k)[j];
      var at, bt := if a.start.Some? then a.start.value else a.created, if b.start.Some? then b.start.value else b.created;
      at < bt || (at == bt && a.created <= b.created)
  {
    ChunksInPlayOrder(rows, k, i, j);
  }
}
