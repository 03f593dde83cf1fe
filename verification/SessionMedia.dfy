/** Each sub-episode's media on exactly one line of a card. */
module SessionMedia {
  import opened Common
  import opened SessionSpec

  // ---- What the reference placement means -----------------------------------

  lemma {:induction false} AppendNewMeaning(bucket: seq<int>, ms: seq<int>, i: nat)
    requires i <= |ms|
    ensures NoDup(bucket) ==> NoDup(AppendNew(bucket, ms, i))
    ensures forall m :: m in AppendNew(bucket, ms, i) <==> m in bucket || m in ms[..i]
    decreases i
  {
    if i != 0 {
      AppendNewMeaning(bucket, ms, i - 1);
      Snoc(ms, i - 1);
    }
  }

  /** An episode's media is the duplicate-free union over its events. */
  lemma {:induction false} MediaUnion(es: seq<Event>, rel: string, i: nat)
    requires i <= |es|
    ensures NoDup(MediaOf(es, rel, i))
    ensures forall m :: m in MediaOf(es, rel, i) <==> exists j :: 0 <= j < i && es[j].rel == rel && m in es[j].media
    decreases i
  {
    if i != 0 {
      MediaUnion(es, rel, i - 1);
      var ms := es[i - 1].media;
      AppendNewMeaning(MediaOf(es, rel, i - 1), ms, |ms|);
      assert ms[..|ms|] == ms;
    }
  }

  /** All media of the first `i` events that are of episode `rel`, one list after the other. */
  function AllMedia(es: seq<Event>, rel: string, i: nat): seq<int>
    requires i <= |es|
  {
    if i == 0 then [] else AllMedia(es, rel, i - 1) + if es[i - 1].rel == rel then es[i - 1].media else []
  }

  /** The elements of `all`, each once, in the order in which they first occur. */
  ghost predicate Firsts(all: seq<int>, r: seq<int>) {
    && (forall m :: m in r <==> m in all)
    && forall a, b :: 0 <= a < b < |r| ==> OccursFirst(all, r[a], r[b])
  }

  ghost predicate OccursFirst(all: seq<int>, x: int, y: int) {
    exists i :: 0 <= i < |all| && all[i] == x && y !in all[..i + 1]
  }

  lemma {:induction false} OccursFirstMore(all: seq<int>, x: int, y: int, m: int)
    ensures OccursFirst(all, x, y) ==> OccursFirst(all + [m], x, y)
    ensures x in all && m !in all ==> OccursFirst(all + [m], x, m)
  {
    if OccursFirst(all, x, y) {
      var i :| 0 <= i < |all| && all[i] == x && y !in all[..i + 1];
      assert (all + [m])[..i + 1] == all[..i + 1] && (all + [m])[i] == x;
    }
    if x in all && m !in all {
      var i :| 0 <= i < |all| && all[i] == x;
      assert (all + [m])[..i + 1] == all[..i + 1] && (all + [m])[i] == x;
    }
  }

  lemma {:induction false} FirstsMore(all: seq<int>, r: seq<int>, m: int)
    requires Firsts(all, r)
    ensures Firsts(all + [m], if m in r then r else r + [m])
  {
    var more := if m in r then r else r + [m];
    forall a, b | 0 <= a < b < |more| ensures OccursFirst(all + [m], more[a], more[b]) {
      assert more[a] == r[a] && r[a] in r;
      OccursFirstMore(all, more[a], more[b], m);
    }
  }

  lemma {:induction false} Regrouped(all: seq<int>, ms: seq<int>, i: nat)
    requires i < |ms|
    ensures all + ms[..i] + [ms[i]] == all + ms[..i + 1]
  {
  }

  lemma {:induction false} FirstsStep(before: seq<int>, all: seq<int>, m: int, r: seq<int>, more: seq<int>)
    requires Firsts(before, r) && all == before + [m] && more == if m in r then r else r + [m]
    ensures Firsts(all, more)
  {
    FirstsMore(before, r, m);
  }

  lemma {:induction false} FirstsAppend(all: seq<int>, bucket: seq<int>, ms: seq<int>, i: nat, now: seq<int>, r: seq<int>)
    requires i <= |ms| && Firsts(all, bucket) && now == all + ms[..i] && r == AppendNew(bucket, ms, i)
    ensures Firsts(now, r)
    decreases i
  {
    if i == 0 {
      assert now == all && r == bucket;
    } else {
      var before, was := all + ms[..i - 1], AppendNew(bucket, ms, i - 1);
      FirstsAppend(all, bucket, ms, i - 1, before, was);
      Regrouped(all, ms, i - 1);
      FirstsStep(before, now, ms[i - 1], was, r);
    }
  }

  /** An episode's media stands in the order in which it first occurs among its events. */
  lemma {:induction false} MediaInOrder(es: seq<Event>, rel: string, i: nat)
    requires i <= |es|
    ensures Firsts(AllMedia(es, rel, i), MediaOf(es, rel, i))
    decreases i
  {
    if i != 0 {
      MediaInOrder(es, rel, i - 1);
      var ms := es[i - 1].media;
      if es[i - 1].rel == rel {
        assert ms[..|ms|] == ms;
        FirstsAppend(AllMedia(es, rel, i - 1), MediaOf(es, rel, i - 1), ms, |ms|, AllMedia(es, rel, i), MediaOf(es, rel, i));
      } else {
        assert AllMedia(es, rel, i) == AllMedia(es, rel, i - 1);
      }
    }
  }

  lemma {:induction false} LinesAtComplete(lines: seq<Line>, rel: string, i: nat, j: nat)
    requires j < i <= |lines| && lines[j].rel == rel
    ensures j in LinesAt(lines, rel, i)
    decreases i
  {
    if j < i - 1 {
      LinesAtComplete(lines, rel, i - 1, j);
      assert j in LinesAt(lines, rel, i - 1);
    }
  }

  lemma {:induction false} LinesAtOrdered(lines: seq<Line>, rel: string, i: nat)
    requires i <= |lines|
    ensures forall k, m :: 0 <= k < m < |LinesAt(lines, rel, i)| ==>
      LinesAt(lines, rel, i)[k] < LinesAt(lines, rel, i)[m]
    decreases i
  {
    if i != 0 {
      LinesAtOrdered(lines, rel, i - 1);
      var before, at := LinesAt(lines, rel, i - 1), LinesAt(lines, rel, i);
      forall k, m | 0 <= k < m < |at| ensures at[k] < at[m] {
        assert before[k] < i - 1;
        assert m < |before| ==> before[k] < before[m];
      }
    }
  }

  /** The carrier `i` comes before line `k`: a completion line beats any that is none and
      any later one, and among lines that are none the last wins. */
  predicate Beats(c: Codes, lines: seq<Line>, i: nat, k: nat)
    requires i < |lines| && k < |lines|
  {
    if lines[i].code in c.primaryDone then lines[k].code in c.primaryDone ==> i <= k
    else lines[k].code !in c.primaryDone && k <= i
  }

  /** The carrier is the first completion line of the episode, or there is none and it is the last line. */
  lemma {:induction false} CarrierBeats(c: Codes, lines: seq<Line>, rel: string, k: nat)
    requires k < |lines| && lines[k].rel == rel
    ensures var at := LinesAt(lines, rel, |lines|);
      && at != []
      && var i := CarrierIn(c, lines, at); i < |lines| && lines[i].rel == rel && Beats(c, lines, i, k)
  {
    LinesAtComplete(lines, rel, |lines|, k);
    LinesAtOrdered(lines, rel, |lines|);
    CarrierAmong(c, lines, LinesAt(lines, rel, |lines|), k);
  }

  lemma {:induction false} CarrierAmong(c: Codes, lines: seq<Line>, at: seq<nat>, k: nat)
    requires k in at && forall n :: 0 <= n < |at| ==> at[n] < |lines|
    requires forall n, m :: 0 <= n < m < |at| ==> at[n] < at[m]
    ensures Beats(c, lines, CarrierIn(c, lines, at), k)
    decreases |at|
  {
    if lines[at[0]].code !in c.primaryDone && |at| > 1 {
      CarrierAmong(c, lines, at[1..], if k == at[0] then at[1] else k);
    }
  }

  /** The media of the sub-episode of line `j` is on exactly one line: its first
      completion line or else its last line.  The card's own episode has none there. */
  ghost predicate CarriedOnce(c: Codes, es: seq<Event>, own: string, r: seq<Line>, j: nat)
    requires j < |r|
  {
    var rel := r[j].rel;
    if rel == "" || rel == own then r[j].media == []
    else exists i :: 0 <= i < |r| && IsCarrier(c, es, r, rel, i)
  }

  ghost predicate IsCarrier(c: Codes, es: seq<Event>, r: seq<Line>, rel: string, i: nat)
    requires i < |r|
  {
    && r[i].rel == rel && r[i].media == MediaOf(es, rel, |es|)
    && forall k :: 0 <= k < |r| && r[k].rel == rel && k != i ==>
         r[k].media == [] && Beats(c, r, i, k)
  }

  /** Inside one card every foreign sub-episode with media has exactly one line
      that carries it, whole and without repetition; every other line, and every
      line of the card's own episode, carries none. */
  lemma {:induction false} OneCarrier(c: Codes, es: seq<Event>, own: string, lines: seq<Line>, j: nat)
    requires j < |lines|
    ensures CarriedOnce(c, es, own, GiveMedia(c, es, own, lines), j)
  {
    var rel := lines[j].rel;
    if rel != "" && rel != own {
      CarrierBeats(c, lines, rel, j);
      var i := CarrierIn(c, lines, LinesAt(lines, rel, |lines|));
      assert GiveMedia(c, es, own, lines)[i].media == MediaOf(es, rel, |es|);
      assert GiveMedia(c, es, own, lines)[i].rel == rel;
      forall k | 0 <= k < |lines| && lines[k].rel == rel && k != i
        ensures Beats(c, lines, i, k)
      {
        CarrierBeats(c, lines, rel, k);
      }
      assert IsCarrier(c, es, GiveMedia(c, es, own, lines), rel, i);
    }
  }

  // ---- The program's way: two dictionaries, then one carrier each ------------

  predicate Foreign(own: string, rel: string) { rel != "" && rel != own }

  function Positions(byEpisode: map<string, seq<nat>>, rel: string): seq<nat> {
    if rel in byEpisode then byEpisode[rel] else []
  }

  /** The positions of the first `i` lines are filed under their foreign episodes. */
  ghost predicate Filed(own: string, lines: seq<Line>, i: nat, byEpisode: map<string, seq<nat>>)
    requires i <= |lines|
  {
    forall rel :: FiledAs(byEpisode, rel, if Foreign(own, rel) then LinesAt(lines, rel, i) else [])
  }

  /** An episode has an entry exactly when it has lines. */
  predicate FiledAs(byEpisode: map<string, seq<nat>>, rel: string, at: seq<nat>) {
    Positions(byEpisode, rel) == at && (rel in byEpisode ==> at != [])
  }

  lemma {:induction false} FiledMore(own: string, lines: seq<Line>, i: nat, byEpisode: map<string, seq<nat>>)
    requires i < |lines| && Filed(own, lines, i, byEpisode)
    ensures var rel := lines[i].rel;
      Filed(own, lines, i + 1, if Foreign(own, rel) then byEpisode[rel := Positions(byEpisode, rel) + [i]] else byEpisode)
  {
    var rel := lines[i].rel;
    var after := if Foreign(own, rel) then byEpisode[rel := Positions(byEpisode, rel) + [i]] else byEpisode;
    forall r ensures FiledAs(after, r, if Foreign(own, r) then LinesAt(lines, r, i + 1) else []) {
      assert FiledAs(byEpisode, r, if Foreign(own, r) then LinesAt(lines, r, i) else []);
    }
  }

  lemma {:induction false} FiledAll(own: string, lines: seq<Line>, byEpisode: map<string, seq<nat>>)
    requires Filed(own, lines, |lines|, byEpisode)
    ensures forall rel :: rel in byEpisode ==>
      Foreign(own, rel) && byEpisode[rel] != [] && byEpisode[rel] == LinesAt(lines, rel, |lines|)
    ensures forall j :: 0 <= j < |lines| && Foreign(own, lines[j].rel) ==> lines[j].rel in byEpisode
  {
    forall rel | rel in byEpisode
      ensures Foreign(own, rel) && byEpisode[rel] != [] && byEpisode[rel] == LinesAt(lines, rel, |lines|)
    {
      assert FiledAs(byEpisode, rel, if Foreign(own, rel) then LinesAt(lines, rel, |lines|) else []);
    }
    forall j | 0 <= j < |lines| && Foreign(own, lines[j].rel) ensures lines[j].rel in byEpisode {
      LinesAtComplete(lines, lines[j].rel, |lines|, j);
      assert FiledAs(byEpisode, lines[j].rel, LinesAt(lines, lines[j].rel, |lines|));
    }
  }

  /** `byEpisode`: the foreign episodes in line order, with the positions of their lines. */
  method LinesByEpisode(own: string, lines: seq<Line>) returns (rels: seq<string>, byEpisode: map<string, seq<nat>>)
    ensures SameKeys(rels, byEpisode)
    ensures forall rel :: rel in byEpisode ==>
      Foreign(own, rel) && byEpisode[rel] != [] && byEpisode[rel] == LinesAt(lines, rel, |lines|)
    ensures forall j :: 0 <= j < |lines| && Foreign(own, lines[j].rel) ==> lines[j].rel in byEpisode
  {
    rels, byEpisode := [], map[];
    for i := 0 to |lines|
      invariant SameKeys(rels, byEpisode)
      invariant Filed(own, lines, i, byEpisode)
    {
      FiledMore(own, lines, i, byEpisode);
      rels, byEpisode := FileLine(own, lines[i].rel, i, rels, byEpisode);
    }
    FiledAll(own, lines, byEpisode);
  }

  ghost predicate SameKeys(rels: seq<string>, byEpisode: map<string, seq<nat>>) {
    forall rel :: rel in rels <==> rel in byEpisode
  }

  method FileLine(own: string, rel: string, i: nat, rels: seq<string>, byEpisode: map<string, seq<nat>>)
    returns (more: seq<string>, after: map<string, seq<nat>>)
    requires SameKeys(rels, byEpisode)
    ensures after == if Foreign(own, rel) then byEpisode[rel := Positions(byEpisode, rel) + [i]] else byEpisode
    ensures SameKeys(more, after)
  {
    more, after := rels, byEpisode;
    if rel != "" && rel != own {
      if rel !in byEpisode {
        more := rels + [rel];
        after := after[rel := []];
      }
      after := after[rel := after[rel] + [i]];
    }
  }

  method MediaByEpisode(es: seq<Event>, byEpisode: map<string, seq<nat>>) returns (media: map<string, seq<int>>)
    ensures forall rel :: rel in byEpisode ==> MediaOf(es, rel, |es|) == if rel in media then media[rel] else []
  {
    media := map[];
    for i := 0 to |es|
      invariant forall rel :: rel in byEpisode ==> MediaOf(es, rel, i) == if rel in media then media[rel] else []
    {
      var e := es[i];
      if e.rel in byEpisode && e.media != [] {
        var bucket := if e.rel in media then media[e.rel] else [];
        ghost var was := bucket;
        for k := 0 to |e.media|
          invariant bucket == AppendNew(was, e.media, k)
        {
          if e.media[k] !in bucket {
            bucket := bucket + [e.media[k]];
          }
        }
        media := media[e.rel := bucket];
      }
    }
  }

  lemma {:induction false} MediaForRel(c: Codes, es: seq<Event>, own: string, lines: seq<Line>, rel: string)
    requires rel != "" && rel != own && LinesAt(lines, rel, |lines|) != []
    ensures forall i :: 0 <= i < |lines| && lines[i].rel == rel ==>
      MediaFor(c, es, own, lines, i)
      == if i == CarrierIn(c, lines, LinesAt(lines, rel, |lines|)) then MediaOf(es, rel, |es|) else []
    ensures var i := CarrierIn(c, lines, LinesAt(lines, rel, |lines|)); i < |lines| && lines[i].rel == rel
  {
  }

  /** The lines once the first `n` episodes gave their media. */
  ghost predicate Given(c: Codes, es: seq<Event>, own: string, lines: seq<Line>, rels: seq<string>, n: nat, r: seq<Line>)
    requires n <= |rels|
  {
    && |r| == |lines|
    && forall i :: 0 <= i < |lines| ==>
         r[i] == lines[i].(media := if lines[i].rel in rels[..n] then MediaFor(c, es, own, lines, i) else [])
  }

  lemma {:induction false} GiveOne(c: Codes, es: seq<Event>, own: string, lines: seq<Line>, rels: seq<string>, n: nat, r: seq<Line>)
    requires n < |rels| && Given(c, es, own, lines, rels, n, r)
    requires rels[n] != "" && rels[n] != own && LinesAt(lines, rels[n], |lines|) != []
    ensures var i := CarrierIn(c, lines, LinesAt(lines, rels[n], |lines|)); var all := MediaOf(es, rels[n], |es|);
      i < |lines| && Given(c, es, own, lines, rels, n + 1, if all == [] then r else r[i := r[i].(media := all)])
  {
    MediaForRel(c, es, own, lines, rels[n]);
    Snoc(rels, n);
  }

  lemma {:induction false} AllGiven(c: Codes, es: seq<Event>, own: string, lines: seq<Line>, rels: seq<string>, r: seq<Line>)
    requires Given(c, es, own, lines, rels, |rels|, r)
    requires forall j :: 0 <= j < |lines| && lines[j].rel != "" && lines[j].rel != own ==> lines[j].rel in rels
    ensures r == GiveMedia(c, es, own, lines)
  {
    assert rels[..|rels|] == rels;
  }

  /** Gives each foreign episode's media to its carrier line. */
  method AssignEpisodeMedia(c: Codes, es: seq<Event>, own: string, lines: seq<Line>) returns (r: seq<Line>)
    requires forall i :: 0 <= i < |lines| ==> lines[i].media == []
    ensures r == GiveMedia(c, es, own, lines)
  {
    var rels, byEpisode := LinesByEpisode(own, lines);
    var media := MediaByEpisode(es, byEpisode);
    r := lines;
    for n := 0 to |rels|
      invariant Given(c, es, own, lines, rels, n, r)
    {
      var rel := rels[n];
      assert rel in rels && rel in byEpisode;
      r := GiveToCarrier(c, es, own, lines, rels, n, byEpisode[rel], if rel in media then media[rel] else [], r);
    }
    AllGiven(c, es, own, lines, rels, r);
  }

  method GiveToCarrier(c: Codes, es: seq<Event>, own: string, lines: seq<Line>, ghost rels: seq<string>, ghost n: nat,
                       at: seq<nat>, all: seq<int>, given: seq<Line>) returns (r: seq<Line>)
    requires n < |rels| && Foreign(own, rels[n]) && at != [] && at == LinesAt(lines, rels[n], |lines|)
    requires all == MediaOf(es, rels[n], |es|) && Given(c, es, own, lines, rels, n, given)
    ensures Given(c, es, own, lines, rels, n + 1, r)
  {
    GiveOne(c, es, own, lines, rels, n, given);
    r := given;
    if all != [] {
      var carrier := CarrierIn(c, lines, at);
      r := r[carrier := r[carrier].(media := all)];
    }
  }
}
