/** Which cards there are, one for each episode, and in which order they stand. */
module SessionNewest {
  import opened Common
  import opened Sorting
  import opened SessionSpec
  import opened SessionSteps
  import opened SessionPasses
  import opened SessionConservation
  import opened SessionJustified
  import opened SessionHeads
  import opened SessionRuns
  import SessionTies

  // ---- The order of the cards -----------------------------------------------------------------------

  /** Each episode has one card, and one more if its cleaning has one. */
  lemma {:induction false} OneCardEach(c: Codes, es: seq<Event>, v: CardView, w: CardView)
    requires DistinctIds(es) && v in Grouped(c, es) && w in Grouped(c, es) && v.header.rel == w.header.rel != ""
    requires v.header.kind != Standalone && w.header.kind != Standalone
    requires v.header.kind == OfKind(Cleaning) <==> w.header.kind == OfKind(Cleaning)
    ensures v == w
  {
    AllKeysDistinct(c, es);
    var k := CardAt(c, es, v);
    var n := CardAt(c, es, w);
    KeyShown(c, es, k);
    KeyShown(c, es, n);
    SameKeySame(AllGroups(c, es), k, n);
  }

  lemma {:induction false} KeyShown(c: Codes, es: seq<Event>, k: nat)
    requires k < |AllGroups(c, es)|
    ensures var g := AllGroups(c, es)[k]; var h := HeaderOf(c, g);
      if h.kind == Standalone || h.rel == "" then true
      else g.key == if h.kind == OfKind(Cleaning) then OrphanCard(h.rel) else EpisodeCard(h.rel)
  {
    KindPlaces(c, es, k);
    if k < |FirstGroups(c, es)| {
      FirstHeader(c, es, k);
    } else if k < |CycleGroups(c, es)| {
      OrphanHeader(c, es, k);
    }
  }

  /** An event of the first kind is stored before any of the second. */
  ghost predicate Precedes(es: seq<Event>, p: Event -> bool, q: Event -> bool) {
    exists i: nat :: i < |es| && p(es[i]) && forall j :: 0 <= j <= i ==> !q(es[j])
  }

  function OfEpisode(c: Codes, rel: string): Event -> bool { x => rel != "" && Eligible(c, x) && x.rel == rel }

  function OfOrphan(f: First, rel: string): Event -> bool { x => OrphanStep(f, x) && x.rel == rel }

  function Being(e: Event): Event -> bool { x => x == e }

  function OneOf(own: seq<Event>): Event -> bool { x => x in own }

  lemma {:induction false} PrecedesMore(es: seq<Event>, n: nat, p: Event -> bool, q: Event -> bool)
    requires n < |es|
    ensures Precedes(es[..n], p, q) ==> Precedes(es[..n + 1], p, q)
    ensures (exists i :: 0 <= i < n && p(es[i])) && (forall i :: 0 <= i < n ==> !q(es[i])) ==> Precedes(es[..n + 1], p, q)
  {
    var more := es[..n + 1];
    if Precedes(es[..n], p, q) {
      var i: nat :| i < n && p(es[..n][i]) && forall j :: 0 <= j <= i ==> !q(es[..n][j]);
      assert more[i] == es[..n][i] && forall j :: 0 <= j <= i ==> more[j] == es[..n][j];
    }
    if (exists i :: 0 <= i < n && p(es[i])) && (forall i :: 0 <= i < n ==> !q(es[i])) {
      var i :| 0 <= i < n && p(es[i]);
      assert more[i] == es[i] && forall j :: 0 <= j <= i ==> more[j] == es[j];
    }
  }

  ghost predicate InOrderOf(es: seq<Event>, p: string -> Event -> bool, rels: seq<string>) {
    forall a, b :: 0 <= a < b < |rels| ==> Precedes(es, p(rels[a]), p(rels[b]))
  }

  lemma {:induction false} InOrderMore(es: seq<Event>, n: nat, p: string -> Event -> bool, before: seq<string>, rels: seq<string>, rel: string)
    requires n < |es| && InOrderOf(es[..n], p, before)
    requires rels == before || (rels == before + [rel] && rel !in before)
    requires forall r :: r in before <==> exists i :: 0 <= i < n && p(r)(es[i])
    ensures InOrderOf(es[..n + 1], p, rels)
  {
    forall a, b | 0 <= a < b < |rels| ensures Precedes(es[..n + 1], p(rels[a]), p(rels[b])) {
      PrecedesMore(es, n, p(rels[a]), p(rels[b]));
      if b == |before| {
        assert rels[a] in before;
      }
    }
  }

  lemma {:induction false} EpisodeAmong(c: Codes, es: seq<Event>, n: nat, rel: string)
    requires n <= |es|
    ensures rel in EpisodeRels(c, es[..n]) <==> exists i :: 0 <= i < n && Episodes(c)(rel)(es[i])
  {
    var own := EpisodeMembers(c, es[..n], rel);
    if rel in EpisodeRels(c, es[..n]) {
      assert own[0] in own;
      var i :| 0 <= i < n && es[i] == own[0];
    }
    if i :| 0 <= i < n && Episodes(c)(rel)(es[i]) {
      assert es[..n][i] == es[i];
      assert es[i] in own;
    }
  }

  lemma {:induction false} EpisodeRelsMore(c: Codes, es: seq<Event>, n: nat)
    requires n < |es|
    ensures var before, rels := EpisodeRels(c, es[..n]), EpisodeRels(c, es[..n + 1]);
      rels == before || (rels == before + [es[n].rel] && es[n].rel !in before)
  {
    Snoc(es, n);
  }

  function Episodes(c: Codes): string -> Event -> bool { rel => OfEpisode(c, rel) }

  lemma {:induction false} EpisodesOneMore(c: Codes, es: seq<Event>, n: nat, before: seq<string>, rels: seq<string>)
    requires n < |es| && before == EpisodeRels(c, es[..n]) && rels == EpisodeRels(c, es[..n + 1])
    requires InOrderOf(es[..n], Episodes(c), before)
    ensures InOrderOf(es[..n + 1], Episodes(c), rels)
  {
    EpisodeRelsMore(c, es, n);
    forall r ensures r in before <==> exists i :: 0 <= i < n && Episodes(c)(r)(es[i]) {
      EpisodeAmong(c, es, n, r);
    }
    InOrderMore(es, n, Episodes(c), before, rels, es[n].rel);
  }

  lemma {:induction false} EpisodesInOrder(c: Codes, es: seq<Event>, n: nat, rels: seq<string>)
    requires n <= |es| && rels == EpisodeRels(c, es[..n])
    ensures InOrderOf(es[..n], Episodes(c), rels)
    decreases n
  {
    if n == 0 {
      assert rels == [];
    } else {
      EpisodesInOrder(c, es, n - 1, EpisodeRels(c, es[..n - 1]));
      EpisodesOneMore(c, es, n - 1, EpisodeRels(c, es[..n - 1]), rels);
    }
  }

  lemma {:induction false} OrphanAmong(f: First, es: seq<Event>, n: nat, rel: string)
    requires n <= |es|
    ensures rel in OrphanRels(f, es[..n]) <==> exists i :: 0 <= i < n && OfOrphan(f, rel)(es[i])
  {
    if rel in OrphanRels(f, es[..n]) {
      var e :| e in es[..n] && OrphanStep(f, e) && e.rel == rel;
      var i :| 0 <= i < n && es[i] == e;
    }
    if i :| 0 <= i < n && OfOrphan(f, rel)(es[i]) {
      assert es[..n][i] == es[i];
    }
  }

  lemma {:induction false} OrphanRelsMore(f: First, es: seq<Event>, n: nat)
    requires n < |es|
    ensures var before, rels := OrphanRels(f, es[..n]), OrphanRels(f, es[..n + 1]);
      rels == before || (rels == before + [es[n].rel] && es[n].rel !in before)
  {
    Snoc(es, n);
  }

  function Orphans(f: First): string -> Event -> bool { rel => OfOrphan(f, rel) }

  lemma {:induction false} OrphansOneMore(f: First, es: seq<Event>, n: nat, before: seq<string>, rels: seq<string>)
    requires n < |es| && before == OrphanRels(f, es[..n]) && rels == OrphanRels(f, es[..n + 1])
    requires InOrderOf(es[..n], Orphans(f), before)
    ensures InOrderOf(es[..n + 1], Orphans(f), rels)
  {
    OrphanRelsMore(f, es, n);
    forall r ensures r in before <==> exists i :: 0 <= i < n && Orphans(f)(r)(es[i]) {
      OrphanAmong(f, es, n, r);
    }
    InOrderMore(es, n, Orphans(f), before, rels, es[n].rel);
  }

  lemma {:induction false} OrphansInOrder(f: First, es: seq<Event>, n: nat, rels: seq<string>)
    requires n <= |es| && rels == OrphanRels(f, es[..n])
    ensures InOrderOf(es[..n], Orphans(f), rels)
    decreases n
  {
    if n == 0 {
      assert rels == [];
    } else {
      OrphansInOrder(f, es, n - 1, OrphanRels(f, es[..n - 1]));
      OrphansOneMore(f, es, n - 1, OrphanRels(f, es[..n - 1]), rels);
    }
  }

  /** Two events in the order they are stored. */
  lemma {:induction false} OnePrecedes(es: seq<Event>, a: Event, b: Event)
    requires DistinctIds(es) && a in es && b in es && Place(es)(a) < Place(es)(b)
    ensures Precedes(es, Being(a), Being(b))
  {
    var i: nat := Index(es, a);
    assert es[i] == a && es[Index(es, b)] == b;
    forall j | 0 <= j <= i ensures !Being(b)(es[j]) {
      assert j < Index(es, b);
    }
  }

  // ---- Groups in the order of what founds them --------------------------------------------------

  /** Own events of the first group are stored before any of the second. */
  ghost predicate Precede(es: seq<Event>, g: Group, h: Group) { Precedes(es, OneOf(g.own), OneOf(h.own)) }

  lemma {:induction false} SameFounders(es: seq<Event>, g: Group, h: Group, p: Event -> bool, q: Event -> bool)
    requires Precedes(es, p, q)
    requires forall x :: x in es ==> (p(x) <==> x in g.own) && (q(x) <==> x in h.own)
    ensures Precede(es, g, h)
  {
    var i: nat :| i < |es| && p(es[i]) && forall j :: 0 <= j <= i ==> !q(es[j]);
    forall j | 0 <= j <= i ensures !OneOf(h.own)(es[j]) {
      assert es[j] in es;
    }
    assert es[i] in es && OneOf(g.own)(es[i]);
  }

  lemma {:induction false} EpisodesPrecede(c: Codes, es: seq<Event>, a: nat, b: nat, g: Group, h: Group)
    requires a < b < |EpisodeRels(c, es)|
    requires g.own == EpisodeMembers(c, es, EpisodeRels(c, es)[a]) && h.own == EpisodeMembers(c, es, EpisodeRels(c, es)[b])
    ensures Precede(es, g, h)
  {
    var rels := EpisodeRels(c, es);
    assert es[..|es|] == es;
    EpisodesInOrder(c, es, |es|, rels);
    assert rels[a] in rels && rels[b] in rels;
    assert Precedes(es, Episodes(c)(rels[a]), Episodes(c)(rels[b]));
    SameFounders(es, g, h, OfEpisode(c, rels[a]), OfEpisode(c, rels[b]));
  }

  lemma {:induction false} SinglesPrecede(es: seq<Event>, singles: seq<Event>, a: nat, b: nat, g: Group, h: Group)
    requires DistinctIds(es) && InOrder(es, |es|, singles) && a < b < |singles|
    requires g.own == [singles[a]] && h.own == [singles[b]]
    ensures Precede(es, g, h)
  {
    OnePrecedes(es, singles[a], singles[b]);
    SameFounders(es, g, h, Being(singles[a]), Being(singles[b]));
  }

  lemma {:induction false} VisitsPrecede(c: Codes, es: seq<Event>, a: nat, b: nat, g: Group, h: Group)
    requires DistinctIds(es) && a < b < |LooseVisits(c, es)|
    requires g.own == [LooseVisits(c, es)[a]] && h.own == [LooseVisits(c, es)[b]]
    ensures Precede(es, g, h)
  {
    LooseInOrder(c, es, |es|);
    assert es[..|es|] == es;
    SinglesPrecede(es, LooseVisits(c, es), a, b, g, h);
  }

  lemma {:induction false} LoosePrecede(c: Codes, es: seq<Event>, a: nat, b: nat)
    requires DistinctIds(es) && |EpisodeRels(c, es)| <= a < b < |FirstGroups(c, es)|
    ensures Precede(es, FirstGroups(c, es)[a], FirstGroups(c, es)[b])
  {
    var n := |EpisodeRels(c, es)|;
    FirstShape(c, es, a);
    FirstShape(c, es, b);
    VisitsPrecede(c, es, a - n, b - n, FirstGroups(c, es)[a], FirstGroups(c, es)[b]);
  }

  lemma {:induction false} FirstsInOrder(c: Codes, es: seq<Event>, a: nat, b: nat)
    requires DistinctIds(es) && a < b < |FirstGroups(c, es)|
    ensures FirstGroups(c, es)[a].key.LooseCard? ==> FirstGroups(c, es)[b].key.LooseCard?
    ensures FirstGroups(c, es)[a].key.EpisodeCard? == FirstGroups(c, es)[b].key.EpisodeCard? ==>
      Precede(es, FirstGroups(c, es)[a], FirstGroups(c, es)[b])
  {
    var rels := EpisodeRels(c, es);
    FirstShape(c, es, a);
    FirstShape(c, es, b);
    if b < |rels| {
      EpisodesPrecede(c, es, a, b, FirstGroups(c, es)[a], FirstGroups(c, es)[b]);
    } else if a >= |rels| {
      LoosePrecede(c, es, a, b);
    }
  }

  lemma {:induction false} LooseInOrder(c: Codes, es: seq<Event>, n: nat)
    requires DistinctIds(es) && n <= |es|
    ensures InOrder(es, n, LooseVisits(c, es[..n]))
    decreases n
  {
    if n != 0 {
      LooseInOrder(c, es, n - 1);
      InOrderSnoc(es, n - 1, LooseVisits(c, es[..n - 1]));
      Snoc(es, n - 1);
    }
  }

  lemma {:induction false} RowsInOrder(p: Plan, es: seq<Event>, n: nat)
    requires DistinctIds(es) && n <= |es|
    ensures InOrder(es, n, Rows(p, es[..n]))
    decreases n
  {
    if n != 0 {
      RowsInOrder(p, es, n - 1);
      InOrderSnoc(es, n - 1, Rows(p, es[..n - 1]));
      Snoc(es, n - 1);
    }
  }

  ghost predicate AllPrecede(es: seq<Event>, gs: seq<Group>) {
    forall a, b :: 0 <= a < b < |gs| ==> Precede(es, gs[a], gs[b])
  }

  lemma {:induction false} OrphanGroupsMore(f: First, es: seq<Event>, rels: seq<string>, r: nat, k: nat)
    requires r < |rels| && k < |OrphanGroupsUpTo(f, es, rels, r + 1)|
    ensures k < |OrphanGroupsUpTo(f, es, rels, r)| ==>
      OrphanGroupsUpTo(f, es, rels, r + 1)[k] == OrphanGroupsUpTo(f, es, rels, r)[k]
    ensures k >= |OrphanGroupsUpTo(f, es, rels, r)| ==>
      k == |OrphanGroupsUpTo(f, es, rels, r)| && OrphanGroupsUpTo(f, es, rels, r + 1)[k].key == OrphanCard(rels[r])
  {
  }

  lemma {:induction false} Earlier(f: First, es: seq<Event>, rels: seq<string>, r: nat, k: nat) returns (m: nat)
    requires r <= |rels| && k < |OrphanGroupsUpTo(f, es, rels, r)|
    ensures m < r && OrphanGroupsUpTo(f, es, rels, r)[k].key == OrphanCard(rels[m])
  {
    OrphanGroupsExact(f, es, rels, r);
    var gs := OrphanGroupsUpTo(f, es, rels, r);
    assert gs[k] in gs;
    m :| m < r && rels[m] == gs[k].key.rel;
  }

  /** The completed orphan episodes keep the order of the orphan episodes. */
  lemma {:induction false} OrphanTurns(f: First, es: seq<Event>, rels: seq<string>, r: nat, a: nat, b: nat) returns (m: nat, n: nat)
    requires r <= |rels| && a < b < |OrphanGroupsUpTo(f, es, rels, r)|
    ensures m < n < r
    ensures OrphanGroupsUpTo(f, es, rels, r)[a].key == OrphanCard(rels[m])
    ensures OrphanGroupsUpTo(f, es, rels, r)[b].key == OrphanCard(rels[n])
    decreases r
  {
    if r == 0 {
      assert false;
    } else {
      OrphanGroupsMore(f, es, rels, r - 1, a);
      OrphanGroupsMore(f, es, rels, r - 1, b);
      if b < |OrphanGroupsUpTo(f, es, rels, r - 1)| {
        m, n := OrphanTurns(f, es, rels, r - 1, a, b);
      } else {
        m := Earlier(f, es, rels, r - 1, a);
        n := r - 1;
      }
    }
  }

  lemma {:induction false} OrphansPrecede(f: First, es: seq<Event>, a: nat, b: nat, og: seq<Group>)
    requires og == OrphanGroups(f, es, OrphanRels(f, es)) && a < b < |og|
    ensures Precede(es, og[a], og[b])
  {
    var rels := OrphanRels(f, es);
    var m, n := OrphanTurns(f, es, rels, |rels|, a, b);
    OrphanGroupsMeaning(f, es);
    assert og[a] in og && og[b] in og;
    OrphansApart(f, es, rels, m, n, og[a], og[b]);
  }

  lemma {:induction false} OrphansApart(f: First, es: seq<Event>, rels: seq<string>, m: nat, n: nat, g: Group, h: Group)
    requires rels == OrphanRels(f, es) && m < n < |rels|
    requires g.own == OrphanSteps(f, es, rels[m]) && h.own == OrphanSteps(f, es, rels[n])
    ensures Precede(es, g, h)
  {
    assert es[..|es|] == es;
    OrphansInOrder(f, es, |es|, rels);
    assert Precedes(es, Orphans(f)(rels[m]), Orphans(f)(rels[n]));
    SameFounders(es, g, h, OfOrphan(f, rels[m]), OfOrphan(f, rels[n]));
  }

  /** Cards of episodes, then loose visits, then cleanings, then rows. */
  function Class(h: Header): nat {
    if HeadsEpisode(h) then 0 else if h.kind == Visit then 1 else if h.kind == OfKind(Cleaning) then 2 else 3
  }

  function KeyClass(key: Key): nat {
    match key case EpisodeCard(_) => 0 case LooseCard(_) => 1 case OrphanCard(_) => 2 case RowCard(_) => 3
  }

  lemma {:induction false} ClassOf(c: Codes, es: seq<Event>, k: nat)
    requires k < |AllGroups(c, es)|
    ensures Class(HeaderOf(c, AllGroups(c, es)[k])) == KeyClass(AllGroups(c, es)[k].key)
  {
    var h := HeaderOf(c, AllGroups(c, es)[k]);
    KindPlaces(c, es, k);
    if k < |FirstGroups(c, es)| {
      FirstHeader(c, es, k);
      assert HeadsEpisode(h) || h.kind == Visit;
    } else if k < |CycleGroups(c, es)| {
      OrphanHeader(c, es, k);
      assert h.kind == OfKind(Cleaning);
    } else {
      assert h.kind == Standalone;
    }
  }

  lemma {:induction false} RowsPrecede(es: seq<Event>, cards: seq<Group>, rows: seq<Event>, all: seq<Group>, a: nat, b: nat)
    requires DistinctIds(es) && InOrder(es, |es|, rows) && all == cards + RowGroups(rows) && |cards| <= a < b < |all|
    ensures Precede(es, all[a], all[b])
  {
    var n := |cards|;
    assert all[a] == RowGroups(rows)[a - n] && all[b] == RowGroups(rows)[b - n];
    SinglesPrecede(es, rows, a - n, b - n, all[a], all[b]);
  }

  lemma {:induction false} TailAt<T>(xs: seq<T>, ys: seq<T>, all: seq<T>, k: nat)
    requires all == xs + ys && |xs| <= k < |all|
    ensures k - |xs| < |ys| && all[k] == ys[k - |xs|]
  {
  }

  lemma {:induction false} TailPrecede(es: seq<Event>, firsts: seq<Group>, later: seq<Group>, all: seq<Group>, a: nat, b: nat)
    requires AllPrecede(es, later) && all == firsts + later && |firsts| <= a < b < |all|
    ensures Precede(es, all[a], all[b])
  {
    TailAt(firsts, later, all, a);
    TailAt(firsts, later, all, b);
  }

  lemma {:induction false} AllOrphansPrecede(f: First, es: seq<Event>, og: seq<Group>)
    requires og == OrphanGroups(f, es, OrphanRels(f, es))
    ensures AllPrecede(es, og)
  {
    forall a, b | 0 <= a < b < |og| ensures Precede(es, og[a], og[b]) {
      OrphansPrecede(f, es, a, b, og);
    }
  }

  ghost predicate KeysInOrder(es: seq<Event>, g: Group, h: Group) {
    KeyClass(g.key) < KeyClass(h.key) || (KeyClass(g.key) == KeyClass(h.key) && Precede(es, g, h))
  }

  lemma {:induction false} FirstKeysInOrder(c: Codes, es: seq<Event>, a: nat, b: nat)
    requires DistinctIds(es) && a < b < |FirstGroups(c, es)|
    ensures KeysInOrder(es, FirstGroups(c, es)[a], FirstGroups(c, es)[b])
  {
    FirstKeysOnly(c, es, a);
    FirstKeysOnly(c, es, b);
    FirstsInOrder(c, es, a, b);
  }

  lemma {:induction false} CycleKeysInOrder(c: Codes, es: seq<Event>, a: nat, b: nat)
    requires DistinctIds(es) && a < b < |CycleGroups(c, es)|
    ensures KeysInOrder(es, CycleGroups(c, es)[a], CycleGroups(c, es)[b])
  {
    var f, m := FirstOf(c, es), |FirstGroups(c, es)|;
    if b < m {
      FirstKeysInOrder(c, es, a, b);
    } else {
      OrphanGroupAt(c, es, b);
      if a < m {
        FirstKeysOnly(c, es, a);
      } else {
        OrphanGroupAt(c, es, a);
        var og := OrphanGroups(f, es, OrphanRels(f, es));
        AllOrphansPrecede(f, es, og);
        TailPrecede(es, FirstGroups(c, es), og, CycleGroups(c, es), a, b);
      }
    }
  }

  lemma {:induction false} AllKeysInOrder(c: Codes, es: seq<Event>, a: nat, b: nat)
    requires DistinctIds(es) && a < b < |AllGroups(c, es)|
    ensures KeysInOrder(es, AllGroups(c, es)[a], AllGroups(c, es)[b])
  {
    var p, n := PlanOf(c, es), |CycleGroups(c, es)|;
    KindPlaces(c, es, a);
    KindPlaces(c, es, b);
    if b < n {
      CycleKeysInOrder(c, es, a, b);
    } else if n <= a {
      RowsInOrder(p, es, |es|);
      assert es[..|es|] == es;
      RowsPrecede(es, CycleGroups(c, es), Rows(p, es), AllGroups(c, es), a, b);
    }
  }

  // ---- Cards of one time --------------------------------------------------------------------------

  /** The event is one the card was made for. */
  ghost predicate Founds(c: Codes, es: seq<Event>, v: CardView, x: Event) {
    if HeadsEpisode(v.header) then x in EpisodeOf(c, es, v.header.rel)
    else if v.header.kind == OfKind(Cleaning) then x in UnclaimedOf(c, es, v.header.rel)
    else x.id == v.id
  }

  lemma {:induction false} FoundsOwn(c: Codes, es: seq<Event>, v: CardView, k: nat, x: Event)
    requires DistinctIds(es) && k < |AllGroups(c, es)| && v == TimelineCard(c, es, k) && x in es
    ensures Founds(c, es, v, x) <==> x in AllGroups(c, es)[k].own
  {
    KindPlaces(c, es, k);
    ClassOf(c, es, k);
    if k < |FirstGroups(c, es)| {
      FirstFounds(c, es, v, k, x);
    } else if k < |CycleGroups(c, es)| {
      OrphanGroupAt(c, es, k);
      OrphanHeader(c, es, k);
      StepsAre(c, es, v.header.rel);
    } else {
      SingleFounds(c, es, v, k, x);
    }
  }

  lemma {:induction false} SingleFounds(c: Codes, es: seq<Event>, v: CardView, k: nat, x: Event)
    requires DistinctIds(es) && k < |AllGroups(c, es)| && x in es && |AllGroups(c, es)[k].own| == 1
    requires v.id == HeadOf(c, AllGroups(c, es)[k]).id
    ensures x.id == v.id <==> x in AllGroups(c, es)[k].own
  {
    var g := AllGroups(c, es)[k];
    HeadAmong(c, g);
    OwnInOrder(c, es, k);
    assert g.own == [g.own[0]] && g.own[0] in es;
    if x.id == v.id {
      SameId(es, x, g.own[0]);
    }
  }

  lemma {:induction false} FirstFounds(c: Codes, es: seq<Event>, v: CardView, k: nat, x: Event)
    requires DistinctIds(es) && k < |FirstGroups(c, es)| && k < |AllGroups(c, es)| && v == TimelineCard(c, es, k) && x in es
    ensures Founds(c, es, v, x) <==> x in AllGroups(c, es)[k].own
  {
    FirstHeader(c, es, k);
    FirstShape(c, es, k);
    FirstPlaced(c, es, k);
    if FirstGroups(c, es)[k].key.EpisodeCard? {
      MembersAre(c, es, v.header.rel);
    } else {
      SingleFounds(c, es, v, k, x);
    }
  }

  /** Cards of one time: those of episodes first, then visits without one, then cleanings,
      then rows; among those of one sort, the one whose first event is stored first. */
  ghost predicate StandsBefore(c: Codes, es: seq<Event>, v: CardView, w: CardView) {
    || Class(v.header) < Class(w.header)
    || (Class(v.header) == Class(w.header)
        && exists i: nat :: i < |es| && Founds(c, es, v, es[i]) && forall j :: 0 <= j <= i ==> !Founds(c, es, w, es[j]))
  }

  lemma {:induction false} PlacesStand(c: Codes, es: seq<Event>, v: CardView, w: CardView, a: nat, b: nat)
    requires DistinctIds(es) && a < b < |AllGroups(c, es)| && v == TimelineCard(c, es, a) && w == TimelineCard(c, es, b)
    ensures StandsBefore(c, es, v, w)
  {
    AllKeysInOrder(c, es, a, b);
    ClassOf(c, es, a);
    ClassOf(c, es, b);
    if Class(v.header) == Class(w.header) {
      Founded(c, es, v, w, a, b);
    }
  }

  lemma {:induction false} Founded(c: Codes, es: seq<Event>, v: CardView, w: CardView, a: nat, b: nat)
    requires DistinctIds(es) && a < |AllGroups(c, es)| && b < |AllGroups(c, es)|
    requires v == TimelineCard(c, es, a) && w == TimelineCard(c, es, b)
    requires Precede(es, AllGroups(c, es)[a], AllGroups(c, es)[b])
    ensures exists i: nat :: i < |es| && Founds(c, es, v, es[i]) && forall j :: 0 <= j <= i ==> !Founds(c, es, w, es[j])
  {
    var g, h := AllGroups(c, es)[a], AllGroups(c, es)[b];
    var i: nat :| i < |es| && OneOf(g.own)(es[i]) && forall j :: 0 <= j <= i ==> !OneOf(h.own)(es[j]);
    FoundsOwn(c, es, v, a, es[i]);
    forall j | 0 <= j <= i ensures !Founds(c, es, w, es[j]) {
      FoundsOwn(c, es, w, b, es[j]);
    }
  }

  lemma {:induction false} DistinctCards(cards: seq<CardView>)
    requires forall id :: IdBag(cards)[id] <= 1
    ensures NoDup(cards)
  {
    forall i, j | 0 <= i < j < |cards| ensures cards[i] != cards[j] {
      if cards[i] == cards[j] {
        SessionTies.TwoCards(cards, i, j, cards[i].id);
      }
    }
  }

  lemma {:induction false} ShownOnce(c: Codes, es: seq<Event>, cards: seq<CardView>)
    requires DistinctIds(es) && multiset(cards) == multiset(Grouped(c, es))
    ensures forall id :: IdBag(cards)[id] <= 1
  {
    Conservation(c, es);
    BagPermutation(cards, Grouped(c, es));
  }

  lemma {:induction false} CardsNoDup(c: Codes, es: seq<Event>, cards: seq<CardView>)
    requires DistinctIds(es) && cards == FinishedCards(PlanOf(c, es), es, AllGroups(c, es))
    ensures NoDup(cards)
  {
    SortCorrect(cards, NewestFirst);
    ShownOnce(c, es, cards);
    DistinctCards(cards);
  }

  /** The newest card comes first, and cards of one time stand by sort and storage. */
  lemma {:induction false} CardsRun(c: Codes, es: seq<Event>, i: nat, j: nat)
    requires DistinctIds(es) && i < j < |Grouped(c, es)|
    ensures var v, w := Grouped(c, es)[i], Grouped(c, es)[j];
      || v.header.ts.GetOr(0.0) > w.header.ts.GetOr(0.0)
      || (v.header.ts.GetOr(0.0) == w.header.ts.GetOr(0.0) && StandsBefore(c, es, v, w))
  {
    var cards := FinishedCards(PlanOf(c, es), es, AllGroups(c, es));
    CardsNoDup(c, es, cards);
    var a, b := SortedFrom(cards, NewestFirst, i, j);
    if a < b {
      PlacesStand(c, es, Grouped(c, es)[i], Grouped(c, es)[j], a, b);
    }
  }
}
