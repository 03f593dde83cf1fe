/** What heads each card, in which order its steps run and whose pet it shows, read off the Timeline. */
module SessionHeads {
  import opened Common
  import opened Sorting
  import opened SessionSpec
  import opened SessionSteps
  import opened SessionPasses
  import opened SessionConservation
  import opened SessionJustified

  // ---- The order in which rows are stored ------------------------------------------

  /** `a` is stored before `b`, or is `b`. */
  ghost predicate Stored(es: seq<Event>, a: Event, b: Event) {
    exists i, j :: 0 <= i <= j < |es| && es[i] == a && es[j] == b
  }

  /** `a` is earlier than `b`; of one time, it is stored before `b` or is `b`.  An event
      without a time counts as the epoch. */
  ghost predicate Sooner(es: seq<Event>, a: Event, b: Event) {
    || a.ts.GetOr(0.0) < b.ts.GetOr(0.0)
    || (a.ts.GetOr(0.0) == b.ts.GetOr(0.0) && Stored(es, a, b))
  }

  ghost function Index<T>(xs: seq<T>, x: T): nat {
    if x in xs then (var i :| 0 <= i < |xs| && xs[i] == x; i) else 0
  }

  ghost function Place<T>(xs: seq<T>): T -> real { x => Index(xs, x) as real }

  lemma {:induction false} PlaceOrders(es: seq<Event>, a: Event, b: Event)
    requires a in es && b in es && Place(es)(a) <= Place(es)(b)
    ensures Stored(es, a, b)
  {
    assert Index(es, a) <= Index(es, b);
  }

  lemma {:induction false} PlaceAt(es: seq<Event>, n: nat)
    requires DistinctIds(es) && n < |es|
    ensures Place(es)(es[n]) == n as real
  {
    assert es[n] in es;
  }

  /** A selection of the first `n` rows in the order they are stored. */
  ghost predicate InOrder(es: seq<Event>, n: nat, r: seq<Event>) {
    && (forall i, j :: 0 <= i < j < |r| ==> Place(es)(r[i]) < Place(es)(r[j]))
    && forall i :: 0 <= i < |r| ==> r[i] in es && Place(es)(r[i]) < n as real
  }

  lemma {:induction false} InOrderSnoc(es: seq<Event>, n: nat, r: seq<Event>)
    requires DistinctIds(es) && n < |es| && InOrder(es, n, r)
    ensures InOrder(es, n + 1, r) && InOrder(es, n + 1, r + [es[n]])
  {
    PlaceAt(es, n);
    assert es[n] in es;
    var more := r + [es[n]];
    forall i, j | 0 <= i < j < |more| ensures Place(es)(more[i]) < Place(es)(more[j]) {
      if j < |r| {
        assert more[i] == r[i] && more[j] == r[j];
      } else {
        assert more[i] == r[i];
      }
    }
  }

  lemma {:induction false} HavingInOrder(p: Plan, es: seq<Event>, n: nat, home: Home)
    requires DistinctIds(es) && n <= |es|
    ensures InOrder(es, n, Having(p, es[..n], home))
    decreases n
  {
    if n != 0 {
      HavingInOrder(p, es, n - 1, home);
      InOrderSnoc(es, n - 1, Having(p, es[..n - 1], home));
      Snoc(es, n - 1);
    }
  }

  /** The events of a card's own are listed as they are stored. */
  lemma {:induction false} OwnInOrder(c: Codes, es: seq<Event>, k: nat)
    requires DistinctIds(es) && k < |AllGroups(c, es)|
    ensures InOrder(es, |es|, AllGroups(c, es)[k].own)
  {
    var p := PlanOf(c, es);
    var g := AllGroups(c, es)[k];
    AllOwnHoused(c, es, p);
    assert Housed(p, es, g);
    HavingInOrder(p, es, |es|, Home(g.key, Member));
    assert es[..|es|] == es;
  }

  // ---- The head of a group -------------------------------------------------------------

  lemma {:induction false} SoonerOf(es: seq<Event>, a: Event, b: Event)
    requires a in es && b in es
    requires EventKey(a) < EventKey(b) || (EventKey(a) == EventKey(b) && Place(es)(a) <= Place(es)(b))
    ensures Sooner(es, a, b)
  {
    if EventKey(a) == EventKey(b) {
      PlaceOrders(es, a, b);
    }
  }

  /** Ordered by time, then as stored. */
  lemma {:induction false} OrderedSooner(es: seq<Event>, own: seq<Event>)
    requires InOrder(es, |es|, own)
    ensures forall i, j :: 0 <= i < j < |own| ==> Sooner(es, Ordered(own)[i], Ordered(own)[j])
  {
    SortStable(own, EventKey, Place(es));
    SortKeeps(own, EventKey);
    forall i, j | 0 <= i < j < |own| ensures Sooner(es, Ordered(own)[i], Ordered(own)[j]) {
      assert Ordered(own)[i] in own && Ordered(own)[j] in own;
      SoonerOf(es, Ordered(own)[i], Ordered(own)[j]);
    }
  }

  lemma {:induction false} SoonerSelf(es: seq<Event>, a: Event)
    requires a in es
    ensures Sooner(es, a, a)
  {
    var i :| 0 <= i < |es| && es[i] == a;
  }

  /** The first with one of the codes; without any, the last of all. */
  ghost predicate Leads(es: seq<Event>, own: set<Event>, codes: set<string>, head: Event) {
    if exists x :: x in own && x.code in codes
    then head.code in codes && forall x :: x in own && x.code in codes ==> Sooner(es, head, x)
    else forall x :: x in own ==> Sooner(es, x, head)
  }

  lemma {:induction false} HeadLeads(c: Codes, es: seq<Event>, g: Group, own: set<Event>)
    requires g.own != [] && InOrder(es, |es|, g.own) && forall x :: x in own <==> x in g.own
    ensures HeadOf(c, g) in own
    ensures Leads(es, own, if g.key.OrphanCard? then c.primaryDone else c.anchor, HeadOf(c, g))
  {
    var codes := if g.key.OrphanCard? then c.primaryDone else c.anchor;
    var o := Ordered(g.own);
    var i := FirstWith(o, codes);
    OrderedSooner(es, g.own);
    SortKeeps(g.own, EventKey);
    assert HeadOf(c, g) in o;
    forall x | x in g.own && (i < |o| ==> x.code in codes)
      ensures if i < |o| then Sooner(es, o[i], x) else x.code !in codes && Sooner(es, x, o[|o| - 1])
    {
      assert x in o;
      var j :| 0 <= j < |o| && o[j] == x;
      SoonerSelf(es, x);
    }
    if i < |o| {
      assert o[i] in own && o[i].code in codes;
    }
  }

  // ---- The cards of the Timeline and their heads --------------------------------------------

  /** The events a card of this episode is made of. */
  ghost function EpisodeOf(c: Codes, es: seq<Event>, rel: string): set<Event> {
    set x | x in es && x.rel == rel && MayHead(c, x)
  }

  /** The cleaning steps of this episode that nothing else on the Timeline claims. */
  ghost function UnclaimedOf(c: Codes, es: seq<Event>, rel: string): set<Event> {
    set x | x in es && x.rel == rel && rel != "" && x.kind == Cleaning && Unclaimed(c, es, Grouped(c, es), x)
  }

  /** What a card takes over from its head. */
  predicate HeadedBy(v: CardView, e: Event) {
    v.id == e.id && v.header.rel == e.rel && v.header.device == e.device && v.header.ts == e.ts && v.media == e.media
  }

  lemma {:induction false} CardAt(c: Codes, es: seq<Event>, v: CardView) returns (k: nat)
    requires v in Grouped(c, es)
    ensures k < |AllGroups(c, es)| && v == TimelineCard(c, es, k)
    ensures v.header == HeaderOf(c, AllGroups(c, es)[k]) && HeadedBy(v, HeadOf(c, AllGroups(c, es)[k]))
  {
    k := CardAmong(c, es, v);
    CardTakesHead(c, es, k);
  }

  lemma {:induction false} CardTakesHead(c: Codes, es: seq<Event>, k: nat)
    requires k < |AllGroups(c, es)|
    ensures TimelineCard(c, es, k).header == HeaderOf(c, AllGroups(c, es)[k])
    ensures HeadedBy(TimelineCard(c, es, k), HeadOf(c, AllGroups(c, es)[k]))
  {
  }

  lemma {:induction false} OnTimeline(c: Codes, es: seq<Event>, k: nat)
    requires k < |AllGroups(c, es)|
    ensures TimelineCard(c, es, k) in Grouped(c, es)
    ensures TimelineCard(c, es, k).header == HeaderOf(c, AllGroups(c, es)[k])
  {
    var cards := FinishedCards(PlanOf(c, es), es, AllGroups(c, es));
    SortKeeps(cards, NewestFirst);
    assert cards[k] in cards;
  }

  lemma {:induction false} AnyToilet(own: seq<Event>)
    ensures HasToilet(own) <==> exists x :: x in own && x.kind == Toilet
  {
  }

  /** The card of an episode is headed by the first of its events with a head code, and
      without any by its last event; it is a visit's if one of them is a visit. */
  ghost predicate HeadsOwn(c: Codes, es: seq<Event>, h: Header, e: Event) {
    var own := EpisodeOf(c, es, h.rel);
    && HeadsEpisode(h) && e in own && Leads(es, own, c.anchor, e)
    && h.kind == if exists x :: x in own && x.kind == Toilet then Visit else OfKind(e.kind)
  }

  lemma {:induction false} MembersAre(c: Codes, es: seq<Event>, rel: string)
    requires rel != ""
    ensures forall x :: x in EpisodeOf(c, es, rel) <==> x in EpisodeMembers(c, es, rel)
  {
  }

  lemma {:induction false} EpisodeHead(c: Codes, es: seq<Event>, rel: string, g: Group)
    requires rel != "" && g == Group(EpisodeCard(rel), EpisodeMembers(c, es, rel))
    requires g.own != [] && InOrder(es, |es|, g.own)
    ensures HeadsOwn(c, es, HeaderOf(c, g), HeadOf(c, g))
  {
    MembersAre(c, es, rel);
    HeadLeads(c, es, g, EpisodeOf(c, es, rel));
    AnyToilet(g.own);
  }

  /** A cleaning's card is headed by the first completion among the steps nothing claims. */
  ghost predicate HeadsCleaning(c: Codes, es: seq<Event>, h: Header, e: Event) {
    && h.kind == OfKind(Cleaning) && e in UnclaimedOf(c, es, h.rel) && e.code in c.primaryDone
    && forall x :: x in UnclaimedOf(c, es, h.rel) && x.code in c.primaryDone ==> Sooner(es, e, x)
  }

  /** A link the rules follow is seen on the Timeline. */
  lemma {:induction false} LinkOnTimeline(c: Codes, es: seq<Event>, e: Event)
    requires e in es && LinkTarget(FirstOf(c, es), e).Some?
    ensures !NoneLinked(es, Grouped(c, es), e)
  {
    var rels := EpisodeRels(c, es);
    var rel := LinkTarget(FirstOf(c, es), e).value;
    IndexLeads(c, es, rel);
    var n := IndexOf(rels, |rels|)[rel];
    FirstPlaced(c, es, n);
    ParentNamed(c, es, e, rel);
    LinkSeen(c, es, e, n, rel);
    OnTimeline(c, es, n);
  }

  /** So is a visit a cleaning step follows. */
  lemma {:induction false} VisitOnTimeline(c: Codes, es: seq<Event>, e: Event)
    requires Closest(AfterVisit, FirstOf(c, es).slots, e).Some?
    ensures !NoneIn(AfterVisit, Grouped(c, es), e)
  {
    var gs := FirstGroups(c, es);
    var n := Nearest(AfterVisit, Headers(SlotsOf(c, gs)), e).value;
    FirstPlaced(c, es, n);
    WithinIsNear(AfterVisit, HeaderOf(c, gs[n]), e);
    OnTimeline(c, es, n);
  }

  lemma {:induction false} UnclaimedIsStep(c: Codes, es: seq<Event>, e: Event)
    requires e in es && e.kind == Cleaning && e.rel != ""
    ensures Unclaimed(c, es, Grouped(c, es), e) <==> OrphanStep(FirstOf(c, es), e)
  {
    if OrphanStep(FirstOf(c, es), e) {
      StepUnclaimed(c, es, e);
    } else if LinkTarget(FirstOf(c, es), e).Some? {
      LinkOnTimeline(c, es, e);
    } else {
      VisitOnTimeline(c, es, e);
    }
  }

  lemma {:induction false} StepsAre(c: Codes, es: seq<Event>, rel: string)
    ensures forall x :: x in UnclaimedOf(c, es, rel) <==> x in OrphanSteps(FirstOf(c, es), es, rel)
  {
    forall x | x in es && x.kind == Cleaning && x.rel == rel && rel != ""
      ensures Unclaimed(c, es, Grouped(c, es), x) <==> OrphanStep(FirstOf(c, es), x)
    {
      UnclaimedIsStep(c, es, x);
    }
  }

  lemma {:induction false} CompletionLeads(c: Codes, es: seq<Event>, g: Group, own: set<Event>)
    requires Completed(c, g.own) && g.key.OrphanCard? && InOrder(es, |es|, g.own)
    requires forall x :: x in own <==> x in g.own
    ensures g.own != [] && HeadOf(c, g) in own && HeadOf(c, g).code in c.primaryDone
    ensures forall x :: x in own && x.code in c.primaryDone ==> Sooner(es, HeadOf(c, g), x)
  {
    HeadLeads(c, es, g, own);
    var i :| 0 <= i < |g.own| && g.own[i].code in c.primaryDone;
    assert g.own[i] in own;
  }

  lemma {:induction false} CleaningHead(c: Codes, es: seq<Event>, rel: string, g: Group)
    requires g == Group(OrphanCard(rel), OrphanSteps(FirstOf(c, es), es, rel)) && Completed(c, g.own)
    requires InOrder(es, |es|, g.own)
    ensures g.own != [] && HeadsCleaning(c, es, HeaderOf(c, g), HeadOf(c, g))
  {
    StepsAre(c, es, rel);
    CompletionLeads(c, es, g, UnclaimedOf(c, es, rel));
    StepsHeader(c, FirstOf(c, es), es, rel, g);
  }

  /** A visit without an episode and a row of its own head themselves. */
  ghost predicate HeadsAlone(c: Codes, es: seq<Event>, v: CardView, e: Event) {
    || (v.header.kind == Visit && e.rel == "" && e.kind == Toilet)
    || (v.header.kind == Standalone && v.lines == [] && v.pet == e.pet && Unplaced(c, es, Grouped(c, es), e))
  }

  lemma {:induction false} RowAlone(c: Codes, es: seq<Event>, v: CardView)
    requires v in Grouped(c, es) && v.header.kind == Standalone
    ensures exists e :: e in es && HeadedBy(v, e) && HeadsAlone(c, es, v, e)
  {
    var e := RowBehind(c, es, v);
    RowUnplaced(c, es, e);
  }

  lemma {:induction false} LooseHead(c: Codes, es: seq<Event>, k: nat)
    requires k < |FirstGroups(c, es)| && !FirstGroups(c, es)[k].key.EpisodeCard?
    ensures var g := FirstGroups(c, es)[k]; var e := HeadOf(c, g);
      e in es && e.rel == "" && e.kind == Toilet && HeaderOf(c, g).kind == Visit
  {
    FirstHeader(c, es, k);
    FirstShape(c, es, k);
    OneOrdered(LooseVisits(c, es)[k - |EpisodeRels(c, es)|]);
  }

  ghost predicate Heads(c: Codes, es: seq<Event>, v: CardView, e: Event) {
    HeadsOwn(c, es, v.header, e) || HeadsCleaning(c, es, v.header, e) || HeadsAlone(c, es, v, e)
  }

  /** Every card is headed by a stored event whose id, place, time and media it shows: an
      episode's by its first head code or else its last event, a cleaning's by the first
      completion of its steps, any other by the one event it stands for. */
  lemma {:induction false} EveryHead(c: Codes, es: seq<Event>, v: CardView)
    requires DistinctIds(es) && v in Grouped(c, es)
    ensures exists e :: e in es && HeadedBy(v, e) && Heads(c, es, v, e)
  {
    var k := CardAt(c, es, v);
    KindPlaces(c, es, k);
    OwnInOrder(c, es, k);
    if k >= |CycleGroups(c, es)| {
      RowAlone(c, es, v);
    } else if k >= |FirstGroups(c, es)| {
      OrphanGroupAt(c, es, k);
      CleaningHead(c, es, CycleGroups(c, es)[k].key.rel, CycleGroups(c, es)[k]);
    } else if FirstGroups(c, es)[k].key.EpisodeCard? {
      FirstShape(c, es, k);
      EpisodeHead(c, es, FirstGroups(c, es)[k].key.rel, FirstGroups(c, es)[k]);
    } else {
      LooseHead(c, es, k);
    }
  }

  // ---- Which cards there are ------------------------------------------------------------------

  lemma {:induction false} EpisodePlaced(c: Codes, es: seq<Event>, e: Event) returns (v: CardView)
    requires e in es && e.rel != "" && MayHead(c, e)
    ensures v in Grouped(c, es) && HeadsEpisode(v.header) && v.header.rel == e.rel
  {
    var k := EpisodeAt(c, es, e);
    FirstHeader(c, es, k);
    FirstPlaced(c, es, k);
    OnTimeline(c, es, k);
    v := TimelineCard(c, es, k);
  }

  lemma {:induction false} EpisodeAt(c: Codes, es: seq<Event>, e: Event) returns (k: nat)
    requires e in es && e.rel != "" && MayHead(c, e)
    ensures k < |FirstGroups(c, es)| && FirstGroups(c, es)[k].key == EpisodeCard(e.rel)
  {
    MembersAre(c, es, e.rel);
    assert e in EpisodeMembers(c, es, e.rel);
    assert e.rel in EpisodeRels(c, es);
    k :| k < |EpisodeRels(c, es)| && EpisodeRels(c, es)[k] == e.rel;
  }

  lemma {:induction false} EpisodeHasHead(c: Codes, es: seq<Event>, v: CardView) returns (e: Event)
    requires DistinctIds(es) && v in Grouped(c, es) && HeadsEpisode(v.header)
    ensures e in EpisodeOf(c, es, v.header.rel)
  {
    EveryHead(c, es, v);
    e :| e in es && HeadedBy(v, e) && Heads(c, es, v, e);
    HeadIsOwn(c, es, v, e);
  }

  lemma {:induction false} HeadIsOwn(c: Codes, es: seq<Event>, v: CardView, e: Event)
    requires HeadsEpisode(v.header) && HeadedBy(v, e) && Heads(c, es, v, e)
    ensures e in EpisodeOf(c, es, v.header.rel)
  {
  }

  /** There is a card for an episode exactly when some event of it may head one. */
  lemma {:induction false} EpisodeCardsExactly(c: Codes, es: seq<Event>, rel: string)
    requires DistinctIds(es) && rel != ""
    ensures (exists v :: v in Grouped(c, es) && HeadsEpisode(v.header) && v.header.rel == rel)
       <==> (exists e :: e in es && e.rel == rel && MayHead(c, e))
  {
    if v :| v in Grouped(c, es) && HeadsEpisode(v.header) && v.header.rel == rel {
      var e := EpisodeHasHead(c, es, v);
    }
    if e :| e in es && e.rel == rel && MayHead(c, e) {
      var v := EpisodePlaced(c, es, e);
    }
  }

  /** There is a cleaning's card exactly when a step of it that nothing claims reports a completion. */
  lemma {:induction false} CleaningCardsExactly(c: Codes, es: seq<Event>, rel: string)
    requires DistinctIds(es)
    ensures (exists v :: v in Grouped(c, es) && v.header.kind == OfKind(Cleaning) && v.header.rel == rel)
       <==> (exists e :: e in UnclaimedOf(c, es, rel) && e.code in c.primaryDone)
  {
    if v :| v in Grouped(c, es) && v.header.kind == OfKind(Cleaning) && v.header.rel == rel {
      EveryHead(c, es, v);
    }
    if e :| e in UnclaimedOf(c, es, rel) && e.code in c.primaryDone {
      StepsAre(c, es, rel);
      CleaningPlaced(c, es, rel, e);
    }
  }

  lemma {:induction false} CleaningAt(c: Codes, f: First, es: seq<Event>, rel: string, e: Event) returns (k: nat)
    requires e in OrphanSteps(f, es, rel) && e.code in f.codes.primaryDone
    ensures var og := OrphanGroups(f, es, OrphanRels(f, es)); k < |og| && og[k].key == OrphanCard(rel)
  {
    var og, own := OrphanGroups(f, es, OrphanRels(f, es)), OrphanSteps(f, es, rel);
    OrphanGroupsMeaning(f, es);
    var i :| 0 <= i < |own| && own[i] == e;
    assert Completed(f.codes, own);
    assert rel in OrphanRels(f, es);
    k := IndexIn(og, Group(OrphanCard(rel), own));
  }

  lemma {:induction false} CleaningPlaced(c: Codes, es: seq<Event>, rel: string, e: Event)
    requires e in OrphanSteps(FirstOf(c, es), es, rel) && e.code in c.primaryDone
    ensures exists v :: v in Grouped(c, es) && v.header.kind == OfKind(Cleaning) && v.header.rel == rel
  {
    var k := CleaningGroupAt(c, es, rel, e);
    OrphanHeader(c, es, k);
    OnTimeline(c, es, k);
  }

  lemma {:induction false} CleaningGroupAt(c: Codes, es: seq<Event>, rel: string, e: Event) returns (k: nat)
    requires e in OrphanSteps(FirstOf(c, es), es, rel) && e.code in c.primaryDone
    ensures |FirstGroups(c, es)| <= k < |CycleGroups(c, es)| && k < |AllGroups(c, es)|
    ensures CycleGroups(c, es)[k].key == OrphanCard(rel) && AllGroups(c, es)[k] == CycleGroups(c, es)[k]
  {
    var f := FirstOf(c, es);
    var n := CleaningAt(c, f, es, rel, e);
    k := |FirstGroups(c, es)| + n;
    ElementBehind(FirstGroups(c, es), OrphanGroups(f, es, OrphanRels(f, es)), n);
    ElementAhead(CycleGroups(c, es), RowGroups(Rows(PlanOf(c, es), es)), k);
  }

  lemma {:induction false} ElementBehind<T>(xs: seq<T>, ys: seq<T>, n: nat)
    requires n < |ys|
    ensures |xs| + n < |xs + ys| && (xs + ys)[|xs| + n] == ys[n]
  {
  }

  lemma {:induction false} ElementAhead<T>(xs: seq<T>, ys: seq<T>, n: nat)
    requires n < |xs|
    ensures n < |xs + ys| && (xs + ys)[n] == xs[n]
  {
  }
}
