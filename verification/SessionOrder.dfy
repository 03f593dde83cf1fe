/** When the order in which the rows were stored cannot be seen in the result. */
module SessionOrder {
  import opened Common
  import opened Sorting
  import opened SessionSpec
  import opened SessionSteps
  import opened SessionPasses
  import opened SessionConservation

  /** The same rows, possibly in another order. */
  ghost predicate Same(es: seq<Event>, fs: seq<Event>) {
    multiset(es) == multiset(fs)
  }

  /** All events of one episode that name a parent name the same one. */
  ghost predicate OneParent(es: seq<Event>) {
    forall e, d :: e in es && d in es && e.rel == d.rel && NamesParent(e, e.rel) && NamesParent(d, d.rel) ==>
      e.parent == d.parent
  }

  /** No two different cards in the window are equally far from the event. */
  ghost predicate TieFree(w: Window, ss: seq<Slot>, e: Event) {
    forall i, j :: 0 <= i < |ss| && 0 <= j < |ss| && Near(w, ss[i].header, e) && Near(w, ss[j].header, e) ==>
      Gap(ss[i].header, e) == Gap(ss[j].header, e) ==> ss[i].key == ss[j].key
  }

  /** No cleaning tail is equally far from two cleaning cards. */
  ghost predicate NoTies(p: Plan, es: seq<Event>) {
    forall e :: e in es ==> TieFree(AroundCycle, p.slots, e)
  }

  // ---- Filters commute with reordering ----------------------------------------

  lemma {:induction false} EpisodeCount(c: Codes, es: seq<Event>, rel: string, x: Event)
    ensures multiset(EpisodeMembers(c, es, rel))[x] == if Eligible(c, x) && x.rel == rel then multiset(es)[x] else 0
    decreases |es|
  {
    if es != [] {
      EpisodeCount(c, es[..|es| - 1], rel, x);
      LastCount(es, x);
    }
  }

  lemma {:induction false} OrphanCount(f: First, es: seq<Event>, rel: string, x: Event)
    ensures multiset(OrphanSteps(f, es, rel))[x] == if OrphanStep(f, x) && x.rel == rel then multiset(es)[x] else 0
    decreases |es|
  {
    if es != [] {
      OrphanCount(f, es[..|es| - 1], rel, x);
      LastCount(es, x);
    }
  }

  lemma {:induction false} HavingAll(p: Plan, es: seq<Event>, home: Home, x: Event)
    ensures multiset(Having(p, es, home))[x] == if HomeOf(p, x) == home then multiset(es)[x] else 0
    decreases |es|
  {
    if es != [] {
      HavingAll(p, es[..|es| - 1], home, x);
      LastCount(es, x);
    }
  }

  lemma {:induction false} LastCount(es: seq<Event>, x: Event)
    requires es != []
    ensures multiset(es)[x] == multiset(es[..|es| - 1])[x] + if es[|es| - 1] == x then 1 else 0
  {
    BagSnoc(es, |es| - 1);
    assert es[..|es|] == es;
  }

  lemma {:induction false} EpisodeSame(c: Codes, es: seq<Event>, fs: seq<Event>, rel: string)
    requires Same(es, fs)
    ensures Same(EpisodeMembers(c, es, rel), EpisodeMembers(c, fs, rel))
  {
    forall x ensures multiset(EpisodeMembers(c, es, rel))[x] == multiset(EpisodeMembers(c, fs, rel))[x] {
      EpisodeCount(c, es, rel, x);
      EpisodeCount(c, fs, rel, x);
    }
  }

  // ---- A group and its card do not depend on the order of the group -------------

  lemma {:induction false} Subset(es: seq<Event>, own: seq<Event>)
    requires KeyIdentifies(es, EventKey) && forall e :: e in own ==> e in es
    ensures KeyIdentifies(own, EventKey)
  {
  }

  lemma {:induction false} GroupSame(c: Codes, g: Group, h: Group)
    requires g.key == h.key && Same(g.own, h.own) && g.own != [] && KeyIdentifies(g.own, EventKey)
    ensures h.own != [] && HeadOf(c, g) == HeadOf(c, h) && Rest(c, g) == Rest(c, h) && HeaderOf(c, g) == HeaderOf(c, h)
    ensures HeadOf(c, g) in g.own
  {
    SameMembers(g.own, h.own);
    SortIgnoresOrder(g.own, h.own, EventKey);
    SortKeeps(g.own, EventKey);
    var o := Ordered(g.own);
    assert o[HeadAt(c, g.key, o)] in o;
    assert HasToilet(g.own) <==> exists e :: e in g.own && e.kind == Toilet;
    assert HasToilet(h.own) <==> exists e :: e in h.own && e.kind == Toilet;
  }

  // ---- What the first rules consult ---------------------------------------------

  lemma {:induction false} RelsSame(c: Codes, es: seq<Event>, fs: seq<Event>, rel: string)
    requires Same(es, fs)
    ensures rel in EpisodeRels(c, es) <==> rel in EpisodeRels(c, fs)
  {
    EpisodeSame(c, es, fs, rel);
    SameMembers(EpisodeMembers(c, es, rel), EpisodeMembers(c, fs, rel));
  }

  lemma {:induction false} EpisodeGroupSame(c: Codes, es: seq<Event>, fs: seq<Event>, rel: string)
    requires Same(es, fs) && KeyIdentifies(es, EventKey) && rel in EpisodeRels(c, es)
    ensures var g, h := Group(EpisodeCard(rel), EpisodeMembers(c, es, rel)), Group(EpisodeCard(rel), EpisodeMembers(c, fs, rel));
      && g.own != [] && h.own != [] && Same(g.own, h.own)
      && HeadOf(c, g) == HeadOf(c, h) && Rest(c, g) == Rest(c, h) && HeaderOf(c, g) == HeaderOf(c, h)
  {
    EpisodeSame(c, es, fs, rel);
    Subset(es, EpisodeMembers(c, es, rel));
    GroupSame(c, Group(EpisodeCard(rel), EpisodeMembers(c, es, rel)), Group(EpisodeCard(rel), EpisodeMembers(c, fs, rel)));
  }

  lemma {:induction false} HeadCarried(c: Codes, es: seq<Event>, fs: seq<Event>, rel: string)
    requires Same(es, fs) && KeyIdentifies(es, EventKey) && rel in HeadsOf(c, es)
    ensures rel in HeadsOf(c, fs) && HeadsOf(c, es)[rel] == HeadsOf(c, fs)[rel]
  {
    RelsSame(c, es, fs, rel);
    EpisodeGroupSame(c, es, fs, rel);
  }

  lemma {:induction false} MapsSame<K, V>(m: map<K, V>, n: map<K, V>)
    requires forall k :: k in m ==> k in n && m[k] == n[k]
    requires forall k :: k in n ==> k in m
    ensures m == n
  {
  }

  lemma {:induction false} HeadsSame(c: Codes, es: seq<Event>, fs: seq<Event>)
    requires Same(es, fs) && KeyIdentifies(es, EventKey)
    ensures HeadsOf(c, es) == HeadsOf(c, fs)
  {
    var m, n := HeadsOf(c, es), HeadsOf(c, fs);
    KeysCarryOver(es, fs, EventKey);
    forall rel | rel in m ensures rel in n && m[rel] == n[rel] {
      HeadCarried(c, es, fs, rel);
    }
    forall rel | rel in n ensures rel in m {
      HeadCarried(c, fs, es, rel);
    }
    MapsSame(m, n);
  }

  lemma {:induction false} NamedSame(es: seq<Event>, fs: seq<Event>, rel: string)
    requires Same(es, fs) && OneParent(es)
    ensures NamedParent(es, rel) == NamedParent(fs, rel)
  {
    SameMembers(es, fs);
  }

  lemma {:induction false} ParentsSame(es: seq<Event>, fs: seq<Event>)
    requires Same(es, fs) && OneParent(es)
    ensures ParentsOf(es) == ParentsOf(fs)
  {
    SameMembers(es, fs);
    forall rel ensures NamedParent(es, rel) == NamedParent(fs, rel) {
      NamedSame(es, fs, rel);
    }
  }

  /** The same cards, each seen the same way, possibly in another order. */
  ghost predicate SameSlots(ss: seq<Slot>, ts: seq<Slot>) {
    forall s :: s in ss <==> s in ts
  }

  /** When no two different cards are equally close, the order of the cards does not matter. */
  lemma {:induction false} ClosestSame(w: Window, ss: seq<Slot>, ts: seq<Slot>, e: Event)
    requires SameSlots(ss, ts)
    requires TieFree(w, ss, e)
    ensures Closest(w, ss, e) == Closest(w, ts, e)
  {
    var a, b := Nearest(w, Headers(ss), e), Nearest(w, Headers(ts), e);
    if a.Some? {
      assert ss[a.value] in ts;
      var j :| 0 <= j < |ts| && ts[j] == ss[a.value];
      assert Headers(ts)[j] == ss[a.value].header;
    }
    if b.Some? {
      assert ts[b.value] in ss;
      var i :| 0 <= i < |ss| && ss[i] == ts[b.value];
      assert Headers(ss)[i] == ts[b.value].header;
    }
  }

  // ---- The cards before any cleaning has one --------------------------------------

  lemma {:induction false} OneAlone(c: Codes, key: Key, a: Event)
    ensures HeadOf(c, Group(key, [a])) == a && Rest(c, Group(key, [a])) == []
  {
    OneOrdered(a);
  }

  /** The head of a first card is one of its events, and names the card. */
  lemma {:induction false} FirstHead(c: Codes, es: seq<Event>, k: nat)
    requires k < |FirstGroups(c, es)|
    ensures var g := FirstGroups(c, es)[k]; HeadOf(c, g) in es && AnchorKey(HeadOf(c, g)) == g.key
  {
    var rels, ls := EpisodeRels(c, es), LooseVisits(c, es);
    var g := FirstGroups(c, es)[k];
    if k < |rels| {
      assert g == EpisodeGroups(c, es)[k] && rels[k] in rels;
      SortKeeps(g.own, EventKey);
      assert HeadOf(c, g) in Ordered(g.own);
    } else {
      assert g == LooseGroups(ls)[k - |rels|];
      assert ls[k - |rels|] in ls;
      OneAlone(c, g.key, ls[k - |rels|]);
    }
  }

  lemma {:induction false} EpisodeSlotWithin(c: Codes, es: seq<Event>, fs: seq<Event>, k: nat)
    requires Same(es, fs) && KeyIdentifies(es, EventKey) && k < |EpisodeRels(c, es)|
    ensures SlotsOf(c, FirstGroups(c, es))[k] in SlotsOf(c, FirstGroups(c, fs))
  {
    var rels, rfs := EpisodeRels(c, es), EpisodeRels(c, fs);
    assert FirstGroups(c, es)[k] == EpisodeGroups(c, es)[k] && rels[k] in rels;
    RelsSame(c, es, fs, rels[k]);
    EpisodeGroupSame(c, es, fs, rels[k]);
    var j :| 0 <= j < |rfs| && rfs[j] == rels[k];
    assert FirstGroups(c, fs)[j] == EpisodeGroups(c, fs)[j];
    assert SlotsOf(c, FirstGroups(c, fs))[j] == SlotsOf(c, FirstGroups(c, es))[k];
  }

  lemma {:induction false} LooseGroupAt(c: Codes, es: seq<Event>, k: nat)
    requires k < |LooseVisits(c, es)|
    ensures |EpisodeRels(c, es)| + k < |FirstGroups(c, es)|
    ensures FirstGroups(c, es)[|EpisodeRels(c, es)| + k] == Group(LooseCard(LooseVisits(c, es)[k]), [LooseVisits(c, es)[k]])
  {
    assert FirstGroups(c, es)[|EpisodeRels(c, es)| + k] == LooseGroups(LooseVisits(c, es))[k];
  }

  lemma {:induction false} LooseSlotWithin(c: Codes, es: seq<Event>, fs: seq<Event>, k: nat)
    requires Same(es, fs) && k < |LooseVisits(c, es)| && |EpisodeRels(c, es)| + k < |FirstGroups(c, es)|
    ensures SlotsOf(c, FirstGroups(c, es))[|EpisodeRels(c, es)| + k] in SlotsOf(c, FirstGroups(c, fs))
  {
    var v, lfs := LooseVisits(c, es)[k], LooseVisits(c, fs);
    SameMembers(es, fs);
    LooseGroupAt(c, es, k);
    assert v in LooseVisits(c, es) && v in lfs;
    var j :| 0 <= j < |lfs| && lfs[j] == v;
    LooseGroupAt(c, fs, j);
    assert SlotsOf(c, FirstGroups(c, fs))[|EpisodeRels(c, fs)| + j] == SlotsOf(c, FirstGroups(c, es))[|EpisodeRels(c, es)| + k];
  }

  lemma {:induction false} FirstSlotsWithin(c: Codes, es: seq<Event>, fs: seq<Event>, k: nat)
    requires Same(es, fs) && KeyIdentifies(es, EventKey) && k < |FirstGroups(c, es)|
    ensures SlotsOf(c, FirstGroups(c, es))[k] in SlotsOf(c, FirstGroups(c, fs))
  {
    if k < |EpisodeRels(c, es)| {
      EpisodeSlotWithin(c, es, fs, k);
    } else {
      LooseSlotWithin(c, es, fs, k - |EpisodeRels(c, es)|);
    }
  }

  lemma {:induction false} FirstSlotsSame(c: Codes, es: seq<Event>, fs: seq<Event>)
    requires Same(es, fs) && KeyIdentifies(es, EventKey)
    ensures SameSlots(SlotsOf(c, FirstGroups(c, es)), SlotsOf(c, FirstGroups(c, fs)))
  {
    KeysCarryOver(es, fs, EventKey);
    forall k | 0 <= k < |FirstGroups(c, es)| ensures SlotsOf(c, FirstGroups(c, es))[k] in SlotsOf(c, FirstGroups(c, fs)) {
      FirstSlotsWithin(c, es, fs, k);
    }
    forall k | 0 <= k < |FirstGroups(c, fs)| ensures SlotsOf(c, FirstGroups(c, fs))[k] in SlotsOf(c, FirstGroups(c, es)) {
      FirstSlotsWithin(c, fs, es, k);
    }
  }

  /** Distinct timestamps leave one closest visit. */
  lemma {:induction false} VisitsTieFree(c: Codes, es: seq<Event>, e: Event)
    requires KeyIdentifies(es, EventKey)
    ensures TieFree(AfterVisit, SlotsOf(c, FirstGroups(c, es)), e)
  {
    var gs, ss := FirstGroups(c, es), SlotsOf(c, FirstGroups(c, es));
    forall i, j | 0 <= i < |ss| && 0 <= j < |ss| && Near(AfterVisit, ss[i].header, e) && Near(AfterVisit, ss[j].header, e)
      && Gap(ss[i].header, e) == Gap(ss[j].header, e)
      ensures ss[i].key == ss[j].key
    {
      FirstHead(c, es, i);
      FirstHead(c, es, j);
      assert EventKey(HeadOf(c, gs[i])) == EventKey(HeadOf(c, gs[j]));
    }
  }

  /** Two plans' first parts that decide every event alike. */
  ghost predicate SameFirst(f: First, g: First) {
    && f.codes == g.codes && f.parents == g.parents && f.heads == g.heads
    && forall e :: Closest(AfterVisit, f.slots, e) == Closest(AfterVisit, g.slots, e)
  }

  lemma {:induction false} FirstSame(c: Codes, es: seq<Event>, fs: seq<Event>)
    requires Same(es, fs) && KeyIdentifies(es, EventKey) && OneParent(es)
    ensures SameFirst(FirstOf(c, es), FirstOf(c, fs))
  {
    HeadsSame(c, es, fs);
    ParentsSame(es, fs);
    FirstSlotsSame(c, es, fs);
    forall e ensures Closest(AfterVisit, FirstOf(c, es).slots, e) == Closest(AfterVisit, FirstOf(c, fs).slots, e) {
      VisitsTieFree(c, es, e);
      ClosestSame(AfterVisit, FirstOf(c, es).slots, FirstOf(c, fs).slots, e);
    }
  }

  // ---- The cleaning cards ------------------------------------------------------------

  lemma {:induction false} StepSame(f: First, g: First, e: Event)
    requires SameFirst(f, g)
    ensures LinkTarget(f, e) == LinkTarget(g, e) && (OrphanStep(f, e) <==> OrphanStep(g, e))
  {
  }

  lemma {:induction false} StepsSame(f: First, g: First, es: seq<Event>, fs: seq<Event>, rel: string)
    requires SameFirst(f, g) && Same(es, fs)
    ensures Same(OrphanSteps(f, es, rel), OrphanSteps(g, fs, rel))
    ensures Completed(f.codes, OrphanSteps(f, es, rel)) <==> Completed(g.codes, OrphanSteps(g, fs, rel))
  {
    var a, b := OrphanSteps(f, es, rel), OrphanSteps(g, fs, rel);
    forall x ensures multiset(a)[x] == multiset(b)[x] {
      OrphanCount(f, es, rel, x);
      OrphanCount(g, fs, rel, x);
      StepSame(f, g, x);
    }
    SameMembers(a, b);
    assert Completed(f.codes, a) <==> exists e :: e in a && e.code in f.codes.primaryDone;
    assert Completed(f.codes, b) <==> exists e :: e in b && e.code in f.codes.primaryDone;
  }

  lemma {:induction false} OrphanRelsSame(f: First, g: First, es: seq<Event>, fs: seq<Event>, rel: string)
    requires SameFirst(f, g) && Same(es, fs)
    ensures rel in OrphanRels(f, es) <==> rel in OrphanRels(g, fs)
  {
    SameMembers(es, fs);
    forall e ensures OrphanStep(f, e) <==> OrphanStep(g, e) {
      StepSame(f, g, e);
    }
  }

  lemma {:induction false} OrphanSlotsWithin(f: First, g: First, es: seq<Event>, fs: seq<Event>, k: nat)
    requires SameFirst(f, g) && Same(es, fs) && KeyIdentifies(es, EventKey)
    requires k < |OrphanGroups(f, es, OrphanRels(f, es))|
    ensures SlotsOf(f.codes, OrphanGroups(f, es, OrphanRels(f, es)))[k] in SlotsOf(g.codes, OrphanGroups(g, fs, OrphanRels(g, fs)))
  {
    var a, b := OrphanGroups(f, es, OrphanRels(f, es)), OrphanGroups(g, fs, OrphanRels(g, fs));
    OrphanGroupsMeaning(f, es);
    OrphanGroupsMeaning(g, fs);
    assert a[k] in a;
    var rel := a[k].key.rel;
    var other := Group(OrphanCard(rel), OrphanSteps(g, fs, rel));
    OrphanRelsSame(f, g, es, fs, rel);
    StepsSame(f, g, es, fs, rel);
    assert other in b;
    var j :| 0 <= j < |b| && b[j] == other;
    Subset(es, a[k].own);
    GroupSame(f.codes, a[k], other);
    assert SlotsOf(g.codes, b)[j] == SlotsOf(f.codes, a)[k];
  }

  lemma {:induction false} SameAcross(a1: seq<Slot>, b1: seq<Slot>, a2: seq<Slot>, b2: seq<Slot>)
    requires SameSlots(a1, b1) && SameSlots(a2, b2)
    ensures SameSlots(a1 + a2, b1 + b2)
  {
  }

  lemma {:induction false} SlotsJoin(c: Codes, a: seq<Group>, b: seq<Group>)
    requires AllOwn(a) && AllOwn(b) && AllOwn(a + b)
    ensures SlotsOf(c, a + b) == SlotsOf(c, a) + SlotsOf(c, b)
  {
  }

  lemma {:induction false} SymmetricFirst(f: First, g: First)
    requires SameFirst(f, g)
    ensures SameFirst(g, f)
  {
  }

  lemma {:induction false} OrphanSlotsSame(f: First, g: First, es: seq<Event>, fs: seq<Event>)
    requires SameFirst(f, g) && Same(es, fs) && KeyIdentifies(es, EventKey)
    ensures SameSlots(SlotsOf(f.codes, OrphanGroups(f, es, OrphanRels(f, es))), SlotsOf(g.codes, OrphanGroups(g, fs, OrphanRels(g, fs))))
  {
    var a, b := OrphanGroups(f, es, OrphanRels(f, es)), OrphanGroups(g, fs, OrphanRels(g, fs));
    KeysCarryOver(es, fs, EventKey);
    SymmetricFirst(f, g);
    forall k | 0 <= k < |a| ensures SlotsOf(f.codes, a)[k] in SlotsOf(g.codes, b) {
      OrphanSlotsWithin(f, g, es, fs, k);
    }
    forall k | 0 <= k < |b| ensures SlotsOf(g.codes, b)[k] in SlotsOf(f.codes, a) {
      OrphanSlotsWithin(g, f, fs, es, k);
    }
  }

  lemma {:induction false} CycleSlotsSame(c: Codes, es: seq<Event>, fs: seq<Event>)
    requires Same(es, fs) && KeyIdentifies(es, EventKey) && OneParent(es)
    ensures SameSlots(PlanOf(c, es).slots, PlanOf(c, fs).slots)
  {
    var f, g := FirstOf(c, es), FirstOf(c, fs);
    FirstSame(c, es, fs);
    FirstSlotsSame(c, es, fs);
    OrphanSlotsSame(f, g, es, fs);
    SlotsJoin(c, FirstGroups(c, es), OrphanGroups(f, es, OrphanRels(f, es)));
    SlotsJoin(c, FirstGroups(c, fs), OrphanGroups(g, fs, OrphanRels(g, fs)));
    SameAcross(SlotsOf(c, FirstGroups(c, es)), SlotsOf(c, FirstGroups(c, fs)),
               SlotsOf(c, OrphanGroups(f, es, OrphanRels(f, es))), SlotsOf(c, OrphanGroups(g, fs, OrphanRels(g, fs))));
  }

  lemma {:induction false} CompletedSame(c: Codes, es: seq<Event>, fs: seq<Event>)
    requires Same(es, fs) && SameFirst(FirstOf(c, es), FirstOf(c, fs))
    ensures PlanOf(c, es).completed == PlanOf(c, fs).completed
  {
    var f, g := FirstOf(c, es), FirstOf(c, fs);
    forall rel
      ensures rel in OrphanRels(f, es) && Completed(c, OrphanSteps(f, es, rel))
         <==> rel in OrphanRels(g, fs) && Completed(c, OrphanSteps(g, fs, rel))
    {
      OrphanRelsSame(f, g, es, fs, rel);
      StepsSame(f, g, es, fs, rel);
    }
  }

  /** With distinct timestamps, one parent per episode and no tail between two
      cards, every event finds the same home in any order of the rows. */
  lemma {:induction false} HomeSame(c: Codes, es: seq<Event>, fs: seq<Event>, e: Event)
    requires Same(es, fs) && KeyIdentifies(es, EventKey) && OneParent(es) && NoTies(PlanOf(c, es), es)
    requires e in es
    ensures HomeOf(PlanOf(c, es), e) == HomeOf(PlanOf(c, fs), e)
  {
    var p, q := PlanOf(c, es), PlanOf(c, fs);
    FirstSame(c, es, fs);
    CompletedSame(c, es, fs);
    CycleSlotsSame(c, es, fs);
    ClosestSame(AroundCycle, p.slots, q.slots, e);
    DecideSame(p, q, e);
  }

  lemma {:induction false} DecideSame(p: Plan, q: Plan, e: Event)
    requires SameFirst(p.first, q.first) && p.completed == q.completed
    requires Closest(AroundCycle, p.slots, e) == Closest(AroundCycle, q.slots, e)
    ensures HomeOf(p, e) == HomeOf(q, e)
  {
    StepSame(p.first, q.first, e);
  }

  // ---- The Timeline ----------------------------------------------------------------------

  /** What a reader of the Timeline sees of a card, but for pet and media: its
      kind, episode, device and time, its head, and its lines in order. */
  datatype Outline = Outline(header: Header, id: int, lines: seq<int>)

  function OutlineOf(v: CardView): Outline { Outline(v.header, v.id, Map(LineId, v.lines)) }

  function OutlineKey(o: Outline): real { -TsOr0(o.header.ts) }

  ghost predicate SameHomes(p: Plan, q: Plan, es: seq<Event>) {
    forall e :: e in es ==> HomeOf(p, e) == HomeOf(q, e)
  }

  lemma {:induction false} HavingSame(p: Plan, q: Plan, es: seq<Event>, fs: seq<Event>, home: Home)
    requires Same(es, fs) && SameHomes(p, q, es)
    ensures Same(Having(p, es, home), Having(q, fs, home))
  {
    forall x ensures multiset(Having(p, es, home))[x] == multiset(Having(q, fs, home))[x] {
      HavingAll(p, es, home, x);
      HavingAll(q, fs, home, x);
      if x !in es {
        assert multiset(es)[x] == 0;
      }
    }
  }

  lemma {:induction false} HungSame(p: Plan, q: Plan, es: seq<Event>, fs: seq<Event>, key: Key)
    requires Same(es, fs) && SameHomes(p, q, es)
    ensures Same(Hung(p, key, es, es, es), Hung(q, key, fs, fs, fs))
    ensures forall e :: e in Hung(p, key, es, es, es) ==> e in es
  {
    HavingSame(p, q, es, fs, Home(key, Linked));
    HavingSame(p, q, es, fs, Home(key, Nearby));
    HavingSame(p, q, es, fs, Home(key, Tail));
  }

  lemma {:induction false} LinesSame(c: Codes, es: seq<Event>, evs: seq<Event>, others: seq<Event>)
    requires KeyIdentifies(es, EventKey) && Same(evs, others) && forall e :: e in evs ==> e in es
    ensures SortBy(LinesOf(c, evs), LineKey) == SortBy(LinesOf(c, others), LineKey)
  {
    var f := (e: Event) => LineOf(c, e);
    assert LinesOf(c, evs) == Map(f, evs) && LinesOf(c, others) == Map(f, others);
    MapPermutation(f, evs, others);
    forall x, y | x in LinesOf(c, evs) && y in LinesOf(c, evs) && LineKey(x) == LineKey(y) ensures x == y {
      var i :| 0 <= i < |evs| && x == LineOf(c, evs[i]);
      var j :| 0 <= j < |evs| && y == LineOf(c, evs[j]);
      assert EventKey(evs[i]) == EventKey(evs[j]);
    }
    SortIgnoresOrder(LinesOf(c, evs), LinesOf(c, others), LineKey);
  }

  lemma {:induction false} FinishedOutline(c: Codes, es: seq<Event>, kind: CardKind, head: Event, evs: seq<Event>)
    ensures OutlineOf(Finish(c, es, Build(c, kind, head, evs)))
         == Outline(Header(kind, head.rel, head.device, head.ts), head.id, Map(LineId, SortBy(LinesOf(c, evs), LineKey)))
  {
  }

  lemma {:induction false} CardSame(c: Codes, p: Plan, q: Plan, es: seq<Event>, fs: seq<Event>, g: Group, h: Group)
    requires p.first.codes == c == q.first.codes && Same(es, fs) && SameHomes(p, q, es) && KeyIdentifies(es, EventKey)
    requires g.key == h.key && Same(g.own, h.own) && g.own != [] && h.own != [] && forall e :: e in g.own ==> e in es
    ensures OutlineOf(Finish(c, es, CardOf(p, es, g))) == OutlineOf(Finish(c, fs, CardOf(q, fs, h)))
  {
    Subset(es, g.own);
    GroupSame(c, g, h);
    HungSame(p, q, es, fs, g.key);
    var a, b := Hung(p, g.key, es, es, es), Hung(q, g.key, fs, fs, fs);
    var head, rest := HeadOf(c, g), Rest(c, g);
    HeadAndRest(c, g);
    RestWithin(g.own, head, rest);
    BagConcat(rest, a);
    BagConcat(rest, b);
    LinesSame(c, es, rest + a, rest + b);
    FinishedOutline(c, es, KindFor(g, head), head, rest + a);
    FinishedOutline(c, fs, KindFor(h, head), head, rest + b);
  }

  lemma {:induction false} RestWithin(own: seq<Event>, head: Event, rest: seq<Event>)
    requires multiset(own) == multiset{head} + multiset(rest)
    ensures forall e :: e in rest ==> e in own
  {
    forall e | e in rest ensures e in own {
      assert e in multiset(rest);
      assert e in multiset(own);
    }
  }

  function KeysOf(gs: seq<Group>): (r: seq<Key>)
    ensures |r| == |gs| && forall i :: 0 <= i < |r| ==> r[i] == gs[i].key
  {
    seq(|gs|, i requires 0 <= i < |gs| => gs[i].key)
  }

  /** Whatever card one order makes, the other makes too. */
  lemma {:induction false} KeyCarried(c: Codes, es: seq<Event>, fs: seq<Event>, k: nat)
    requires DistinctIds(es) && Same(es, fs) && SameHomes(PlanOf(c, es), PlanOf(c, fs), es)
    requires k < |AllGroups(c, es)|
    ensures AllGroups(c, es)[k].key in KeysOf(AllGroups(c, fs))
  {
    var p, gs, hs := PlanOf(c, es), AllGroups(c, es), AllGroups(c, fs);
    AllOwnHoused(c, es, p);
    var e := gs[k].own[0];
    assert e in Having(p, es, Home(gs[k].key, Member));
    SameMembers(es, fs);
    EveryHome(c, fs, e);
    var m :| 0 <= m < |hs| && hs[m].key == gs[k].key;
    assert KeysOf(hs)[m] == gs[k].key;
  }

  lemma {:induction false} TwiceCounted(fs: seq<Event>, i: nat, j: nat)
    requires i < j < |fs| && fs[i].id == fs[j].id
    ensures multiset(Map(EventId, fs))[fs[i].id] >= 2
  {
    var ids := Map(EventId, fs);
    RemoveAt(ids, i);
    assert Without(ids, i)[j - 1] == fs[i].id;
    assert fs[i].id in multiset(Without(ids, i));
  }

  lemma {:induction false} SameDistinct(es: seq<Event>, fs: seq<Event>)
    requires DistinctIds(es) && Same(es, fs)
    ensures DistinctIds(fs)
  {
    MapPermutation(EventId, es, fs);
    forall i, j | 0 <= i < j < |fs| ensures fs[i].id != fs[j].id {
      OnceEach(es, fs[i].id);
      if fs[i].id == fs[j].id {
        TwiceCounted(fs, i, j);
      }
    }
  }

  lemma {:induction false} SameKeys(c: Codes, es: seq<Event>, fs: seq<Event>)
    requires DistinctIds(es) && DistinctIds(fs) && Same(es, fs)
    requires SameHomes(PlanOf(c, es), PlanOf(c, fs), es) && SameHomes(PlanOf(c, fs), PlanOf(c, es), fs)
    ensures forall k :: k in KeysOf(AllGroups(c, es)) <==> k in KeysOf(AllGroups(c, fs))
  {
    var gs, hs := AllGroups(c, es), AllGroups(c, fs);
    forall i | 0 <= i < |gs| ensures KeysOf(gs)[i] in KeysOf(hs) {
      KeyCarried(c, es, fs, i);
    }
    forall i | 0 <= i < |hs| ensures KeysOf(hs)[i] in KeysOf(gs) {
      KeyCarried(c, fs, es, i);
    }
  }

  /** Cards of one key look alike through `f`. */
  ghost predicate Alike<T>(f: CardView -> T, p: Plan, q: Plan, es: seq<Event>, fs: seq<Event>, gs: seq<Group>, hs: seq<Group>)
    requires AllOwn(gs) && AllOwn(hs)
  {
    forall i, j :: 0 <= i < |gs| && 0 <= j < |hs| && gs[i].key == hs[j].key ==>
      f(FinishedCards(p, es, gs)[i]) == f(FinishedCards(q, fs, hs)[j])
  }

  /** Same cards: the same views of them, counted. */
  lemma {:induction false} ViewsSame<T>(f: CardView -> T, p: Plan, q: Plan, es: seq<Event>, fs: seq<Event>,
                                        gs: seq<Group>, hs: seq<Group>)
    requires AllOwn(gs) && DistinctKeys(gs) && AllOwn(hs) && DistinctKeys(hs)
    requires forall k :: k in KeysOf(gs) <==> k in KeysOf(hs)
    requires Alike(f, p, q, es, fs, gs, hs)
    ensures multiset(Map(f, FinishedCards(p, es, gs))) == multiset(Map(f, FinishedCards(q, fs, hs)))
  {
    MatchByKey(KeysOf(gs), Map(f, FinishedCards(p, es, gs)), KeysOf(hs), Map(f, FinishedCards(q, fs, hs)));
  }

  /** A card's head is a stored row that no other card shows. */
  lemma {:induction false} HeadHome(c: Codes, es: seq<Event>, p: Plan, g: Group)
    requires g.own != [] && g.own == Having(p, es, Home(g.key, Member))
    ensures HeadOf(c, g) in es && HomeOf(p, HeadOf(c, g)).key == g.key
  {
    SortKeeps(g.own, EventKey);
    assert HeadOf(c, g) in Ordered(g.own);
  }

  lemma {:induction false} HeadsDiffer(c: Codes, es: seq<Event>, p: Plan, g: Group, h: Group)
    requires KeyIdentifies(es, EventKey)
    requires g.own != [] && g.own == Having(p, es, Home(g.key, Member))
    requires h.own != [] && h.own == Having(p, es, Home(h.key, Member))
    requires TsOr0(HeadOf(c, g).ts) == TsOr0(HeadOf(c, h).ts)
    ensures g.key == h.key
  {
    HeadHome(c, es, p, g);
    HeadHome(c, es, p, h);
    assert EventKey(HeadOf(c, g)) == EventKey(HeadOf(c, h));
  }

  lemma {:induction false} CardAt(c: Codes, es: seq<Event>, p: Plan, gs: seq<Group>, i: nat)
    requires p.first.codes == c && AllOwn(gs) && i < |gs|
    ensures i < |FinishedCards(p, es, gs)|
    ensures NewestFirst(FinishedCards(p, es, gs)[i]) == -TsOr0(HeadOf(c, gs[i]).ts)
    ensures FinishedCards(p, es, gs)[i].header == HeaderOf(c, gs[i])
  {
  }

  /** The view of a card tells where the Timeline puts it. */
  ghost predicate Dated<T>(f: CardView -> T, key: T -> real) {
    forall v :: key(f(v)) == NewestFirst(v)
  }

  lemma {:induction false} CardsDistinct<T>(f: CardView -> T, key: T -> real, c: Codes, es: seq<Event>, p: Plan, gs: seq<Group>)
    requires p.first.codes == c && AllOwn(gs) && DistinctKeys(gs) && OwnHoused(p, es, gs) && KeyIdentifies(es, EventKey)
    requires Dated(f, key)
    ensures KeyIdentifies(Map(f, FinishedCards(p, es, gs)), key)
  {
    var cards := FinishedCards(p, es, gs);
    forall i, j | 0 <= i < |cards| && 0 <= j < |cards| && NewestFirst(cards[i]) == NewestFirst(cards[j]) ensures i == j {
      CardsApart(c, es, p, gs, i, j);
    }
    ViewsDistinct(f, key, cards);
  }

  lemma {:induction false} CardsApart(c: Codes, es: seq<Event>, p: Plan, gs: seq<Group>, i: nat, j: nat)
    requires p.first.codes == c && AllOwn(gs) && DistinctKeys(gs) && OwnHoused(p, es, gs) && KeyIdentifies(es, EventKey)
    requires i < |gs| && j < |gs| && NewestFirst(FinishedCards(p, es, gs)[i]) == NewestFirst(FinishedCards(p, es, gs)[j])
    ensures i == j
  {
    CardAt(c, es, p, gs, i);
    CardAt(c, es, p, gs, j);
    HeadsDiffer(c, es, p, gs[i], gs[j]);
  }

  lemma {:induction false} ViewsDistinct<T>(f: CardView -> T, key: T -> real, cards: seq<CardView>)
    requires Dated(f, key)
    requires forall i, j :: 0 <= i < |cards| && 0 <= j < |cards| && NewestFirst(cards[i]) == NewestFirst(cards[j]) ==> i == j
    ensures KeyIdentifies(Map(f, cards), key)
  {
    var a := Map(f, cards);
    forall i, j | 0 <= i < |a| && 0 <= j < |a| && key(a[i]) == key(a[j]) ensures i == j {
      assert NewestFirst(cards[i]) == key(f(cards[i])) && NewestFirst(cards[j]) == key(f(cards[j]));
    }
  }

  lemma {:induction false} SortedViews<T>(f: CardView -> T, key: T -> real, cards: seq<CardView>)
    requires Dated(f, key)
    ensures Sorted(Map(f, SortBy(cards, NewestFirst)), key)
    ensures multiset(Map(f, SortBy(cards, NewestFirst))) == multiset(Map(f, cards))
  {
    var sorted := SortBy(cards, NewestFirst);
    SortCorrect(cards, NewestFirst);
    MapPermutation(f, sorted, cards);
    forall i, j | 0 <= i < j < |sorted| ensures key(Map(f, sorted)[i]) <= key(Map(f, sorted)[j]) {
      assert key(f(sorted[i])) == NewestFirst(sorted[i]) && key(f(sorted[j])) == NewestFirst(sorted[j]);
    }
  }

  /** Every event has the same home in either order. */
  ghost predicate HomesAgree(c: Codes, es: seq<Event>, fs: seq<Event>) {
    SameHomes(PlanOf(c, es), PlanOf(c, fs), es) && SameHomes(PlanOf(c, fs), PlanOf(c, es), fs)
  }

  /** Two orders whose cards look alike show the same Timeline. */
  lemma {:induction false} SameView<T>(f: CardView -> T, key: T -> real, c: Codes, es: seq<Event>, fs: seq<Event>)
    requires DistinctIds(es) && Same(es, fs) && KeyIdentifies(es, EventKey) && HomesAgree(c, es, fs) && Dated(f, key)
    requires Alike(f, PlanOf(c, es), PlanOf(c, fs), es, fs, AllGroups(c, es), AllGroups(c, fs))
    ensures Map(f, Grouped(c, es)) == Map(f, Grouped(c, fs))
  {
    var p, q, gs, hs := PlanOf(c, es), PlanOf(c, fs), AllGroups(c, es), AllGroups(c, fs);
    SameDistinct(es, fs);
    SameKeys(c, es, fs);
    AllKeysDistinct(c, es);
    AllKeysDistinct(c, fs);
    AllOwnHoused(c, es, p);
    ViewsSame(f, p, q, es, fs, gs, hs);
    CardsDistinct(f, key, c, es, p, gs);
    SortedViews(f, key, FinishedCards(p, es, gs));
    SortedViews(f, key, FinishedCards(q, fs, hs));
    KeysCarryOver(Map(f, FinishedCards(p, es, gs)), Map(f, Grouped(c, es)), key);
    SortedUnique(Map(f, Grouped(c, es)), Map(f, Grouped(c, fs)), key);
  }

  lemma {:induction false} HomesSame(c: Codes, es: seq<Event>, fs: seq<Event>)
    requires Same(es, fs) && KeyIdentifies(es, EventKey) && OneParent(es) && NoTies(PlanOf(c, es), es)
    ensures HomesAgree(c, es, fs)
  {
    forall e | e in es ensures HomeOf(PlanOf(c, es), e) == HomeOf(PlanOf(c, fs), e) {
      HomeSame(c, es, fs, e);
    }
    SameMembers(es, fs);
  }

  /** Cards of one key have the events of their own in common, whatever the order. */
  lemma {:induction false} OwnSame(c: Codes, es: seq<Event>, fs: seq<Event>, i: nat, j: nat)
    requires DistinctIds(es) && Same(es, fs) && HomesAgree(c, es, fs)
    requires i < |AllGroups(c, es)| && j < |AllGroups(c, fs)| && AllGroups(c, es)[i].key == AllGroups(c, fs)[j].key
    ensures Same(AllGroups(c, es)[i].own, AllGroups(c, fs)[j].own)
    ensures forall e :: e in AllGroups(c, es)[i].own ==> e in es
  {
    SameDistinct(es, fs);
    AllOwnHoused(c, es, PlanOf(c, es));
    AllOwnHoused(c, fs, PlanOf(c, fs));
    HavingSame(PlanOf(c, es), PlanOf(c, fs), es, fs, Home(AllGroups(c, es)[i].key, Member));
  }

  /** Where everything is shown does not depend on the order in which the rows were
      stored: with distinct timestamps, one parent per episode and no tail between two
      cards, every event is on the same card, and the cards come in the same order with
      the same lines in the same order. */
  lemma {:induction false} PlacesIndependent(c: Codes, es: seq<Event>, fs: seq<Event>)
    requires DistinctIds(es) && Same(es, fs)
    requires KeyIdentifies(es, EventKey) && OneParent(es) && NoTies(PlanOf(c, es), es)
    ensures forall e :: e in es ==> HomeOf(PlanOf(c, es), e) == HomeOf(PlanOf(c, fs), e)
    ensures Map(OutlineOf, Grouped(c, es)) == Map(OutlineOf, Grouped(c, fs))
  {
    var p, q, gs, hs := PlanOf(c, es), PlanOf(c, fs), AllGroups(c, es), AllGroups(c, fs);
    HomesSame(c, es, fs);
    forall i, j | 0 <= i < |gs| && 0 <= j < |hs| && gs[i].key == hs[j].key
      ensures OutlineOf(FinishedCards(p, es, gs)[i]) == OutlineOf(FinishedCards(q, fs, hs)[j])
    {
      OwnSame(c, es, fs, i, j);
      CardSame(c, p, q, es, fs, gs[i], hs[j]);
    }
    SameView(OutlineOf, OutlineKey, c, es, fs);
  }
}
