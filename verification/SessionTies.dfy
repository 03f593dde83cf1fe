/** Why order independence needs each of its conditions. */
module SessionTies {
  import opened Common
  import opened Sorting
  import opened SessionSpec
  import opened SessionSteps
  import opened SessionPasses
  import opened SessionConservation
  import opened SessionOrder
  import opened SessionPets

  // ---- Two events at one time --------------------------------------------------

  lemma {:induction false} LooseMore(c: Codes, es: seq<Event>, e: Event)
    requires e.rel == "" && e.kind == Toilet
    ensures LooseVisits(c, es + [e]) == LooseVisits(c, es) + [e]
    ensures EpisodeRels(c, es + [e]) == EpisodeRels(c, es)
  {
    assert (es + [e])[..|es|] == es;
  }

  lemma {:induction false} NoStepsOrRows(c: Codes, p: Plan, es: seq<Event>)
    requires forall e :: e in es ==> e.rel == "" && e.kind == Toilet
    ensures OrphanRels(p.first, es) == [] && Rows(p, es) == []
  {
    NoMembers(OrphanRels(p.first, es));
    forall e | e in es ensures HomeOf(p, e) != Home(RowCard(e), Member) {
      StageMeaning(p, e);
    }
    NoMembers(Rows(p, es));
  }

  /** Two visits that name no episode: each is a card of its own and nothing else happens. */
  lemma {:induction false} TwoLooseGroups(c: Codes, a: Event, b: Event)
    requires a.rel == "" && b.rel == "" && a.kind == Toilet && b.kind == Toilet
    ensures AllGroups(c, [a, b]) == [Group(LooseCard(a), [a]), Group(LooseCard(b), [b])]
  {
    LooseMore(c, [], a);
    LooseMore(c, [a], b);
    assert [] + [a] == [a] && [a] + [b] == [a, b];
    NoStepsOrRows(c, PlanOf(c, [a, b]), [a, b]);
  }

  lemma {:induction false} StablePair<T>(xs: seq<T>, key: T -> real)
    requires |xs| == 2 && key(xs[0]) == key(xs[1])
    ensures SortBy(xs, key) == xs
  {
    var x, y := xs[0], xs[1];
    assert xs[1..] == [y] && [y][1..] == [];
    assert SortBy([y], key) == Insert(y, SortBy([], key), key);
    assert xs == [x, y];
  }

  lemma {:induction false} LooseCardView(p: Plan, es: seq<Event>, v: Event)
    ensures Finish(p.first.codes, es, CardOf(p, es, Group(LooseCard(v), [v]))).id == v.id
    ensures Finish(p.first.codes, es, CardOf(p, es, Group(LooseCard(v), [v]))).header.ts == v.ts
  {
    OneOrdered(v);
  }

  lemma {:induction false} TiedCards(c: Codes, a: Event, b: Event, cards: seq<CardView>)
    requires a.rel == "" && b.rel == "" && a.kind == Toilet && b.kind == Toilet && a.ts == b.ts
    requires cards == FinishedCards(PlanOf(c, [a, b]), [a, b], AllGroups(c, [a, b]))
    ensures |cards| == 2 && cards[0].id == a.id && NewestFirst(cards[0]) == NewestFirst(cards[1])
  {
    var es, p := [a, b], PlanOf(c, [a, b]);
    TwoLooseGroups(c, a, b);
    LooseCardView(p, es, a);
    LooseCardView(p, es, b);
  }

  /** Of two visits reported at the same time, the one stored first is shown first. */
  lemma {:induction false} TiedVisits(c: Codes, a: Event, b: Event)
    requires a.rel == "" && b.rel == "" && a.kind == Toilet && b.kind == Toilet && a.ts == b.ts
    ensures |Grouped(c, [a, b])| == 2 && Grouped(c, [a, b])[0].id == a.id
  {
    var cards := FinishedCards(PlanOf(c, [a, b]), [a, b], AllGroups(c, [a, b]));
    TiedCards(c, a, b, cards);
    StablePair(cards, NewestFirst);
  }

  lemma {:induction false} FirstShown(c: Codes, es: seq<Event>)
    requires |Grouped(c, es)| > 0
    ensures Map(OutlineOf, Grouped(c, es))[0].id == Grouped(c, es)[0].id
  {
  }

  /** Two visits at one time that name no episode. */
  predicate AtOnce(a: Event, b: Event) {
    a.rel == "" && b.rel == "" && a.kind == Toilet && b.kind == Toilet && a.ts == b.ts && a.id != b.id
  }

  lemma {:induction false} Swapped(c: Codes, a: Event, b: Event)
    requires AtOnce(a, b)
    ensures Map(OutlineOf, Grouped(c, [a, b])) != Map(OutlineOf, Grouped(c, [b, a]))
  {
    TiedVisits(c, a, b);
    FirstShown(c, [a, b]);
    TiedVisits(c, b, a);
    FirstShown(c, [b, a]);
  }

  lemma {:induction false} NoCleaningNoTies(p: Plan, es: seq<Event>)
    requires forall e :: e in es ==> e.kind != Cleaning
    ensures NoTies(p, es)
  {
  }

  lemma {:induction false} NothingElseAmbiguous(c: Codes, a: Event, b: Event, es: seq<Event>)
    requires AtOnce(a, b) && es == [a, b]
    ensures DistinctIds(es) && Same(es, [b, a]) && OneParent(es) && NoTies(PlanOf(c, es), es)
  {
    NoCleaningNoTies(PlanOf(c, es), es);
  }

  /** The order of the rows can be seen: two visits at one time swap places,
      although nothing else about them is ambiguous. */
  lemma {:induction false} OrderMattersOnTies(c: Codes, a: Event, b: Event, es: seq<Event>, fs: seq<Event>)
    requires AtOnce(a, b) && es == [a, b] && fs == [b, a]
    ensures DistinctIds(es) && Same(es, fs) && OneParent(es) && NoTies(PlanOf(c, es), es)
    ensures Map(OutlineOf, Grouped(c, es)) != Map(OutlineOf, Grouped(c, fs))
  {
    NothingElseAmbiguous(c, a, b, es);
    Swapped(c, a, b);
  }

  // ---- An event that changes its card ---------------------------------------------

  lemma {:induction false} TwoCards(cards: seq<CardView>, i: nat, j: nat, id: int)
    requires i < j < |cards| && id in CardIds(cards[i]) && id in CardIds(cards[j])
    ensures IdBag(cards)[id] >= 2
  {
    BagWithout(cards, i);
    assert Without(cards, i)[j - 1] == cards[j];
    BagWithout(Without(cards, i), j - 1);
  }

  lemma {:induction false} OnceShown(cards: seq<CardView>, v: CardView, w: CardView, id: int)
    requires v in cards && w in cards && id in CardIds(v) && id in CardIds(w) && IdBag(cards)[id] <= 1
    ensures v == w
  {
    var i :| 0 <= i < |cards| && cards[i] == v;
    var j :| 0 <= j < |cards| && cards[j] == w;
    if i < j {
      TwoCards(cards, i, j, id);
    } else if j < i {
      TwoCards(cards, j, i, id);
    }
  }

  /** No event is on two cards of a Timeline. */
  lemma {:induction false} OnOneCard(c: Codes, es: seq<Event>, v: CardView, w: CardView, id: int)
    requires DistinctIds(es) && v in Grouped(c, es) && w in Grouped(c, es)
    requires id in CardIds(v) && id in CardIds(w)
    ensures v == w
  {
    Conservation(c, es);
    OnceShown(Grouped(c, es), v, w, id);
  }

  /** A card shows the events whose home it is. */
  lemma {:induction false} HomeShown(c: Codes, es: seq<Event>, k: nat, e: Event) returns (v: CardView)
    requires DistinctIds(es) && e in es && k < |AllGroups(c, es)|
    requires HomeOf(PlanOf(c, es), e).key == AllGroups(c, es)[k].key
    ensures v in Grouped(c, es) && v.id == HeadOf(c, AllGroups(c, es)[k]).id && e.id in CardIds(v)
  {
    var p, g := PlanOf(c, es), AllGroups(c, es)[k];
    v := Finish(c, es, CardOf(p, es, g));
    CardShown(c, es, k);
    CardShows(p, es, g);
    AllOwnHoused(c, es, p);
    RuleIsOne(HomeOf(p, e), g.key);
    assert e in Shown(p, es, g);
    var n :| 0 <= n < |Shown(p, es, g)| && Shown(p, es, g)[n] == e;
    assert Map(EventId, Shown(p, es, g))[n] == e.id;
  }

  /** An event whose card has another head in the other order is seen to have moved. */
  lemma {:induction false} Moved(c: Codes, es: seq<Event>, fs: seq<Event>, e: Event, k: nat, j: nat)
    requires DistinctIds(es) && DistinctIds(fs) && e in es && e in fs && k < |AllGroups(c, es)| && j < |AllGroups(c, fs)|
    requires HomeOf(PlanOf(c, es), e).key == AllGroups(c, es)[k].key
    requires HomeOf(PlanOf(c, fs), e).key == AllGroups(c, fs)[j].key
    requires HeadOf(c, AllGroups(c, es)[k]).id != HeadOf(c, AllGroups(c, fs)[j]).id
    ensures Map(OutlineOf, Grouped(c, es)) != Map(OutlineOf, Grouped(c, fs))
  {
    var v := HomeShown(c, es, k, e);
    var w := HomeShown(c, fs, j, e);
    var m :| 0 <= m < |Grouped(c, es)| && Grouped(c, es)[m] == v;
    if Map(OutlineOf, Grouped(c, es)) == Map(OutlineOf, Grouped(c, fs)) {
      var u := Grouped(c, fs)[m];
      assert Map(OutlineOf, Grouped(c, es))[m] == OutlineOf(v) && Map(OutlineOf, Grouped(c, fs))[m] == OutlineOf(u);
      assert u in Grouped(c, fs);
      OnOneCard(c, fs, u, w, e.id);
    }
  }

  // ---- An episode that names two parents ----------------------------------------------

  /** The event is the only one that can head a card of its episode. */
  ghost predicate Sole(c: Codes, es: seq<Event>, a: Event) {
    && DistinctIds(es) && a in es && Eligible(c, a) && a.rel != ""
    && forall e :: e in es && Eligible(c, e) && e.rel == a.rel ==> e == a
  }

  lemma {:induction false} SoleHome(c: Codes, es: seq<Event>, a: Event, e: Event, p: Plan)
    requires Sole(c, es, a) && e in es && p.first.codes == c
    ensures HomeOf(p, e) == Home(EpisodeCard(a.rel), Member) <==> e == a
  {
    StageMeaning(p, e);
  }

  lemma {:induction false} SoleMember(c: Codes, es: seq<Event>, a: Event, p: Plan)
    requires Sole(c, es, a) && p.first.codes == c
    ensures Having(p, es, Home(EpisodeCard(a.rel), Member)) == [a] && EpisodeMembers(c, es, a.rel) == [a]
  {
    forall i | 0 <= i < |es| ensures HomeOf(p, es[i]) == Home(EpisodeCard(a.rel), Member) <==> es[i] == a {
      SoleHome(c, es, a, es[i], p);
    }
    SingleOwn(p, es, Home(EpisodeCard(a.rel), Member), a);
    EpisodeOwn(p, es, a.rel);
  }

  lemma {:induction false} SoleHead(c: Codes, es: seq<Event>, a: Event)
    requires Sole(c, es, a)
    ensures a.rel in HeadsOf(c, es) && HeadsOf(c, es)[a.rel] == a
  {
    SoleMember(c, es, a, PlanOf(c, es));
    OneAlone(c, EpisodeCard(a.rel), a);
    assert a.rel in EpisodeRels(c, es);
  }

  lemma {:induction false} GroupOfKey(c: Codes, es: seq<Event>, e: Event) returns (k: nat)
    requires DistinctIds(es) && e in es
    ensures k < |AllGroups(c, es)| && AllGroups(c, es)[k].key == HomeOf(PlanOf(c, es), e).key
    ensures AllGroups(c, es)[k].own == Having(PlanOf(c, es), es, Home(AllGroups(c, es)[k].key, Member))
  {
    var gs := AllGroups(c, es);
    EveryHome(c, es, e);
    AllOwnHoused(c, es, PlanOf(c, es));
    var m :| 0 <= m < |gs| && gs[m].key == HomeOf(PlanOf(c, es), e).key;
    k := m;
  }

  /** An episode card of a single event. */
  lemma {:induction false} SoleCard(c: Codes, es: seq<Event>, a: Event) returns (k: nat)
    requires Sole(c, es, a)
    ensures k < |AllGroups(c, es)| && AllGroups(c, es)[k] == Group(EpisodeCard(a.rel), [a])
    ensures HeadOf(c, AllGroups(c, es)[k]) == a && Rest(c, AllGroups(c, es)[k]) == []
  {
    var p := PlanOf(c, es);
    SoleHome(c, es, a, a, p);
    SoleMember(c, es, a, p);
    k := GroupOfKey(c, es, a);
    OneAlone(c, EpisodeCard(a.rel), a);
  }

  /** A detail event that can head no card, and is no cleaning. */
  predicate FollowUp(c: Codes, e: Event) { e.kind in {Pet, Motion, Error} && Detail(c, e) }

  lemma {:induction false} LinkedHome(p: Plan, e: Event, rel: string)
    requires FollowUp(p.first.codes, e) && LinkTarget(p.first, e) == Some(rel)
    ensures HomeOf(p, e) == Home(EpisodeCard(rel), Linked)
  {
  }

  lemma {:induction false} FollowUpHome(c: Codes, es: seq<Event>, a: Event, e: Event)
    requires Sole(c, es, a) && FollowUp(c, e) && e.device == a.device && ParentOf(FirstOf(c, es), e) == a.rel
    ensures HomeOf(PlanOf(c, es), e) == Home(EpisodeCard(a.rel), Linked)
  {
    SoleHead(c, es, a);
    LinkedHome(PlanOf(c, es), e, a.rel);
  }

  /** Two cards and two follow-ups of one episode, each naming one of the cards as its parent. */
  ghost predicate TwoParents(c: Codes, a: Event, b: Event, x: Event, y: Event) {
    && Eligible(c, a) && Eligible(c, b) && FollowUp(c, x) && FollowUp(c, y)
    && a.rel != "" && b.rel != "" && a.rel != b.rel && x.rel == y.rel != "" && x.rel != a.rel && x.rel != b.rel
    && x.parent == a.rel && y.parent == b.rel
    && a.device == b.device == x.device == y.device
    && DistinctIds([a, b, x, y]) && KeyIdentifies([a, b, x, y], EventKey)
  }

  lemma {:induction false} FirstParent(c: Codes, a: Event, b: Event, x: Event, y: Event)
    requires TwoParents(c, a, b, x, y)
    ensures ParentOf(FirstOf(c, [a, b, x, y]), x) == a.rel
  {
    var es := [a, b, x, y];
    assert es[..3] == [a, b, x] && [a, b, x][..2] == [a, b];
    assert NamedParent([a, b], x.rel) == "";
    assert NamedParent([a, b, x], x.rel) == a.rel;
    assert NamedParent(es, x.rel) == a.rel;
    assert x in es;
  }

  lemma {:induction false} OtherParent(c: Codes, a: Event, b: Event, x: Event, y: Event)
    requires TwoParents(c, a, b, x, y)
    ensures ParentOf(FirstOf(c, [b, a, y, x]), x) == b.rel
  {
    var es := [b, a, y, x];
    assert es[..3] == [b, a, y] && [b, a, y][..2] == [b, a];
    assert NamedParent([b, a], x.rel) == "";
    assert NamedParent([b, a, y], x.rel) == b.rel;
    assert NamedParent(es, x.rel) == b.rel;
    assert x in es;
  }

  lemma {:induction false} ParentsFacts(c: Codes, a: Event, b: Event, x: Event, y: Event)
    requires TwoParents(c, a, b, x, y)
    ensures var es, fs := [a, b, x, y], [b, a, y, x];
      Sole(c, es, a) && Same(es, fs) && (forall e :: e in es ==> e.kind != Cleaning)
  {
  }

  lemma {:induction false} MovedToOther(c: Codes, es: seq<Event>, fs: seq<Event>, a: Event, b: Event, x: Event)
    requires Sole(c, es, a) && Sole(c, fs, b) && a.id != b.id && x in es && x in fs
    requires FollowUp(c, x) && x.device == a.device == b.device
    requires ParentOf(FirstOf(c, es), x) == a.rel && ParentOf(FirstOf(c, fs), x) == b.rel
    ensures Map(OutlineOf, Grouped(c, es)) != Map(OutlineOf, Grouped(c, fs))
  {
    FollowUpHome(c, es, a, x);
    FollowUpHome(c, fs, b, x);
    var k := SoleCard(c, es, a);
    var j := SoleCard(c, fs, b);
    Moved(c, es, fs, x, k, j);
  }

  /** The order of the rows can be seen: an episode hangs on the parent named first,
      although nothing else about it is ambiguous. */
  lemma {:induction false} OrderMattersOnParents(c: Codes, a: Event, b: Event, x: Event, y: Event, es: seq<Event>, fs: seq<Event>)
    requires TwoParents(c, a, b, x, y) && es == [a, b, x, y] && fs == [b, a, y, x]
    ensures DistinctIds(es) && Same(es, fs) && KeyIdentifies(es, EventKey) && NoTies(PlanOf(c, es), es)
    ensures Map(OutlineOf, Grouped(c, es)) != Map(OutlineOf, Grouped(c, fs))
  {
    ParentsFacts(c, a, b, x, y);
    assert TwoParents(c, b, a, y, x) by {
      SameDistinct(es, fs);
      KeysCarryOver(es, fs, EventKey);
    }
    ParentsFacts(c, b, a, y, x);
    NoCleaningNoTies(PlanOf(c, es), es);
    FirstParent(c, a, b, x, y);
    OtherParent(c, a, b, x, y);
    MovedToOther(c, es, fs, a, b, x);
  }

  // ---- A tail between two cleanings --------------------------------------------------------

  /** Two completed cleanings, and a step without an episode half-way between them. */
  predicate Between(c: Codes, a: Event, b: Event, x: Event) {
    && a.kind == Cleaning && b.kind == Cleaning && x.kind == Cleaning
    && a.code in c.primaryDone && b.code in c.primaryDone
    && a.rel != "" && b.rel != "" && a.rel != b.rel && x.rel == ""
    && a.parent == "" && b.parent == "" && x.parent == ""
    && a.ts.Some? && b.ts.Some? && x.ts.Some? && a.device == b.device == x.device
    && a.ts.value < x.ts.value < b.ts.value && x.ts.value - a.ts.value == b.ts.value - x.ts.value <= CYCLE_TAIL_WINDOW_SEC
    && a.id != b.id && a.id != x.id && b.id != x.id
  }

  lemma {:induction false} CleaningsOnly(c: Codes, es: seq<Event>)
    requires forall e :: e in es ==> e.kind == Cleaning && e.parent == ""
    ensures FirstGroups(c, es) == [] && FirstOf(c, es).slots == []
    ensures forall e :: e in es ==> LinkTarget(FirstOf(c, es), e).None?
    ensures forall e :: e in es ==> (OrphanStep(FirstOf(c, es), e) <==> e.rel != "")
  {
    forall rel ensures rel !in EpisodeRels(c, es) {
      NoMembers(EpisodeMembers(c, es, rel));
    }
    NoMembers(EpisodeRels(c, es));
    NoMembers(LooseVisits(c, es));
  }

  lemma {:induction false} StepsSnoc(f: First, es: seq<Event>, e: Event, rel: string)
    ensures OrphanSteps(f, es + [e], rel) == OrphanSteps(f, es, rel) + if OrphanStep(f, e) && e.rel == rel then [e] else []
  {
    assert (es + [e])[..|es|] == es;
  }

  lemma {:induction false} OrphanRelsSnoc(f: First, es: seq<Event>, e: Event)
    ensures OrphanRels(f, es + [e]) ==
      OrphanRels(f, es) + if OrphanStep(f, e) && e.rel !in OrphanRels(f, es) then [e.rel] else []
  {
    assert (es + [e])[..|es|] == es;
  }

  lemma {:induction false} StepsOfThree(f: First, a: Event, b: Event, x: Event, rel: string)
    requires OrphanStep(f, a) && OrphanStep(f, b) && !OrphanStep(f, x) && a.rel != b.rel
    ensures rel == a.rel ==> OrphanSteps(f, [a, b, x], rel) == [a]
    ensures rel == b.rel ==> OrphanSteps(f, [a, b, x], rel) == [b]
  {
    StepsSnoc(f, [], a, rel);
    StepsSnoc(f, [a], b, rel);
    StepsSnoc(f, [a, b], x, rel);
    assert [] + [a] == [a] && [a] + [b] == [a, b] && [a, b] + [x] == [a, b, x];
  }

  lemma {:induction false} OrphansOfThree(f: First, a: Event, b: Event, x: Event)
    requires OrphanStep(f, a) && OrphanStep(f, b) && !OrphanStep(f, x) && a.rel != b.rel
    ensures OrphanRels(f, [a, b, x]) == [a.rel, b.rel]
  {
    OrphanRelsSnoc(f, [], a);
    OrphanRelsSnoc(f, [a], b);
    OrphanRelsSnoc(f, [a, b], x);
    assert [] + [a] == [a] && [a] + [b] == [a, b] && [a, b] + [x] == [a, b, x];
  }

  lemma {:induction false} TwoOrphans(f: First, es: seq<Event>, a: Event, b: Event, rels: seq<string>)
    requires rels == [a.rel, b.rel] && a.code in f.codes.primaryDone && b.code in f.codes.primaryDone
    requires OrphanSteps(f, es, a.rel) == [a] && OrphanSteps(f, es, b.rel) == [b]
    ensures OrphanGroups(f, es, rels) == [Group(OrphanCard(a.rel), [a]), Group(OrphanCard(b.rel), [b])]
  {
    assert OrphanGroupsUpTo(f, es, rels, 0) == [];
    assert OrphanGroupsUpTo(f, es, rels, 1) == [Group(OrphanCard(a.rel), [a])];
  }

  lemma {:induction false} OrphanAlone(c: Codes, a: Event)
    ensures HeadOf(c, Group(OrphanCard(a.rel), [a])) == a
    ensures HeaderOf(c, Group(OrphanCard(a.rel), [a])) == Header(OfKind(Cleaning), a.rel, a.device, a.ts)
  {
    OneOrdered(a);
  }

  lemma {:induction false} CompletedTwo(f: First, es: seq<Event>, a: Event, b: Event, x: Event)
    requires es == [a, b, x] && OrphanStep(f, a) && OrphanStep(f, b) && !OrphanStep(f, x) && a.rel != b.rel
    requires a.code in f.codes.primaryDone && b.code in f.codes.primaryDone
    ensures OrphanGroups(f, es, OrphanRels(f, es)) == [Group(OrphanCard(a.rel), [a]), Group(OrphanCard(b.rel), [b])]
  {
    OrphansOfThree(f, a, b, x);
    StepsOfThree(f, a, b, x, a.rel);
    StepsOfThree(f, a, b, x, b.rel);
    TwoOrphans(f, es, a, b, OrphanRels(f, es));
  }

  lemma {:induction false} OnlyOrphans(c: Codes, es: seq<Event>)
    requires FirstGroups(c, es) == []
    ensures CycleGroups(c, es) == OrphanGroups(FirstOf(c, es), es, OrphanRels(FirstOf(c, es), es))
  {
  }

  lemma {:induction false} TwoCleaningCards(c: Codes, a: Event, b: Event, x: Event, es: seq<Event>)
    requires (Between(c, a, b, x) || Between(c, b, a, x)) && es == [a, b, x]
    ensures CycleGroups(c, es) == [Group(OrphanCard(a.rel), [a]), Group(OrphanCard(b.rel), [b])]
  {
    assert a in es && b in es && x in es;
    CleaningsOnly(c, es);
    CompletedTwo(FirstOf(c, es), es, a, b, x);
    OnlyOrphans(c, es);
  }

  lemma {:induction false} FirstOfTwo(c: Codes, a: Event, b: Event, x: Event, hs: seq<Header>)
    requires Between(c, a, b, x) || Between(c, b, a, x)
    requires hs == [Header(OfKind(Cleaning), a.rel, a.device, a.ts), Header(OfKind(Cleaning), b.rel, b.device, b.ts)]
    ensures Nearest(AroundCycle, hs, x) == Some(0)
  {
    assert Near(AroundCycle, hs[0], x) && Near(AroundCycle, hs[1], x) && Gap(hs[0], x) == Gap(hs[1], x);
  }

  lemma {:induction false} CleaningHeaders(c: Codes, a: Event, b: Event, gs: seq<Group>)
    requires gs == [Group(OrphanCard(a.rel), [a]), Group(OrphanCard(b.rel), [b])]
    ensures Headers(SlotsOf(c, gs)) == [Header(OfKind(Cleaning), a.rel, a.device, a.ts), Header(OfKind(Cleaning), b.rel, b.device, b.ts)]
    ensures SlotsOf(c, gs)[0].key == OrphanCard(a.rel)
  {
    OrphanAlone(c, a);
    OrphanAlone(c, b);
  }

  lemma {:induction false} TailHome(p: Plan, e: Event, key: Key)
    requires e.kind == Cleaning && LinkTarget(p.first, e).None? && p.first.slots == [] && e.rel == ""
    requires Closest(AroundCycle, p.slots, e) == Some(key)
    ensures HomeOf(p, e) == Home(key, Tail)
  {
  }

  lemma {:induction false} TailUnlinked(c: Codes, a: Event, b: Event, x: Event, es: seq<Event>)
    requires (Between(c, a, b, x) || Between(c, b, a, x)) && es == [a, b, x]
    ensures LinkTarget(FirstOf(c, es), x).None? && FirstOf(c, es).slots == []
  {
    assert x in es;
    CleaningsOnly(c, es);
  }

  lemma {:induction false} TailFindsFirst(c: Codes, a: Event, b: Event, x: Event, es: seq<Event>, p: Plan)
    requires (Between(c, a, b, x) || Between(c, b, a, x)) && es == [a, b, x] && p == PlanOf(c, es)
    ensures HomeOf(p, x) == Home(OrphanCard(a.rel), Tail)
  {
    TwoCleaningCards(c, a, b, x, es);
    CleaningHeaders(c, a, b, CycleGroups(c, es));
    FirstOfTwo(c, a, b, x, Headers(p.slots));
    TailUnlinked(c, a, b, x, es);
    TailHome(p, x, OrphanCard(a.rel));
  }

  lemma {:induction false} FirstCleaning(c: Codes, es: seq<Event>, a: Event, b: Event)
    requires CycleGroups(c, es) == [Group(OrphanCard(a.rel), [a]), Group(OrphanCard(b.rel), [b])]
    ensures |AllGroups(c, es)| > 0 && AllGroups(c, es)[0].key == OrphanCard(a.rel)
    ensures HeadOf(c, AllGroups(c, es)[0]) == a
  {
    OrphanAlone(c, a);
    assert AllGroups(c, es)[0] == CycleGroups(c, es)[0];
  }

  /** The tail goes to the cleaning stored first. */
  lemma {:induction false} TailToFirst(c: Codes, a: Event, b: Event, x: Event, es: seq<Event>)
    requires (Between(c, a, b, x) || Between(c, b, a, x)) && es == [a, b, x]
    ensures |AllGroups(c, es)| > 0 && HeadOf(c, AllGroups(c, es)[0]) == a
    ensures HomeOf(PlanOf(c, es), x).key == AllGroups(c, es)[0].key
  {
    TwoCleaningCards(c, a, b, x, es);
    FirstCleaning(c, es, a, b);
    TailFindsFirst(c, a, b, x, es, PlanOf(c, es));
  }

  lemma {:induction false} ThreeDistinct(a: Event, b: Event, x: Event, es: seq<Event>)
    requires es == [a, b, x] && a.id != b.id && a.id != x.id && b.id != x.id
    ensures DistinctIds(es)
  {
  }

  lemma {:induction false} BetweenFacts(c: Codes, a: Event, b: Event, x: Event, es: seq<Event>, fs: seq<Event>)
    requires Between(c, a, b, x) && es == [a, b, x] && fs == [b, a, x]
    ensures Same(es, fs) && KeyIdentifies(es, EventKey) && OneParent(es)
  {
  }

  /** The order of the rows can be seen: a tail half-way between two cleanings hangs on
      the one stored first, although nothing else about it is ambiguous. */
  lemma {:induction false} OrderMattersOnTails(c: Codes, a: Event, b: Event, x: Event, es: seq<Event>, fs: seq<Event>)
    requires Between(c, a, b, x) && es == [a, b, x] && fs == [b, a, x]
    ensures DistinctIds(es) && Same(es, fs) && KeyIdentifies(es, EventKey) && OneParent(es)
    ensures Map(OutlineOf, Grouped(c, es)) != Map(OutlineOf, Grouped(c, fs))
  {
    BetweenFacts(c, a, b, x, es, fs);
    ThreeDistinct(a, b, x, es);
    ThreeDistinct(b, a, x, fs);
    TailToFirst(c, a, b, x, es);
    TailToFirst(c, b, a, x, fs);
    assert x in es && x in fs;
    Moved(c, es, fs, x, 0, 0);
  }

  // ---- Two pets on one card -----------------------------------------------------------------

  /** A card whose head names no pet, and two follow-ups of it that name different ones. */
  ghost predicate TwoPets(c: Codes, a: Event, x: Event, y: Event) {
    && Eligible(c, a) && a.rel != "" && a.pet.None? && FollowUp(c, x) && FollowUp(c, y)
    && a.rel != x.rel && a.rel != y.rel && x.rel != y.rel
    && x.parent == a.rel && y.parent == a.rel && a.device == x.device == y.device
    && x.pet.Some? && y.pet.Some? && x.pet != y.pet
    && DistinctIds([a, x, y]) && KeyIdentifies([a, x, y], EventKey)
  }

  lemma {:induction false} OnlyParent(c: Codes, es: seq<Event>, e: Event)
    requires e in es && e.parent != "" && e.parent != e.rel
    requires forall d :: d in es && d.rel == e.rel ==> d.parent == e.parent
    ensures ParentOf(FirstOf(c, es), e) == e.parent
  {
    if e.rel != "" {
      assert NamesParent(e, e.rel);
    }
  }

  lemma {:induction false} PetsHung(c: Codes, a: Event, x: Event, y: Event)
    requires TwoPets(c, a, x, y)
    ensures var es := [a, x, y];
      forall e :: e in [x, y] ==> HomeOf(PlanOf(c, es), e) == Home(EpisodeCard(a.rel), Linked)
  {
    var es := [a, x, y];
    forall e | e in [x, y] ensures HomeOf(PlanOf(c, es), e) == Home(EpisodeCard(a.rel), Linked) {
      OnlyParent(c, es, e);
      FollowUpHome(c, es, a, e);
    }
  }

  lemma {:induction false} OneEpisodeEach(a: Event, x: Event, y: Event, es: seq<Event>)
    requires a.rel != x.rel && a.rel != y.rel && x.rel != y.rel && es == [a, x, y]
    ensures OneParent(es) && MediaPerEpisode(es)
    ensures forall e :: e in es && e.rel == a.rel ==> e == a
  {
  }

  lemma {:induction false} PetsUnambiguous(c: Codes, a: Event, x: Event, y: Event, es: seq<Event>)
    requires TwoPets(c, a, x, y) && es == [a, x, y]
    ensures Unambiguous(c, es) && MediaPerEpisode(es) && Sole(c, es, a)
  {
    OneEpisodeEach(a, x, y, es);
    NoCleaningNoTies(PlanOf(c, es), es);
  }

  lemma {:induction false} LinkedNames(p: Plan, es: seq<Event>, key: Key, i: nat)
    requires i < |es| && es[i].pet.Some? && HomeOf(p, es[i]) == Home(key, Linked)
    ensures es[i] in Naming(p, es, key)
  {
    assert es[i] in es;
    assert es[i] in Having(p, es, Home(key, Linked));
  }

  lemma {:induction false} PetsSeen(c: Codes, es: seq<Event>, a: Event, i: nat, j: nat)
    requires Unambiguous(c, es) && Sole(c, es, a) && a.pet.None? && i < |es| && j < |es|
    requires es[i].pet.Some? && es[j].pet.Some? && es[i].pet != es[j].pet
    requires HomeOf(PlanOf(c, es), es[i]) == Home(EpisodeCard(a.rel), Linked)
    requires HomeOf(PlanOf(c, es), es[j]) == Home(EpisodeCard(a.rel), Linked)
    ensures Grouped(c, InFront(es, i)) != Grouped(c, InFront(es, j))
  {
    var k := SoleCard(c, es, a);
    LinkedNames(PlanOf(c, es), es, EpisodeCard(a.rel), i);
    LinkedNames(PlanOf(c, es), es, EpisodeCard(a.rel), j);
    assert [a] + [] == [a];
    PetsDisagree(c, es, k, i, j);
  }

  lemma {:induction false} ThreeInFront(a: Event, x: Event, y: Event, es: seq<Event>)
    requires es == [a, x, y]
    ensures InFront(es, 1) == [x, a, y] && InFront(es, 2) == [y, a, x]
  {
    assert Without(es, 1) == [a, y] && Without(es, 2) == [a, x];
  }

  /** The order of the rows can be seen: a card shows the pet of the follow-up stored
      first, although nothing else about it is ambiguous. */
  lemma {:induction false} OrderMattersOnPets(c: Codes, a: Event, x: Event, y: Event, es: seq<Event>)
    requires TwoPets(c, a, x, y) && es == [a, x, y]
    ensures Unambiguous(c, es) && MediaPerEpisode(es) && Same(es, [x, a, y]) && Same(es, [y, a, x])
    ensures Grouped(c, [x, a, y]) != Grouped(c, [y, a, x])
  {
    PetsUnambiguous(c, a, x, y, es);
    PetsHung(c, a, x, y);
    assert x in [x, y] && y in [x, y];
    ThreeInFront(a, x, y, es);
    InFrontSame(es, 1);
    InFrontSame(es, 2);
    PetsSeen(c, es, a, 1, 2);
  }
}
