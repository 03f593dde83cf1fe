/** Why each line of the Timeline is on its card, read off the Timeline itself. */
module SessionJustified {
  import opened Common
  import opened Sorting
  import opened SessionSpec
  import opened SessionSteps
  import opened SessionPasses
  import opened SessionConservation
  import SessionMedia

  // ---- What can be said of a card from the outside --------------------------------

  /** The event may head a card: a spell, or a sighting or error that is no detail of one,
      which names its episode; a visit need not name one. */
  predicate MayHead(c: Codes, e: Event) {
    && (e.rel != "" || e.kind == Toilet)
    && (|| e.kind == Toilet || e.kind == Feeding || e.kind == Drinking
        || ((e.kind == Pet || e.kind == Motion || e.kind == Error) && (e.code, e.deviceType) !in c.detail))
  }

  predicate Follows(e: Event) { e.kind == Cleaning || e.kind == Pet || e.kind == Motion || e.kind == Error }

  /** The event names a parent of its episode, which is not that episode itself. */
  predicate NamesAny(e: Event, rel: string) { rel != "" && e.rel == rel && e.parent != "" && e.parent != rel }

  /** Position of the event whose word counts: the first of the episode to name a parent. */
  ghost predicate NamedFirst(es: seq<Event>, rel: string, i: nat) {
    i < |es| && NamesAny(es[i], rel) && forall j :: 0 <= j < i ==> !NamesAny(es[j], rel)
  }

  /** The parent episode of an event: the one its episode names first, else its own. */
  ghost predicate ParentIs(es: seq<Event>, e: Event, p: string) {
    || (exists i: nat :: NamedFirst(es, e.rel, i) && es[i].parent == p)
    || ((forall i :: 0 <= i < |es| ==> !NamesAny(es[i], e.rel)) && e.parent == p)
  }

  /** A card a device's own link can lead to: an episode's, not a cleaning's or a plain row. */
  predicate HeadsEpisode(h: Header) {
    h.rel != "" && (h.kind == Visit || (h.kind.OfKind? && h.kind.kind != Cleaning))
  }

  predicate SameEpisode(h: Header, e: Event) { e.rel != "" && h.rel == e.rel && h.kind != Standalone }

  ghost predicate LinkedTo(es: seq<Event>, h: Header, e: Event) {
    Follows(e) && HeadsEpisode(h) && ParentIs(es, e, h.rel) && h.device == e.device
  }

  /** How long after the card the event came. */
  function Lag(h: Header, e: Event): real {
    if h.ts.Some? && e.ts.Some? then e.ts.value - h.ts.value else 0.0
  }

  function Distance(h: Header, e: Event): real { if Lag(h, e) < 0.0 then -Lag(h, e) else Lag(h, e) }

  /** A visit up to ten minutes before, or another episode's cleaning at most two away. */
  predicate Within(w: Window, h: Header, e: Event) {
    && e.kind == Cleaning && h.device == e.device && h.ts.Some? && e.ts.Some?
    && match w
       case AfterVisit => h.kind == Visit && 0.0 <= Lag(h, e) <= 600.0
       case AroundCycle => h.kind == OfKind(Cleaning) && h.rel != e.rel && -120.0 <= Lag(h, e) <= 120.0
  }

  lemma {:induction false} WithinIsNear(w: Window, h: Header, e: Event)
    ensures Within(w, h, e) <==> Near(w, h, e)
    ensures Near(w, h, e) ==> Gap(h, e) == Distance(h, e)
  {
  }

  /** No card in the window is closer. */
  ghost predicate ClosestCard(w: Window, cards: seq<CardView>, h: Header, e: Event) {
    Within(w, h, e) && forall v :: v in cards && Within(w, v.header, e) ==> Distance(h, e) <= Distance(v.header, e)
  }

  ghost predicate NoneIn(w: Window, cards: seq<CardView>, e: Event) {
    forall v :: v in cards ==> !Within(w, v.header, e)
  }

  ghost predicate NoneLinked(es: seq<Event>, cards: seq<CardView>, e: Event) {
    forall v :: v in cards ==> !LinkedTo(es, v.header, e)
  }

  /** The cleaning card of a cleaning step's own episode. */
  predicate OwnCleaning(h: Header, e: Event) { e.kind == Cleaning && SameEpisode(h, e) && h.kind == OfKind(Cleaning) }

  ghost predicate NoOwnCleaning(cards: seq<CardView>, e: Event) {
    forall v :: v in cards ==> !OwnCleaning(v.header, e)
  }

  /** Neither its own episode, nor a link, nor a visit before it has a card for the event. */
  ghost predicate Unclaimed(c: Codes, es: seq<Event>, cards: seq<CardView>, e: Event) {
    !MayHead(c, e) && NoneLinked(es, cards, e) && NoneIn(AfterVisit, cards, e)
  }

  /** The strongest rule that applies to `e` puts it on the card `h`: its own episode's if
      it may head one, else the linked one, else the closest visit's, else its own
      cleaning's, else the closest cleaning's. */
  ghost predicate Justified(c: Codes, es: seq<Event>, cards: seq<CardView>, h: Header, e: Event) {
    || (MayHead(c, e) && SameEpisode(h, e) && h.kind != OfKind(Cleaning))
    || (!MayHead(c, e) && LinkedTo(es, h, e))
    || (!MayHead(c, e) && NoneLinked(es, cards, e) && ClosestCard(AfterVisit, cards, h, e))
    || (Unclaimed(c, es, cards, e) && OwnCleaning(h, e))
    || (Unclaimed(c, es, cards, e) && NoOwnCleaning(cards, e) && ClosestCard(AroundCycle, cards, h, e))
  }

  /** No rule applies to `e`. */
  ghost predicate Unplaced(c: Codes, es: seq<Event>, cards: seq<CardView>, e: Event) {
    Unclaimed(c, es, cards, e) && NoOwnCleaning(cards, e) && NoneIn(AroundCycle, cards, e)
  }

  /** What a line shows of its event. */
  predicate LineShows(c: Codes, l: Line, e: Event) {
    l.id == e.id && l.code == e.code && l.ts == e.ts && l.rel == e.rel && l.detail == ((e.code, e.deviceType) in c.detail)
  }

  // ---- The cards of the Timeline and their groups -----------------------------------

  lemma {:induction false} CardHeader(p: Plan, es: seq<Event>, g: Group)
    requires g.own != []
    ensures Finish(p.first.codes, es, CardOf(p, es, g)).header == HeaderOf(p.first.codes, g)
  {
  }

  /** The card of group `k`, as it stands on the Timeline. */
  function TimelineCard(c: Codes, es: seq<Event>, k: nat): CardView
    requires k < |AllGroups(c, es)|
  {
    Finish(c, es, CardOf(PlanOf(c, es), es, AllGroups(c, es)[k]))
  }

  lemma {:induction false} IndexIn<T>(xs: seq<T>, x: T) returns (k: nat)
    requires x in xs
    ensures k < |xs| && xs[k] == x
  {
    k :| k < |xs| && xs[k] == x;
  }

  lemma {:induction false} CardAmong(c: Codes, es: seq<Event>, v: CardView) returns (k: nat)
    requires v in Grouped(c, es)
    ensures k < |AllGroups(c, es)| && v == TimelineCard(c, es, k)
  {
    var cards := FinishedCards(PlanOf(c, es), es, AllGroups(c, es));
    SortKeeps(cards, NewestFirst);
    k := IndexIn(cards, v);
  }

  lemma {:induction false} CardShape(c: Codes, es: seq<Event>, k: nat, evs: seq<Event>)
    requires k < |AllGroups(c, es)|
    requires evs == Rest(c, AllGroups(c, es)[k]) + Hung(PlanOf(c, es), AllGroups(c, es)[k].key, es, es, es)
    ensures var v := TimelineCard(c, es, k);
      v.header == HeaderOf(c, AllGroups(c, es)[k]) && v.lines == GiveMedia(c, es, v.header.rel, SortBy(LinesOf(c, evs), LineKey))
  {
  }

  /** The group behind a card, and the events hung on it after its head. */
  lemma {:induction false} GroupBehind(c: Codes, es: seq<Event>, v: CardView) returns (k: nat, evs: seq<Event>)
    requires v in Grouped(c, es)
    ensures k < |AllGroups(c, es)| && v.header == HeaderOf(c, AllGroups(c, es)[k])
    ensures evs == Rest(c, AllGroups(c, es)[k]) + Hung(PlanOf(c, es), AllGroups(c, es)[k].key, es, es, es)
    ensures v.lines == GiveMedia(c, es, v.header.rel, SortBy(LinesOf(c, evs), LineKey))
  {
    k := CardAmong(c, es, v);
    evs := Rest(c, AllGroups(c, es)[k]) + Hung(PlanOf(c, es), AllGroups(c, es)[k].key, es, es, es);
    CardShape(c, es, k, evs);
  }

  /** Cards of visits stand before any cleaning has a card; only rows come after both. */
  lemma {:induction false} KindPlaces(c: Codes, es: seq<Event>, k: nat)
    requires k < |AllGroups(c, es)|
    ensures var g := AllGroups(c, es)[k]; var n, m := |FirstGroups(c, es)|, |CycleGroups(c, es)|;
      && n <= m
      && (k < n ==> g == FirstGroups(c, es)[k] && (g.key.EpisodeCard? || g.key.LooseCard?))
      && (n <= k < m ==> g.key.OrphanCard?)
      && (k < m ==> g == CycleGroups(c, es)[k])
      && (k >= m ==> g.key.RowCard?)
  {
    var f := FirstOf(c, es);
    var og := OrphanGroups(f, es, OrphanRels(f, es));
    OrphanGroupsMeaning(f, es);
    if k < |FirstGroups(c, es)| {
      FirstKeysOnly(c, es, k);
    } else if k < |CycleGroups(c, es)| {
      assert og[k - |FirstGroups(c, es)|] in og;
    }
  }

  /** A first card's head is anchored, so its kind is never cleaning. */
  lemma {:induction false} FirstHeader(c: Codes, es: seq<Event>, k: nat)
    requires k < |FirstGroups(c, es)|
    ensures var g := FirstGroups(c, es)[k]; var h := HeaderOf(c, g);
      && h.kind != Standalone && h.kind != OfKind(Cleaning)
      && (g.key.EpisodeCard? ==> h.rel == g.key.rel && HeadsEpisode(h))
      && (g.key.LooseCard? ==> h.rel == "" && h.kind == Visit)
  {
    var rels, ls := EpisodeRels(c, es), LooseVisits(c, es);
    var g := FirstGroups(c, es)[k];
    SortKeeps(g.own, EventKey);
    assert HeadOf(c, g) in Ordered(g.own);
    if k < |rels| {
      assert g == EpisodeGroups(c, es)[k] && rels[k] in rels;
    } else {
      assert g == LooseGroups(ls)[k - |rels|];
      assert ls[k - |rels|] in ls;
      OneOrdered(ls[k - |rels|]);
    }
  }

  lemma {:induction false} OrphanGroupAt(c: Codes, es: seq<Event>, k: nat)
    requires |FirstGroups(c, es)| <= k < |CycleGroups(c, es)|
    ensures var g := CycleGroups(c, es)[k]; var f := FirstOf(c, es);
      && g.key.OrphanCard? && g.own == OrphanSteps(f, es, g.key.rel)
      && g.key.rel in OrphanRels(f, es) && Completed(c, g.own)
  {
    var f := FirstOf(c, es);
    var og := OrphanGroups(f, es, OrphanRels(f, es));
    OrphanGroupsMeaning(f, es);
    assert og[k - |FirstGroups(c, es)|] in og;
  }

  lemma {:induction false} HeadAmong(c: Codes, g: Group)
    requires g.own != []
    ensures HeadOf(c, g) in g.own
  {
    SortKeeps(g.own, EventKey);
    assert HeadOf(c, g) in Ordered(g.own);
  }

  lemma {:induction false} StepsHeader(c: Codes, f: First, es: seq<Event>, rel: string, g: Group)
    requires g == Group(OrphanCard(rel), OrphanSteps(f, es, rel)) && g.own != []
    ensures HeaderOf(c, g).kind == OfKind(Cleaning) && HeaderOf(c, g).rel == rel && rel != ""
  {
    HeadAmong(c, g);
  }

  lemma {:induction false} OrphanHeader(c: Codes, es: seq<Event>, k: nat)
    requires |FirstGroups(c, es)| <= k < |CycleGroups(c, es)|
    ensures var g := CycleGroups(c, es)[k]; var h := HeaderOf(c, g);
      g.key.OrphanCard? && h.kind == OfKind(Cleaning) && h.rel == g.key.rel && h.rel != ""
  {
    var g := CycleGroups(c, es)[k];
    OrphanGroupAt(c, es, k);
    StepsHeader(c, FirstOf(c, es), es, g.key.rel, g);
  }

  // ---- Each rule, seen from the outside ------------------------------------------------

  /** The table of parents holds the word of the first event that names one. */
  lemma {:induction false} NamedParentIsFirst(es: seq<Event>, rel: string)
    ensures NamedParent(es, rel) == "" ==> forall i :: 0 <= i < |es| ==> !NamesAny(es[i], rel)
    ensures NamedParent(es, rel) != "" ==> exists i: nat :: NamedFirst(es, rel, i) && es[i].parent == NamedParent(es, rel)
    decreases |es|
  {
    if es != [] {
      var n := |es| - 1;
      var before := es[..n];
      NamedParentIsFirst(before, rel);
      assert forall i :: 0 <= i < n ==> before[i] == es[i];
      if NamedParent(before, rel) != "" {
        var i: nat :| NamedFirst(before, rel, i) && before[i].parent == NamedParent(before, rel);
        assert NamedFirst(es, rel, i);
      } else if NamesAny(es[n], rel) {
        assert NamedFirst(es, rel, n);
      }
    }
  }

  lemma {:induction false} ParentNamed(c: Codes, es: seq<Event>, e: Event, p: string)
    requires e in es
    ensures ParentIs(es, e, p) <==> ParentOf(FirstOf(c, es), e) == p
  {
    NamedParentIsFirst(es, e.rel);
  }

  lemma {:induction false} FirstPlaced(c: Codes, es: seq<Event>, k: nat)
    requires k < |FirstGroups(c, es)|
    ensures k < |AllGroups(c, es)| && AllGroups(c, es)[k] == FirstGroups(c, es)[k]
    ensures TimelineCard(c, es, k).header == HeaderOf(c, FirstGroups(c, es)[k])
  {
    CardHeader(PlanOf(c, es), es, FirstGroups(c, es)[k]);
  }

  lemma {:induction false} LinkSeen(c: Codes, es: seq<Event>, e: Event, k: nat, parent: string)
    requires e in es && k < |FirstGroups(c, es)| && ParentIs(es, e, parent)
    requires FirstGroups(c, es)[k].key == EpisodeCard(parent) && Follows(e)
    ensures LinkedTo(es, HeaderOf(c, FirstGroups(c, es)[k]), e) <==> LinkTarget(FirstOf(c, es), e).Some?
  {
    var rels := EpisodeRels(c, es);
    var f := FirstOf(c, es);
    ParentNamed(c, es, e, parent);
    FirstHeader(c, es, k);
    FirstShape(c, es, k);
    assert f.heads[rels[k]] == HeadOf(c, FirstGroups(c, es)[k]);
  }

  lemma {:induction false} NotLinkedSeen(c: Codes, es: seq<Event>, e: Event, k: nat)
    requires e in es && LinkTarget(FirstOf(c, es), e).None? && k < |AllGroups(c, es)|
    ensures !LinkedTo(es, HeaderOf(c, AllGroups(c, es)[k]), e)
  {
    KindPlaces(c, es, k);
    if k < |FirstGroups(c, es)| {
      FirstHeader(c, es, k);
      if LinkedTo(es, HeaderOf(c, FirstGroups(c, es)[k]), e) {
        LinkSeen(c, es, e, k, HeaderOf(c, FirstGroups(c, es)[k]).rel);
      }
    } else if k < |CycleGroups(c, es)| {
      OrphanHeader(c, es, k);
    }
  }

  lemma {:induction false} NotLinkedAnywhere(c: Codes, es: seq<Event>, e: Event)
    requires e in es && LinkTarget(FirstOf(c, es), e).None?
    ensures NoneLinked(es, Grouped(c, es), e)
  {
    forall v | v in Grouped(c, es) ensures !LinkedTo(es, v.header, e) {
      var k, evs := GroupBehind(c, es, v);
      NotLinkedSeen(c, es, e, k);
    }
  }

  function RuleGroups(c: Codes, es: seq<Event>, w: Window): (gs: seq<Group>)
    ensures AllOwn(gs)
  {
    if w == AfterVisit then FirstGroups(c, es) else CycleGroups(c, es)
  }

  /** A card in a window is one of the cards that window's rule chose among. */
  lemma {:induction false} SeenNear(c: Codes, es: seq<Event>, w: Window, e: Event, k: nat)
    requires k < |AllGroups(c, es)| && Near(w, HeaderOf(c, AllGroups(c, es)[k]), e)
    ensures k < |RuleGroups(c, es, w)|
    ensures Headers(SlotsOf(c, RuleGroups(c, es, w)))[k] == HeaderOf(c, AllGroups(c, es)[k])
  {
    KindPlaces(c, es, k);
    if |FirstGroups(c, es)| <= k < |CycleGroups(c, es)| {
      OrphanHeader(c, es, k);
    }
  }

  lemma {:induction false} ChosenCloser(c: Codes, es: seq<Event>, w: Window, e: Event, h: Header, v: CardView)
    requires v in Grouped(c, es) && Within(w, v.header, e) && Near(w, h, e)
    requires forall k :: 0 <= k < |RuleGroups(c, es, w)| && Near(w, Headers(SlotsOf(c, RuleGroups(c, es, w)))[k], e) ==>
      Gap(h, e) <= Gap(Headers(SlotsOf(c, RuleGroups(c, es, w)))[k], e)
    ensures Distance(h, e) <= Distance(v.header, e)
  {
    WithinIsNear(w, h, e);
    WithinIsNear(w, v.header, e);
    var k, evs := GroupBehind(c, es, v);
    SeenNear(c, es, w, e, k);
  }

  /** The card a closeness rule chose is the closest on the whole Timeline. */
  lemma {:induction false} ChosenClosest(c: Codes, es: seq<Event>, w: Window, e: Event, n: nat)
    requires var gs := RuleGroups(c, es, w);
      n < |gs| && Nearest(w, Headers(SlotsOf(c, gs)), e) == Some(n)
    ensures ClosestCard(w, Grouped(c, es), HeaderOf(c, RuleGroups(c, es, w)[n]), e)
  {
    var h := HeaderOf(c, RuleGroups(c, es, w)[n]);
    WithinIsNear(w, h, e);
    forall v | v in Grouped(c, es) && Within(w, v.header, e) ensures Distance(h, e) <= Distance(v.header, e) {
      ChosenCloser(c, es, w, e, h, v);
    }
  }

  lemma {:induction false} NoneChosen(c: Codes, es: seq<Event>, w: Window, e: Event)
    requires Closest(w, SlotsOf(c, RuleGroups(c, es, w)), e).None?
    ensures NoneIn(w, Grouped(c, es), e)
  {
    forall v | v in Grouped(c, es) ensures !Within(w, v.header, e) {
      WithinIsNear(w, v.header, e);
      var k, evs := GroupBehind(c, es, v);
      if Near(w, v.header, e) {
        SeenNear(c, es, w, e, k);
      }
    }
  }

  /** A card of kind cleaning is that of an orphan episode with a completion step. */
  lemma {:induction false} CleaningCompleted(c: Codes, es: seq<Event>, k: nat)
    requires k < |AllGroups(c, es)| && HeaderOf(c, AllGroups(c, es)[k]).kind == OfKind(Cleaning)
    ensures var h := HeaderOf(c, AllGroups(c, es)[k]); h.rel != "" && h.rel in PlanOf(c, es).completed
  {
    KindPlaces(c, es, k);
    if k < |FirstGroups(c, es)| {
      FirstHeader(c, es, k);
    } else {
      assert k < |CycleGroups(c, es)|;
      OrphanHeader(c, es, k);
      OrphanGroupAt(c, es, k);
    }
  }

  /** Past the orphan pass no cleaning card shows the event's own episode. */
  lemma {:induction false} PastOwnCleaning(c: Codes, es: seq<Event>, e: Event)
    requires Stage(PlanOf(c, es), e) >= 4
    ensures NoOwnCleaning(Grouped(c, es), e)
  {
    var p := PlanOf(c, es);
    StageMeaning(p, e);
    forall v | v in Grouped(c, es) ensures !OwnCleaning(v.header, e) {
      var k, evs := GroupBehind(c, es, v);
      if v.header.kind == OfKind(Cleaning) {
        CleaningCompleted(c, es, k);
      }
    }
  }

  lemma {:induction false} LateTests(p: Plan, e: Event)
    requires Stage(p, e) >= 3
    ensures !MayHead(p.first.codes, e) && LinkTarget(p.first, e).None? && Closest(AfterVisit, p.first.slots, e).None?
  {
    StageMeaning(p, e);
  }

  lemma {:induction false} LateUnclaimed(c: Codes, es: seq<Event>, e: Event)
    requires e in es && Stage(PlanOf(c, es), e) >= 3
    ensures Unclaimed(c, es, Grouped(c, es), e)
  {
    LateTests(PlanOf(c, es), e);
    NotLinkedAnywhere(c, es, e);
    NoneChosen(c, es, AfterVisit, e);
  }

  // ---- Every line is justified -----------------------------------------------------------

  lemma {:induction false} OwnWithin(c: Codes, es: seq<Event>, k: nat, e: Event)
    requires k < |AllGroups(c, es)| && e in Rest(c, AllGroups(c, es)[k])
    ensures k < |CycleGroups(c, es)| && !AllGroups(c, es)[k].key.LooseCard?
    ensures e in AllGroups(c, es)[k].own && AllGroups(c, es)[k] == CycleGroups(c, es)[k]
  {
    var g := AllGroups(c, es)[k];
    KindPlaces(c, es, k);
    if g.key.LooseCard? || g.key.RowCard? {
      SingleGroup(c, es, k);
    } else {
      SortKeeps(g.own, EventKey);
      assert e in Ordered(g.own);
    }
  }

  lemma {:induction false} OwnEpisode(c: Codes, es: seq<Event>, k: nat, e: Event)
    requires k < |FirstGroups(c, es)| && FirstGroups(c, es)[k].key.EpisodeCard? && e in FirstGroups(c, es)[k].own
    ensures e in es && MayHead(c, e)
    ensures var h := HeaderOf(c, FirstGroups(c, es)[k]); SameEpisode(h, e) && h.kind != OfKind(Cleaning)
  {
    FirstShape(c, es, k);
    FirstHeader(c, es, k);
  }

  lemma {:induction false} StepTests(f: First, e: Event)
    requires OrphanStep(f, e)
    ensures !MayHead(f.codes, e) && LinkTarget(f, e).None? && Closest(AfterVisit, f.slots, e).None?
  {
  }

  lemma {:induction false} StepUnclaimed(c: Codes, es: seq<Event>, e: Event)
    requires e in es && OrphanStep(FirstOf(c, es), e)
    ensures Unclaimed(c, es, Grouped(c, es), e)
  {
    StepTests(FirstOf(c, es), e);
    NotLinkedAnywhere(c, es, e);
    NoneChosen(c, es, AfterVisit, e);
  }

  lemma {:induction false} OwnStep(c: Codes, es: seq<Event>, k: nat, e: Event)
    requires |FirstGroups(c, es)| <= k < |CycleGroups(c, es)| && e in CycleGroups(c, es)[k].own
    ensures e in es && OrphanStep(FirstOf(c, es), e)
    ensures OwnCleaning(HeaderOf(c, CycleGroups(c, es)[k]), e)
  {
    OrphanGroupAt(c, es, k);
    OrphanHeader(c, es, k);
  }

  lemma {:induction false} OwnJustified(c: Codes, es: seq<Event>, k: nat, e: Event)
    requires k < |AllGroups(c, es)| && e in Rest(c, AllGroups(c, es)[k])
    ensures e in es && Justified(c, es, Grouped(c, es), HeaderOf(c, AllGroups(c, es)[k]), e)
  {
    OwnWithin(c, es, k, e);
    KindPlaces(c, es, k);
    if k < |FirstGroups(c, es)| {
      OwnEpisode(c, es, k, e);
    } else {
      OwnStep(c, es, k, e);
      StepUnclaimed(c, es, e);
    }
  }

  lemma {:induction false} SingleGroup(c: Codes, es: seq<Event>, k: nat)
    requires k < |AllGroups(c, es)| && (AllGroups(c, es)[k].key.LooseCard? || AllGroups(c, es)[k].key.RowCard?)
    ensures Rest(c, AllGroups(c, es)[k]) == []
  {
    KindPlaces(c, es, k);
    if k < |FirstGroups(c, es)| {
      FirstShape(c, es, k);
      RestOfOne(c, AllGroups(c, es)[k]);
    } else {
      RowShape(c, es, k);
      RestOfOne(c, AllGroups(c, es)[k]);
    }
  }

  lemma {:induction false} RestOfOne(c: Codes, g: Group)
    requires |g.own| == 1
    ensures Rest(c, g) == []
  {
  }

  lemma {:induction false} RowShape(c: Codes, es: seq<Event>, k: nat)
    requires |CycleGroups(c, es)| <= k < |AllGroups(c, es)|
    ensures |AllGroups(c, es)[k].own| == 1
  {
  }

  lemma {:induction false} SameKeySame(gs: seq<Group>, i: nat, j: nat)
    requires DistinctKeys(gs) && i < |gs| && j < |gs| && gs[i].key == gs[j].key
    ensures i == j
  {
  }

  lemma {:induction false} RulePlaced(c: Codes, es: seq<Event>, w: Window, n: nat)
    requires n < |RuleGroups(c, es, w)|
    ensures n < |AllGroups(c, es)| && AllGroups(c, es)[n] == RuleGroups(c, es, w)[n]
  {
  }

  lemma {:induction false} CloseJustified(c: Codes, es: seq<Event>, w: Window, k: nat, e: Event)
    requires DistinctIds(es) && k < |AllGroups(c, es)|
    requires Closest(w, SlotsOf(c, RuleGroups(c, es, w)), e) == Some(AllGroups(c, es)[k].key)
    ensures ClosestCard(w, Grouped(c, es), HeaderOf(c, AllGroups(c, es)[k]), e)
  {
    AllKeysDistinct(c, es);
    var n := Nearest(w, Headers(SlotsOf(c, RuleGroups(c, es, w))), e).value;
    RulePlaced(c, es, w, n);
    SameKeySame(AllGroups(c, es), n, k);
    ChosenClosest(c, es, w, e, n);
  }

  lemma {:induction false} LinkJustified(c: Codes, es: seq<Event>, k: nat, e: Event)
    requires DistinctIds(es) && k < |AllGroups(c, es)| && e in es && LinkTarget(FirstOf(c, es), e).Some?
    requires AllGroups(c, es)[k].key == EpisodeCard(LinkTarget(FirstOf(c, es), e).value)
    ensures LinkedTo(es, HeaderOf(c, AllGroups(c, es)[k]), e)
  {
    var rels := EpisodeRels(c, es);
    var rel := LinkTarget(FirstOf(c, es), e).value;
    IndexLeads(c, es, rel);
    var n := IndexOf(rels, |rels|)[rel];
    FirstPlaced(c, es, n);
    AllKeysDistinct(c, es);
    SameKeySame(AllGroups(c, es), n, k);
    ParentNamed(c, es, e, rel);
    LinkSeen(c, es, e, n, rel);
  }

  /** What the rule that hung an event consulted. */
  lemma {:induction false} HungBy(p: Plan, e: Event)
    ensures HomeOf(p, e).rule == Linked ==>
      LinkTarget(p.first, e).Some? && HomeOf(p, e).key == EpisodeCard(LinkTarget(p.first, e).value)
    ensures HomeOf(p, e).rule == Nearby ==>
      LinkTarget(p.first, e).None? && Closest(AfterVisit, p.first.slots, e) == Some(HomeOf(p, e).key)
    ensures HomeOf(p, e).rule == Tail ==>
      Stage(p, e) == 4 && Closest(AroundCycle, p.slots, e) == Some(HomeOf(p, e).key)
    ensures HomeOf(p, e).rule != Member ==> !MayHead(p.first.codes, e)
  {
    StageMeaning(p, e);
  }

  lemma {:induction false} TailJustified(c: Codes, es: seq<Event>, k: nat, e: Event)
    requires DistinctIds(es) && k < |AllGroups(c, es)| && e in es && Stage(PlanOf(c, es), e) == 4
    requires Closest(AroundCycle, PlanOf(c, es).slots, e) == Some(AllGroups(c, es)[k].key)
    ensures Unclaimed(c, es, Grouped(c, es), e) && NoOwnCleaning(Grouped(c, es), e)
    ensures ClosestCard(AroundCycle, Grouped(c, es), HeaderOf(c, AllGroups(c, es)[k]), e)
  {
    LateUnclaimed(c, es, e);
    PastOwnCleaning(c, es, e);
    CloseJustified(c, es, AroundCycle, k, e);
  }

  lemma {:induction false} HungJustified(c: Codes, es: seq<Event>, k: nat, e: Event)
    requires DistinctIds(es) && k < |AllGroups(c, es)| && e in es
    requires HomeOf(PlanOf(c, es), e).key == AllGroups(c, es)[k].key && HomeOf(PlanOf(c, es), e).rule != Member
    ensures Justified(c, es, Grouped(c, es), HeaderOf(c, AllGroups(c, es)[k]), e)
  {
    HungBy(PlanOf(c, es), e);
    match HomeOf(PlanOf(c, es), e).rule
    case Linked => LinkJustified(c, es, k, e);
    case Nearby =>
      NotLinkedAnywhere(c, es, e);
      CloseJustified(c, es, AfterVisit, k, e);
    case Tail => TailJustified(c, es, k, e);
  }

  lemma {:induction false} HungWithin(p: Plan, es: seq<Event>, key: Key, e: Event)
    requires e in Hung(p, key, es, es, es)
    ensures e in es && HomeOf(p, e).key == key && HomeOf(p, e).rule != Member
  {
  }

  lemma {:induction false} LineBehind(c: Codes, es: seq<Event>, own: string, evs: seq<Event>, l: Line)
    requires l in GiveMedia(c, es, own, SortBy(LinesOf(c, evs), LineKey))
    ensures exists e :: e in evs && LineShows(c, l, e)
  {
    var lines := LinesOf(c, evs);
    SortKeeps(lines, LineKey);
    var i :| 0 <= i < |lines| && GiveMedia(c, es, own, SortBy(lines, LineKey))[i] == l;
    assert SortBy(lines, LineKey)[i] in lines;
    var j :| 0 <= j < |lines| && lines[j] == SortBy(lines, LineKey)[i];
    assert evs[j] in evs;
  }

  /** Every line of every card is a stored event whose place the strongest applicable rule explains. */
  lemma {:induction false} EveryLineJustified(c: Codes, es: seq<Event>, v: CardView, l: Line)
    requires DistinctIds(es) && v in Grouped(c, es) && l in v.lines
    ensures exists e :: e in es && LineShows(c, l, e) && Justified(c, es, Grouped(c, es), v.header, e)
  {
    var p := PlanOf(c, es);
    var k, evs := GroupBehind(c, es, v);
    LineBehind(c, es, v.header.rel, evs, l);
    var e :| e in evs && LineShows(c, l, e);
    if e in Rest(c, AllGroups(c, es)[k]) {
      OwnJustified(c, es, k, e);
    } else {
      HungWithin(p, es, AllGroups(c, es)[k].key, e);
      HungJustified(c, es, k, e);
    }
  }

  lemma {:induction false} CycleCardKind(c: Codes, es: seq<Event>, k: nat)
    requires k < |CycleGroups(c, es)|
    ensures FinishedCards(PlanOf(c, es), es, CycleGroups(c, es))[k].header.kind != Standalone
  {
    CardHeader(PlanOf(c, es), es, CycleGroups(c, es)[k]);
    if k < |FirstGroups(c, es)| {
      FirstHeader(c, es, k);
    } else {
      OrphanHeader(c, es, k);
    }
  }

  lemma {:induction false} OneOfTwo<T>(x: T, a: seq<T>, b: seq<T>)
    requires x in a + b && forall i :: 0 <= i < |a| ==> a[i] != x
    ensures exists i :: 0 <= i < |b| && b[i] == x
  {
  }

  lemma {:induction false} RowBehind(c: Codes, es: seq<Event>, v: CardView) returns (row: Event)
    requires v in Grouped(c, es) && v.header.kind == Standalone
    ensures row in Rows(PlanOf(c, es), es) && v == CardFor(Standalone, row)
  {
    var p := PlanOf(c, es);
    var cards, rows := FinishedCards(p, es, CycleGroups(c, es)), Rows(p, es);
    AllFinished(c, es, p);
    SortKeeps(FinishedCards(p, es, AllGroups(c, es)), NewestFirst);
    forall k | 0 <= k < |cards| ensures cards[k] != v {
      CycleCardKind(c, es, k);
    }
    OneOfTwo(v, cards, RowViews(rows));
    var k :| 0 <= k < |rows| && RowViews(rows)[k] == v;
    row := rows[k];
  }

  lemma {:induction false} RowUnplaced(c: Codes, es: seq<Event>, e: Event)
    requires e in Rows(PlanOf(c, es), es)
    ensures e in es && Unplaced(c, es, Grouped(c, es), e)
  {
    StageMeaning(PlanOf(c, es), e);
    LateUnclaimed(c, es, e);
    PastOwnCleaning(c, es, e);
    NoneChosen(c, es, AroundCycle, e);
  }

  /** A row of its own stands for a stored event to which no rule applies. */
  lemma {:induction false} EveryRowUnplaced(c: Codes, es: seq<Event>, v: CardView)
    requires v in Grouped(c, es) && v.header.kind == Standalone
    ensures v.lines == [] && exists e :: e in es && e.id == v.id && Unplaced(c, es, Grouped(c, es), e)
  {
    var e := RowBehind(c, es, v);
    RowUnplaced(c, es, e);
  }

  /** On every card, each foreign sub-episode's media is on exactly one line and whole; other lines carry none. */
  lemma {:induction false} MediaOnTimeline(c: Codes, es: seq<Event>, v: CardView, j: nat)
    requires v in Grouped(c, es) && j < |v.lines|
    ensures SessionMedia.CarriedOnce(c, es, v.header.rel, v.lines, j)
  {
    var k, evs := GroupBehind(c, es, v);
    SessionMedia.OneCarrier(c, es, v.header.rel, SortBy(LinesOf(c, evs), LineKey), j);
  }
}
