/**
 Timeline grouping, stated without passes: for every stored event, which card
 it belongs to and by which rule.  `Sessions.dfy` computes the same cards the
 way the program does, pass by pass over shared mutable state.
 */
module SessionSpec {
  import opened Common
  import opened Sorting

  // How long after a visit a cleaning step still belongs to it, and how far
  // apart the two halves of one cleaning may be reported (seconds).
  const SUB_EVENT_WINDOW_SEC: real := 600.0
  const CYCLE_TAIL_WINDOW_SEC: real := 120.0

  datatype Kind = Toilet | Cleaning | Pet | Motion | Error | Feeding | Drinking | Other

  /** A stored row.  A missing or empty episode id or parent id is `""`. */
  datatype Event = Event(
    id: int, ts: Option<real>, rel: string, parent: string, kind: Kind,
    code: string, device: int, deviceType: string, pet: Option<int>, media: seq<int>)

  /** The three code tables the grouping consults. */
  datatype Codes = Codes(anchor: set<string>, primaryDone: set<string>, detail: set<(string, string)>)

  datatype Line = Line(id: int, code: string, ts: Option<real>, rel: string, detail: bool, media: seq<int>)

  datatype CardKind = Visit | OfKind(kind: Kind) | Standalone

  datatype Header = Header(kind: CardKind, rel: string, device: int, ts: Option<real>)

  datatype CardView = CardView(header: Header, id: int, pet: Option<int>, lines: seq<Line>, media: seq<int>)

  /** What a card stands for. */
  datatype Key =
    | EpisodeCard(rel: string)
    | LooseCard(visit: Event)
    | OrphanCard(rel: string)
    | RowCard(row: Event)

  /** Why an event is on its card. */
  datatype Rule = Member | Linked | Nearby | Tail

  datatype Home = Home(key: Key, rule: Rule)

  ghost predicate DistinctIds(es: seq<Event>) {
    forall i, j :: 0 <= i < j < |es| ==> es[i].id != es[j].id
  }

  function TsOr0(ts: Option<real>): real { ts.GetOr(0.0) }

  function EventKey(e: Event): real { TsOr0(e.ts) }

  function LineKey(l: Line): real { TsOr0(l.ts) }

  function NewestFirst(v: CardView): real { -TsOr0(v.header.ts) }

  predicate Detail(c: Codes, e: Event) { (e.code, e.deviceType) in c.detail }

  // ---- Which events may head a card ------------------------------------

  predicate Eligible(c: Codes, e: Event) {
    || e.kind in {Toilet, Feeding, Drinking}
    || (e.kind in {Pet, Motion, Error} && !Detail(c, e))
  }

  predicate Anchored(c: Codes, e: Event) {
    Eligible(c, e) && (e.rel != "" || e.kind == Toilet)
  }

  function AnchorKey(e: Event): Key {
    if e.rel != "" then EpisodeCard(e.rel) else LooseCard(e)
  }

  function EpisodeMembers(c: Codes, es: seq<Event>, rel: string): (r: seq<Event>)
    ensures forall e :: e in r <==> e in es && Eligible(c, e) && e.rel == rel
    decreases |es|
  {
    if es == [] then [] else
      var n := |es| - 1;
      assert es == es[..n] + [es[n]];
      var r := EpisodeMembers(c, es[..n], rel);
      if Eligible(c, es[n]) && es[n].rel == rel then r + [es[n]] else r
  }

  /** The episodes in the order their first eligible event appears. */
  function EpisodeRels(c: Codes, es: seq<Event>): (r: seq<string>)
    ensures NoDup(r)
    ensures forall rel :: rel in r <==> rel != "" && EpisodeMembers(c, es, rel) != []
    decreases |es|
  {
    if es == [] then [] else
      var n := |es| - 1;
      var r := EpisodeRels(c, es[..n]);
      if Eligible(c, es[n]) && es[n].rel != "" && es[n].rel !in r then r + [es[n].rel] else r
  }

  function LooseVisits(c: Codes, es: seq<Event>): (r: seq<Event>)
    ensures forall e :: e in r <==> e in es && e.rel == "" && e.kind == Toilet
    decreases |es|
  {
    if es == [] then [] else
      var n := |es| - 1;
      assert es == es[..n] + [es[n]];
      var r := LooseVisits(c, es[..n]);
      if es[n].rel == "" && es[n].kind == Toilet then r + [es[n]] else r
  }

  // ---- Groups, heads and headers ----------------------------------------

  /** A card about to be built: what it stands for and the events of its own. */
  datatype Group = Group(key: Key, own: seq<Event>)

  ghost predicate AllOwn(gs: seq<Group>) { forall i :: 0 <= i < |gs| ==> gs[i].own != [] }

  function FirstWith(g: seq<Event>, codes: set<string>): (i: nat)
    ensures i <= |g|
    ensures forall j :: 0 <= j < i ==> g[j].code !in codes
    ensures i < |g| ==> g[i].code in codes
    decreases |g|
  {
    if g == [] || g[0].code in codes then 0 else 1 + FirstWith(g[1..], codes)
  }

  function Ordered(es: seq<Event>): seq<Event> { SortBy(es, EventKey) }

  /** Position of the head in an ordered group: its first head code, else its last event. */
  function HeadAt(c: Codes, key: Key, o: seq<Event>): (i: nat)
    requires o != []
    ensures i < |o|
  {
    var i := FirstWith(o, if key.OrphanCard? then c.primaryDone else c.anchor);
    if i < |o| then i else |o| - 1
  }

  function HeadOf(c: Codes, g: Group): Event
    requires g.own != []
  {
    Ordered(g.own)[HeadAt(c, g.key, Ordered(g.own))]
  }

  /** The other events of the group, oldest first. */
  function Rest(c: Codes, g: Group): seq<Event>
    requires g.own != []
  {
    Without(Ordered(g.own), HeadAt(c, g.key, Ordered(g.own)))
  }

  predicate HasToilet(es: seq<Event>) { exists i :: 0 <= i < |es| && es[i].kind == Toilet }

  function KindFor(g: Group, head: Event): CardKind {
    match g.key
    case EpisodeCard(_) => if HasToilet(g.own) then Visit else OfKind(head.kind)
    case LooseCard(_) => Visit
    case OrphanCard(_) => OfKind(Cleaning)
    case RowCard(_) => Standalone
  }

  function HeaderOf(c: Codes, g: Group): Header
    requires g.own != []
  {
    var h := HeadOf(c, g);
    Header(KindFor(g, h), h.rel, h.device, h.ts)
  }

  /** A card as the closeness rules see it. */
  datatype Slot = Slot(key: Key, header: Header)

  function SlotsOf(c: Codes, gs: seq<Group>): (r: seq<Slot>)
    requires AllOwn(gs)
    ensures |r| == |gs|
    ensures forall i :: 0 <= i < |r| ==> r[i] == Slot(gs[i].key, HeaderOf(c, gs[i]))
  {
    seq(|gs|, i requires 0 <= i < |gs| => Slot(gs[i].key, HeaderOf(c, gs[i])))
  }

  function EpisodeGroups(c: Codes, es: seq<Event>): (r: seq<Group>)
    ensures |r| == |EpisodeRels(c, es)|
    ensures forall i :: 0 <= i < |r| ==>
      r[i] == Group(EpisodeCard(EpisodeRels(c, es)[i]), EpisodeMembers(c, es, EpisodeRels(c, es)[i]))
    ensures AllOwn(r)
  {
    var rels := EpisodeRels(c, es);
    assert forall i :: 0 <= i < |rels| ==> rels[i] in rels;
    seq(|rels|, i requires 0 <= i < |rels| => Group(EpisodeCard(rels[i]), EpisodeMembers(c, es, rels[i])))
  }

  function LooseGroups(visits: seq<Event>): (r: seq<Group>)
    ensures |r| == |visits|
    ensures forall i :: 0 <= i < |r| ==> r[i] == Group(LooseCard(visits[i]), [visits[i]])
  {
    seq(|visits|, i requires 0 <= i < |visits| => Group(LooseCard(visits[i]), [visits[i]]))
  }

  /** Episode cards in discovery order, then the visits that name no episode. */
  function FirstGroups(c: Codes, es: seq<Event>): (r: seq<Group>)
    ensures AllOwn(r)
  {
    EpisodeGroups(c, es) + LooseGroups(LooseVisits(c, es))
  }

  // ---- Rule 2: the link the device reported -----------------------------

  predicate NamesParent(e: Event, rel: string) {
    rel != "" && e.rel == rel && e.parent != "" && e.parent != rel
  }

  /** The first parent any event of episode `rel` names, or `""`. */
  function NamedParent(es: seq<Event>, rel: string): (p: string)
    ensures p != "" ==> exists e :: e in es && NamesParent(e, rel) && e.parent == p
    ensures p == "" ==> forall e :: e in es ==> !NamesParent(e, rel)
    decreases |es|
  {
    if es == [] then "" else
      var n := |es| - 1;
      assert es == es[..n] + [es[n]];
      var p := NamedParent(es[..n], rel);
      if p != "" then p else if NamesParent(es[n], rel) then es[n].parent else ""
  }

  predicate Attachable(k: Kind) { k in {Cleaning, Pet, Motion, Error} }

  /** What the rules consult before any cleaning has a card: the parents the
      device named, the head of each episode card, and the cards in order. */
  datatype First = First(codes: Codes, parents: map<string, string>, heads: map<string, Event>, slots: seq<Slot>)

  function ParentsOf(es: seq<Event>): map<string, string> {
    map rel | rel in (set e | e in es :: e.rel) && NamedParent(es, rel) != "" :: NamedParent(es, rel)
  }

  function HeadsOf(c: Codes, es: seq<Event>): map<string, Event> {
    map rel | rel in EpisodeRels(c, es) :: HeadOf(c, Group(EpisodeCard(rel), EpisodeMembers(c, es, rel)))
  }

  function FirstOf(c: Codes, es: seq<Event>): First {
    First(c, ParentsOf(es), HeadsOf(c, es), SlotsOf(c, FirstGroups(c, es)))
  }

  function ParentOf(f: First, e: Event): string {
    if e.rel in f.parents then f.parents[e.rel] else e.parent
  }

  function LinkTarget(f: First, e: Event): Option<string> {
    var p := ParentOf(f, e);
    if Attachable(e.kind) && p in f.heads && f.heads[p].device == e.device then Some(p) else None
  }

  // ---- Rules 3 and 5: closeness in time ---------------------------------

  datatype Window = AfterVisit | AroundCycle

  function Gap(h: Header, e: Event): real {
    var d := TsOr0(e.ts) - TsOr0(h.ts);
    if d < 0.0 then -d else d
  }

  predicate Near(w: Window, h: Header, e: Event) {
    && e.kind == Cleaning && e.ts.Some? && h.ts.Some? && h.device == e.device
    && match w
       case AfterVisit =>
         h.kind == Visit && 0.0 <= e.ts.value - h.ts.value <= SUB_EVENT_WINDOW_SEC
       case AroundCycle =>
         h.kind == OfKind(Cleaning) && h.rel != e.rel && Gap(h, e) <= CYCLE_TAIL_WINDOW_SEC
  }

  /** The first of the closest cards in the window. */
  function Nearest(w: Window, hs: seq<Header>, e: Event): (r: Option<nat>)
    ensures r.None? <==> forall j :: 0 <= j < |hs| ==> !Near(w, hs[j], e)
    ensures r.Some? ==> r.value < |hs| && Near(w, hs[r.value], e)
    ensures r.Some? ==> forall j :: 0 <= j < |hs| && Near(w, hs[j], e) ==> Gap(hs[r.value], e) <= Gap(hs[j], e)
    ensures r.Some? ==> forall j :: 0 <= j < r.value && Near(w, hs[j], e) ==> Gap(hs[r.value], e) < Gap(hs[j], e)
    decreases |hs|
  {
    if hs == [] then None else
      var n := |hs| - 1;
      var r := Nearest(w, hs[..n], e);
      if Near(w, hs[n], e) && (r.None? || Gap(hs[n], e) < Gap(hs[r.value], e)) then Some(n) else r
  }

  function Headers(ss: seq<Slot>): (r: seq<Header>)
    ensures |r| == |ss| && forall i :: 0 <= i < |r| ==> r[i] == ss[i].header
  {
    seq(|ss|, i requires 0 <= i < |ss| => ss[i].header)
  }

  function Closest(w: Window, ss: seq<Slot>, e: Event): Option<Key> {
    var r := Nearest(w, Headers(ss), e);
    if r.Some? then Some(ss[r.value].key) else None
  }

  // ---- Rule 4: cleanings no visit claimed -------------------------------

  predicate OrphanStep(f: First, e: Event) {
    && e.kind == Cleaning && e.rel != ""
    && LinkTarget(f, e).None? && Closest(AfterVisit, f.slots, e).None?
  }

  function OrphanSteps(f: First, es: seq<Event>, rel: string): (r: seq<Event>)
    ensures forall e :: e in r <==> e in es && OrphanStep(f, e) && e.rel == rel
    decreases |es|
  {
    if es == [] then [] else
      var n := |es| - 1;
      assert es == es[..n] + [es[n]];
      var r := OrphanSteps(f, es[..n], rel);
      if OrphanStep(f, es[n]) && es[n].rel == rel then r + [es[n]] else r
  }

  function OrphanRels(f: First, es: seq<Event>): (r: seq<string>)
    ensures NoDup(r)
    ensures forall rel :: rel in r <==> exists e :: e in es && OrphanStep(f, e) && e.rel == rel
    decreases |es|
  {
    if es == [] then [] else
      var n := |es| - 1;
      assert es == es[..n] + [es[n]];
      var r := OrphanRels(f, es[..n]);
      if OrphanStep(f, es[n]) && es[n].rel !in r then r + [es[n].rel] else r
  }

  /** Some step of the group reports a completion, so the group may have a card. */
  predicate Completed(c: Codes, es: seq<Event>) {
    exists i :: 0 <= i < |es| && es[i].code in c.primaryDone
  }

  /** Those of the first `r` orphan episodes that have a completion step. */
  function OrphanGroupsUpTo(f: First, es: seq<Event>, rels: seq<string>, r: nat): (gs: seq<Group>)
    requires r <= |rels|
    ensures AllOwn(gs)
  {
    if r == 0 then [] else
      var gs := OrphanGroupsUpTo(f, es, rels, r - 1);
      var own := OrphanSteps(f, es, rels[r - 1]);
      if Completed(f.codes, own) then gs + [Group(OrphanCard(rels[r - 1]), own)] else gs
  }

  function OrphanGroups(f: First, es: seq<Event>, rels: seq<string>): (gs: seq<Group>)
    ensures AllOwn(gs)
  {
    OrphanGroupsUpTo(f, es, rels, |rels|)
  }

  /** The first cards, the cleaning episodes that have a card, and all those cards together. */
  datatype Plan = Plan(first: First, completed: set<string>, slots: seq<Slot>)

  function CycleGroups(c: Codes, es: seq<Event>): (r: seq<Group>)
    ensures AllOwn(r)
  {
    var f := FirstOf(c, es);
    FirstGroups(c, es) + OrphanGroups(f, es, OrphanRels(f, es))
  }

  function PlanOf(c: Codes, es: seq<Event>): Plan {
    var f := FirstOf(c, es);
    Plan(f,
         (set rel | rel in OrphanRels(f, es) && Completed(c, OrphanSteps(f, es, rel))),
         SlotsOf(c, CycleGroups(c, es)))
  }

  // ---- Where an event belongs -------------------------------------------

  predicate InOrphanCard(p: Plan, e: Event) {
    OrphanStep(p.first, e) && e.rel in p.completed
  }

  /** The first rule that places the event, and the card it places it on. */
  function HomeOf(p: Plan, e: Event): Home {
    if Anchored(p.first.codes, e) then Home(AnchorKey(e), Member)
    else if LinkTarget(p.first, e).Some? then Home(EpisodeCard(LinkTarget(p.first, e).value), Linked)
    else if Closest(AfterVisit, p.first.slots, e).Some? then Home(Closest(AfterVisit, p.first.slots, e).value, Nearby)
    else if InOrphanCard(p, e) then Home(OrphanCard(e.rel), Member)
    else if Closest(AroundCycle, p.slots, e).Some? then Home(Closest(AroundCycle, p.slots, e).value, Tail)
    else Home(RowCard(e), Member)
  }

  function Having(p: Plan, es: seq<Event>, home: Home): (r: seq<Event>)
    ensures forall e :: e in r <==> e in es && HomeOf(p, e) == home
    decreases |es|
  {
    if es == [] then [] else
      var n := |es| - 1;
      assert es == es[..n] + [es[n]];
      var r := Having(p, es[..n], home);
      if HomeOf(p, es[n]) == home then r + [es[n]] else r
  }

  /** The events no rule placed, in input order. */
  function Rows(p: Plan, es: seq<Event>): (r: seq<Event>)
    ensures forall e :: e in r <==> e in es && HomeOf(p, e) == Home(RowCard(e), Member)
    decreases |es|
  {
    if es == [] then [] else
      var n := |es| - 1;
      assert es == es[..n] + [es[n]];
      var r := Rows(p, es[..n]);
      if HomeOf(p, es[n]) == Home(RowCard(es[n]), Member) then r + [es[n]] else r
  }

  function RowGroups(rows: seq<Event>): (r: seq<Group>)
    ensures |r| == |rows|
    ensures forall i :: 0 <= i < |r| ==> r[i] == Group(RowCard(rows[i]), [rows[i]])
  {
    seq(|rows|, i requires 0 <= i < |rows| => Group(RowCard(rows[i]), [rows[i]]))
  }

  /** Every card of the Timeline, with the events of its own. */
  function AllGroups(c: Codes, es: seq<Event>): (r: seq<Group>)
    ensures AllOwn(r)
  {
    CycleGroups(c, es) + RowGroups(Rows(PlanOf(c, es), es))
  }

  // ---- Cards --------------------------------------------------------------

  function LineOf(c: Codes, e: Event): Line {
    Line(e.id, e.code, e.ts, e.rel, Detail(c, e), [])
  }

  function LinesOf(c: Codes, evs: seq<Event>): (r: seq<Line>)
    ensures |r| == |evs| && forall i :: 0 <= i < |r| ==> r[i] == LineOf(c, evs[i])
  {
    seq(|evs|, i requires 0 <= i < |evs| => LineOf(c, evs[i]))
  }

  /** The first identity reported, by the head or by an attached event. */
  function FirstPet(head: Event, evs: seq<Event>): Option<int>
    decreases |evs|
  {
    if evs == [] then head.pet else
      var p := FirstPet(head, evs[..|evs| - 1]);
      if p.Some? then p else evs[|evs| - 1].pet
  }

  /** A card headed by `head` on which `evs` were hung in this order. */
  function Build(c: Codes, kind: CardKind, head: Event, evs: seq<Event>): CardView {
    CardView(Header(kind, head.rel, head.device, head.ts), head.id, FirstPet(head, evs), LinesOf(c, evs), head.media)
  }

  /** The card once `evs` were hung on it after the events of its own. */
  function Partial(c: Codes, g: Group, evs: seq<Event>): CardView
    requires g.own != []
  {
    Build(c, KindFor(g, HeadOf(c, g)), HeadOf(c, g), Rest(c, g) + evs)
  }

  /** What the three attaching passes hang on a card when they have seen `l`, `n` and `t`. */
  function Hung(p: Plan, key: Key, l: seq<Event>, n: seq<Event>, t: seq<Event>): seq<Event> {
    Having(p, l, Home(key, Linked)) + Having(p, n, Home(key, Nearby)) + Having(p, t, Home(key, Tail))
  }

  function CardOf(p: Plan, es: seq<Event>, g: Group): CardView
    requires g.own != []
  {
    Partial(p.first.codes, g, Hung(p, g.key, es, es, es))
  }

  // ---- Media --------------------------------------------------------------

  /** `bucket` followed by those of the first `i` media of `ms` that are new to it. */
  function AppendNew(bucket: seq<int>, ms: seq<int>, i: nat): seq<int>
    requires i <= |ms|
  {
    if i == 0 then bucket else
      var r := AppendNew(bucket, ms, i - 1);
      if ms[i - 1] in r then r else r + [ms[i - 1]]
  }

  /** The media of the first `i` events, those of episode `rel` only, each once. */
  function MediaOf(es: seq<Event>, rel: string, i: nat): seq<int>
    requires i <= |es|
  {
    if i == 0 then [] else
      var r := MediaOf(es, rel, i - 1);
      if es[i - 1].rel == rel then AppendNew(r, es[i - 1].media, |es[i - 1].media|) else r
  }

  /** Positions before `i` of the lines of episode `rel`. */
  function LinesAt(lines: seq<Line>, rel: string, i: nat): (r: seq<nat>)
    requires i <= |lines|
    ensures forall k :: 0 <= k < |r| ==> r[k] < i && lines[r[k]].rel == rel
  {
    if i == 0 then [] else
      var r := LinesAt(lines, rel, i - 1);
      if lines[i - 1].rel == rel then r + [i - 1] else r
  }

  /** The position that carries an episode's media: its first completion line, else its last line. */
  function CarrierIn(c: Codes, lines: seq<Line>, at: seq<nat>): (i: nat)
    requires at != [] && forall k :: 0 <= k < |at| ==> at[k] < |lines|
    ensures i in at
    decreases |at|
  {
    if lines[at[0]].code in c.primaryDone || |at| == 1 then at[0] else CarrierIn(c, lines, at[1..])
  }

  /** The media line `i` carries on a card of episode `own`. */
  function MediaFor(c: Codes, es: seq<Event>, own: string, lines: seq<Line>, i: nat): seq<int>
    requires i < |lines|
  {
    var rel := lines[i].rel;
    var at := LinesAt(lines, rel, |lines|);
    if rel != "" && rel != own && at != [] && CarrierIn(c, lines, at) == i then MediaOf(es, rel, |es|) else []
  }

  function GiveMedia(c: Codes, es: seq<Event>, own: string, lines: seq<Line>): (r: seq<Line>)
    ensures |r| == |lines|
    ensures forall i :: 0 <= i < |r| ==> r[i] == lines[i].(media := MediaFor(c, es, own, lines, i))
  {
    seq(|lines|, i requires 0 <= i < |lines| => lines[i].(media := MediaFor(c, es, own, lines, i)))
  }

  // ---- The whole Timeline ---------------------------------------------------

  function Finish(c: Codes, es: seq<Event>, v: CardView): CardView {
    v.(lines := GiveMedia(c, es, v.header.rel, SortBy(v.lines, LineKey)))
  }

  function FinishedCards(p: Plan, es: seq<Event>, gs: seq<Group>): (r: seq<CardView>)
    requires AllOwn(gs)
    ensures |r| == |gs|
    ensures forall i :: 0 <= i < |r| ==> r[i] == Finish(p.first.codes, es, CardOf(p, es, gs[i]))
  {
    seq(|gs|, i requires 0 <= i < |gs| => Finish(p.first.codes, es, CardOf(p, es, gs[i])))
  }

  function Grouped(c: Codes, es: seq<Event>): seq<CardView> {
    SortBy(FinishedCards(PlanOf(c, es), es, AllGroups(c, es)), NewestFirst)
  }
}
