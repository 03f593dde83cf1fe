/** No event is lost and none is shown twice. */
module SessionConservation {
  import opened Common
  import opened Sorting
  import opened SessionSpec
  import opened SessionSteps
  import opened SessionPasses

  // ---- The ids a Timeline shows ---------------------------------------------

  function LineId(l: Line): int { l.id }

  function EventId(e: Event): int { e.id }

  /** The ids on a card: its head's and one per line. */
  function CardIds(v: CardView): multiset<int> { multiset{v.id} + multiset(Map(LineId, v.lines)) }

  function IdBag(cards: seq<CardView>): multiset<int>
    decreases |cards|
  {
    if cards == [] then multiset{} else CardIds(cards[0]) + IdBag(cards[1..])
  }

  lemma {:induction false} BagWithout(cards: seq<CardView>, k: nat)
    requires k < |cards|
    ensures IdBag(cards) == CardIds(cards[k]) + IdBag(Without(cards, k))
    decreases |cards|
  {
    if k == 0 {
      assert Without(cards, 0) == cards[1..];
    } else {
      BagWithout(cards[1..], k - 1);
      WithoutLater(cards, k);
    }
  }

  lemma {:induction false} BagPermutation(a: seq<CardView>, b: seq<CardView>)
    requires multiset(a) == multiset(b)
    ensures IdBag(a) == IdBag(b)
    decreases |a|
  {
    SameMembers(a, b);
    if a != [] {
      assert a[0] in b;
      var k :| 0 <= k < |b| && b[k] == a[0];
      RemoveAt(a, 0);
      RemoveAt(b, k);
      BagPermutation(Without(a, 0), Without(b, k));
      BagWithout(a, 0);
      BagWithout(b, k);
    }
  }

  // ---- Splitting a list by a key ------------------------------------------------

  /** How many of the first `i` events are `x` and have key `key`. */
  function Homed(es: seq<Event>, ks: seq<Key>, i: nat, key: Key, x: Event): nat
    requires i <= |es| == |ks|
  {
    if i == 0 then 0 else Homed(es, ks, i - 1, key, x) + if ks[i - 1] == key && es[i - 1] == x then 1 else 0
  }

  function Occurs(es: seq<Event>, i: nat, x: Event): nat
    requires i <= |es|
  {
    if i == 0 then 0 else Occurs(es, i - 1, x) + if es[i - 1] == x then 1 else 0
  }

  lemma {:induction false} OccursIsCount(es: seq<Event>, i: nat, x: Event)
    requires i <= |es|
    ensures Occurs(es, i, x) == multiset(es[..i])[x]
    decreases i
  {
    if i != 0 {
      OccursIsCount(es, i - 1, x);
      BagSnoc(es, i - 1);
    }
  }

  ghost predicate KeyAmong(gs: seq<Group>, k: nat, key: Key)
    requires k <= |gs|
  {
    exists m :: 0 <= m < k && gs[m].key == key
  }

  /** How often `x` is among the events of the first `k` cards. */
  function AllHomed(es: seq<Event>, ks: seq<Key>, i: nat, gs: seq<Group>, k: nat, x: Event): nat
    requires i <= |es| == |ks| && k <= |gs|
  {
    if k == 0 then 0 else AllHomed(es, ks, i, gs, k - 1, x) + Homed(es, ks, i, gs[k - 1].key, x)
  }

  lemma {:induction false} OneMoreKey(gs: seq<Group>, k: nat, key: Key)
    requires k < |gs| && DistinctKeys(gs)
    ensures KeyAmong(gs, k + 1, key) <==> KeyAmong(gs, k, key) || gs[k].key == key
    ensures gs[k].key == key ==> !KeyAmong(gs, k, key)
  {
  }

  lemma {:induction false} OneMoreEvent(es: seq<Event>, ks: seq<Key>, i: nat, gs: seq<Group>, k: nat, x: Event)
    requires i < |es| == |ks| && k <= |gs| && DistinctKeys(gs)
    ensures AllHomed(es, ks, i + 1, gs, k, x)
         == AllHomed(es, ks, i, gs, k, x) + if KeyAmong(gs, k, ks[i]) && es[i] == x then 1 else 0
    decreases k
  {
    if k != 0 {
      OneMoreEvent(es, ks, i, gs, k - 1, x);
      OneMoreKey(gs, k - 1, ks[i]);
    }
  }

  lemma {:induction false} NoneHomed(es: seq<Event>, ks: seq<Key>, gs: seq<Group>, k: nat, x: Event)
    requires |es| == |ks| && k <= |gs|
    ensures AllHomed(es, ks, 0, gs, k, x) == 0
    decreases k
  {
    if k != 0 {
      NoneHomed(es, ks, gs, k - 1, x);
    }
  }

  /** Cards with distinct keys that cover every event's key partition the events. */
  lemma {:induction false} Partition(es: seq<Event>, ks: seq<Key>, i: nat, gs: seq<Group>, x: Event)
    requires i <= |es| == |ks| && DistinctKeys(gs)
    requires forall j :: 0 <= j < |ks| ==> KeyAmong(gs, |gs|, ks[j])
    ensures AllHomed(es, ks, i, gs, |gs|, x) == Occurs(es, i, x)
    decreases i
  {
    if i == 0 {
      NoneHomed(es, ks, gs, |gs|, x);
    } else {
      Partition(es, ks, i - 1, gs, x);
      OneMoreEvent(es, ks, i - 1, gs, |gs|, x);
    }
  }

  // ---- The events behind each card --------------------------------------------

  function HomeKeys(p: Plan, es: seq<Event>): (r: seq<Key>)
    ensures |r| == |es| && forall j :: 0 <= j < |r| ==> r[j] == HomeOf(p, es[j]).key
  {
    seq(|es|, j requires 0 <= j < |es| => HomeOf(p, es[j]).key)
  }

  lemma {:induction false} HavingCount(p: Plan, es: seq<Event>, i: nat, home: Home, x: Event)
    requires i < |es|
    ensures multiset(Having(p, es[..i + 1], home))[x]
         == multiset(Having(p, es[..i], home))[x] + if HomeOf(p, es[i]) == home && es[i] == x then 1 else 0
  {
    HavingMore(p, es, i, home);
  }

  /** A card's events are its own and those the three rules hung on it. */
  lemma {:induction false} HomedByRule(p: Plan, es: seq<Event>, i: nat, key: Key, x: Event)
    requires i <= |es|
    ensures Homed(es, HomeKeys(p, es), i, key, x)
         == multiset(Having(p, es[..i], Home(key, Member)))[x] + multiset(Having(p, es[..i], Home(key, Linked)))[x]
            + multiset(Having(p, es[..i], Home(key, Nearby)))[x] + multiset(Having(p, es[..i], Home(key, Tail)))[x]
    decreases i
  {
    if i != 0 {
      HomedByRule(p, es, i - 1, key, x);
      HavingCount(p, es, i - 1, Home(key, Member), x);
      HavingCount(p, es, i - 1, Home(key, Linked), x);
      HavingCount(p, es, i - 1, Home(key, Nearby), x);
      HavingCount(p, es, i - 1, Home(key, Tail), x);
      RuleIsOne(HomeOf(p, es[i - 1]), key);
    }
  }

  lemma {:induction false} RuleIsOne(h: Home, key: Key)
    ensures h.key == key <==>
      h == Home(key, Member) || h == Home(key, Linked) || h == Home(key, Nearby) || h == Home(key, Tail)
  {
    match h.rule
    case Member => assert h == Home(h.key, Member);
    case Linked => assert h == Home(h.key, Linked);
    case Nearby => assert h == Home(h.key, Nearby);
    case Tail => assert h == Home(h.key, Tail);
  }

  // ---- Every home is a card of the Timeline --------------------------------------

  lemma {:induction false} KeyFound(gs: seq<Group>, k: nat, key: Key)
    requires k < |gs| && gs[k].key == key
    ensures KeyAmong(gs, |gs|, key)
  {
  }

  lemma {:induction false} KeyKept(a: seq<Group>, b: seq<Group>, key: Key)
    ensures KeyAmong(a, |a|, key) ==> KeyAmong(a + b, |a + b|, key)
    ensures KeyAmong(b, |b|, key) ==> KeyAmong(a + b, |a + b|, key)
  {
    if KeyAmong(a, |a|, key) {
      var m :| 0 <= m < |a| && a[m].key == key;
      KeyFound(a + b, m, key);
    }
    if KeyAmong(b, |b|, key) {
      var m :| 0 <= m < |b| && b[m].key == key;
      KeyFound(a + b, |a| + m, key);
    }
  }

  lemma {:induction false} FirstHome(c: Codes, es: seq<Event>, p: Plan, e: Event)
    requires p == PlanOf(c, es) && e in es && Stage(p, e) <= 2
    ensures var gs := FirstGroups(c, es); KeyAmong(gs, |gs|, HomeOf(p, e).key)
  {
    var gs := FirstGroups(c, es);
    StageMeaning(p, e);
    if Stage(p, e) == 0 {
      AnchoredOwner(c, es, e);
      assert HomeOf(p, e).key == AnchorKey(e);
    } else if Stage(p, e) == 1 {
      IndexLeads(c, es, LinkTarget(p.first, e).value);
    } else {
      ClosestKey(AfterVisit, c, gs, e);
    }
  }

  lemma {:induction false} LaterHome(c: Codes, es: seq<Event>, p: Plan, e: Event)
    requires p == PlanOf(c, es) && e in es && 3 <= Stage(p, e) <= 4
    ensures var gs := CycleGroups(c, es); KeyAmong(gs, |gs|, HomeOf(p, e).key)
  {
    StageMeaning(p, e);
    if Stage(p, e) == 3 {
      var og := OrphanGroups(p.first, es, OrphanRels(p.first, es));
      OrphanOwner(p.first, es, e);
      var k :| 0 <= k < |og| && e in og[k].own;
      KeyFound(og, k, OrphanCard(e.rel));
      KeyKept(FirstGroups(c, es), og, OrphanCard(e.rel));
    } else {
      ClosestKey(AroundCycle, c, CycleGroups(c, es), e);
    }
  }

  lemma {:induction false} EveryHome(c: Codes, es: seq<Event>, e: Event)
    requires e in es
    ensures var gs := AllGroups(c, es); KeyAmong(gs, |gs|, HomeOf(PlanOf(c, es), e).key)
  {
    var p := PlanOf(c, es);
    var f := FirstOf(c, es);
    var key := HomeOf(p, e).key;
    var rows := Rows(p, es);
    StageMeaning(p, e);
    if Stage(p, e) == 5 {
      assert e in rows;
      var k :| 0 <= k < |rows| && rows[k] == e;
      KeyFound(RowGroups(rows), k, key);
    } else if Stage(p, e) >= 3 {
      LaterHome(c, es, p, e);
    } else {
      FirstHome(c, es, p, e);
      KeyKept(FirstGroups(c, es), OrphanGroups(f, es, OrphanRels(f, es)), key);
    }
    KeyKept(CycleGroups(c, es), RowGroups(rows), key);
  }

  lemma {:induction false} AllKeysDistinct(c: Codes, es: seq<Event>)
    requires DistinctIds(es)
    ensures DistinctKeys(AllGroups(c, es))
  {
    var p := PlanOf(c, es);
    CycleKeysDistinct(c, es);
    RowsDistinct(p, es);
    assert DistinctKeys(RowGroups(Rows(p, es)));
    NoRowGroups(c, es, p);
    DistinctAcross(CycleGroups(c, es), RowGroups(Rows(p, es)));
  }

  lemma {:induction false} NoRowGroups(c: Codes, es: seq<Event>, p: Plan)
    requires p == PlanOf(c, es)
    ensures forall k :: 0 <= k < |CycleGroups(c, es)| ==> !CycleGroups(c, es)[k].key.RowCard?
  {
    NoRowSlots(c, es, p);
    forall k | 0 <= k < |CycleGroups(c, es)| ensures !CycleGroups(c, es)[k].key.RowCard? {
      assert p.slots[k].key == CycleGroups(c, es)[k].key;
    }
  }

  lemma {:induction false} DistinctAcross(a: seq<Group>, b: seq<Group>)
    requires DistinctKeys(a) && DistinctKeys(b)
    requires forall k :: 0 <= k < |a| ==> !a[k].key.RowCard?
    requires forall k :: 0 <= k < |b| ==> b[k].key.RowCard?
    ensures DistinctKeys(a + b)
  {
  }

  // ---- A card's own events are the members of its home ---------------------------

  lemma {:induction false} EpisodeOwn(p: Plan, es: seq<Event>, rel: string)
    requires rel != ""
    ensures EpisodeMembers(p.first.codes, es, rel) == Having(p, es, Home(EpisodeCard(rel), Member))
    decreases |es|
  {
    if es != [] {
      EpisodeOwn(p, es[..|es| - 1], rel);
      StageMeaning(p, es[|es| - 1]);
    }
  }

  lemma {:induction false} OrphanOwn(p: Plan, es: seq<Event>, rel: string)
    requires rel in p.completed
    ensures OrphanSteps(p.first, es, rel) == Having(p, es, Home(OrphanCard(rel), Member))
    decreases |es|
  {
    if es != [] {
      OrphanOwn(p, es[..|es| - 1], rel);
      StageMeaning(p, es[|es| - 1]);
    }
  }

  lemma {:induction false} SingleOwn(p: Plan, es: seq<Event>, home: Home, v: Event)
    requires DistinctIds(es)
    requires forall i :: 0 <= i < |es| ==> (HomeOf(p, es[i]) == home <==> es[i] == v)
    ensures Having(p, es, home) == if v in es then [v] else []
    decreases |es|
  {
    if es != [] {
      var n := |es| - 1;
      SingleOwn(p, es[..n], home, v);
      assert es == es[..n] + [es[n]];
      if es[n] == v {
        assert v !in es[..n];
      }
    }
  }

  lemma {:induction false} LooseHome(p: Plan, e: Event, v: Event)
    requires v.rel == "" && v.kind == Toilet
    ensures HomeOf(p, e) == Home(LooseCard(v), Member) <==> e == v
  {
    StageMeaning(p, e);
  }

  lemma {:induction false} RowHome(p: Plan, e: Event, v: Event)
    requires HomeOf(p, v) == Home(RowCard(v), Member)
    ensures HomeOf(p, e) == Home(RowCard(v), Member) <==> e == v
  {
    StageMeaning(p, e);
  }

  lemma {:induction false} LooseOwn(p: Plan, es: seq<Event>, v: Event)
    requires DistinctIds(es) && v in es && v.rel == "" && v.kind == Toilet
    ensures Having(p, es, Home(LooseCard(v), Member)) == [v]
  {
    forall i | 0 <= i < |es| ensures HomeOf(p, es[i]) == Home(LooseCard(v), Member) <==> es[i] == v {
      LooseHome(p, es[i], v);
    }
    SingleOwn(p, es, Home(LooseCard(v), Member), v);
  }

  lemma {:induction false} FirstShape(c: Codes, es: seq<Event>, k: nat)
    requires k < |FirstGroups(c, es)|
    ensures var rels, ls := EpisodeRels(c, es), LooseVisits(c, es); var g := FirstGroups(c, es)[k];
      if k < |rels| then g == Group(EpisodeCard(rels[k]), EpisodeMembers(c, es, rels[k])) && rels[k] in rels
      else k - |rels| < |ls| && g == Group(LooseCard(ls[k - |rels|]), [ls[k - |rels|]]) && ls[k - |rels|] in ls
  {
  }

  /** A group's own events are those whose home it is. */
  ghost predicate Housed(p: Plan, es: seq<Event>, g: Group) { g.own == Having(p, es, Home(g.key, Member)) }

  lemma {:induction false} EpisodeHoused(p: Plan, es: seq<Event>, rel: string, g: Group)
    requires rel != "" && g == Group(EpisodeCard(rel), EpisodeMembers(p.first.codes, es, rel))
    ensures Housed(p, es, g)
  {
    EpisodeOwn(p, es, rel);
  }

  lemma {:induction false} LooseHoused(p: Plan, es: seq<Event>, v: Event, g: Group)
    requires DistinctIds(es) && v in es && v.rel == "" && v.kind == Toilet && g == Group(LooseCard(v), [v])
    ensures Housed(p, es, g)
  {
    LooseOwn(p, es, v);
  }

  lemma {:induction false} FirstOwn(c: Codes, es: seq<Event>, p: Plan, k: nat)
    requires DistinctIds(es) && p.first.codes == c && k < |FirstGroups(c, es)|
    ensures Housed(p, es, FirstGroups(c, es)[k])
  {
    var rels, ls := EpisodeRels(c, es), LooseVisits(c, es);
    FirstShape(c, es, k);
    if k < |rels| {
      EpisodeHoused(p, es, rels[k], FirstGroups(c, es)[k]);
    } else {
      LooseHoused(p, es, ls[k - |rels|], FirstGroups(c, es)[k]);
    }
  }

  lemma {:induction false} LaterOwn(c: Codes, es: seq<Event>, p: Plan, k: nat)
    requires p == PlanOf(c, es)
    requires k < |OrphanGroups(p.first, es, OrphanRels(p.first, es))|
    ensures var g := OrphanGroups(p.first, es, OrphanRels(p.first, es))[k]; g.own == Having(p, es, Home(g.key, Member))
  {
    var og := OrphanGroups(p.first, es, OrphanRels(p.first, es));
    OrphanGroupsMeaning(p.first, es);
    assert og[k] in og;
    OrphanOwn(p, es, og[k].key.rel);
  }

  lemma {:induction false} RowOwn(p: Plan, es: seq<Event>, k: nat)
    requires DistinctIds(es) && k < |Rows(p, es)|
    ensures var g := RowGroups(Rows(p, es))[k]; g.own == Having(p, es, Home(g.key, Member))
  {
    var v := Rows(p, es)[k];
    assert v in Rows(p, es);
    forall i | 0 <= i < |es| ensures HomeOf(p, es[i]) == Home(RowCard(v), Member) <==> es[i] == v {
      RowHome(p, es[i], v);
    }
    SingleOwn(p, es, Home(RowCard(v), Member), v);
  }

  ghost predicate OwnHoused(p: Plan, es: seq<Event>, gs: seq<Group>) {
    forall k :: 0 <= k < |gs| ==> Housed(p, es, gs[k])
  }

  lemma {:induction false} OwnAcross(p: Plan, es: seq<Event>, a: seq<Group>, b: seq<Group>)
    requires OwnHoused(p, es, a) && OwnHoused(p, es, b)
    ensures OwnHoused(p, es, a + b)
  {
  }

  lemma {:induction false} AllOwnHoused(c: Codes, es: seq<Event>, p: Plan)
    requires DistinctIds(es) && p == PlanOf(c, es)
    ensures OwnHoused(p, es, AllGroups(c, es))
  {
    var gs, og, rg := FirstGroups(c, es), OrphanGroups(p.first, es, OrphanRels(p.first, es)), RowGroups(Rows(p, es));
    forall k | 0 <= k < |gs| ensures gs[k].own == Having(p, es, Home(gs[k].key, Member)) {
      FirstOwn(c, es, p, k);
    }
    forall k | 0 <= k < |og| ensures og[k].own == Having(p, es, Home(og[k].key, Member)) {
      LaterOwn(c, es, p, k);
    }
    forall k | 0 <= k < |rg| ensures rg[k].own == Having(p, es, Home(rg[k].key, Member)) {
      RowOwn(p, es, k);
    }
    OwnAcross(p, es, gs, og);
    OwnAcross(p, es, gs + og, rg);
  }

  // ---- From events to the ids shown ------------------------------------------------

  /** The events shown on a card. */
  function Shown(p: Plan, es: seq<Event>, g: Group): seq<Event> { g.own + Hung(p, g.key, es, es, es) }

  lemma {:induction false} HeadAndRest(c: Codes, g: Group)
    requires g.own != []
    ensures multiset(g.own) == multiset{HeadOf(c, g)} + multiset(Rest(c, g))
  {
    SortCorrect(g.own, EventKey);
    RemoveAt(Ordered(g.own), HeadAt(c, g.key, Ordered(g.own)));
  }

  lemma {:induction false} LinesShow(c: Codes, es: seq<Event>, own: string, evs: seq<Event>)
    ensures multiset(Map(LineId, GiveMedia(c, es, own, SortBy(LinesOf(c, evs), LineKey)))) == multiset(Map(EventId, evs))
  {
    var lines := LinesOf(c, evs);
    var sorted := SortBy(lines, LineKey);
    assert Map(LineId, GiveMedia(c, es, own, sorted)) == Map(LineId, sorted);
    assert Map(LineId, lines) == Map(EventId, evs);
    SortCorrect(lines, LineKey);
    MapPermutation(LineId, sorted, lines);
  }

  lemma {:induction false} IdsWithHead(head: Event, rest: seq<Event>, own: seq<Event>, hung: seq<Event>)
    requires multiset(own) == multiset{head} + multiset(rest)
    ensures multiset{head.id} + multiset(Map(EventId, rest + hung)) == multiset(Map(EventId, own + hung))
  {
    assert multiset([head] + rest) == multiset(own);
    MapPermutation(EventId, [head] + rest, own);
    MapConcat(EventId, [head], rest);
    MapConcat(EventId, rest, hung);
    MapConcat(EventId, own, hung);
    assert Map(EventId, [head]) == [head.id];
  }

  lemma {:induction false} CardShows(p: Plan, es: seq<Event>, g: Group)
    requires g.own != []
    ensures CardIds(Finish(p.first.codes, es, CardOf(p, es, g))) == multiset(Map(EventId, Shown(p, es, g)))
  {
    var c, hung := p.first.codes, Hung(p, g.key, es, es, es);
    var head, rest := HeadOf(c, g), Rest(c, g);
    HeadAndRest(c, g);
    IdsWithHead(head, rest, g.own, hung);
    BuiltShows(c, es, KindFor(g, head), head, rest + hung);
  }

  lemma {:induction false} BuiltShows(c: Codes, es: seq<Event>, kind: CardKind, head: Event, evs: seq<Event>)
    ensures CardIds(Finish(c, es, Build(c, kind, head, evs))) == multiset{head.id} + multiset(Map(EventId, evs))
  {
    LinesShow(c, es, head.rel, evs);
  }

  lemma {:induction false} BagConcat<T>(xs: seq<T>, ys: seq<T>)
    ensures multiset(xs + ys) == multiset(xs) + multiset(ys)
  {
  }

  lemma {:induction false} ShownIsHomed(p: Plan, es: seq<Event>, g: Group, x: Event)
    requires g.own == Having(p, es, Home(g.key, Member))
    ensures multiset(Shown(p, es, g))[x] == Homed(es, HomeKeys(p, es), |es|, g.key, x)
  {
    HomedByRule(p, es, |es|, g.key, x);
    assert es[..|es|] == es;
  }

  /** The first `k` lists, one after the other. */
  function Flatten<T>(parts: seq<seq<T>>, k: nat): seq<T>
    requires k <= |parts|
  {
    if k == 0 then [] else Flatten(parts, k - 1) + parts[k - 1]
  }

  function ShownParts(p: Plan, es: seq<Event>, gs: seq<Group>): (r: seq<seq<Event>>)
    ensures |r| == |gs| && forall k :: 0 <= k < |r| ==> r[k] == Shown(p, es, gs[k])
  {
    seq(|gs|, k requires 0 <= k < |gs| => Shown(p, es, gs[k]))
  }

  lemma {:induction false} FlattenCounts(es: seq<Event>, ks: seq<Key>, gs: seq<Group>, parts: seq<seq<Event>>, k: nat, x: Event)
    requires |es| == |ks| && |parts| == |gs| && k <= |gs|
    requires forall m :: 0 <= m < |gs| ==> multiset(parts[m])[x] == Homed(es, ks, |es|, gs[m].key, x)
    ensures multiset(Flatten(parts, k))[x] == AllHomed(es, ks, |es|, gs, k, x)
    decreases k
  {
    if k != 0 {
      FlattenCounts(es, ks, gs, parts, k - 1, x);
      BagConcat(Flatten(parts, k - 1), parts[k - 1]);
    }
  }

  lemma {:induction false} ShownAreHomed(p: Plan, es: seq<Event>, gs: seq<Group>, parts: seq<seq<Event>>, x: Event)
    requires OwnHoused(p, es, gs) && parts == ShownParts(p, es, gs)
    ensures multiset(Flatten(parts, |parts|))[x] == AllHomed(es, HomeKeys(p, es), |es|, gs, |gs|, x)
  {
    forall m | 0 <= m < |gs| ensures multiset(parts[m])[x] == Homed(es, HomeKeys(p, es), |es|, gs[m].key, x) {
      ShownIsHomed(p, es, gs[m], x);
    }
    FlattenCounts(es, HomeKeys(p, es), gs, parts, |gs|, x);
  }

  lemma {:induction false} BagSnocCard(cards: seq<CardView>, k: nat)
    requires k < |cards|
    ensures IdBag(cards[..k + 1]) == IdBag(cards[..k]) + CardIds(cards[k])
  {
    BagWithout(cards[..k + 1], k);
    assert Without(cards[..k + 1], k) == cards[..k];
  }

  /** Each card shows the ids of its part. */
  ghost predicate Shows(cards: seq<CardView>, parts: seq<seq<Event>>) {
    |cards| == |parts| && forall i :: 0 <= i < |cards| ==> ShowsPart(cards[i], parts[i])
  }

  ghost predicate ShowsPart(card: CardView, part: seq<Event>) { CardIds(card) == multiset(Map(EventId, part)) }

  lemma {:induction false} BagIsShown(cards: seq<CardView>, parts: seq<seq<Event>>, k: nat, shown: seq<CardView>)
    requires Shows(cards, parts) && k <= |parts| && shown == cards[..k]
    ensures IdBag(shown) == multiset(Map(EventId, Flatten(parts, k)))
    decreases k
  {
    if k != 0 {
      var before := cards[..k - 1];
      BagIsShown(cards, parts, k - 1, before);
      BagSnocCard(cards, k - 1);
      assert ShowsPart(cards[k - 1], parts[k - 1]);
      EventsAppend(Flatten(parts, k - 1), parts[k - 1]);
      assert IdBag(shown) == IdBag(before) + CardIds(cards[k - 1]);
    }
  }

  lemma {:induction false} EventsAppend(a: seq<Event>, b: seq<Event>)
    ensures multiset(Map(EventId, a + b)) == multiset(Map(EventId, a)) + multiset(Map(EventId, b))
  {
    MapConcat(EventId, a, b);
  }

  lemma {:induction false} FinishedShow(p: Plan, es: seq<Event>, gs: seq<Group>, parts: seq<seq<Event>>)
    requires AllOwn(gs) && parts == ShownParts(p, es, gs)
    ensures IdBag(FinishedCards(p, es, gs)) == multiset(Map(EventId, Flatten(parts, |parts|)))
  {
    var cards := FinishedCards(p, es, gs);
    forall i | 0 <= i < |cards| ensures ShowsPart(cards[i], parts[i]) {
      CardShows(p, es, gs[i]);
    }
    assert cards[..|gs|] == cards;
    BagIsShown(cards, parts, |gs|, cards);
  }

  /** The cards together show each stored event once. */
  lemma {:induction false} AllShown(c: Codes, es: seq<Event>, p: Plan, gs: seq<Group>, parts: seq<seq<Event>>)
    requires DistinctIds(es) && p == PlanOf(c, es) && gs == AllGroups(c, es) && parts == ShownParts(p, es, gs)
    ensures multiset(Flatten(parts, |parts|)) == multiset(es)
  {
    AllKeysDistinct(c, es);
    AllOwnHoused(c, es, p);
    forall j | 0 <= j < |es| ensures KeyAmong(gs, |gs|, HomeOf(p, es[j]).key) {
      EveryHome(c, es, es[j]);
    }
    assert es[..|es|] == es;
    forall x ensures multiset(Flatten(parts, |parts|))[x] == multiset(es)[x] {
      Partition(es, HomeKeys(p, es), |es|, gs, x);
      ShownAreHomed(p, es, gs, parts, x);
      OccursIsCount(es, |es|, x);
    }
  }

  /** Every stored event appears exactly once on the Timeline, as a card's head or
      as one of its lines, and nothing else appears. */
  lemma {:induction false} Conservation(c: Codes, es: seq<Event>)
    requires DistinctIds(es)
    ensures IdBag(Grouped(c, es)) == multiset(Map(EventId, es))
    ensures forall id :: IdBag(Grouped(c, es))[id] == if exists e :: e in es && e.id == id then 1 else 0
  {
    var p, gs := PlanOf(c, es), AllGroups(c, es);
    var parts := ShownParts(p, es, gs);
    AllShown(c, es, p, gs, parts);
    FinishedShow(p, es, gs, parts);
    MapPermutation(EventId, Flatten(parts, |parts|), es);
    SortCorrect(FinishedCards(p, es, gs), NewestFirst);
    BagPermutation(FinishedCards(p, es, gs), Grouped(c, es));
    forall id ensures multiset(Map(EventId, es))[id] == if exists e :: e in es && e.id == id then 1 else 0 {
      OnceEach(es, id);
    }
  }

  lemma {:induction false} OnceEach(es: seq<Event>, id: int)
    requires DistinctIds(es)
    ensures multiset(Map(EventId, es))[id] == if exists e :: e in es && e.id == id then 1 else 0
    decreases |es|
  {
    if es != [] {
      var n := |es| - 1;
      OnceEach(es[..n], id);
      assert es == es[..n] + [es[n]];
      MapConcat(EventId, es[..n], [es[n]]);
      assert Map(EventId, [es[n]]) == [es[n].id];
    }
  }
}
