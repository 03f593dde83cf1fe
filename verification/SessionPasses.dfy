/** What each pass may conclude from the shared state when it meets an event. */
module SessionPasses {
  import opened Common
  import opened Sorting
  import opened SessionSpec
  import opened SessionSteps

  /** `parent in index` finds the episode's card, and that card has the episode's head. */
  lemma {:induction false} IndexLeads(c: Codes, es: seq<Event>, rel: string)
    ensures var rels := EpisodeRels(c, es); var index := IndexOf(rels, |rels|); var gs := FirstGroups(c, es);
      && (rel in index <==> rel in HeadsOf(c, es))
      && (rel in index ==>
            && index[rel] < |gs| && gs[index[rel]].key == EpisodeCard(rel)
            && HeadOf(c, gs[index[rel]]) == HeadsOf(c, es)[rel])
  {
    var rels := EpisodeRels(c, es);
    IndexMeaning(rels, |rels|);
    assert rels[..|rels|] == rels;
    if rel in rels {
      var k :| 0 <= k < |rels| && rels[k] == rel;
      assert FirstGroups(c, es)[k] == EpisodeGroups(c, es)[k];
    }
  }

  function HeadersOf(cards: seq<CardView>): (r: seq<Header>)
    ensures |r| == |cards| && forall k :: 0 <= k < |r| ==> r[k] == cards[k].header
  {
    seq(|cards|, k requires 0 <= k < |cards| => cards[k].header)
  }

  /** Hanging events on cards never changes what the closeness rules see. */
  lemma {:induction false} HeadersShown(p: Plan, gs: seq<Group>, es: seq<Event>, rule: Rule, i: nat)
    requires AllOwn(gs) && i <= |es|
    ensures HeadersOf(Views(p, gs, es, rule, i)) == Headers(SlotsOf(p.first.codes, gs))
  {
  }

  // ---- One event of one pass ------------------------------------------------

  /** The state of the pass for `rule` after `i` events. */
  ghost predicate At(p: Plan, gs: seq<Group>, es: seq<Event>, rule: Rule, i: nat, cards: seq<CardView>, used: set<int>)
    requires AllOwn(gs) && i <= |es|
  {
    cards == Views(p, gs, es, rule, i) && UsedUpTo(p, es, used, PassOf(rule), i)
  }

  lemma {:induction false} HangStep(p: Plan, gs: seq<Group>, es: seq<Event>, rule: Rule, i: nat, cards: seq<CardView>, used: set<int>, k: nat)
    requires DistinctIds(es) && AllOwn(gs) && DistinctKeys(gs) && rule != Member && i < |es| && k < |gs|
    requires At(p, gs, es, rule, i, cards, used)
    requires HomeOf(p, es[i]) == Home(gs[k].key, rule)
    ensures At(p, gs, es, rule, i + 1, cards[k := AttachTo(p.first.codes, cards[k], es[i])], used + {es[i].id})
  {
    ViewsHang(p, gs, es, rule, i, k);
    UsedHang(p, es, used, PassOf(rule), i);
  }

  lemma {:induction false} SkipStep(p: Plan, gs: seq<Group>, es: seq<Event>, rule: Rule, i: nat, cards: seq<CardView>, used: set<int>)
    requires DistinctIds(es) && AllOwn(gs) && rule != Member && i < |es|
    requires At(p, gs, es, rule, i, cards, used)
    requires Stage(p, es[i]) != PassOf(rule)
    ensures At(p, gs, es, rule, i + 1, cards, used)
  {
    ViewsSkip(p, gs, es, rule, i);
    UsedHang(p, es, used, PassOf(rule), i);
  }

  /** The linking pass places an event exactly when its look-up succeeds. */
  lemma {:induction false} LinkTest(c: Codes, es: seq<Event>, e: Event, cards: seq<CardView>, i: nat, p: Plan, index: map<string, nat>)
    requires i <= |es| && cards == Views(p, FirstGroups(c, es), es, Linked, i)
    requires p == PlanOf(c, es) && index == IndexOf(EpisodeRels(c, es), |EpisodeRels(c, es)|)
    requires forall rel :: rel in index ==> index[rel] < |cards|
    ensures var k := LinkedCard(p.first.parents, index, cards, e);
      && (LinkTarget(p.first, e).Some? <==> Attachable(e.kind) && k.Some?)
      && (k.Some? ==> k.value < |cards|)
      && (LinkTarget(p.first, e).Some? ==> FirstGroups(c, es)[k.value].key == EpisodeCard(LinkTarget(p.first, e).value))
  {
    IndexLeads(c, es, ParentOf(p.first, e));
  }

  /** What the loop tests at event `i` decides whether the pass places it, and on which card. */
  lemma {:induction false} LinkDecides(c: Codes, es: seq<Event>, i: nat, cards: seq<CardView>, used: set<int>, p: Plan,
                                       gs: seq<Group>, index: map<string, nat>)
    requires i < |es| && p == PlanOf(c, es) && gs == FirstGroups(c, es) && At(p, gs, es, Linked, i, cards, used)
    requires index == IndexOf(EpisodeRels(c, es), |EpisodeRels(c, es)|)
    requires forall rel :: rel in index ==> index[rel] < |cards|
    ensures var k := LinkedCard(p.first.parents, index, cards, es[i]);
      if es[i].id !in used && Attachable(es[i].kind) && k.Some?
      then k.value < |cards| && HomeOf(p, es[i]) == Home(gs[k.value].key, Linked)
      else Stage(p, es[i]) != PassOf(Linked)
  {
    StageMeaning(p, es[i]);
    LinkTest(c, es, es[i], cards, i, p, index);
  }

  lemma {:induction false} CloseTest(p: Plan, gs: seq<Group>, es: seq<Event>, rule: Rule, i: nat, w: Window, e: Event)
    requires AllOwn(gs) && i <= |es|
    ensures var r := Nearest(w, HeadersOf(Views(p, gs, es, rule, i)), e);
      Closest(w, SlotsOf(p.first.codes, gs), e) == if r.Some? then Some(gs[r.value].key) else None
  {
    HeadersShown(p, gs, es, rule, i);
  }

  // ---- From pass to pass ------------------------------------------------------

  lemma {:induction false} GroupIdsMembers(gs: seq<Group>, i: nat, id: int)
    requires i <= |gs|
    ensures id in IdsOfGroups(gs, i) <==> exists k :: 0 <= k < i && id in IdsIn(gs[k].own)
    decreases i
  {
    if i != 0 {
      GroupIdsMembers(gs, i - 1, id);
    }
  }

  /** After the cards of episodes and loose visits stand, exactly the anchored events are used. */
  lemma {:induction false} FirstUsed(c: Codes, es: seq<Event>, e: Event)
    requires DistinctIds(es) && e in es
    ensures var gs := FirstGroups(c, es); e.id in IdsOfGroups(gs, |gs|) <==> Anchored(c, e)
  {
    var gs := FirstGroups(c, es);
    GroupIdsMembers(gs, |gs|, e.id);
    forall k | 0 <= k < |gs| ensures e.id in IdsIn(gs[k].own) <==> e in gs[k].own {
      FirstIdMeansEvent(c, es, e, k);
    }
    AnchoredOwner(c, es, e);
  }

  lemma {:induction false} FirstIdMeansEvent(c: Codes, es: seq<Event>, e: Event, k: nat)
    requires DistinctIds(es) && e in es && k < |FirstGroups(c, es)|
    ensures e.id in IdsIn(FirstGroups(c, es)[k].own) <==> e in FirstGroups(c, es)[k].own
  {
    var gs, rels := FirstGroups(c, es), EpisodeRels(c, es);
    if k < |rels| {
      assert gs[k] == EpisodeGroups(c, es)[k];
    } else {
      assert gs[k] == LooseGroups(LooseVisits(c, es))[k - |rels|];
      assert LooseVisits(c, es)[k - |rels|] in LooseVisits(c, es);
    }
    IdMeansEvent(es, gs[k].own, e);
  }

  lemma {:induction false} AnchoredOwner(c: Codes, es: seq<Event>, e: Event)
    requires e in es
    ensures var gs := FirstGroups(c, es); (exists k :: 0 <= k < |gs| && e in gs[k].own) <==> Anchored(c, e)
    ensures var gs := FirstGroups(c, es);
      Anchored(c, e) ==> exists k :: 0 <= k < |gs| && e in gs[k].own && gs[k].key == AnchorKey(e)
  {
    var gs := FirstGroups(c, es);
    var rels := EpisodeRels(c, es);
    var ls := LooseVisits(c, es);
    if Anchored(c, e) {
      if e.rel != "" {
        assert e in EpisodeMembers(c, es, e.rel);
        assert e.rel in rels;
        var k :| 0 <= k < |rels| && rels[k] == e.rel;
        assert gs[k] == EpisodeGroups(c, es)[k];
      } else {
        assert e in ls;
        var k :| 0 <= k < |ls| && ls[k] == e;
        assert gs[|rels| + k] == LooseGroups(ls)[k];
      }
    }
    forall k | 0 <= k < |gs| && e in gs[k].own ensures Anchored(c, e) {
      if k < |rels| {
        assert gs[k] == EpisodeGroups(c, es)[k];
        assert rels[k] in rels;
      } else {
        assert gs[k] == LooseGroups(ls)[k - |rels|];
        assert ls[k - |rels|] in ls;
      }
    }
  }

  lemma {:induction false} LinkUsed(c: Codes, es: seq<Event>)
    requires DistinctIds(es)
    ensures var gs := FirstGroups(c, es); UsedUpTo(PlanOf(c, es), es, IdsOfGroups(gs, |gs|), 1, 0)
  {
    var p, ids := PlanOf(c, es), IdsOfGroups(FirstGroups(c, es), |FirstGroups(c, es)|);
    forall j | 0 <= j < |es| ensures es[j].id in ids <==> Stage(p, es[j]) < 1 {
      FirstUsed(c, es, es[j]);
      StageMeaning(p, es[j]);
    }
  }

  /** The linking pass starts from the cards as first made. */
  lemma {:induction false} LinkStarts(c: Codes, es: seq<Event>)
    requires DistinctIds(es)
    ensures var gs := FirstGroups(c, es);
      At(PlanOf(c, es), gs, es, Linked, 0, PlainViews(c, gs, |gs|), IdsOfGroups(gs, |gs|))
  {
    ViewsNext(PlanOf(c, es), FirstGroups(c, es), es);
    LinkUsed(c, es);
  }

  lemma {:induction false} NearbyStarts(p: Plan, gs: seq<Group>, es: seq<Event>, cards: seq<CardView>, used: set<int>)
    requires AllOwn(gs) && At(p, gs, es, Linked, |es|, cards, used)
    ensures At(p, gs, es, Nearby, 0, cards, used)
  {
    ViewsNext(p, gs, es);
  }

  /** Before cleanings get cards, the unused cleanings of an episode are its orphan steps. */
  lemma {:induction false} OrphanTest(p: Plan, gs: seq<Group>, es: seq<Event>, cards: seq<CardView>, used: set<int>, j: nat)
    requires AllOwn(gs) && At(p, gs, es, Nearby, |es|, cards, used) && j < |es|
    ensures OrphanStep(p.first, es[j]) <==> es[j].rel != "" && es[j].id !in used && es[j].kind == Cleaning
  {
    StageMeaning(p, es[j]);
  }

  lemma {:induction false} ClosestKey(w: Window, c: Codes, gs: seq<Group>, e: Event)
    requires AllOwn(gs)
    ensures Closest(w, SlotsOf(c, gs), e).Some? ==>
      exists k :: 0 <= k < |gs| && gs[k].key == Closest(w, SlotsOf(c, gs), e).value
  {
  }

  lemma {:induction false} FirstKeysOnly(c: Codes, es: seq<Event>, k: nat)
    requires k < |FirstGroups(c, es)|
    ensures var key := FirstGroups(c, es)[k].key; key.EpisodeCard? || key.LooseCard?
  {
  }

  /** Links and visits never lead to an orphan card. */
  lemma {:induction false} OrphansOnlyTail(c: Codes, es: seq<Event>, e: Event)
    ensures var h := HomeOf(PlanOf(c, es), e); h.rule == Linked || h.rule == Nearby ==> !h.key.OrphanCard?
  {
    var p := PlanOf(c, es);
    StageMeaning(p, e);
    ClosestKey(AfterVisit, c, FirstGroups(c, es), e);
    if Closest(AfterVisit, p.first.slots, e).Some? {
      var k :| 0 <= k < |FirstGroups(c, es)| && FirstGroups(c, es)[k].key == Closest(AfterVisit, p.first.slots, e).value;
      FirstKeysOnly(c, es, k);
    }
  }

  lemma {:induction false} NoneHaving(p: Plan, es: seq<Event>, home: Home)
    requires forall i :: 0 <= i < |es| ==> HomeOf(p, es[i]) != home
    ensures Having(p, es, home) == []
    decreases |es|
  {
    if es != [] {
      NoneHaving(p, es[..|es| - 1], home);
    }
  }

  /** Nothing but tails is ever hung on an orphan card. */
  lemma {:induction false} OnlyTails(c: Codes, es: seq<Event>, p: Plan, rel: string)
    requires p == PlanOf(c, es)
    ensures HungAt(p, OrphanCard(rel), es, Tail, 0) == []
  {
    forall i | 0 <= i < |es|
      ensures HomeOf(p, es[i]) != Home(OrphanCard(rel), Linked) && HomeOf(p, es[i]) != Home(OrphanCard(rel), Nearby)
    {
      OrphansOnlyTail(c, es, es[i]);
    }
    HavingNothing(p, es, OrphanCard(rel));
  }

  lemma {:induction false} HavingNothing(p: Plan, es: seq<Event>, key: Key)
    requires forall i :: 0 <= i < |es| ==>
      HomeOf(p, es[i]) != Home(key, Linked) && HomeOf(p, es[i]) != Home(key, Nearby)
    ensures HungAt(p, key, es, Tail, 0) == []
  {
    NoneHaving(p, es, Home(key, Linked));
    NoneHaving(p, es, Home(key, Nearby));
  }

  lemma {:induction false} OrphanOwner(f: First, es: seq<Event>, e: Event)
    requires e in es
    ensures var og := OrphanGroups(f, es, OrphanRels(f, es));
      (exists k :: 0 <= k < |og| && e in og[k].own) <==>
        OrphanStep(f, e) && Completed(f.codes, OrphanSteps(f, es, e.rel))
    ensures var og := OrphanGroups(f, es, OrphanRels(f, es));
      forall k :: 0 <= k < |og| && e in og[k].own ==> og[k].key == OrphanCard(e.rel)
  {
    var rels := OrphanRels(f, es);
    var og := OrphanGroups(f, es, rels);
    OrphanGroupsMeaning(f, es);
    forall k | 0 <= k < |og| && e in og[k].own
      ensures OrphanStep(f, e) && Completed(f.codes, OrphanSteps(f, es, e.rel)) && og[k].key == OrphanCard(e.rel)
    {
      assert og[k] in og;
    }
    if OrphanStep(f, e) && Completed(f.codes, OrphanSteps(f, es, e.rel)) {
      assert e.rel in rels;
      var g := Group(OrphanCard(e.rel), OrphanSteps(f, es, e.rel));
      assert g in og;
      var k :| 0 <= k < |og| && og[k] == g;
      assert e in og[k].own;
    }
  }

  lemma {:induction false} OrphansUsed(c: Codes, es: seq<Event>, e: Event)
    requires DistinctIds(es) && e in es
    ensures var f := FirstOf(c, es); var og := OrphanGroups(f, es, OrphanRels(f, es));
      e.id in IdsOfGroups(og, |og|) <==> InOrphanCard(PlanOf(c, es), e)
  {
    var f := FirstOf(c, es);
    var og := OrphanGroups(f, es, OrphanRels(f, es));
    GroupIdsMembers(og, |og|, e.id);
    OrphanGroupsMeaning(f, es);
    forall k | 0 <= k < |og| ensures e.id in IdsIn(og[k].own) <==> e in og[k].own {
      assert og[k] in og;
      IdMeansEvent(es, og[k].own, e);
    }
    OrphanOwner(f, es, e);
  }

  /** Card `k` at the start of the tail pass: hung on by the visit pass, or new. */
  lemma {:induction false} TailView(p: Plan, g: Group, es: seq<Event>)
    requires g.own != []
    ensures Partial(p.first.codes, g, HungAt(p, g.key, es, Tail, 0)) == Partial(p.first.codes, g, HungAt(p, g.key, es, Nearby, |es|))
    ensures HungAt(p, g.key, es, Tail, 0) == [] ==>
      Partial(p.first.codes, g, HungAt(p, g.key, es, Tail, 0)) == Partial(p.first.codes, g, [])
  {
    HungStarts(p, g.key, es);
  }

  lemma {:induction false} TailViews(p: Plan, es: seq<Event>, gs: seq<Group>, og: seq<Group>)
    requires AllOwn(gs) && AllOwn(og) && AllOwn(gs + og)
    requires forall k :: 0 <= k < |og| ==> HungAt(p, og[k].key, es, Tail, 0) == []
    ensures Views(p, gs + og, es, Tail, 0) == Views(p, gs, es, Nearby, |es|) + PlainViews(p.first.codes, og, |og|)
  {
    TailViewsJoin(p, es, gs, og, gs + og, Views(p, gs + og, es, Tail, 0), Views(p, gs, es, Nearby, |es|),
                  PlainViews(p.first.codes, og, |og|));
  }

  lemma {:induction false} TailViewsJoin(p: Plan, es: seq<Event>, gs: seq<Group>, og: seq<Group>, all: seq<Group>,
                                         r: seq<CardView>, a: seq<CardView>, b: seq<CardView>)
    requires AllOwn(gs) && AllOwn(og) && AllOwn(all) && all == gs + og
    requires forall k :: 0 <= k < |og| ==> HungAt(p, og[k].key, es, Tail, 0) == []
    requires r == Views(p, all, es, Tail, 0) && a == Views(p, gs, es, Nearby, |es|)
    requires b == PlainViews(p.first.codes, og, |og|)
    ensures r == a + b
  {
    OldTailViews(p, es, all, gs);
    NewTailViews(p, es, all, gs, og);
    Joined(r, a, b);
  }

  lemma {:induction false} OldTailViews(p: Plan, es: seq<Event>, all: seq<Group>, gs: seq<Group>)
    requires AllOwn(all) && AllOwn(gs) && gs <= all
    ensures forall k :: 0 <= k < |gs| ==> Views(p, all, es, Tail, 0)[k] == Views(p, gs, es, Nearby, |es|)[k]
  {
    forall k | 0 <= k < |gs| ensures Views(p, all, es, Tail, 0)[k] == Views(p, gs, es, Nearby, |es|)[k] {
      TailView(p, gs[k], es);
    }
  }

  lemma {:induction false} NewTailViews(p: Plan, es: seq<Event>, all: seq<Group>, gs: seq<Group>, og: seq<Group>)
    requires AllOwn(all) && AllOwn(og) && all == gs + og
    requires forall k :: 0 <= k < |og| ==> HungAt(p, og[k].key, es, Tail, 0) == []
    ensures forall k :: 0 <= k < |og| ==> Views(p, all, es, Tail, 0)[|gs| + k] == PlainViews(p.first.codes, og, |og|)[k]
  {
    forall k | 0 <= k < |og| ensures Views(p, all, es, Tail, 0)[|gs| + k] == PlainViews(p.first.codes, og, |og|)[k] {
      assert all[|gs| + k] == og[k];
      TailView(p, og[k], es);
      PlainAt(p.first.codes, og, |og|, k);
    }
  }

  lemma {:induction false} Joined<T>(r: seq<T>, a: seq<T>, b: seq<T>)
    requires |r| == |a| + |b|
    requires forall k :: 0 <= k < |a| ==> r[k] == a[k]
    requires forall k :: 0 <= k < |b| ==> r[|a| + k] == b[k]
    ensures r == a + b
  {
    forall k | 0 <= k < |r| ensures r[k] == (a + b)[k] {
      if k >= |a| {
        assert r[|a| + (k - |a|)] == b[k - |a|];
      }
    }
  }

  lemma {:induction false} TailUsed(c: Codes, es: seq<Event>, used: set<int>)
    requires DistinctIds(es) && UsedUpTo(PlanOf(c, es), es, used, 2, |es|)
    ensures var f := FirstOf(c, es); var og := OrphanGroups(f, es, OrphanRels(f, es));
      UsedUpTo(PlanOf(c, es), es, used + IdsOfGroups(og, |og|), 4, 0)
  {
    var p, f := PlanOf(c, es), FirstOf(c, es);
    var ids := IdsOfGroups(OrphanGroups(f, es, OrphanRels(f, es)), |OrphanGroups(f, es, OrphanRels(f, es))|);
    forall j | 0 <= j < |es| ensures es[j].id in used + ids <==> Stage(p, es[j]) < 4 {
      OrphansUsed(c, es, es[j]);
      StageMeaning(p, es[j]);
    }
  }

  lemma {:induction false} OrphansPlain(c: Codes, es: seq<Event>, p: Plan)
    requires p == PlanOf(c, es)
    ensures var og := OrphanGroups(p.first, es, OrphanRels(p.first, es));
      forall k :: 0 <= k < |og| ==> HungAt(p, og[k].key, es, Tail, 0) == []
  {
    var og := OrphanGroups(p.first, es, OrphanRels(p.first, es));
    OrphanGroupsMeaning(p.first, es);
    forall k | 0 <= k < |og| ensures HungAt(p, og[k].key, es, Tail, 0) == [] {
      assert og[k] in og;
      OnlyTails(c, es, p, og[k].key.rel);
    }
  }

  lemma {:induction false} NoSteps(f: First, es: seq<Event>, rel: string)
    requires rel !in OrphanRels(f, es)
    ensures OrphanSteps(f, es, rel) == []
    decreases |es|
  {
    if es != [] {
      NoSteps(f, es[..|es| - 1], rel);
    }
  }

  lemma {:induction false} CompletedKept(c: Codes, own: seq<Event>)
    ensures FirstWith(Ordered(own), c.primaryDone) < |own| <==> Completed(c, own)
  {
    SortKeeps(own, EventKey);
    var o := Ordered(own);
    assert Completed(c, own) <==> exists e :: e in own && e.code in c.primaryDone;
    assert Completed(c, o) <==> exists e :: e in o && e.code in c.primaryDone;
  }

  lemma {:induction false} PlainPrefix(c: Codes, gs: seq<Group>, g: Group, i: nat)
    requires AllOwn(gs) && g.own != [] && AllOwn(gs + [g]) && i <= |gs|
    ensures PlainViews(c, gs + [g], i) == PlainViews(c, gs, i)
    ensures IdsOfGroups(gs + [g], i) == IdsOfGroups(gs, i)
    decreases i
  {
    if i != 0 {
      PlainPrefix(c, gs, g, i - 1);
    }
  }

  /** The cards, their index and the used ids once the first `r` episodes have a card. */
  ghost predicate FirstCards(c: Codes, gs: seq<Group>, rels: seq<string>, r: nat, cards: seq<CardView>,
                             index: map<string, nat>, used: set<int>)
    requires AllOwn(gs) && r <= |rels| && r <= |gs|
  {
    cards == PlainViews(c, gs, r) && index == IndexOf(rels, r) && used == IdsOfGroups(gs, r)
  }

  lemma {:induction false} FirstCardMore(c: Codes, gs: seq<Group>, rels: seq<string>, r: nat, cards: seq<CardView>,
                                         index: map<string, nat>, used: set<int>)
    requires AllOwn(gs) && r < |rels| && r < |gs| && FirstCards(c, gs, rels, r, cards, index, used)
    ensures FirstCards(c, gs, rels, r + 1, cards + [Partial(c, gs[r], [])], index[rels[r] := |cards|], used + IdsIn(gs[r].own))
  {
  }

  /** Cards and used ids once the groups `gs` were added to what was there. */
  ghost predicate Added(c: Codes, base: seq<CardView>, was: set<int>, gs: seq<Group>, cards: seq<CardView>, used: set<int>) {
    AllOwn(gs) && cards == base + PlainViews(c, gs, |gs|) && used == was + IdsOfGroups(gs, |gs|)
  }

  lemma {:induction false} ThenOne<T>(base: seq<T>, xs: seq<T>, x: T)
    ensures base + (xs + [x]) == base + xs + [x]
  {
  }

  lemma {:induction false} PlainSnoc(c: Codes, base: seq<CardView>, gs: seq<Group>, g: Group)
    requires AllOwn(gs) && g.own != []
    ensures AllOwn(gs + [g])
    ensures base + PlainViews(c, gs + [g], |gs| + 1) == base + PlainViews(c, gs, |gs|) + [Partial(c, g, [])]
    ensures IdsOfGroups(gs + [g], |gs| + 1) == IdsOfGroups(gs, |gs|) + IdsIn(g.own)
  {
    assert AllOwn(gs + [g]);
    PlainPrefix(c, gs, g, |gs|);
    ThenOne(base, PlainViews(c, gs, |gs|), Partial(c, g, []));
  }

  /** The card a linked follow-up goes to: the one its parent names, on the device that reported it. */
  function LinkedCard(parents: map<string, string>, index: map<string, nat>, cards: seq<CardView>, e: Event): Option<nat>
    requires forall rel :: rel in index ==> index[rel] < |cards|
  {
    var parent := if e.rel in parents then parents[e.rel] else e.parent;
    if parent in index && cards[index[parent]].header.device == e.device then Some(index[parent]) else None
  }

  lemma {:induction false} IndexInRange(c: Codes, es: seq<Event>)
    ensures var rels := EpisodeRels(c, es);
      forall rel :: rel in IndexOf(rels, |rels|) ==> IndexOf(rels, |rels|)[rel] < |FirstGroups(c, es)|
  {
    var rels := EpisodeRels(c, es);
    forall rel | rel in IndexOf(rels, |rels|) ensures IndexOf(rels, |rels|)[rel] < |FirstGroups(c, es)| {
      IndexLeads(c, es, rel);
    }
  }

  // ---- The end of the run -------------------------------------------------------

  /** No line carries media yet. */
  ghost predicate Bare(v: CardView) {
    forall i :: 0 <= i < |v.lines| ==> v.lines[i].media == []
  }

  lemma {:induction false} SortedBare(v: CardView)
    requires Bare(v)
    ensures forall i :: 0 <= i < |v.lines| ==> SortBy(v.lines, LineKey)[i].media == []
  {
    SortKeeps(v.lines, LineKey);
    forall i | 0 <= i < |v.lines| ensures SortBy(v.lines, LineKey)[i].media == [] {
      assert SortBy(v.lines, LineKey)[i] in SortBy(v.lines, LineKey);
    }
  }

  function RowViews(rows: seq<Event>): (r: seq<CardView>)
    ensures |r| == |rows| && forall i :: 0 <= i < |r| ==> r[i] == CardFor(Standalone, rows[i])
  {
    seq(|rows|, i requires 0 <= i < |rows| => CardFor(Standalone, rows[i]))
  }

  /** The groups start with one per episode of `byRelated`, in the order of `rels`. */
  ghost predicate ByEpisode(gs: seq<Group>, rels: seq<string>, byRelated: map<string, seq<Event>>) {
    && |gs| >= |rels| && AllOwn(gs)
    && forall r :: 0 <= r < |rels| ==>
         && rels[r] in byRelated && gs[r].key == EpisodeCard(rels[r]) && gs[r].own == byRelated[rels[r]]
  }

  /** From position `from` on, the groups are the loose visits. */
  ghost predicate LooseFrom(gs: seq<Group>, from: nat, loose: seq<Event>) {
    && |gs| == from + |loose| && AllOwn(gs)
    && forall i :: 0 <= i < |loose| ==> gs[from + i] == Group(LooseCard(loose[i]), [loose[i]])
  }

  lemma {:induction false} FirstByEpisode(c: Codes, es: seq<Event>, byRelated: map<string, seq<Event>>)
    requires forall rel :: rel in EpisodeRels(c, es) ==> rel in byRelated && byRelated[rel] == EpisodeMembers(c, es, rel)
    ensures ByEpisode(FirstGroups(c, es), EpisodeRels(c, es), byRelated)
  {
    var gs, rels := FirstGroups(c, es), EpisodeRels(c, es);
    forall r | 0 <= r < |rels|
      ensures rels[r] in byRelated && gs[r].key == EpisodeCard(rels[r]) && gs[r].own == byRelated[rels[r]]
    {
      assert gs[r] == EpisodeGroups(c, es)[r] && rels[r] in rels;
    }
  }

  lemma {:induction false} Appended(gs: seq<Group>, ls: seq<Event>)
    requires AllOwn(gs) && AllOwn(gs + LooseGroups(ls))
    ensures LooseFrom(gs + LooseGroups(ls), |gs|, ls)
  {
    forall i | 0 <= i < |ls| ensures (gs + LooseGroups(ls))[|gs| + i] == LooseGroups(ls)[i] {
    }
  }

  lemma {:induction false} FirstLoose(c: Codes, es: seq<Event>)
    ensures LooseFrom(FirstGroups(c, es), |EpisodeRels(c, es)|, LooseVisits(c, es))
  {
    Appended(EpisodeGroups(c, es), LooseVisits(c, es));
  }

  /** What the eligible events split into is what the first cards are made of. */
  lemma {:induction false} FirstInputs(c: Codes, es: seq<Event>, rels: seq<string>, byRelated: map<string, seq<Event>>, loose: seq<Event>)
    requires rels == EpisodeRels(c, AnchorEvents(c, es)) && loose == LooseVisits(c, AnchorEvents(c, es))
    requires byRelated.Keys == set rel | rel in rels
    requires forall rel :: rel in rels ==> byRelated[rel] == EpisodeMembers(c, AnchorEvents(c, es), rel)
    ensures rels == EpisodeRels(c, es)
    ensures ByEpisode(FirstGroups(c, es), rels, byRelated) && LooseFrom(FirstGroups(c, es), |rels|, loose)
  {
    AnchorsSuffice(c, es);
    FirstByEpisode(c, es, byRelated);
    FirstLoose(c, es);
  }

  /** The unused cleanings of an episode are the orphan steps. */
  ghost predicate OrphansUnused(f: First, es: seq<Event>, used: set<int>) {
    forall j :: 0 <= j < |es| ==>
      (OrphanStep(f, es[j]) <==> es[j].rel != "" && es[j].id !in used && es[j].kind == Cleaning)
  }

  lemma {:induction false} OrphanTests(p: Plan, gs: seq<Group>, es: seq<Event>, cards: seq<CardView>, used: set<int>)
    requires AllOwn(gs) && At(p, gs, es, Nearby, |es|, cards, used)
    ensures OrphansUnused(p.first, es, used)
    ensures UsedUpTo(p, es, used, 2, |es|)
  {
    forall j | 0 <= j < |es|
      ensures OrphanStep(p.first, es[j]) <==> es[j].rel != "" && es[j].id !in used && es[j].kind == Cleaning
    {
      OrphanTest(p, gs, es, cards, used, j);
    }
  }

  ghost predicate ByOrphan(f: First, es: seq<Event>, rels: seq<string>, episodes: map<string, seq<Event>>) {
    forall r :: 0 <= r < |rels| ==> rels[r] in episodes && episodes[rels[r]] == OrphanSteps(f, es, rels[r])
  }

  lemma {:induction false} TailStarts(p: Plan, gs: seq<Group>, og: seq<Group>, es: seq<Event>, was: seq<CardView>, cards: seq<CardView>, used: set<int>)
    requires AllOwn(gs) && AllOwn(og) && AllOwn(gs + og)
    requires forall k :: 0 <= k < |og| ==> HungAt(p, og[k].key, es, Tail, 0) == []
    requires was == Views(p, gs, es, Nearby, |es|) && cards == was + PlainViews(p.first.codes, og, |og|)
    requires UsedUpTo(p, es, used, 4, 0)
    ensures At(p, gs + og, es, Tail, 0, cards, used)
  {
    TailViews(p, es, gs, og);
  }

  /** The last attaching pass leaves only the standalone rows unused. */
  lemma {:induction false} TailDone(p: Plan, gs: seq<Group>, es: seq<Event>, cards: seq<CardView>, used: set<int>)
    requires AllOwn(gs) && At(p, gs, es, Tail, |es|, cards, used)
    ensures UsedUpTo(p, es, used, 5, 0)
  {
    forall j | 0 <= j < |es| ensures es[j].id in used <==> Stage(p, es[j]) < 5 {
      assert es[j].id in used <==> Stage(p, es[j]) < PassOf(Tail) || (Stage(p, es[j]) == PassOf(Tail) && j < |es|);
    }
  }

  /** After the last pass each card is as its group and homes determine it, and bare of media. */
  lemma {:induction false} HungCards(p: Plan, gs: seq<Group>, es: seq<Event>)
    requires AllOwn(gs)
    ensures forall k :: 0 <= k < |gs| ==> Views(p, gs, es, Tail, |es|)[k] == CardOf(p, es, gs[k])
    ensures forall k :: 0 <= k < |gs| ==> Bare(CardOf(p, es, gs[k]))
  {
    forall k | 0 <= k < |gs| ensures Views(p, gs, es, Tail, |es|)[k] == CardOf(p, es, gs[k]) {
      HungStarts(p, gs[k].key, es);
    }
  }

  lemma {:induction false} RowsStandAlone(p: Plan, e: Event)
    requires forall i :: 0 <= i < |p.slots| ==> !p.slots[i].key.RowCard?
    requires forall i :: 0 <= i < |p.first.slots| ==> !p.first.slots[i].key.RowCard?
    ensures HomeOf(p, e).key.RowCard? ==> HomeOf(p, e).rule == Member
  {
  }

  lemma {:induction false} RowFinished(p: Plan, es: seq<Event>, row: Event)
    requires forall i :: 0 <= i < |p.slots| ==> !p.slots[i].key.RowCard?
    requires forall i :: 0 <= i < |p.first.slots| ==> !p.first.slots[i].key.RowCard?
    ensures Finish(p.first.codes, es, CardOf(p, es, Group(RowCard(row), [row]))) == CardFor(Standalone, row)
  {
    var g := Group(RowCard(row), [row]);
    OneOrdered(row);
    forall i | 0 <= i < |es| ensures HomeOf(p, es[i]).key == RowCard(row) ==> HomeOf(p, es[i]).rule == Member {
      RowsStandAlone(p, es[i]);
    }
    NoneHaving(p, es, Home(g.key, Linked));
    NoneHaving(p, es, Home(g.key, Nearby));
    NoneHaving(p, es, Home(g.key, Tail));
    assert Hung(p, g.key, es, es, es) == [];
    assert Rest(p.first.codes, g) == [];
    assert LinesOf(p.first.codes, []) == [];
    assert CardOf(p, es, g) == CardFor(Standalone, row);
  }

  lemma {:induction false} NoRowSlots(c: Codes, es: seq<Event>, p: Plan)
    requires p == PlanOf(c, es)
    ensures forall i :: 0 <= i < |p.slots| ==> !p.slots[i].key.RowCard?
    ensures forall i :: 0 <= i < |p.first.slots| ==> !p.first.slots[i].key.RowCard?
  {
    var gs, f := FirstGroups(c, es), FirstOf(c, es);
    var og := OrphanGroups(f, es, OrphanRels(f, es));
    OrphanGroupsMeaning(f, es);
    var all: seq<Group> := gs + og;
    forall i | 0 <= i < |all| ensures !all[i].key.RowCard? {
      if i < |gs| {
        FirstKeysOnly(c, es, i);
      } else {
        assert og[i - |gs|] in og;
      }
    }
    assert forall i :: 0 <= i < |gs| ==> gs[i] == all[i];
  }

  /** The finished cards and the rows together are every card of the Timeline. */
  lemma {:induction false} AllFinished(c: Codes, es: seq<Event>, p: Plan)
    requires p == PlanOf(c, es)
    ensures FinishedCards(p, es, CycleGroups(c, es)) + RowViews(Rows(p, es)) == FinishedCards(p, es, AllGroups(c, es))
  {
    NoRowSlots(c, es, p);
    RowsFinished(p, es, CycleGroups(c, es), Rows(p, es), AllGroups(c, es));
  }

  lemma {:induction false} RowsFinished(p: Plan, es: seq<Event>, gs: seq<Group>, rows: seq<Event>, all: seq<Group>)
    requires AllOwn(gs) && AllOwn(all) && all == gs + RowGroups(rows)
    requires forall i :: 0 <= i < |p.slots| ==> !p.slots[i].key.RowCard?
    requires forall i :: 0 <= i < |p.first.slots| ==> !p.first.slots[i].key.RowCard?
    ensures FinishedCards(p, es, all) == FinishedCards(p, es, gs) + RowViews(rows)
  {
    var cards := FinishedCards(p, es, all);
    forall k | 0 <= k < |rows| ensures cards[|gs| + k] == RowViews(rows)[k] {
      RowFinishedAt(p, es, gs, rows, all, k);
    }
    FirstFinished(p, es, gs, all);
    Joined(cards, FinishedCards(p, es, gs), RowViews(rows));
  }

  lemma {:induction false} RowFinishedAt(p: Plan, es: seq<Event>, gs: seq<Group>, rows: seq<Event>, all: seq<Group>, k: nat)
    requires AllOwn(all) && all == gs + RowGroups(rows) && k < |rows|
    requires forall i :: 0 <= i < |p.slots| ==> !p.slots[i].key.RowCard?
    requires forall i :: 0 <= i < |p.first.slots| ==> !p.first.slots[i].key.RowCard?
    ensures FinishedCards(p, es, all)[|gs| + k] == RowViews(rows)[k]
  {
    assert all[|gs| + k] == Group(RowCard(rows[k]), [rows[k]]);
    RowFinished(p, es, rows[k]);
  }

  lemma {:induction false} FirstFinished(p: Plan, es: seq<Event>, gs: seq<Group>, all: seq<Group>)
    requires AllOwn(gs) && AllOwn(all) && gs <= all
    ensures forall k :: 0 <= k < |gs| ==> FinishedCards(p, es, all)[k] == FinishedCards(p, es, gs)[k]
  {
  }
}
