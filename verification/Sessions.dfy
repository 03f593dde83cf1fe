/** The grouping as the program runs it: passes over a shared set of used ids and a shared list of growing cards. */
module Sessions {
  import opened Common
  import opened Sorting
  import opened SessionSpec
  import opened SessionSteps
  import opened SessionPasses
  import SessionMedia

  class Timeline {
    const codes: Codes
    var used: set<int>
    var cards: seq<CardView>
    // Where the card of each episode stands in `cards`.
    var index: map<string, nat>

    constructor (codes: Codes)
      ensures this.codes == codes && used == {} && cards == [] && index == map[]
    {
      this.codes := codes;
      used, cards, index := {}, [], map[];
    }

    method Attach(k: nat, e: Event)
      requires k < |cards|
      modifies this`used, this`cards
      ensures used == old(used) + {e.id}
      ensures cards == old(cards)[k := AttachTo(codes, old(cards)[k], e)]
    {
      used := used + {e.id};
      var card := cards[k];
      if card.pet.None? && e.pet.Some? {
        card := card.(pet := e.pet);
      }
      cards := cards[k := card.(lines := card.lines + [LineOf(codes, e)])];
    }

    /** A card for the head of an ordered group, then every other event of the group hung on it. */
    method AddCard(kind: CardKind, group: seq<Event>, head: nat)
      requires head < |group|
      modifies this`used, this`cards
      ensures cards == old(cards) + [AttachUpTo(codes, CardFor(kind, group[head]), group, head, |group|)]
      ensures used == old(used) + {group[head].id} + IdsIn(group)
    {
      var k := |cards|;
      used := used + {group[head].id};
      cards := cards + [CardFor(kind, group[head])];
      var i := 0;
      while i < |group|
        invariant i <= |group|
        invariant cards == old(cards) + [AttachUpTo(codes, CardFor(kind, group[head]), group, head, i)]
        invariant used == old(used) + {group[head].id} + IdsUpTo(group, i)
      {
        if i != head {
          Attach(k, group[i]);
        }
        i := i + 1;
      }
    }

    /** The eligible events by episode, and the visits that name none. */
    method EpisodesOf(anchors: seq<Event>) returns (rels: seq<string>, byRelated: map<string, seq<Event>>, loose: seq<Event>)
      requires forall e :: e in anchors ==> Eligible(codes, e)
      ensures rels == EpisodeRels(codes, anchors)
      ensures byRelated.Keys == set rel | rel in rels
      ensures forall rel :: rel in rels ==> byRelated[rel] == EpisodeMembers(codes, anchors, rel)
      ensures loose == LooseVisits(codes, anchors)
    {
      rels, byRelated, loose := [], map[], [];
      for i := 0 to |anchors|
        invariant rels == EpisodeRels(codes, anchors[..i])
        invariant byRelated.Keys == set rel | rel in rels
        invariant forall rel :: rel in rels ==> byRelated[rel] == EpisodeMembers(codes, anchors[..i], rel)
        invariant loose == LooseVisits(codes, anchors[..i])
      {
        var e := anchors[i];
        assert anchors[..i + 1][..i] == anchors[..i];
        if e.rel != "" {
          if e.rel !in byRelated {
            assert EpisodeMembers(codes, anchors[..i], e.rel) == [];
            byRelated := byRelated[e.rel := []];
            rels := rels + [e.rel];
          }
          byRelated := byRelated[e.rel := byRelated[e.rel] + [e]];
        } else if e.kind == Toilet {
          loose := loose + [e];
        }
      }
      assert anchors[..|anchors|] == anchors;
    }

    /** One card per episode, headed by its first head code or else its last event. */
    method CardsFromEpisodes(ghost gs: seq<Group>, rels: seq<string>, byRelated: map<string, seq<Event>>)
      requires ByEpisode(gs, rels, byRelated)
      requires cards == [] && index == map[] && used == {}
      modifies this
      ensures cards == PlainViews(codes, gs, |rels|)
      ensures index == IndexOf(rels, |rels|) && used == IdsOfGroups(gs, |rels|)
    {
      for r := 0 to |rels|
        invariant FirstCards(codes, gs, rels, r, cards, index, used)
      {
        var own := byRelated[rels[r]];
        ghost var before := (cards, index, used);
        EpisodeCardFor(gs[r], rels[r], own);
        FirstCardMore(codes, gs, rels, r, before.0, before.1, before.2);
      }
    }

    method EpisodeCardFor(ghost g: Group, rel: string, own: seq<Event>)
      requires g.key.EpisodeCard? && g.own == own && own != []
      modifies this
      ensures index == old(index)[rel := |old(cards)|]
      ensures cards == old(cards) + [Partial(codes, g, [])]
      ensures used == old(used) + IdsIn(own)
    {
      var group := Ordered(own);
      var i := FirstWith(group, codes.anchor);
      var head := if i < |group| then i else |group| - 1;
      var kind := if HasToilet(group) then Visit else OfKind(group[head].kind);
      GroupCard(codes, g);
      HeadUsed(group, head);
      index := index[rel := |cards|];
      AddCard(kind, group, head);
    }

    /** A card for each visit that names no episode. */
    method CardsFromLooseVisits(ghost gs: seq<Group>, ghost from: nat, loose: seq<Event>)
      requires LooseFrom(gs, from, loose)
      requires cards == PlainViews(codes, gs, from) && used == IdsOfGroups(gs, from)
      modifies this`used, this`cards
      ensures cards == PlainViews(codes, gs, |gs|) && used == IdsOfGroups(gs, |gs|)
    {
      for i := 0 to |loose|
        invariant cards == PlainViews(codes, gs, from + i) && used == IdsOfGroups(gs, from + i)
      {
        LooseCardFor(gs[from + i], loose[i]);
      }
    }

    method LooseCardFor(ghost g: Group, visit: Event)
      requires g == Group(LooseCard(visit), [visit])
      modifies this`used, this`cards
      ensures cards == old(cards) + [Partial(codes, g, [])]
      ensures used == old(used) + IdsIn(g.own)
    {
      OneOrdered(visit);
      GroupCard(codes, g);
      HeadUsed([visit], 0);
      AddCard(Visit, [visit], 0);
    }

    method EpisodeParents(es: seq<Event>) returns (parents: map<string, string>)
      ensures parents == ParentsOf(es)
    {
      parents := map[];
      for i := 0 to |es|
        invariant ShowsParents(es[..i], parents)
      {
        ParentsMore(es, i, parents);
        if es[i].rel != "" && es[i].parent != "" && es[i].rel != es[i].parent && es[i].rel !in parents {
          parents := parents[es[i].rel := es[i].parent];
        }
      }
      assert es[..|es|] == es;
      ParentsExact(es, parents);
    }

    // ---- Events hung on the cards that stand -----------------------------------

    /** The follow-ups the device linked itself, confined to the device that reported them. */
    method AttachLinkedFollowups(es: seq<Event>, parents: map<string, string>, ghost p: Plan, ghost gs: seq<Group>)
      requires DistinctIds(es) && p == PlanOf(codes, es) && gs == FirstGroups(codes, es) && DistinctKeys(gs)
      requires parents == p.first.parents && index == IndexOf(EpisodeRels(codes, es), |EpisodeRels(codes, es)|)
      requires At(p, gs, es, Linked, 0, cards, used)
      modifies this`used, this`cards
      ensures At(p, gs, es, Linked, |es|, cards, used)
    {
      IndexInRange(codes, es);
      for i := 0 to |es|
        invariant At(p, gs, es, Linked, i, cards, used)
      {
        LinkOne(es, i, parents, p, gs);
      }
    }

    method LinkOne(es: seq<Event>, i: nat, parents: map<string, string>, ghost p: Plan, ghost gs: seq<Group>)
      requires DistinctIds(es) && p == PlanOf(codes, es) && gs == FirstGroups(codes, es) && DistinctKeys(gs)
      requires parents == p.first.parents && index == IndexOf(EpisodeRels(codes, es), |EpisodeRels(codes, es)|)
      requires i < |es| && At(p, gs, es, Linked, i, cards, used) && forall rel :: rel in index ==> index[rel] < |gs|
      modifies this`used, this`cards
      ensures At(p, gs, es, Linked, i + 1, cards, used)
    {
      var e := es[i];
      assert |cards| == |gs|;
      LinkDecides(codes, es, i, cards, used, p, gs, index);
      var k := LinkedCard(parents, index, cards, e);
      if e.id !in used && Attachable(e.kind) && k.Some? {
        HangStep(p, gs, es, Linked, i, cards, used, k.value);
        Attach(k.value, e);
      } else {
        SkipStep(p, gs, es, Linked, i, cards, used);
      }
    }

    /** A cleaning step the device did not link goes to the closest visit it closely followed. */
    method AttachNearbyCleanings(es: seq<Event>, ghost p: Plan, ghost gs: seq<Group>)
      requires DistinctIds(es) && AllOwn(gs) && DistinctKeys(gs)
      requires p.first.codes == codes && p.first.slots == SlotsOf(codes, gs)
      requires At(p, gs, es, Nearby, 0, cards, used)
      modifies this`used, this`cards
      ensures At(p, gs, es, Nearby, |es|, cards, used)
    {
      for i := 0 to |es|
        invariant At(p, gs, es, Nearby, i, cards, used)
      {
        var e := es[i];
        StageMeaning(p, e);
        CloseTest(p, gs, es, Nearby, i, AfterVisit, e);
        var nearest := Nearest(AfterVisit, HeadersOf(cards), e);
        if e.id !in used && nearest.Some? {
          HangStep(p, gs, es, Nearby, i, cards, used, nearest.value);
          Attach(nearest.value, e);
        } else {
          SkipStep(p, gs, es, Nearby, i, cards, used);
        }
      }
    }

    /** The second half of a cleaning that the device filed as its own episode. */
    method AttachCycleTails(es: seq<Event>, ghost p: Plan, ghost gs: seq<Group>)
      requires DistinctIds(es) && AllOwn(gs) && DistinctKeys(gs)
      requires p.first.codes == codes && p.slots == SlotsOf(codes, gs)
      requires At(p, gs, es, Tail, 0, cards, used)
      modifies this`used, this`cards
      ensures At(p, gs, es, Tail, |es|, cards, used)
    {
      for i := 0 to |es|
        invariant At(p, gs, es, Tail, i, cards, used)
      {
        var e := es[i];
        StageMeaning(p, e);
        CloseTest(p, gs, es, Tail, i, AroundCycle, e);
        var nearest := Nearest(AroundCycle, HeadersOf(cards), e);
        if e.id !in used && nearest.Some? {
          HangStep(p, gs, es, Tail, i, cards, used, nearest.value);
          Attach(nearest.value, e);
        } else {
          SkipStep(p, gs, es, Tail, i, cards, used);
        }
      }
    }

    // ---- Cleanings no visit claimed ----------------------------------------------

    method OrphanEpisodes(es: seq<Event>, ghost f: First) returns (rels: seq<string>, episodes: map<string, seq<Event>>)
      requires OrphansUnused(f, es, used)
      ensures rels == OrphanRels(f, es) && ByOrphan(f, es, rels, episodes)
    {
      rels, episodes := [], map[];
      for i := 0 to |es|
        invariant rels == OrphanRels(f, es[..i])
        invariant forall rel :: rel in episodes <==> rel in rels
        invariant forall rel :: rel in episodes ==> episodes[rel] == OrphanSteps(f, es[..i], rel)
      {
        var e := es[i];
        Snoc(es, i);
        if e.rel != "" && e.id !in used && e.kind == Cleaning {
          if e.rel !in episodes {
            NoSteps(f, es[..i], e.rel);
            episodes := episodes[e.rel := []];
            rels := rels + [e.rel];
          }
          episodes := episodes[e.rel := episodes[e.rel] + [e]];
        }
      }
      assert es[..|es|] == es;
    }

    /** A card per orphan episode, headed by its first completion step; none without one. */
    method CardsFromOrphanCleanings(es: seq<Event>, rels: seq<string>, episodes: map<string, seq<Event>>, ghost f: First)
      requires f.codes == codes
      requires forall r :: 0 <= r < |rels| ==> rels[r] in episodes && episodes[rels[r]] == OrphanSteps(f, es, rels[r])
      modifies this
      ensures var og := OrphanGroups(f, es, rels);
        cards == old(cards) + PlainViews(codes, og, |og|) && used == old(used) + IdsOfGroups(og, |og|)
    {
      ghost var og := [];
      for r := 0 to |rels|
        invariant og == OrphanGroupsUpTo(f, es, rels, r)
        invariant Added(f.codes, old(cards), old(used), og, cards, used)
      {
        og := AddOrphanCard(rels[r], episodes[rels[r]], old(cards), old(used), og);
      }
    }

    method AddOrphanCard(rel: string, own: seq<Event>, ghost base: seq<CardView>, ghost was: set<int>, ghost og: seq<Group>)
      returns (ghost more: seq<Group>)
      requires Added(codes, base, was, og, cards, used)
      modifies this
      ensures more == if Completed(codes, own) then og + [Group(OrphanCard(rel), own)] else og
      ensures Added(codes, base, was, more, cards, used)
    {
      OrphanCardFor(rel, own);
      more := og;
      if Completed(codes, own) {
        more := og + [Group(OrphanCard(rel), own)];
        PlainSnoc(codes, base, og, Group(OrphanCard(rel), own));
      }
    }

    method OrphanCardFor(rel: string, own: seq<Event>)
      modifies this
      ensures Completed(codes, own) ==>
        && own != [] && cards == old(cards) + [Partial(codes, Group(OrphanCard(rel), own), [])]
        && used == old(used) + IdsIn(own)
      ensures !Completed(codes, own) ==> cards == old(cards) && used == old(used)
    {
      var group := Ordered(own);
      var i := FirstWith(group, codes.primaryDone);
      CompletedKept(codes, own);
      if i < |group| {
        GroupCard(codes, Group(OrphanCard(rel), own));
        HeadUsed(group, i);
        if rel !in index {
          index := index[rel := |cards|];
        }
        AddCard(OfKind(Cleaning), group, i);
      }
    }

    // ---- Finishing ---------------------------------------------------------------

    /** Sorts every card's lines and gives each sub-episode's media to one of them. */
    method FinishCards(es: seq<Event>)
      requires forall k :: 0 <= k < |cards| ==> Bare(cards[k])
      modifies this`cards
      ensures |cards| == |old(cards)|
      ensures forall k :: 0 <= k < |cards| ==> cards[k] == Finish(codes, es, old(cards)[k])
    {
      for k := 0 to |cards|
        invariant |cards| == |old(cards)|
        invariant forall j :: 0 <= j < k ==> cards[j] == Finish(codes, es, old(cards)[j])
        invariant forall j :: k <= j < |cards| ==> cards[j] == old(cards)[j]
      {
        var card := cards[k];
        var lines := SortBy(card.lines, LineKey);
        SortedBare(card);
        lines := SessionMedia.AssignEpisodeMedia(codes, es, card.header.rel, lines);
        cards := cards[k := card.(lines := lines)];
      }
    }

    /** A plain row for every event no card claimed. */
    method StandaloneRows(es: seq<Event>, ghost p: Plan) returns (rows: seq<CardView>)
      requires UsedUpTo(p, es, used, 5, 0)
      ensures rows == RowViews(Rows(p, es))
    {
      rows := [];
      for i := 0 to |es|
        invariant rows == RowViews(Rows(p, es[..i]))
      {
        Snoc(es, i);
        StageMeaning(p, es[i]);
        if es[i].id !in used {
          rows := rows + [CardFor(Standalone, es[i])];
        }
      }
      assert es[..|es|] == es;
    }

    // ---- The run, in three stretches ------------------------------------------------

    method MakeFirstCards(es: seq<Event>, ghost p: Plan, ghost gs: seq<Group>)
      requires DistinctIds(es) && p == PlanOf(codes, es) && gs == FirstGroups(codes, es)
      requires cards == [] && index == map[] && used == {}
      modifies this
      ensures index == IndexOf(EpisodeRels(codes, es), |EpisodeRels(codes, es)|)
      ensures At(p, gs, es, Linked, 0, cards, used)
    {
      var rels, byRelated, loose := EpisodesOf(AnchorEvents(codes, es));
      FirstInputs(codes, es, rels, byRelated, loose);
      CardsFromEpisodes(gs, rels, byRelated);
      CardsFromLooseVisits(gs, |rels|, loose);
      LinkStarts(codes, es);
    }

    method HangOnFirstCards(es: seq<Event>, ghost p: Plan, ghost gs: seq<Group>)
      requires DistinctIds(es) && p == PlanOf(codes, es) && gs == FirstGroups(codes, es)
      requires index == IndexOf(EpisodeRels(codes, es), |EpisodeRels(codes, es)|)
      requires At(p, gs, es, Linked, 0, cards, used)
      modifies this`used, this`cards
      ensures At(p, gs, es, Nearby, |es|, cards, used)
    {
      FirstKeysDistinct(codes, es);
      var parents := EpisodeParents(es);
      AttachLinkedFollowups(es, parents, p, gs);
      NearbyStarts(p, gs, es, cards, used);
      AttachNearbyCleanings(es, p, gs);
    }

    method MakeCleaningCards(es: seq<Event>, ghost p: Plan, ghost gs: seq<Group>)
      requires DistinctIds(es) && p == PlanOf(codes, es) && gs == FirstGroups(codes, es)
      requires At(p, gs, es, Nearby, |es|, cards, used)
      modifies this
      ensures At(p, CycleGroups(codes, es), es, Tail, 0, cards, used)
    {
      OrphanTests(p, gs, es, cards, used);
      TailUsed(codes, es, used);
      OrphansPlain(codes, es, p);
      var rels, episodes := OrphanEpisodes(es, p.first);
      CardsFromOrphanCleanings(es, rels, episodes, p.first);
      TailStarts(p, gs, OrphanGroups(p.first, es, rels), es, old(cards), cards, used);
    }

    method CloseCards(es: seq<Event>, ghost p: Plan, ghost gs: seq<Group>) returns (rows: seq<CardView>)
      requires DistinctIds(es) && p == PlanOf(codes, es) && gs == CycleGroups(codes, es)
      requires At(p, gs, es, Tail, 0, cards, used)
      modifies this`used, this`cards
      ensures cards == FinishedCards(p, es, gs)
      ensures rows == RowViews(Rows(p, es))
    {
      CycleKeysDistinct(codes, es);
      AttachCycleTails(es, p, gs);
      TailDone(p, gs, es, cards, used);
      HungCards(p, gs, es);
      FinishCards(es);
      rows := StandaloneRows(es, p);
    }
  }

  /** Stored rows in any order, grouped into cards, newest first. */
  method GroupSessions(codes: Codes, es: seq<Event>) returns (result: seq<CardView>)
    requires DistinctIds(es)
    ensures result == Grouped(codes, es)
  {
    var t := new Timeline(codes);
    ghost var p := PlanOf(codes, es);
    ghost var gs := FirstGroups(codes, es);
    t.MakeFirstCards(es, p, gs);
    t.HangOnFirstCards(es, p, gs);
    t.MakeCleaningCards(es, p, gs);
    var rows := t.CloseCards(es, p, CycleGroups(codes, es));
    AllFinished(codes, es, p);
    result := SortBy(t.cards + rows, NewestFirst);
  }
}
