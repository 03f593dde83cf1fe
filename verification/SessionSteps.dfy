/** How one more event changes a card, a group or the set of placed events. */
module SessionSteps {
  import opened Common
  import opened Sorting
  import opened SessionSpec

  /** The pass that places an event; 5 is the standalone row. */
  function StageOf(h: Home): nat {
    match h.rule
    case Linked => 1
    case Nearby => 2
    case Tail => 4
    case Member => if h.key.OrphanCard? then 3 else if h.key.RowCard? then 5 else 0
  }

  function PassOf(rule: Rule): nat {
    match rule case Member => 0 case Linked => 1 case Nearby => 2 case Tail => 4
  }

  function Stage(p: Plan, e: Event): nat { StageOf(HomeOf(p, e)) }

  /** The conditions the passes test, read off the stage. */
  lemma {:induction false} StageMeaning(p: Plan, e: Event)
    ensures Stage(p, e) == 0 <==> Anchored(p.first.codes, e)
    ensures Stage(p, e) == 1 <==> Stage(p, e) >= 1 && LinkTarget(p.first, e).Some?
    ensures Stage(p, e) == 1 ==> HomeOf(p, e) == Home(EpisodeCard(LinkTarget(p.first, e).value), Linked)
    ensures Stage(p, e) == 2 <==> Stage(p, e) >= 2 && Closest(AfterVisit, p.first.slots, e).Some?
    ensures Stage(p, e) == 2 ==> HomeOf(p, e) == Home(Closest(AfterVisit, p.first.slots, e).value, Nearby)
    ensures OrphanStep(p.first, e) <==> Stage(p, e) >= 3 && e.kind == Cleaning && e.rel != ""
    ensures Stage(p, e) == 3 <==> InOrphanCard(p, e)
    ensures Stage(p, e) == 3 ==> HomeOf(p, e) == Home(OrphanCard(e.rel), Member)
    ensures Stage(p, e) == 4 <==> Stage(p, e) >= 4 && Closest(AroundCycle, p.slots, e).Some?
    ensures Stage(p, e) == 4 ==> HomeOf(p, e) == Home(Closest(AroundCycle, p.slots, e).value, Tail)
    ensures Stage(p, e) == 5 <==> HomeOf(p, e) == Home(RowCard(e), Member)
    ensures Stage(p, e) <= 5
  {
  }

  /** What `_attach` does to a card. */
  function AttachTo(c: Codes, v: CardView, e: Event): CardView {
    v.(pet := if v.pet.None? then e.pet else v.pet, lines := v.lines + [LineOf(c, e)])
  }

  lemma {:induction false} BuildMore(c: Codes, kind: CardKind, head: Event, evs: seq<Event>, e: Event)
    ensures Build(c, kind, head, evs + [e]) == AttachTo(c, Build(c, kind, head, evs), e)
  {
    assert (evs + [e])[..|evs|] == evs;
    assert LinesOf(c, evs + [e]) == LinesOf(c, evs) + [LineOf(c, e)];
  }

  lemma {:induction false} PartialMore(c: Codes, g: Group, evs: seq<Event>, e: Event)
    requires g.own != []
    ensures Partial(c, g, evs + [e]) == AttachTo(c, Partial(c, g, evs), e)
  {
    var all := Rest(c, g) + evs;
    assert Rest(c, g) + (evs + [e]) == all + [e];
    BuildMore(c, KindFor(g, HeadOf(c, g)), HeadOf(c, g), all, e);
  }

  /** What hangs on a card when the pass for `rule` has seen the first `i` events. */
  function HungAt(p: Plan, key: Key, es: seq<Event>, rule: Rule, i: nat): seq<Event>
    requires i <= |es|
  {
    match rule
    case Member => []
    case Linked => Hung(p, key, es[..i], [], [])
    case Nearby => Hung(p, key, es, es[..i], [])
    case Tail => Hung(p, key, es, es, es[..i])
  }

  lemma {:induction false} HavingMore(p: Plan, es: seq<Event>, i: nat, home: Home)
    requires i < |es|
    ensures Having(p, es[..i + 1], home) == Having(p, es[..i], home) + if HomeOf(p, es[i]) == home then [es[i]] else []
  {
    assert es[..i + 1][..i] == es[..i];
  }

  lemma {:induction false} HungMore(p: Plan, key: Key, es: seq<Event>, rule: Rule, i: nat)
    requires i < |es| && rule != Member
    ensures HungAt(p, key, es, rule, i + 1)
         == if HomeOf(p, es[i]) == Home(key, rule) then HungAt(p, key, es, rule, i) + [es[i]] else HungAt(p, key, es, rule, i)
  {
    HavingMore(p, es, i, Home(key, rule));
  }

  /** A pass begins where the one before it ended. */
  lemma {:induction false} HungStarts(p: Plan, key: Key, es: seq<Event>)
    ensures HungAt(p, key, es, Linked, 0) == []
    ensures HungAt(p, key, es, Nearby, 0) == HungAt(p, key, es, Linked, |es|)
    ensures HungAt(p, key, es, Tail, 0) == HungAt(p, key, es, Nearby, |es|)
    ensures HungAt(p, key, es, Tail, |es|) == Hung(p, key, es, es, es)
  {
    assert es[..|es|] == es && es[..0] == [];
  }

  lemma {:induction false} ViewMore(p: Plan, c: Codes, g: Group, es: seq<Event>, rule: Rule, i: nat)
    requires i < |es| && rule != Member && g.own != []
    ensures Partial(c, g, HungAt(p, g.key, es, rule, i + 1))
         == var v := Partial(c, g, HungAt(p, g.key, es, rule, i));
            if HomeOf(p, es[i]) == Home(g.key, rule) then AttachTo(c, v, es[i]) else v
  {
    HungMore(p, g.key, es, rule, i);
    PartialMore(c, g, HungAt(p, g.key, es, rule, i), es[i]);
  }

  ghost predicate ShowsParents(es: seq<Event>, parents: map<string, string>) {
    && (forall rel :: NamedParent(es, rel) == if rel in parents then parents[rel] else "")
    && (forall rel :: rel in parents ==> parents[rel] != "")
  }

  lemma {:induction false} ParentsMore(es: seq<Event>, i: nat, parents: map<string, string>)
    requires i < |es| && ShowsParents(es[..i], parents)
    ensures ShowsParents(es[..i + 1],
      if NamesParent(es[i], es[i].rel) && es[i].rel !in parents then parents[es[i].rel := es[i].parent] else parents)
  {
    assert es[..i + 1][..i] == es[..i];
  }

  lemma {:induction false} ParentsExact(es: seq<Event>, parents: map<string, string>)
    requires ShowsParents(es, parents)
    ensures parents == ParentsOf(es)
  {
  }

  /** A card on which the first `i` events of a group were hung, its head left out. */
  function AttachUpTo(c: Codes, v: CardView, o: seq<Event>, head: nat, i: nat): CardView
    requires i <= |o|
  {
    if i == 0 then v else
      var w := AttachUpTo(c, v, o, head, i - 1);
      if i - 1 == head then w else AttachTo(c, w, o[i - 1])
  }

  function CardFor(kind: CardKind, e: Event): CardView {
    CardView(Header(kind, e.rel, e.device, e.ts), e.id, e.pet, [], e.media)
  }

  function RestUpTo(o: seq<Event>, head: nat, i: nat): (r: seq<Event>)
    requires head < |o| && i <= |o|
    ensures i == |o| ==> r == Without(o, head)
  {
    if i <= head then o[..i] else o[..head] + o[head + 1..i]
  }

  lemma {:induction false} RestMore(o: seq<Event>, head: nat, i: nat)
    requires head < |o| && i < |o|
    ensures RestUpTo(o, head, i + 1) == if i == head then RestUpTo(o, head, i) else RestUpTo(o, head, i) + [o[i]]
  {
  }

  lemma {:induction false} AttachStep(c: Codes, kind: CardKind, o: seq<Event>, head: nat, i: nat, v: CardView, rest: seq<Event>)
    requires head < |o| && i < |o| && rest == RestUpTo(o, head, i)
    requires v == AttachUpTo(c, CardFor(kind, o[head]), o, head, i) && v == Build(c, kind, o[head], rest)
    ensures AttachUpTo(c, CardFor(kind, o[head]), o, head, i + 1) == Build(c, kind, o[head], RestUpTo(o, head, i + 1))
  {
    RestMore(o, head, i);
    BuildMore(c, kind, o[head], rest, o[i]);
  }

  lemma {:induction false} AttachIsBuild(c: Codes, kind: CardKind, o: seq<Event>, head: nat, i: nat)
    requires head < |o| && i <= |o|
    ensures AttachUpTo(c, CardFor(kind, o[head]), o, head, i) == Build(c, kind, o[head], RestUpTo(o, head, i))
    decreases i
  {
    if i == 0 {
      assert LinesOf(c, []) == [];
    } else {
      var v, rest := AttachUpTo(c, CardFor(kind, o[head]), o, head, i - 1), RestUpTo(o, head, i - 1);
      AttachIsBuild(c, kind, o, head, i - 1);
      AttachStep(c, kind, o, head, i - 1, v, rest);
    }
  }

  /** A card with nothing hung on it yet, as its group alone determines it. */
  lemma {:induction false} GroupCard(c: Codes, g: Group)
    requires g.own != []
    ensures var o := Ordered(g.own); var h := HeadAt(c, g.key, o);
      Partial(c, g, []) == AttachUpTo(c, CardFor(KindFor(g, o[h]), o[h]), o, h, |o|)
    ensures HasToilet(Ordered(g.own)) <==> HasToilet(g.own)
    ensures IdsIn(Ordered(g.own)) == IdsIn(g.own)
  {
    var o := Ordered(g.own);
    var h := HeadAt(c, g.key, o);
    AttachIsBuild(c, KindFor(g, o[h]), o, h, |o|);
    assert Rest(c, g) + [] == Rest(c, g);
    ToiletKept(g.own);
    OrderedIds(g.own);
  }

  // ---- Filtering the eligible events first changes nothing -----------------

  function AnchorEvents(c: Codes, es: seq<Event>): (r: seq<Event>)
    ensures forall e :: e in r <==> e in es && Eligible(c, e)
    decreases |es|
  {
    if es == [] then [] else
      var n := |es| - 1;
      assert es == es[..n] + [es[n]];
      var r := AnchorEvents(c, es[..n]);
      if Eligible(c, es[n]) then r + [es[n]] else r
  }

  lemma {:induction false} AnchorsSuffice(c: Codes, es: seq<Event>)
    ensures EpisodeRels(c, AnchorEvents(c, es)) == EpisodeRels(c, es)
    ensures LooseVisits(c, AnchorEvents(c, es)) == LooseVisits(c, es)
    ensures forall rel :: EpisodeMembers(c, AnchorEvents(c, es), rel) == EpisodeMembers(c, es, rel)
    decreases |es|
  {
    if es != [] {
      var n := |es| - 1;
      AnchorsSuffice(c, es[..n]);
      var a := AnchorEvents(c, es[..n]);
      assert (a + [es[n]])[..|a|] == a;
    }
  }

  // ---- Distinct ids ------------------------------------------------------

  function IdsUpTo(es: seq<Event>, i: nat): set<int>
    requires i <= |es|
  {
    if i == 0 then {} else IdsUpTo(es, i - 1) + {es[i - 1].id}
  }

  function IdsIn(es: seq<Event>): set<int> { IdsUpTo(es, |es|) }

  lemma {:induction false} IdsMembers(es: seq<Event>, i: nat, id: int)
    requires i <= |es|
    ensures id in IdsUpTo(es, i) <==> exists j :: 0 <= j < i && es[j].id == id
    decreases i
  {
    if i != 0 {
      IdsMembers(es, i - 1, id);
    }
  }

  lemma {:induction false} HeadUsed(es: seq<Event>, i: nat)
    requires i < |es|
    ensures es[i].id in IdsIn(es)
  {
    IdsMembers(es, |es|, es[i].id);
  }

  lemma {:induction false} OrderedIds(own: seq<Event>)
    ensures IdsIn(Ordered(own)) == IdsIn(own)
  {
    SortKeeps(own, EventKey);
    forall id ensures id in IdsIn(Ordered(own)) <==> id in IdsIn(own) {
      IdsMembers(Ordered(own), |own|, id);
      IdsMembers(own, |own|, id);
      assert id in IdsIn(Ordered(own)) <==> exists e :: e in Ordered(own) && e.id == id;
      assert id in IdsIn(own) <==> exists e :: e in own && e.id == id;
    }
  }

  function IdsOfGroups(gs: seq<Group>, i: nat): set<int>
    requires i <= |gs|
  {
    if i == 0 then {} else IdsOfGroups(gs, i - 1) + IdsIn(gs[i - 1].own)
  }

  lemma {:induction false} ToiletKept(own: seq<Event>)
    ensures HasToilet(Ordered(own)) <==> HasToilet(own)
  {
    SortKeeps(own, EventKey);
    assert HasToilet(own) <==> exists e :: e in own && e.kind == Toilet;
    assert HasToilet(Ordered(own)) <==> exists e :: e in Ordered(own) && e.kind == Toilet;
  }

  lemma {:induction false} OneOrdered(e: Event)
    ensures Ordered([e]) == [e]
  {
    assert Ordered([e]) == Insert(e, SortBy([], EventKey), EventKey);
  }

  lemma {:induction false} IdMeansEvent(es: seq<Event>, g: seq<Event>, e: Event)
    requires DistinctIds(es) && e in es
    requires forall x :: x in g ==> x in es
    ensures e.id in IdsIn(g) <==> e in g
  {
    IdsMembers(g, |g|, e.id);
    if e.id in IdsIn(g) {
      var j :| 0 <= j < |g| && g[j].id == e.id;
      assert g[j] in es;
    }
  }

  ghost predicate DistinctKeys(gs: seq<Group>) {
    forall i, j :: 0 <= i < j < |gs| ==> gs[i].key != gs[j].key
  }

  lemma {:induction false} LooseDistinct(c: Codes, es: seq<Event>)
    requires DistinctIds(es)
    ensures DistinctIds(LooseVisits(c, es))
    decreases |es|
  {
    if es != [] {
      LooseDistinct(c, es[..|es| - 1]);
    }
  }

  lemma {:induction false} RowsDistinct(p: Plan, es: seq<Event>)
    requires DistinctIds(es)
    ensures DistinctIds(Rows(p, es))
    decreases |es|
  {
    if es != [] {
      var n := |es| - 1;
      RowsDistinct(p, es[..n]);
      var r := Rows(p, es[..n]);
      forall i | 0 <= i < |r| ensures r[i].id != es[n].id {
        assert r[i] in r;
      }
    }
  }

  lemma {:induction false} FirstKeysDistinct(c: Codes, es: seq<Event>)
    requires DistinctIds(es)
    ensures DistinctKeys(FirstGroups(c, es))
  {
    LooseDistinct(c, es);
  }

  lemma {:induction false} OrphanGroupsExact(f: First, es: seq<Event>, rels: seq<string>, r: nat)
    requires r <= |rels|
    ensures forall g :: g in OrphanGroupsUpTo(f, es, rels, r) <==>
      && g.key.OrphanCard? && g.key.rel in rels[..r]
      && g.own == OrphanSteps(f, es, g.key.rel) && Completed(f.codes, g.own)
    ensures NoDup(rels) ==> DistinctKeys(OrphanGroupsUpTo(f, es, rels, r))
    decreases r
  {
    if r != 0 {
      OrphanGroupsExact(f, es, rels, r - 1);
      Snoc(rels, r - 1);
    }
  }

  /** Exactly the orphan episodes with a completion step have a card, and each has one. */
  lemma {:induction false} OrphanGroupsMeaning(f: First, es: seq<Event>)
    ensures var og := OrphanGroups(f, es, OrphanRels(f, es));
      && DistinctKeys(og)
      && forall g :: g in og <==>
           && g.key.OrphanCard? && g.key.rel in OrphanRels(f, es)
           && g.own == OrphanSteps(f, es, g.key.rel) && Completed(f.codes, g.own)
  {
    var rels := OrphanRels(f, es);
    OrphanGroupsExact(f, es, rels, |rels|);
    assert rels[..|rels|] == rels;
  }

  lemma {:induction false} CycleKeysDistinct(c: Codes, es: seq<Event>)
    requires DistinctIds(es)
    ensures DistinctKeys(CycleGroups(c, es))
  {
    var f := FirstOf(c, es);
    FirstKeysDistinct(c, es);
    OrphanGroupsMeaning(f, es);
    Separate(FirstGroups(c, es), OrphanGroups(f, es, OrphanRels(f, es)));
  }

  lemma {:induction false} Separate(a: seq<Group>, b: seq<Group>)
    requires DistinctKeys(a) && DistinctKeys(b)
    requires forall g :: g in a ==> g.key.EpisodeCard? || g.key.LooseCard?
    requires forall g :: g in b ==> g.key.OrphanCard?
    ensures DistinctKeys(a + b)
  {
    assert forall i :: 0 <= i < |a| ==> a[i] in a;
    assert forall i :: 0 <= i < |b| ==> b[i] in b;
  }

  // ---- The list of cards as a whole -----------------------------------------

  /** Every card when the pass for `rule` has seen the first `i` events. */
  function Views(p: Plan, gs: seq<Group>, es: seq<Event>, rule: Rule, i: nat): (r: seq<CardView>)
    requires AllOwn(gs) && i <= |es|
    ensures |r| == |gs|
    ensures forall k :: 0 <= k < |r| ==>
      r[k] == Partial(p.first.codes, gs[k], HungAt(p, gs[k].key, es, rule, i))
  {
    seq(|gs|, k requires 0 <= k < |gs| => Partial(p.first.codes, gs[k], HungAt(p, gs[k].key, es, rule, i)))
  }

  /** An event whose home is card `k` under this pass's rule is hung there and nowhere else. */
  lemma {:induction false} ViewsHang(p: Plan, gs: seq<Group>, es: seq<Event>, rule: Rule, i: nat, k: nat)
    requires AllOwn(gs) && DistinctKeys(gs) && i < |es| && k < |gs| && rule != Member
    requires HomeOf(p, es[i]) == Home(gs[k].key, rule)
    ensures var v := Views(p, gs, es, rule, i);
      Views(p, gs, es, rule, i + 1) == v[k := AttachTo(p.first.codes, v[k], es[i])]
  {
    forall j | 0 <= j < |gs|
      ensures Views(p, gs, es, rule, i + 1)[j]
           == var v := Views(p, gs, es, rule, i)[j]; if j == k then AttachTo(p.first.codes, v, es[i]) else v
    {
      ViewMore(p, p.first.codes, gs[j], es, rule, i);
    }
  }

  lemma {:induction false} ViewsSkip(p: Plan, gs: seq<Group>, es: seq<Event>, rule: Rule, i: nat)
    requires AllOwn(gs) && i < |es| && rule != Member
    requires Stage(p, es[i]) != PassOf(rule)
    ensures Views(p, gs, es, rule, i + 1) == Views(p, gs, es, rule, i)
  {
    forall j | 0 <= j < |gs|
      ensures Views(p, gs, es, rule, i + 1)[j] == Views(p, gs, es, rule, i)[j]
    {
      ViewMore(p, p.first.codes, gs[j], es, rule, i);
    }
  }

  lemma {:induction false} ViewsNext(p: Plan, gs: seq<Group>, es: seq<Event>)
    requires AllOwn(gs)
    ensures Views(p, gs, es, Nearby, 0) == Views(p, gs, es, Linked, |es|)
    ensures Views(p, gs, es, Tail, 0) == Views(p, gs, es, Nearby, |es|)
    ensures Views(p, gs, es, Linked, 0) == PlainViews(p.first.codes, gs, |gs|)
  {
    forall k | 0 <= k < |gs|
      ensures Views(p, gs, es, Nearby, 0)[k] == Views(p, gs, es, Linked, |es|)[k]
      ensures Views(p, gs, es, Tail, 0)[k] == Views(p, gs, es, Nearby, |es|)[k]
      ensures Views(p, gs, es, Linked, 0)[k] == PlainViews(p.first.codes, gs, |gs|)[k]
    {
      PlainAt(p.first.codes, gs, |gs|, k);
      HungStarts(p, gs[k].key, es);
    }
  }

  /** The first `i` cards, with nothing hung on them by a later pass. */
  function PlainViews(c: Codes, gs: seq<Group>, i: nat): (r: seq<CardView>)
    requires AllOwn(gs) && i <= |gs|
    ensures |r| == i
  {
    if i == 0 then [] else PlainViews(c, gs, i - 1) + [Partial(c, gs[i - 1], [])]
  }

  lemma {:induction false} PlainAt(c: Codes, gs: seq<Group>, i: nat, k: nat)
    requires AllOwn(gs) && k < i <= |gs|
    ensures PlainViews(c, gs, i)[k] == Partial(c, gs[k], [])
  {
    if k < i - 1 {
      PlainAt(c, gs, i - 1, k);
    }
  }

  // ---- The ids placed so far --------------------------------------------------

  /** The ids in `used` are those of passes before `stage`, and of `stage` itself for the first `i` events. */
  ghost predicate UsedUpTo(p: Plan, es: seq<Event>, used: set<int>, stage: nat, i: nat) {
    forall j :: 0 <= j < |es| ==>
      (es[j].id in used <==> Stage(p, es[j]) < stage || (Stage(p, es[j]) == stage && j < i))
  }

  lemma {:induction false} UsedHang(p: Plan, es: seq<Event>, used: set<int>, stage: nat, i: nat)
    requires DistinctIds(es) && i < |es| && UsedUpTo(p, es, used, stage, i)
    ensures Stage(p, es[i]) == stage ==> UsedUpTo(p, es, used + {es[i].id}, stage, i + 1)
    ensures Stage(p, es[i]) != stage ==> UsedUpTo(p, es, used, stage, i + 1)
  {
    forall j | 0 <= j < |es| && j != i ensures es[j].id != es[i].id {
      if j < i {} else {}
    }
  }

  function IndexOf(rels: seq<string>, i: nat): map<string, nat>
    requires i <= |rels|
  {
    if i == 0 then map[] else IndexOf(rels, i - 1)[rels[i - 1] := i - 1]
  }

  lemma {:induction false} IndexMeaning(rels: seq<string>, i: nat)
    requires NoDup(rels) && i <= |rels|
    ensures forall rel :: rel in IndexOf(rels, i) <==> rel in rels[..i]
    ensures forall k :: 0 <= k < i ==> IndexOf(rels, i)[rels[k]] == k
    decreases i
  {
    if i != 0 {
      IndexMeaning(rels, i - 1);
      assert rels[..i] == rels[..i - 1] + [rels[i - 1]];
    }
  }
}
