/** In which order the steps of a card run, and whose pet it shows. */
module SessionRuns {
  import opened Common
  import opened Sorting
  import opened SessionSpec
  import opened SessionSteps
  import opened SessionPasses
  import opened SessionConservation
  import opened SessionJustified
  import opened SessionHeads

  // ---- The order in which events come to a card ------------------------------------------

  /** How an event came to the card: 0 of its own, 1 by a link, 2 by following a visit, 3 by a cleaning nearby. */
  ghost function Rank(c: Codes, es: seq<Event>, h: Header, e: Event): nat {
    if h.kind == OfKind(Cleaning) then (if e.rel == h.rel then 0 else 3)
    else if MayHead(c, e) then 0
    else if LinkedTo(es, h, e) then 1
    else 2
  }

  /** `a` comes to the card before `b`: own events by time, all others as they are stored. */
  ghost predicate Ahead(c: Codes, es: seq<Event>, h: Header, a: Event, b: Event) {
    || Rank(c, es, h, a) < Rank(c, es, h, b)
    || (Rank(c, es, h, a) == Rank(c, es, h, b) && if Rank(c, es, h, a) == 0 then Sooner(es, a, b) else Stored(es, a, b))
  }

  ghost predicate Chain(c: Codes, es: seq<Event>, h: Header, xs: seq<Event>) {
    forall i, j :: 0 <= i < j < |xs| ==> xs[i] != xs[j] && Ahead(c, es, h, xs[i], xs[j])
  }

  ghost predicate Ranked(c: Codes, es: seq<Event>, h: Header, xs: seq<Event>, rank: nat) {
    forall i :: 0 <= i < |xs| ==> Rank(c, es, h, xs[i]) == rank
  }

  ghost predicate Below(c: Codes, es: seq<Event>, h: Header, xs: seq<Event>, rank: nat) {
    forall i :: 0 <= i < |xs| ==> Rank(c, es, h, xs[i]) < rank
  }

  lemma {:induction false} ChainMore(c: Codes, es: seq<Event>, h: Header, xs: seq<Event>, ys: seq<Event>, rank: nat)
    requires Chain(c, es, h, xs) && Below(c, es, h, xs, rank) && Chain(c, es, h, ys) && Ranked(c, es, h, ys, rank)
    ensures Chain(c, es, h, xs + ys) && Below(c, es, h, xs + ys, rank + 1)
  {
    var all := xs + ys;
    forall i, j | 0 <= i < j < |all| ensures all[i] != all[j] && Ahead(c, es, h, all[i], all[j]) {
      assert all[i] == if i < |xs| then xs[i] else ys[i - |xs|];
      assert all[j] == if j < |xs| then xs[j] else ys[j - |xs|];
    }
  }

  lemma {:induction false} StoredChain(c: Codes, es: seq<Event>, h: Header, xs: seq<Event>, rank: nat)
    requires InOrder(es, |es|, xs) && Ranked(c, es, h, xs, rank) && rank != 0
    ensures Chain(c, es, h, xs)
  {
    forall i, j | 0 <= i < j < |xs| ensures xs[i] != xs[j] && Ahead(c, es, h, xs[i], xs[j]) {
      PlaceOrders(es, xs[i], xs[j]);
    }
  }

  // ---- A permutation of distinct elements --------------------------------------------------

  lemma {:induction false} OnceIsNoDup<T>(xs: seq<T>)
    ensures NoDup(xs) <==> forall x :: multiset(xs)[x] <= 1
    decreases |xs|
  {
    if xs != [] {
      Uncons(xs);
      OnceIsNoDup(xs[1..]);
      assert xs[0] in xs[1..] <==> multiset(xs[1..])[xs[0]] >= 1;
      if NoDup(xs) {
        assert forall i :: 0 <= i < |xs[1..]| ==> xs[1..][i] == xs[i + 1];
      }
      if NoDup(xs[1..]) && xs[0] !in xs[1..] {
        forall i, j | 0 <= i < j < |xs| ensures xs[i] != xs[j] {
          assert xs[j] == xs[1..][j - 1];
        }
      }
    }
  }

  lemma {:induction false} OrderedNoDup(es: seq<Event>, own: seq<Event>)
    requires InOrder(es, |es|, own)
    ensures NoDup(Ordered(own))
  {
    assert NoDup(own);
    OnceIsNoDup(own);
    SortCorrect(own, EventKey);
    OnceIsNoDup(Ordered(own));
  }

  lemma {:induction false} RestChain(c: Codes, es: seq<Event>, h: Header, g: Group)
    requires g.own != [] && InOrder(es, |es|, g.own) && Ranked(c, es, h, Rest(c, g), 0)
    ensures Chain(c, es, h, Rest(c, g))
  {
    var o, k, rest := Ordered(g.own), HeadAt(c, g.key, Ordered(g.own)), Rest(c, g);
    OrderedSooner(es, g.own);
    OrderedNoDup(es, g.own);
    forall i, j | 0 <= i < j < |rest| ensures rest[i] != rest[j] && Ahead(c, es, h, rest[i], rest[j]) {
      assert rest[i] == o[if i < k then i else i + 1];
      assert rest[j] == o[if j < k then j else j + 1];
    }
  }

  // ---- The rank of each event on its card -----------------------------------------------------

  lemma {:induction false} OwnRank(c: Codes, es: seq<Event>, k: nat, e: Event)
    requires k < |AllGroups(c, es)| && e in Rest(c, AllGroups(c, es)[k])
    ensures Rank(c, es, HeaderOf(c, AllGroups(c, es)[k]), e) == 0
  {
    OwnWithin(c, es, k, e);
    KindPlaces(c, es, k);
    if k < |FirstGroups(c, es)| {
      OwnEpisode(c, es, k, e);
    } else {
      OwnStep(c, es, k, e);
    }
  }

  lemma {:induction false} LinkRank(c: Codes, es: seq<Event>, k: nat, e: Event)
    requires DistinctIds(es) && k < |AllGroups(c, es)| && e in es
    requires HomeOf(PlanOf(c, es), e) == Home(AllGroups(c, es)[k].key, Linked)
    ensures Rank(c, es, HeaderOf(c, AllGroups(c, es)[k]), e) == 1
  {
    HungBy(PlanOf(c, es), e);
    LinkJustified(c, es, k, e);
  }

  lemma {:induction false} NearRank(c: Codes, es: seq<Event>, k: nat, e: Event)
    requires DistinctIds(es) && k < |AllGroups(c, es)| && e in es
    requires HomeOf(PlanOf(c, es), e) == Home(AllGroups(c, es)[k].key, Nearby)
    ensures Rank(c, es, HeaderOf(c, AllGroups(c, es)[k]), e) == 2
  {
    HungBy(PlanOf(c, es), e);
    NotLinkedSeen(c, es, e, k);
    CloseJustified(c, es, AfterVisit, k, e);
  }

  lemma {:induction false} TailRank(c: Codes, es: seq<Event>, k: nat, e: Event)
    requires DistinctIds(es) && k < |AllGroups(c, es)| && e in es
    requires HomeOf(PlanOf(c, es), e) == Home(AllGroups(c, es)[k].key, Tail)
    ensures Rank(c, es, HeaderOf(c, AllGroups(c, es)[k]), e) == 3
  {
    HungBy(PlanOf(c, es), e);
    CloseJustified(c, es, AroundCycle, k, e);
  }

  /** What the pass for `rule` hung on card `k`. */
  function PassOn(p: Plan, es: seq<Event>, key: Key, rule: Rule): seq<Event> { Having(p, es, Home(key, rule)) }

  lemma {:induction false} PassChain(c: Codes, es: seq<Event>, k: nat, rule: Rule, rank: nat)
    requires DistinctIds(es) && k < |AllGroups(c, es)|
    requires rank == match rule case Member => 0 case Linked => 1 case Nearby => 2 case Tail => 3
    requires rule != Member
    ensures var g := AllGroups(c, es)[k]; var xs := PassOn(PlanOf(c, es), es, g.key, rule);
      Ranked(c, es, HeaderOf(c, g), xs, rank) && Chain(c, es, HeaderOf(c, g), xs)
  {
    var p, g := PlanOf(c, es), AllGroups(c, es)[k];
    var xs := PassOn(p, es, g.key, rule);
    HavingInOrder(p, es, |es|, Home(g.key, rule));
    assert es[..|es|] == es;
    forall i | 0 <= i < |xs| ensures Rank(c, es, HeaderOf(c, g), xs[i]) == rank {
      assert xs[i] in xs;
      match rule
      case Linked => LinkRank(c, es, k, xs[i]);
      case Nearby => NearRank(c, es, k, xs[i]);
      case Tail => TailRank(c, es, k, xs[i]);
    }
    StoredChain(c, es, HeaderOf(c, g), xs, rank);
  }

  lemma {:induction false} OwnChain(c: Codes, es: seq<Event>, k: nat)
    requires DistinctIds(es) && k < |AllGroups(c, es)|
    ensures var g := AllGroups(c, es)[k];
      Ranked(c, es, HeaderOf(c, g), Rest(c, g), 0) && Chain(c, es, HeaderOf(c, g), Rest(c, g))
  {
    var g := AllGroups(c, es)[k];
    OwnInOrder(c, es, k);
    forall i | 0 <= i < |Rest(c, g)| ensures Rank(c, es, HeaderOf(c, g), Rest(c, g)[i]) == 0 {
      OwnRank(c, es, k, Rest(c, g)[i]);
    }
    RestChain(c, es, HeaderOf(c, g), g);
  }

  lemma {:induction false} FourChains(c: Codes, es: seq<Event>, h: Header, r: seq<Event>, l: seq<Event>, n: seq<Event>, t: seq<Event>)
    requires Chain(c, es, h, r) && Chain(c, es, h, l) && Chain(c, es, h, n) && Chain(c, es, h, t)
    requires Ranked(c, es, h, r, 0) && Ranked(c, es, h, l, 1) && Ranked(c, es, h, n, 2) && Ranked(c, es, h, t, 3)
    ensures Chain(c, es, h, r + (l + n + t))
  {
    ChainMore(c, es, h, r, l, 1);
    ChainMore(c, es, h, r + l, n, 2);
    ChainMore(c, es, h, r + l + n, t, 3);
    assert r + (l + n + t) == r + l + n + t;
  }

  /** The events behind the lines of card `k`, in the order they came to it. */
  function Behind(c: Codes, es: seq<Event>, k: nat): seq<Event>
    requires k < |AllGroups(c, es)|
  {
    Rest(c, AllGroups(c, es)[k]) + Hung(PlanOf(c, es), AllGroups(c, es)[k].key, es, es, es)
  }

  lemma {:induction false} BehindChain(c: Codes, es: seq<Event>, k: nat)
    requires DistinctIds(es) && k < |AllGroups(c, es)|
    ensures Chain(c, es, HeaderOf(c, AllGroups(c, es)[k]), Behind(c, es, k))
  {
    var p, g := PlanOf(c, es), AllGroups(c, es)[k];
    OwnChain(c, es, k);
    PassChain(c, es, k, Linked, 1);
    PassChain(c, es, k, Nearby, 2);
    PassChain(c, es, k, Tail, 3);
    FourChains(c, es, HeaderOf(c, g), Rest(c, g), PassOn(p, es, g.key, Linked),
      PassOn(p, es, g.key, Nearby), PassOn(p, es, g.key, Tail));
  }

  // ---- The pet a card shows ---------------------------------------------------------------------

  /** The first element that names one, after the head. */
  lemma {:induction false} FirstPetMeaning(head: Event, evs: seq<Event>)
    ensures FirstPet(head, evs).None? ==> head.pet.None? && forall i :: 0 <= i < |evs| ==> evs[i].pet.None?
    ensures FirstPet(head, evs).Some? && head.pet.Some? ==> FirstPet(head, evs) == head.pet
    ensures FirstPet(head, evs).Some? && head.pet.None? ==>
      exists i :: 0 <= i < |evs| && evs[i].pet == FirstPet(head, evs) && forall j :: 0 <= j < i ==> evs[j].pet.None?
    decreases |evs|
  {
    if evs != [] {
      var n := |evs| - 1;
      var before := evs[..n];
      FirstPetMeaning(head, before);
      if FirstPet(head, before).Some? && head.pet.None? {
        var i :| 0 <= i < n && before[i].pet == FirstPet(head, before) && forall j :: 0 <= j < i ==> before[j].pet.None?;
        assert forall j :: 0 <= j < i ==> evs[j] == before[j];
      } else if FirstPet(head, before).None? && evs[n].pet.Some? {
        assert forall j :: 0 <= j < n ==> evs[j] == before[j];
      }
    }
  }

  /** The card shows the event as its head or as a line. */
  ghost predicate ShownOn(v: CardView, e: Event) { e.id == v.id || exists i :: 0 <= i < |v.lines| && v.lines[i].id == e.id }

  /** `a` names the card's pet before `b` does: the head before all others. */
  ghost predicate NamesFirst(c: Codes, es: seq<Event>, v: CardView, a: Event, b: Event) {
    a.id == v.id || a == b || (b.id != v.id && Ahead(c, es, v.header, a, b))
  }

  ghost predicate FirstToName(c: Codes, es: seq<Event>, v: CardView, e: Event) {
    forall x :: x in es && ShownOn(v, x) && x.pet.Some? ==> NamesFirst(c, es, v, e, x)
  }

  lemma {:induction false} SameId(es: seq<Event>, a: Event, b: Event)
    requires DistinctIds(es) && a in es && b in es && a.id == b.id
    ensures a == b
  {
  }

  lemma {:induction false} BehindStored(c: Codes, es: seq<Event>, k: nat)
    requires DistinctIds(es) && k < |AllGroups(c, es)|
    ensures HeadOf(c, AllGroups(c, es)[k]) in es
    ensures forall e :: e in Behind(c, es, k) ==> e in es
  {
    var p, g := PlanOf(c, es), AllGroups(c, es)[k];
    OwnInOrder(c, es, k);
    HeadAmong(c, g);
    SortKeeps(g.own, EventKey);
    forall e | e in Behind(c, es, k) ensures e in es {
      if e in Rest(c, g) {
        assert e in Ordered(g.own);
      } else {
        HungWithin(p, es, g.key, e);
      }
    }
  }

  /** The lines of a card are those of the events behind it. */
  lemma {:induction false} LineIdsBehind(c: Codes, es: seq<Event>, own: string, evs: seq<Event>, lines: seq<Line>, id: int)
    requires lines == GiveMedia(c, es, own, SortBy(LinesOf(c, evs), LineKey))
    ensures (exists i :: 0 <= i < |lines| && lines[i].id == id) <==> (exists j :: 0 <= j < |evs| && evs[j].id == id)
  {
    LinesShow(c, es, own, evs);
    SameMembers(Map(LineId, lines), Map(EventId, evs));
    assert id in Map(LineId, lines) <==> id in Map(EventId, evs);
    if i :| 0 <= i < |lines| && lines[i].id == id {
      assert Map(LineId, lines)[i] == id;
    }
    if j :| 0 <= j < |evs| && evs[j].id == id {
      assert Map(EventId, evs)[j] == id;
    }
  }

  lemma {:induction false} ShownAre(c: Codes, es: seq<Event>, v: CardView, k: nat, e: Event)
    requires DistinctIds(es) && k < |AllGroups(c, es)| && v == TimelineCard(c, es, k) && e in es
    ensures ShownOn(v, e) <==> e == HeadOf(c, AllGroups(c, es)[k]) || e in Behind(c, es, k)
  {
    BehindStored(c, es, k);
    LineIdsBehind(c, es, v.header.rel, Behind(c, es, k), v.lines, e.id);
    if v.id == e.id {
      SameId(es, e, HeadOf(c, AllGroups(c, es)[k]));
    }
    if j :| 0 <= j < |Behind(c, es, k)| && Behind(c, es, k)[j].id == e.id {
      assert Behind(c, es, k)[j] in Behind(c, es, k);
      SameId(es, e, Behind(c, es, k)[j]);
    }
  }

  lemma {:induction false} FirstNamed(c: Codes, es: seq<Event>, v: CardView, head: Event, evs: seq<Event>) returns (e: Event)
    requires v.id == head.id && Chain(c, es, v.header, evs) && FirstPet(head, evs).Some?
    requires forall x :: x in evs ==> x.id != head.id
    ensures (e == head || e in evs) && e.pet == FirstPet(head, evs)
    ensures forall x :: (x == head || x in evs) && x.pet.Some? ==> NamesFirst(c, es, v, e, x)
  {
    FirstPetMeaning(head, evs);
    e := head;
    if head.pet.None? {
      var i: nat :| i < |evs| && evs[i].pet == FirstPet(head, evs) && forall j :: 0 <= j < i ==> evs[j].pet.None?;
      e := evs[i];
      LaterNamed(c, es, v, evs, i);
    }
  }

  lemma {:induction false} LaterNamed(c: Codes, es: seq<Event>, v: CardView, evs: seq<Event>, i: nat)
    requires Chain(c, es, v.header, evs) && forall x :: x in evs ==> x.id != v.id
    requires i < |evs| && forall j :: 0 <= j < i ==> evs[j].pet.None?
    ensures forall x :: x in evs && x.pet.Some? ==> NamesFirst(c, es, v, evs[i], x)
  {
    forall x | x in evs && x.pet.Some? ensures NamesFirst(c, es, v, evs[i], x) {
      var j :| 0 <= j < |evs| && evs[j] == x;
    }
  }

  lemma {:induction false} TwiceOnCard(cards: seq<CardView>, n: nat, i: nat)
    requires n < |cards| && i < |cards[n].lines| && cards[n].lines[i].id == cards[n].id
    ensures IdBag(cards)[cards[n].id] >= 2
  {
    BagWithout(cards, n);
    assert Map(LineId, cards[n].lines)[i] == cards[n].id;
  }

  /** No line shows the head once more. */
  lemma {:induction false} LinesApart(c: Codes, es: seq<Event>, v: CardView, i: nat)
    requires DistinctIds(es) && v in Grouped(c, es) && i < |v.lines|
    ensures v.lines[i].id != v.id
  {
    Conservation(c, es);
    var cards := Grouped(c, es);
    var n: nat :| n < |cards| && cards[n] == v;
    if v.lines[i].id == v.id {
      TwiceOnCard(cards, n, i);
    }
  }

  /** The events behind the lines are others than the head. */
  lemma {:induction false} HeadApart(c: Codes, es: seq<Event>, v: CardView, evs: seq<Event>, x: Event)
    requires DistinctIds(es) && v in Grouped(c, es) && x in evs
    requires v.lines == GiveMedia(c, es, v.header.rel, SortBy(LinesOf(c, evs), LineKey))
    ensures x.id != v.id
  {
    var j :| 0 <= j < |evs| && evs[j] == x;
    LineIdsBehind(c, es, v.header.rel, evs, v.lines, x.id);
    var i :| 0 <= i < |v.lines| && v.lines[i].id == x.id;
    LinesApart(c, es, v, i);
  }

  /** The card's pet is the one named first among the events it shows. */
  lemma {:induction false} PetNamedFirst(c: Codes, es: seq<Event>, v: CardView)
    requires DistinctIds(es) && v in Grouped(c, es)
    ensures v.pet.None? ==> forall x :: x in es && ShownOn(v, x) ==> x.pet.None?
    ensures v.pet.Some? ==> exists e :: e in es && ShownOn(v, e) && e.pet == v.pet && FirstToName(c, es, v, e)
  {
    var k := CardAt(c, es, v);
    var head, evs := HeadOf(c, AllGroups(c, es)[k]), Behind(c, es, k);
    BehindStored(c, es, k);
    BehindChain(c, es, k);
    forall x | x in es ensures ShownOn(v, x) <==> x == head || x in evs {
      ShownAre(c, es, v, k, x);
    }
    forall x | x in evs ensures x.id != head.id {
      HeadApart(c, es, v, evs, x);
    }
    FirstPetMeaning(head, evs);
    if v.pet.Some? {
      var e := FirstNamed(c, es, v, head, evs);
      assert FirstToName(c, es, v, e);
    }
  }

  // ---- The order of a card's lines ----------------------------------------------------------------

  lemma {:induction false} NoDupPlaces<T>(xs: seq<T>)
    requires NoDup(xs)
    ensures Sorted(xs, Place(xs))
    ensures forall i :: 0 <= i < |xs| ==> Index(xs, xs[i]) == i
  {
    forall i | 0 <= i < |xs| ensures Index(xs, xs[i]) == i {
      assert xs[i] in xs;
    }
  }

  lemma {:induction false} IndexHolds<T>(xs: seq<T>, x: T)
    requires x in xs
    ensures Index(xs, x) < |xs| && xs[Index(xs, x)] == x
  {
  }

  /** Where two neighbours in a sorted list come from: in order if their keys agree. */
  lemma {:induction false} SortedFrom<T>(xs: seq<T>, key: T -> real, i: nat, j: nat) returns (m: nat, n: nat)
    requires NoDup(xs) && i < j < |xs|
    ensures m < |xs| && n < |xs| && xs[m] == SortBy(xs, key)[i] && xs[n] == SortBy(xs, key)[j]
    ensures key(xs[m]) < key(xs[n]) || (key(xs[m]) == key(xs[n]) && m < n)
  {
    var r := SortBy(xs, key);
    NoDupPlaces(xs);
    SortStable(xs, key, Place(xs));
    SortCorrect(xs, key);
    OnceIsNoDup(xs);
    OnceIsNoDup(r);
    SortKeeps(xs, key);
    assert r[i] in r && r[j] in r;
    m, n := Index(xs, r[i]), Index(xs, r[j]);
    IndexHolds(xs, r[i]);
    IndexHolds(xs, r[j]);
    assert Place(xs)(r[i]) == m as real && Place(xs)(r[j]) == n as real;
  }

  lemma {:induction false} LinesNoDup(c: Codes, evs: seq<Event>)
    requires forall i, j :: 0 <= i < j < |evs| ==> evs[i].id != evs[j].id
    ensures NoDup(LinesOf(c, evs))
  {
    forall i, j | 0 <= i < j < |evs| ensures LinesOf(c, evs)[i] != LinesOf(c, evs)[j] {
      assert LinesOf(c, evs)[i].id == evs[i].id;
    }
  }

  lemma {:induction false} BehindDistinct(c: Codes, es: seq<Event>, k: nat)
    requires DistinctIds(es) && k < |AllGroups(c, es)|
    ensures forall i, j :: 0 <= i < j < |Behind(c, es, k)| ==> Behind(c, es, k)[i].id != Behind(c, es, k)[j].id
  {
    var evs := Behind(c, es, k);
    BehindStored(c, es, k);
    BehindChain(c, es, k);
    forall i, j | 0 <= i < j < |evs| ensures evs[i].id != evs[j].id {
      assert evs[i] in evs && evs[j] in evs;
      if evs[i].id == evs[j].id {
        SameId(es, evs[i], evs[j]);
      }
    }
  }

  /** The line of `a` stands before that of `b`: by time, and of one time in the order they came to the card. */
  ghost predicate RunsBefore(c: Codes, es: seq<Event>, h: Header, a: Event, b: Event) {
    || a.ts.GetOr(0.0) < b.ts.GetOr(0.0)
    || (a.ts.GetOr(0.0) == b.ts.GetOr(0.0) && Ahead(c, es, h, a, b))
  }

  ghost predicate LinesRun(c: Codes, es: seq<Event>, v: CardView, i: nat, j: nat, a: Event, b: Event)
    requires i < |v.lines| && j < |v.lines|
  {
    LineShows(c, v.lines[i], a) && LineShows(c, v.lines[j], b) && RunsBefore(c, es, v.header, a, b)
  }

  lemma {:induction false} LinesFrom(c: Codes, es: seq<Event>, v: CardView, evs: seq<Event>, i: nat, j: nat) returns (m: nat, n: nat)
    requires v.lines == GiveMedia(c, es, v.header.rel, SortBy(LinesOf(c, evs), LineKey)) && Chain(c, es, v.header, evs)
    requires forall a, b :: 0 <= a < b < |evs| ==> evs[a].id != evs[b].id
    requires i < j < |v.lines|
    ensures m < |evs| && n < |evs| && LinesRun(c, es, v, i, j, evs[m], evs[n])
  {
    LinesNoDup(c, evs);
    m, n := SortedFrom(LinesOf(c, evs), LineKey, i, j);
    LinesAreBehind(c, es, v, evs, i, j, m, n);
  }

  lemma {:induction false} CardLines(c: Codes, es: seq<Event>, v: CardView, k: nat)
    requires k < |AllGroups(c, es)| && v == TimelineCard(c, es, k)
    ensures v.lines == GiveMedia(c, es, v.header.rel, SortBy(LinesOf(c, Behind(c, es, k)), LineKey))
  {
  }

  /** The events behind a card's lines: stored ones, each once, in the order they came to it. */
  lemma {:induction false} CardEvents(c: Codes, es: seq<Event>, v: CardView) returns (evs: seq<Event>)
    requires DistinctIds(es) && v in Grouped(c, es)
    ensures v.lines == GiveMedia(c, es, v.header.rel, SortBy(LinesOf(c, evs), LineKey)) && Chain(c, es, v.header, evs)
    ensures forall a, b :: 0 <= a < b < |evs| ==> evs[a].id != evs[b].id
    ensures forall e :: e in evs ==> e in es
  {
    var k := CardAt(c, es, v);
    evs := Behind(c, es, k);
    CardLines(c, es, v, k);
    BehindStored(c, es, k);
    BehindChain(c, es, k);
    BehindDistinct(c, es, k);
  }

  /** The steps on a card run oldest first; those of one time run in the order in which they came to it. */
  lemma {:induction false} StepsRun(c: Codes, es: seq<Event>, v: CardView, i: nat, j: nat)
    requires DistinctIds(es) && v in Grouped(c, es) && i < j < |v.lines|
    ensures exists a, b :: a in es && b in es && LinesRun(c, es, v, i, j, a, b)
  {
    var evs := CardEvents(c, es, v);
    var m, n := LinesFrom(c, es, v, evs, i, j);
    assert evs[m] in evs && evs[n] in evs;
  }

  lemma {:induction false} LinesAreBehind(c: Codes, es: seq<Event>, v: CardView, evs: seq<Event>, i: nat, j: nat, m: nat, n: nat)
    requires v.lines == GiveMedia(c, es, v.header.rel, SortBy(LinesOf(c, evs), LineKey)) && Chain(c, es, v.header, evs)
    requires i < |v.lines| && j < |v.lines| && m < |evs| && n < |evs|
    requires LinesOf(c, evs)[m] == SortBy(LinesOf(c, evs), LineKey)[i]
    requires LinesOf(c, evs)[n] == SortBy(LinesOf(c, evs), LineKey)[j]
    requires var a, b := LineKey(LinesOf(c, evs)[m]), LineKey(LinesOf(c, evs)[n]); a < b || (a == b && m < n)
    ensures LinesRun(c, es, v, i, j, evs[m], evs[n])
  {
  }
}
