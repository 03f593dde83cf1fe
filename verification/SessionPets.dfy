/** When whole cards, with their pets and media, are the same for every order of the rows. */
module SessionPets {
  import opened Common
  import opened Sorting
  import opened SessionSpec
  import opened SessionSteps
  import opened SessionMedia
  import opened SessionConservation
  import opened SessionOrder

  /** What leaves no choice of home: distinct timestamps, one parent per episode and no
      tail between two cards. */
  ghost predicate Unambiguous(c: Codes, es: seq<Event>) {
    DistinctIds(es) && KeyIdentifies(es, EventKey) && OneParent(es) && NoTies(PlanOf(c, es), es)
  }

  // ---- Media ---------------------------------------------------------------------

  /** The rows of one episode carry the same list of media. */
  ghost predicate MediaPerEpisode(es: seq<Event>) {
    forall e, d :: e in es && d in es && e.rel == d.rel && e.rel != "" ==> e.media == d.media
  }

  lemma {:induction false} NothingNew(bucket: seq<int>, ms: seq<int>, i: nat)
    requires i <= |ms| && forall m :: m in ms ==> m in bucket
    ensures AppendNew(bucket, ms, i) == bucket
    decreases i
  {
    if i != 0 {
      NothingNew(bucket, ms, i - 1);
    }
  }

  lemma {:induction false} OneList(es: seq<Event>, rel: string, ms: seq<int>, i: nat)
    requires i <= |es| && forall j :: 0 <= j < i && es[j].rel == rel ==> es[j].media == ms
    ensures MediaOf(es, rel, i) == if exists j :: 0 <= j < i && es[j].rel == rel then AppendNew([], ms, |ms|) else []
    decreases i
  {
    if i != 0 {
      OneList(es, rel, ms, i - 1);
      if es[i - 1].rel == rel {
        AppendNewMeaning([], ms, |ms|);
        assert ms[..|ms|] == ms;
        NothingNew(AppendNew([], ms, |ms|), ms, |ms|);
      }
    }
  }

  lemma {:induction false} MediaSame(es: seq<Event>, fs: seq<Event>, rel: string)
    requires Same(es, fs) && MediaPerEpisode(es) && rel != ""
    ensures MediaOf(es, rel, |es|) == MediaOf(fs, rel, |fs|)
  {
    SameMembers(es, fs);
    if exists e :: e in es && e.rel == rel {
      var e :| e in es && e.rel == rel;
      OneList(es, rel, e.media, |es|);
      OneList(fs, rel, e.media, |fs|);
    } else {
      OneList(es, rel, [], |es|);
      OneList(fs, rel, [], |fs|);
    }
  }

  lemma {:induction false} GivenSame(c: Codes, es: seq<Event>, fs: seq<Event>, own: string, lines: seq<Line>)
    requires Same(es, fs) && MediaPerEpisode(es)
    ensures GiveMedia(c, es, own, lines) == GiveMedia(c, fs, own, lines)
  {
    forall i | 0 <= i < |lines| ensures MediaFor(c, es, own, lines, i) == MediaFor(c, fs, own, lines, i) {
      if lines[i].rel != "" {
        MediaSame(es, fs, lines[i].rel);
      }
    }
  }

  // ---- Which pet a card names ---------------------------------------------------------

  /** The first pet named. */
  function Named(evs: seq<Event>): Option<int>
    decreases |evs|
  {
    if evs == [] then None else
      var p := Named(evs[..|evs| - 1]);
      if p.Some? then p else evs[|evs| - 1].pet
  }

  ghost predicate Names(evs: seq<Event>) { exists e :: e in evs && e.pet.Some? }

  /** All pets named are the same. */
  ghost predicate OnePet(evs: seq<Event>) {
    forall e, d :: e in evs && d in evs && e.pet.Some? && d.pet.Some? ==> e.pet == d.pet
  }

  lemma {:induction false} NamedIsOne(evs: seq<Event>)
    ensures Named(evs).Some? <==> Names(evs)
    ensures Named(evs).Some? ==> exists e :: e in evs && e.pet == Named(evs)
    decreases |evs|
  {
    if evs != [] {
      var n := |evs| - 1;
      NamedIsOne(evs[..n]);
      assert evs == evs[..n] + [evs[n]];
    }
  }

  lemma {:induction false} NamedConcat(a: seq<Event>, b: seq<Event>)
    ensures Named(a + b) == if Named(a).Some? then Named(a) else Named(b)
    decreases |b|
  {
    if b == [] {
      assert a + b == a;
    } else {
      var n := |b| - 1;
      NamedConcat(a, b[..n]);
      assert (a + b)[..|a + b| - 1] == a + b[..n];
    }
  }

  lemma {:induction false} FirstIsNamed(head: Event, evs: seq<Event>)
    ensures FirstPet(head, evs) == Named([head] + evs)
    decreases |evs|
  {
    if evs == [] {
      assert [head] + evs == [head] && [head][..0] == [];
    } else {
      var n := |evs| - 1;
      FirstIsNamed(head, evs[..n]);
      assert ([head] + evs)[..|evs|] == [head] + evs[..n];
    }
  }

  lemma {:induction false} NamedSame(a: seq<Event>, b: seq<Event>)
    requires Same(a, b)
    ensures Names(a) <==> Names(b)
    ensures OnePet(a) ==> Named(a) == Named(b)
  {
    SameMembers(a, b);
    NamedIsOne(a);
    NamedIsOne(b);
  }

  /** The first of the attaching rules under which an event that names a pet is hung on the card. */
  ghost function NamingRule(p: Plan, es: seq<Event>, key: Key): Rule {
    if Names(Having(p, es, Home(key, Linked))) then Linked
    else if Names(Having(p, es, Home(key, Nearby))) then Nearby
    else Tail
  }

  ghost function Naming(p: Plan, es: seq<Event>, key: Key): seq<Event> {
    Having(p, es, Home(key, NamingRule(p, es, key)))
  }

  /** The card's own events name a pet, or those of the first rule that does agree on it. */
  ghost predicate PetSettled(p: Plan, es: seq<Event>, g: Group)
    requires g.own != []
  {
    Names([HeadOf(p.first.codes, g)] + Rest(p.first.codes, g)) || OnePet(Naming(p, es, g.key))
  }

  lemma {:induction false} HungNamed(p: Plan, es: seq<Event>, key: Key)
    ensures Named(Hung(p, key, es, es, es)) == Named(Naming(p, es, key))
  {
    var l, n, t := Having(p, es, Home(key, Linked)), Having(p, es, Home(key, Nearby)), Having(p, es, Home(key, Tail));
    NamedConcat(l + n, t);
    NamedConcat(l, n);
    NamedIsOne(l);
    NamedIsOne(n);
  }

  /** The pet a card shows: that of its own events, or else of the first rule that names one. */
  lemma {:induction false} CardPet(c: Codes, p: Plan, es: seq<Event>, g: Group)
    requires p.first.codes == c && g.own != []
    ensures CardOf(p, es, g).pet ==
      var own := Named([HeadOf(c, g)] + Rest(c, g)); if own.Some? then own else Named(Naming(p, es, g.key))
  {
    var head, rest, hung := HeadOf(c, g), Rest(c, g), Hung(p, g.key, es, es, es);
    FirstIsNamed(head, rest + hung);
    assert [head] + (rest + hung) == ([head] + rest) + hung;
    NamedConcat([head] + rest, hung);
    HungNamed(p, es, g.key);
  }

  lemma {:induction false} NamingSame(p: Plan, q: Plan, es: seq<Event>, fs: seq<Event>, key: Key)
    requires Same(es, fs) && SameHomes(p, q, es)
    ensures NamingRule(p, es, key) == NamingRule(q, fs, key)
    ensures Same(Naming(p, es, key), Naming(q, fs, key))
  {
    HavingSame(p, q, es, fs, Home(key, Linked));
    HavingSame(p, q, es, fs, Home(key, Nearby));
    HavingSame(p, q, es, fs, Home(key, Tail));
    NamedSame(Having(p, es, Home(key, Linked)), Having(q, fs, Home(key, Linked)));
    NamedSame(Having(p, es, Home(key, Nearby)), Having(q, fs, Home(key, Nearby)));
  }

  lemma {:induction false} PetSame(c: Codes, p: Plan, q: Plan, es: seq<Event>, fs: seq<Event>, g: Group, h: Group)
    requires p.first.codes == c == q.first.codes && Same(es, fs) && SameHomes(p, q, es)
    requires g.own != [] && h.own != [] && g.key == h.key && HeadOf(c, g) == HeadOf(c, h) && Rest(c, g) == Rest(c, h)
    requires PetSettled(p, es, g)
    ensures CardOf(p, es, g).pet == CardOf(q, fs, h).pet
  {
    CardPet(c, p, es, g);
    CardPet(c, q, fs, h);
    NamedIsOne([HeadOf(c, g)] + Rest(c, g));
    NamingSame(p, q, es, fs, g.key);
    NamedSame(Naming(p, es, g.key), Naming(q, fs, g.key));
  }

  // ---- Whole cards ---------------------------------------------------------------------

  lemma {:induction false} FinishSame(c: Codes, es: seq<Event>, fs: seq<Event>, v: CardView, w: CardView)
    requires Same(es, fs) && MediaPerEpisode(es)
    requires v.header == w.header && v.id == w.id && v.pet == w.pet && v.media == w.media
    requires SortBy(v.lines, LineKey) == SortBy(w.lines, LineKey)
    ensures Finish(c, es, v) == Finish(c, fs, w)
  {
    GivenSame(c, es, fs, v.header.rel, SortBy(v.lines, LineKey));
  }

  lemma {:induction false} HungLinesSame(c: Codes, p: Plan, q: Plan, es: seq<Event>, fs: seq<Event>, g: Group, rest: seq<Event>)
    requires Same(es, fs) && SameHomes(p, q, es) && KeyIdentifies(es, EventKey) && forall e :: e in rest ==> e in es
    ensures SortBy(LinesOf(c, rest + Hung(p, g.key, es, es, es)), LineKey)
         == SortBy(LinesOf(c, rest + Hung(q, g.key, fs, fs, fs)), LineKey)
  {
    var a, b := Hung(p, g.key, es, es, es), Hung(q, g.key, fs, fs, fs);
    HungSame(p, q, es, fs, g.key);
    BagConcat(rest, a);
    BagConcat(rest, b);
    LinesSame(c, es, rest + a, rest + b);
  }

  lemma {:induction false} WholeSame(c: Codes, p: Plan, q: Plan, es: seq<Event>, fs: seq<Event>, g: Group, h: Group)
    requires p.first.codes == c == q.first.codes && Same(es, fs) && SameHomes(p, q, es) && KeyIdentifies(es, EventKey)
    requires g.key == h.key && Same(g.own, h.own) && g.own != [] && h.own != [] && forall e :: e in g.own ==> e in es
    requires MediaPerEpisode(es) && PetSettled(p, es, g)
    ensures Finish(c, es, CardOf(p, es, g)) == Finish(c, fs, CardOf(q, fs, h))
  {
    Subset(es, g.own);
    GroupSame(c, g, h);
    HeadAndRest(c, g);
    RestWithin(g.own, HeadOf(c, g), Rest(c, g));
    HungLinesSame(c, p, q, es, fs, g, Rest(c, g));
    PetSame(c, p, q, es, fs, g, h);
    FinishSame(c, es, fs, CardOf(p, es, g), CardOf(q, fs, h));
  }

  ghost predicate PetsSettled(c: Codes, es: seq<Event>) {
    forall k :: 0 <= k < |AllGroups(c, es)| ==> PetSettled(PlanOf(c, es), es, AllGroups(c, es)[k])
  }

  function Whole(v: CardView): CardView { v }

  lemma {:induction false} SettledSame(c: Codes, es: seq<Event>, fs: seq<Event>)
    requires Unambiguous(c, es) && MediaPerEpisode(es) && PetsSettled(c, es) && Same(es, fs)
    ensures Grouped(c, es) == Grouped(c, fs)
  {
    var p, q, gs, hs := PlanOf(c, es), PlanOf(c, fs), AllGroups(c, es), AllGroups(c, fs);
    HomesSame(c, es, fs);
    forall i, j | 0 <= i < |gs| && 0 <= j < |hs| && gs[i].key == hs[j].key
      ensures Whole(FinishedCards(p, es, gs)[i]) == Whole(FinishedCards(q, fs, hs)[j])
    {
      OwnSame(c, es, fs, i, j);
      WholeSame(c, p, q, es, fs, gs[i], hs[j]);
    }
    SameView(Whole, NewestFirst, c, es, fs);
    assert Map(Whole, Grouped(c, es)) == Grouped(c, es) && Map(Whole, Grouped(c, fs)) == Grouped(c, fs);
  }

  // ---- The condition on the pets is needed ------------------------------------------------

  /** The rows with one of them moved to the front. */
  function InFront(es: seq<Event>, i: nat): (r: seq<Event>)
    requires i < |es|
    ensures |r| == |es| && r[0] == es[i]
  {
    [es[i]] + Without(es, i)
  }

  lemma {:induction false} InFrontSame(es: seq<Event>, i: nat)
    requires i < |es|
    ensures Same(es, InFront(es, i))
  {
    RemoveAt(es, i);
    BagConcat([es[i]], Without(es, i));
  }

  lemma {:induction false} HavingSnoc(p: Plan, es: seq<Event>, e: Event, home: Home)
    ensures Having(p, es + [e], home) == Having(p, es, home) + if HomeOf(p, e) == home then [e] else []
  {
    assert (es + [e])[..|es|] == es;
  }

  lemma {:induction false} Shifted(x: Event, es: seq<Event>, e: Event)
    ensures [x] + (es + [e]) == ([x] + es) + [e]
  {
  }

  lemma {:induction false} HavingFrontStep(p: Plan, x: Event, es: seq<Event>, e: Event, home: Home)
    requires Having(p, [x] + es, home) == [x] + Having(p, es, home)
    ensures Having(p, [x] + (es + [e]), home) == [x] + Having(p, es + [e], home)
  {
    var last := if HomeOf(p, e) == home then [e] else [];
    HavingSnoc(p, es, e, home);
    HavingSnoc(p, [x] + es, e, home);
    Shifted(x, es, e);
    assert ([x] + Having(p, es, home)) + last == [x] + (Having(p, es, home) + last);
  }

  lemma {:induction false} HavingOne(p: Plan, x: Event, home: Home)
    requires HomeOf(p, x) == home
    ensures Having(p, [x] + [], home) == [x] + Having(p, [], home)
  {
    HavingSnoc(p, [], x, home);
    assert [] + [x] == [x] + [] && [x] + Having(p, [], home) == Having(p, [], home) + [x];
  }

  lemma {:induction false} HavingFront(p: Plan, x: Event, es: seq<Event>, n: nat, home: Home)
    requires HomeOf(p, x) == home && n <= |es|
    ensures Having(p, [x] + es[..n], home) == [x] + Having(p, es[..n], home)
    decreases n
  {
    if n == 0 {
      HavingOne(p, x, home);
    } else {
      HavingFront(p, x, es, n - 1, home);
      HavingFrontStep(p, x, es[..n - 1], es[n - 1], home);
      Snoc(es, n - 1);
    }
  }

  lemma {:induction false} FrontNamed(x: Event, evs: seq<Event>)
    requires x.pet.Some?
    ensures Named([x] + evs) == x.pet
  {
    assert [x][..0] == [];
    NamedConcat([x], evs);
  }

  /** Of the events that decide a card's pet, the one stored first does. */
  lemma {:induction false} FrontDecides(c: Codes, p: Plan, es: seq<Event>, g: Group, i: nat)
    requires p.first.codes == c && g.own != [] && !Names([HeadOf(c, g)] + Rest(c, g))
    requires i < |es| && es[i].pet.Some? && HomeOf(p, es[i]) == Home(g.key, NamingRule(p, InFront(es, i), g.key))
    ensures CardOf(p, InFront(es, i), g).pet == es[i].pet
  {
    var fs := InFront(es, i);
    CardPet(c, p, fs, g);
    NamedIsOne([HeadOf(c, g)] + Rest(c, g));
    var others, home := Without(es, i), Home(g.key, NamingRule(p, fs, g.key));
    HavingFront(p, es[i], others, |others|, home);
    assert others[..|others|] == others;
    FrontNamed(es[i], Having(p, others, home));
  }

  /** The card a group becomes is on the Timeline. */
  lemma {:induction false} CardShown(c: Codes, es: seq<Event>, k: nat)
    requires k < |AllGroups(c, es)|
    ensures var v := Finish(c, es, CardOf(PlanOf(c, es), es, AllGroups(c, es)[k]));
      v in Grouped(c, es) && v.header == HeaderOf(c, AllGroups(c, es)[k])
  {
    var cards := FinishedCards(PlanOf(c, es), es, AllGroups(c, es));
    SortKeeps(cards, NewestFirst);
    assert cards[k] in cards;
  }

  /** Moved to the front, an event whose rule decides gives its pet to the card. */
  lemma {:induction false} PetFollowsFront(c: Codes, es: seq<Event>, k: nat, i: nat) returns (v: CardView)
    requires Unambiguous(c, es) && k < |AllGroups(c, es)| && i < |es| && es[i].pet.Some?
    requires !Names([HeadOf(c, AllGroups(c, es)[k])] + Rest(c, AllGroups(c, es)[k]))
    requires HomeOf(PlanOf(c, es), es[i]) == Home(AllGroups(c, es)[k].key, NamingRule(PlanOf(c, es), es, AllGroups(c, es)[k].key))
    ensures v in Grouped(c, InFront(es, i)) && v.header == HeaderOf(c, AllGroups(c, es)[k]) && v.pet == es[i].pet
  {
    var fs, g := InFront(es, i), AllGroups(c, es)[k];
    var p, q, hs := PlanOf(c, es), PlanOf(c, fs), AllGroups(c, fs);
    InFrontSame(es, i);
    HomesSame(c, es, fs);
    KeyCarried(c, es, fs, k);
    var j :| 0 <= j < |hs| && KeysOf(hs)[j] == g.key;
    OwnSame(c, es, fs, k, j);
    Subset(es, g.own);
    GroupSame(c, g, hs[j]);
    NamingSame(p, q, es, fs, g.key);
    assert es[i] in es;
    FrontDecides(c, q, es, hs[j], i);
    CardShown(c, fs, j);
    v := Finish(c, fs, CardOf(q, fs, hs[j]));
  }

  lemma {:induction false} WholeDistinct(c: Codes, es: seq<Event>)
    requires DistinctIds(es) && KeyIdentifies(es, EventKey)
    ensures KeyIdentifies(Grouped(c, es), NewestFirst)
  {
    var p, gs := PlanOf(c, es), AllGroups(c, es);
    var cards := FinishedCards(p, es, gs);
    AllKeysDistinct(c, es);
    AllOwnHoused(c, es, p);
    CardsDistinct(Whole, NewestFirst, c, es, p, gs);
    assert Map(Whole, cards) == cards;
    SortCorrect(cards, NewestFirst);
    KeysCarryOver(cards, SortBy(cards, NewestFirst), NewestFirst);
  }

  /** Cards of one Timeline that look alike from outside are one card. */
  lemma {:induction false} OneCardPerTime(c: Codes, es: seq<Event>, v: CardView, w: CardView)
    requires DistinctIds(es) && KeyIdentifies(es, EventKey)
    requires v in Grouped(c, es) && w in Grouped(c, es) && v.header.ts == w.header.ts
    ensures v == w
  {
    WholeDistinct(c, es);
    assert NewestFirst(v) == NewestFirst(w);
  }

  /** Two events that decide a card's pet differently make two Timelines of the same rows. */
  lemma {:induction false} PetsDisagree(c: Codes, es: seq<Event>, k: nat, i: nat, j: nat)
    requires Unambiguous(c, es) && k < |AllGroups(c, es)| && i < |es| && j < |es|
    requires es[i].pet.Some? && es[j].pet.Some? && es[i].pet != es[j].pet
    requires !Names([HeadOf(c, AllGroups(c, es)[k])] + Rest(c, AllGroups(c, es)[k]))
    requires es[i] in Naming(PlanOf(c, es), es, AllGroups(c, es)[k].key)
    requires es[j] in Naming(PlanOf(c, es), es, AllGroups(c, es)[k].key)
    ensures Grouped(c, InFront(es, i)) != Grouped(c, InFront(es, j))
  {
    var v := PetFollowsFront(c, es, k, i);
    var w := PetFollowsFront(c, es, k, j);
    var fs := InFront(es, i);
    InFrontSame(es, i);
    SameDistinct(es, fs);
    KeysCarryOver(es, fs, EventKey);
    if w in Grouped(c, fs) {
      OneCardPerTime(c, fs, v, w);
    }
  }

  /** Every order of the rows shows the card of group `k` with this pet. */
  ghost predicate PetAlways(c: Codes, es: seq<Event>, k: nat, pet: Option<int>)
    requires k < |AllGroups(c, es)|
  {
    forall fs, v :: Same(es, fs) && v in Grouped(c, fs) && v.header == HeaderOf(c, AllGroups(c, es)[k]) ==> v.pet == pet
  }

  lemma {:induction false} SettledPet(c: Codes, es: seq<Event>, fs: seq<Event>, k: nat, v: CardView)
    requires Unambiguous(c, es) && Same(es, fs) && k < |AllGroups(c, es)|
    requires PetSettled(PlanOf(c, es), es, AllGroups(c, es)[k])
    requires v in Grouped(c, fs) && v.header == HeaderOf(c, AllGroups(c, es)[k])
    ensures v.pet == CardOf(PlanOf(c, es), es, AllGroups(c, es)[k]).pet
  {
    var g, hs := AllGroups(c, es)[k], AllGroups(c, fs);
    HomesSame(c, es, fs);
    KeyCarried(c, es, fs, k);
    var j :| 0 <= j < |hs| && KeysOf(hs)[j] == g.key;
    OwnSame(c, es, fs, k, j);
    Subset(es, g.own);
    GroupSame(c, g, hs[j]);
    PetSame(c, PlanOf(c, es), PlanOf(c, fs), es, fs, g, hs[j]);
    CardShown(c, fs, j);
    SameDistinct(es, fs);
    KeysCarryOver(es, fs, EventKey);
    OneCardPerTime(c, fs, v, Finish(c, fs, CardOf(PlanOf(c, fs), fs, hs[j])));
  }

  /** A card's pet is the same for every order of the rows exactly when its own events
      name one, or those of the first attaching rule that names any agree. */
  lemma {:induction false} PetIndependent(c: Codes, es: seq<Event>, k: nat)
    requires Unambiguous(c, es) && k < |AllGroups(c, es)|
    ensures (exists pet :: PetAlways(c, es, k, pet)) <==> PetSettled(PlanOf(c, es), es, AllGroups(c, es)[k])
  {
    var pet := CardOf(PlanOf(c, es), es, AllGroups(c, es)[k]).pet;
    if PetSettled(PlanOf(c, es), es, AllGroups(c, es)[k]) {
      forall fs, v | Same(es, fs) && v in Grouped(c, fs) && v.header == HeaderOf(c, AllGroups(c, es)[k]) ensures v.pet == pet {
        SettledPet(c, es, fs, k, v);
      }
      assert PetAlways(c, es, k, pet);
    } else {
      var i, j := Disagreeing(c, es, k);
      InFrontSame(es, i);
      InFrontSame(es, j);
      var v := PetFollowsFront(c, es, k, i);
      var w := PetFollowsFront(c, es, k, j);
    }
  }

  lemma {:induction false} Disagreeing(c: Codes, es: seq<Event>, k: nat) returns (i: nat, j: nat)
    requires k < |AllGroups(c, es)| && !PetSettled(PlanOf(c, es), es, AllGroups(c, es)[k])
    ensures i < |es| && j < |es| && es[i].pet.Some? && es[j].pet.Some? && es[i].pet != es[j].pet
    ensures es[i] in Naming(PlanOf(c, es), es, AllGroups(c, es)[k].key)
    ensures es[j] in Naming(PlanOf(c, es), es, AllGroups(c, es)[k].key)
  {
    var naming := Naming(PlanOf(c, es), es, AllGroups(c, es)[k].key);
    var e, d :| e in naming && d in naming && e.pet.Some? && d.pet.Some? && e.pet != d.pet;
    assert e in es && d in es;
    var m :| 0 <= m < |es| && es[m] == e;
    var n :| 0 <= n < |es| && es[n] == d;
    i, j := m, n;
  }

  /** Every order of the rows gives the same Timeline. */
  ghost predicate OrderIrrelevant(c: Codes, es: seq<Event>) {
    forall fs :: Same(es, fs) ==> Grouped(c, fs) == Grouped(c, es)
  }

  lemma {:induction false} UnsettledSeen(c: Codes, es: seq<Event>, k: nat)
    requires Unambiguous(c, es) && k < |AllGroups(c, es)| && !PetSettled(PlanOf(c, es), es, AllGroups(c, es)[k])
    ensures !OrderIrrelevant(c, es)
  {
    var i, j := Disagreeing(c, es, k);
    InFrontSame(es, i);
    InFrontSame(es, j);
    PetsDisagree(c, es, k, i, j);
  }

  /** The order in which the rows were stored does not matter to whole cards exactly when
      every card's pet is named by its own events or agreed on by the first attaching rule
      that names one, provided nothing else is ambiguous. */
  lemma {:induction false} OrderIndependent(c: Codes, es: seq<Event>)
    requires Unambiguous(c, es) && MediaPerEpisode(es)
    ensures OrderIrrelevant(c, es) <==> PetsSettled(c, es)
  {
    if PetsSettled(c, es) {
      forall fs | Same(es, fs) ensures Grouped(c, fs) == Grouped(c, es) {
        SettledSame(c, es, fs);
      }
    } else {
      var k :| 0 <= k < |AllGroups(c, es)| && !PetSettled(PlanOf(c, es), es, AllGroups(c, es)[k]);
      UnsettledSeen(c, es, k);
    }
  }
}
