/**
 The debounced writer as a protocol: memory, a dirty flag, the file, and whole-
 snapshot writes in flight on worker threads.  A write is atomic when it lands;
 what can go wrong is which snapshot lands last.
 */
module RegistryProtocol {
  import opened Common

  /** `writing` is the write the flusher awaits; `orphans` outlived a cancelled flusher. */
  datatype State<T> = State(mem: T, dirty: bool, file: T, writing: Option<T>, orphans: seq<T>)

  datatype Event<T> =
    | Change(now: T)                  // mutate memory, then mark_dirty
    | Register(now: T, ok: bool)      // mutate memory, then save at once
    | Save(ok: bool)
    | FlushStart
    | FlushUnserialisable             // encoding the snapshot raised
    | FlushEnd(ok: bool)
    | Cancel                          // the flusher task is cancelled
    | OrphanEnd(k: nat, ok: bool)

  function Saved<T>(s: State<T>, ok: bool): State<T> {
    if ok then s.(dirty := false, file := s.mem) else s.(dirty := true)
  }

  function Flushable<T>(s: State<T>): bool { s.dirty && s.writing.None? }

  function Step<T>(s: State<T>, e: Event<T>): State<T> {
    match e
    case Change(now) => s.(mem := now, dirty := true)
    case Register(now, ok) => Saved(s.(mem := now), ok)
    case Save(ok) => Saved(s, ok)
    case FlushStart => if Flushable(s) then s.(dirty := false, writing := Some(s.mem)) else s
    case FlushUnserialisable => if Flushable(s) then s.(dirty := false) else s
    case FlushEnd(ok) =>
      if s.writing.None? then s
      else if ok then s.(file := s.writing.value, writing := None)
      else s.(dirty := true, writing := None)
    case Cancel =>
      if s.writing.None? then s else s.(writing := None, orphans := s.orphans + [s.writing.value])
    case OrphanEnd(k, ok) =>
      if k >= |s.orphans| then s
      else s.(orphans := Without(s.orphans, k), file := if ok then s.orphans[k] else s.file)
  }

  function Run<T>(s: State<T>, es: seq<Event<T>>): State<T>
    decreases |es|
  {
    if es == [] then s else Run(Step(s, es[0]), es[1..])
  }

  ghost predicate InFlight<T>(s: State<T>, w: T) { s.writing == Some(w) || w in s.orphans }

  predicate Idle<T>(s: State<T>) { s.writing.None? && s.orphans == [] }

  lemma {:induction false} RunFirst<T>(s: State<T>, e: Event<T>, rest: seq<Event<T>>)
    ensures Run(s, [e] + rest) == Run(Step(s, e), rest)
  {
    assert ([e] + rest)[1..] == rest;
  }

  lemma {:induction false} RunThree<T>(s: State<T>, e0: Event<T>, e1: Event<T>, e2: Event<T>)
    ensures Run(s, [e0, e1, e2]) == Step(Step(Step(s, e0), e1), e2)
  {
    RunFirst(s, e0, [e1, e2]);
    RunFirst(Step(s, e0), e1, [e2]);
    RunFirst(Step(Step(s, e0), e1), e2, []);
    assert [e0] + [e1, e2] == [e0, e1, e2] && [e1] + [e2] == [e1, e2] && [e2] + [] == [e2];
  }

  // ---- No lost update ---------------------------------------------------------

  /** What makes a run safe: no save while a write is in flight, no cancelled
      write, and every snapshot can be encoded. */
  predicate Disciplined<T>(s: State<T>, e: Event<T>) {
    match e
    case Register(_, _) => Idle(s)
    case Save(_) => Idle(s)
    case Cancel => s.writing.None?
    case FlushUnserialisable => !Flushable(s)
    case _ => true
  }

  predicate DisciplinedRun<T>(s: State<T>, es: seq<Event<T>>)
    decreases |es|
  {
    es == [] || (Disciplined(s, es[0]) && DisciplinedRun(Step(s, es[0]), es[1..]))
  }

  /** The newest memory is on disk with nothing to overwrite it, or on its way, or marked. */
  ghost predicate Covered<T>(s: State<T>) {
    && s.orphans == []
    && (s.dirty || (if s.writing.Some? then s.writing.value == s.mem else s.file == s.mem))
  }

  lemma {:induction false} StepCovered<T>(s: State<T>, e: Event<T>)
    requires Covered(s) && Disciplined(s, e)
    ensures Covered(Step(s, e))
  {
  }

  /** No update is lost on any disciplined run. */
  lemma {:induction false} NoLostUpdate<T>(s: State<T>, es: seq<Event<T>>)
    requires Covered(s) && DisciplinedRun(s, es)
    ensures Covered(Run(s, es))
    decreases |es|
  {
    if es != [] {
      StepCovered(s, es[0]);
      NoLostUpdate(Step(s, es[0]), es[1..]);
    }
  }

  /** Two flushes in a row settle any covered state on a working disk, whatever became of the write before. */
  lemma {:induction false} FlushSettles<T>(s: State<T>, ok: bool)
    requires Covered(s)
    ensures var r := Run(s, [FlushEnd(ok), FlushStart, FlushEnd(true)]); r.file == r.mem == s.mem && !r.dirty && Idle(r)
  {
    var e0, e1, e2: Event<T> := FlushEnd(ok), FlushStart, FlushEnd(true);
    StepCovered(s, e0);
    RunThree(s, e0, e1, e2);
  }

  /** `stop()`: when the flusher runs, cancel it and, as its done callback, save what
      is still marked; then save what is still marked. */
  function Stopped<T>(s: State<T>, task: bool, first: bool, second: bool): State<T> {
    var c := if task then Step(s, Cancel) else s;
    var d := if task && c.dirty then Saved(c, first) else c;
    if d.dirty then Saved(d, second) else d
  }

  /** Some attempt to save on the way out reaches the disk. */
  predicate Written(task: bool, first: bool, second: bool) { second || (task && first) }

  // ---- When what is on disk is final -------------------------------------------------

  /** Writes already in flight finish; nothing else happens. */
  predicate Landing<T>(e: Event<T>) { e.FlushEnd? || e.OrphanEnd? }

  ghost predicate Landings<T>(es: seq<Event<T>>) { forall i :: 0 <= i < |es| ==> Landing(es[i]) }

  /** The file is memory, and stays so in whatever order and with whatever success the
      writes in flight finish. */
  ghost predicate Final<T(!new)>(s: State<T>) {
    forall es: seq<Event<T>> :: Landings(es) ==> Run(s, es).file == s.mem
  }

  /** Exactly when the file is memory and every write in flight carries it too. */
  lemma {:induction false} SaveIsFinal<T(!new)>(s: State<T>)
    ensures Final(s) <==> s.file == s.mem && forall w :: InFlight(s, w) ==> w == s.mem
  {
    if s.file == s.mem && forall w :: InFlight(s, w) ==> w == s.mem {
      forall es: seq<Event<T>> | Landings(es) ensures Run(s, es).file == s.mem {
        LandingsKeep(s, es);
      }
    }
    if Final(s) {
      var none: seq<Event<T>> := [];
      assert Landings(none) && Run(s, none) == s;
      forall w | InFlight(s, w) ensures w == s.mem {
        var e := LandsOver(s, w);
        RunFirst(s, e, []);
        assert [e] + [] == [e] && Landings([e]);
      }
    }
  }

  /** Stopping keeps what was in flight in flight, and the newest memory in memory. */
  lemma {:induction false} StopKeepsFlights<T>(s: State<T>, task: bool, first: bool, second: bool, w: T)
    ensures Stopped(s, task, first, second).mem == s.mem
    ensures InFlight(Stopped(s, task, first, second), w) <==> InFlight(s, w)
    ensures Stopped(s, task, first, second).file == if s.dirty && Written(task, first, second) then s.mem else s.file
  {
  }

  /** What `stop()` guarantees, from any state whatever: memory is on disk for good
      exactly when the file already was memory or a marked change got written, and every
      write still in flight carries the newest memory too. */
  lemma {:induction false} StopIsFinal<T(!new)>(s: State<T>, task: bool, first: bool, second: bool)
    ensures Final(Stopped(s, task, first, second)) <==>
      (s.file == s.mem || (s.dirty && Written(task, first, second))) && forall w :: InFlight(s, w) ==> w == s.mem
  {
    var t := Stopped(s, task, first, second);
    SaveIsFinal(t);
    StopKeepsFlights(s, task, first, second, s.mem);
    forall w ensures InFlight(t, w) <==> InFlight(s, w) {
      StopKeepsFlights(s, task, first, second, w);
    }
  }

  /** After every disciplined run, `stop()` on a working disk loses nothing exactly when
      no write is in flight, or the one in flight carries the newest memory and that is
      marked or on disk already; and with nothing in flight it loses nothing exactly when
      nothing was marked, one attempt works, or the file happens to be memory. */
  lemma {:induction false} StopFlushes<T(!new)>(s: State<T>, es: seq<Event<T>>, task: bool, first: bool, second: bool)
    requires Covered(s) && DisciplinedRun(s, es)
    ensures var r := Run(s, es);
      Written(task, first, second) ==> (Final(Stopped(r, task, first, second)) <==>
        r.writing.None? || (r.writing.value == r.mem && (r.dirty || r.file == r.mem)))
    ensures var r := Run(s, es);
      r.writing.None? ==> (Final(Stopped(r, task, first, second)) <==>
        !r.dirty || Written(task, first, second) || r.file == r.mem)
  {
    NoLostUpdate(s, es);
    var r := Run(s, es);
    StopIsFinal(r, task, first, second);
    FlightOfCovered(r);
  }

  lemma {:induction false} FlightOfCovered<T(!new)>(s: State<T>)
    requires Covered(s)
    ensures (forall w :: InFlight(s, w) ==> w == s.mem) <==> s.writing.None? || s.writing.value == s.mem
  {
    assert s.writing.Some? ==> InFlight(s, s.writing.value);
  }

  lemma {:induction false} LandsOver<T>(s: State<T>, w: T) returns (e: Event<T>)
    requires InFlight(s, w)
    ensures Landing(e) && Step(s, e).file == w
  {
    if s.writing == Some(w) {
      e := FlushEnd(true);
    } else {
      var k :| 0 <= k < |s.orphans| && s.orphans[k] == w;
      e := OrphanEnd(k, true);
    }
  }

  lemma {:induction false} WithoutKeeps<T>(xs: seq<T>, k: nat, x: T)
    requires k < |xs| && x in Without(xs, k)
    ensures x in xs
  {
  }

  lemma {:induction false} LandingsKeep<T>(s: State<T>, es: seq<Event<T>>)
    requires s.file == s.mem && forall w :: InFlight(s, w) ==> w == s.mem
    requires Landings(es)
    ensures Run(s, es).file == s.mem
    decreases |es|
  {
    if es != [] {
      var t := Step(s, es[0]);
      assert s.writing.Some? ==> InFlight(s, s.writing.value);
      forall w | InFlight(t, w) ensures w == t.mem {
        if es[0].OrphanEnd? && es[0].k < |s.orphans| && w in t.orphans {
          WithoutKeeps(s.orphans, es[0].k, w);
        }
        assert InFlight(s, w);
      }
      assert es[0].OrphanEnd? && es[0].k < |s.orphans| ==> InFlight(s, s.orphans[es[0].k]);
      LandingsKeep(t, es[1..]);
    }
  }

  /** The interleaving that discipline excludes: a device is registered and saved
      while an older snapshot is being written.  The older snapshot lands last,
      nothing is marked, and no later flush will repair it. */
  lemma {:induction false} RegistrationOverwritten<T>(old0: T, old1: T, new0: T, rounds: nat)
    requires old1 != new0
    ensures var s := State(old0, false, old0, None, []);
      var r := Run(s, [Change(old1), FlushStart, Register(new0, true), FlushEnd(true)]);
      && r.mem == new0 && r.file == old1 && !r.dirty && Idle(r)
      && Run(r, Rounds(rounds)).file == old1
  {
    var s := State(old0, false, old0, None, []);
    var e0, e1, e2, e3 := Change(old1), FlushStart, Register(new0, true), FlushEnd(true);
    assert [e0, e1, e2, e3][1..] == [e1, e2, e3];
    RunThree(Step(s, e0), e1, e2, e3);
    RoundsIdle(Step(Step(Step(Step(s, e0), e1), e2), e3), rounds);
  }

  /** That many turns of the flusher. */
  function Rounds<T>(n: nat): seq<Event<T>> {
    if n == 0 then [] else [FlushStart, FlushEnd(true)] + Rounds(n - 1)
  }

  lemma {:induction false} RoundsIdle<T>(s: State<T>, n: nat)
    requires !s.dirty && Idle(s)
    ensures Run(s, Rounds(n)) == s
    decreases n
  {
    if n != 0 {
      var es := Rounds<T>(n);
      assert es[0] == FlushStart && es[1..][0] == FlushEnd(true) && es[1..][1..] == Rounds(n - 1);
      RoundsIdle(s, n - 1);
    }
  }

  /** A snapshot that cannot be encoded is given up: the change is neither on disk nor
      marked, and no later flush writes it. */
  lemma {:induction false} UnencodableLost<T>(old0: T, new0: T, rounds: nat)
    requires old0 != new0
    ensures var s := State(old0, false, old0, None, []);
      var r := Step(Step(s, Change(new0)), FlushUnserialisable);
      r.mem == new0 && !r.dirty && Run(r, Rounds(rounds)).file == old0
  {
    var s := State(old0, false, old0, None, []);
    RoundsIdle(Step(Step(s, Change(new0)), FlushUnserialisable), rounds);
  }

  /** The other way to lose one: the flusher is cancelled mid-write and the
      orphaned write fails, which nobody is left to notice. */
  lemma {:induction false} OrphanFailureLost<T>(old0: T, new0: T)
    requires old0 != new0
    ensures var s := State(old0, false, old0, None, []);
      var r := Step(Stopped(Run(s, [Change(new0), FlushStart]), true, true, true), OrphanEnd(0, false));
      r.mem == new0 && r.file == old0 && !r.dirty && Idle(r)
  {
    var s := State(old0, false, old0, None, []);
    assert [Change(new0), FlushStart][1..] == [FlushStart] && [Event<T>.FlushStart][1..] == [];
    assert Run(s, [Change(new0), FlushStart]) == Step(Step(s, Change(new0)), FlushStart);
  }

  // ---- What a registration buys ---------------------------------------------------

  /** Every later snapshot satisfies `P`. */
  predicate Keeps<T>(e: Event<T>, P: T -> bool) {
    match e
    case Change(now) => P(now)
    case Register(now, _) => P(now)
    case _ => true
  }

  /** `P` is on disk and in everything that could still be written there. */
  ghost predicate Secured<T(!new)>(s: State<T>, P: T -> bool) {
    P(s.mem) && P(s.file) && forall w :: InFlight(s, w) ==> P(w)
  }

  lemma {:induction false} StepSecured<T(!new)>(s: State<T>, e: Event<T>, P: T -> bool)
    requires Secured(s, P) && Keeps(e, P)
    ensures Secured(Step(s, e), P)
  {
    forall w | InFlight(Step(s, e), w) ensures P(w) {
      if e.OrphanEnd? && e.k < |s.orphans| && w in Without(s.orphans, e.k) {
        WithoutKeeps(s.orphans, e.k, w);
      }
      assert InFlight(s, w) || w == s.mem;
    }
    if e.OrphanEnd? && e.k < |s.orphans| {
      assert InFlight(s, s.orphans[e.k]);
    }
    if s.writing.Some? {
      assert InFlight(s, s.writing.value);
    }
  }

  /** Once registered with nothing in flight, a fact every later snapshot keeps
      is on disk for good: through failed writes, cancellations, overlapping
      saves and orphaned writes alike. */
  lemma {:induction false} RegistrationDurable<T(!new)>(s: State<T>, now: T, es: seq<Event<T>>, P: T -> bool)
    requires Idle(s) && P(now) && forall i :: 0 <= i < |es| ==> Keeps(es[i], P)
    ensures P(Run(Step(s, Register(now, true)), es).file)
  {
    SecuredRun(Step(s, Register(now, true)), es, P);
  }

  lemma {:induction false} SecuredRun<T(!new)>(s: State<T>, es: seq<Event<T>>, P: T -> bool)
    requires Secured(s, P) && forall i :: 0 <= i < |es| ==> Keeps(es[i], P)
    ensures Secured(Run(s, es), P)
    decreases |es|
  {
    if es != [] {
      StepSecured(s, es[0], P);
      SecuredRun(Step(s, es[0]), es[1..], P);
    }
  }
}
