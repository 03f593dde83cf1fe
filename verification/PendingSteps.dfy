/** What each event does to the queue, command by command. */
module PendingSteps {
  import opened Common
  import opened Filters
  import opened Pending

  /** A command without the settings that a panel write with these keys remembers. */
  function Stripped(params: Settings, allowed: set<string>): Command -> Command {
    (c: Command) =>
      match c
      case Action(tag) => c
      case PropertySet(tag, was) => PropertySet(tag, map k | k in was && !(k in params && k in allowed) :: was[k])
  }

  /** An action, or a write of at least one setting. */
  function SaysAnything(): Command -> bool { (c: Command) => c.Action? || exists k :: k in c.params }

  /** A write of settings of which each was sent with that very value. */
  predicate SaysNoMore(c: Command, sent: Settings) {
    && c.PropertySet? && (exists k :: k in c.params)
    && forall k :: k in c.params ==> k in sent && c.params[k] == sent[k]
  }

  function SaysMore(sent: Settings): Command -> bool { (c: Command) => !SaysNoMore(c, sent) }

  /** A write of settings of which each is pending. */
  predicate AllPending(c: Command, pending: Settings) {
    c.PropertySet? && forall k :: k in c.params ==> k in pending
  }

  function Survives(pending: Settings): Command -> bool { (c: Command) => !AllPending(c, pending) }

  lemma {:induction false} NoKeys(m: Settings)
    ensures m == map[] <==> forall k :: k !in m
  {
    if m != map[] {
      assert m.Keys != {};
    }
  }

  lemma {:induction false} MatchesExactly(c: Command, sent: Settings)
    ensures SaysNoMore(c, sent) <==> c.PropertySet? && Matches(c.params, sent)
  {
    if c.PropertySet? {
      NoKeys(c.params);
    }
  }

  lemma {:induction false} UnsentExactly(queue: seq<Command>, n: nat, sent: Settings)
    requires n <= |queue|
    ensures Unsent(queue, n, sent) == WhereUpTo(queue, n, SaysMore(sent))
    decreases n
  {
    if n != 0 {
      UnsentExactly(queue, n - 1, sent);
      MatchesExactly(queue[n - 1], sent);
    }
  }

  lemma {:induction false} SupersededExactly(queue: seq<Command>, n: nat, pending: Settings)
    requires n <= |queue|
    ensures Superseded(queue, n, pending) == WhereUpTo(queue, n, Survives(pending))
    decreases n
  {
    if n != 0 {
      SupersededExactly(queue, n - 1, pending);
      KeysWithin(queue[n - 1], pending);
    }
  }

  lemma {:induction false} KeysWithin(c: Command, pending: Settings)
    ensures AllPending(c, pending) <==> c.PropertySet? && c.params.Keys <= pending.Keys
  {
  }

  lemma {:induction false} StripOne(c: Command, params: Settings, allowed: set<string>)
    ensures var s := Stripped(params, allowed)(c);
      && (c.Action? ==> s == c)
      && (c.PropertySet? ==> s == PropertySet(c.tag, c.params - Restricted(params, allowed).Keys))
    ensures SaysAnything()(Stripped(params, allowed)(c)) <==>
      c.Action? || c.params - Restricted(params, allowed).Keys != map[]
  {
    if c.PropertySet? {
      var s := Stripped(params, allowed)(c);
      assert s.params == c.params - Restricted(params, allowed).Keys;
      NoKeys(s.params);
    }
  }

  lemma {:induction false} StruckExactly(queue: seq<Command>, n: nat, params: Settings, allowed: set<string>)
    requires n <= |queue|
    ensures Struck(queue, n, Restricted(params, allowed).Keys)
         == WhereUpTo(Map(Stripped(params, allowed), queue), n, SaysAnything())
    decreases n
  {
    if n != 0 {
      StruckExactly(queue, n - 1, params, allowed);
      StripOne(queue[n - 1], params, allowed);
    }
  }

  // ---- Event by event ---------------------------------------------------------------------

  /** Some of the write's settings are settings of the device. */
  ghost predicate Remembers(params: Settings, allowed: set<string>) { exists k :: k in params && k in allowed }

  /** A panel write that begins makes each of its settings the pending value and strikes
      it from every queued write, of which those are left that still say anything; one
      without a setting of the device changes neither.  While one is under way nothing happens. */
  lemma {:induction false} BeginExactly(s: State, allowed: set<string>, tag: int, params: Settings)
    ensures var r := Step(s, Begin(allowed, tag, params));
      if s.flight.Some? then r == s
      else
        && r.flight == Some(Delivery(allowed, tag, params)) && r.handed == s.handed
        && (forall k, v :: Holds(r.pending, k, v) <==>
             if k in params && k in allowed then params[k] == v else Holds(s.pending, k, v))
        && r.queue == if Remembers(params, allowed)
                      then Where(Map(Stripped(params, allowed), s.queue), SaysAnything()) else s.queue
  {
    var settings := Restricted(params, allowed);
    NoKeys(settings);
    if k :| k in params && k in allowed {
      assert k in settings;
    }
    StruckExactly(s.queue, |s.queue|, params, allowed);
  }

  /** What was sent is pending no longer, unless another value was asked meanwhile, and
      every queued write that says no more is gone; all other commands stay in order. */
  lemma {:induction false} SentExactly(s: State, sent: Settings)
    ensures var r := Step(s, Sent(sent));
      && (forall k, v :: Holds(r.pending, k, v) <==> Holds(s.pending, k, v) && !Holds(sent, k, v))
      && r.queue == Where(s.queue, SaysMore(sent)) && r.handed == s.handed && r.flight == s.flight
  {
    UnsentExactly(s.queue, |s.queue|, sent);
  }

  /** The settings of the device among those of the write. */
  ghost predicate SettingsOf(w: Delivery, sent: Settings) {
    forall k, v :: Holds(sent, k, v) <==> Holds(w.params, k, v) && k in w.allowed
  }

  /** A write whose publish succeeds counts as sent in those settings of the device it
      holds; one whose publish fails is queued whole. */
  lemma {:induction false} EndExactly(s: State, live: bool)
    requires s.flight.Some?
    ensures var w := s.flight.value; var r := Step(s, End(live));
      && r.flight.None? && r.handed == s.handed
      && (!live ==> r.pending == s.pending && r.queue == s.queue + [PropertySet(w.tag, w.params)])
      && (live ==> exists sent :: SettingsOf(w, sent) && r == Step(s, Sent(sent)).(flight := None))
  {
    var w := s.flight.value;
    var sent := Restricted(w.params, w.allowed);
    assert SettingsOf(w, sent);
  }

  /** A poll hands over the queue as it is when nothing is pending; else the commands that
      are not writes of pending settings alone, in order, and last one write of all that is
      pending.  It leaves nothing behind. */
  lemma {:induction false} PollExactly(s: State)
    ensures var r := Step(s, Poll);
      && r.queue == [] && r.pending == map[] && r.flight == s.flight
      && r.handed == s.handed + if forall k :: k !in s.pending then s.queue
           else Where(s.queue, Survives(s.pending)) + [PropertySet(0, s.pending)]
  {
    NoKeys(s.pending);
    SupersededExactly(s.queue, |s.queue|, s.pending);
  }
}
