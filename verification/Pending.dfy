/** Latest-value-only delivery of settings: what is pending, what is queued, and what a poll hands over. */
module Pending {
  import opened Common

  /** A setting's value as its JSON text. */
  type Value = string

  type Settings = map<string, Value>

  /** A queued command: a property write, whose other fields are told by `tag`, or anything else. */
  datatype Command = PropertySet(tag: int, params: Settings) | Action(tag: int)

  // ---- The two operations on the queue ---------------------------------------------------

  /** The first `n` commands with the given keys struck out of every property write. */
  function Struck(queue: seq<Command>, n: nat, keys: set<string>): seq<Command>
    requires n <= |queue|
  {
    if n == 0 then [] else
      var r := Struck(queue, n - 1, keys);
      match queue[n - 1]
      case Action(_) => r + [queue[n - 1]]
      case PropertySet(tag, params) => if params - keys == map[] then r else r + [PropertySet(tag, params - keys)]
  }

  predicate Matches(params: Settings, sent: Settings) {
    params != map[] && forall k :: k in params ==> k in sent && sent[k] == params[k]
  }

  /** The first `n` commands without the property writes that say no more than `sent`. */
  function Unsent(queue: seq<Command>, n: nat, sent: Settings): seq<Command>
    requires n <= |queue|
  {
    if n == 0 then [] else
      var r := Unsent(queue, n - 1, sent);
      if queue[n - 1].PropertySet? && Matches(queue[n - 1].params, sent) then r else r + [queue[n - 1]]
  }

  /** Pending values other than those just sent. */
  function Confirmed(pending: Settings, sent: Settings): Settings {
    map k | k in pending && !(k in sent && sent[k] == pending[k]) :: pending[k]
  }

  /** The queue without the property writes whose keys are all pending. */
  function Superseded(queue: seq<Command>, n: nat, pending: Settings): seq<Command>
    requires n <= |queue|
  {
    if n == 0 then [] else
      var r := Superseded(queue, n - 1, pending);
      if queue[n - 1].PropertySet? && queue[n - 1].params.Keys <= pending.Keys then r else r + [queue[n - 1]]
  }

  /** What a poll hands over. */
  function Handed(pending: Settings, queue: seq<Command>): seq<Command> {
    if pending == map[] then queue else Superseded(queue, |queue|, pending) + [PropertySet(0, pending)]
  }

  class DeviceSettings {
    var pending: Settings
    var queue: seq<Command>
    // The panel write that holds the delivery lock.
    var flight: Option<Delivery>

    /** Nothing has been handed over yet. */
    function St(): State
      reads this
    {
      State(pending, queue, [], flight)
    }

    method Remember(params: Settings)
      modifies this`pending, this`queue
      ensures pending == old(pending) + params
      ensures queue == Struck(old(queue), |old(queue)|, params.Keys)
    {
      pending := pending + params;
      var retained := [];
      for i := 0 to |queue|
        invariant queue == old(queue) && pending == old(pending) + params
        invariant retained == Struck(queue, i, params.Keys)
      {
        var command := queue[i];
        if command.PropertySet? {
          command := command.(params := command.params - params.Keys);
          if command.params == map[] {
            continue;
          }
        }
        retained := retained + [command];
      }
      queue := retained;
    }

    method Completed(sent: Settings)
      modifies this`pending, this`queue
      ensures pending == Confirmed(old(pending), sent)
      ensures queue == Unsent(old(queue), |old(queue)|, sent)
    {
      var keys := sent.Keys;
      ghost var seen: set<string> := {};
      while keys != {}
        invariant queue == old(queue) && seen + keys == sent.Keys && seen !! keys
        invariant pending == map k | k in old(pending) && !(k in seen && sent[k] == old(pending)[k]) :: old(pending)[k]
        decreases |keys|
      {
        var key :| key in keys;
        if key in pending && pending[key] == sent[key] {
          pending := pending - {key};
        }
        keys, seen := keys - {key}, seen + {key};
      }
      assert pending == Confirmed(old(pending), sent);
      var retained := [];
      for i := 0 to |queue|
        invariant queue == old(queue) && pending == Confirmed(old(pending), sent)
        invariant retained == Unsent(queue, i, sent)
      {
        if !(queue[i].PropertySet? && Matches(queue[i].params, sent)) {
          retained := retained + [queue[i]];
        }
      }
      queue := retained;
    }

    /** A panel write takes the lock and remembers the settings in it. */
    method BeginWrite(allowed: set<string>, tag: int, params: Settings)
      requires flight.None?
      modifies this
      ensures St() == Step(old(St()), Begin(allowed, tag, params))
    {
      var settings := Restricted(params, allowed);
      if settings != map[] {
        Remember(settings);
      }
      flight := Some(Delivery(allowed, tag, params));
    }

    /** Its publish has ended: the settings are confirmed, or the write is queued. */
    method EndWrite(live: bool)
      requires flight.Some?
      modifies this
      ensures St() == Step(old(St()), End(live))
    {
      var write := flight.value;
      if live {
        Completed(Restricted(write.params, write.allowed));
      } else {
        queue := queue + [PropertySet(write.tag, write.params)];
      }
      flight := None;
    }

    /** A write by Home Assistant, or of the clock's zone: sent at once or queued, and never
        remembered. */
    method WriteDirect(tag: int, params: Settings, live: bool)
      modifies this
      ensures St() == Step(old(St()), Direct(tag, params, live))
    {
      if !live {
        queue := queue + [PropertySet(tag, params)];
      }
    }

    /** Drains the queue into one answer and takes everything in it as delivered. */
    method Poll() returns (handed: seq<Command>)
      modifies this`pending, this`queue
      ensures handed == Handed(old(pending), old(queue))
      ensures pending == map[] && queue == []
    {
      handed := queue;
      queue := [];
      if pending != map[] {
        handed := DropSuperseded(handed);
        handed := handed + [PropertySet(0, pending)];
      }
      ghost var before := pending;
      for i := 0 to |handed|
        invariant queue == [] && (forall k :: k in pending ==> k in before && before[k] == pending[k])
        invariant i == |handed| ==> pending == map[]
      {
        if handed[i].PropertySet? {
          Completed(handed[i].params);
        }
      }
    }

    method DropSuperseded(commands: seq<Command>) returns (kept: seq<Command>)
      ensures kept == Superseded(commands, |commands|, pending)
    {
      kept := [];
      for i := 0 to |commands|
        invariant kept == Superseded(commands, i, pending)
      {
        if !(commands[i].PropertySet? && commands[i].params.Keys <= pending.Keys) {
          kept := kept + [commands[i]];
        }
      }
    }
  }

  // ---- Runs -----------------------------------------------------------------------------------

  /** A panel write under way, and the keys that were settings of the device when it began. */
  datatype Delivery = Delivery(allowed: set<string>, tag: int, params: Settings)

  /** A panel write begins; its publish ends; a write that is not remembered goes out or
      is queued; any other command is queued; a write is reported as sent; a poll. */
  datatype Event =
    | Begin(allowed: set<string>, tag: int, params: Settings)
    | End(live: bool)
    | Direct(tag: int, params: Settings, live: bool)
    | Act(tag: int)
    | Sent(sent: Settings)
    | Poll

  datatype State = State(pending: Settings, queue: seq<Command>, handed: seq<Command>, flight: Option<Delivery>)

  function Remembered(s: State, params: Settings): State {
    if params == map[] then s
    else s.(pending := s.pending + params, queue := Struck(s.queue, |s.queue|, params.Keys))
  }

  function Sending(s: State, sent: Settings): State {
    s.(pending := Confirmed(s.pending, sent), queue := Unsent(s.queue, |s.queue|, sent))
  }

  function Queued(s: State, tag: int, params: Settings): State {
    s.(queue := s.queue + [PropertySet(tag, params)])
  }

  /** The keys of a write that are settings of the device. */
  function Restricted(params: Settings, allowed: set<string>): Settings {
    map k | k in params && k in allowed :: params[k]
  }

  /** The lock admits one panel write at a time. */
  function Step(s: State, e: Event): State {
    match e
    case Begin(allowed, tag, params) =>
      if s.flight.Some? then s
      else Remembered(s, Restricted(params, allowed)).(flight := Some(Delivery(allowed, tag, params)))
    case End(live) =>
      if s.flight.None? then s
      else
        var write := s.flight.value;
        (if live then Sending(s, Restricted(write.params, write.allowed)) else Queued(s, write.tag, write.params)).(flight := None)
    case Direct(tag, params, live) => if live then s else Queued(s, tag, params)
    case Act(tag) => s.(queue := s.queue + [Action(tag)])
    case Sent(sent) => Sending(s, sent)
    case Poll => s.(pending := map[], queue := [], handed := s.handed + Handed(s.pending, s.queue))
  }

  /** From what was pending at the start, with nothing queued. */
  function Run(start: Settings, events: seq<Event>, n: nat): State
    requires n <= |events|
  {
    if n == 0 then State(start, [], [], None) else Step(Run(start, events, n - 1), events[n - 1])
  }

  // ---- Nothing stale is queued, nothing twice ---------------------------------------------------------

  predicate Writes(c: Command, k: string) { c.PropertySet? && k in c.params }

  /** How many of the first `n` commands write the key. */
  function Holders(queue: seq<Command>, n: nat, k: string): nat
    requires n <= |queue|
  {
    if n == 0 then 0 else Holders(queue, n - 1, k) + if Writes(queue[n - 1], k) then 1 else 0
  }

  /** What an event asks the device to hold. */
  function Asked(s: State, e: Event): Settings {
    match e
    case Begin(_, _, params) => if s.flight.Some? then map[] else params
    case Direct(_, params, _) => params
    case _ => map[]
  }

  function NewestAfter(w: Option<Value>, s: State, e: Event, k: string): Option<Value> {
    if k in Asked(s, e) then Some(Asked(s, e)[k]) else w
  }

  /** The newest value asked for the key, remembered or not. */
  function Newest(start: Settings, events: seq<Event>, n: nat, k: string): Option<Value>
    requires n <= |events|
  {
    if n == 0 then if k in start then Some(start[k]) else None
    else NewestAfter(Newest(start, events, n - 1, k), Run(start, events, n - 1), events[n - 1], k)
  }

  ghost predicate AllQueued(queue: seq<Command>, k: string, w: Option<Value>) {
    forall c :: c in queue && Writes(c, k) ==> w == Some(c.params[k])
  }

  /** The panel write under way writes the key. */
  predicate UnderWay(s: State, k: string) { s.flight.Some? && k in s.flight.value.params }

  /** The key is in at most one write that is queued or under way, and neither queued nor
      under way nor pending with any value but the newest. */
  ghost predicate InOrder(s: State, k: string, w: Option<Value>) {
    && Holders(s.queue, |s.queue|, k) <= (if UnderWay(s, k) then 0 else 1)
    && AllQueued(s.queue, k, w)
    && (k in s.pending ==> w == Some(s.pending[k]))
    && (UnderWay(s, k) ==> w == Some(s.flight.value.params[k]))
  }

  /** The event writes the key without remembering it. */
  predicate Strays(s: State, e: Event, k: string) { k in Asked(s, e) && (e.Begin? ==> k !in e.allowed) }

  predicate Live(e: Event) { e.Direct? && e.live }

  /** The event writes the key without remembering it: past another value that is still
      pending, queued or under way, or into a queue beside another write of it. */
  ghost predicate Overtakes(s: State, e: Event, k: string) {
    && Strays(s, e, k)
    && var v := Asked(s, e)[k];
       || (k in s.pending && s.pending[k] != v)
       || (if Live(e) then !AllQueued(s.queue, k, Some(v)) || (UnderWay(s, k) && s.flight.value.params[k] != v)
           else Holders(s.queue, |s.queue|, k) > 0 || UnderWay(s, k))
  }

  /** After the event the key is in order, whatever was queued and pending. */
  predicate Restores(s: State, e: Event, k: string) {
    (e.Poll? && !UnderWay(s, k)) || (e.Begin? && k in Asked(s, e) && k in e.allowed)
  }

  lemma {:induction false} HoldersPrefix(queue: seq<Command>, more: seq<Command>, n: nat, k: string)
    requires n <= |queue|
    ensures Holders(queue + more, n, k) == Holders(queue, n, k)
    decreases n
  {
    if n != 0 {
      HoldersPrefix(queue, more, n - 1, k);
    }
  }

  lemma {:induction false} HoldersSnoc(queue: seq<Command>, c: Command, k: string)
    ensures Holders(queue + [c], |queue| + 1, k) == Holders(queue, |queue|, k) + if Writes(c, k) then 1 else 0
  {
    HoldersPrefix(queue, [c], |queue|, k);
  }

  lemma {:induction false} HoldersAny(queue: seq<Command>, n: nat, k: string)
    requires n <= |queue|
    ensures Holders(queue, n, k) > 0 <==> exists i :: 0 <= i < n && Writes(queue[i], k)
    decreases n
  {
    if n != 0 {
      HoldersAny(queue, n - 1, k);
    }
  }

  lemma {:induction false} StruckHolders(queue: seq<Command>, n: nat, keys: set<string>, k: string)
    requires n <= |queue|
    ensures var r := Struck(queue, n, keys); Holders(r, |r|, k) == if k in keys then 0 else Holders(queue, n, k)
    ensures forall c :: c in Struck(queue, n, keys) && Writes(c, k) ==>
      k !in keys && exists b :: b in queue && Writes(b, k) && b.params[k] == c.params[k]
    decreases n
  {
    if n != 0 {
      StruckHolders(queue, n - 1, keys, k);
      var r, b := Struck(queue, n - 1, keys), queue[n - 1];
      assert b in queue;
      if b.Action? {
        HoldersSnoc(r, b, k);
      } else {
        HoldersSnoc(r, PropertySet(b.tag, b.params - keys), k);
        assert b.params - keys == map[] ==> k !in b.params - keys;
      }
    }
  }

  lemma {:induction false} UnsentHolders(queue: seq<Command>, n: nat, sent: Settings, k: string)
    requires n <= |queue|
    ensures var r := Unsent(queue, n, sent); Holders(r, |r|, k) <= Holders(queue, n, k)
    ensures k !in sent ==> var r := Unsent(queue, n, sent); Holders(r, |r|, k) == Holders(queue, n, k)
    ensures forall c :: c in Unsent(queue, n, sent) ==> c in queue
    decreases n
  {
    if n != 0 {
      UnsentHolders(queue, n - 1, sent, k);
      HoldersSnoc(Unsent(queue, n - 1, sent), queue[n - 1], k);
    }
  }

  /** A write of other keys leaves what is held for this one as it was. */
  lemma {:induction false} OthersWritten(s: State, settings: Settings, k: string, w: Option<Value>)
    requires k !in settings && InOrder(s, k, w)
    ensures var r := Remembered(s, settings);
      && InOrder(r, k, w) && Holders(r.queue, |r.queue|, k) == Holders(s.queue, |s.queue|, k)
      && (k in r.pending <==> k in s.pending)
  {
    StruckHolders(s.queue, |s.queue|, settings.Keys, k);
  }

  lemma {:induction false} SendingInOrder(s: State, sent: Settings, k: string, w: Option<Value>)
    requires InOrder(s, k, w)
    ensures InOrder(Sending(s, sent), k, w)
  {
    UnsentHolders(s.queue, |s.queue|, sent, k);
  }

  /** What is left in order when an unremembered value has gone out past it. */
  lemma {:induction false} PassedInOrder(s: State, k: string, w: Option<Value>, v: Value)
    requires InOrder(s, k, w)
    ensures InOrder(s, k, Some(v)) <==>
      && (k in s.pending ==> s.pending[k] == v) && AllQueued(s.queue, k, Some(v))
      && (UnderWay(s, k) ==> s.flight.value.params[k] == v)
  {
  }

  lemma {:induction false} QueuedInOrder(s: State, tag: int, params: Settings, k: string, w: Option<Value>)
    requires InOrder(s, k, w)
    ensures var r := Queued(s, tag, params);
      if k in params then
        InOrder(r, k, Some(params[k])) <==>
          && Holders(s.queue, |s.queue|, k) == 0 && !UnderWay(s, k)
          && (k in s.pending ==> s.pending[k] == params[k])
      else InOrder(r, k, w)
  {
    HoldersSnoc(s.queue, PropertySet(tag, params), k);
    HoldersAny(s.queue, |s.queue|, k);
  }

  /** A remembered write begun, and a poll, put the key in order from any state. */
  lemma {:induction false} Restored(s: State, e: Event, k: string, w: Option<Value>)
    requires Restores(s, e, k)
    ensures InOrder(Step(s, e), k, NewestAfter(w, s, e, k))
  {
    if e.Begin? {
      var settings := Restricted(e.params, e.allowed);
      assert k in settings;
      StruckHolders(s.queue, |s.queue|, settings.Keys, k);
    }
  }

  lemma {:induction false} BeginInOrder(s: State, e: Event, k: string, w: Option<Value>)
    requires InOrder(s, k, w) && e.Begin? && s.flight.None?
    ensures InOrder(Step(s, e), k, NewestAfter(w, s, e, k)) <==> !Overtakes(s, e, k)
  {
    if k in e.params && k in e.allowed {
      Restored(s, e, k, w);
    } else {
      OthersWritten(s, Restricted(e.params, e.allowed), k, w);
      HoldersAny(Step(s, e).queue, |Step(s, e).queue|, k);
    }
  }

  lemma {:induction false} EndInOrder(s: State, live: bool, k: string, w: Option<Value>)
    requires InOrder(s, k, w) && s.flight.Some?
    ensures InOrder(Step(s, End(live)), k, w)
  {
    var write := s.flight.value;
    var r := s.(flight := None);
    if live {
      SendingInOrder(s, Restricted(write.params, write.allowed), k, w);
    } else {
      QueuedInOrder(r, write.tag, write.params, k, w);
    }
  }

  /** One step keeps a key in order exactly when it is no unremembered write past another. */
  lemma {:induction false} StepInOrder(s: State, e: Event, k: string, w: Option<Value>)
    requires InOrder(s, k, w)
    ensures InOrder(Step(s, e), k, NewestAfter(w, s, e, k)) <==> !Overtakes(s, e, k)
  {
    match e
    case Begin(_, _, _) =>
      if s.flight.None? {
        BeginInOrder(s, e, k, w);
      }
    case End(live) =>
      if s.flight.Some? {
        EndInOrder(s, live, k, w);
      }
    case Direct(tag, params, live) =>
      QueuedInOrder(s, tag, params, k, w);
      if k in params {
        PassedInOrder(s, k, w, params[k]);
      }
    case Act(tag) => HoldersSnoc(s.queue, Action(tag), k);
    case Sent(sent) => SendingInOrder(s, sent, k, w);
    case Poll =>
  }

  /** The key is in order after `m` steps of a run. */
  ghost predicate InOrderAt(start: Settings, events: seq<Event>, m: nat, k: string)
    requires m <= |events|
  {
    InOrder(Run(start, events, m), k, Newest(start, events, m, k))
  }

  /** Step `m` of a run writes the key, unremembered, past another value. */
  ghost predicate OvertakesAt(start: Settings, events: seq<Event>, m: nat, k: string)
    requires m < |events|
  {
    Overtakes(Run(start, events, m), events[m], k)
  }

  /** The run starts at step `i`, or the step before puts the key in order. */
  predicate FromOrder(start: Settings, events: seq<Event>, i: nat, k: string)
    requires i <= |events|
  {
    i == 0 || Restores(Run(start, events, i - 1), events[i - 1], k)
  }

  /** In order after every step from `i` to `n`. */
  ghost predicate StaysInOrder(start: Settings, events: seq<Event>, i: nat, n: nat, k: string)
    requires i <= n <= |events|
  {
    forall m :: i <= m <= n ==> InOrderAt(start, events, m, k)
  }

  ghost predicate NoneOvertakes(start: Settings, events: seq<Event>, i: nat, n: nat, k: string)
    requires i <= n <= |events|
  {
    forall m :: i <= m < n ==> !OvertakesAt(start, events, m, k)
  }

  lemma {:induction false} OneStepMore(start: Settings, events: seq<Event>, i: nat, n: nat, k: string)
    requires i < n <= |events|
    ensures StaysInOrder(start, events, i, n, k) <==>
      StaysInOrder(start, events, i, n - 1, k) && InOrderAt(start, events, n, k)
    ensures NoneOvertakes(start, events, i, n, k) <==>
      NoneOvertakes(start, events, i, n - 1, k) && !OvertakesAt(start, events, n - 1, k)
  {
  }

  lemma {:induction false} OrderStep(start: Settings, events: seq<Event>, i: nat, n: nat, k: string)
    requires i < n <= |events|
    requires StaysInOrder(start, events, i, n - 1, k) <==> NoneOvertakes(start, events, i, n - 1, k)
    ensures StaysInOrder(start, events, i, n, k) <==> NoneOvertakes(start, events, i, n, k)
  {
    OneStepMore(start, events, i, n, k);
    if StaysInOrder(start, events, i, n - 1, k) {
      assert InOrderAt(start, events, n - 1, k);
      OrderAfter(start, events, n - 1, n, k);
    }
  }

  /** In every run, from the start or from any remembered write of the key or poll, the key
      stays in order exactly when no unremembered write of it goes past another value. */
  lemma {:induction false} QueueIsLatestOnly(start: Settings, events: seq<Event>, i: nat, n: nat, k: string)
    requires i <= n <= |events| && FromOrder(start, events, i, k)
    ensures StaysInOrder(start, events, i, n, k) <==> NoneOvertakes(start, events, i, n, k)
    decreases n
  {
    if n == i {
      StartsInOrder(start, events, i, k);
    } else {
      QueueIsLatestOnly(start, events, i, n - 1, k);
      OrderStep(start, events, i, n, k);
    }
  }

  lemma {:induction false} StartsInOrder(start: Settings, events: seq<Event>, i: nat, k: string)
    requires i <= |events| && FromOrder(start, events, i, k)
    ensures InOrderAt(start, events, i, k)
  {
    if i != 0 {
      Restored(Run(start, events, i - 1), events[i - 1], k, Newest(start, events, i - 1, k));
    }
  }

  lemma {:induction false} OrderAfter(start: Settings, events: seq<Event>, m: nat, n: nat, k: string)
    requires n == m + 1 <= |events| && InOrderAt(start, events, m, k)
    ensures InOrderAt(start, events, n, k) <==> !OvertakesAt(start, events, m, k)
  {
    StepInOrder(Run(start, events, m), events[m], k, Newest(start, events, m, k));
  }

  /** So a key is in order whenever it had no unremembered write since it was last put in order. */
  lemma {:induction false} NothingStale(start: Settings, events: seq<Event>, i: nat, n: nat, k: string)
    requires i <= n <= |events| && FromOrder(start, events, i, k)
    requires forall m :: i <= m < n ==> !Strays(Run(start, events, m), events[m], k)
    ensures InOrderAt(start, events, n, k)
  {
    QueueIsLatestOnly(start, events, i, n, k);
    assert NoneOvertakes(start, events, i, n, k);
  }

  // ---- What a poll hands over ---------------------------------------------------------------------------

  /** The value in the last of the first `n` commands that write the key. */
  function LastWrite(queue: seq<Command>, n: nat, k: string): Option<Value>
    requires n <= |queue|
  {
    if n == 0 then None
    else if Writes(queue[n - 1], k) then Some(queue[n - 1].params[k])
    else LastWrite(queue, n - 1, k)
  }

  lemma {:induction false} LastWritePrefix(queue: seq<Command>, more: seq<Command>, n: nat, k: string)
    requires n <= |queue|
    ensures LastWrite(queue + more, n, k) == LastWrite(queue, n, k)
    decreases n
  {
    if n != 0 {
      LastWritePrefix(queue, more, n - 1, k);
    }
  }

  lemma {:induction false} LastWriteSnoc(queue: seq<Command>, c: Command, k: string)
    ensures LastWrite(queue + [c], |queue| + 1, k) ==
      if Writes(c, k) then Some(c.params[k]) else LastWrite(queue, |queue|, k)
  {
    LastWritePrefix(queue, [c], |queue|, k);
  }

  lemma {:induction false} SupersededWrites(queue: seq<Command>, n: nat, pending: Settings, k: string)
    requires n <= |queue|
    ensures forall c :: c in Superseded(queue, n, pending) ==> c in queue
    ensures k !in pending ==>
      var r := Superseded(queue, n, pending); LastWrite(r, |r|, k) == LastWrite(queue, n, k)
    decreases n
  {
    if n != 0 {
      SupersededWrites(queue, n - 1, pending, k);
      LastWriteSnoc(Superseded(queue, n - 1, pending), queue[n - 1], k);
    }
  }

  /** The last value a poll would hand over for the key, if any. */
  function Due(s: State, k: string): Option<Value> {
    var r := Handed(s.pending, s.queue);
    LastWrite(r, |r|, k)
  }

  /** It is the pending one, or else the last one queued. */
  lemma {:induction false} HandedLast(s: State, k: string)
    ensures Due(s, k) == if k in s.pending then Some(s.pending[k]) else LastWrite(s.queue, |s.queue|, k)
  {
    SupersededWrites(s.queue, |s.queue|, s.pending, k);
    LastWriteSnoc(Superseded(s.queue, |s.queue|, s.pending), PropertySet(0, s.pending), k);
  }

  /** A poll hands over every pending setting, and of a key in order no value but the newest. */
  lemma {:induction false} HandedAreLatest(s: State, k: string, w: Option<Value>)
    requires InOrder(s, k, w)
    ensures AllQueued(Handed(s.pending, s.queue), k, w)
    ensures k in s.pending ==> exists c :: c in Handed(s.pending, s.queue) && Writes(c, k)
  {
    SupersededWrites(s.queue, |s.queue|, s.pending, k);
    assert s.pending != map[] ==> PropertySet(0, s.pending) in Handed(s.pending, s.queue);
  }

  /** The last write of the key among the first `n` events is unremembered. */
  predicate LastStrays(start: Settings, events: seq<Event>, n: nat, k: string)
    requires n <= |events|
  {
    n != 0 &&
    var s := Run(start, events, n - 1);
    if k in Asked(s, events[n - 1]) then Strays(s, events[n - 1], k) else LastStrays(start, events, n - 1, k)
  }

  /** A key whose last write was remembered is in order, whatever came before. */
  lemma {:induction false} RememberedLast(start: Settings, events: seq<Event>, n: nat, k: string)
    requires n <= |events| && !LastStrays(start, events, n, k)
    ensures InOrderAt(start, events, n, k)
    decreases n
  {
    if n != 0 {
      var s, e, w := Run(start, events, n - 1), events[n - 1], Newest(start, events, n - 1, k);
      if k in Asked(s, e) {
        Restored(s, e, k, w);
      } else {
        RememberedLast(start, events, n - 1, k);
        StepInOrder(s, e, k, w);
      }
    }
  }

  lemma {:induction false} LastWriteAmong(queue: seq<Command>, n: nat, k: string)
    requires n <= |queue| && LastWrite(queue, n, k).Some?
    ensures exists c :: c in queue && Writes(c, k) && LastWrite(queue, n, k) == Some(c.params[k])
    decreases n
  {
    if Writes(queue[n - 1], k) {
      assert queue[n - 1] in queue;
    } else {
      LastWriteAmong(queue, n - 1, k);
    }
  }

  /** In every run, when the last write of a key was remembered, a poll hands over no
      value for it but the newest. */
  lemma {:induction false} PollHandsNewest(start: Settings, events: seq<Event>, n: nat, k: string)
    requires n <= |events| && !LastStrays(start, events, n, k)
    ensures var s := Run(start, events, n);
      && AllQueued(Handed(s.pending, s.queue), k, Newest(start, events, n, k))
      && (Due(s, k).None? || Due(s, k) == Newest(start, events, n, k))
  {
    var s := Run(start, events, n);
    var r := Handed(s.pending, s.queue);
    RememberedLast(start, events, n, k);
    HandedAreLatest(s, k, Newest(start, events, n, k));
    if LastWrite(r, |r|, k).Some? {
      LastWriteAmong(r, |r|, k);
    }
  }

  // ---- What a poll makes of an unremembered write ---------------------------------------------------------

  lemma {:induction false} StruckLast(queue: seq<Command>, n: nat, keys: set<string>, k: string)
    requires n <= |queue| && k !in keys
    ensures var r := Struck(queue, n, keys); LastWrite(r, |r|, k) == LastWrite(queue, n, k)
    decreases n
  {
    if n != 0 {
      StruckLast(queue, n - 1, keys, k);
      var r, b := Struck(queue, n - 1, keys), queue[n - 1];
      if b.Action? {
        LastWriteSnoc(r, b, k);
      } else {
        LastWriteSnoc(r, PropertySet(b.tag, b.params - keys), k);
        assert b.params - keys == map[] ==> k !in b.params - keys;
      }
    }
  }

  lemma {:induction false} UnsentLast(queue: seq<Command>, n: nat, sent: Settings, k: string)
    requires n <= |queue| && k !in sent
    ensures var r := Unsent(queue, n, sent); LastWrite(r, |r|, k) == LastWrite(queue, n, k)
    decreases n
  {
    if n != 0 {
      UnsentLast(queue, n - 1, sent, k);
      LastWriteSnoc(Unsent(queue, n - 1, sent), queue[n - 1], k);
    }
  }

  /** The event neither writes the key, nor reports it sent, nor polls. */
  predicate Quiet(s: State, e: Event, k: string) {
    && k !in Asked(s, e) && !e.Poll?
    && (e.End? ==> !UnderWay(s, k)) && (e.Sent? ==> k !in e.sent)
  }

  predicate Queues(e: Event) { e.Direct? && !e.live }

  /** What an event that does not remember the key does to what is due for it. */
  lemma {:induction false} UnrememberedDue(s: State, e: Event, k: string)
    requires Quiet(s, e, k) || Strays(s, e, k)
    ensures Due(Step(s, e), k) ==
      if Strays(s, e, k) && Queues(e) && k !in s.pending then Some(Asked(s, e)[k]) else Due(s, k)
  {
    HandedLast(s, k);
    HandedLast(Step(s, e), k);
    match e
    case Begin(allowed, _, params) =>
      if s.flight.None? {
        StruckLast(s.queue, |s.queue|, Restricted(params, allowed).Keys, k);
      }
    case End(_) =>
      if s.flight.Some? {
        var write := s.flight.value;
        UnsentLast(s.queue, |s.queue|, Restricted(write.params, write.allowed), k);
        LastWriteSnoc(s.queue, PropertySet(write.tag, write.params), k);
      }
    case Direct(tag, params, _) => LastWriteSnoc(s.queue, PropertySet(tag, params), k);
    case Act(tag) => LastWriteSnoc(s.queue, Action(tag), k);
    case Sent(sent) => UnsentLast(s.queue, |s.queue|, sent, k);
  }

  /** The unremembered write meets no other value that a poll would hand over after it:
      none pending, and if it goes straight out none queued last. */
  predicate Prevails(s: State, e: Event, k: string)
    requires Strays(s, e, k)
  {
    var v := Asked(s, e)[k];
    if k in s.pending then s.pending[k] == v
    else Queues(e) || LastWrite(s.queue, |s.queue|, k) in {None, Some(v)}
  }

  lemma {:induction false} DueWhileQuiet(start: Settings, events: seq<Event>, i: nat, n: nat, k: string)
    requires i <= n <= |events| && forall m :: i <= m < n ==> Quiet(Run(start, events, m), events[m], k)
    ensures Due(Run(start, events, n), k) == Due(Run(start, events, i), k)
    ensures Newest(start, events, n, k) == Newest(start, events, i, k)
    decreases n
  {
    if n > i {
      DueWhileQuiet(start, events, i, n - 1, k);
      QuietNext(start, events, n - 1, k);
    }
  }

  lemma {:induction false} StrayNext(start: Settings, events: seq<Event>, i: nat, k: string)
    requires i < |events| && Strays(Run(start, events, i), events[i], k)
    ensures Run(start, events, i + 1) == Step(Run(start, events, i), events[i])
    ensures Newest(start, events, i + 1, k) == Some(Asked(Run(start, events, i), events[i])[k])
  {
  }

  lemma {:induction false} QuietNext(start: Settings, events: seq<Event>, n: nat, k: string)
    requires n < |events| && Quiet(Run(start, events, n), events[n], k)
    ensures Due(Run(start, events, n + 1), k) == Due(Run(start, events, n), k)
    ensures Newest(start, events, n + 1, k) == Newest(start, events, n, k)
  {
    UnrememberedDue(Run(start, events, n), events[n], k);
  }

  /** In every run, after an unremembered write of a key that nothing else has touched
      since, a poll hands over the newest value or none exactly when the write prevailed. */
  lemma {:induction false} PollAfterStray(start: Settings, events: seq<Event>, i: nat, n: nat, k: string)
    requires i < n <= |events| && Strays(Run(start, events, i), events[i], k)
    requires forall m :: i < m < n ==> Quiet(Run(start, events, m), events[m], k)
    ensures Due(Run(start, events, n), k) in {None, Newest(start, events, n, k)} <==>
      Prevails(Run(start, events, i), events[i], k)
  {
    StrayNext(start, events, i, k);
    DueWhileQuiet(start, events, i + 1, n, k);
    UnrememberedDue(Run(start, events, i), events[i], k);
    HandedLast(Run(start, events, i), k);
  }

  /** The panel queues one value, then Home Assistant queues another: the poll hands over
      the panel's alone, and the newer one is lost. */
  lemma {:induction false} HomeAssistantOvertaken(allowed: set<string>, k: string, older: Value, newer: Value)
    requires k in allowed && older != newer
    ensures var events := [Begin(allowed, 1, map[k := older]), End(false), Direct(2, map[k := newer], false), Poll];
      && !InOrderAt(map[], events, 3, k)
      && Newest(map[], events, 4, k) == Some(newer)
      && Run(map[], events, 4) == State(map[], [], [PropertySet(0, map[k := older])], None)
  {
    var one, two := PropertySet(1, map[k := older]), PropertySet(2, map[k := newer]);
    var events := [Begin(allowed, 1, map[k := older]), End(false), Direct(2, map[k := newer], false), Poll];
    assert Restricted(map[k := older], allowed) == map[k := older];
    assert Run(map[], events, 0) == State(map[], [], [], None);
    assert Run(map[], events, 1) == State(map[k := older], [], [], Some(Delivery(allowed, 1, map[k := older])));
    assert Run(map[], events, 2) == State(map[k := older], [one], [], None);
    assert Run(map[], events, 3) == State(map[k := older], [one, two], [], None);
    assert Superseded([one, two], 0, map[k := older]) == [];
    assert Superseded([one, two], 1, map[k := older]) == [];
    assert Superseded([one, two], 2, map[k := older]) == [];
  }

  // ---- What is pending ---------------------------------------------------------------------------------

  /** What an event remembers. */
  function Kept(s: State, e: Event): Settings {
    if e.Begin? && s.flight.None? then Restricted(e.params, e.allowed) else map[]
  }

  /** What step `i` remembers; step 0 is the start. */
  function Written(start: Settings, events: seq<Event>, i: nat): Settings
    requires i <= |events|
  {
    if i == 0 then start else Kept(Run(start, events, i - 1), events[i - 1])
  }

  /** The event tells that the key was sent with the value. */
  predicate Tells(s: State, e: Event, k: string, v: Value) {
    match e
    case End(live) =>
      && live && s.flight.Some? && k in s.flight.value.params && k in s.flight.value.allowed
      && s.flight.value.params[k] == v
    case Sent(sent) => k in sent && sent[k] == v
    case Poll => true
    case _ => false
  }

  /** Step `i` confirms that the key was sent with the value. */
  predicate Confirms(start: Settings, events: seq<Event>, i: nat, k: string, v: Value)
    requires 0 < i <= |events|
  {
    Tells(Run(start, events, i - 1), events[i - 1], k, v)
  }

  /** The value was remembered at step `i`, no other since, and not confirmed since. */
  ghost predicate Latest(start: Settings, events: seq<Event>, n: nat, k: string, v: Value, i: nat)
    requires i <= n <= |events|
  {
    && k in Written(start, events, i) && Written(start, events, i)[k] == v
    && (forall j :: i < j <= n ==> k !in Written(start, events, j))
    && (forall j :: i <= j <= n && 0 < j ==> !Confirms(start, events, j, k, v))
  }

  ghost predicate HasLatest(start: Settings, events: seq<Event>, n: nat, k: string, v: Value)
    requires n <= |events|
  {
    exists i :: 0 <= i <= n && Latest(start, events, n, k, v, i)
  }

  predicate Holds(pending: Settings, k: string, v: Value) { k in pending && pending[k] == v }

  /** In every run a value is pending exactly when it is the latest one remembered for its
      key and has not been confirmed with that exact value since. */
  lemma {:induction false} PendingExactly(start: Settings, events: seq<Event>, n: nat, k: string, v: Value)
    requires n <= |events|
    ensures Holds(Run(start, events, n).pending, k, v) <==> HasLatest(start, events, n, k, v)
    decreases n
  {
    if n == 0 {
      assert Holds(start, k, v) ==> Latest(start, events, 0, k, v, 0);
    } else {
      PendingExactly(start, events, n - 1, k, v);
      PendingStep(start, events, n - 1, k, v);
    }
  }

  lemma {:induction false} PendingStep(start: Settings, events: seq<Event>, m: nat, k: string, v: Value)
    requires m < |events|
    requires Holds(Run(start, events, m).pending, k, v) <==> HasLatest(start, events, m, k, v)
    ensures Holds(Run(start, events, m + 1).pending, k, v) <==> HasLatest(start, events, m + 1, k, v)
  {
    var n := m + 1;
    var before, after := Run(start, events, m).pending, Run(start, events, n).pending;
    var confirmed := Confirms(start, events, n, k, v);
    var written := Written(start, events, n);
    if k in written {
      assert Holds(after, k, v) <==> written[k] == v && !confirmed;
      LatestWritten(start, events, n, k, v);
    } else {
      assert Holds(after, k, v) <==> Holds(before, k, v) && !confirmed;
      LatestKept(start, events, m, k, v);
    }
  }

  lemma {:induction false} LatestWritten(start: Settings, events: seq<Event>, n: nat, k: string, v: Value)
    requires 0 < n <= |events| && k in Written(start, events, n)
    ensures HasLatest(start, events, n, k, v) <==>
      Written(start, events, n)[k] == v && !Confirms(start, events, n, k, v)
  {
    assert Latest(start, events, n, k, v, n) <==>
      Written(start, events, n)[k] == v && !Confirms(start, events, n, k, v);
    forall i | 0 <= i < n ensures !Latest(start, events, n, k, v, i) {
      assert k in Written(start, events, n);
    }
  }

  lemma {:induction false} LatestKept(start: Settings, events: seq<Event>, m: nat, k: string, v: Value)
    requires m < |events| && k !in Written(start, events, m + 1)
    ensures HasLatest(start, events, m + 1, k, v) <==>
      HasLatest(start, events, m, k, v) && !Confirms(start, events, m + 1, k, v)
  {
    var n := m + 1;
    if HasLatest(start, events, n, k, v) {
      var i :| 0 <= i <= n && Latest(start, events, n, k, v, i);
      assert i <= m;
      assert Latest(start, events, m, k, v, i);
    }
    if HasLatest(start, events, m, k, v) && !Confirms(start, events, n, k, v) {
      var i :| 0 <= i <= m && Latest(start, events, m, k, v, i);
      assert Latest(start, events, n, k, v, i);
    }
  }

  // ---- Actions -------------------------------------------------------------------------------------------

  /** The actions among the first `n` commands. */
  function Actions(queue: seq<Command>, n: nat): seq<int>
    requires n <= |queue|
  {
    if n == 0 then [] else
      var r := Actions(queue, n - 1);
      if queue[n - 1].Action? then r + [queue[n - 1].tag] else r
  }

  function Acted(events: seq<Event>, n: nat): seq<int>
    requires n <= |events|
  {
    if n == 0 then [] else
      var r := Acted(events, n - 1);
      if events[n - 1].Act? then r + [events[n - 1].tag] else r
  }

  lemma {:induction false} ActionsPrefix(queue: seq<Command>, more: seq<Command>, n: nat)
    requires n <= |queue|
    ensures Actions(queue + more, n) == Actions(queue, n)
    decreases n
  {
    if n != 0 {
      ActionsPrefix(queue, more, n - 1);
    }
  }

  lemma {:induction false} ActionsSnoc(queue: seq<Command>, c: Command)
    ensures Actions(queue + [c], |queue| + 1) == Actions(queue, |queue|) + if c.Action? then [c.tag] else []
  {
    ActionsPrefix(queue, [c], |queue|);
  }

  lemma {:induction false} ActionsAppend(queue: seq<Command>, more: seq<Command>, n: nat)
    requires n <= |more|
    ensures Actions(queue + more, |queue| + n) == Actions(queue, |queue|) + Actions(more, n)
    decreases n
  {
    if n == 0 {
      ActionsPrefix(queue, more, |queue|);
    } else {
      ActionsAppend(queue, more, n - 1);
    }
  }

  /** Neither striking keys, nor dropping writes, touches an action. */
  lemma {:induction false} ActionsStay(queue: seq<Command>, n: nat, keys: set<string>, sent: Settings)
    requires n <= |queue|
    ensures Actions(Struck(queue, n, keys), |Struck(queue, n, keys)|) == Actions(queue, n)
    ensures Actions(Unsent(queue, n, sent), |Unsent(queue, n, sent)|) == Actions(queue, n)
    ensures Actions(Superseded(queue, n, sent), |Superseded(queue, n, sent)|) == Actions(queue, n)
    decreases n
  {
    if n != 0 {
      ActionsStay(queue, n - 1, keys, sent);
      var c := queue[n - 1];
      ActionsSnoc(Unsent(queue, n - 1, sent), c);
      ActionsSnoc(Superseded(queue, n - 1, sent), c);
      ActionsSnoc(Struck(queue, n - 1, keys), if c.Action? then c else PropertySet(c.tag, c.params - keys));
    }
  }

  /** The actions handed over, then those still queued. */
  function AllActions(s: State): seq<int> { Actions(s.handed, |s.handed|) + Actions(s.queue, |s.queue|) }

  /** In every run the actions handed over and those still queued are together exactly
      the actions queued, each as often and in the order it was. */
  lemma {:induction false} ActionsConserved(start: Settings, events: seq<Event>, n: nat)
    requires n <= |events|
    ensures AllActions(Run(start, events, n)) == Acted(events, n)
    decreases n
  {
    if n != 0 {
      ActionsConserved(start, events, n - 1);
      ActionsStep(Run(start, events, n - 1), events[n - 1]);
    }
  }

  lemma {:induction false} PollActions(s: State)
    ensures AllActions(Step(s, Poll)) == AllActions(s)
  {
    ActionsStay(s.queue, |s.queue|, {}, s.pending);
    ActionsSnoc(Superseded(s.queue, |s.queue|, s.pending), PropertySet(0, s.pending));
    ActionsAppend(s.handed, Handed(s.pending, s.queue), |Handed(s.pending, s.queue)|);
  }

  lemma {:induction false} WriteActions(s: State, tag: int, params: Settings, kept: Settings)
    ensures AllActions(Remembered(s, kept)) == AllActions(s)
    ensures AllActions(Sending(s, kept)) == AllActions(s)
    ensures AllActions(Queued(s, tag, params)) == AllActions(s)
  {
    ActionsStay(s.queue, |s.queue|, kept.Keys, kept);
    ActionsSnoc(s.queue, PropertySet(tag, params));
  }

  lemma {:induction false} ActionsStep(s: State, e: Event)
    ensures AllActions(Step(s, e)) == AllActions(s) + if e.Act? then [e.tag] else []
  {
    match e
    case Begin(allowed, tag, params) => WriteActions(s, tag, params, Restricted(params, allowed));
    case End(_) =>
      if s.flight.Some? {
        var write := s.flight.value;
        WriteActions(s, write.tag, write.params, Restricted(write.params, write.allowed));
      }
    case Direct(tag, params, _) => WriteActions(s, tag, params, map[]);
    case Act(tag) => ActionsSnoc(s.queue, Action(tag));
    case Sent(sent) => WriteActions(s, 0, map[], sent);
    case Poll => PollActions(s);
  }
}
