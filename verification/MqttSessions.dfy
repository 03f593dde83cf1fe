/** The MQTT session take-over machine: which session a device is live on, and when it counts as connected. */
module MqttSessions {
  import opened Common

  const IOT_STATUS_GRACE: real := 15.0
  const ALIVE_FLOOR: real := 15.0

  /** One broker connection, and the broker name its client id spells: none for our own bridge. */
  datatype Session = Session(id: int, client: Option<string>, keepAlive: real)

  datatype Device = Device(
    name: string,
    online: bool,
    connected: bool,
    connectedAt: real,
    lastMqtt: real,
    filters: seq<string>,
    aliveSession: Option<Session>
  )

  /** Devices in registry order; a device is told by its place. */
  datatype State = State(live: map<nat, Session>, devices: seq<Device>)

  datatype Event =
    | Connect(session: Session, signOk: bool, strict: bool, now: real)
    | Packet(session: Session, disconnect: bool, open: bool, topics: seq<string>, now: real)
    | Ended(client: Option<string>, which: Option<Session>)
    | Watchdog(stale: set<nat>)
    | IotStatus(device: nat, zero: bool, open: bool, now: real)
    | Contact(device: nat)
    | Rename(device: nat, name: string)   // a sign-up gave the device its serial number

  // ---- Steps ------------------------------------------------------------------------------

  /** The first device from place `i` on that bears the name. */
  function Resolve(devices: seq<Device>, client: Option<string>, i: nat): (r: Option<nat>)
    requires i <= |devices|
    ensures r.Some? ==> i <= r.value < |devices|
    decreases |devices| - i
  {
    if i == |devices| then None
    else if client == Some(devices[i].name) then Some(i)
    else Resolve(devices, client, i + 1)
  }

  function DeviceFor(s: State, client: Option<string>): (r: Option<nat>)
    ensures r.Some? ==> r.value < |s.devices|
  {
    Resolve(s.devices, client, 0)
  }

  /** The first device from place `i` on whose live session this is. */
  function Owner(s: State, session: Session, i: nat): (r: Option<nat>)
    requires i <= |s.devices|
    ensures r.Some? ==> i <= r.value < |s.devices| && IsLive(s, r.value, session)
    decreases |s.devices| - i
  {
    if i == |s.devices| then None
    else if IsLive(s, i, session) then Some(i)
    else Owner(s, session, i + 1)
  }

  predicate IsLive(s: State, d: nat, session: Session) { d in s.live && s.live[d] == session }

  /** A CONNECT that is accepted for a device. */
  predicate Marks(s: State, e: Event) { e.Connect? && DeviceFor(s, e.session.client).Some? && (e.signOk || !e.strict) }

  predicate Admitted(s: State, e: Event)
    requires e.Connect?
  {
    e.session.client.None? || (DeviceFor(s, e.session.client).Some? && e.signOk) || !e.strict
  }

  function Connected(d: Device, session: Session, now: real): Device {
    d.(online := true, connected := true, connectedAt := now, lastMqtt := now, filters := [], aliveSession := Some(session))
  }

  /** The filters among the first `n` that the device does not hold yet. */
  function FreshTopics(held: seq<string>, topics: seq<string>, n: nat): seq<string>
    requires n <= |topics|
  {
    if n == 0 then [] else
      var r := FreshTopics(held, topics, n - 1);
      if topics[n - 1] in held then r else r + [topics[n - 1]]
  }

  function Touched(d: Device, e: Event): Device
    requires e.Packet?
  {
    d.(lastMqtt := e.now, connected := d.connected || (!e.disconnect && e.open),
       filters := d.filters + FreshTopics(d.filters, e.topics, |e.topics|))
  }

  /** Broker traffic of the session accepted last is recent enough to overrule a report. */
  predicate SessionAlive(s: State, device: nat, open: bool, now: real)
    requires device < |s.devices|
  {
    var d := s.devices[device];
    && d.aliveSession.Some? && IsLive(s, device, d.aliveSession.value) && open
    && now - d.lastMqtt < (if d.aliveSession.value.keepAlive * 1.5 < ALIVE_FLOOR then ALIVE_FLOOR else d.aliveSession.value.keepAlive * 1.5)
  }

  predicate Believed(s: State, e: Event)
    requires e.IotStatus? && e.device < |s.devices|
  {
    && e.zero && s.devices[e.device].connected && !SessionAlive(s, e.device, e.open, e.now)
    && e.now - s.devices[e.device].connectedAt >= IOT_STATUS_GRACE
  }

  function Swept(d: Device, stale: bool): Device {
    if d.online && stale then d.(online := false, connected := false) else d
  }

  function SweptAll(devices: seq<Device>, stale: set<nat>): (r: seq<Device>)
    ensures |r| == |devices| && forall d :: 0 <= d < |r| ==> r[d] == Swept(devices[d], d in stale)
  {
    seq(|devices|, d requires 0 <= d < |devices| => Swept(devices[d], d in stale))
  }

  function Step(s: State, e: Event): (r: State)
    ensures |r.devices| == |s.devices|
  {
    match e
    case Connect(session, _, _, now) =>
      if Marks(s, e) then
        var d := DeviceFor(s, session.client).value;
        State(s.live[d := session], s.devices[d := Connected(s.devices[d], session, now)])
      else s
    case Packet(session, _, _, _, _) =>
      var d := Owner(s, session, 0);
      if d.Some? then s.(devices := s.devices[d.value := Touched(s.devices[d.value], e)]) else s
    case Ended(client, which) =>
      var d := DeviceFor(s, client);
      if d.None? || (which.Some? && d.value in s.live && s.live[d.value] != which.value) then s
      else State(s.live - {d.value}, s.devices[d.value := s.devices[d.value].(connected := false)])
    case Watchdog(stale) => s.(devices := SweptAll(s.devices, stale))
    case IotStatus(d, _, _, _) =>
      if d < |s.devices| && Believed(s, e) then s.(devices := s.devices[d := s.devices[d].(connected := false)]) else s
    case Contact(d) =>
      if d < |s.devices| then s.(devices := s.devices[d := s.devices[d].(online := true)]) else s
    case Rename(d, name) =>
      if d < |s.devices| then s.(devices := s.devices[d := s.devices[d].(name := name)]) else s
  }

  // ---- The plugin ----------------------------------------------------------------------------

  class AuthPlugin {
    var live: map<nat, Session>
    var devices: seq<Device>

    function St(): State
      reads this
    {
      State(live, devices)
    }

    /** The device that bears the name, found by scanning the registry. */
    method ByMqttName(client: Option<string>) returns (found: Option<nat>)
      ensures found == DeviceFor(St(), client)
    {
      for i := 0 to |devices|
        invariant DeviceFor(St(), client) == Resolve(devices, client, i)
      {
        if client == Some(devices[i].name) {
          return Some(i);
        }
      }
      found := None;
    }

    method MarkMqttConnected(d: nat, session: Session, now: real)
      requires d < |devices|
      modifies this
      ensures live == old(live)[d := session]
      ensures devices == old(devices)[d := Connected(old(devices)[d], session, now)]
    {
      var device := devices[d];
      device := device.(connected := true, connectedAt := now);
      device := device.(lastMqtt := now, filters := []);
      live := live[d := session];
      device := device.(aliveSession := Some(session));
      devices := devices[d := device.(online := true)];
    }

    /** Decides whether one CONNECT may proceed. */
    method Authenticate(session: Session, signOk: bool, strict: bool, now: real) returns (admitted: bool)
      modifies this
      ensures admitted == Admitted(old(St()), Connect(session, signOk, strict, now))
      ensures St() == Step(old(St()), Connect(session, signOk, strict, now))
    {
      var d := ByMqttName(session.client);
      if session.client.None? {
        NoName(devices, 0);
        return true;
      }
      if d.None? {
        return !strict;
      }
      if signOk {
        MarkMqttConnected(d.value, session, now);
        return true;
      }
      if strict {
        return false;
      }
      MarkMqttConnected(d.value, session, now);
      admitted := true;
    }

    /** The device whose live session this is, found by scanning the live sessions. */
    method OwnerOf(session: Session) returns (owner: Option<nat>)
      ensures owner == Owner(St(), session, 0)
    {
      for i := 0 to |devices|
        invariant Owner(St(), session, 0) == Owner(St(), session, i)
      {
        if i in live && live[i] == session {
          return Some(i);
        }
      }
      owner := None;
    }

    method PacketReceived(session: Session, disconnect: bool, open: bool, topics: seq<string>, now: real)
      modifies this
      ensures St() == Step(old(St()), Packet(session, disconnect, open, topics, now))
    {
      var owner := OwnerOf(session);
      if owner.None? {
        return;
      }
      var d := devices[owner.value].(lastMqtt := now);
      if !disconnect && open && !d.connected {
        d := d.(connected := true);
      }
      var added := [];
      for i := 0 to |topics|
        invariant added == FreshTopics(d.filters, topics, i)
      {
        if topics[i] !in d.filters {
          added := added + [topics[i]];
        }
      }
      devices := devices[owner.value := d.(filters := d.filters + added)];
    }

    method ClientDisconnected(client: Option<string>, session: Option<Session>)
      modifies this
      ensures St() == Step(old(St()), Ended(client, session))
    {
      var d := ByMqttName(client);
      if d.None? {
        return;
      }
      if session.Some? && d.value in live && live[d.value] != session.value {
        return;
      }
      live := live - {d.value};
      devices := devices[d.value := devices[d.value].(connected := false)];
    }

    method SweepStale(stale: set<nat>)
      modifies this
      ensures St() == Step(old(St()), Watchdog(stale))
    {
      for i := 0 to |devices|
        invariant live == old(live) && |devices| == |old(devices)|
        invariant forall d :: 0 <= d < |devices| ==>
          devices[d] == if d < i then Swept(old(devices)[d], d in stale) else old(devices)[d]
      {
        if devices[i].online && i in stale {
          devices := devices[i := devices[i].(online := false, connected := false)];
        }
      }
    }

    method NoteIotStatus(device: nat, zero: bool, open: bool, now: real)
      modifies this
      ensures St() == Step(old(St()), IotStatus(device, zero, open, now))
    {
      if device >= |devices| || !devices[device].connected || !zero {
        return;
      }
      if SessionAlive(St(), device, open, now) {
        return;
      }
      if now - devices[device].connectedAt < IOT_STATUS_GRACE {
        return;
      }
      devices := devices[device := devices[device].(connected := false)];
    }
  }

  lemma {:induction false} NoName(devices: seq<Device>, i: nat)
    requires i <= |devices|
    ensures Resolve(devices, None, i) == None
    decreases |devices| - i
  {
    if i < |devices| {
      NoName(devices, i + 1);
    }
  }

  // ---- Runs -------------------------------------------------------------------------------------

  /** A registry restored from disk: nobody is connected yet. */
  predicate Restored(devices: seq<Device>) { forall d :: 0 <= d < |devices| ==> !devices[d].connected }

  function Run(devices: seq<Device>, events: seq<Event>, n: nat): (s: State)
    requires n <= |events|
    ensures |s.devices| == |devices|
  {
    if n == 0 then State(map[], devices) else
      var before := Run(devices, events, n - 1);
      Step(before, events[n - 1])
  }

  /** Step `i` accepts a session for the device. */
  predicate TakesOver(devices: seq<Device>, events: seq<Event>, i: nat, d: nat)
    requires i < |events|
  {
    var s := Run(devices, events, i);
    Marks(s, events[i]) && DeviceFor(s, events[i].session.client) == Some(d)
  }

  /** The session was accepted for the device at step `i`, and none since. */
  ghost predicate Latest(devices: seq<Device>, events: seq<Event>, n: nat, d: nat, session: Session, i: nat)
    requires i < n <= |events|
  {
    && TakesOver(devices, events, i, d) && events[i].session == session
    && forall j :: i < j < n ==> !TakesOver(devices, events, j, d)
  }

  predicate ResolvesTo(devices: seq<Device>, events: seq<Event>, j: nat, d: nat)
    requires j < |events|
  {
    events[j].Ended? && DeviceFor(Run(devices, events, j), events[j].client) == Some(d)
  }

  /** Step `j` reports the end of the session; a report that names none, of the device's. */
  predicate Ends(devices: seq<Device>, events: seq<Event>, j: nat, d: nat, session: Session)
    requires j < |events|
  {
    events[j].Ended? && (events[j].which == Some(session) || (events[j].which.None? && ResolvesTo(devices, events, j, d)))
  }

  /** And its client id still leads to the device. */
  predicate Noticed(devices: seq<Device>, events: seq<Event>, j: nat, d: nat, session: Session)
    requires j < |events|
  {
    Ends(devices, events, j, d, session) && ResolvesTo(devices, events, j, d)
  }

  /** Accepted last for the device and not ended since. */
  ghost predicate IsCurrent(devices: seq<Device>, events: seq<Event>, n: nat, d: nat, session: Session)
    requires n <= |events|
  {
    exists i :: (0 <= i < n && Latest(devices, events, n, d, session, i)
      && forall j :: i < j < n ==> !Ends(devices, events, j, d, session))
  }

  /** Accepted last for the device, and no end since was noticed. */
  ghost predicate IsRecorded(devices: seq<Device>, events: seq<Event>, n: nat, d: nat, session: Session)
    requires n <= |events|
  {
    exists i :: (0 <= i < n && Latest(devices, events, n, d, session, i)
      && forall j :: i < j < n ==> !Noticed(devices, events, j, d, session))
  }

  /** Accepted last for the device and ended since, but every report of it came under a
      client id that no longer led to the device. */
  ghost predicate EndedUnnoticed(devices: seq<Device>, events: seq<Event>, n: nat, d: nat, session: Session)
    requires n <= |events|
  {
    exists i, k :: (0 <= i < k < n && Latest(devices, events, n, d, session, i) && Ends(devices, events, k, d, session)
      && forall j :: i < j < n ==> !Noticed(devices, events, j, d, session))
  }

  // ---- The recorded session -------------------------------------------------------------------------

  lemma {:induction false} LiveStep(devices: seq<Device>, events: seq<Event>, m: nat, d: nat, session: Session)
    requires m < |events|
    ensures IsLive(Run(devices, events, m + 1), d, session) <==>
      if TakesOver(devices, events, m, d) then events[m].session == session
      else IsLive(Run(devices, events, m), d, session) && !Noticed(devices, events, m, d, session)
  {
  }

  lemma {:induction false} RecordedStep(devices: seq<Device>, events: seq<Event>, m: nat, d: nat, session: Session)
    requires m < |events|
    ensures IsRecorded(devices, events, m + 1, d, session) <==>
      if TakesOver(devices, events, m, d) then events[m].session == session
      else IsRecorded(devices, events, m, d, session) && !Noticed(devices, events, m, d, session)
  {
    var n := m + 1;
    if IsRecorded(devices, events, n, d, session) {
      var i :| 0 <= i < n && Latest(devices, events, n, d, session, i)
        && forall j :: i < j < n ==> !Noticed(devices, events, j, d, session);
      if i < m {
        assert Latest(devices, events, m, d, session, i);
      }
    }
    if TakesOver(devices, events, m, d) && events[m].session == session {
      assert Latest(devices, events, n, d, session, m);
    }
    if IsRecorded(devices, events, m, d, session) && !TakesOver(devices, events, m, d) && !Noticed(devices, events, m, d, session) {
      var i :| 0 <= i < m && Latest(devices, events, m, d, session, i)
        && forall j :: i < j < m ==> !Noticed(devices, events, j, d, session);
      assert Latest(devices, events, n, d, session, i);
    }
  }

  /** In every run the recorded session of a device is exactly the one accepted for it
      last of which no end was noticed. */
  lemma {:induction false} LiveExactly(devices: seq<Device>, events: seq<Event>, n: nat, d: nat, session: Session)
    requires n <= |events|
    ensures IsLive(Run(devices, events, n), d, session) <==> IsRecorded(devices, events, n, d, session)
    decreases n
  {
    if n != 0 {
      LiveExactly(devices, events, n - 1, d, session);
      LiveStep(devices, events, n - 1, d, session);
      RecordedStep(devices, events, n - 1, d, session);
    }
  }

  lemma {:induction false} OneLatest(devices: seq<Device>, events: seq<Event>, n: nat, d: nat, a: Session, i: nat, b: Session, j: nat)
    requires i < n <= |events| && j < n
    requires Latest(devices, events, n, d, a, i) && Latest(devices, events, n, d, b, j)
    ensures i == j && a == b
  {
  }

  /** A session that was accepted last and has not ended is always the recorded one; a
      recorded session has ended exactly when its end went unnoticed. */
  lemma {:induction false} RecordedTruth(devices: seq<Device>, events: seq<Event>, n: nat, d: nat, session: Session)
    requires n <= |events|
    ensures IsCurrent(devices, events, n, d, session) ==> IsRecorded(devices, events, n, d, session)
    ensures IsRecorded(devices, events, n, d, session) && !IsCurrent(devices, events, n, d, session) <==>
      EndedUnnoticed(devices, events, n, d, session)
  {
    if IsCurrent(devices, events, n, d, session) {
      var i :| 0 <= i < n && Latest(devices, events, n, d, session, i)
        && forall j :: i < j < n ==> !Ends(devices, events, j, d, session);
      forall j | i < j < n ensures !Noticed(devices, events, j, d, session) {
        assert !Ends(devices, events, j, d, session);
      }
      forall i2, k | 0 <= i2 < k < n && Latest(devices, events, n, d, session, i2)
        ensures !Ends(devices, events, k, d, session)
      {
        OneLatest(devices, events, n, d, session, i, session, i2);
      }
    } else if IsRecorded(devices, events, n, d, session) {
      var i :| 0 <= i < n && Latest(devices, events, n, d, session, i)
        && forall j :: i < j < n ==> !Noticed(devices, events, j, d, session);
      var k :| i < k < n && Ends(devices, events, k, d, session);
    }
  }

  // ---- The mark -------------------------------------------------------------------------------------------

  /** Only an accepted CONNECT or a packet of the recorded session raises the mark; the
      noticed end of the recorded session clears both. */
  lemma {:induction false} FlagStep(s: State, e: Event, d: nat)
    requires d < |s.devices| && (s.devices[d].connected ==> d in s.live)
    ensures Step(s, e).devices[d].connected ==> d in Step(s, e).live
    ensures (s.devices[d].connected <==> d in s.live) && !e.Watchdog? && !e.IotStatus? ==>
      (Step(s, e).devices[d].connected <==> d in Step(s, e).live)
  {
  }

  lemma {:induction false} ConnectedMeansLive(devices: seq<Device>, events: seq<Event>, n: nat, d: nat)
    requires n <= |events| && Restored(devices) && d < |devices|
    ensures Run(devices, events, n).devices[d].connected ==> d in Run(devices, events, n).live
    decreases n
  {
    if n != 0 {
      ConnectedMeansLive(devices, events, n - 1, d);
      FlagStep(Run(devices, events, n - 1), events[n - 1], d);
    }
  }

  lemma {:induction false} FlagIsExact(devices: seq<Device>, events: seq<Event>, n: nat, d: nat)
    requires n <= |events| && Restored(devices) && d < |devices|
    requires forall i :: 0 <= i < n ==> !events[i].Watchdog? && !events[i].IotStatus?
    ensures Run(devices, events, n).devices[d].connected <==> d in Run(devices, events, n).live
    decreases n
  {
    if n != 0 {
      FlagIsExact(devices, events, n - 1, d);
      FlagStep(Run(devices, events, n - 1), events[n - 1], d);
    }
  }

  ghost predicate HasCurrent(devices: seq<Device>, events: seq<Event>, n: nat, d: nat)
    requires n <= |events|
  {
    exists session: Session :: IsCurrent(devices, events, n, d, session)
  }

  ghost predicate HasUnnoticed(devices: seq<Device>, events: seq<Event>, n: nat, d: nat)
    requires n <= |events|
  {
    exists session: Session :: EndedUnnoticed(devices, events, n, d, session)
  }

  lemma {:induction false} LiveIsOneOrOther(devices: seq<Device>, events: seq<Event>, n: nat, d: nat)
    requires n <= |events|
    ensures d in Run(devices, events, n).live <==> HasCurrent(devices, events, n, d) || HasUnnoticed(devices, events, n, d)
    ensures !(HasCurrent(devices, events, n, d) && HasUnnoticed(devices, events, n, d))
  {
    var live := Run(devices, events, n).live;
    if d in live {
      LiveExactly(devices, events, n, d, live[d]);
      RecordedTruth(devices, events, n, d, live[d]);
    }
    forall session: Session | IsCurrent(devices, events, n, d, session) || EndedUnnoticed(devices, events, n, d, session)
      ensures IsLive(Run(devices, events, n), d, session)
      ensures !(IsCurrent(devices, events, n, d, session) && EndedUnnoticed(devices, events, n, d, session))
    {
      RecordedTruth(devices, events, n, d, session);
      LiveExactly(devices, events, n, d, session);
    }
  }

  /** In every run a connected device has a session that was accepted last and has not
      ended, unless that session's end went unnoticed. */
  lemma {:induction false} ConnectedMeansCurrent(devices: seq<Device>, events: seq<Event>, n: nat, d: nat)
    requires n <= |events| && Restored(devices) && d < |devices|
    requires Run(devices, events, n).devices[d].connected
    ensures HasCurrent(devices, events, n, d) <==> !HasUnnoticed(devices, events, n, d)
  {
    ConnectedMeansLive(devices, events, n, d);
    LiveIsOneOrOther(devices, events, n, d);
  }

  /** Without watchdog sweeps and heartbeat reports the mark tells the truth, connected
      exactly while such a session exists, if and only if no end went unnoticed. */
  lemma {:induction false} ConnectedExactly(devices: seq<Device>, events: seq<Event>, n: nat, d: nat)
    requires n <= |events| && Restored(devices) && d < |devices|
    requires forall i :: 0 <= i < n ==> !events[i].Watchdog? && !events[i].IotStatus?
    ensures (Run(devices, events, n).devices[d].connected <==> HasCurrent(devices, events, n, d)) <==>
      !HasUnnoticed(devices, events, n, d)
  {
    FlagIsExact(devices, events, n, d);
    LiveIsOneOrOther(devices, events, n, d);
  }

  // ---- Take-over and renaming --------------------------------------------------------------------------------

  lemma {:induction false} LiveWasAccepted(devices: seq<Device>, events: seq<Event>, n: nat, d: nat)
    requires n <= |events| && d in Run(devices, events, n).live
    ensures exists i :: 0 <= i < n && TakesOver(devices, events, i, d) && events[i].session == Run(devices, events, n).live[d]
  {
    var session := Run(devices, events, n).live[d];
    LiveExactly(devices, events, n, d, session);
    var i :| 0 <= i < n && Latest(devices, events, n, d, session, i)
      && forall j :: i < j < n ==> !Noticed(devices, events, j, d, session);
  }

  /** A session is one connection: it connects once. */
  ghost predicate ConnectOnce(events: seq<Event>) {
    forall i, j :: 0 <= i < j < |events| && events[i].Connect? && events[j].Connect? ==> events[i].session != events[j].session
  }

  /** No session is live on two devices, so scanning the live sessions finds its device. */
  lemma {:induction false} LiveOnOne(devices: seq<Device>, events: seq<Event>, n: nat, a: nat, b: nat)
    requires n <= |events| && ConnectOnce(events)
    requires a in Run(devices, events, n).live && b in Run(devices, events, n).live
    requires Run(devices, events, n).live[a] == Run(devices, events, n).live[b]
    ensures a == b
  {
    LiveWasAccepted(devices, events, n, a);
    LiveWasAccepted(devices, events, n, b);
    var i :| 0 <= i < n && TakesOver(devices, events, i, a) && events[i].session == Run(devices, events, n).live[a];
    var j :| 0 <= j < n && TakesOver(devices, events, j, b) && events[j].session == Run(devices, events, n).live[b];
    assert i == j;
  }

  /** The teardown of a superseded session changes nothing at all; a device that was
      cleared is restored by the next packet of its open live session. */
  lemma {:induction false} TakeOver(devices: seq<Device>, events: seq<Event>, n: nat, d: nat, gone: Session, topics: seq<string>, now: real)
    requires n <= |events| && ConnectOnce(events) && d < |devices| && d in Run(devices, events, n).live
    ensures var s := Run(devices, events, n);
      && (s.live[d] != gone && DeviceFor(s, gone.client) == Some(d) ==> Step(s, Ended(gone.client, Some(gone))) == s)
      && Step(s, Packet(s.live[d], false, true, topics, now)).devices[d].connected
  {
    var s := Run(devices, events, n);
    var o := Owner(s, s.live[d], 0);
    OwnerFound(s, s.live[d], 0, d);
    LiveOnOne(devices, events, n, d, o.value);
  }

  lemma {:induction false} OwnerFound(s: State, session: Session, i: nat, d: nat)
    requires i <= d < |s.devices| && IsLive(s, d, session)
    ensures Owner(s, session, i).Some?
    decreases |s.devices| - i
  {
    if !IsLive(s, i, session) {
      OwnerFound(s, session, i + 1, d);
    }
  }

  /** How an end goes unnoticed: the device is renamed while its session is live, so the
      hook, which has the old client id, finds no device; the mark stays up. */
  lemma {:induction false} RenamedWhileLive(device: Device, session: Session, name: string, now: real)
    requires session.client == Some(device.name) && name != device.name
    ensures var events := [Connect(session, true, false, now), Rename(0, name), Ended(session.client, Some(session))];
      && Run([device], events, 3).devices[0].connected && EndedUnnoticed([device], events, 3, 0, session)
      && !HasCurrent([device], events, 3, 0)
  {
    var events := [Connect(session, true, false, now), Rename(0, name), Ended(session.client, Some(session))];
    var s0 := Run([device], events, 0);
    var s1 := Run([device], events, 1);
    var s2 := Run([device], events, 2);
    assert s1 == State(map[0 := session], [Connected(device, session, now)]);
    assert s2 == State(map[0 := session], [Connected(device, session, now).(name := name)]);
    assert Latest([device], events, 3, 0, session, 0);
    assert Ends([device], events, 2, 0, session);
    assert EndedUnnoticed([device], events, 3, 0, session);
    LiveIsOneOrOther([device], events, 3, 0);
  }
}
