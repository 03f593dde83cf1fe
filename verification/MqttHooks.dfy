/** What each hook does to the device it finds, told field by field and in the protocol's own numbers. */
module MqttHooks {
  import opened Common
  import opened Filters
  import opened MqttSessions

  /** The first device of the registry that bears the name. */
  ghost predicate Bears(devices: seq<Device>, client: Option<string>, d: nat) {
    && d < |devices| && client == Some(devices[d].name)
    && forall i :: 0 <= i < d ==> client != Some(devices[i].name)
  }

  ghost predicate Unknown(devices: seq<Device>, client: Option<string>) {
    forall i :: 0 <= i < |devices| ==> client != Some(devices[i].name)
  }

  lemma {:induction false} ResolvesFrom(devices: seq<Device>, client: Option<string>, i: nat)
    requires i <= |devices| && forall k :: 0 <= k < i ==> client != Some(devices[k].name)
    ensures match Resolve(devices, client, i)
      case Some(d) => Bears(devices, client, d)
      case None => Unknown(devices, client)
    decreases |devices| - i
  {
    if i < |devices| && client != Some(devices[i].name) {
      ResolvesFrom(devices, client, i + 1);
    }
  }

  /** A name leads to the first device that bears it, and to none if none does. */
  lemma {:induction false} FirstBearer(s: State, client: Option<string>)
    ensures match DeviceFor(s, client)
      case Some(d) => Bears(s.devices, client, d)
      case None => Unknown(s.devices, client)
    ensures forall d: nat :: Bears(s.devices, client, d) ==> DeviceFor(s, client) == Some(d)
  {
    ResolvesFrom(s.devices, client, 0);
    forall d: nat | Bears(s.devices, client, d) ensures DeviceFor(s, client) == Some(d) {
      var k := DeviceFor(s, client).value;
      assert !(k < d) && !(d < k);
    }
  }

  // ---- CONNECT ----------------------------------------------------------------------------

  /** The session is a device's, live on it, and the device counts as connected by it. */
  ghost predicate LivesOn(s: State, session: Session, d: nat) {
    && Bears(s.devices, session.client, d) && IsLive(s, d, session)
    && s.devices[d].connected && s.devices[d].aliveSession == Some(session)
  }

  ghost predicate Lives(s: State, session: Session) { exists d: nat :: LivesOn(s, session, d) }

  /** A CONNECT that spells a device's name makes it online and connected from now on, with
      no filters yet, when the signature matches or need not; otherwise nothing happens. */
  lemma {:induction false} ConnectTakes(s: State, session: Session, signOk: bool, strict: bool, now: real, d: nat)
    requires Bears(s.devices, session.client, d)
    ensures Step(s, Connect(session, signOk, strict, now)) ==
      if signOk || !strict then
        State(s.live[d := session], s.devices[d := Device(s.devices[d].name, true, true, now, now, [], Some(session))])
      else s
  {
    FirstBearer(s, session.client);
  }

  /** A CONNECT of our own bridge, or of a device nobody knows, changes nothing. */
  lemma {:induction false} StrangerChangesNothing(s: State, session: Session, signOk: bool, strict: bool, now: real)
    requires Unknown(s.devices, session.client)
    ensures Step(s, Connect(session, signOk, strict, now)) == s
  {
    FirstBearer(s, session.client);
  }

  /** Who is admitted: every client that is no device; without strict mode everybody; and
      under strict mode a device's new session exactly when it is then live and the device
      connected by it. Whoever is turned away has changed nothing, and a device that
      nobody knows is turned away.  A known device, new or live already, needs its signature. */
  lemma {:induction false} AdmittedExactly(s: State, session: Session, signOk: bool, strict: bool, now: real)
    ensures var e := Connect(session, signOk, strict, now);
      && (session.client.None? ==> Admitted(s, e))
      && (!strict ==> Admitted(s, e))
      && (strict && session.client.Some? && !Lives(s, session) ==> (Admitted(s, e) <==> Lives(Step(s, e), session)))
      && (!Admitted(s, e) ==> Step(s, e) == s)
      && (strict && session.client.Some? && Unknown(s.devices, session.client) ==> !Admitted(s, e))
      && (strict ==> forall d: nat :: Bears(s.devices, session.client, d) ==> (Admitted(s, e) <==> signOk))
  {
    var e := Connect(session, signOk, strict, now);
    FirstBearer(s, session.client);
    match DeviceFor(s, session.client)
    case None => StrangerChangesNothing(s, session, signOk, strict, now);
    case Some(d) =>
      ConnectTakes(s, session, signOk, strict, now, d);
      if signOk || !strict {
        assert LivesOn(Step(s, e), session, d);
      }
  }

  // ---- The other hooks -----------------------------------------------------------------------

  lemma {:induction false} FreshAreNew(held: seq<string>, topics: seq<string>, n: nat)
    requires n <= |topics|
    ensures FreshTopics(held, topics, n) == WhereUpTo(topics, n, (t: string) => t !in held)
    decreases n
  {
    if n != 0 {
      FreshAreNew(held, topics, n - 1);
    }
  }

  lemma {:induction false} OwnerIsFirst(s: State, session: Session, i: nat, d: nat)
    requires i <= d < |s.devices| && IsLive(s, d, session) && forall k :: i <= k < d ==> !IsLive(s, k, session)
    ensures Owner(s, session, i) == Some(d)
    decreases d - i
  {
    if i < d {
      OwnerIsFirst(s, session, i + 1, d);
    }
  }

  /** A packet of a device's live session is contact: the time is taken, the mark goes up
      unless the packet takes leave or the session is closing, and the filters asked for
      that it did not hold are added behind those it did, in the order asked. */
  lemma {:induction false} PacketTouches(s: State, session: Session, disconnect: bool, open: bool, topics: seq<string>, now: real, d: nat)
    requires d < |s.devices| && IsLive(s, d, session) && forall k :: 0 <= k < d ==> !IsLive(s, k, session)
    ensures var o := s.devices[d];
      Step(s, Packet(session, disconnect, open, topics, now)) == s.(devices := s.devices[d :=
        Device(o.name, o.online, o.connected || (open && !disconnect), o.connectedAt, now,
               o.filters + Where(topics, (t: string) => t !in o.filters), o.aliveSession)])
  {
    OwnerIsFirst(s, session, 0, d);
    FreshAreNew(s.devices[d].filters, topics, |topics|);
  }

  lemma {:induction false} NoOwner(s: State, session: Session, i: nat)
    requires i <= |s.devices| && forall k :: i <= k < |s.devices| ==> !IsLive(s, k, session)
    ensures Owner(s, session, i) == None
    decreases |s.devices| - i
  {
    if i < |s.devices| {
      NoOwner(s, session, i + 1);
    }
  }

  /** A packet of any other session touches nothing. */
  lemma {:induction false} StrangePacket(s: State, session: Session, disconnect: bool, open: bool, topics: seq<string>, now: real)
    requires forall k :: 0 <= k < |s.devices| ==> !IsLive(s, k, session)
    ensures Step(s, Packet(session, disconnect, open, topics, now)) == s
  {
    NoOwner(s, session, 0);
  }

  /** The end of a session that leads to a device clears its record and mark, unless
      another session is live there; any other end does nothing. */
  lemma {:induction false} EndClears(s: State, client: Option<string>, which: Option<Session>)
    ensures Unknown(s.devices, client) ==> Step(s, Ended(client, which)) == s
    ensures forall d: nat :: Bears(s.devices, client, d) ==>
      (Step(s, Ended(client, which)) ==
       if which.Some? && d in s.live && s.live[d] != which.value then s
       else State(s.live - {d}, s.devices[d := s.devices[d].(connected := false)]))
  {
    FirstBearer(s, client);
  }

  /** Traffic on the session accepted last, which is live and open, within one and a half
      keep-alives or within 15 seconds. */
  predicate Heard(s: State, d: nat, open: bool, now: real)
    requires d < |s.devices|
  {
    && s.devices[d].aliveSession.Some? && IsLive(s, d, s.devices[d].aliveSession.value) && open
    && (now - s.devices[d].lastMqtt < 15.0
        || 2.0 * (now - s.devices[d].lastMqtt) < 3.0 * s.devices[d].aliveSession.value.keepAlive)
  }

  /** A device's own report clears its mark exactly when it says zero, 15 seconds or more
      after the CONNECT, and nothing was heard from it lately; it changes nothing else. */
  lemma {:induction false} ReportClears(s: State, d: nat, zero: bool, open: bool, now: real)
    requires d < |s.devices|
    ensures Step(s, IotStatus(d, zero, open, now)) ==
      if zero && now - s.devices[d].connectedAt >= 15.0 && !Heard(s, d, open, now)
      then s.(devices := s.devices[d := s.devices[d].(connected := false)]) else s
  {
    if !s.devices[d].connected {
      assert s.devices[d := s.devices[d].(connected := false)] == s.devices;
    }
  }

  /** A sweep takes exactly the stale devices that are online offline and off the broker. */
  lemma {:induction false} SweepTakes(s: State, stale: set<nat>, d: nat)
    requires d < |s.devices|
    ensures var t := Step(s, Watchdog(stale)); var o := s.devices[d];
      && t.live == s.live && |t.devices| == |s.devices|
      && t.devices[d] == if o.online && d in stale
                         then Device(o.name, false, false, o.connectedAt, o.lastMqtt, o.filters, o.aliveSession) else o
  {
  }

  /** A device heard over HTTP counts as online, and one that is renamed answers to its new
      name; neither changes a record, a mark or another device. */
  lemma {:induction false} ContactAndName(s: State, d: nat, name: string)
    requires d < |s.devices|
    ensures var o := s.devices[d]; var seen, renamed := Step(s, Contact(d)), Step(s, Rename(d, name));
      && seen.live == s.live && renamed.live == s.live
      && seen.devices[d] == Device(o.name, true, o.connected, o.connectedAt, o.lastMqtt, o.filters, o.aliveSession)
      && renamed.devices[d] == Device(name, o.online, o.connected, o.connectedAt, o.lastMqtt, o.filters, o.aliveSession)
      && forall i :: 0 <= i < |s.devices| && i != d ==> seen.devices[i] == s.devices[i] == renamed.devices[i]
  {
  }
}
