/** What a device's record holds after any run of sign-ups. */
module RegistryRecords {
  import opened Common
  import opened Filters
  import opened Registry
  import RegistryProtocol

  // ---- One sign-up ------------------------------------------------------------------

  /** Field by field: a blank serial number or MAC is filled and a known one kept, the
      firmware is the one given unless none is, and nothing else but the name changes. */
  lemma {:induction false} FilledExactly(d: Device, sn: string, mac: string, fw: string)
    ensures var r := Filled(d, sn, mac, fw);
      && r.serial == (if d.serial == "" then sn else d.serial)
      && r.mac == (if d.mac == "" then mac else d.mac)
      && r.firmware == (if fw == "" then d.firmware else fw)
      && r.deviceType == d.deviceType && r.petkitId == d.petkitId && r.productKey == d.productKey && r.secret == d.secret
      && (d.serial == "" && sn != "" ==> r.deviceName == "d_" + d.deviceType + "_" + sn)
      && (d.serial != "" || sn == "" ==> r.deviceName == d.deviceName)
  {
  }

  // ---- Runs of sign-ups ---------------------------------------------------------------

  datatype Call = Call(id: int, deviceType: string, sn: string, mac: string, fw: string, key: string, secret: string)

  function After(m: Devices, calls: seq<Call>): Devices
    decreases |calls|
  {
    if calls == [] then m else
      var c := calls[|calls| - 1];
      SignedUp(After(m, calls[..|calls| - 1]), c.id, c.deviceType, c.sn, c.mac, c.fw, c.key, c.secret)
  }

  function By(id: int): Call -> bool { (c: Call) => c.id == id }

  /** The calls of one device, in order. */
  function Of(calls: seq<Call>, id: int): seq<Call> { Where(calls, By(id)) }

  lemma {:induction false} OfMore(before: seq<Call>, c: Call, id: int)
    ensures Of(before + [c], id) == if c.id == id then Of(before, id) + [c] else Of(before, id)
  {
    WhereSnoc(before, c, By(id));
  }

  /** The first text that is not blank, or blank when all are. */
  ghost predicate FirstGiven(xs: seq<string>, x: string) {
    if x == "" then forall i :: 0 <= i < |xs| ==> xs[i] == ""
    else exists i :: 0 <= i < |xs| && xs[i] == x && forall j :: 0 <= j < i ==> xs[j] == ""
  }

  ghost predicate LastGiven(xs: seq<string>, x: string) {
    if x == "" then forall i :: 0 <= i < |xs| ==> xs[i] == ""
    else exists i :: 0 <= i < |xs| && xs[i] == x && forall j :: i < j < |xs| ==> xs[j] == ""
  }

  lemma {:induction false} FirstGivenMore(xs: seq<string>, x: string, y: string)
    requires FirstGiven(xs, x)
    ensures FirstGiven(xs + [y], if x == "" then y else x)
  {
    var all := xs + [y];
    assert all[|xs|] == y;
    if x != "" {
      var i :| 0 <= i < |xs| && xs[i] == x && forall j :: 0 <= j < i ==> xs[j] == "";
      assert all[i] == x && forall j :: 0 <= j < i ==> all[j] == xs[j];
    }
  }

  lemma {:induction false} LastGivenMore(xs: seq<string>, x: string, y: string)
    requires LastGiven(xs, x)
    ensures LastGiven(xs + [y], if y == "" then x else y)
  {
    var all := xs + [y];
    assert all[|xs|] == y;
    if y == "" && x != "" {
      var i :| 0 <= i < |xs| && xs[i] == x && forall j :: i < j < |xs| ==> xs[j] == "";
      assert all[i] == x && forall j :: i < j < |xs| ==> all[j] == xs[j];
    }
  }

  function SerialOf(c: Call): string { c.sn }

  function MacOf(c: Call): string { c.mac }

  function FirmwareOf(c: Call): string { c.fw }

  /** The record of a device first heard of in these calls of its own. */
  ghost predicate Records(d: Device, id: int, own: seq<Call>) {
    && own != []
    && d.petkitId == id && d.deviceType == own[0].deviceType
    && d.productKey == own[0].key && d.secret == own[0].secret
    && FirstGiven(Map(SerialOf, own), d.serial) && FirstGiven(Map(MacOf, own), d.mac)
    && LastGiven(Map(FirmwareOf, own), d.firmware)
    && d.deviceName == "d_" + d.deviceType + "_" + if d.serial == "" then IdText(id) else d.serial
  }

  lemma {:induction false} FirstRecord(id: int, c: Call)
    ensures Records(NewDevice(id, c.deviceType, c.sn, c.mac, c.fw, c.key, c.secret), id, [c])
  {
    assert Map(SerialOf, [c]) == [c.sn] && Map(MacOf, [c]) == [c.mac] && Map(FirmwareOf, [c]) == [c.fw];
  }

  lemma {:induction false} NextRecord(d: Device, id: int, own: seq<Call>, c: Call)
    requires Records(d, id, own)
    ensures Records(Filled(d, c.sn, c.mac, c.fw), id, own + [c])
  {
    FilledExactly(d, c.sn, c.mac, c.fw);
    MapConcat(SerialOf, own, [c]);
    MapConcat(MacOf, own, [c]);
    MapConcat(FirmwareOf, own, [c]);
    assert Map(SerialOf, [c]) == [c.sn] && Map(MacOf, [c]) == [c.mac] && Map(FirmwareOf, [c]) == [c.fw];
    FirstGivenMore(Map(SerialOf, own), d.serial, c.sn);
    FirstGivenMore(Map(MacOf, own), d.mac, c.mac);
    LastGivenMore(Map(FirmwareOf, own), d.firmware, c.fw);
  }

  /** After any run of sign-ups of any devices, a device that was unknown before it has the
      type, key and secret of its first call, the first serial number and MAC any of its
      calls gave, the last firmware, and the name these spell; it is known exactly when it
      called.  No other call touches its record. */
  lemma {:induction false} RecordExactly(m: Devices, calls: seq<Call>, id: int)
    requires id !in m
    ensures id in After(m, calls) <==> Of(calls, id) != []
    ensures id in After(m, calls) ==> Records(After(m, calls)[id], id, Of(calls, id))
    decreases |calls|
  {
    if calls != [] {
      var c, before := calls[|calls| - 1], calls[..|calls| - 1];
      assert calls == before + [c];
      OfMore(before, c, id);
      RecordExactly(m, before, id);
      if c.id == id {
        if id in After(m, before) {
          NextRecord(After(m, before)[id], id, Of(before, id), c);
        } else {
          assert Of(calls, id) == [c];
          FirstRecord(id, c);
        }
      }
    }
  }

  // ---- What a sign-up writes -----------------------------------------------------------------

  /** A device first heard of is written at once, and stays marked if that fails.  A known
      one that tells nothing new leaves everything alone; one that does is marked for the
      writer, or written at once where no loop runs that would. */
  lemma {:induction false} SignUpWrites(s: RegistryProtocol.State<Devices>, c: Call, looping: bool, works: bool)
    ensures var r := Act(s, SignUp(c.id, c.deviceType, c.sn, c.mac, c.fw, c.key, c.secret, looping, works));
      var known := c.id in s.mem;
      var news := known && r.mem[c.id] != s.mem[c.id];
      && c.id in r.mem && (forall id :: id != c.id ==> (id in r.mem <==> id in s.mem) && (id in s.mem ==> r.mem[id] == s.mem[id]))
      && r.writing == s.writing && r.orphans == s.orphans
      && (known && !news ==> r == s)
      && (news && looping ==> r.dirty && r.file == s.file)
      && (!known || (news && !looping) ==> if works then r.file == r.mem && !r.dirty else r.dirty && r.file == s.file)
  {
    var m := SignedUp(s.mem, c.id, c.deviceType, c.sn, c.mac, c.fw, c.key, c.secret);
    if c.id in s.mem && m[c.id] == s.mem[c.id] {
      assert m == s.mem;
    }
  }

  // ---- Names --------------------------------------------------------------------------

  /** The number a text of digits spells. */
  function Spelled(s: string): int
    decreases |s|
  {
    if s == "" then 0 else 10 * Spelled(s[..|s| - 1]) + (s[|s| - 1] as int - '0' as int)
  }

  lemma {:induction false} DecimalSpells(n: nat)
    ensures Decimal(n) != "" && Decimal(n)[0] != '-' && Spelled(Decimal(n)) == n
    decreases n
  {
    if n < 10 {
      assert Decimal(n)[..0] == "";
    } else {
      DecimalSpells(n / 10);
      var s := Decimal(n / 10);
      assert Decimal(n) == s + [((n % 10) as char) + '0'];
      assert (s + [((n % 10) as char) + '0'])[..|s|] == s;
    }
  }

  lemma {:induction false} IdTextsDiffer(a: int, b: int)
    requires IdText(a) == IdText(b)
    ensures a == b
  {
    DecimalSpells(if a < 0 then -a else a);
    DecimalSpells(if b < 0 then -b else b);
    if a < 0 && b < 0 {
      assert IdText(a)[1..] == Decimal(-a) && IdText(b)[1..] == Decimal(-b);
    }
  }

  /** Two devices of one type that gave no serial number have different names. */
  lemma {:induction false} NamesDiffer(deviceType: string, a: int, b: int)
    requires NameFor(deviceType, "", a) == NameFor(deviceType, "", b)
    ensures a == b
  {
    var p := "d_" + deviceType + "_";
    assert (p + IdText(a))[|p|..] == IdText(a) && (p + IdText(b))[|p|..] == IdText(b);
    IdTextsDiffer(a, b);
  }
}
