/** The device registry: its records, and the methods that move the writer's protocol. */
module Registry {
  import opened Common
  import opened RegistryProtocol

  datatype Device = Device(
    deviceType: string, petkitId: int, serial: string, mac: string, firmware: string,
    productKey: string, deviceName: string, secret: string)

  type Devices = map<int, Device>

  // ---- Records ------------------------------------------------------------------

  /** The decimal text of an id, which names a device without a serial number. */
  function Decimal(n: nat): string
    decreases n
  {
    if n < 10 then [(n as char) + '0'] else Decimal(n / 10) + [((n % 10) as char) + '0']
  }

  function IdText(id: int): string { if id < 0 then "-" + Decimal(-id) else Decimal(id) }

  function NameFor(deviceType: string, serial: string, id: int): string {
    "d_" + deviceType + "_" + if serial != "" then serial else IdText(id)
  }

  /** A device on first contact, with the credentials minted for it. */
  function NewDevice(id: int, deviceType: string, sn: string, mac: string, fw: string, key: string, secret: string): Device {
    Device(deviceType, id, sn, mac, fw, key, NameFor(deviceType, sn, id), secret)
  }

  /** A known device signing up again: blanks are filled, the firmware follows. */
  function Filled(d: Device, sn: string, mac: string, fw: string): Device {
    var d1 := if sn != "" && d.serial == "" then d.(serial := sn, deviceName := "d_" + d.deviceType + "_" + sn) else d;
    var d2 := if mac != "" && d1.mac == "" then d1.(mac := mac) else d1;
    if fw != "" && fw != d2.firmware then d2.(firmware := fw) else d2
  }

  /** The registry after one sign-up. */
  function SignedUp(m: Devices, id: int, deviceType: string, sn: string, mac: string, fw: string, key: string, secret: string): Devices {
    if id in m then m[id := Filled(m[id], sn, mac, fw)] else m[id := NewDevice(id, deviceType, sn, mac, fw, key, secret)]
  }

  /** What the broker knows a device by. */
  predicate Holds(m: Devices, id: int, key: string, secret: string) {
    id in m && m[id].petkitId == id && m[id].productKey == key && m[id].secret == secret
  }

  /** No sign-up, of this device or another, rewrites a secret that was issued. */
  lemma {:induction false} SignUpKeepsCredentials(m: Devices, id: int, key: string, secret: string,
      who: int, deviceType: string, sn: string, mac: string, fw: string, key2: string, secret2: string)
    requires Holds(m, id, key, secret)
    ensures Holds(SignedUp(m, who, deviceType, sn, mac, fw, key2, secret2), id, key, secret)
  {
  }

  /** The broker name, which is part of a device's identity too, survives a
      sign-up exactly when the serial number was known, is not given, or spells
      the same name again. */
  lemma {:induction false} NameKept(d: Device, sn: string, mac: string, fw: string)
    ensures Filled(d, sn, mac, fw).deviceName == d.deviceName
       <==> d.serial != "" || sn == "" || d.deviceName == "d_" + d.deviceType + "_" + sn
    ensures d.serial != "" ==> Filled(d, sn, mac, fw).serial == d.serial
    ensures d.mac != "" ==> Filled(d, sn, mac, fw).mac == d.mac
  {
  }

  /** Signing up twice with the same details is signing up once. */
  lemma {:induction false} SignUpIdempotent(m: Devices, id: int, t: string, sn: string, mac: string, fw: string, key: string, secret: string)
    ensures var once := SignedUp(m, id, t, sn, mac, fw, key, secret);
      SignedUp(once, id, t, sn, mac, fw, key, secret) == once
  {
  }

  // ---- Runs of sign-ups ----------------------------------------------------------------

  /** A sign-up; a change that leaves these records as they are; anything else that
      happens to the writer. */
  datatype Action =
    | SignUp(id: int, deviceType: string, sn: string, mac: string, fw: string, key: string, secret: string,
             looping: bool, works: bool)
    | Touch
    | Writer(event: Event<Devices>)

  function Act(s: State<Devices>, a: Action): State<Devices> {
    match a
    case SignUp(id, deviceType, sn, mac, fw, key, secret, looping, works) =>
      var m := SignedUp(s.mem, id, deviceType, sn, mac, fw, key, secret);
      if id !in s.mem then Step(s, Register(m, works))
      else if m == s.mem then s
      else if looping then Step(s, Change(m))
      else Step(Step(s, Change(m)), Event.Save(works))
    case Touch => Step(s, Change(s.mem))
    case Writer(e) => if e.Change? || e.Register? then s else Step(s, e)
  }

  function Acts(s: State<Devices>, actions: seq<Action>): State<Devices>
    decreases |actions|
  {
    if actions == [] then s else Acts(Act(s, actions[0]), actions[1..])
  }

  lemma {:induction false} ActSecured(s: State<Devices>, a: Action, id: int, key: string, secret: string)
    requires Secured(s, (m: Devices) => Holds(m, id, key, secret))
    ensures Secured(Act(s, a), (m: Devices) => Holds(m, id, key, secret))
  {
    var P := (m: Devices) => Holds(m, id, key, secret);
    match a
    case SignUp(who, t, sn, mac, fw, key2, secret2, looping, works) =>
      var m := SignedUp(s.mem, who, t, sn, mac, fw, key2, secret2);
      SignUpKeepsCredentials(s.mem, id, key, secret, who, t, sn, mac, fw, key2, secret2);
      StepSecured(s, Register(m, works), P);
      StepSecured(s, Change(m), P);
      StepSecured(Step(s, Change(m)), Event.Save(works), P);
    case Touch => StepSecured(s, Change(s.mem), P);
    case Writer(e) =>
      if !e.Change? && !e.Register? {
        StepSecured(s, e, P);
      }
  }

  lemma {:induction false} ActsSecured(s: State<Devices>, actions: seq<Action>, id: int, key: string, secret: string)
    requires Secured(s, (m: Devices) => Holds(m, id, key, secret))
    ensures Secured(Acts(s, actions), (m: Devices) => Holds(m, id, key, secret))
    decreases |actions|
  {
    if actions != [] {
      ActSecured(s, actions[0], id, key, secret);
      ActsSecured(Act(s, actions[0]), actions[1..], id, key, secret);
    }
  }

  /** A device registered while no write is in flight, on a working disk, stays on disk
      with its credentials through every run of sign-ups of any devices, changes, saves,
      flushes, failures, cancellations and orphaned writes. */
  lemma {:induction false} CredentialsDurable(s: State<Devices>, first: Action, actions: seq<Action>)
    requires Idle(s) && first.SignUp? && first.works && first.id !in s.mem
    ensures Holds(Acts(Act(s, first), actions).file, first.id, first.key, first.secret)
  {
    ActsSecured(Act(s, first), actions, first.id, first.key, first.secret);
  }

  // ---- The object ------------------------------------------------------------------

  class DeviceRegistry {
    // False when no path is configured: nothing is ever written.
    const persisted: bool
    var devices: Devices
    var dirty: bool
    var file: Devices
    // The write the flusher awaits, and those a cancelled flusher left behind.
    var writing: Option<Devices>
    var orphans: seq<Devices>
    // Whether a flusher task is running.
    var flusher: bool

    function St(): State<Devices>
      reads this
    {
      State(devices, dirty, file, writing, orphans)
    }

    constructor (persisted: bool, loaded: Devices)
      ensures this.persisted == persisted && St() == State(loaded, false, loaded, None, []) && !flusher
    {
      this.persisted := persisted;
      devices, dirty, file, writing, orphans, flusher := loaded, false, loaded, None, [], false;
    }

    /** Writes now; `works` says whether the disk takes it. */
    method Save(works: bool)
      modifies this
      ensures persisted ==> St() == Step(old(St()), Event.Save(works))
      ensures !persisted ==> St() == old(St()).(dirty := false)
      ensures flusher == old(flusher)
    {
      if !persisted {
        dirty := false;
        return;
      }
      var payload := devices;
      dirty := false;
      if works {
        file := payload;
      } else {
        dirty := true;
      }
    }

    /** Memory has changed; with no event loop running this is a save. */
    method MarkDirty(looping: bool, works: bool)
      modifies this
      ensures persisted && looping ==> St() == Step(old(St()), Change(old(devices)))
      ensures persisted && !looping ==> St() == Step(Step(old(St()), Change(old(devices))), Event.Save(works))
      ensures !persisted ==> St() == old(St())
      ensures flusher == (old(flusher) || (persisted && looping))
    {
      if !persisted {
        return;
      }
      dirty := true;
      if looping {
        flusher := true;
      } else {
        Save(works);
      }
    }

    /** The first half of a flush: the snapshot is encoded and handed to a worker. */
    method FlushBegin(encodes: bool)
      requires writing.None?
      modifies this
      ensures flusher == old(flusher)
      ensures persisted ==> St() == Step(old(St()), if encodes then FlushStart else FlushUnserialisable)
      ensures !persisted ==> St() == old(St())
    {
      if !dirty || !persisted {
        return;
      }
      dirty := false;
      if encodes {
        writing := Some(devices);
      }
    }

    /** The second half: the awaited write ended. */
    method FlushFinish(works: bool)
      modifies this
      ensures flusher == old(flusher) && St() == Step(old(St()), FlushEnd(works))
    {
      if writing.Some? {
        if works {
          file := writing.value;
        } else {
          dirty := true;
        }
        writing := None;
      }
    }

    method Start()
      modifies this`flusher
      ensures flusher
    {
      flusher := true;
    }

    /** The background writer stops; without a path there is nothing it could write. */
    method Stop(first: bool, second: bool)
      modifies this
      ensures persisted ==> St() == Stopped(old(St()), old(flusher), first, second)
      ensures !persisted ==> St() == (if old(flusher) then Step(old(St()), Cancel) else old(St())).(dirty := false)
      ensures !flusher
    {
      var task := flusher;
      flusher := false;
      if task {
        if writing.Some? {
          orphans := orphans + [writing.value];
          writing := None;
        }
        if dirty {
          Save(first);
        }
      }
      if dirty {
        Save(second);
      }
    }

    /** Blanks are filled one by one, and the firmware follows. */
    static method FillBlanks(known: Device, sn: string, mac: string, fw: string) returns (d: Device, changed: bool)
      ensures d == Filled(known, sn, mac, fw)
      ensures changed <==> d != known
    {
      d, changed := known, false;
      if sn != "" && d.serial == "" {
        d := d.(serial := sn, deviceName := "d_" + d.deviceType + "_" + sn);
        changed := true;
      }
      if mac != "" && d.mac == "" {
        d := d.(mac := mac);
        changed := true;
      }
      if fw != "" && fw != d.firmware {
        d := d.(firmware := fw);
        changed := true;
      }
    }

    /** The device for `id`, registered on first contact and written through at once. */
    method GetOrCreate(id: int, deviceType: string, sn: string, mac: string, fw: string,
                       key: string, secret: string, looping: bool, works: bool) returns (d: Device)
      modifies this
      ensures devices == SignedUp(old(devices), id, deviceType, sn, mac, fw, key, secret)
      ensures id in devices && d == devices[id]
      ensures flusher == (old(flusher) || (persisted && looping && id in old(devices) && devices != old(devices)))
      ensures !persisted ==> St() == old(St()).(mem := devices, dirty := old(dirty) && id in old(devices))
      ensures persisted ==> St() == Act(old(St()), SignUp(id, deviceType, sn, mac, fw, key, secret, looping, works))
    {
      if id in devices {
        var changed;
        d, changed := FillBlanks(devices[id], sn, mac, fw);
        devices := devices[id := d];
        if changed {
          assert devices[id] != old(devices)[id];
          MarkDirty(looping, works);
        } else {
          assert devices == old(devices);
        }
        return;
      }
      d := NewDevice(id, deviceType, sn, mac, fw, key, secret);
      devices := devices[id := d];
      Save(works);
    }
  }
}
