/** The durable device registry: which devices exist, which secrets open them,
    and how each operation changes the record file and its audit trail. */
module Registry {
  import opened Reservations

  const MAX_DEVICES := 64
  const MAX_REGISTRY_BYTES := 1024 * 1024
  const PAIRING_TTL := 10 * 60 * SECOND

  datatype Standing = Unconfirmed | Active | Revoked

  /** A stored fingerprint. Two secrets never share one. */
  datatype Print = Absent | Of(secret: string)

  datatype Device = Device(id: string, name: string, platform: string, standing: Standing, token: Print, code: Print,
                           expiresAt: Option<int>, attempts: nat, publicKey: string, createdAt: int,
                           lastSeenAt: Option<int>, revokedAt: Option<int>)

  datatype Confirmation = Confirmation(device: string, code: string, name: string, platform: string, publicKey: string)

  datatype Event = PairedEvent | ConfirmedEvent | ExpiredEvent | RevokedEvent

  datatype Row = Row(event: Event, device: string, at: int)

  datatype Files = Files(devices: seq<Device>, audit: seq<Row>, markers: set<string>)

  /** What the operations cannot see: the encoded size of a record file, and
      whether a record still renders as a published device. */
  datatype Host = Host(size: seq<Device> -> nat, valid: Device -> bool)

  datatype Error =
    | NoSuchDevice | NotPending | WrongCode | CodeExpired | Invalid | AlreadyRegistered | Full
    | Locked | Unreadable | TooLarge | NotWritten

  datatype Trouble = Trouble(lock: bool, readable: bool, record: Landing, audit: Landing)

  datatype Change = Refuse(error: Error) | NoChange | Apply(devices: seq<Device>, event: Option<Event>)

  datatype Verdict = Done | Unaudited | Failed(error: Error)

  // ------------------------------------------------------------------ lookups

  /** The first record with this id, or the length of the file. */
  function Find(devices: seq<Device>, id: string): (i: nat)
    ensures i <= |devices| && (i < |devices| ==> devices[i].id == id)
    ensures forall j :: 0 <= j < i ==> devices[j].id != id
  {
    if devices == [] then 0 else if devices[0].id == id then 0 else 1 + Find(devices[1..], id)
  }

  predicate Known(devices: seq<Device>, id: string) {
    Find(devices, id) < |devices|
  }

  function Get(devices: seq<Device>, id: string): (d: Device)
    requires Known(devices, id)
    ensures d.id == id
  {
    devices[Find(devices, id)]
  }

  /** Still waiting for a confirmation. */
  predicate Pairable(d: Device) {
    d.standing == Unconfirmed && d.code != Absent
  }

  predicate PairableAt(devices: seq<Device>, id: string) {
    Known(devices, id) && Pairable(Get(devices, id))
  }

  predicate Loadable(host: Host, devices: seq<Device>) {
    |devices| <= MAX_DEVICES && (devices == [] || host.size(devices) <= MAX_REGISTRY_BYTES)
  }

  predicate Expired(deadline: Option<int>, now: int) {
    deadline == None || now >= deadline.value
  }

  // ------------------------------------------------- what each operation wants

  function NewDevice(id: string, name: string, platform: string, code: string, now: int): Device {
    Device(id, name, platform, Unconfirmed, Absent, Of(code), Some(Stamp(now + PAIRING_TTL)), 0, "", Stamp(now), None, None)
  }

  function PairChange(host: Host, devices: seq<Device>, d: Device): Change {
    if Known(devices, d.id) then Refuse(AlreadyRegistered)
    else if |devices| >= MAX_DEVICES then Refuse(Full)
    else Apply(devices + [d], Some(PairedEvent))
  }

  function Activated(d: Device, c: Confirmation, token: string): Device {
    d.(standing := Active, token := Of(token), code := Absent, expiresAt := None, name := c.name, platform := c.platform,
       publicKey := c.publicKey)
  }

  function ConfirmChange(host: Host, devices: seq<Device>, c: Confirmation, token: string, now: int): Change {
    var i := Find(devices, c.device);
    if i == |devices| then Refuse(NoSuchDevice)
    else if !Pairable(devices[i]) then Refuse(NotPending)
    else if devices[i].code != Of(c.code) then Refuse(WrongCode)
    else if Expired(devices[i].expiresAt, now) then Apply(devices[i := devices[i].(code := Absent)], Some(ExpiredEvent))
    else if !host.valid(Activated(devices[i], c, token)) then Refuse(Invalid)
    else Apply(devices[i := Activated(devices[i], c, token)], Some(ConfirmedEvent))
  }

  function FailureChange(devices: seq<Device>, id: string): Change {
    if !PairableAt(devices, id) then NoChange
    else var i := Find(devices, id);
         Apply(devices[i := devices[i].(attempts := devices[i].attempts + 1)], None)
  }

  function SeenChange(devices: seq<Device>, id: string, now: int): Change {
    var i := Find(devices, id);
    if i == |devices| then Refuse(NoSuchDevice)
    else if devices[i].lastSeenAt == Some(Stamp(now)) then NoChange
    else Apply(devices[i := devices[i].(lastSeenAt := Some(Stamp(now)))], None)
  }

  function Ended(d: Device, now: int): Device {
    d.(standing := Revoked, revokedAt := Some(Stamp(now)), code := Absent, expiresAt := None)
  }

  function RevokeChange(host: Host, devices: seq<Device>, id: string, now: int): Change {
    var i := Find(devices, id);
    if i == |devices| then Refuse(NoSuchDevice)
    else if devices[i].standing == Revoked then NoChange
    else if !host.valid(Ended(devices[i], now)) then Refuse(Invalid)
    else Apply(devices[i := Ended(devices[i], now)], Some(RevokedEvent))
  }

  // -------------------------------------------------------------- the mutation

  /** Load under the lock, decide, write the record, and only then the row. */
  function Mutate(host: Host, f: Files, change: Change, id: string, now: int, faults: Trouble): (Files, Verdict) {
    if !faults.lock then (f, Failed(Locked))
    else if !faults.readable || !Loadable(host, f.devices) then (f, Failed(Unreadable))
    else match change
      case Refuse(e) => (f, Failed(e))
      case NoChange => (f, Done)
      case Apply(devices, event) =>
        if host.size(devices) > MAX_REGISTRY_BYTES then (f, Failed(TooLarge))
        else if faults.record == Fails then (f, Failed(NotWritten))
        else
          var g := f.(devices := devices);
          if faults.record == Slips then (g, Failed(NotWritten))
          else if event == None then (g, Done)
          else
            var row := Row(event.value, id, Stamp(now));
            (if faults.audit == Fails then g else g.(audit := g.audit + [row]), if faults.audit == Lands then Done else Unaudited)
  }

  datatype Answer = Granted(token: string, device: Device, audited: bool) | Denied(error: Error)

  function Pair(host: Host, f: Files, d: Device, now: int, faults: Trouble): (Files, Verdict) {
    if !host.valid(d) then (f, Failed(Invalid)) else Mutate(host, f, PairChange(host, f.devices, d), d.id, now, faults)
  }

  function Confirm(host: Host, f: Files, c: Confirmation, token: string, now: int, faults: Trouble): (Files, Answer) {
    var change := ConfirmChange(host, f.devices, c, token, now);
    var (g, v) := Mutate(host, f, change, c.device, now, faults);
    if v.Failed? then (g, Denied(v.error))
    else if Known(g.devices, c.device) && change == Apply(g.devices, Some(ConfirmedEvent))
    then (g, Granted(token, Get(g.devices, c.device), v == Done))
    else (g, Denied(CodeExpired))
  }

  function RecordFailure(host: Host, f: Files, id: string, now: int, faults: Trouble): (Files, Option<nat>) {
    var (g, v) := Mutate(host, f, FailureChange(f.devices, id), id, now, faults);
    (g, if v.Failed? then None else if PairableAt(f.devices, id) then Some(Get(f.devices, id).attempts + 1) else Some(0))
  }

  function Revoke(host: Host, f: Files, id: string, now: int, faults: Trouble): (Files, Verdict) {
    Mutate(host, f, RevokeChange(host, f.devices, id, now), id, now, faults)
  }

  function MarkSeen(host: Host, f: Files, id: string, now: int, faults: Trouble): (Files, Verdict) {
    Mutate(host, f, SeenChange(f.devices, id, now), id, now, faults)
  }

  /** What the confirmation route reads before a guess is tried. */
  datatype PairingState = PairingState(attempts: nat, pairable: bool, unrecorded: bool)

  function Budget(devices: seq<Device>, id: string, unrecorded: bool): PairingState {
    if Known(devices, id) then PairingState(Get(devices, id).attempts, Pairable(Get(devices, id)), unrecorded)
    else PairingState(0, false, unrecorded)
  }

  datatype Identity = Authenticated(device: Device) | UnknownDevice | RevokedDevice

  /** The last record holding this credential, or the length of the file. */
  function Holder(devices: seq<Device>, token: string): (i: nat)
    ensures i <= |devices| && (i < |devices| ==> devices[i].token == Of(token))
    ensures i == |devices| ==> forall j :: 0 <= j < |devices| ==> devices[j].token != Of(token)
  {
    if devices == [] then 0
    else
      var n := |devices| - 1;
      if devices[n].token == Of(token) then n
      else var i := Holder(devices[..n], token); if i == n then n + 1 else i
  }

  function Authenticate(devices: seq<Device>, token: string): Identity {
    var i := Holder(devices, token);
    if i == |devices| then UnknownDevice
    else if devices[i].standing == Active then Authenticated(devices[i])
    else RevokedDevice
  }

  // ---------------------------------------------------------------- the class

  /** The registry over its directories: the record file, the audit rows and the
      unrecorded-failure markers. */
  class DeviceRegistry {
    const host: Host
    var devices: seq<Device>
    var audit: seq<Row>
    var markers: set<string>

    ghost function Value(): Files
      reads this
    {
      Files(devices, audit, markers)
    }

    constructor (host: Host)
      ensures this.host == host && Value() == Files([], [], {})
    {
      this.host := host;
      devices, audit, markers := [], [], {};
    }

    method IndexOf(loaded: seq<Device>, id: string) returns (i: nat)
      ensures i == Find(loaded, id)
    {
      i := 0;
      while i < |loaded|
        invariant i <= |loaded| && Find(loaded, id) == i + Find(loaded[i..], id)
      {
        if loaded[i].id == id {
          return;
        }
        assert loaded[i..][1..] == loaded[i + 1..];
        i := i + 1;
      }
    }

    /** Takes the lock and reads the record file. */
    method Load(faults: Trouble) returns (error: Option<Error>, loaded: seq<Device>)
      ensures error == if !faults.lock then Some(Locked)
                       else if !faults.readable || !Loadable(host, devices) then Some(Unreadable) else None
      ensures error == None ==> loaded == devices
    {
      if !faults.lock {
        return Some(Locked), [];
      }
      if !faults.readable || |devices| > MAX_DEVICES || (devices != [] && host.size(devices) > MAX_REGISTRY_BYTES) {
        return Some(Unreadable), [];
      }
      return None, devices;
    }

    /** Writes the changed file, then the row that describes it. */
    method Commit(changed: seq<Device>, event: Option<Event>, id: string, now: int, faults: Trouble) returns (verdict: Verdict)
      requires faults.lock && faults.readable && Loadable(host, devices)
      modifies this
      ensures (Value(), verdict) == Mutate(host, old(Value()), Apply(changed, event), id, now, faults)
    {
      if host.size(changed) > MAX_REGISTRY_BYTES {
        return Failed(TooLarge);
      }
      if faults.record != Fails {
        devices := changed;
      }
      if faults.record != Lands {
        return Failed(NotWritten);
      }
      if event == None {
        return Done;
      }
      if faults.audit != Fails {
        audit := audit + [Row(event.value, id, Stamp(now))];
      }
      return if faults.audit == Lands then Done else Unaudited;
    }

    method PairDevice(id: string, name: string, platform: string, code: string, now: int, faults: Trouble) returns (verdict: Verdict)
      modifies this
      ensures (Value(), verdict) == Pair(host, old(Value()), NewDevice(id, name, platform, code, now), now, faults)
    {
      var d := NewDevice(id, name, platform, code, now);
      if !host.valid(d) {
        return Failed(Invalid);
      }
      var error, loaded := Load(faults);
      if error.Some? {
        return Failed(error.value);
      }
      var i := IndexOf(loaded, d.id);
      if i < |loaded| {
        return Failed(AlreadyRegistered);
      }
      if |loaded| >= MAX_DEVICES {
        return Failed(Full);
      }
      verdict := Commit(loaded + [d], Some(PairedEvent), d.id, now, faults);
    }

    method ConfirmPairing(c: Confirmation, token: string, now: int, faults: Trouble) returns (answer: Answer)
      modifies this
      ensures (Value(), answer) == Confirm(host, old(Value()), c, token, now, faults)
    {
      var error, loaded := Load(faults);
      if error.Some? {
        return Denied(error.value);
      }
      var i := IndexOf(loaded, c.device);
      if i == |loaded| {
        return Denied(NoSuchDevice);
      }
      var d := loaded[i];
      if d.standing != Unconfirmed || d.code == Absent {
        return Denied(NotPending);
      }
      var match_ := d.code == Of(c.code);
      var expired := Expired(d.expiresAt, now);
      if !match_ {
        return Denied(WrongCode);
      }
      if expired {
        d := d.(code := Absent);
        BurnedIsNotActive(loaded, i, c, token);
        var verdict := Commit(loaded[i := d], Some(ExpiredEvent), c.device, now, faults);
        return Denied(if verdict.Failed? then verdict.error else CodeExpired);
      }
      d := Activated(d, c, token);
      if !host.valid(d) {
        return Denied(Invalid);
      }
      FindSame(loaded, i, d, c.device);
      var verdict := Commit(loaded[i := d], Some(ConfirmedEvent), c.device, now, faults);
      return if verdict.Failed? then Denied(verdict.error) else Granted(token, d, verdict == Done);
    }

    method RecordPairingFailure(id: string, now: int, faults: Trouble) returns (spent: Option<nat>)
      modifies this
      ensures (Value(), spent) == RecordFailure(host, old(Value()), id, now, faults)
    {
      var error, loaded := Load(faults);
      if error.Some? {
        return None;
      }
      var i := IndexOf(loaded, id);
      if i == |loaded| || loaded[i].standing != Unconfirmed || loaded[i].code == Absent {
        return Some(0);
      }
      var attempts := loaded[i].attempts + 1;
      var verdict := Commit(loaded[i := loaded[i].(attempts := attempts)], None, id, now, faults);
      return if verdict.Failed? then None else Some(attempts);
    }

    method RevokeDevice(id: string, now: int, faults: Trouble) returns (verdict: Verdict)
      modifies this
      ensures (Value(), verdict) == Revoke(host, old(Value()), id, now, faults)
    {
      var error, loaded := Load(faults);
      if error.Some? {
        return Failed(error.value);
      }
      var i := IndexOf(loaded, id);
      if i == |loaded| {
        return Failed(NoSuchDevice);
      }
      if loaded[i].standing == Revoked {
        return Done;
      }
      var d := loaded[i].(standing := Revoked, revokedAt := Some(Stamp(now)), code := Absent, expiresAt := None);
      if !host.valid(d) {
        return Failed(Invalid);
      }
      verdict := Commit(loaded[i := d], Some(RevokedEvent), id, now, faults);
    }

    method StampSeen(id: string, now: int, faults: Trouble) returns (verdict: Verdict)
      modifies this
      ensures (Value(), verdict) == MarkSeen(host, old(Value()), id, now, faults)
    {
      var error, loaded := Load(faults);
      if error.Some? {
        return Failed(error.value);
      }
      var i := IndexOf(loaded, id);
      if i == |loaded| {
        return Failed(NoSuchDevice);
      }
      if loaded[i].lastSeenAt == Some(Stamp(now)) {
        return Done;
      }
      verdict := Commit(loaded[i := loaded[i].(lastSeenAt := Some(Stamp(now)))], None, id, now, faults);
    }

    /** Reads the marker, then the record file; takes no lock and writes nothing. */
    method PairingBudget(id: string, stat: bool, readable: bool) returns (state: Option<PairingState>)
      ensures state == if stat && readable && Loadable(host, devices) then Some(Budget(devices, id, id in markers)) else None
    {
      if !stat {
        return None;
      }
      var unrecorded := id in markers;
      var error, loaded := Load(Trouble(true, readable, Fails, Fails));
      if error.Some? {
        return None;
      }
      var i := IndexOf(loaded, id);
      if i == |loaded| {
        return Some(PairingState(0, false, unrecorded));
      }
      return Some(PairingState(loaded[i].attempts, loaded[i].standing == Unconfirmed && loaded[i].code != Absent, unrecorded));
    }

    method MarkFailureUnrecorded(id: string, landed: bool)
      modifies this`markers
      ensures markers == if landed then old(markers) + {id} else old(markers)
    {
      if landed {
        markers := markers + {id};
      }
    }

    method ClearFailureUnrecorded(id: string, removal: Landing) returns (ok: bool)
      modifies this`markers
      ensures ok == (removal == Lands) && markers == if removal == Fails then old(markers) else old(markers) - {id}
    {
      if removal != Fails {
        markers := markers - {id};
      }
      return removal == Lands;
    }

    /** Compares every stored credential, with no early exit. */
    method Identify(token: string, readable: bool) returns (who: Option<Identity>)
      ensures who == if readable && Loadable(host, devices) then Some(Authenticate(devices, token)) else None
    {
      var error, loaded := Load(Trouble(true, readable, Fails, Fails));
      if error.Some? {
        return None;
      }
      var matched, i := |loaded|, 0;
      while i < |loaded|
        invariant i <= |loaded|
        invariant Holder(loaded[..i], token) == if matched == |loaded| then i else matched
        invariant matched == |loaded| || matched < i
      {
        assert loaded[..i + 1][..i] == loaded[..i];
        if loaded[i].token == Of(token) {
          matched := i;
        }
        i := i + 1;
      }
      assert loaded[..i] == loaded;
      if matched == |loaded| {
        return Some(UnknownDevice);
      }
      return Some(if loaded[matched].standing == Active then Authenticated(loaded[matched]) else RevokedDevice);
    }
  }

  lemma {:induction false} FindSame(devices: seq<Device>, i: nat, d: Device, id: string)
    requires i < |devices| && d.id == devices[i].id
    ensures Find(devices[i := d], id) == Find(devices, id)
  {
    if i > 0 {
      FindSame(devices[1..], i - 1, d, id);
      assert devices[i := d][1..] == devices[1..][i - 1 := d];
    }
  }

  lemma BurnedIsNotActive(devices: seq<Device>, i: nat, c: Confirmation, token: string)
    requires i < |devices| && devices[i].standing == Unconfirmed
    ensures devices[i := devices[i].(code := Absent)] != devices[i := Activated(devices[i], c, token)]
  {
    assert devices[i := devices[i].(code := Absent)][i].standing != devices[i := Activated(devices[i], c, token)][i].standing;
  }
}
