/** What each registry operation does to the record file and the audit rows, said
    over the records, the clock and the weather alone. */
module RegistryLaws {
  import opened Reservations
  import opened Registry

  /** The record an id stands for: the first one under it. */
  ghost predicate First(ds: seq<Device>, id: string, i: nat) {
    i < |ds| && ds[i].id == id && forall j :: 0 <= j < i ==> ds[j].id != id
  }

  ghost predicate Unlisted(ds: seq<Device>, id: string) {
    forall j :: 0 <= j < |ds| ==> ds[j].id != id
  }

  lemma {:induction false} FirstIsFound(ds: seq<Device>, id: string)
    ensures Unlisted(ds, id) <==> Find(ds, id) == |ds|
    ensures forall i: nat :: First(ds, id, i) <==> i == Find(ds, id) < |ds|
  {
    var i := Find(ds, id);
    assert i < |ds| ==> ds[i].id == id;
  }

  /** At most a mebibyte and 64 devices, or nothing yet. */
  ghost predicate InBounds(host: Host, ds: seq<Device>) {
    |ds| <= 64 && (ds == [] || host.size(ds) <= 1_048_576)
  }

  /** A time in whole seconds. */
  ghost predicate Whole(s: int, t: int) {
    s % 1_000_000_000 == 0 && s <= t < s + 1_000_000_000
  }

  ghost predicate Refused(f: Files, g: Files, v: Verdict, e: Error) {
    g == f && v == Failed(e)
  }

  ghost predicate Unready(host: Host, f: Files, faults: Trouble) {
    !(faults.lock && faults.readable && InBounds(host, f.devices))
  }

  /** What comes of an operation that cannot begin. */
  ghost predicate NotBegun(f: Files, faults: Trouble, g: Files, v: Verdict) {
    Refused(f, g, v, if faults.lock then Unreadable else Locked)
  }

  /** What comes of writing a changed record file. The record goes first; a row
      follows a record that landed, and no other. */
  ghost predicate Saved(host: Host, f: Files, ds: seq<Device>, event: Option<Event>, id: string, now: int, faults: Trouble,
                        g: Files, v: Verdict) {
    if host.size(ds) > 1_048_576 then Refused(f, g, v, TooLarge)
    else if faults.record == Fails then Refused(f, g, v, NotWritten)
    else
      && g.devices == ds && g.markers == f.markers
      && if faults.record == Slips then v == Failed(NotWritten) && g.audit == f.audit
         else if event == None then v == Done && g.audit == f.audit
         else && v == (if faults.audit == Lands then Done else Unaudited)
              && (if faults.audit == Fails then g.audit == f.audit
                  else && |g.audit| == |f.audit| + 1 && f.audit <= g.audit
                       && g.audit[|f.audit|].event == event.value && g.audit[|f.audit|].device == id
                       && Whole(g.audit[|f.audit|].at, now))
  }

  lemma MutateSaves(host: Host, f: Files, ds: seq<Device>, event: Option<Event>, id: string, now: int, faults: Trouble)
    ensures var (g, v) := Mutate(host, f, Apply(ds, event), id, now, faults);
            if Unready(host, f, faults) then NotBegun(f, faults, g, v) else Saved(host, f, ds, event, id, now, faults, g, v)
  {
  }

  // ------------------------------------------------------------------ pairing

  /** A pairing waits ten minutes for its code, with nothing tried. */
  lemma NewDeviceWaits(id: string, name: string, platform: string, code: string, now: int)
    ensures var d := NewDevice(id, name, platform, code, now);
            && d.id == id && d.name == name && d.platform == platform && d.standing == Unconfirmed
            && d.token == Absent && d.code == Of(code) && d.attempts == 0 && d.publicKey == ""
            && d.lastSeenAt == None && d.revokedAt == None && Whole(d.createdAt, now)
            && d.expiresAt.Some? && Whole(d.expiresAt.value, now + 600_000_000_000)
  {
  }

  lemma PairAdds(host: Host, f: Files, d: Device, now: int, faults: Trouble)
    ensures var (g, v) := Pair(host, f, d, now, faults);
            if !host.valid(d) then Refused(f, g, v, Invalid)
            else if Unready(host, f, faults) then NotBegun(f, faults, g, v)
            else if !Unlisted(f.devices, d.id) then Refused(f, g, v, AlreadyRegistered)
            else if |f.devices| == 64 then Refused(f, g, v, Full)
            else Saved(host, f, f.devices + [d], Some(PairedEvent), d.id, now, faults, g, v)
  {
    FirstIsFound(f.devices, d.id);
    hide Saved;
    MutateSaves(host, f, f.devices + [d], Some(PairedEvent), d.id, now, faults);
  }

  // ------------------------------------------------------------- confirmation

  ghost predicate Waits(d: Device) {
    d.standing == Unconfirmed && d.code != Absent
  }

  ghost predicate InTime(d: Device, now: int) {
    d.expiresAt.Some? && now < d.expiresAt.value
  }

  /** The device a confirmation makes: what the phone said about itself, the new
      credential, and nothing left of the code. */
  ghost function Confirmed(d: Device, c: Confirmation, token: string): Device {
    Device(d.id, c.name, c.platform, Active, Of(token), Absent, None, d.attempts, c.publicKey, d.createdAt, d.lastSeenAt,
           d.revokedAt)
  }

  /** A code that came too late is burned. */
  ghost function Burned(d: Device): Device {
    Device(d.id, d.name, d.platform, d.standing, d.token, Absent, d.expiresAt, d.attempts, d.publicKey, d.createdAt,
           d.lastSeenAt, d.revokedAt)
  }

  ghost predicate Denies(f: Files, g: Files, a: Answer, e: Error) {
    g == f && a == Denied(e)
  }

  lemma ConfirmUnlisted(host: Host, f: Files, c: Confirmation, token: string, now: int, faults: Trouble)
    requires Unlisted(f.devices, c.device)
    ensures var (g, a) := Confirm(host, f, c, token, now, faults);
            Denies(f, g, a, if !faults.lock then Locked else if Unready(host, f, faults) then Unreadable else NoSuchDevice)
  {
    FirstIsFound(f.devices, c.device);
  }

  /** The credential comes only of a record that landed for the right code in time;
      any other ending says why. */
  lemma ConfirmDecides(host: Host, f: Files, c: Confirmation, token: string, now: int, faults: Trouble, i: nat)
    requires First(f.devices, c.device, i)
    ensures var (g, a) := Confirm(host, f, c, token, now, faults);
            var d := f.devices[i];
            if Unready(host, f, faults) then Denies(f, g, a, if faults.lock then Unreadable else Locked)
            else if !Waits(d) then Denies(f, g, a, NotPending)
            else if d.code != Of(c.code) then Denies(f, g, a, WrongCode)
            else if !InTime(d, now) then
              exists v: Verdict ::
                && Saved(host, f, f.devices[i := Burned(d)], Some(ExpiredEvent), c.device, now, faults, g, v)
                && a == Denied(if v.Failed? then v.error else CodeExpired)
            else if !host.valid(Confirmed(d, c, token)) then Denies(f, g, a, Invalid)
            else
              exists v: Verdict ::
                && Saved(host, f, f.devices[i := Confirmed(d, c, token)], Some(ConfirmedEvent), c.device, now, faults, g, v)
                && a == if v.Failed? then Denied(v.error) else Granted(token, Confirmed(d, c, token), v == Done)
  {
    FirstIsFound(f.devices, c.device);
    var d := f.devices[i];
    if d.standing == Unconfirmed {
      BurnedIsNotActive(f.devices, i, c, token);
    }
    FindSame(f.devices, i, Activated(d, c, token), c.device);
    MutateSaves(host, f, f.devices[i := Burned(d)], Some(ExpiredEvent), c.device, now, faults);
    MutateSaves(host, f, f.devices[i := Confirmed(d, c, token)], Some(ConfirmedEvent), c.device, now, faults);
    assert Activated(d, c, token) == Confirmed(d, c, token) && d.(code := Absent) == Burned(d);
    hide Saved, Mutate;
    var change := ConfirmChange(host, f.devices, c, token, now);
    var v := Mutate(host, f, change, c.device, now, faults).1;
  }

  // ------------------------------------------------------------ the other three

  /** A failure is counted on a waiting record, and on nothing else. */
  lemma FailureCounts(host: Host, f: Files, id: string, now: int, faults: Trouble, i: nat)
    requires First(f.devices, id, i)
    ensures var (g, spent) := RecordFailure(host, f, id, now, faults);
            var d := f.devices[i];
            if Unready(host, f, faults) then g == f && spent == None
            else if !Waits(d) then g == f && spent == Some(0)
            else
              var e := Device(d.id, d.name, d.platform, d.standing, d.token, d.code, d.expiresAt, d.attempts + 1, d.publicKey,
                              d.createdAt, d.lastSeenAt, d.revokedAt);
              exists v: Verdict ::
                && Saved(host, f, f.devices[i := e], None, id, now, faults, g, v)
                && spent == if v.Failed? then None else Some(d.attempts + 1)
  {
    FirstIsFound(f.devices, id);
    var d := f.devices[i];
    var es := f.devices[i := d.(attempts := d.attempts + 1)];
    MutateSaves(host, f, es, None, id, now, faults);
    if !Unready(host, f, faults) && Waits(d) {
      var (g, v) := Mutate(host, f, Apply(es, None), id, now, faults);
      assert Saved(host, f, es, None, id, now, faults, g, v);
      hide Saved, Mutate;
      assert RecordFailure(host, f, id, now, faults) == (g, if v.Failed? then None else Some(d.attempts + 1));
    }
  }

  lemma FailureUnlisted(host: Host, f: Files, id: string, now: int, faults: Trouble)
    requires Unlisted(f.devices, id)
    ensures RecordFailure(host, f, id, now, faults) == (f, if Unready(host, f, faults) then None else Some(0))
  {
    FirstIsFound(f.devices, id);
  }

  /** The record of a device that was revoked at a time: its code is gone. */
  ghost predicate EndedAt(d: Device, now: int, e: Device) {
    && e.revokedAt.Some? && Whole(e.revokedAt.value, now)
    && e == Device(d.id, d.name, d.platform, Revoked, d.token, Absent, None, d.attempts, d.publicKey, d.createdAt,
                   d.lastSeenAt, e.revokedAt)
  }

  /** Revoking ends a device once: a revoked one keeps its first end. */
  lemma RevokeEnds(host: Host, f: Files, id: string, now: int, faults: Trouble, i: nat)
    requires First(f.devices, id, i)
    ensures var (g, v) := Revoke(host, f, id, now, faults);
            if Unready(host, f, faults) then NotBegun(f, faults, g, v)
            else if f.devices[i].standing == Revoked then g == f && v == Done
            else
              exists e: Device ::
                && EndedAt(f.devices[i], now, e)
                && if !host.valid(e) then Refused(f, g, v, Invalid)
                   else Saved(host, f, f.devices[i := e], Some(RevokedEvent), id, now, faults, g, v)
  {
    FirstIsFound(f.devices, id);
    var e := Ended(f.devices[i], now);
    assert EndedAt(f.devices[i], now, e);
    MutateSaves(host, f, f.devices[i := e], Some(RevokedEvent), id, now, faults);
    hide Saved, EndedAt;
  }

  /** An unknown device cannot be revoked. */
  lemma RevokeUnlisted(host: Host, f: Files, id: string, now: int, faults: Trouble)
    requires Unlisted(f.devices, id)
    ensures var (g, v) := Revoke(host, f, id, now, faults);
            if Unready(host, f, faults) then NotBegun(f, faults, g, v) else Refused(f, g, v, NoSuchDevice)
  {
    FirstIsFound(f.devices, id);
  }

  /** A sighting is kept to the second, for any known device, and is no event. */
  lemma SeenStamps(host: Host, f: Files, id: string, now: int, faults: Trouble, i: nat, s: int)
    requires First(f.devices, id, i) && Whole(s, now)
    ensures var (g, v) := MarkSeen(host, f, id, now, faults);
            var d := f.devices[i];
            if Unready(host, f, faults) then NotBegun(f, faults, g, v)
            else if d.lastSeenAt == Some(s) then g == f && v == Done
            else
              var e := Device(d.id, d.name, d.platform, d.standing, d.token, d.code, d.expiresAt, d.attempts, d.publicKey,
                              d.createdAt, Some(s), d.revokedAt);
              Saved(host, f, f.devices[i := e], None, id, now, faults, g, v)
  {
    FirstIsFound(f.devices, id);
    var d := f.devices[i];
    assert s == Stamp(now);
    MutateSaves(host, f, f.devices[i := d.(lastSeenAt := Some(s))], None, id, now, faults);
    hide Saved;
  }

  // ------------------------------------------------------------ who a caller is

  /** The last record that holds the credential decides, and opens only while it
      is active. */
  lemma {:induction false} LastHolderDecides(ds: seq<Device>, token: string, i: nat)
    requires i < |ds| && ds[i].token == Of(token) && forall j :: i < j < |ds| ==> ds[j].token != Of(token)
    ensures Authenticate(ds, token) == if ds[i].standing == Active then Authenticated(ds[i]) else RevokedDevice
    decreases |ds|
  {
    var n := |ds| - 1;
    if i < n {
      assert ds[n].token != Of(token);
      LastHolderDecides(ds[..n], token, i);
    }
  }

  /** A credential that no record holds is nobody's. */
  lemma {:induction false} NobodyHolds(ds: seq<Device>, token: string)
    requires forall j :: 0 <= j < |ds| ==> ds[j].token != Of(token)
    ensures Authenticate(ds, token) == UnknownDevice
  {
  }

  lemma EndedAtIsEnded(d: Device, now: int, e: Device)
    requires EndedAt(d, now, e)
    ensures e == Ended(d, now)
  {
  }

  /** Revoking a device that is in force: exactly when its record gets to the disk it
      is revoked, its code is gone and its credential is refused. */
  lemma RevokedIsRefused(host: Host, f: Files, id: string, now: int, faults: Trouble, i: nat, token: string, e: Device)
    requires First(f.devices, id, i) && f.devices[i].standing != Revoked && EndedAt(f.devices[i], now, e)
    requires f.devices[i].token == Of(token) && forall j :: 0 <= j < |f.devices| && j != i ==> f.devices[j].token != Of(token)
    ensures var (g, v) := Revoke(host, f, id, now, faults);
            if !Unready(host, f, faults) && host.valid(e) && host.size(f.devices[i := e]) <= 1_048_576 && faults.record != Fails
            then && First(g.devices, id, i) && g.devices[i].standing == Revoked && g.devices[i].code == Absent
                 && Authenticate(g.devices, token) == RevokedDevice && (v.Failed? <==> faults.record == Slips)
            else g == f && v.Failed?
  {
    FirstIsFound(f.devices, id);
    EndedAtIsEnded(f.devices[i], now, e);
    hide Whole, EndedAt, Ended;
    var (g, v) := Revoke(host, f, id, now, faults);
    if g != f {
      LastHolderDecides(g.devices, token, i);
    }
  }

  /** What the route reads before a guess is tried. */
  lemma BudgetReads(ds: seq<Device>, id: string, unrecorded: bool)
    ensures var b := Budget(ds, id, unrecorded);
            && b.unrecorded == unrecorded
            && (Unlisted(ds, id) ==> b.attempts == 0 && !b.pairable)
            && (forall i: nat :: First(ds, id, i) ==> b.attempts == ds[i].attempts && b.pairable == Waits(ds[i]))
  {
    FirstIsFound(ds, id);
  }
}
