/** What every single registry operation keeps. */
module RegistryFacts {
  import opened Reservations
  import opened Registry

  function Rank(s: Standing): nat {
    match s
    case Unconfirmed => 0
    case Active => 1
    case Revoked => 2
  }

  /** How one record may change: standing only moves forward, a closed pairing
      never reopens, a code is never replaced and a credential never changes. */
  ghost predicate Follows(d: Device, e: Device) {
    && e.id == d.id && e.createdAt == d.createdAt
    && Rank(d.standing) <= Rank(e.standing)
    && (Pairable(e) ==> Pairable(d) && e.code == d.code && e.expiresAt == d.expiresAt)
    && (d.standing != Unconfirmed ==> e.token == d.token)
    && (e.standing == Unconfirmed ==> e.token == d.token)
    && d.attempts <= e.attempts
  }

  /** Records are never dropped or reordered. */
  ghost predicate Extends(ds: seq<Device>, es: seq<Device>) {
    |ds| <= |es| && forall i {:trigger es[i]} :: 0 <= i < |ds| ==> Follows(ds[i], es[i])
  }

  lemma ExtendsSelf(ds: seq<Device>)
    ensures Extends(ds, ds)
  {
  }

  lemma ExtendsChain(ds: seq<Device>, es: seq<Device>, fs: seq<Device>)
    requires Extends(ds, es) && Extends(es, fs)
    ensures Extends(ds, fs)
  {
    forall i | 0 <= i < |ds|
      ensures Follows(ds[i], fs[i])
    {
      assert Follows(ds[i], es[i]) && Follows(es[i], fs[i]);
    }
  }

  lemma {:induction false} FindStays(ds: seq<Device>, es: seq<Device>, id: string)
    requires Extends(ds, es) && Known(ds, id)
    ensures Find(es, id) == Find(ds, id)
  {
    assert Follows(ds[0], es[0]);
    if ds[0].id != id {
      forall i | 0 <= i < |ds[1..]|
        ensures Follows(ds[1..][i], es[1..][i])
      {
        assert Follows(ds[i + 1], es[i + 1]);
      }
      FindStays(ds[1..], es[1..], id);
    }
  }

  /** A known device stays known, and its record only follows. */
  lemma GetFollows(ds: seq<Device>, es: seq<Device>, id: string)
    requires Extends(ds, es) && Known(ds, id)
    ensures Known(es, id) && Follows(Get(ds, id), Get(es, id))
  {
    FindStays(ds, es, id);
    assert Follows(ds[Find(ds, id)], es[Find(ds, id)]);
  }

  lemma UpdateExtends(ds: seq<Device>, i: nat, d: Device)
    requires i < |ds| && Follows(ds[i], d)
    ensures Extends(ds, ds[i := d])
  {
  }

  lemma {:induction false} FindAppend(ds: seq<Device>, d: Device, id: string)
    ensures Find(ds + [d], id) == if Known(ds, id) then Find(ds, id) else if d.id == id then |ds| else |ds| + 1
  {
    if ds == [] {
      assert ds + [d] == [d];
      assert [d][1..] == [];
    } else {
      assert (ds + [d])[1..] == ds[1..] + [d];
      FindAppend(ds[1..], d, id);
    }
  }

  // ----------------------------------------------------------- the audit trail

  /** What an audit row claims about the record file. */
  ghost predicate RowHolds(ds: seq<Device>, row: Row) {
    && Known(ds, row.device)
    && match row.event
       case PairedEvent => true
       case ConfirmedEvent => Get(ds, row.device).standing != Unconfirmed && Get(ds, row.device).token != Absent
       case ExpiredEvent => !Pairable(Get(ds, row.device))
       case RevokedEvent => Get(ds, row.device).standing == Revoked
  }

  lemma RowStays(ds: seq<Device>, es: seq<Device>, row: Row)
    requires Extends(ds, es) && RowHolds(ds, row)
    ensures RowHolds(es, row)
  {
    GetFollows(ds, es, row.device);
  }

  // ------------------------------------------------------------- the record file

  /** Credentials belong to devices that were confirmed, and to one device each. */
  ghost predicate TokensSound(ds: seq<Device>, used: set<string>) {
    && (forall i {:trigger ds[i]} :: 0 <= i < |ds| ==>
          && (ds[i].standing == Unconfirmed ==> ds[i].token == Absent)
          && (ds[i].standing == Active ==> ds[i].token != Absent)
          && (ds[i].token.Of? ==> ds[i].token.secret in used))
    && (forall i, j {:trigger ds[i], ds[j]} :: 0 <= i < j < |ds| && ds[i].token.Of? ==> ds[i].token != ds[j].token)
  }

  ghost predicate Sound(host: Host, f: Files, used: set<string>) {
    && Loadable(host, f.devices)
    && (forall row <- f.audit :: RowHolds(f.devices, row))
    && TokensSound(f.devices, used)
  }

  /** A change that is in order: it extends, its row is true, tokens stay sound. */
  ghost predicate InOrder(f: Files, change: Change, id: string, used: set<string>) {
    change.Apply? ==>
      && Extends(f.devices, change.devices) && TokensSound(change.devices, used)
      && |change.devices| <= MAX_DEVICES
      && (change.event.Some? ==> RowHolds(change.devices, Row(change.event.value, id, 0)))
  }

  /** Every mutation keeps the file loadable, its rows true, and extends it. */
  lemma MutateIsSound(host: Host, f: Files, change: Change, id: string, now: int, faults: Trouble, used: set<string>)
    requires Sound(host, f, used) && InOrder(f, change, id, used)
    ensures var (g, v) := Mutate(host, f, change, id, now, faults);
            Sound(host, g, used) && Extends(f.devices, g.devices) && g.markers == f.markers && f.audit <= g.audit
  {
    hide RowHolds, TokensSound, Extends;
    ExtendsSelf(f.devices);
    var (g, v) := Mutate(host, f, change, id, now, faults);
    if change.Apply? && g.devices == change.devices {
      forall row <- g.audit
        ensures RowHolds(g.devices, row)
      {
        if row in f.audit {
          RowStays(f.devices, g.devices, row);
        } else {
          RowDateFree(g.devices, row);
        }
      }
    }
  }

  lemma RowDateFree(ds: seq<Device>, row: Row)
    ensures RowHolds(ds, row) == RowHolds(ds, Row(row.event, row.device, 0))
  {
  }

  lemma PairInOrder(host: Host, f: Files, d: Device, used: set<string>)
    requires Sound(host, f, used) && d.standing == Unconfirmed && d.token == Absent
    ensures InOrder(f, PairChange(host, f.devices, d), d.id, used)
  {
    FindAppend(f.devices, d, d.id);
    forall i | 0 <= i < |f.devices|
      ensures Follows(f.devices[i], (f.devices + [d])[i])
    {
    }
  }

  lemma UpdateTokens(ds: seq<Device>, i: nat, d: Device, used: set<string>)
    requires TokensSound(ds, used) && i < |ds| && d.token == ds[i].token && (d.standing == ds[i].standing || d.standing == Revoked)
    ensures TokensSound(ds[i := d], used)
  {
  }

  lemma ConfirmInOrder(host: Host, f: Files, c: Confirmation, token: string, now: int, used: set<string>)
    requires Sound(host, f, used) && token !in used
    ensures InOrder(f, ConfirmChange(host, f.devices, c, token, now), c.device, used + {token})
  {
    hide Extends, Loadable;
    var change := ConfirmChange(host, f.devices, c, token, now);
    if change.Apply? {
      var i := Find(f.devices, c.device);
      UpdateExtends(f.devices, i, change.devices[i]);
      FindStays(f.devices, change.devices, c.device);
      assert |change.devices| <= MAX_DEVICES by {
        SizeKept(host, f.devices);
      }
    }
  }

  lemma SizeKept(host: Host, ds: seq<Device>)
    requires Loadable(host, ds)
    ensures |ds| <= MAX_DEVICES
  {
  }

  lemma FailureInOrder(host: Host, f: Files, id: string, used: set<string>)
    requires Sound(host, f, used)
    ensures InOrder(f, FailureChange(f.devices, id), id, used)
  {
    hide Extends;
    var change := FailureChange(f.devices, id);
    if change.Apply? {
      UpdateExtends(f.devices, Find(f.devices, id), change.devices[Find(f.devices, id)]);
      UpdateTokens(f.devices, Find(f.devices, id), change.devices[Find(f.devices, id)], used);
    }
  }

  lemma SeenInOrder(host: Host, f: Files, id: string, now: int, used: set<string>)
    requires Sound(host, f, used)
    ensures InOrder(f, SeenChange(f.devices, id, now), id, used)
  {
    hide Extends;
    var change := SeenChange(f.devices, id, now);
    if change.Apply? {
      UpdateExtends(f.devices, Find(f.devices, id), change.devices[Find(f.devices, id)]);
      UpdateTokens(f.devices, Find(f.devices, id), change.devices[Find(f.devices, id)], used);
    }
  }

  lemma RevokeInOrder(host: Host, f: Files, id: string, now: int, used: set<string>)
    requires Sound(host, f, used)
    ensures InOrder(f, RevokeChange(host, f.devices, id, now), id, used)
  {
    hide Extends;
    var change := RevokeChange(host, f.devices, id, now);
    if change.Apply? {
      var i := Find(f.devices, id);
      UpdateExtends(f.devices, i, change.devices[i]);
      UpdateTokens(f.devices, i, change.devices[i], used);
      FindStays(f.devices, change.devices, id);
    }
  }

  lemma MoreUsed(host: Host, f: Files, used: set<string>, more: set<string>)
    requires Sound(host, f, used) && used <= more
    ensures Sound(host, f, more)
  {
  }

  /** A credential opens exactly the active device that holds it. */
  lemma AuthenticatesIffActive(host: Host, f: Files, used: set<string>, token: string, i: nat)
    requires Sound(host, f, used) && i < |f.devices| && f.devices[i].token == Of(token)
    ensures Authenticate(f.devices, token) == (if f.devices[i].standing == Active then Authenticated(f.devices[i]) else RevokedDevice)
  {
    var j := Holder(f.devices, token);
    assert j < |f.devices| && f.devices[j].token == f.devices[i].token;
  }

  /** Confirming a waiting pairing makes the device active without telling the
      caller the token exactly when the change was granted, fits, and is written by
      a write that lands but is reported as failed. */
  lemma ConfirmStrands(host: Host, f: Files, c: Confirmation, token: string, now: int, faults: Trouble)
    requires PairableAt(f.devices, c.device)
    ensures var (g, answer) := Confirm(host, f, c, token, now, faults);
            var change := ConfirmChange(host, f.devices, c, token, now);
            Known(g.devices, c.device) && Get(g.devices, c.device).standing == Active && !answer.Granted? <==>
            && faults.lock && faults.readable && Loadable(host, f.devices)
            && change.Apply? && change.event == Some(ConfirmedEvent) && host.size(change.devices) <= MAX_REGISTRY_BYTES
            && faults.record == Slips
  {
    var i := Find(f.devices, c.device);
    BurnedIsNotActive(f.devices, i, c, token);
    FindSame(f.devices, i, Activated(f.devices[i], c, token), c.device);
    FindSame(f.devices, i, f.devices[i].(code := Absent), c.device);
  }
}
