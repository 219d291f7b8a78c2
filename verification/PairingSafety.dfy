/** What every run of pairing keeps. */
module PairingSafety {
  import opened Reservations
  import opened Registry
  import opened RegistryFacts
  import opened Pairing

  /** A wrong code has been compared and its count may not be on disk yet. */
  predicate Owed(s: State, id: string) {
    || id in s.latched || id in s.files.markers
    || ((s.phase.Counting? || s.phase.Marking? || s.phase.Latching?) && s.phase.device == id)
  }

  predicate Within(s: State, id: string) {
    && (!Known(s.files.devices, id) ==> Guesses(s, id) == 0)
    && (PairableAt(s.files.devices, id) ==>
          Guesses(s, id) <= Get(s.files.devices, id).attempts + s.restarts + if Owed(s, id) then 1 else 0)
    && Guesses(s, id) <= MAX_PAIRING_ATTEMPTS + s.restarts
  }

  predicate Counted(s: State, id: string) {
    PairableAt(s.files.devices, id) ==> Guesses(s, id) <= Get(s.files.devices, id).attempts + s.restarts
  }

  predicate NotActive(ds: seq<Device>, id: string) {
    Known(ds, id) && Get(ds, id).standing != Active
  }

  predicate PhaseOk(s: State) {
    var ds := s.files.devices;
    match s.phase
    case Statted(c, unrecorded) => unrecorded == (c.device in s.files.markers)
    case Read(c, st) =>
      && st.unrecorded == (c.device in s.files.markers)
      && (PairableAt(ds, c.device) ==> Get(ds, c.device).attempts <= st.attempts)
      && (st.pairable ==> NotActive(ds, c.device))
    case Clearing(id, spent) => Counted(s, id) && (spent >= MAX_PAIRING_ATTEMPTS ==> NotActive(ds, id))
    case Trying(c) => Counted(s, c.device) && (PairableAt(ds, c.device) ==> Get(ds, c.device).attempts < MAX_PAIRING_ATTEMPTS)
    case Revoking(id) => NotActive(ds, id)
    case _ => true
  }

  predicate GrantHolds(ds: seq<Device>, g: Grant) {
    Known(ds, g.device) && Get(ds, g.device).standing != Unconfirmed && Get(ds, g.device).token == Of(g.token)
  }

  ghost predicate GrantsOk(s: State) {
    && (forall g <- s.grants :: GrantHolds(s.files.devices, g))
    && forall i, j :: 0 <= i < j < |s.grants| ==> s.grants[i].device != s.grants[j].device
  }

  ghost predicate Inv(host: Host, s: State) {
    && Sound(host, s.files, s.used)
    && (forall id {:trigger Within(s, id)} :: Within(s, id))
    && PhaseOk(s)
    && GrantsOk(s)
  }

  /** A change that no confirmation made: nobody becomes active, no count moves. */
  ghost predicate Calm(ds: seq<Device>, es: seq<Device>) {
    && Extends(ds, es)
    && (forall i {:trigger es[i]} :: 0 <= i < |ds| ==> es[i].attempts == ds[i].attempts && (es[i].standing == Active ==> ds[i].standing == Active))
    && (forall i {:trigger es[i]} :: |ds| <= i < |es| ==> es[i].attempts == 0 && es[i].standing == Unconfirmed)
  }

  lemma CalmGet(ds: seq<Device>, es: seq<Device>, id: string)
    requires Calm(ds, es)
    ensures Known(ds, id) ==> Known(es, id) && Follows(Get(ds, id), Get(es, id)) && Get(es, id).attempts == Get(ds, id).attempts
                              && (Get(es, id).standing == Active ==> Get(ds, id).standing == Active)
    ensures !Known(ds, id) && Known(es, id) ==> Get(es, id).attempts == 0 && Get(es, id).standing == Unconfirmed
  {
    hide Follows;
    if Known(ds, id) {
      FindStays(ds, es, id);
      GetFollows(ds, es, id);
    } else if Known(es, id) {
      var i := Find(es, id);
      if i < |ds| {
        assert Follows(ds[i], es[i]);
        SameId(ds[i], es[i]);
      }
    }
  }

  lemma SameId(d: Device, e: Device)
    requires Follows(d, e)
    ensures e.id == d.id
  {
  }

  lemma CalmExtends(ds: seq<Device>, es: seq<Device>)
    requires Calm(ds, es)
    ensures Extends(ds, es)
  {
  }

  lemma CalmUpdate(ds: seq<Device>, i: nat, d: Device)
    requires i < |ds| && Follows(ds[i], d) && d.attempts == ds[i].attempts && (d.standing == Active ==> ds[i].standing == Active)
    ensures Calm(ds, ds[i := d])
  {
  }

  lemma CalmSelf(ds: seq<Device>)
    ensures Calm(ds, ds)
  {
  }

  /** Pairing, revoking and stamping are calm. */
  lemma RevokeIsCalm(host: Host, f: Files, id: string, now: int, faults: Trouble)
    ensures Calm(f.devices, Revoke(host, f, id, now, faults).0.devices)
  {
    hide Calm;
    CalmSelf(f.devices);
    var change := RevokeChange(host, f.devices, id, now);
    if change.Apply? {
      var i := Find(f.devices, id);
      CalmUpdate(f.devices, i, change.devices[i]);
    }
  }

  lemma SeenIsCalm(host: Host, f: Files, id: string, now: int, faults: Trouble)
    ensures Calm(f.devices, MarkSeen(host, f, id, now, faults).0.devices)
  {
    hide Calm;
    CalmSelf(f.devices);
    var change := SeenChange(f.devices, id, now);
    if change.Apply? {
      var i := Find(f.devices, id);
      CalmUpdate(f.devices, i, change.devices[i]);
    }
  }

  lemma PairIsCalm(host: Host, f: Files, d: Device, now: int, faults: Trouble)
    requires d.standing == Unconfirmed && d.attempts == 0
    ensures Calm(f.devices, Pair(host, f, d, now, faults).0.devices)
  {
    CalmSelf(f.devices);
    assert Calm(f.devices, f.devices + [d]);
  }

  /** A calm change of the files keeps the invariant around any phase. */
  lemma CalmKeeps(host: Host, s: State, t: State)
    requires Inv(host, s) && t == s.(files := t.files) && Calm(s.files.devices, t.files.devices)
    requires t.files.markers == s.files.markers && Sound(host, t.files, t.used)
    ensures Inv(host, t)
  {
    hide Calm, Sound, Follows, Find;
    var ds, es := s.files.devices, t.files.devices;
    forall id
      ensures Within(t, id) && (Counted(s, id) ==> Counted(t, id)) && (NotActive(ds, id) ==> NotActive(es, id))
    {
      assert Within(s, id);
      CalmGet(ds, es, id);
      PairableFollows(ds, es, id);
    }
    if s.phase.Read? || s.phase.Trying? {
      CalmGet(ds, es, s.phase.c.device);
      PairableFollows(ds, es, s.phase.c.device);
    }
    CalmExtends(ds, es);
    GrantsStay(s, t);
  }

  lemma PairableFollows(ds: seq<Device>, es: seq<Device>, id: string)
    requires Known(ds, id) ==> Known(es, id) && Follows(Get(ds, id), Get(es, id))
    ensures Known(ds, id) && PairableAt(es, id) ==> PairableAt(ds, id)
  {
  }

  lemma GrantsStay(s: State, t: State)
    requires GrantsOk(s) && t.grants == s.grants
    requires Extends(s.files.devices, t.files.devices)
    ensures GrantsOk(t)
  {
    hide Find, Extends;
    forall g <- t.grants
      ensures GrantHolds(t.files.devices, g)
    {
      assert GrantHolds(s.files.devices, g);
      GetFollows(s.files.devices, t.files.devices, g.device);
    }
  }

  // ------------------------------------------------------------ step by step

  lemma OperatorKeeps(host: Host, s: State, l: Step, t: State)
    requires Inv(host, s) && Next(host, s, l, t) && (l.OperatorPair? || l.OperatorRevoke? || l.Seen?)
    ensures Inv(host, t) && Calm(s.files.devices, t.files.devices) && s.files.audit <= t.files.audit
  {
    hide Calm, Inv, InOrder, Mutate, PairChange, RevokeChange, SeenChange, Sound;
    InvSound(host, s);
    match l
    case OperatorPair(id, name, platform, code, now, faults) =>
      var d := NewDevice(id, name, platform, code, now);
      PairIsCalm(host, s.files, d, now, faults);
      if host.valid(d) {
        PairInOrder(host, s.files, d, s.used);
        MutateIsSound(host, s.files, PairChange(host, s.files.devices, d), d.id, now, faults, s.used);
      }
      CalmKeeps(host, s, t);
    case OperatorRevoke(id, now, faults) =>
      RevokeIsCalm(host, s.files, id, now, faults);
      RevokeInOrder(host, s.files, id, now, s.used);
      MutateIsSound(host, s.files, RevokeChange(host, s.files.devices, id, now), id, now, faults, s.used);
      CalmKeeps(host, s, t);
    case Seen(id, now, faults) =>
      SeenIsCalm(host, s.files, id, now, faults);
      SeenInOrder(host, s.files, id, now, s.used);
      MutateIsSound(host, s.files, SeenChange(s.files.devices, id, now), id, now, faults, s.used);
      CalmKeeps(host, s, t);
  }

  lemma InvSound(host: Host, s: State)
    requires Inv(host, s)
    ensures Sound(host, s.files, s.used)
  {
  }

  /** Steps that only read, only move the phase, or forget the memory. */
  lemma QuietKeeps(host: Host, s: State, l: Step, t: State)
    requires Inv(host, s) && Next(host, s, l, t)
    requires l.Receive? || l.StatMarker? || l.ReadBudget? || l.Judge? || l.Mark? || l.Latch? || l.Reply? || l.Restart?
    ensures Inv(host, t) && t.files.devices == s.files.devices && t.files.audit == s.files.audit
  {
    hide RowHolds, TokensSound, Find, Loadable, GrantHolds;
    forall id
      ensures Within(t, id)
    {
      assert Within(s, id);
    }
    if l.Judge? {
      assert Within(s, s.phase.c.device);
    }
  }

  lemma ClearKeeps(host: Host, s: State, removal: Landing, t: State)
    requires Inv(host, s) && s.phase.Clearing? && ClearNext(s, removal, t)
    ensures Inv(host, t) && t.files.devices == s.files.devices && t.files.audit == s.files.audit
  {
    hide RowHolds, TokensSound, Find, Loadable, GrantHolds;
    forall id
      ensures Within(t, id)
    {
      assert Within(s, id);
    }
  }

  lemma RouteRevokeKeeps(host: Host, s: State, now: int, faults: Trouble, t: State)
    requires Inv(host, s) && Next(host, s, RouteRevoke(now, faults), t)
    ensures Inv(host, t) && Calm(s.files.devices, t.files.devices) && s.files.audit <= t.files.audit
    ensures forall i {:trigger t.files.devices[i]} :: 0 <= i < |s.files.devices| && s.files.devices[i].standing == Active ==>
              t.files.devices[i] == s.files.devices[i]
  {
    hide Calm, Inv, InOrder, Sound;
    var id := s.phase.device;
    var u := s.(files := t.files);
    InvSound(host, s);
    assert NotActive(s.files.devices, id) by {
      InvPhase(host, s);
    }
    RevokeIsCalm(host, s.files, id, now, faults);
    RevokeInOrder(host, s.files, id, now, s.used);
    MutateIsSound(host, s.files, RevokeChange(host, s.files.devices, id, now), id, now, faults, s.used);
    CalmKeeps(host, s, u);
    IdleKeeps(host, u);
  }

  lemma InvPhase(host: Host, s: State)
    requires Inv(host, s)
    ensures PhaseOk(s)
  {
  }

  lemma IdleKeeps(host: Host, s: State)
    requires Inv(host, s) && !s.phase.Counting? && !s.phase.Marking? && !s.phase.Latching?
    ensures Inv(host, s.(phase := Idle))
  {
    hide Sound, Find, GrantHolds;
    var t := s.(phase := Idle);
    forall id
      ensures Within(t, id)
    {
      assert Within(s, id);
    }
  }

  /** Counting moves one count, on a device that is waiting for confirmation. */
  lemma CountEffect(host: Host, f: Files, id: string, now: int, faults: Trouble)
    ensures var (g, spent) := RecordFailure(host, f, id, now, faults);
            && g.markers == f.markers && g.audit == f.audit
            && (g.devices == f.devices || (PairableAt(f.devices, id) &&
                  g.devices == f.devices[Find(f.devices, id) := Get(f.devices, id).(attempts := Get(f.devices, id).attempts + 1)]))
            && (spent.Some? && PairableAt(f.devices, id) ==> g.devices != f.devices && spent.value == Get(f.devices, id).attempts + 1)
            && (spent.Some? && !PairableAt(f.devices, id) ==> spent.value == 0)
  {
    if PairableAt(f.devices, id) {
      var i := Find(f.devices, id);
      assert f.devices[i := f.devices[i].(attempts := f.devices[i].attempts + 1)][i] != f.devices[i];
    }
  }

  /** After one record is rewritten, only that device reads differently. */
  lemma UpdateGets(ds: seq<Device>, id: string, d: Device, other: string)
    requires Known(ds, id) && d.id == id
    ensures var es := ds[Find(ds, id) := d];
            && (Known(es, other) <==> Known(ds, other))
            && (Known(ds, other) ==> Get(es, other) == if other == id then d else Get(ds, other))
  {
    FindSame(ds, Find(ds, id), d, other);
  }

  lemma RepairKeeps(host: Host, s: State, now: int, faults: Trouble, t: State)
    requires Inv(host, s) && Next(host, s, Repair(now, faults), t)
    ensures Inv(host, t) && Extends(s.files.devices, t.files.devices) && t.files.audit == s.files.audit
  {
    hide Inv, Sound, Extends, Find, InOrder, RecordFailure, Follows;
    var id := s.phase.device;
    CountKeepsFiles(host, s, id, now, faults);
    CountEffect(host, s.files, id, now, faults);
    forall other
      ensures Within(t, other) && (t.phase.Clearing? && other == id ==> Counted(t, other))
    {
      InvWithin(host, s, other);
      if t.files.devices != s.files.devices {
        UpdateGets(s.files.devices, id, Get(s.files.devices, id).(attempts := Get(s.files.devices, id).attempts + 1), other);
      }
    }
    assert PhaseOk(t) by {
      if t.files.devices != s.files.devices {
        UpdateGets(s.files.devices, id, Get(s.files.devices, id).(attempts := Get(s.files.devices, id).attempts + 1), id);
      }
    }
    InvFrom(host, s, t);
  }

  lemma CountKeepsFiles(host: Host, s: State, id: string, now: int, faults: Trouble)
    requires Inv(host, s)
    ensures var g := RecordFailure(host, s.files, id, now, faults).0;
            Sound(host, g, s.used) && Extends(s.files.devices, g.devices) && g.markers == s.files.markers
  {
    hide InOrder, Sound, Extends, FailureChange, Mutate;
    InvSound(host, s);
    FailureInOrder(host, s.files, id, s.used);
    MutateIsSound(host, s.files, FailureChange(s.files.devices, id), id, now, faults, s.used);
  }

  lemma InvWithin(host: Host, s: State, id: string)
    requires Inv(host, s)
    ensures Within(s, id)
  {
  }

  lemma InvFrom(host: Host, s: State, t: State)
    requires Inv(host, s) && t.grants == s.grants && Extends(s.files.devices, t.files.devices)
    requires Sound(host, t.files, t.used) && PhaseOk(t) && forall id {:trigger Within(t, id)} :: Within(t, id)
    ensures Inv(host, t)
  {
    hide Sound, PhaseOk, Within, Extends;
    GrantsStay(s, t);
  }

  lemma CountKeeps(host: Host, s: State, now: int, faults: Trouble, t: State)
    requires Inv(host, s) && Next(host, s, Count(now, faults), t)
    ensures Inv(host, t) && Extends(s.files.devices, t.files.devices) && t.files.audit == s.files.audit
  {
    hide Inv, Sound, Extends, Find, InOrder, RecordFailure, Follows;
    var id := s.phase.device;
    CountKeepsFiles(host, s, id, now, faults);
    CountEffect(host, s.files, id, now, faults);
    forall other
      ensures Within(t, other)
    {
      InvWithin(host, s, other);
      if t.files.devices != s.files.devices {
        UpdateGets(s.files.devices, id, Get(s.files.devices, id).(attempts := Get(s.files.devices, id).attempts + 1), other);
      }
    }
    assert PhaseOk(t) by {
      if t.files.devices != s.files.devices {
        UpdateGets(s.files.devices, id, Get(s.files.devices, id).(attempts := Get(s.files.devices, id).attempts + 1), id);
      }
    }
    InvFrom(host, s, t);
  }

  // ---------------------------------------------------------- trying the code

  /** What trying a code can do to the files. */
  lemma TryEffect(host: Host, f: Files, c: Confirmation, token: string, now: int, faults: Trouble)
    ensures var (g, answer) := Confirm(host, f, c, token, now, faults);
            var wrong := answer == Denied(WrongCode);
            && (wrong <==> ComparedWrong(f.devices, c, faults, host))
            && (wrong ==> g == f && PairableAt(f.devices, c.device))
            && (g.devices == f.devices
                || (PairableAt(f.devices, c.device) && Get(f.devices, c.device).code == Of(c.code)
                    && (g.devices == f.devices[Find(f.devices, c.device) := Get(f.devices, c.device).(code := Absent)]
                        || (!Expired(Get(f.devices, c.device).expiresAt, now)
                            && g.devices == f.devices[Find(f.devices, c.device) := Activated(Get(f.devices, c.device), c, token)]))))
            && (answer.Granted? ==> g.devices != f.devices && Known(g.devices, c.device) && answer.token == token
                                    && answer.device == Get(g.devices, c.device) && answer.device.standing == Active)
  {
    hide ConfirmChange, Find, Get, PairableAt, Expired, Loadable, Known;
    TryChange(host, f.devices, c, token, now);
    WrongIsCompared(host, f.devices, c, token, now);
  }

  /** The change a code asks for: nothing, the burn, or the activation. */
  lemma TryChange(host: Host, ds: seq<Device>, c: Confirmation, token: string, now: int)
    ensures var change := ConfirmChange(host, ds, c, token, now);
            && !change.NoChange?
            && (change == Refuse(WrongCode) ==> PairableAt(ds, c.device))
            && (change.Apply? ==>
                  && change.devices != ds && PairableAt(ds, c.device) && Get(ds, c.device).code == Of(c.code) && change.event.Some?
                  && (if change.event == Some(ConfirmedEvent)
                      then !Expired(Get(ds, c.device).expiresAt, now)
                           && change.devices == ds[Find(ds, c.device) := Activated(Get(ds, c.device), c, token)]
                           && Known(change.devices, c.device) && Get(change.devices, c.device).standing == Active
                      else change.devices == ds[Find(ds, c.device) := Get(ds, c.device).(code := Absent)]))
  {
    if PairableAt(ds, c.device) {
      var i := Find(ds, c.device);
      BurnedIsNotActive(ds, i, c, token);
      assert ds[i := ds[i].(code := Absent)][i] != ds[i] && ds[i := Activated(ds[i], c, token)][i] != ds[i];
      FindSame(ds, i, Activated(ds[i], c, token), c.device);
    }
  }

  /** Whether a wrong code was compared depends on nothing but the record. */
  lemma WrongIsCompared(host: Host, ds: seq<Device>, c: Confirmation, token: string, now: int)
    ensures ConfirmChange(host, ds, c, token, now) == Refuse(WrongCode) <==> ConfirmChange(host, ds, c, "", 0) == Refuse(WrongCode)
  {
  }

  lemma TryKeepsFiles(host: Host, s: State, c: Confirmation, token: string, now: int, faults: Trouble)
    requires Inv(host, s) && token !in s.used
    ensures var g := Confirm(host, s.files, c, token, now, faults).0;
            Sound(host, g, s.used + {token}) && Extends(s.files.devices, g.devices) && g.markers == s.files.markers && s.files.audit <= g.audit
  {
    hide InOrder, Sound, Extends, ConfirmChange, Mutate;
    InvSound(host, s);
    ConfirmInOrder(host, s.files, c, token, now, s.used);
    MoreUsed(host, s.files, s.used, s.used + {token});
    MutateIsSound(host, s.files, ConfirmChange(host, s.files.devices, c, token, now), c.device, now, faults, s.used + {token});
  }

  /** A device with a grant is past confirmation, so a new grant is its first. */
  lemma GrantsGrow(s: State, t: State, g: Grant)
    requires GrantsOk(s) && Extends(s.files.devices, t.files.devices)
    requires PairableAt(s.files.devices, g.device) && GrantHolds(t.files.devices, g)
    requires t.grants == s.grants + [g]
    ensures GrantsOk(t)
  {
    hide Find, Extends;
    forall old_ <- s.grants
      ensures GrantHolds(t.files.devices, old_) && old_.device != g.device
    {
      assert GrantHolds(s.files.devices, old_);
      GetFollows(s.files.devices, t.files.devices, old_.device);
    }
  }

  lemma TryKeeps(host: Host, s: State, now: int, token: string, faults: Trouble, t: State)
    requires Inv(host, s) && Next(host, s, Try(now, token, faults), t)
    ensures Inv(host, t) && Extends(s.files.devices, t.files.devices) && s.files.audit <= t.files.audit
  {
    hide Inv, Sound, Extends, Find, InOrder, Confirm, ComparedWrong, Follows, Expired;
    var c, ds, es := s.phase.c, s.files.devices, t.files.devices;
    TryKeepsFiles(host, s, c, token, now, faults);
    TryEffect(host, s.files, c, token, now, faults);
    assert PhaseOk(s) && GrantsOk(s) by {
      InvParts(host, s);
    }
    forall id
      ensures Within(t, id)
    {
      InvWithin(host, s, id);
      if es != ds {
        UpdateGets(ds, c.device, es[Find(ds, c.device)], id);
      }
    }
    if Minted(ds, es, c.device) {
      UpdateGets(ds, c.device, es[Find(ds, c.device)], c.device);
      GrantsGrow(s, t, Grant(c.device, token));
    } else {
      GrantsStay(s, t);
    }
    InvWhole(host, t);
  }

  lemma InvParts(host: Host, s: State)
    requires Inv(host, s)
    ensures PhaseOk(s) && GrantsOk(s)
  {
  }

  lemma InvWhole(host: Host, s: State)
    requires Sound(host, s.files, s.used) && PhaseOk(s) && GrantsOk(s) && forall id {:trigger Within(s, id)} :: Within(s, id)
    ensures Inv(host, s)
  {
  }

  // ---------------------------------------------------------------- whole runs

  /** Every step keeps the invariant; records are never lost, rows never rewritten. */
  lemma NextKeeps(host: Host, s: State, l: Step, t: State)
    requires Inv(host, s) && Next(host, s, l, t)
    ensures Inv(host, t) && Extends(s.files.devices, t.files.devices) && s.files.audit <= t.files.audit
  {
    hide Inv, Calm, Extends, RecordFailure, Revoke, TryNext, ClearNext, Judged;
    ExtendsSelf(s.files.devices);
    match l
    case Repair(now, faults) => RepairKeeps(host, s, now, faults, t);
    case Clear(removal) => ClearKeeps(host, s, removal, t);
    case Try(now, token, faults) => TryKeeps(host, s, now, token, faults, t);
    case Count(now, faults) => CountKeeps(host, s, now, faults, t);
    case RouteRevoke(now, faults) =>
      RouteRevokeKeeps(host, s, now, faults, t);
      CalmExtends(s.files.devices, t.files.devices);
    case OperatorPair(_, _, _, _, _, _) =>
      OperatorKeeps(host, s, l, t);
      CalmExtends(s.files.devices, t.files.devices);
    case OperatorRevoke(_, _, _) =>
      OperatorKeeps(host, s, l, t);
      CalmExtends(s.files.devices, t.files.devices);
    case Seen(_, _, _) =>
      OperatorKeeps(host, s, l, t);
      CalmExtends(s.files.devices, t.files.devices);
    case _ => QuietKeeps(host, s, l, t);
  }

  lemma {:induction false} RunKeeps(host: Host, states: seq<State>, steps: seq<Step>, i: nat)
    requires Run(host, states, steps) && i < |states|
    ensures Inv(host, states[i])
    decreases i
  {
    hide Next;
    if i > 0 {
      hide Inv;
      RunKeeps(host, states, steps, i - 1);
      assert Next(host, states[i - 1], steps[i - 1], states[i - 1 + 1]);
      NextKeeps(host, states[i - 1], steps[i - 1], states[i]);
    }
  }

  /** Standing only moves forward, from pending to active to revoked, records are
      never lost, and rows already written stay, over any stretch of any run. */
  lemma {:induction false} RunExtends(host: Host, states: seq<State>, steps: seq<Step>, i: nat, j: nat)
    requires Run(host, states, steps) && i <= j < |states|
    ensures Extends(states[i].files.devices, states[j].files.devices) && states[i].files.audit <= states[j].files.audit
    decreases j
  {
    hide Next, Inv, Extends;
    if i == j {
      ExtendsSelf(states[i].files.devices);
    } else {
      RunExtends(host, states, steps, i, j - 1);
      RunKeeps(host, states, steps, j - 1);
      assert Next(host, states[j - 1], steps[j - 1], states[j - 1 + 1]);
      NextKeeps(host, states[j - 1], steps[j - 1], states[j]);
      ExtendsChain(states[i].files.devices, states[j - 1].files.devices, states[j].files.devices);
    }
  }

  /** Whatever writes fail: the wrong codes ever compared against one pairing are
      at most the budget plus the number of restarts. */
  lemma WrongCodesAreBounded(host: Host, states: seq<State>, steps: seq<Step>, i: nat, id: string)
    requires Run(host, states, steps) && i < |states|
    ensures Guesses(states[i], id) <= MAX_PAIRING_ATTEMPTS + states[i].restarts
  {
    RunKeeps(host, states, steps, i);
    assert Within(states[i], id);
  }

  /** No step of a confirmation request, and no restart, ends an active device. */
  lemma RequestsNeverEndAnActiveDevice(host: Host, states: seq<State>, steps: seq<Step>, i: nat, id: string)
    requires Run(host, states, steps) && i < |steps| && IsRoute(steps[i])
    requires Known(states[i].files.devices, id) && Get(states[i].files.devices, id).standing == Active
    ensures Known(states[i + 1].files.devices, id) && Get(states[i + 1].files.devices, id) == Get(states[i].files.devices, id)
  {
    hide Inv, Extends, TryNext, Confirm, RecordFailure, Revoke, Judged;
    var s, l, t := states[i], steps[i], states[i + 1];
    RunKeeps(host, states, steps, i);
    assert Next(host, s, l, t);
    RunExtends(host, states, steps, i, i + 1);
    FindStays(s.files.devices, t.files.devices, id);
    match l
    case Repair(now, faults) => CountSparesActive(host, s.files, s.phase.device, now, faults, id);
    case Count(now, faults) => CountSparesActive(host, s.files, s.phase.device, now, faults, id);
    case Try(now, token, faults) =>
      TryFiles(host, s, now, token, faults, t);
      TrySparesActive(host, s.files, s.phase.c, token, now, faults, id);
    case RouteRevoke(now, faults) => RevokeSparesActive(host, s, now, faults, t, id);
    case Clear(_) => assert t.files.devices == s.files.devices;
    case Mark(landed) => assert t.files.devices == s.files.devices;
    case _ =>
  }

  lemma TryFiles(host: Host, s: State, now: int, token: string, faults: Trouble, t: State)
    requires s.phase.Trying? && TryNext(host, s, now, token, faults, t)
    ensures t.files == Confirm(host, s.files, s.phase.c, token, now, faults).0
  {
  }

  lemma RevokeSparesActive(host: Host, s: State, now: int, faults: Trouble, t: State, id: string)
    requires Inv(host, s) && Next(host, s, RouteRevoke(now, faults), t)
    requires Known(s.files.devices, id) && Get(s.files.devices, id).standing == Active
    ensures Known(t.files.devices, id) && Get(t.files.devices, id) == Get(s.files.devices, id)
  {
    hide Inv, Next, Extends;
    RouteRevokeKeeps(host, s, now, faults, t);
    CalmExtends(s.files.devices, t.files.devices);
    FindStays(s.files.devices, t.files.devices, id);
    assert t.files.devices[Find(s.files.devices, id)] == s.files.devices[Find(s.files.devices, id)];
  }

  lemma CountSparesActive(host: Host, f: Files, device: string, now: int, faults: Trouble, id: string)
    requires Known(f.devices, id) && Get(f.devices, id).standing == Active
    ensures var g := RecordFailure(host, f, device, now, faults).0;
            Known(g.devices, id) && Get(g.devices, id) == Get(f.devices, id)
  {
    hide RecordFailure;
    CountEffect(host, f, device, now, faults);
    if PairableAt(f.devices, device) {
      UpdateGets(f.devices, device, Get(f.devices, device).(attempts := Get(f.devices, device).attempts + 1), id);
    }
  }

  lemma TrySparesActive(host: Host, f: Files, c: Confirmation, token: string, now: int, faults: Trouble, id: string)
    requires Known(f.devices, id) && Get(f.devices, id).standing == Active
    ensures var g := Confirm(host, f, c, token, now, faults).0;
            Known(g.devices, id) && Get(g.devices, id) == Get(f.devices, id)
  {
    hide Confirm, Find, ComparedWrong, Expired;
    TryEffect(host, f, c, token, now, faults);
    var es := Confirm(host, f, c, token, now, faults).0.devices;
    if es != f.devices {
      UpdateGets(f.devices, c.device, es[Find(f.devices, c.device)], id);
    }
  }

  /** One device is granted at most one credential, and its record names it. */
  lemma AtMostOneToken(host: Host, states: seq<State>, steps: seq<Step>, i: nat, a: nat, b: nat)
    requires Run(host, states, steps) && i < |states| && a < |states[i].grants| && b < |states[i].grants|
    requires states[i].grants[a].device == states[i].grants[b].device
    ensures a == b && GrantHolds(states[i].files.devices, states[i].grants[a])
  {
    RunKeeps(host, states, steps, i);
    assert GrantHolds(states[i].files.devices, states[i].grants[a]);
  }

  /** A code is accepted only while its pairing waits, before its deadline; once
      it was spent, burned or revoked no later moment accepts any code for that
      device, wherever the clock goes. */
  lemma SpentCodesStayDead(host: Host, states: seq<State>, steps: seq<Step>, i: nat, j: nat, now: int, token: string, faults: Trouble)
    requires Run(host, states, steps) && i <= j < |steps|
    requires steps[j] == Try(now, token, faults) && |states[j + 1].grants| > |states[j].grants|
    ensures var id, code := states[j].phase.c.device, states[j].phase.c.code;
            && PairableAt(states[j].files.devices, id)
            && Get(states[j].files.devices, id).code == Of(code) && !Expired(Get(states[j].files.devices, id).expiresAt, now)
            && (Known(states[i].files.devices, id) ==> PairableAt(states[i].files.devices, id) && Get(states[i].files.devices, id).code == Of(code))
            && !PairableAt(states[j + 1].files.devices, id)
  {
    hide Inv, Extends, Confirm, ComparedWrong, Find, Expired;
    var s, t := states[j], states[j + 1];
    assert Next(host, s, steps[j], t);
    var c := s.phase.c;
    TryEffect(host, s.files, c, token, now, faults);
    var ds, es := s.files.devices, t.files.devices;
    UpdateGets(ds, c.device, es[Find(ds, c.device)], c.device);
    RunExtends(host, states, steps, i, j);
    if Known(states[i].files.devices, c.device) {
      GetFollows(states[i].files.devices, ds, c.device);
    }
  }

  /** In every reachable state a credential that was granted authenticates its
      device exactly while that device is active, and is then told apart from a
      credential nobody holds. */
  lemma CredentialsWorkWhileActive(host: Host, states: seq<State>, steps: seq<Step>, i: nat, g: Grant)
    requires Run(host, states, steps) && i < |states| && g in states[i].grants
    ensures var ds := states[i].files.devices;
            && Known(ds, g.device)
            && Authenticate(ds, g.token) == (if Get(ds, g.device).standing == Active then Authenticated(Get(ds, g.device)) else RevokedDevice)
  {
    RunKeeps(host, states, steps, i);
    var s := states[i];
    assert GrantHolds(s.files.devices, g);
    AuthenticatesIffActive(host, s.files, s.used, g.token, Find(s.files.devices, g.device));
  }

  /** No audit row ever asserts a state the record file does not hold, and the
      file stays inside the bounds that loading accepts. */
  lemma AuditNeverLies(host: Host, states: seq<State>, steps: seq<Step>, i: nat, row: Row)
    requires Run(host, states, steps) && i < |states|
    ensures row in states[i].files.audit ==> RowHolds(states[i].files.devices, row)
    ensures Loadable(host, states[i].files.devices)
  {
    RunKeeps(host, states, steps, i);
  }

  // ------------------------------------------------- credentials nobody holds

  /** A token is used up by the step that tries with it only, and told by the step
      that answers only. */
  lemma NextHands(host: Host, s: State, l: Step, t: State)
    requires Next(host, s, l, t)
    ensures !l.Try? ==> t.used == s.used && t.grants == s.grants
    ensures l.Try? ==> s.phase.Trying? && l.token !in s.used && t.used == s.used + {l.token} && s.grants <= t.grants
                       && (t.phase.Granting? ==> t.phase.token == l.token)
    ensures t.handed == if l.Reply? && l.delivered && s.phase.Granting? then s.handed + {Grant(s.phase.device, s.phase.token)} else s.handed
    ensures l.Reply? ==> s.phase.Granting?
    ensures !IsRoute(l) ==> t.phase == s.phase
    ensures IsRoute(l) && !l.Try? ==> !t.phase.Granting?
  {
    hide Confirm, RecordFailure, Revoke, Pair, MarkSeen, Minted, ComparedWrong;
  }

  lemma {:induction false} HandedAreUsed(host: Host, states: seq<State>, steps: seq<Step>, i: nat)
    requires Run(host, states, steps) && i < |states|
    ensures forall g <- states[i].handed :: g.token in states[i].used
    ensures states[i].phase.Granting? ==> states[i].phase.token in states[i].used
    decreases i
  {
    hide Next;
    if i > 0 {
      HandedAreUsed(host, states, steps, i - 1);
      assert Next(host, states[i - 1], steps[i - 1], states[i - 1 + 1]);
      NextHands(host, states[i - 1], steps[i - 1], states[i]);
    }
  }

  /** Nothing but the operator and seen stamps between two steps. */
  ghost predicate Undisturbed(steps: seq<Step>, j: nat, k: nat) {
    forall n {:trigger steps[n]} :: j < n < k && n < |steps| ==> !IsRoute(steps[n])
  }

  /** The answer to the try at j was delivered before k: the next step of its
      request was that answer, with no restart in between. */
  ghost predicate Delivered(steps: seq<Step>, j: nat, k: nat) {
    exists m {:trigger steps[m]} :: j < m < k && m < |steps| && steps[m] == Reply(true) && Undisturbed(steps, j, m)
  }

  lemma DeliveredMore(steps: seq<Step>, j: nat, k: nat)
    requires j < k < |steps|
    ensures Delivered(steps, j, k + 1) <==> Delivered(steps, j, k) || (steps[k] == Reply(true) && Undisturbed(steps, j, k))
    ensures Undisturbed(steps, j, k + 1) <==> Undisturbed(steps, j, k) && !IsRoute(steps[k])
  {
  }

  /** How a token stands at k that was minted at j: told, or about to be. */
  ghost predicate Standing(s: State, steps: seq<Step>, j: nat, k: nat, g: Grant, reported: bool) {
    && g in s.grants && g.token in s.used
    && (g in s.handed <==> reported && Delivered(steps, j, k))
    && (s.phase.Granting? && s.phase.token == g.token ==> s.phase == Granting(g.device, g.token) && reported && Undisturbed(steps, j, k))
    && (reported && Undisturbed(steps, j, k) ==> s.phase == Granting(g.device, g.token))
  }

  lemma StandingStep(host: Host, s: State, steps: seq<Step>, j: nat, k: nat, g: Grant, reported: bool, t: State)
    requires j < k < |steps| && Standing(s, steps, j, k, g, reported) && Next(host, s, steps[k], t)
    ensures Standing(t, steps, j, k + 1, g, reported)
  {
    hide Next, Undisturbed, Delivered;
    NextHands(host, s, steps[k], t);
    DeliveredMore(steps, j, k);
  }

  lemma {:induction false} StandingStays(host: Host, states: seq<State>, steps: seq<Step>, j: nat, k: nat, g: Grant, reported: bool)
    requires Run(host, states, steps) && j < k < |states| && Standing(states[j + 1], steps, j, j + 1, g, reported)
    ensures Standing(states[k], steps, j, k, g, reported)
    decreases k
  {
    hide Next, Standing;
    if j + 1 < k {
      StandingStays(host, states, steps, j, k - 1, g, reported);
      assert Next(host, states[k - 1], steps[k - 1], states[k - 1 + 1]);
      StandingStep(host, states[k - 1], steps, j, k - 1, g, reported, states[k]);
    }
  }

  /** In every run, a token that was minted reaches a caller exactly when its record
      write was reported as it landed and the answer was delivered: the next step of
      that request was its answer, and no restart came first. Otherwise the device is
      active and nobody was ever told its token. */
  lemma HandedExactlyWhenDelivered(host: Host, states: seq<State>, steps: seq<Step>, j: nat, k: nat, now: int, token: string, faults: Trouble)
    requires Run(host, states, steps) && j < |steps| && j < k < |states| && steps[j] == Try(now, token, faults)
    requires |states[j + 1].grants| > |states[j].grants|
    ensures var g := Grant(states[j].phase.c.device, token);
            && g in states[k].grants && (g in states[k].handed <==> faults.record == Lands && Delivered(steps, j, k))
            && (faults.record == Lands || faults.record == Slips)
  {
    hide Find, Expired, ComparedWrong, Delivered;
    var s, t := states[j], states[j + 1];
    assert Next(host, s, steps[j], t);
    var c := s.phase.c;
    var g := Grant(c.device, token);
    HandedAreUsed(host, states, steps, j);
    TryTells(host, s.files, c, token, now, faults);
    NothingYet(steps, j);
    hide Confirm, Minted;
    assert t.grants == s.grants + [g];
    assert Standing(t, steps, j, j + 1, g, faults.record == Lands);
    hide Next;
    StandingStays(host, states, steps, j, k, g, faults.record == Lands);
  }

  lemma NothingYet(steps: seq<Step>, j: nat)
    ensures Undisturbed(steps, j, j + 1) && !Delivered(steps, j, j + 1)
  {
  }

  /** Of what a try mints, the answer tells exactly what was reported as written. */
  lemma TryTells(host: Host, f: Files, c: Confirmation, token: string, now: int, faults: Trouble)
    requires Minted(f.devices, Confirm(host, f, c, token, now, faults).0.devices, c.device)
    ensures Confirm(host, f, c, token, now, faults).1.Granted? <==> faults.record == Lands
    ensures faults.record == Lands || faults.record == Slips
  {
    ConfirmStrands(host, f, c, token, now, faults);
    hide ConfirmChange, Find, Expired;
    TryChange(host, f.devices, c, token, now);
  }

  // Such a run: one pairing, the right code, a write that slips.

  const EASY := Host(_ => 0, _ => true)
  const FINE := Trouble(true, true, Lands, Lands)
  const SLIPPING := Trouble(true, true, Slips, Lands)
  const RIGHT := Confirmation("d", "code", "phone", "ios", "key")

  function OnePairing(now: int, phase: Phase): State {
    State(Files([NewDevice("d", "phone", "ios", "code", now)], [Row(PairedEvent, "d", Stamp(now))], {}), {}, phase, 0, map[], [], {}, {})
  }

  lemma PairsOne(now: int, s: State)
    requires Init(s)
    ensures Next(EASY, s, OperatorPair("d", "phone", "ios", "code", now, FINE), OnePairing(now, Idle))
  {
  }

  lemma AsksOne(now: int)
    ensures Next(EASY, OnePairing(now, Idle), Receive(RIGHT), OnePairing(now, Received(RIGHT)))
    ensures Next(EASY, OnePairing(now, Received(RIGHT)), StatMarker(true), OnePairing(now, Statted(RIGHT, false)))
    ensures Next(EASY, OnePairing(now, Statted(RIGHT, false)), ReadBudget(true), OnePairing(now, Read(RIGHT, PairingState(0, true, false))))
    ensures Next(EASY, OnePairing(now, Read(RIGHT, PairingState(0, true, false))), Judge, OnePairing(now, Trying(RIGHT)))
  {
  }

  function Activation(now: int, phase: Phase): State {
    var s := OnePairing(now, phase);
    s.(files := Files([Activated(s.files.devices[0], RIGHT, "token")], s.files.audit + [Row(ConfirmedEvent, "d", Stamp(now))], {}), used := {"token"},
       grants := [Grant("d", "token")])
  }

  lemma SlipsOne(now: int) returns (t: State)
    ensures Next(EASY, OnePairing(now, Trying(RIGHT)), Try(now, "token", SLIPPING), t)
    ensures Stranded(t)
  {
    var s := OnePairing(now, Trying(RIGHT));
    var a := Activated(s.files.devices[0], RIGHT, "token");
    assert s.files.devices[0 := a] == [a];
    t := s.(files := s.files.(devices := [a]), phase := Idle, used := {"token"}, grants := [Grant("d", "token")]);
  }

  lemma GrantsOne(now: int)
    ensures Next(EASY, OnePairing(now, Trying(RIGHT)), Try(now, "token", FINE), Activation(now, Granting("d", "token")))
  {
    var s := OnePairing(now, Trying(RIGHT));
    var a := Activated(s.files.devices[0], RIGHT, "token");
    assert s.files.devices[0 := a] == [a];
  }

  /** The one device is active, and no caller was told its token. */
  ghost predicate Stranded(s: State) {
    Known(s.files.devices, "d") && Get(s.files.devices, "d").standing == Active && s.grants == [Grant("d", "token")] && s.handed == {}
  }

  function AskingSteps(now: int): seq<Step> {
    [OperatorPair("d", "phone", "ios", "code", now, FINE), Receive(RIGHT), StatMarker(true), ReadBudget(true), Judge]
  }

  function AskingStates(now: int): seq<State> {
    [State(Files([], [], {}), {}, Idle, 0, map[], [], {}, {}), OnePairing(now, Idle), OnePairing(now, Received(RIGHT)),
     OnePairing(now, Statted(RIGHT, false)), OnePairing(now, Read(RIGHT, PairingState(0, true, false))), OnePairing(now, Trying(RIGHT))]
  }

  lemma AskingRuns(now: int)
    ensures Run(EASY, AskingStates(now), AskingSteps(now))
  {
    hide Next, OnePairing;
    PairsOne(now, AskingStates(now)[0]);
    AsksOne(now);
  }

  /** A right code, and a write that lands but is reported as failed, leave an
      active device whose token no caller was told. */
  lemma ASlipStrands(now: int) returns (states: seq<State>, steps: seq<Step>)
    ensures Run(EASY, states, steps) && Stranded(states[|steps|])
    ensures steps == AskingSteps(now) + [Try(now, "token", SLIPPING)]
  {
    hide Next, OnePairing;
    AskingRuns(now);
    var t := SlipsOne(now);
    states, steps := AskingStates(now) + [t], AskingSteps(now) + [Try(now, "token", SLIPPING)];
  }

  /** So does a process that dies, or an answer that gets lost, after a write that
      nothing was wrong with. */
  lemma ALostAnswerStrands(now: int, l: Step) returns (states: seq<State>, steps: seq<Step>)
    requires l == Restart || l == Reply(false)
    ensures Run(EASY, states, steps) && Stranded(states[|steps|])
    ensures steps == AskingSteps(now) + [Try(now, "token", FINE), l]
  {
    hide Next, OnePairing;
    AskingRuns(now);
    GrantsOne(now);
    var t := LosesOne(now, l);
    states := AskingStates(now) + [Activation(now, Granting("d", "token")), t];
    steps := AskingSteps(now) + [Try(now, "token", FINE), l];
  }

  lemma LosesOne(now: int, l: Step) returns (t: State)
    requires l == Restart || l == Reply(false)
    ensures Next(EASY, Activation(now, Granting("d", "token")), l, t) && Stranded(t)
  {
    var s := Activation(now, Granting("d", "token"));
    t := s.(phase := Idle, restarts := if l == Restart then 1 else 0);
  }
}
