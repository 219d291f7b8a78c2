/** What one confirmation request comes to, said over the files, the latches, the
    request and the weather alone: who is granted, which guess is counted and how,
    and what is owed before the next one is tried. */
module ListenerLaws {
  import opened Reservations
  import opened Registry
  import opened RegistryFacts
  import opened RegistryLaws
  import opened Pairing
  import opened Listener

  /** The reads before any guess go through. */
  ghost predicate ReadsGoThrough(host: Host, f: Files, w: Weather) {
    w.stat && w.readable && InBounds(host, f.devices)
  }

  /** No failure is owed: neither marked on disk nor remembered. */
  ghost predicate NothingOwed(f: Files, latched: set<string>, id: string) {
    id !in f.markers && id !in latched
  }

  /** The guess is tried: the reads went through, nothing is owed and the budget of
      five is not spent. */
  ghost predicate GuessIsTried(host: Host, f: Files, latched: set<string>, c: Confirmation, w: Weather, i: nat) {
    && ReadsGoThrough(host, f, w) && NothingOwed(f, latched, c.device)
    && First(f.devices, c.device, i) && f.devices[i].attempts < 5
  }

  /** The right code, in time, for a device whose new record is valid, fits and
      reaches the disk under the lock. */
  ghost predicate CodeIsTaken(host: Host, f: Files, c: Confirmation, token: string, w: Weather, i: nat)
    requires i < |f.devices|
  {
    var d := f.devices[i];
    && Waits(d) && d.code == Of(c.code) && InTime(d, w.now)
    && host.valid(Confirmed(d, c, token)) && host.size(f.devices[i := Confirmed(d, c, token)]) <= 1_048_576
    && w.attempt.lock && w.attempt.readable && w.attempt.record == Lands
  }

  ghost predicate Grants(host: Host, f: Files, latched: set<string>, c: Confirmation, token: string, w: Weather) {
    exists i: nat :: GuessIsTried(host, f, latched, c, w, i) && CodeIsTaken(host, f, c, token, w, i)
  }

  lemma BoundsAreLoadable(host: Host, ds: seq<Device>)
    ensures InBounds(host, ds) <==> Loadable(host, ds)
  {
  }

  lemma ServedTries(host: Host, f: Files, latched: set<string>, c: Confirmation, token: string, w: Weather, i: nat)
    requires First(f.devices, c.device, i)
    ensures GuessIsTried(host, f, latched, c, w, i) ==> Served(host, f, latched, c, token, w) == Attempted(host, f, latched, c, token, w)
    ensures !GuessIsTried(host, f, latched, c, w, i) ==> Served(host, f, latched, c, token, w).2 == Unauthorized
  {
    BudgetReads(f.devices, c.device, c.device in f.markers);
    hide Budget, Attempted, Repaired, Revoke;
  }

  lemma AttemptedGrants(host: Host, f: Files, latched: set<string>, c: Confirmation, token: string, w: Weather, i: nat)
    requires First(f.devices, c.device, i) && InBounds(host, f.devices)
    ensures var (g, latches, reply) := Attempted(host, f, latched, c, token, w);
            if CodeIsTaken(host, f, c, token, w, i) then
              var d := Confirmed(f.devices[i], c, token);
              && reply == (if w.delivered then GrantReply(token, d) else Lost)
              && g.devices == f.devices[i := d] && g.markers == f.markers && latches == latched
            else reply == Unauthorized
  {
    ConfirmDecides(host, f, c, token, w.now, w.attempt, i);
    hide Confirm, First, FailureCounted;
  }

  /** The grant goes out exactly when the guess is tried, the code is taken and the
      answer is delivered; lost on the way, the device is active all the same. */
  lemma GrantedExactlyWhen(host: Host, f: Files, latched: set<string>, c: Confirmation, token: string, w: Weather)
    ensures var (g, latches, reply) := Served(host, f, latched, c, token, w);
            && (reply.GrantReply? <==> Grants(host, f, latched, c, token, w) && w.delivered)
            && (reply.Lost? <==> Grants(host, f, latched, c, token, w) && !w.delivered)
            && (reply.GrantReply? ==> reply.token == token)
            && forall i: nat :: GuessIsTried(host, f, latched, c, w, i) && CodeIsTaken(host, f, c, token, w, i) ==>
                 && g.devices == f.devices[i := Confirmed(f.devices[i], c, token)]
                 && g.markers == f.markers && latches == latched
                 && (reply.GrantReply? ==> reply.device == g.devices[i])
  {
    FirstIsFound(f.devices, c.device);
    if Unlisted(f.devices, c.device) {
      UnlistedIsRefused(host, f, latched, c, token, w);
    } else {
      var i := Find(f.devices, c.device);
      ServedTries(host, f, latched, c, token, w, i);
      if GuessIsTried(host, f, latched, c, w, i) {
        AttemptedGrants(host, f, latched, c, token, w, i);
      }
    }
    hide Served, CodeIsTaken, Attempted;
  }

  /** An unknown device is refused; without an owed failure nothing changes. */
  lemma UnlistedIsRefused(host: Host, f: Files, latched: set<string>, c: Confirmation, token: string, w: Weather)
    requires Unlisted(f.devices, c.device)
    ensures Served(host, f, latched, c, token, w).2 == Unauthorized
    ensures NothingOwed(f, latched, c.device) ==> Served(host, f, latched, c, token, w) == (f, latched, Unauthorized)
  {
    BudgetReads(f.devices, c.device, c.device in f.markers);
    ConfirmUnlisted(host, f, c, token, w.now, w.attempt);
    hide Budget, Confirm, Repaired, FailureCounted;
  }

  // ---------------------------------------------------------------- a wrong code

  ghost function OneMore(d: Device): Device {
    Device(d.id, d.name, d.platform, d.standing, d.token, d.code, d.expiresAt, d.attempts + 1, d.publicKey, d.createdAt,
           d.lastSeenAt, d.revokedAt)
  }

  /** The write of a changed record gets to the disk: reported, or not. */
  ghost predicate Reaches(host: Host, ds: seq<Device>, faults: Trouble) {
    faults.lock && faults.readable && host.size(ds) <= 1_048_576 && faults.record != Fails
  }

  /** The device's record is ended if that write gets there, and is as it was if not. */
  ghost predicate EndTried(host: Host, ds: seq<Device>, i: nat, now: int, faults: Trouble, es: seq<Device>)
    requires i < |ds|
  {
    exists e: Device ::
      && EndedAt(ds[i], now, e)
      && es == if host.valid(e) && Reaches(host, ds[i := e], faults) then ds[i := e] else ds
  }

  lemma RevokeTries(host: Host, f: Files, id: string, now: int, faults: Trouble, i: nat)
    requires First(f.devices, id, i) && f.devices[i].standing != Revoked && InBounds(host, f.devices)
    ensures var g := Revoke(host, f, id, now, faults).0;
            EndTried(host, f.devices, i, now, faults, g.devices) && g.markers == f.markers
  {
    var e := Ended(f.devices[i], now);
    EndedAtExists(f.devices[i], now);
    FirstIsFound(f.devices, id);
    MutateSaves(host, f, f.devices[i := e], Some(RevokedEvent), id, now, faults);
    hide Mutate, EndedAt;
  }

  lemma EndedAtExists(d: Device, now: int)
    ensures EndedAt(d, now, Ended(d, now))
  {
  }

  /** The wrong code is compared: the guess is tried and the registry reads the
      waiting record under its lock. */
  ghost predicate WrongCodeCompared(host: Host, f: Files, latched: set<string>, c: Confirmation, w: Weather, i: nat) {
    && GuessIsTried(host, f, latched, c, w, i)
    && Waits(f.devices[i]) && f.devices[i].code != Of(c.code) && w.attempt.lock && w.attempt.readable
  }

  /** A wrong code that was compared always leaves something behind. Either the
      count on disk is one higher and known to be, and at five the pairing is ended
      where that write gets there; or the device is latched, and marked on disk if
      the mark can be written. */
  lemma WrongCodeIsCounted(host: Host, f: Files, latched: set<string>, c: Confirmation, token: string, w: Weather, i: nat)
    requires WrongCodeCompared(host, f, latched, c, w, i)
    ensures var (g, latches, reply) := Served(host, f, latched, c, token, w);
            var counted := f.devices[i := OneMore(f.devices[i])];
            && reply == Unauthorized
            && if Reaches(host, counted, w.count) && w.count.record == Lands then
                 && latches == latched && g.markers == f.markers
                 && if f.devices[i].attempts < 4 then g.devices == counted
                    else EndTried(host, counted, i, w.now, w.revoke, g.devices)
               else
                 && latches == latched + {c.device}
                 && g.markers == (if w.mark then f.markers + {c.device} else f.markers)
                 && g.devices == if Reaches(host, counted, w.count) then counted else f.devices
  {
    ServedTries(host, f, latched, c, token, w, i);
    ConfirmDecides(host, f, c, token, w.now, w.attempt, i);
    CountedLeaves(host, f, latched, c.device, w, i);
    hide Served, Confirm, FailureCounted, EndTried;
  }

  /** Counting a failure on a waiting record. */
  lemma CountLeaves(host: Host, f: Files, id: string, now: int, faults: Trouble, i: nat)
    requires First(f.devices, id, i) && Waits(f.devices[i]) && InBounds(host, f.devices)
    ensures var (g, spent) := RecordFailure(host, f, id, now, faults);
            var counted := f.devices[i := OneMore(f.devices[i])];
            && g.devices == (if Reaches(host, counted, faults) then counted else f.devices) && g.markers == f.markers
            && spent == (if Reaches(host, counted, faults) && faults.record == Lands then Some(f.devices[i].attempts + 1) else None)
            && First(g.devices, id, i) && (Reaches(host, counted, faults) ==> InBounds(host, g.devices))
  {
    FailureCounts(host, f, id, now, faults, i);
    hide RecordFailure;
  }

  lemma CountedLeaves(host: Host, f: Files, latched: set<string>, id: string, w: Weather, i: nat)
    requires First(f.devices, id, i) && Waits(f.devices[i]) && InBounds(host, f.devices)
    ensures var (g, latches) := FailureCounted(host, f, latched, id, w);
            var counted := f.devices[i := OneMore(f.devices[i])];
            if Reaches(host, counted, w.count) && w.count.record == Lands then
              && latches == latched && g.markers == f.markers
              && if f.devices[i].attempts < 4 then g.devices == counted
                 else EndTried(host, counted, i, w.now, w.revoke, g.devices)
            else
              && latches == latched + {id}
              && g.markers == (if w.mark then f.markers + {id} else f.markers)
              && g.devices == if Reaches(host, counted, w.count) then counted else f.devices
  {
    CountLeaves(host, f, id, w.now, w.count, i);
    var (g, spent) := RecordFailure(host, f, id, w.now, w.count);
    if spent.Some? {
      RevokeTries(host, g, id, w.now, w.revoke, i);
    }
    hide RecordFailure, Revoke, First, EndTried, Reaches, InBounds;
  }

  // ------------------------------------------------------------- an owed failure

  ghost predicate Owes(host: Host, f: Files, latched: set<string>, id: string, w: Weather) {
    ReadsGoThrough(host, f, w) && !NothingOwed(f, latched, id)
  }

  /** While a failure is owed no code is tried: the owed one is counted first, and
      only when that is known to be durable are the mark and then the latch let go.
      A budget that this spends ends the pairing. */
  lemma OwedFailureGoesFirst(host: Host, f: Files, latched: set<string>, c: Confirmation, token: string, w: Weather, i: nat)
    requires Owes(host, f, latched, c.device, w) && First(f.devices, c.device, i) && Waits(f.devices[i])
    ensures var (g, latches, reply) := Served(host, f, latched, c, token, w);
            var counted := f.devices[i := OneMore(f.devices[i])];
            && reply == Unauthorized
            && if Reaches(host, counted, w.repair) && w.repair.record == Lands then
                 && g.markers == (if w.clear == Fails then f.markers else f.markers - {c.device})
                 && latches == (if w.clear == Lands then latched - {c.device} else latched)
                 && if w.clear == Lands && 4 <= f.devices[i].attempts then EndTried(host, counted, i, w.now, w.revoke, g.devices)
                    else g.devices == counted
               else
                 && g.markers == f.markers && latches == latched
                 && g.devices == if Reaches(host, counted, w.repair) then counted else f.devices
  {
    BudgetReads(f.devices, c.device, c.device in f.markers);
    CountLeaves(host, f, c.device, w.now, w.repair, i);
    var (g, spent) := RecordFailure(host, f, c.device, w.now, w.repair);
    if spent.Some? {
      RevokeTries(host, g.(markers := g.markers - {c.device}), c.device, w.now, w.revoke, i);
    }
    hide Budget, RecordFailure, Revoke, First, EndTried, Reaches, InBounds, Attempted;
  }

  /** A failure owed by a pairing that is over, or by no device, is let go once the
      record file can be read. */
  lemma SettledDebtIsLetGo(host: Host, f: Files, latched: set<string>, c: Confirmation, token: string, w: Weather)
    requires Owes(host, f, latched, c.device, w) && forall i: nat :: First(f.devices, c.device, i) ==> !Waits(f.devices[i])
    ensures Served(host, f, latched, c, token, w) ==
            if w.repair.lock && w.repair.readable
            then (f.(markers := if w.clear == Fails then f.markers else f.markers - {c.device}),
                  if w.clear == Lands then latched - {c.device} else latched, Unauthorized)
            else (f, latched, Unauthorized)
  {
    FirstIsFound(f.devices, c.device);
    BudgetReads(f.devices, c.device, c.device in f.markers);
    if Unlisted(f.devices, c.device) {
      FailureUnlisted(host, f, c.device, w.now, w.repair);
    } else {
      FailureCounts(host, f, c.device, w.now, w.repair, Find(f.devices, c.device));
    }
    hide Budget, RecordFailure, Attempted, Revoke;
  }

  // ---------------------------------------------------------------- the other cases

  /** Five failures end a pairing that still waits, and no code is tried. */
  lemma SpentBudgetEnds(host: Host, f: Files, latched: set<string>, c: Confirmation, token: string, w: Weather, i: nat)
    requires ReadsGoThrough(host, f, w) && NothingOwed(f, latched, c.device)
    requires First(f.devices, c.device, i) && 5 <= f.devices[i].attempts
    ensures var (g, latches, reply) := Served(host, f, latched, c, token, w);
            && reply == Unauthorized && latches == latched && g.markers == f.markers
            && if Waits(f.devices[i]) then EndTried(host, f.devices, i, w.now, w.revoke, g.devices) else g == f
  {
    BudgetReads(f.devices, c.device, c.device in f.markers);
    if Waits(f.devices[i]) {
      RevokeTries(host, f, c.device, w.now, w.revoke, i);
    }
    hide Budget, Revoke, EndTried, Attempted, Repaired;
  }

  lemma UnreadableChangesNothing(host: Host, f: Files, latched: set<string>, c: Confirmation, token: string, w: Weather)
    requires !ReadsGoThrough(host, f, w)
    ensures Served(host, f, latched, c, token, w) == (f, latched, Unauthorized)
  {
    BoundsAreLoadable(host, f.devices);
    hide Attempted, Repaired, Revoke, Budget;
  }

  /** Any other guess is refused without being counted. It changes nothing but this:
      a right code that came late is burned, and a record that landed without saying
      so is the device's, where that write gets there. */
  lemma OtherGuessesAreRefused(host: Host, f: Files, latched: set<string>, c: Confirmation, token: string, w: Weather, i: nat)
    requires GuessIsTried(host, f, latched, c, w, i)
    requires !CodeIsTaken(host, f, c, token, w, i) && !WrongCodeCompared(host, f, latched, c, w, i)
    ensures var (g, latches, reply) := Served(host, f, latched, c, token, w);
            var d := f.devices[i];
            && reply == Unauthorized && latches == latched && g.markers == f.markers
            && var late := Waits(d) && !InTime(d, w.now);
               var next := f.devices[i := if late then Burned(d) else Confirmed(d, c, token)];
               g.devices == if Waits(d) && d.code == Of(c.code) && Reaches(host, next, w.attempt)
                               && (late || host.valid(Confirmed(d, c, token)))
                            then next else f.devices
  {
    ServedTries(host, f, latched, c, token, w, i);
    ConfirmDecides(host, f, c, token, w.now, w.attempt, i);
    hide Served, Confirm, FailureCounted, First, Confirmed, Burned;
  }
}
