/** Whatever else a listener holds, a capture that nothing disturbs is applied. */
module CaptureProgress {
  import opened Reservations
  import opened Capture
  import opened CaptureSafety
  import opened CaptureSerial
  import opened CaptureRuns

  // ------------------------------------------------ some trim is always possible

  /** The oldest of some files. */
  lemma {:induction false} OldestExists(disk: map<KeyRef, Record>, open: set<KeyRef>) returns (at: KeyRef)
    requires open != {} && open <= disk.Keys
    ensures at in open && forall other <- open :: disk[at].reservedAt <= disk[other].reservedAt
    decreases |open|
  {
    at :| at in open;
    if open != {at} {
      var rest := OldestExists(disk, open - {at});
      if disk[rest].reservedAt < disk[at].reservedAt {
        at := rest;
      }
    }
  }

  /** So many of some files as are asked for, the oldest. */
  lemma {:induction false} OldestOf(disk: map<KeyRef, Record>, open: set<KeyRef>, n: nat) returns (gone: set<KeyRef>)
    requires open <= disk.Keys && n <= |open|
    ensures gone <= open && |gone| == n && forall x <- gone, y <- open - gone :: disk[x].reservedAt <= disk[y].reservedAt
    decreases n
  {
    if n == 0 {
      gone := {};
    } else {
      var at := OldestExists(disk, open);
      gone := OldestOf(disk, open - {at}, n - 1);
      gone := gone + {at};
    }
  }

  lemma VictimsExist(st: Store, keep: KeyRef) returns (victims: set<KeyRef>)
    ensures TrimVictims(st, keep, {}, victims)
  {
    var open := Trimmable(st, keep, {});
    victims := OldestOf(st.disk, open, if Excess(st) <= |open| then Excess(st) else |open|);
  }

  // ---------------------------------------------------------- one step at a time

  /** The request has its key in process p, which is at this stage; the requests
      beside it are those of b. */
  ghost predicate Claiming(rule: Rule, b: State, s: State, p: nat, r: nat, ref: CaptureRef, record: Record, stage: Stage) {
    && r in s.requests && s.requests[r].process == p && s.requests[r].ref == ref && s.requests[r].stage == stage
    && s.requests - {r} == b.requests && InRule(rule, s) && p in s.processes && b.answers <= s.answers
    && ref.at in s.disk && s.disk[ref.at] == record
  }

  /** What the vault and the published store held for the capture is as in b. */
  predicate SamePlaces(b: State, s: State) {
    s.vault == b.vault && s.published == b.published && s.receipts == b.receipts
  }

  lemma UnlockedBut(b: State, s: State, r: nat)
    requires Unlocked(b) && s.requests - {r} == b.requests && r in s.requests && !s.requests[r].stage.Trimming?
    ensures Unlocked(s)
  {
    forall x <- s.requests.Keys
      ensures !s.requests[x].stage.Trimming?
    {
      if x != r {
        assert x in (s.requests - {r}).Keys;
      }
    }
  }

  /** The lock and the key are free, nobody else's claim is collected too late to
      leave room, and the key's old record, if any, is past its retention. */
  ghost predicate MayReserve(b: State, p: nat, at: KeyRef) {
    && p in b.processes && at !in b.processes[p].holds && Unlocked(b) && Fresh(StoreOf(b, p), at, b.now)
    && |Cleared(StoreOf(b, p), at, b.now, {}).pending| < MAX_PENDING_RESERVATIONS
  }

  lemma ReservesKey(st: Store, at: KeyRef, identity: Payload, id: string, now: int, record: Record)
    requires Fresh(st, at, now) && |Cleared(st, at, now, {}).pending| < MAX_PENDING_RESERVATIONS && record == NewRecord(identity, id, now)
    ensures var u := Written(Cleared(st, at, now, {}), at, record, now, true);
            Reserve(st, at, identity, id, now, Faults(Lands, {})) == (u, Claimed(record, false)) && at in u.disk && u.disk[at] == record
  {
    hide Fresh, Cleared, NewRecord;
  }

  lemma ReservedShape(rule: Rule, b: State, p: nat, r: nat, ref: CaptureRef, record: Record, st: Store, s: State, t: State)
    requires InRule(rule, b) && p in b.processes && r !in b.requests && ref.at in st.disk && st.disk[ref.at] == record
    requires s == With(b, p, r, ref, b.now, Asked(false))
    requires t == Advance(Hold(WithStore(s, p, st), p, ref.at, r), r, Trimming(Claim(record, false)))
    ensures Claiming(rule, b, t, p, r, ref, record, Trimming(Claim(record, false))) && SamePlaces(b, t)
  {
    assert t.requests - {r} == b.requests;
  }

  lemma Reserves(k: Kernel, rule: Rule, b: State, p: nat, r: nat, ref: CaptureRef, record: Record) returns (t: State)
    requires InRule(rule, b) && MayReserve(b, p, ref.at) && r !in b.requests
    requires record == NewRecord(ref.payload, k.memoryId(ref), b.now)
    ensures Leads(k, rule, With(b, p, r, ref, b.now, Asked(false)), t)
    ensures Claiming(rule, b, t, p, r, ref, record, Trimming(Claim(record, false))) && SamePlaces(b, t)
  {
    hide Leads, NewRecord, Fresh, Cleared, Written, Reserve, Claiming;
    var s := With(b, p, r, ref, b.now, Asked(false));
    assert StoreOf(s, p) == StoreOf(b, p);
    StaysUnlocked(b, r, Request(p, ref, b.now, Asked(false)));
    var st := Written(Cleared(StoreOf(b, p), ref.at, b.now, {}), ref.at, record, b.now, true);
    t := Advance(Hold(WithStore(s, p, st), p, ref.at, r), r, Trimming(Claim(record, false)));
    ReservesKey(StoreOf(s, p), ref.at, ref.payload, k.memoryId(ref), b.now, record);
    ReservedShape(rule, b, p, r, ref, record, st, s, t);
    assert InRule(rule, t) by {
      ClaimingMeans(rule, b, t, p, r, ref, record, Trimming(Claim(record, false)));
    }
    hide Unlocked, StoreOf, WithStore, Hold;
    assert ReserveStep(k, s, r, Faults(Lands, {}), Receipt("", Rejected, "", ""), t);
    ReserveLeads(k, rule, s, r, Receipt("", Rejected, "", ""), t);
  }

  lemma ClaimingMeans(rule: Rule, b: State, s: State, p: nat, r: nat, ref: CaptureRef, record: Record, stage: Stage)
    requires Claiming(rule, b, s, p, r, ref, record, stage)
    ensures InRule(rule, s)
  {
  }

  lemma Trims(k: Kernel, rule: Rule, b: State, s: State, p: nat, r: nat, ref: CaptureRef, record: Record) returns (t: State)
    requires Claiming(rule, b, s, p, r, ref, record, Trimming(Claim(record, false))) && SamePlaces(b, s)
    ensures Leads(k, rule, s, t)
    ensures Claiming(rule, b, t, p, r, ref, record, Authorizing(Claim(record, false))) && SamePlaces(b, t)
  {
    hide Leads;
    var st, c := StoreOf(s, p), Claim(record, false);
    var victims := VictimsExist(st, ref.at);
    TrimSpares(st, ref.at, victims);
    t := Advance(WithStore(s, p, Trim(st, victims)), r, Authorizing(c)).(untrimmed := 0);
    assert t.requests - {r} == s.requests - {r};
    hide TrimVictims, Trim, StoreOf, WithStore, Advance;
    assert TrimStep(s, r, {}, victims, t);
    TrimLeads(k, rule, s, r, victims, t);
  }

  lemma TrimSpares(st: Store, keep: KeyRef, victims: set<KeyRef>)
    requires TrimVictims(st, keep, {}, victims)
    ensures keep !in victims
  {
  }

  lemma AuthorizesOne(k: Kernel, rule: Rule, b: State, s: State, p: nat, r: nat, ref: CaptureRef, record: Record) returns (t: State)
    requires Claiming(rule, b, s, p, r, ref, record, Authorizing(Claim(record, false))) && SamePlaces(b, s)
    ensures Leads(k, rule, s, t)
    ensures Claiming(rule, b, t, p, r, ref, record, Publishing(Claim(record, false))) && SamePlaces(b, t)
  {
    hide Leads;
    t := Advance(s, r, Publishing(Claim(record, false)));
    assert t.requests - {r} == s.requests - {r};
    OneStep(k, rule, s, Authorize(r, true, Receipt("", Rejected, "", "")), t);
  }

  lemma PublishedFree(k: Kernel, s: State, ref: CaptureRef)
    requires IdIsFree(k, s, ref)
    ensures var u, id := Published(s, ref, k.memoryId(ref)), k.memoryId(ref);
            && u.vault == s.vault[id := Ours(ref)] && u.requests == s.requests && u.processes == s.processes && u.disk == s.disk
            && u.answers == s.answers && u.receipts == s.receipts && u.now == s.now && ref in u.published && u.untrimmed == s.untrimmed
  {
  }

  lemma PublishesOne(k: Kernel, rule: Rule, b: State, s: State, p: nat, r: nat, ref: CaptureRef, record: Record, body: Receipt) returns (t: State)
    requires Claiming(rule, b, s, p, r, ref, record, Publishing(Claim(record, false))) && SamePlaces(b, s)
    requires record.memoryId == k.memoryId(ref) && IdIsFree(k, b, ref) && Describes(body, Applied, k.memoryId(ref))
    ensures Leads(k, rule, s, t)
    ensures Claiming(rule, b, t, p, r, ref, record, Recording(Claim(record, false), body)) && InVault(k, t, ref) && t.receipts == b.receipts
    ensures t.vault == Published(b, ref, k.memoryId(ref)).vault
  {
    hide Leads, Describes;
    t := Advance(Published(s, ref, record.memoryId), r, Recording(Claim(record, false), body));
    assert t.requests - {r} == s.requests - {r};
    PublishedFree(k, s, ref);
    PublishedFree(k, b, ref);
    hide Published;
    PublishLeads(k, rule, s, r, body, t);
  }

  lemma RecordsOne(k: Kernel, rule: Rule, b: State, s: State, p: nat, r: nat, ref: CaptureRef, record: Record, body: Receipt) returns (t: State)
    requires Claiming(rule, b, s, p, r, ref, record, Recording(Claim(record, false), body)) && InVault(k, s, ref) && ref !in s.receipts
    ensures Leads(k, rule, s, t)
    ensures Claiming(rule, b, t, p, r, ref, record, Settling(Claim(record, false), body)) && InVault(k, t, ref)
    ensures ref in t.receipts && t.receipts[ref] == body && t.vault == s.vault
  {
    hide Leads;
    t := Advance(Recorded(s, ref, body), r, Settling(Claim(record, false), body));
    assert t.requests - {r} == s.requests - {r};
    OneStep(k, rule, s, RecordReceipt(r), t);
  }

  /** Done: answered, in the vault, receipted, settled, and gone from the listener. */
  ghost predicate Applies(k: Kernel, b: State, t: State, ref: CaptureRef, record: Record, body: Receipt) {
    && (ref, body) in t.answers && InVault(k, t, ref) && ref in t.receipts && t.receipts[ref] == body
    && ref.at in t.disk && t.disk[ref.at] == SettledRecord(record, body) && t.requests == b.requests
    && t.vault == Published(b, ref, k.memoryId(ref)).vault
  }

  lemma SettlesOne(k: Kernel, rule: Rule, b: State, s: State, p: nat, r: nat, ref: CaptureRef, record: Record, body: Receipt) returns (t: State)
    requires Claiming(rule, b, s, p, r, ref, record, Settling(Claim(record, false), body)) && InVault(k, s, ref) && Unlocked(b)
    requires ref in s.receipts && s.receipts[ref] == body && s.vault == Published(b, ref, k.memoryId(ref)).vault
    ensures InRule(rule, t) && Leads(k, rule, s, t) && Applies(k, b, t, ref, record, body)
  {
    hide Leads, SettledRecord;
    UnlockedBut(b, s, r);
    var st := Settle(StoreOf(s, p), ref.at, record, body);
    t := Answer(WithStore(s, p, st), r, body);
    SettledShape(s, p, r, st, body);
    hide Unlocked, WithStore, StoreOf, Answer;
    assert SettleStep(s, r, Lands, t);
    SettleLeads(k, rule, s, r, t);
  }

  lemma SettledShape(s: State, p: nat, r: nat, st: Store, body: Receipt)
    requires p in s.processes && r in s.requests && s.requests[r].process == p
    ensures var t := Answer(WithStore(s, p, st), r, body);
            && t.requests == s.requests - {r} && t.disk == st.disk && t.vault == s.vault && t.receipts == s.receipts
            && t.answers == s.answers + {(s.requests[r].ref, body)} && t.processes.Keys == s.processes.Keys
  {
    assert s.processes.Keys + {p} == s.processes.Keys;
  }

  /** From any state in which the listener has a slot, the lock and the key are free,
      and sweeping leaves room for one more claim, a capture that nothing disturbs
      leads on to an applied answer: its memory is in the vault, its receipt recorded
      and its record settled with those bytes. Other claims, a full store and trims
      that were lost do not stop it. */
  lemma CaptureGoesThrough(k: Kernel, rule: Rule, b: State, p: nat, r: nat, ref: CaptureRef, body: Receipt) returns (t: State)
    requires InRule(rule, b) && MayReserve(b, p, ref.at) && r !in b.requests && |Served(b, p)| < k.slots
    requires forall other <- b.published :: other.at != ref.at
    requires IdIsFree(k, b, ref) && ref !in b.receipts && Describes(body, Applied, k.memoryId(ref))
    ensures InRule(rule, t) && Leads(k, rule, b, t) && Applies(k, b, t, ref, NewRecord(ref.payload, k.memoryId(ref), b.now), body)
  {
    hide Leads, Claiming, Describes, InVault, MayReserve, With, Applies, Published;
    assert p in b.processes && Unlocked(b) by {
      MayMeans(b, p, ref.at);
    }
    var record := NewRecord(ref.payload, k.memoryId(ref), b.now);
    NewRecordShape(ref.payload, k.memoryId(ref), b.now);
    hide NewRecord, Unlocked;
    Begins(k, rule, b, p, r, ref, None, body);
    var s1 := Reserves(k, rule, b, p, r, ref, record);
    var s2 := Trims(k, rule, b, s1, p, r, ref, record);
    var s3 := AuthorizesOne(k, rule, b, s2, p, r, ref, record);
    var s4 := PublishesOne(k, rule, b, s3, p, r, ref, record, body);
    var s5 := RecordsOne(k, rule, b, s4, p, r, ref, record, body);
    t := SettlesOne(k, rule, b, s5, p, r, ref, record, body);
    Then(k, rule, b, With(b, p, r, ref, b.now, Asked(false)), s1);
    Then(k, rule, b, s1, s2);
    Then(k, rule, b, s2, s3);
    Then(k, rule, b, s3, s4);
    Then(k, rule, b, s4, s5);
    Then(k, rule, b, s5, t);
  }

  lemma MayMeans(b: State, p: nat, at: KeyRef)
    requires MayReserve(b, p, at)
    ensures p in b.processes && Unlocked(b)
  {
  }
}
