/** Runs that show what the capture theorems cannot do without: each is built from
    an empty directory, step by step, with nothing failing that it does not name. */
module CaptureRuns {
  import opened Reservations
  import opened Capture
  import opened CaptureSafety
  import opened CaptureSerial
  import opened CaptureCensus

  /** How far a run may stray: which processes it may start, whether the published
      store may drop a publication, and whether the clock must go forward and find
      every request younger than a takeover. */
  datatype Rule = Rule(last: nat, forgets: bool, timely: bool := false)

  /** The clock goes forward, and no request is older than a takeover by then. */
  ghost predicate InTime(s: State, t: State) {
    s.now <= t.now && forall r <- t.requests.Keys :: t.now < t.requests[r].started + RESERVATION_TAKEOVER
  }

  /** Within the rule, and with every write, removal and opening going well. */
  ghost predicate Obeys(rule: Rule, s: State, l: Label, t: State) {
    && (rule.timely && l.Tick? ==> InTime(s, t))
    && (forall p <- t.processes.Keys :: p <= rule.last) && (l.ForgetPublication? ==> rule.forgets)
    && (l.Boot? || l.TrimStore? ==> l.stuck == {}) && (l.Crash? ==> l.gone == {})
    && (l.ReserveKey? ==> l.faults == Faults(Lands, {})) && (l.SettleKey? || l.ReplaySettle? ==> l.write == Lands)
  }

  ghost predicate Path(k: Kernel, rule: Rule, states: seq<State>, labels: seq<Label>) {
    && |states| == |labels| + 1
    && forall i {:trigger labels[i]} :: 0 <= i < |labels| ==>
         Step(k, states[i], labels[i], states[i + 1]) && Obeys(rule, states[i], labels[i], states[i + 1])
  }

  ghost predicate Leads(k: Kernel, rule: Rule, s: State, t: State) {
    exists states, labels :: Path(k, rule, states, labels) && states[0] == s && states[|labels|] == t
  }

  lemma OneStep(k: Kernel, rule: Rule, s: State, l: Label, t: State)
    requires Step(k, s, l, t) && Obeys(rule, s, l, t)
    ensures Leads(k, rule, s, t)
  {
    hide Step, Obeys;
    assert Path(k, rule, [s, t], [l]);
  }

  lemma Then(k: Kernel, rule: Rule, s: State, t: State, u: State)
    requires Leads(k, rule, s, t) && Leads(k, rule, t, u)
    ensures Leads(k, rule, s, u)
  {
    hide Step, Obeys;
    var one, l1 :| Path(k, rule, one, l1) && one[0] == s && one[|l1|] == t;
    var two, l2 :| Path(k, rule, two, l2) && two[0] == t && two[|l2|] == u;
    var all, labels := one + two[1..], l1 + l2;
    forall i | 0 <= i < |labels|
      ensures Step(k, all[i], labels[i], all[i + 1]) && Obeys(rule, all[i], labels[i], all[i + 1])
    {
      if i < |l1| {
        assert labels[i] == l1[i] && all[i] == one[i] && all[i + 1] == one[i + 1];
      } else {
        assert labels[i] == l2[i - |l1|] && all[i] == two[i - |l1|] && all[i + 1] == two[i - |l1| + 1];
      }
    }
    assert Path(k, rule, all, labels);
  }

  // ------------------------------------------------------- the steps of a request

  lemma ReserveLeads(k: Kernel, rule: Rule, s: State, r: nat, refusal: Receipt, t: State)
    requires r in s.requests && ReserveStep(k, s, r, Faults(Lands, {}), refusal, t) && InRule(rule, t)
    ensures Leads(k, rule, s, t)
  {
    hide ReserveStep;
    OneStep(k, rule, s, ReserveKey(r, Faults(Lands, {}), refusal), t);
  }

  lemma TrimLeads(k: Kernel, rule: Rule, s: State, r: nat, victims: set<KeyRef>, t: State)
    requires r in s.requests && TrimStep(s, r, {}, victims, t) && InRule(rule, t)
    ensures Leads(k, rule, s, t)
  {
    hide TrimStep;
    OneStep(k, rule, s, TrimStore(r, {}, victims), t);
  }

  lemma PublishLeads(k: Kernel, rule: Rule, s: State, r: nat, body: Receipt, t: State)
    requires r in s.requests && PublishStep(s, r, Write, body, t) && InRule(rule, t)
    ensures Leads(k, rule, s, t)
  {
    hide PublishStep;
    OneStep(k, rule, s, Publish(r, Write, body), t);
  }

  /** Refused at the last moment, by a policy that forbids writing. */
  lemma RefusalLeads(k: Kernel, rule: Rule, s: State, r: nat, body: Receipt, c: Claim, t: State)
    requires r in s.requests && s.requests[r].stage == Publishing(c) && IsRefusal(body) && t == Advance(s, r, Settling(c, body)) && InRule(rule, t)
    ensures Leads(k, rule, s, t)
  {
    hide Advance;
    OneStep(k, rule, s, Publish(r, ReadOnly, body), t);
  }

  lemma SettleLeads(k: Kernel, rule: Rule, s: State, r: nat, t: State)
    requires r in s.requests && SettleStep(s, r, Lands, t) && InRule(rule, t)
    ensures Leads(k, rule, s, t)
  {
    hide SettleStep;
    OneStep(k, rule, s, SettleKey(r, Lands), t);
  }

  lemma FailLeads(k: Kernel, rule: Rule, s: State, r: nat, t: State)
    requires r in s.requests && !s.requests[r].stage.Trimming? && t == Finish(s, r) && InRule(rule, t)
    ensures Leads(k, rule, s, t)
  {
    hide Finish;
    assert PutDown(s, s.requests[r], false) == s;
    OneStep(k, rule, s, Fail(r, false), t);
  }

  // -------------------------------------------------- one request, on its own

  ghost function With(b: State, p: nat, r: nat, ref: CaptureRef, started: int, stage: Stage): State {
    b.(requests := b.requests[r := Request(p, ref, started, stage)])
  }

  /** A request that has claimed its key in a listener that does nothing else. */
  ghost function Holding(k: Kernel, b: State, p: nat, r: nat, ref: CaptureRef, started: int, total: nat, stage: Stage): State {
    b.(requests := b.requests[r := Request(p, ref, started, stage)],
       disk := b.disk[ref.at := NewRecord(ref.payload, k.memoryId(ref), b.now)],
       processes := b.processes[p := Process(total, map[ref.at := b.now], map[ref.at := r])])
  }

  ghost function ClaimBy(k: Kernel, b: State, ref: CaptureRef): Claim {
    Claim(NewRecord(ref.payload, k.memoryId(ref), b.now), false)
  }

  ghost predicate InRule(rule: Rule, b: State) {
    forall p <- b.processes.Keys :: p <= rule.last
  }

  /** The listener is free to reserve the key, and would be the first to. */
  ghost predicate Ready(rule: Rule, b: State, p: nat, r: nat, ref: CaptureRef) {
    && InRule(rule, b) && p in b.processes && b.processes[p].pending.Keys <= {ref.at} && b.processes[p].holds == map[]
    && r !in b.requests && Unlocked(b) && Fresh(StoreOf(b, p), ref.at, b.now) && b.untrimmed == 0
  }

  lemma Begins(k: Kernel, rule: Rule, b: State, p: nat, r: nat, ref: CaptureRef, seen: Option<Payload>, refusal: Receipt)
    requires InRule(rule, b) && p in b.processes && r !in b.requests && |Served(b, p)| < k.slots
    requires seen == None ==> forall other <- b.published :: other.at != ref.at
    requires seen.Some? ==> seen.value == ref.payload && ref in b.published && ref !in b.receipts
    ensures Leads(k, rule, b, With(b, p, r, ref, b.now, Asked(seen.Some?)))
  {
    hide Leads;
    var arrived := With(b, p, r, ref, b.now, Arrived);
    OneStep(k, rule, b, Arrive(r, p, ref), arrived);
    assert Served(arrived, p) == Served(b, p);
    var asked := With(b, p, r, ref, b.now, Asked(seen.Some?));
    assert asked == Advance(arrived, r, Asked(seen.Some?));
    assert AskStep(arrived, r, seen, refusal, asked);
    OneStep(k, rule, arrived, Ask(r, seen, refusal), asked);
    Then(k, rule, b, arrived, asked);
  }

  lemma ClearsKey(st: Store, at: KeyRef, now: int)
    requires st.pending.Keys <= {at} && Fresh(st, at, now)
    ensures Cleared(st, at, now, {}).disk == st.disk - {at} && Cleared(st, at, now, {}).pending.Keys <= {at}
  {
    hide Collectable, Minus;
    var collected := if at in st.disk then Forget(st.(disk := st.disk - {at}), at) else st;
    assert collected.disk == st.disk - {at};
    assert Stale(collected, now) <= {at};
  }

  lemma ReservesFresh(st: Store, at: KeyRef, identity: Payload, id: string, now: int) returns (total: nat)
    requires st.pending.Keys <= {at} && Fresh(st, at, now)
    ensures var r := NewRecord(identity, id, now);
            Reserve(st, at, identity, id, now, Faults(Lands, {})) == (Store(st.disk[at := r], total, map[at := now]), Claimed(r, false))
  {
    var r := NewRecord(identity, id, now);
    hide NewRecord, Cleared, Fresh;
    var s1 := Cleared(st, at, now, {});
    ClearsKey(st, at, now);
    Overwrites(st.disk, at, r);
    OnlyKey(s1.pending, at, now);
    total := s1.total + 1;
  }

  lemma Overwrites<K, V>(m: map<K, V>, x: K, v: V)
    ensures (m - {x})[x := v] == m[x := v]
  {
  }

  lemma OnlyKey<K, V>(m: map<K, V>, x: K, v: V)
    requires m.Keys <= {x}
    ensures m[x := v] == map[x := v] && |m| <= 1
  {
    assert m[x := v].Keys == {x};
    Subset(m.Keys, {x});
  }

  lemma Claims(k: Kernel, rule: Rule, b: State, p: nat, r: nat, ref: CaptureRef, started: int, found: bool) returns (total: nat)
    requires Ready(rule, b, p, r, ref)
    ensures Leads(k, rule, With(b, p, r, ref, started, Asked(found)), Holding(k, b, p, r, ref, started, total, Trimming(ClaimBy(k, b, ref))))
  {
    hide Leads, Reserve, NewRecord, Fresh;
    var a := With(b, p, r, ref, started, Asked(found));
    total := ReservesFresh(StoreOf(a, p), ref.at, ref.payload, k.memoryId(ref), b.now);
    var record := NewRecord(ref.payload, k.memoryId(ref), b.now);
    var st := Store(b.disk[ref.at := record], total, map[ref.at := b.now]);
    var t := Holding(k, b, p, r, ref, started, total, Trimming(ClaimBy(k, b, ref)));
    assert t == Advance(Hold(WithStore(a, p, st), p, ref.at, r), r, Trimming(Claim(record, false)));
    assert Unlocked(a) by {
      StaysUnlocked(b, r, Request(p, ref, started, Asked(found)));
    }
    hide With, Holding, WithStore, Hold, Advance, Unlocked;
    assert ReserveStep(k, a, r, Faults(Lands, {}), Receipt("", Rejected, "", ""), t) by {
      WithShape(b, p, r, ref, started, Asked(found));
    }
    assert Obeys(rule, a, ReserveKey(r, Faults(Lands, {}), Receipt("", Rejected, "", "")), t) by {
      HoldingShape(k, rule, b, p, r, ref, started, total, Trimming(ClaimBy(k, b, ref)));
    }
    ReserveLeads(k, rule, a, r, Receipt("", Rejected, "", ""), t);
  }

  lemma WithShape(b: State, p: nat, r: nat, ref: CaptureRef, started: int, stage: Stage)
    ensures var a := With(b, p, r, ref, started, stage);
            r in a.requests && a.requests[r] == Request(p, ref, started, stage) && a.processes == b.processes && a.now == b.now
  {
  }

  lemma HoldingShape(k: Kernel, rule: Rule, b: State, p: nat, r: nat, ref: CaptureRef, started: int, total: nat, stage: Stage)
    requires InRule(rule, b) && p in b.processes
    ensures var h := Holding(k, b, p, r, ref, started, total, stage);
            InRule(rule, h) && r in h.requests && h.requests[r] == Request(p, ref, started, stage) && h.processes.Keys == b.processes.Keys
  {
    assert Holding(k, b, p, r, ref, started, total, stage).processes.Keys == b.processes.Keys;
  }

  lemma StaysUnlocked(b: State, r: nat, q: Request)
    requires Unlocked(b) && !q.stage.Trimming?
    ensures Unlocked(b.(requests := b.requests[r := q]))
  {
  }

  lemma TrimIsIdle(st: Store, at: KeyRef)
    requires |st.disk| <= MAX_RESERVATIONS
    ensures TrimVictims(st, at, {}, {}) && Trim(st, {}) == st
  {
    assert st.disk - {} == st.disk && st.pending - {} == st.pending;
  }

  lemma KeepsStore(s: State, p: nat)
    requires p in s.processes
    ensures WithStore(s, p, StoreOf(s, p)) == s
  {
  }

  lemma Restaged(k: Kernel, b: State, p: nat, r: nat, ref: CaptureRef, started: int, total: nat, was: Stage, stage: Stage)
    ensures var h := Holding(k, b, p, r, ref, started, total, was);
            h.untrimmed == b.untrimmed && Advance(h, r, stage) == Holding(k, b, p, r, ref, started, total, stage)
  {
    hide NewRecord;
  }

  /** Nothing to trim. */
  lemma TrimsNone(k: Kernel, rule: Rule, b: State, p: nat, r: nat, ref: CaptureRef, started: int, total: nat)
    requires Ready(rule, b, p, r, ref) && |Holding(k, b, p, r, ref, started, total, Arrived).disk| <= MAX_RESERVATIONS
    ensures var c := ClaimBy(k, b, ref);
            Leads(k, rule, Holding(k, b, p, r, ref, started, total, Trimming(c)), Holding(k, b, p, r, ref, started, total, Authorizing(c)))
  {
    hide Leads, NewRecord, Fresh;
    var c := ClaimBy(k, b, ref);
    var h, t := Holding(k, b, p, r, ref, started, total, Trimming(c)), Holding(k, b, p, r, ref, started, total, Authorizing(c));
    var st := StoreOf(h, p);
    TrimIsIdle(st, ref.at);
    KeepsStore(h, p);
    Restaged(k, b, p, r, ref, started, total, Trimming(c), Authorizing(c));
    HoldingShape(k, rule, b, p, r, ref, started, total, Trimming(c));
    HoldingShape(k, rule, b, p, r, ref, started, total, Authorizing(c));
    hide TrimVictims, Trim, WithStore, Holding, Advance, StoreOf, ClaimBy, Unlocked;
    assert TrimStep(h, r, {}, {}, t);
    TrimLeads(k, rule, h, r, {}, t);
  }

  lemma Authorizes(k: Kernel, rule: Rule, b: State, p: nat, r: nat, ref: CaptureRef, started: int, total: nat, c: Claim)
    requires InRule(rule, b) && p in b.processes
    ensures Leads(k, rule, Holding(k, b, p, r, ref, started, total, Authorizing(c)), Holding(k, b, p, r, ref, started, total, Publishing(c)))
  {
    hide Leads, NewRecord;
    var h, t := Holding(k, b, p, r, ref, started, total, Authorizing(c)), Holding(k, b, p, r, ref, started, total, Publishing(c));
    assert t == Advance(h, r, Publishing(c));
    HoldingShape(k, rule, b, p, r, ref, started, total, Publishing(c));
    OneStep(k, rule, h, Authorize(r, true, Receipt("", Rejected, "", "")), t);
  }

  /** From asking to the point of publishing. */
  lemma Reaches(k: Kernel, rule: Rule, b: State, p: nat, r: nat, ref: CaptureRef, started: int, found: bool) returns (total: nat)
    requires Ready(rule, b, p, r, ref) && |b.disk.Keys + {ref.at}| <= MAX_RESERVATIONS
    ensures Leads(k, rule, With(b, p, r, ref, started, Asked(found)), Holding(k, b, p, r, ref, started, total, Publishing(ClaimBy(k, b, ref))))
  {
    hide Leads;
    total := Claims(k, rule, b, p, r, ref, started, found);
    var c := ClaimBy(k, b, ref);
    assert Holding(k, b, p, r, ref, started, total, Arrived).disk.Keys == b.disk.Keys + {ref.at};
    hide With, Holding, ClaimBy;
    var h := Holding(k, b, p, r, ref, started, total, Trimming(c));
    SameCount(Holding(k, b, p, r, ref, started, total, Arrived).disk, b.disk.Keys + {ref.at});
    TrimsNone(k, rule, b, p, r, ref, started, total);
    Authorizes(k, rule, b, p, r, ref, started, total, c);
    var a, u, v := With(b, p, r, ref, started, Asked(found)), Holding(k, b, p, r, ref, started, total, Authorizing(c)),
                   Holding(k, b, p, r, ref, started, total, Publishing(c));
    Then(k, rule, h, u, v);
    Then(k, rule, a, h, v);
  }

  lemma SameCount<K, V>(m: map<K, V>, keys: set<K>)
    requires m.Keys == keys
    ensures |m| == |keys|
  {
    assert |m| == |m.Keys|;
  }

  // ------------------------------------------------------------- three endings

  /** The listener once a request under the key is over: its record settled with
      the answer it gave. */
  ghost function Ended(k: Kernel, b: State, p: nat, ref: CaptureRef, now: int, total: nat, body: Receipt): State {
    b.(disk := b.disk[ref.at := SettledRecord(NewRecord(ref.payload, k.memoryId(ref), now), body)],
       processes := b.processes[p := Process(total, map[], map[])], answers := b.answers + {(ref, body)})
  }

  lemma Settles(k: Kernel, rule: Rule, b: State, p: nat, r: nat, ref: CaptureRef, started: int, total: nat, body: Receipt)
    requires InRule(rule, b) && p in b.processes && r !in b.requests && Unlocked(b)
    ensures Leads(k, rule, Holding(k, b, p, r, ref, started, total, Settling(ClaimBy(k, b, ref), body)), Ended(k, b, p, ref, b.now, total, body))
  {
    hide Leads, NewRecord, SettledRecord;
    var c := ClaimBy(k, b, ref);
    var h, t := Holding(k, b, p, r, ref, started, total, Settling(c, body)), Ended(k, b, p, ref, b.now, total, body);
    var st := Settle(StoreOf(h, p), ref.at, c.record, body);
    assert st == Store(b.disk[ref.at := SettledRecord(c.record, body)], total, map[]);
    assert Unlocked(h) by {
      StaysUnlocked(b, r, h.requests[r]);
    }
    EndsSettled(k, b, p, r, ref, started, total, body, st);
    assert SettleStep(h, r, Lands, t);
    assert t.processes.Keys == b.processes.Keys;
    SettleLeads(k, rule, h, r, t);
  }

  lemma EndsSettled(k: Kernel, b: State, p: nat, r: nat, ref: CaptureRef, started: int, total: nat, body: Receipt, st: Store)
    requires p in b.processes && r !in b.requests
    requires st == Store(b.disk[ref.at := SettledRecord(ClaimBy(k, b, ref).record, body)], total, map[])
    ensures Answer(WithStore(Holding(k, b, p, r, ref, started, total, Settling(ClaimBy(k, b, ref), body)), p, st), r, body)
            == Ended(k, b, p, ref, b.now, total, body)
  {
    hide NewRecord, SettledRecord;
    var t := Answer(WithStore(Holding(k, b, p, r, ref, started, total, Settling(ClaimBy(k, b, ref), body)), p, st), r, body);
    assert t.requests == b.requests && t.processes == b.processes[p := Process(total, map[], map[])];
  }

  lemma RefusesHeld(k: Kernel, rule: Rule, b: State, p: nat, r: nat, ref: CaptureRef, started: int, total: nat, c: Claim, body: Receipt)
    requires InRule(rule, b) && p in b.processes && IsRefusal(body)
    ensures Leads(k, rule, Holding(k, b, p, r, ref, started, total, Publishing(c)), Holding(k, b, p, r, ref, started, total, Settling(c, body)))
  {
    hide Leads, NewRecord, IsRefusal;
    var h, v := Holding(k, b, p, r, ref, started, total, Publishing(c)), Holding(k, b, p, r, ref, started, total, Settling(c, body));
    assert v == Advance(h, r, Settling(c, body));
    HoldingShape(k, rule, b, p, r, ref, started, total, Publishing(c));
    HoldingShape(k, rule, b, p, r, ref, started, total, Settling(c, body));
    hide Holding;
    RefusalLeads(k, rule, h, r, body, c, v);
  }

  /** Refused by a read-only vault. */
  lemma EndsRefused(k: Kernel, rule: Rule, b: State, p: nat, r: nat, ref: CaptureRef, started: int, found: bool, body: Receipt)
    returns (total: nat)
    requires Ready(rule, b, p, r, ref) && |b.disk.Keys + {ref.at}| <= MAX_RESERVATIONS && IsRefusal(body)
    ensures Leads(k, rule, With(b, p, r, ref, started, Asked(found)), Ended(k, b, p, ref, b.now, total, body))
  {
    hide Leads, NewRecord, Fresh, Unlocked, With, Holding, Ended, ClaimBy, IsRefusal;
    total := Reaches(k, rule, b, p, r, ref, started, found);
    var c := ClaimBy(k, b, ref);
    var h, v := Holding(k, b, p, r, ref, started, total, Publishing(c)), Holding(k, b, p, r, ref, started, total, Settling(c, body));
    RefusesHeld(k, rule, b, p, r, ref, started, total, c, body);
    Settles(k, rule, b, p, r, ref, started, total, body);
    Then(k, rule, h, v, Ended(k, b, p, ref, b.now, total, body));
    Then(k, rule, With(b, p, r, ref, started, Asked(found)), h, Ended(k, b, p, ref, b.now, total, body));
  }

  ghost function Placing(k: Kernel, b: State, ref: CaptureRef): State {
    Published(b, ref, k.memoryId(ref))
  }

  ghost predicate IdIsFree(k: Kernel, b: State, ref: CaptureRef) {
    k.memoryId(ref) in b.vault ==> b.vault[k.memoryId(ref)] == Ours(ref)
  }

  lemma PlacesWhileHolding(k: Kernel, b: State, p: nat, r: nat, ref: CaptureRef, started: int, total: nat, stage: Stage)
    ensures Published(Holding(k, b, p, r, ref, started, total, stage), ref, k.memoryId(ref))
            == Holding(k, Placing(k, b, ref), p, r, ref, started, total, stage)
  {
    hide NewRecord;
    var h, id := Holding(k, b, p, r, ref, started, total, stage), k.memoryId(ref);
    assert h.vault == b.vault && h.published == b.published && h.placed == b.placed;
    if id !in b.vault {
      assert Published(h, ref, id).vault == Placing(k, b, ref).vault;
    }
  }

  lemma PlacingShape(k: Kernel, b: State, ref: CaptureRef)
    ensures var v := Placing(k, b, ref);
            && v.processes == b.processes && v.requests == b.requests && v.disk == b.disk && v.now == b.now && v.receipts == b.receipts
            && v.untrimmed == b.untrimmed && v.answers == b.answers && v.forgotten == b.forgotten
    ensures IdIsFree(k, b, ref) ==> InVault(k, Placing(k, b, ref), ref) && Placing(k, b, ref).published == b.published + {ref}
    ensures forall id <- b.vault.Keys :: id in Placing(k, b, ref).vault && Placing(k, b, ref).vault[id] == b.vault[id]
    ensures forall id <- Placing(k, b, ref).vault.Keys :: id in b.vault || id == k.memoryId(ref)
  {
    PlacingVault(k, b, ref);
  }

  lemma PlacingVault(k: Kernel, b: State, ref: CaptureRef)
    ensures Placing(k, b, ref).vault == if k.memoryId(ref) in b.vault then b.vault else b.vault[k.memoryId(ref) := Ours(ref)]
  {
  }

  /** Applied: published, recorded, settled. */
  lemma EndsApplied(k: Kernel, rule: Rule, b: State, p: nat, r: nat, ref: CaptureRef, started: int, found: bool, body: Receipt)
    returns (total: nat, v: State)
    requires Ready(rule, b, p, r, ref) && |b.disk.Keys + {ref.at}| <= MAX_RESERVATIONS
    requires IdIsFree(k, b, ref) && ref !in b.receipts && Describes(body, Applied, k.memoryId(ref))
    ensures v == Placing(k, b, ref).(receipts := b.receipts[ref := body])
    ensures Leads(k, rule, With(b, p, r, ref, started, Asked(found)), Ended(k, v, p, ref, b.now, total, body))
  {
    hide Leads, NewRecord, Fresh, Describes;
    total := Reaches(k, rule, b, p, r, ref, started, found);
    var c := ClaimBy(k, b, ref);
    var m := Placing(k, b, ref);
    v := m.(receipts := b.receipts[ref := body]);
    PlacingShape(k, b, ref);
    var h := Holding(k, b, p, r, ref, started, total, Publishing(c));
    var h1 := Holding(k, m, p, r, ref, started, total, Recording(c, body));
    var h2 := Holding(k, v, p, r, ref, started, total, Settling(c, body));
    Publishes(k, rule, b, p, r, ref, started, total, body);
    Records(k, rule, m, p, r, ref, started, total, c, body);
    Settles(k, rule, v, p, r, ref, started, total, body);
    hide With, Holding, Ended, Placing;
    Then(k, rule, h1, h2, Ended(k, v, p, ref, b.now, total, body));
    Then(k, rule, h, h1, Ended(k, v, p, ref, b.now, total, body));
    Then(k, rule, With(b, p, r, ref, started, Asked(found)), h, Ended(k, v, p, ref, b.now, total, body));
  }

  lemma Publishes(k: Kernel, rule: Rule, b: State, p: nat, r: nat, ref: CaptureRef, started: int, total: nat, body: Receipt)
    requires InRule(rule, b) && p in b.processes && IdIsFree(k, b, ref) && Describes(body, Applied, k.memoryId(ref))
    ensures Leads(k, rule, Holding(k, b, p, r, ref, started, total, Publishing(ClaimBy(k, b, ref))),
                  Holding(k, Placing(k, b, ref), p, r, ref, started, total, Recording(ClaimBy(k, b, ref), body)))
  {
    hide Leads, NewRecord, Describes;
    var c := ClaimBy(k, b, ref);
    assert c.record.memoryId == k.memoryId(ref) by {
      NewRecordShape(ref.payload, k.memoryId(ref), b.now);
    }
    var h := Holding(k, b, p, r, ref, started, total, Publishing(c));
    var t := Holding(k, Placing(k, b, ref), p, r, ref, started, total, Recording(c, body));
    PlacesWhileHolding(k, b, p, r, ref, started, total, Publishing(c));
    PlacingShape(k, b, ref);
    hide Placing;
    var u := Holding(k, Placing(k, b, ref), p, r, ref, started, total, Publishing(c));
    assert t == Advance(u, r, Recording(c, body));
    assert u.vault[k.memoryId(ref)] == Ours(ref);
    hide Published;
    assert PublishStep(h, r, Write, body, t);
    HoldingShape(k, rule, Placing(k, b, ref), p, r, ref, started, total, Recording(c, body));
    PublishLeads(k, rule, h, r, body, t);
  }

  lemma Records(k: Kernel, rule: Rule, b: State, p: nat, r: nat, ref: CaptureRef, started: int, total: nat, c: Claim, body: Receipt)
    requires InRule(rule, b) && p in b.processes && ref !in b.receipts
    ensures Leads(k, rule, Holding(k, b, p, r, ref, started, total, Recording(c, body)),
                  Holding(k, b.(receipts := b.receipts[ref := body]), p, r, ref, started, total, Settling(c, body)))
  {
    hide Leads, NewRecord;
    var v := b.(receipts := b.receipts[ref := body]);
    var h, t := Holding(k, b, p, r, ref, started, total, Recording(c, body)), Holding(k, v, p, r, ref, started, total, Settling(c, body));
    assert t == Advance(Recorded(h, ref, body), r, Settling(c, body));
    HoldingShape(k, rule, v, p, r, ref, started, total, Settling(c, body));
    OneStep(k, rule, h, RecordReceipt(r), t);
  }

  /** How a capture ends, to the last field, that a listener serves which holds
      nothing else. */
  lemma CaptureEnds(k: Kernel, rule: Rule, b: State, p: nat, r: nat, ref: CaptureRef, body: Receipt) returns (total: nat, v: State)
    requires Ready(rule, b, p, r, ref) && |Served(b, p)| < k.slots && |b.disk.Keys + {ref.at}| <= MAX_RESERVATIONS
    requires forall other <- b.published :: other.at != ref.at
    requires IdIsFree(k, b, ref) && ref !in b.receipts && Describes(body, Applied, k.memoryId(ref))
    ensures v == Placing(k, b, ref).(receipts := b.receipts[ref := body])
    ensures var t := Ended(k, v, p, ref, b.now, total, body);
            Leads(k, rule, b, t) && (ref, body) in t.answers && InVault(k, t, ref)
            && t.disk == b.disk[ref.at := SettledRecord(NewRecord(ref.payload, k.memoryId(ref), b.now), body)]
  {
    hide Leads, NewRecord, SettledRecord, Describes, With, Served, Fresh, Unlocked;
    Begins(k, rule, b, p, r, ref, None, body);
    total, v := EndsApplied(k, rule, b, p, r, ref, b.now, false, body);
    PlacingShape(k, b, ref);
    hide Placing;
    Then(k, rule, b, With(b, p, r, ref, b.now, Asked(false)), Ended(k, v, p, ref, b.now, total, body));
  }
}
