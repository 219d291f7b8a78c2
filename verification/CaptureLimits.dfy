/** Where the guarantees of capture end, each shown by a run: a forgotten
    publication, a second listener or a second slot, a trim cut off by a crash, and
    a replay recorded in place of a receipt. */
module CaptureLimits {
  import opened Reservations
  import opened Capture
  import opened CaptureSafety
  import opened CaptureSerial
  import opened CaptureCensus
  import opened CaptureRuns
  import opened CaptureProgress

  const NOTHING := State(0, map[], map[], {}, map[], map[], map[], {}, {}, 0, {})

  ghost function Listening(ps: set<nat>): State {
    NOTHING.(processes := map p | p in ps :: Process(0, map[], map[]))
  }

  lemma BootsOn(k: Kernel, rule: Rule, ps: set<nat>, p: nat)
    requires p !in ps && forall q <- ps + {p} :: q <= rule.last
    ensures Leads(k, rule, Listening(ps), Listening(ps + {p}))
  {
    hide Leads;
    var s, t := Listening(ps), Listening(ps + {p});
    assert Kept(map[], {}, 0) == {};
    assert Open(s.disk, 0, {}) == Store(map[], 0, map[]);
    assert t.processes == s.processes[p := Process(0, map[], map[])];
    assert BootStep(s, p, {}, t);
    OneStep(k, rule, s, Boot(p, {}), t);
  }

  lemma StartsListening(k: Kernel, rule: Rule)
    ensures Leads(k, rule, NOTHING, Listening({0}))
  {
    hide Leads;
    assert Listening({}) == NOTHING by {
      assert Listening({}).processes == map[];
    }
    assert {} + {0} == {0};
    BootsOn(k, rule, {}, 0);
  }

  /** A path from nothing is a run. */
  lemma IsRun(k: Kernel, rule: Rule, t: State) returns (states: seq<State>, labels: seq<Label>)
    requires Leads(k, rule, NOTHING, t)
    ensures Run(k, states, labels) && states[|labels|] == t && states[0] == NOTHING
    ensures Path(k, rule, states, labels)
  {
    hide Step, Obeys;
    states, labels :| Path(k, rule, states, labels) && states[0] == NOTHING && states[|labels|] == t;
  }

  ghost predicate OneListener(states: seq<State>) {
    forall s <- states :: s.processes.Keys <= {0}
  }

  lemma AtMostTheFirst(k: Kernel, rule: Rule, states: seq<State>, labels: seq<Label>)
    requires Path(k, rule, states, labels) && states[0] == NOTHING && rule.last == 0
    ensures OneListener(states)
  {
    hide Step;
    forall s <- states
      ensures s.processes.Keys <= {0}
    {
      var i :| 0 <= i < |states| && s == states[i];
      if i > 0 {
        assert Obeys(rule, states[i - 1], labels[i - 1], states[i - 1 + 1]);
      }
    }
  }

  lemma NothingDropped(k: Kernel, rule: Rule, states: seq<State>, labels: seq<Label>)
    requires Path(k, rule, states, labels) && !rule.forgets
    ensures forall l <- labels :: !l.ForgetPublication?
  {
    hide Step;
    forall l <- labels
      ensures !l.ForgetPublication?
    {
      var i :| 0 <= i < |labels| && l == labels[i];
      assert Obeys(rule, states[i], labels[i], states[i + 1]);
    }
  }

  // ------------------------------------------------------ dropped publications

  /** One capture, answered; then nothing but time, or a dropped publication. */
  ghost predicate AfterOne(k: Kernel, s: State, p: nat, ref: CaptureRef, body: Receipt) {
    && p in s.processes && s.processes[p].pending == map[] && s.processes[p].holds == map[]
    && s.disk == map[ref.at := SettledRecord(NewRecord(ref.payload, k.memoryId(ref), 0), body)] && s.now == 0 && s.untrimmed == 0
    && (ref, body) in s.answers && InVault(k, s, ref) && s.vault.Keys == {k.memoryId(ref)}
    && s.published == {ref} && s.receipts.Keys == {ref}
  }

  /** Nothing has happened yet but starting listeners and asking. */
  ghost predicate Blank(b: State) {
    b.now == 0 && b.disk == map[] && b.vault == map[] && b.published == {} && b.receipts == map[] && b.untrimmed == 0
  }

  lemma FirstCapture(k: Kernel, rule: Rule, b: State, p: nat, ref: CaptureRef, body: Receipt) returns (t: State)
    requires Blank(b) && InRule(rule, b) && p in b.processes && b.processes[p] == Process(0, map[], map[]) && 0 !in b.requests
    requires Unlocked(b) && |Served(b, p)| < k.slots && Describes(body, Applied, k.memoryId(ref))
    ensures Leads(k, rule, b, t) && AfterOne(k, t, p, ref, body) && t.requests == b.requests && t.processes.Keys == b.processes.Keys
    ensures forall q <- b.processes.Keys :: q != p ==> t.processes[q] == b.processes[q]
  {
    hide Leads, NewRecord, SettledRecord, Describes, With, Served, Unlocked;
    assert b.disk.Keys + {ref.at} == {ref.at};
    var total, v := CaptureEnds(k, rule, b, p, 0, ref, body);
    PlacingShape(k, b, ref);
    hide Placing;
    t := Ended(k, v, p, ref, 0, total, body);
  }

  /** The key looks unused once its record has outlived its own retention. */
  lemma Expires(k: Kernel, s: State, p: nat, ref: CaptureRef, body: Receipt)
    requires AfterOne(k, s, p, ref, body)
    ensures Fresh(StoreOf(s.(now := RESERVATION_TTL), p), ref.at, RESERVATION_TTL)
  {
    NewRecordShape(ref.payload, k.memoryId(ref), 0);
  }

  lemma Waits(k: Kernel, rule: Rule, s: State, now: int)
    requires InRule(rule, s) && (rule.timely ==> InTime(s, s.(now := now)))
    ensures Leads(k, rule, s, s.(now := now))
  {
    hide Leads;
    OneStep(k, rule, s, Tick(now), s.(now := now));
  }

  /** A second capture under a key whose first has been forgotten. */
  lemma AfterForgetting(k: Kernel, one: CaptureRef, two: CaptureRef, body: Receipt, other: Receipt) returns (t: State)
    requires k.slots > 0 && one.at == two.at && (one == two || k.memoryId(one) != k.memoryId(two))
    requires Describes(body, Applied, k.memoryId(one)) && Describes(other, Applied, k.memoryId(two))
    ensures Leads(k, Rule(0, true), NOTHING, t)
    ensures (one, body) in t.answers && (two, other) in t.answers && InVault(k, t, one) && InVault(k, t, two) && one in t.forgotten
  {
    hide Leads, Describes, InVault, NewRecord, SettledRecord;
    var rule := Rule(0, true);
    var b := Listening({0});
    StartsListening(k, rule);
    assert Served(b, 0) == {};
    var s := FirstCapture(k, rule, b, 0, one, body);
    var w := Drops(k, s, one, body);
    Then(k, rule, NOTHING, b, s);
    Then(k, rule, NOTHING, s, w);
    hide InRule, AfterOne;
    t := SecondCapture(k, rule, w, 0, one, two, other);
    Then(k, rule, NOTHING, w, t);
  }

  lemma Drops(k: Kernel, s: State, ref: CaptureRef, body: Receipt) returns (w: State)
    requires AfterOne(k, s, 0, ref, body) && s.processes.Keys == {0} && s.requests == map[]
    ensures Leads(k, Rule(0, true), s, w) && InRule(Rule(0, true), w)
    ensures w.processes == s.processes && w.requests == map[] && w.published == {} && w.receipts == map[] && w.untrimmed == 0
    ensures w.processes[0].pending == map[] && w.processes[0].holds == map[] && w.answers == s.answers && ref in w.forgotten
    ensures w.disk.Keys == {ref.at} && Fresh(StoreOf(w, 0), ref.at, w.now) && w.vault.Keys == {k.memoryId(ref)} && InVault(k, w, ref)
  {
    hide Leads;
    var rule := Rule(0, true);
    Expires(k, s, 0, ref, body);
    var u := s.(published := s.published - {ref}, receipts := s.receipts - {ref}, forgotten := s.forgotten + {ref});
    OneStep(k, rule, s, ForgetPublication(ref), u);
    w := u.(now := RESERVATION_TTL);
    Waits(k, rule, u, RESERVATION_TTL);
    Then(k, rule, s, u, w);
    assert w.receipts.Keys == {};
  }

  lemma SecondCapture(k: Kernel, rule: Rule, b: State, p: nat, one: CaptureRef, two: CaptureRef, other: Receipt) returns (t: State)
    requires k.slots > 0 && InRule(rule, b) && p in b.processes && b.processes[p].pending == map[] && b.processes[p].holds == map[]
    requires b.requests == map[] && b.published == {} && b.receipts == map[] && b.untrimmed == 0
    requires b.disk.Keys == {two.at} && Fresh(StoreOf(b, p), two.at, b.now) && b.vault.Keys == {k.memoryId(one)} && InVault(k, b, one)
    requires one == two || k.memoryId(one) != k.memoryId(two)
    requires Describes(other, Applied, k.memoryId(two))
    ensures Leads(k, rule, b, t) && b.answers <= t.answers && (two, other) in t.answers && t.forgotten == b.forgotten
    ensures InVault(k, t, one) && InVault(k, t, two)
  {
    hide Leads, Describes, NewRecord, SettledRecord, Fresh;
    assert Served(b, p) == {};
    assert b.disk.Keys + {two.at} == {two.at};
    var total, v := CaptureEnds(k, rule, b, p, 0, two, other);
    PlacingShape(k, b, two);
    hide Placing;
    t := Ended(k, v, p, two, b.now, total, other);
  }

  /** Identity of applied answers rests on the publication being kept: any two
      applied bodies are both the answer to one capture in some run of one listener
      that drops its publication in between. */
  lemma ForgettingChangesTheAnswer(k: Kernel, ref: CaptureRef, body: Receipt, other: Receipt)
    returns (states: seq<State>, labels: seq<Label>)
    requires k.slots > 0 && Describes(body, Applied, k.memoryId(ref)) && Describes(other, Applied, k.memoryId(ref))
    ensures Run(k, states, labels)
    ensures (ref, body) in states[|labels|].answers && (ref, other) in states[|labels|].answers && ref in states[|labels|].forgotten
  {
    hide Leads, Path, Run;
    var t := AfterForgetting(k, ref, ref, body, other);
    states, labels := IsRun(k, Rule(0, true), t);
  }

  /** So does one capture per key: any two captures with ids of their own are both
      published under one key by one listener that forgets the first. */
  lemma ForgettingLetsAnotherIn(k: Kernel, one: CaptureRef, two: CaptureRef) returns (states: seq<State>, labels: seq<Label>)
    requires k.slots > 0 && one.at == two.at && k.memoryId(one) != k.memoryId(two)
    ensures Run(k, states, labels) && InVault(k, states[|labels|], one) && InVault(k, states[|labels|], two)
    ensures OneListener(states)
  {
    hide Leads, InVault, Run;
    var t := AfterForgetting(k, one, two, Receipt("", Applied, k.memoryId(one), ""), Receipt("", Applied, k.memoryId(two), ""));
    states, labels := IsRun(k, Rule(0, true), t);
    AtMostTheFirst(k, Rule(0, true), states, labels);
  }

  // ------------------------------------------------- two listeners, or two slots

  /** The second request asked before the first published, and reserves once the
      first one's record is gone. */
  lemma AskedTooEarly(k: Kernel, q: nat, one: CaptureRef, two: CaptureRef) returns (t: State)
    requires q <= 1 && k.slots > 1 - q && one.at == two.at && k.memoryId(one) != k.memoryId(two)
    ensures Leads(k, Rule(q, false), NOTHING, t) && InVault(k, t, one) && InVault(k, t, two)
  {
    hide Leads, InVault, NewRecord, SettledRecord;
    var rule := Rule(q, false);
    var l := Listening({0} + {q});
    StartsListening(k, rule);
    if q == 1 {
      BootsOn(k, rule, {0}, 1);
      Then(k, rule, NOTHING, Listening({0}), l);
    } else {
      assert {0} + {q} == {0};
    }
    assert Served(l, q) == {};
    Begins(k, rule, l, q, 1, two, None, Receipt("", Rejected, "", ""));
    var b := With(l, q, 1, two, 0, Asked(false));
    Then(k, rule, NOTHING, l, b);
    assert Served(b, 0) == if q == 0 then {1} else {};
    var body, other := Receipt("", Applied, k.memoryId(one), ""), Receipt("", Applied, k.memoryId(two), "");
    var s := FirstCapture(k, rule, b, 0, one, body);
    Then(k, rule, NOTHING, b, s);
    var w := s.(now := RESERVATION_TTL);
    Waits(k, rule, s, RESERVATION_TTL);
    Then(k, rule, NOTHING, s, w);
    Expires(k, s, 0, one, body);
    assert InVault(k, w, one) by {
      SameMemory(k, s, w, one);
    }
    assert w.requests == map[1 := Request(q, two, 0, Asked(false))];
    assert Fresh(StoreOf(w, q), two.at, w.now) by {
      SameFresh(StoreOf(w, 0), StoreOf(w, q), two.at, w.now);
    }
    t := LateCapture(k, rule, w, q, one, two, other);
    Then(k, rule, NOTHING, w, t);
  }

  lemma SameMemory(k: Kernel, s: State, t: State, ref: CaptureRef)
    requires InVault(k, s, ref) && t.vault == s.vault
    ensures InVault(k, t, ref)
  {
  }

  lemma SameFresh(a: Store, b: Store, at: KeyRef, now: int)
    requires Fresh(a, at, now) && a.disk == b.disk
    ensures Fresh(b, at, now)
  {
  }

  lemma LateCapture(k: Kernel, rule: Rule, w: State, q: nat, one: CaptureRef, two: CaptureRef, other: Receipt) returns (t: State)
    requires one.at == two.at && k.memoryId(one) != k.memoryId(two) && Describes(other, Applied, k.memoryId(two))
    requires InRule(rule, w) && q in w.processes && w.processes[q].pending == map[] && w.processes[q].holds == map[]
    requires w.requests == map[1 := Request(q, two, 0, Asked(false))] && w.receipts.Keys == {one} && w.untrimmed == 0
    requires w.disk.Keys == {two.at} && Fresh(StoreOf(w, q), two.at, w.now) && w.vault.Keys == {k.memoryId(one)} && InVault(k, w, one)
    ensures Leads(k, rule, w, t) && InVault(k, t, one) && InVault(k, t, two)
  {
    hide Leads, Describes, NewRecord, SettledRecord, Fresh;
    var b := w.(requests := map[]);
    assert w == With(b, q, 1, two, 0, Asked(false));
    assert b.disk.Keys + {two.at} == {two.at};
    var total, v := EndsApplied(k, rule, b, q, 1, two, 0, false, other);
    PlacingShape(k, b, two);
    hide Placing;
    t := Ended(k, v, q, two, b.now, total, other);
  }

  /** One slot in each of two listeners lets two captures in under one key. */
  lemma TwoListenersLetAnotherIn(k: Kernel, one: CaptureRef, two: CaptureRef) returns (states: seq<State>, labels: seq<Label>)
    requires k.slots == MAX_IN_FLIGHT_KERNEL_CALLS && one.at == two.at && k.memoryId(one) != k.memoryId(two)
    ensures Run(k, states, labels) && InVault(k, states[|labels|], one) && InVault(k, states[|labels|], two)
    ensures forall l <- labels :: !l.ForgetPublication?
  {
    hide Leads, InVault, Run;
    var t := AskedTooEarly(k, 1, one, two);
    states, labels := IsRun(k, Rule(1, false), t);
    NothingDropped(k, Rule(1, false), states, labels);
  }

  /** ... and so would two slots in one. */
  lemma TwoSlotsLetAnotherIn(k: Kernel, one: CaptureRef, two: CaptureRef) returns (states: seq<State>, labels: seq<Label>)
    requires k.slots >= 2 && one.at == two.at && k.memoryId(one) != k.memoryId(two)
    ensures Run(k, states, labels) && InVault(k, states[|labels|], one) && InVault(k, states[|labels|], two)
    ensures OneListener(states) && forall l <- labels :: !l.ForgetPublication?
  {
    hide Leads, InVault, Run;
    var t := AskedTooEarly(k, 0, one, two);
    states, labels := IsRun(k, Rule(0, false), t);
    AtMostTheFirst(k, Rule(0, false), states, labels);
    NothingDropped(k, Rule(0, false), states, labels);
  }

  // ------------------------------------------ two listeners, both of them timely

  const TAKEN_AT := PENDING_SWEEP_AFTER - 1

  function Elsewhere(at: KeyRef): KeyRef {
    KeyRef(at.device, at.key + ".")
  }

  const TIMELY := Rule(1, false, true)

  ghost function First(k: Kernel, one: CaptureRef): Record {
    NewRecord(one.payload, k.memoryId(one), 0)
  }

  ghost function Second(k: Kernel, one: CaptureRef): Record {
    NewRecord(one.payload, k.memoryId(one), TAKEN_AT)
  }

  /** Listener 1 still counts a claim that was put down; its record is this one. */
  ghost function Behind(one: CaptureRef, total: nat, now: int, record: Record): State {
    NOTHING.(now := now, disk := map[one.at := record],
             processes := map[0 := Process(0, map[], map[]), 1 := Process(total, map[one.at := 0], map[])])
  }

  lemma PutsDown(k: Kernel, one: CaptureRef, total: nat)
    ensures Leads(k, TIMELY, Holding(k, Listening({0, 1}), 1, 0, one, 0, total, Publishing(ClaimBy(k, Listening({0, 1}), one))),
                  Behind(one, total, 0, First(k, one)))
  {
    hide Leads, NewRecord;
    var b := Listening({0, 1});
    var h, t := Holding(k, b, 1, 0, one, 0, total, Publishing(ClaimBy(k, b, one))), Behind(one, total, 0, First(k, one));
    assert h.requests - {0} == map[] && h.processes[1].holds - {one.at} == map[];
    assert h.processes[1 := h.processes[1].(holds := map[])] == t.processes;
    assert h.disk == t.disk;
    assert Finish(h, 0) == t;
    hide Holding, Behind;
    FailLeads(k, TIMELY, h, 0, t);
  }

  /** A claim that its request gave up stays pending, on disk and in memory. */
  lemma GivesUp(k: Kernel, one: CaptureRef) returns (total: nat)
    requires k.slots == MAX_IN_FLIGHT_KERNEL_CALLS
    ensures Leads(k, TIMELY, NOTHING, Behind(one, total, 0, First(k, one)))
  {
    hide Leads, NewRecord, Holding, With, Behind;
    var b := Listening({0, 1});
    StartsListening(k, TIMELY);
    assert {0} + {1} == {0, 1};
    BootsOn(k, TIMELY, {0}, 1);
    Then(k, TIMELY, NOTHING, Listening({0}), b);
    assert Served(b, 1) == {};
    Begins(k, TIMELY, b, 1, 0, one, None, Receipt("", Rejected, "", ""));
    assert b.disk.Keys + {one.at} == {one.at};
    total := Reaches(k, TIMELY, b, 1, 0, one, 0, false);
    PutsDown(k, one, total);
    var a, h := With(b, 1, 0, one, 0, Asked(false)), Holding(k, b, 1, 0, one, 0, total, Publishing(ClaimBy(k, b, one)));
    hide Listening;
    Then(k, TIMELY, NOTHING, b, a);
    Then(k, TIMELY, NOTHING, a, h);
    Then(k, TIMELY, NOTHING, h, Behind(one, total, 0, First(k, one)));
  }

  /** Listener 0 has taken the key over, and is about to publish. */
  ghost function Taken(k: Kernel, one: CaptureRef, total: nat, now: int, stage: Stage): State {
    Behind(one, total, now, Second(k, one)).(
      requests := map[1 := Request(0, one, TAKEN_AT, stage)],
      processes := map[0 := Process(0, map[one.at := TAKEN_AT], map[one.at := 1]), 1 := Process(total, map[one.at := 0], map[])])
  }

  lemma TakeoverIsDue(k: Kernel, one: CaptureRef)
    ensures var st := Store(map[one.at := First(k, one)], 0, map[]);
            && Reserve(st, one.at, one.payload, k.memoryId(one), TAKEN_AT, Faults(Lands, {}))
               == (Store(map[one.at := Second(k, one)], 0, map[one.at := TAKEN_AT]), Claimed(Second(k, one), true))
  {
    var r := First(k, one);
    assert Stamp(0) == 0;
    assert r.reservedAt == 0 && r.state == Pending && !Collectable(r, TAKEN_AT) && TakeoverDue(r, TAKEN_AT);
    assert map[one.at := r][one.at := Second(k, one)] == map[one.at := Second(k, one)];
  }

  lemma TakesKey(k: Kernel, one: CaptureRef, total: nat)
    ensures var b, c := Behind(one, total, TAKEN_AT, First(k, one)), Claim(Second(k, one), true);
            Leads(k, TIMELY, With(b, 0, 1, one, TAKEN_AT, Asked(false)), Taken(k, one, total, TAKEN_AT, Trimming(c)))
  {
    hide Leads, First, Second, Reserve;
    var b, c, refusal := Behind(one, total, TAKEN_AT, First(k, one)), Claim(Second(k, one), true), Receipt("", Rejected, "", "");
    var a, t := With(b, 0, 1, one, TAKEN_AT, Asked(false)), Taken(k, one, total, TAKEN_AT, Trimming(c));
    TakeoverIsDue(k, one);
    var st := Store(map[one.at := Second(k, one)], 0, map[one.at := TAKEN_AT]);
    assert StoreOf(a, 0) == Store(map[one.at := First(k, one)], 0, map[]);
    assert a.requests == map[1 := Request(0, one, TAKEN_AT, Asked(false))];
    assert t == Advance(Hold(WithStore(a, 0, st), 0, one.at, 1), 1, Trimming(c)) by {
      assert Hold(WithStore(a, 0, st), 0, one.at, 1).processes == t.processes;
    }
    assert a.processes.Keys == t.processes.Keys == {0, 1} && one.at !in a.processes[0].holds && Unlocked(a);
    hide Taken, With, Behind, Unlocked, StoreOf, WithStore, Hold, Advance;
    assert ReserveStep(k, a, 1, Faults(Lands, {}), refusal, t);
    ReserveLeads(k, TIMELY, a, 1, refusal, t);
  }

  /** Nothing to trim in a store with one file. */
  lemma TrimsOne(k: Kernel, s: State, p: nat, r: nat, c: Claim, stage: Stage)
    requires InRule(TIMELY, s) && r in s.requests && s.requests[r].process == p && s.requests[r].stage == Trimming(c) && p in s.processes
    requires |s.disk| <= MAX_RESERVATIONS && s.untrimmed == 0 && stage == if c.takenOver then Checking(c) else Authorizing(c)
    ensures Leads(k, TIMELY, s, Advance(s, r, stage))
  {
    hide Leads;
    var t := Advance(s, r, stage);
    TrimIsIdle(StoreOf(s, p), s.requests[r].ref.at);
    KeepsStore(s, p);
    assert t == t.(untrimmed := 0);
    hide TrimVictims, Trim, WithStore, StoreOf;
    assert TrimStep(s, r, {}, {}, t);
    TrimLeads(k, TIMELY, s, r, {}, t);
  }

  lemma AsksBehind(k: Kernel, one: CaptureRef, total: nat)
    requires k.slots == MAX_IN_FLIGHT_KERNEL_CALLS
    ensures var b := Behind(one, total, TAKEN_AT, First(k, one));
            Leads(k, TIMELY, b, With(b, 0, 1, one, TAKEN_AT, Asked(false)))
  {
    hide Leads, First, With;
    var b := Behind(one, total, TAKEN_AT, First(k, one));
    assert Served(b, 0) == {};
    Begins(k, TIMELY, b, 0, 1, one, None, Receipt("", Rejected, "", ""));
  }

  lemma TakesOver(k: Kernel, one: CaptureRef, total: nat)
    requires k.slots == MAX_IN_FLIGHT_KERNEL_CALLS
    ensures Leads(k, TIMELY, Behind(one, total, TAKEN_AT, First(k, one)), Taken(k, one, total, TAKEN_AT, Publishing(Claim(Second(k, one), true))))
  {
    hide Leads, First, Second;
    var b, c := Behind(one, total, TAKEN_AT, First(k, one)), Claim(Second(k, one), true);
    AsksBehind(k, one, total);
    hide Behind, With;
    var a := With(b, 0, 1, one, TAKEN_AT, Asked(false));
    var t1, t2 := Taken(k, one, total, TAKEN_AT, Trimming(c)), Taken(k, one, total, TAKEN_AT, Checking(c));
    var t3, t4 := Taken(k, one, total, TAKEN_AT, Authorizing(c)), Taken(k, one, total, TAKEN_AT, Publishing(c));
    TakesKey(k, one, total);
    TrimsOne(k, t1, 0, 1, c, Checking(c));
    ChecksTaken(k, one, total, c);
    assert Advance(t1, 1, Checking(c)) == t2;
    hide Taken, Advance;
    Then(k, TIMELY, b, a, t1);
    Then(k, TIMELY, b, t1, t2);
    Then(k, TIMELY, b, t2, t3);
    Then(k, TIMELY, b, t3, t4);
  }

  lemma ChecksTaken(k: Kernel, one: CaptureRef, total: nat, c: Claim)
    ensures Leads(k, TIMELY, Taken(k, one, total, TAKEN_AT, Checking(c)), Taken(k, one, total, TAKEN_AT, Authorizing(c)))
    ensures Leads(k, TIMELY, Taken(k, one, total, TAKEN_AT, Authorizing(c)), Taken(k, one, total, TAKEN_AT, Publishing(c)))
  {
    hide Leads, Second;
    var refusal := Receipt("", Rejected, "", "");
    var t2, t3, t4 := Taken(k, one, total, TAKEN_AT, Checking(c)), Taken(k, one, total, TAKEN_AT, Authorizing(c)), Taken(k, one, total, TAKEN_AT, Publishing(c));
    assert Advance(t2, 1, Authorizing(c)) == t3 && Advance(t3, 1, Publishing(c)) == t4;
    OneStep(k, TIMELY, t2, Check(1, refusal), t3);
    OneStep(k, TIMELY, t3, Authorize(1, true, refusal), t4);
  }

  /** The sweep of listener 1 goes by its own memory of the claim. */
  lemma SweepsLive(at: KeyRef, total: nat, record: Record)
    ensures Sweep(Store(map[at := record], total, map[at := 0]), PENDING_SWEEP_AFTER, {}) == Store(map[], Minus(total, 1), map[])
  {
    var st := Store(map[at := record], total, map[at := 0]);
    var stale := Stale(st, PENDING_SWEEP_AFTER);
    assert stale == {at} && stale - {} == stale;
    assert st.disk - stale == map[] && st.pending - stale == map[];
  }

  lemma ReservesSwept(one: CaptureRef, total: nat, record: Record, fresh_: Record, identity: Payload, id: string)
    requires fresh_ == NewRecord(identity, id, PENDING_SWEEP_AFTER)
    ensures var st, other := Store(map[one.at := record], total, map[one.at := 0]), Elsewhere(one.at);
            Reserve(st, other, identity, id, PENDING_SWEEP_AFTER, Faults(Lands, {}))
            == (Store(map[other := fresh_], Minus(total, 1) + 1, map[other := PENDING_SWEEP_AFTER]), Claimed(fresh_, false))
  {
    hide Sweep, NewRecord, Minus;
    assert |Elsewhere(one.at).key| == |one.at.key| + 1;
    SweepsLive(one.at, total, record);
  }

  /** The record of the live claim is gone; another key's is there instead. */
  ghost function Swept(k: Kernel, one: CaptureRef, total: nat, three: CaptureRef, holds: map<KeyRef, nat>, requests: map<nat, Request>): State {
    Taken(k, one, total, PENDING_SWEEP_AFTER, Publishing(Claim(Second(k, one), true))).(
      disk := map[three.at := NewRecord(three.payload, k.memoryId(three), PENDING_SWEEP_AFTER)],
      requests := map[1 := Request(0, one, TAKEN_AT, Publishing(Claim(Second(k, one), true)))] + requests,
      processes := map[0 := Process(0, map[one.at := TAKEN_AT], map[one.at := 1]),
                       1 := Process(Minus(total, 1) + 1, map[three.at := PENDING_SWEEP_AFTER], holds)])
  }

  lemma KeySwept(k: Kernel, one: CaptureRef, total: nat, three: CaptureRef, c: Claim, st: Store, a: State, t: State)
    requires c.record == NewRecord(three.payload, k.memoryId(three), PENDING_SWEEP_AFTER)
    requires st == Store(map[three.at := c.record], Minus(total, 1) + 1, map[three.at := PENDING_SWEEP_AFTER])
    requires a == With(Taken(k, one, total, PENDING_SWEEP_AFTER, Publishing(Claim(Second(k, one), true))), 1, 2, three, PENDING_SWEEP_AFTER, Asked(false))
    requires t == Swept(k, one, total, three, map[three.at := 2], map[2 := Request(1, three, PENDING_SWEEP_AFTER, Trimming(c))])
    ensures a.processes.Keys == t.processes.Keys == {0, 1} && three.at !in a.processes[1].holds && Unlocked(a)
    ensures a.now == PENDING_SWEEP_AFTER && 2 in a.requests && a.requests[2] == Request(1, three, PENDING_SWEEP_AFTER, Asked(false))
    ensures t == Advance(Hold(WithStore(a, 1, st), 1, three.at, 2), 2, Trimming(c))
  {
    hide NewRecord, Second, Minus;
    var u := Hold(WithStore(a, 1, st), 1, three.at, 2);
    assert u.processes == t.processes;
    assert Advance(u, 2, Trimming(c)).requests == t.requests;
  }

  lemma SweepsKey(k: Kernel, one: CaptureRef, total: nat, three: CaptureRef, record: Record)
    requires three.at == Elsewhere(one.at) && record == NewRecord(three.payload, k.memoryId(three), PENDING_SWEEP_AFTER)
    ensures var b := Taken(k, one, total, PENDING_SWEEP_AFTER, Publishing(Claim(Second(k, one), true)));
            Leads(k, TIMELY, With(b, 1, 2, three, PENDING_SWEEP_AFTER, Asked(false)),
                  Swept(k, one, total, three, map[three.at := 2], map[2 := Request(1, three, PENDING_SWEEP_AFTER, Trimming(Claim(record, false)))]))
  {
    hide Leads, NewRecord, Second, Reserve;
    var b, refusal := Taken(k, one, total, PENDING_SWEEP_AFTER, Publishing(Claim(Second(k, one), true))), Receipt("", Rejected, "", "");
    var c := Claim(record, false);
    var a := With(b, 1, 2, three, PENDING_SWEEP_AFTER, Asked(false));
    var t := Swept(k, one, total, three, map[three.at := 2], map[2 := Request(1, three, PENDING_SWEEP_AFTER, Trimming(c))]);
    ReservesSwept(one, total, Second(k, one), record, three.payload, k.memoryId(three));
    var st := Store(map[three.at := record], Minus(total, 1) + 1, map[three.at := PENDING_SWEEP_AFTER]);
    assert StoreOf(a, 1) == Store(map[one.at := Second(k, one)], total, map[one.at := 0]);
    KeySwept(k, one, total, three, c, st, a, t);
    hide Taken, With, Swept, Unlocked, StoreOf, WithStore, Hold, Advance;
    assert ReserveStep(k, a, 2, Faults(Lands, {}), refusal, t);
    ReserveLeads(k, TIMELY, a, 2, refusal, t);
  }

  lemma PutsSweptDown(k: Kernel, one: CaptureRef, total: nat, three: CaptureRef, c: Claim)
    ensures Leads(k, TIMELY, Swept(k, one, total, three, map[three.at := 2], map[2 := Request(1, three, PENDING_SWEEP_AFTER, Authorizing(c))]),
                  Swept(k, one, total, three, map[], map[]))
  {
    hide Leads, NewRecord, Second;
    var own := map[three.at := 2];
    var s, t := Swept(k, one, total, three, own, map[2 := Request(1, three, PENDING_SWEEP_AFTER, Authorizing(c))]), Swept(k, one, total, three, map[], map[]);
    assert s.requests - {2} == t.requests && own - {three.at} == map[];
    assert s.processes[1 := s.processes[1].(holds := map[])] == t.processes;
    assert Finish(s, 2) == t;
    hide Swept;
    FailLeads(k, TIMELY, s, 2, t);
  }

  lemma SweptOn(k: Kernel, one: CaptureRef, total: nat, three: CaptureRef, c: Claim)
    ensures Advance(Swept(k, one, total, three, map[three.at := 2], map[2 := Request(1, three, PENDING_SWEEP_AFTER, Trimming(c))]), 2, Authorizing(c))
            == Swept(k, one, total, three, map[three.at := 2], map[2 := Request(1, three, PENDING_SWEEP_AFTER, Authorizing(c))])
  {
    hide NewRecord, Second;
    var s := Swept(k, one, total, three, map[three.at := 2], map[2 := Request(1, three, PENDING_SWEEP_AFTER, Trimming(c))]);
    var t := Swept(k, one, total, three, map[three.at := 2], map[2 := Request(1, three, PENDING_SWEEP_AFTER, Authorizing(c))]);
    assert Advance(s, 2, Authorizing(c)).requests == t.requests;
  }

  lemma SweepsAway(k: Kernel, one: CaptureRef, total: nat, three: CaptureRef)
    requires k.slots == MAX_IN_FLIGHT_KERNEL_CALLS && three.at == Elsewhere(one.at)
    ensures Leads(k, TIMELY, Taken(k, one, total, PENDING_SWEEP_AFTER, Publishing(Claim(Second(k, one), true))), Swept(k, one, total, three, map[], map[]))
  {
    hide Leads, NewRecord, Second, Elsewhere;
    var b := Taken(k, one, total, PENDING_SWEEP_AFTER, Publishing(Claim(Second(k, one), true)));
    var record := NewRecord(three.payload, k.memoryId(three), PENDING_SWEEP_AFTER);
    var c := Claim(record, false);
    assert Served(b, 1) == {};
    Begins(k, TIMELY, b, 1, 2, three, None, Receipt("", Rejected, "", ""));
    var a := With(b, 1, 2, three, PENDING_SWEEP_AFTER, Asked(false));
    var own := map[three.at := 2];
    var t1 := Swept(k, one, total, three, own, map[2 := Request(1, three, PENDING_SWEEP_AFTER, Trimming(c))]);
    var t2 := Swept(k, one, total, three, own, map[2 := Request(1, three, PENDING_SWEEP_AFTER, Authorizing(c))]);
    SweepsKey(k, one, total, three, record);
    TrimsOne(k, t1, 1, 2, c, Authorizing(c));
    SweptOn(k, one, total, three, c);
    PutsSweptDown(k, one, total, three, c);
    hide Served, Unlocked, Taken, With, Swept, Advance;
    Then(k, TIMELY, b, a, t1);
    Then(k, TIMELY, b, t1, t2);
    Then(k, TIMELY, b, t2, Swept(k, one, total, three, map[], map[]));
  }

  /** With the record gone the key looks unused to listener 1. */
  lemma LooksFree(k: Kernel, one: CaptureRef, total: nat, three: CaptureRef)
    requires three.at == Elsewhere(one.at)
    ensures MayReserve(Swept(k, one, total, three, map[], map[]), 1, one.at)
    ensures Served(Swept(k, one, total, three, map[], map[]), 1) == {}
  {
    var s := Swept(k, one, total, three, map[], map[]);
    assert |three.at.key| == |one.at.key| + 1;
    var u := Cleared(StoreOf(s, 1), one.at, s.now, {});
    assert u.pending.Keys <= {three.at};
    Subset(u.pending.Keys, {three.at});
  }

  lemma PublishesToo(k: Kernel, s: State, one: CaptureRef, two: CaptureRef, c: Claim, body: Receipt) returns (t: State)
    requires InRule(TIMELY, s) && 1 in s.requests && s.requests[1].ref == one && s.requests[1].stage == Publishing(c)
    requires c.record.memoryId == k.memoryId(one) && k.memoryId(one) !in s.vault && InVault(k, s, two)
    requires Describes(body, Applied, k.memoryId(one))
    ensures Leads(k, TIMELY, s, t) && InVault(k, t, one) && InVault(k, t, two)
  {
    hide Leads, Describes;
    t := Advance(Published(s, one, k.memoryId(one)), 1, Recording(c, body));
    PublishLeads(k, TIMELY, s, 1, body, t);
  }

  /** Time passes only while no request is as old as a takeover, and goes forward. */
  ghost predicate AllInTime(states: seq<State>, labels: seq<Label>)
    requires |states| == |labels| + 1
  {
    forall i {:trigger labels[i]} :: 0 <= i < |labels| && labels[i].Tick? ==> InTime(states[i], states[i + 1])
  }

  lemma PathInTime(k: Kernel, states: seq<State>, labels: seq<Label>)
    requires Path(k, TIMELY, states, labels)
    ensures AllInTime(states, labels)
  {
    hide Step, InTime;
    forall i | 0 <= i < |labels| && labels[i].Tick?
      ensures InTime(states[i], states[i + 1])
    {
      assert Obeys(TIMELY, states[i], labels[i], states[i + 1]);
    }
  }

  /** Nobody has to be slow for two listeners to let two captures in under one key.
      One of them remembers a claim it gave up long ago, which the other has since
      taken over; its next sweep deletes the record the other is working under, and
      it lets a different capture have the key at once. */
  lemma StaleSweepLetsAnotherIn(k: Kernel, one: CaptureRef, two: CaptureRef) returns (states: seq<State>, labels: seq<Label>)
    requires k.slots == MAX_IN_FLIGHT_KERNEL_CALLS && one.at == two.at && k.memoryId(one) != k.memoryId(two)
    ensures Run(k, states, labels) && InVault(k, states[|labels|], one) && InVault(k, states[|labels|], two)
    ensures AllInTime(states, labels) && forall l <- labels :: !l.ForgetPublication?
  {
    hide Leads, InVault, Run, Behind, Swept;
    var three := CaptureRef(Elsewhere(one.at), one.payload);
    var total := GivesUp(k, one);
    UpToTheSweep(k, one, total, three);
    var t := BothPublish(k, one, two, total, three);
    var s, z := Behind(one, total, 0, First(k, one)), Swept(k, one, total, three, map[], map[]);
    Then(k, TIMELY, NOTHING, s, z);
    Then(k, TIMELY, NOTHING, z, t);
    states, labels := IsRun(k, TIMELY, t);
    PathInTime(k, states, labels);
    NothingDropped(k, TIMELY, states, labels);
  }

  lemma UpToTheSweep(k: Kernel, one: CaptureRef, total: nat, three: CaptureRef)
    requires k.slots == MAX_IN_FLIGHT_KERNEL_CALLS && three.at == Elsewhere(one.at)
    ensures Leads(k, TIMELY, Behind(one, total, 0, First(k, one)), Swept(k, one, total, three, map[], map[]))
  {
    hide Leads, First, Second, Elsewhere;
    var c := Claim(Second(k, one), true);
    var s0, s1 := Behind(one, total, 0, First(k, one)), Behind(one, total, TAKEN_AT, First(k, one));
    Waits(k, TIMELY, s0, TAKEN_AT);
    TakesOver(k, one, total);
    var s2, s3 := Taken(k, one, total, TAKEN_AT, Publishing(c)), Taken(k, one, total, PENDING_SWEEP_AFTER, Publishing(c));
    Waits(k, TIMELY, s2, PENDING_SWEEP_AFTER);
    SweepsAway(k, one, total, three);
    hide Behind, Taken, Swept;
    Then(k, TIMELY, s0, s1, s2);
    Then(k, TIMELY, s0, s2, s3);
    Then(k, TIMELY, s0, s3, Swept(k, one, total, three, map[], map[]));
  }

  lemma BothPublish(k: Kernel, one: CaptureRef, two: CaptureRef, total: nat, three: CaptureRef) returns (t: State)
    requires k.slots == MAX_IN_FLIGHT_KERNEL_CALLS && one.at == two.at && k.memoryId(one) != k.memoryId(two)
    requires three.at == Elsewhere(one.at)
    ensures Leads(k, TIMELY, Swept(k, one, total, three, map[], map[]), t) && InVault(k, t, one) && InVault(k, t, two)
  {
    hide Leads, NewRecord, MayReserve, Elsewhere, Served;
    var z := Swept(k, one, total, three, map[], map[]);
    LooksFree(k, one, total, three);
    var u := CaptureGoesThrough(k, TIMELY, z, 1, 3, two, Receipt("", Applied, k.memoryId(two), ""));
    NewRecordShape(one.payload, k.memoryId(one), TAKEN_AT);
    t := PublishesToo(k, u, one, two, Claim(Second(k, one), true), Receipt("", Applied, k.memoryId(one), ""));
    Then(k, TIMELY, z, u, t);
  }

  // -------------------------------------------------------- a trim that is lost

  /** The key of the n-th capture: n letters long, so no two are the same. */
  function Key(n: nat): KeyRef {
    KeyRef("", seq(n, _ => 'x'))
  }

  lemma KeysDiffer(m: nat, n: nat)
    requires Key(m) == Key(n)
    ensures m == n
  {
    assert |Key(m).key| == m && |Key(n).key| == n;
  }

  /** A listener at rest over n settled files, none of them old. */
  ghost predicate Full(s: State, n: nat) {
    && s.now == 0 && s.requests == map[] && s.published == {} && s.untrimmed == 0 && s.processes.Keys == {0}
    && s.processes[0].pending == map[] && s.processes[0].holds == map[]
    && |s.disk| == n && (forall at <- s.disk.Keys :: exists i: nat :: i < n && at == Key(i))
    && forall at <- s.disk.Keys :: !Collectable(s.disk[at], 0) && s.disk[at].state == Settled
  }

  lemma KeyIsNew(s: State, n: nat)
    requires Full(s, n)
    ensures Key(n) !in s.disk
  {
    if Key(n) in s.disk {
      var i: nat :| i < n && Key(n) == Key(i);
      KeysDiffer(n, i);
    }
  }

  lemma {:induction false} FillsUp(k: Kernel, n: nat) returns (s: State)
    requires k.slots > 0 && n <= MAX_RESERVATIONS
    ensures Leads(k, Rule(0, false), NOTHING, s) && Full(s, n)
    decreases n
  {
    hide Leads, NewRecord, SettledRecord;
    var rule := Rule(0, false);
    if n == 0 {
      s := Listening({0});
      StartsListening(k, rule);
    } else {
      hide Full;
      var b := FillsUp(k, n - 1);
      s := FillsOne(k, b, n - 1);
      Then(k, rule, NOTHING, b, s);
    }
  }

  lemma FillsOne(k: Kernel, b: State, n: nat) returns (s: State)
    requires k.slots > 0 && n < MAX_RESERVATIONS && Full(b, n)
    ensures Leads(k, Rule(0, false), b, s) && Full(s, n + 1)
  {
    hide Leads, NewRecord, SettledRecord, With;
    var rule, ref, body := Rule(0, false), CaptureRef(Key(n), Payload("", "", "", "", "")), Receipt("", Rejected, "", "");
    KeyIsNew(b, n);
    assert Served(b, 0) == {};
    Begins(k, rule, b, 0, 0, ref, None, body);
    assert b.disk.Keys + {ref.at} == b.disk[ref.at := NewRecord(ref.payload, "", 0)].Keys;
    SameCount(b.disk[ref.at := NewRecord(ref.payload, "", 0)], b.disk.Keys + {ref.at});
    var total := EndsRefused(k, rule, b, 0, 0, ref, 0, false, body);
    s := Ended(k, b, 0, ref, 0, total, body);
    Then(k, rule, b, With(b, 0, 0, ref, 0, Asked(false)), s);
    FillsFull(k, b, n, ref, total, body);
  }

  lemma FillsFull(k: Kernel, b: State, n: nat, ref: CaptureRef, total: nat, body: Receipt)
    requires Full(b, n) && ref.at == Key(n)
    ensures Full(Ended(k, b, 0, ref, 0, total, body), n + 1)
  {
    KeyIsNew(b, n);
    NewRecordShape(ref.payload, k.memoryId(ref), 0);
    hide NewRecord;
    var s := Ended(k, b, 0, ref, 0, total, body);
    forall at <- s.disk.Keys
      ensures exists i: nat :: i < n + 1 && at == Key(i)
    {
      if at != ref.at {
        assert at in b.disk.Keys;
        var i: nat :| i < n && at == Key(i);
      }
    }
  }

  /** A crash between the write and the trim of a reservation, and a restart. */
  lemma LosesTrim(k: Kernel, b: State) returns (t: State)
    requires k.slots > 0 && Full(b, MAX_RESERVATIONS)
    ensures Leads(k, Rule(0, false), b, t)
    ensures 0 in t.processes && t.processes[0].total == |t.disk| == MAX_RESERVATIONS + 1 && t.untrimmed == 1 && t.requests == map[]
  {
    hide Leads, NewRecord, With;
    var rule, n := Rule(0, false), MAX_RESERVATIONS;
    var ref, body := CaptureRef(Key(n), Payload("", "", "", "", "")), Receipt("", Rejected, "", "");
    KeyIsNew(b, n);
    assert Served(b, 0) == {};
    Begins(k, rule, b, 0, 0, ref, None, body);
    var total := Claims(k, rule, b, 0, 0, ref, 0, false);
    var h := Holding(k, b, 0, 0, ref, 0, total, Trimming(ClaimBy(k, b, ref)));
    Then(k, rule, b, With(b, 0, 0, ref, 0, Asked(false)), h);
    OneOver(k, b, ref);
    t := Restarts(k, h, ref);
    Then(k, rule, b, h, t);
  }

  lemma OneOver(k: Kernel, b: State, ref: CaptureRef)
    requires Full(b, MAX_RESERVATIONS) && ref.at == Key(MAX_RESERVATIONS)
    ensures var disk := b.disk[ref.at := NewRecord(ref.payload, k.memoryId(ref), b.now)];
            |disk| == MAX_RESERVATIONS + 1 && forall at <- disk.Keys :: !Collectable(disk[at], 0)
  {
    KeyIsNew(b, MAX_RESERVATIONS);
    NewRecordShape(ref.payload, k.memoryId(ref), 0);
    SizeUpdate(b.disk, ref.at, NewRecord(ref.payload, k.memoryId(ref), b.now));
  }

  lemma Restarts(k: Kernel, h: State, ref: CaptureRef) returns (t: State)
    requires h.now == 0 && h.processes.Keys == {0} && h.requests.Keys == {0} && h.untrimmed == 0
    requires h.requests[0].process == 0 && h.requests[0].stage.Trimming?
    requires |h.disk| == MAX_RESERVATIONS + 1 && forall at <- h.disk.Keys :: !Collectable(h.disk[at], 0)
    ensures Leads(k, Rule(0, false), h, t)
    ensures 0 in t.processes && t.processes[0].total == |t.disk| == MAX_RESERVATIONS + 1 && t.untrimmed == 1 && t.requests == map[]
  {
    hide Leads, Collectable;
    var rule := Rule(0, false);
    var d := Died(h, 0, {});
    DiesTrimming(h);
    var st := Open(d.disk, 0, {});
    OpensAll(d.disk, 0);
    t := d.(disk := st.disk, processes := d.processes[0 := Process(st.total, st.pending, map[])]);
    hide Died, Open;
    assert CrashStep(h, 0, {}, d) && BootStep(d, 0, {}, t);
    hide CrashStep, BootStep;
    OneStep(k, rule, h, Crash(0, {}), d);
    OneStep(k, rule, d, Boot(0, {}), t);
    Then(k, rule, h, d, t);
  }

  lemma DiesTrimming(h: State)
    requires h.processes.Keys == {0} && h.requests.Keys == {0} && h.untrimmed == 0
    requires h.requests[0].process == 0 && h.requests[0].stage.Trimming?
    ensures var d := Died(h, 0, {});
            d.disk == h.disk && d.requests == map[] && d.processes == map[] && d.untrimmed == 1 && d.now == h.now
  {
    assert CutOff(h, 0) == {0} && h.disk - {} == h.disk;
  }

  /** Opening counts every file where none may be collected. */
  lemma OpensAll(files: map<KeyRef, Record>, now: int)
    requires forall at <- files.Keys :: !Collectable(files[at], now)
    ensures Open(files, now, {}).disk == files && Open(files, now, {}).total == |files|
  {
    hide Collectable;
    assert Kept(files, files.Keys, now) == files.Keys;
    SameCount(files, files.Keys);
    assert files.Keys - files.Keys - {} == {};
  }

  /** A crash after the 513th file is written, and before the trim, leaves one more
      file than the cap, and reopening counts it: the bound on what a census can
      see is attained, in a run in which nothing else goes wrong. */
  lemma LostTrimLeavesOneMore(k: Kernel) returns (states: seq<State>, labels: seq<Label>)
    requires k.slots == MAX_IN_FLIGHT_KERNEL_CALLS
    ensures TidyRun(k, states, labels)
    ensures var s := states[|labels|];
            0 in s.processes && s.processes[0].total == |s.disk| == MAX_RESERVATIONS + 1 && s.untrimmed == 1 && Trimmers(s) == {}
  {
    hide Leads, Full, Run;
    var b := FillsUp(k, MAX_RESERVATIONS);
    var t := LosesTrim(k, b);
    Then(k, Rule(0, false), NOTHING, b, t);
    states, labels := IsRun(k, Rule(0, false), t);
    ObeysTidily(k, states, labels);
  }

  lemma ObeysTidily(k: Kernel, states: seq<State>, labels: seq<Label>)
    requires Path(k, Rule(0, false), states, labels)
    ensures forall i {:trigger labels[i]} :: 0 <= i < |labels| ==> Tidy(states[i], labels[i], states[i + 1])
  {
    hide Step;
    forall i | 0 <= i < |labels|
      ensures Tidy(states[i], labels[i], states[i + 1])
    {
      assert Obeys(Rule(0, false), states[i], labels[i], states[i + 1]);
    }
  }

  // ----------------------------------------------------- a backfilled rejection

  /** A replay that is put in a publication's missing receipt is whatever bytes the
      reservation held: here a refusal, given while the vault was read-only, to a
      capture whose memory had long been in it. */
  lemma BackfillRecordsRefusal(k: Kernel, ref: CaptureRef, refusal: Receipt) returns (states: seq<State>, labels: seq<Label>)
    requires k.slots == MAX_IN_FLIGHT_KERNEL_CALLS && IsRefusal(refusal)
    ensures Run(k, states, labels) && OneListener(states) && forall l <- labels :: !l.ForgetPublication?
    ensures var s := states[|labels|];
            && InVault(k, s, ref) && ref in s.published && ref in s.receipts && s.receipts[ref] == refusal
            && (ref, refusal) in s.answers
  {
    hide Leads, InVault, Run;
    var rule := Rule(0, false);
    StartsListening(k, rule);
    var s := PublishesAndFails(k, ref);
    var u := RefusesLater(k, s, ref, refusal);
    var t := Replays(k, u, ref, refusal);
    Then(k, rule, NOTHING, Listening({0}), s);
    Then(k, rule, NOTHING, s, u);
    Then(k, rule, NOTHING, u, t);
    states, labels := IsRun(k, rule, t);
    AtMostTheFirst(k, rule, states, labels);
    NothingDropped(k, rule, states, labels);
  }

  /** One listener at rest; the capture's memory is published, and no receipt is. */
  ghost predicate Unreceipted(k: Kernel, s: State, ref: CaptureRef) {
    && s.processes.Keys == {0} && s.processes[0].pending.Keys <= {ref.at} && s.processes[0].holds == map[]
    && s.requests == map[] && s.untrimmed == 0 && s.disk.Keys == {ref.at}
    && InVault(k, s, ref) && s.published == {ref} && s.receipts == map[]
  }

  /** The publish lands, and the request fails before anything is recorded. */
  lemma PublishesAndFails(k: Kernel, ref: CaptureRef) returns (t: State)
    requires k.slots == MAX_IN_FLIGHT_KERNEL_CALLS
    ensures Leads(k, Rule(0, false), Listening({0}), t)
    ensures Unreceipted(k, t, ref) && t.now == 0 && t.disk[ref.at] == NewRecord(ref.payload, k.memoryId(ref), 0)
  {
    hide Leads, NewRecord, With;
    var rule, b := Rule(0, false), Listening({0});
    assert Served(b, 0) == {};
    Begins(k, rule, b, 0, 0, ref, None, Receipt("", Rejected, "", ""));
    assert b.disk.Keys + {ref.at} == {ref.at};
    var total := Reaches(k, rule, b, 0, 0, ref, 0, false);
    var h := Holding(k, b, 0, 0, ref, 0, total, Publishing(ClaimBy(k, b, ref)));
    Then(k, rule, b, With(b, 0, 0, ref, 0, Asked(false)), h);
    t := FailsLanded(k, b, ref, total);
    Then(k, rule, b, h, t);
  }

  lemma FailsLanded(k: Kernel, b: State, ref: CaptureRef, total: nat) returns (t: State)
    requires b == Listening({0})
    ensures Leads(k, Rule(0, false), Holding(k, b, 0, 0, ref, 0, total, Publishing(ClaimBy(k, b, ref))), t)
    ensures Unreceipted(k, t, ref) && t.now == 0 && t.disk[ref.at] == NewRecord(ref.payload, k.memoryId(ref), 0)
  {
    NewRecordShape(ref.payload, k.memoryId(ref), 0);
    hide Leads, NewRecord;
    var h := Holding(k, b, 0, 0, ref, 0, total, Publishing(ClaimBy(k, b, ref)));
    var u := PutDown(h, h.requests[0], true);
    PutDownShape(h, h.requests[0], true);
    assert InVault(k, u, ref) && u.published == {ref} && u.receipts == map[];
    hide PutDown, InVault;
    t := Finish(u, 0);
    assert t.requests == map[] && t.processes[0].holds == map[];
    assert InVault(k, t, ref) by {
      SameMemory(k, u, t, ref);
    }
    OneStep(k, Rule(0, false), h, Fail(0, true), t);
  }

  /** The retry finds its record swept away, and the vault read-only. */
  lemma RefusesLater(k: Kernel, s: State, ref: CaptureRef, refusal: Receipt) returns (t: State)
    requires k.slots == MAX_IN_FLIGHT_KERNEL_CALLS && IsRefusal(refusal)
    requires Unreceipted(k, s, ref) && s.now == 0 && s.disk[ref.at] == NewRecord(ref.payload, k.memoryId(ref), 0)
    ensures Leads(k, Rule(0, false), s, t) && Unreceipted(k, t, ref) && t.now == PENDING_SWEEP_AFTER
    ensures t.disk[ref.at] == SettledRecord(NewRecord(ref.payload, k.memoryId(ref), PENDING_SWEEP_AFTER), refusal)
  {
    hide Leads, With, InVault;
    var rule, b := Rule(0, false), s.(now := PENDING_SWEEP_AFTER);
    Waits(k, rule, s, PENDING_SWEEP_AFTER);
    assert Fresh(StoreOf(b, 0), ref.at, b.now);
    assert Served(b, 0) == {};
    hide NewRecord, SettledRecord, Fresh;
    Begins(k, rule, b, 0, 0, ref, Some(ref.payload), refusal);
    assert b.disk.Keys + {ref.at} == {ref.at};
    var total := EndsRefused(k, rule, b, 0, 0, ref, b.now, true, refusal);
    t := Ended(k, b, 0, ref, b.now, total, refusal);
    assert InVault(k, t, ref) by {
      SameMemory(k, s, t, ref);
    }
    Then(k, rule, b, With(b, 0, 0, ref, b.now, Asked(true)), t);
    Then(k, rule, s, b, t);
  }

  /** The next retry is given the refusal again, and it is recorded as the receipt. */
  lemma Replays(k: Kernel, b: State, ref: CaptureRef, refusal: Receipt) returns (t: State)
    requires k.slots == MAX_IN_FLIGHT_KERNEL_CALLS && Unreceipted(k, b, ref) && b.now == PENDING_SWEEP_AFTER
    requires b.disk[ref.at] == SettledRecord(NewRecord(ref.payload, k.memoryId(ref), PENDING_SWEEP_AFTER), refusal)
    ensures Leads(k, Rule(0, false), b, t) && InVault(k, t, ref) && ref in t.published
    ensures ref in t.receipts && t.receipts[ref] == refusal && (ref, refusal) in t.answers
  {
    NewRecordShape(ref.payload, k.memoryId(ref), PENDING_SWEEP_AFTER);
    hide Leads, NewRecord, With, InVault;
    var rule := Rule(0, false);
    assert Served(b, 0) == {};
    Begins(k, rule, b, 0, 0, ref, Some(ref.payload), refusal);
    var a, v := With(b, 0, 0, ref, b.now, Asked(true)), With(b, 0, 0, ref, b.now, Backfilling(refusal));
    ReplaysRefusal(k, b, ref, refusal);
    Then(k, rule, b, a, v);
    t := Backfills(k, b, ref, refusal);
    Then(k, rule, b, v, t);
  }

  lemma ReplaysRefusal(k: Kernel, b: State, ref: CaptureRef, refusal: Receipt)
    requires b.processes.Keys == {0} && b.processes[0].holds == map[] && b.requests == map[] && ref.at in b.disk
    requires b.disk[ref.at].identity == ref.payload && b.disk[ref.at].state == Settled && b.disk[ref.at].response == Some(refusal)
    requires b.now < b.disk[ref.at].expiresAt
    ensures Leads(k, Rule(0, false), With(b, 0, 0, ref, b.now, Asked(true)), With(b, 0, 0, ref, b.now, Backfilling(refusal)))
  {
    hide Leads, NewRecord;
    var a, v := With(b, 0, 0, ref, b.now, Asked(true)), With(b, 0, 0, ref, b.now, Backfilling(refusal));
    HoldsAnswer(StoreOf(a, 0), ref.at, ref.payload, k.memoryId(ref), b.now, refusal);
    KeepsStore(a, 0);
    assert v == Advance(a, 0, Backfilling(refusal));
    WithShape(b, 0, 0, ref, b.now, Asked(true));
    assert Unlocked(a);
    hide Reserve, WithStore, With, Unlocked, Advance, StoreOf;
    assert ReserveStep(k, a, 0, Faults(Lands, {}), refusal, v);
    ReserveLeads(k, Rule(0, false), a, 0, refusal, v);
  }

  lemma HoldsAnswer(st: Store, at: KeyRef, identity: Payload, id: string, now: int, answer: Receipt)
    requires at in st.disk && now < st.disk[at].expiresAt && st.disk[at].identity == identity
    requires st.disk[at].state == Settled && st.disk[at].response == Some(answer)
    ensures Reserve(st, at, identity, id, now, Faults(Lands, {})) == (st, Replay(answer))
  {
    hide NewRecord, Cleared;
  }

  lemma Backfills(k: Kernel, b: State, ref: CaptureRef, refusal: Receipt) returns (t: State)
    requires Unreceipted(k, b, ref)
    ensures Leads(k, Rule(0, false), With(b, 0, 0, ref, b.now, Backfilling(refusal)), t) && InVault(k, t, ref) && ref in t.published
    ensures ref in t.receipts && t.receipts[ref] == refusal && (ref, refusal) in t.answers
  {
    hide Leads;
    var v := With(b, 0, 0, ref, b.now, Backfilling(refusal));
    t := Answer(Recorded(v, ref, refusal), 0, refusal);
    assert InVault(k, t, ref) by {
      SameMemory(k, b, t, ref);
    }
    assert t.processes == b.processes;
    OneStep(k, Rule(0, false), v, Backfill(0), t);
  }
}
