/** One process's census against the files: exact after every step of a tidy run,
    with the pending bound kept at every moment and the total cap restored by
    every trim. */
module CaptureCensus {
  import opened Reservations
  import opened Capture
  import opened CaptureSafety
  import opened CaptureSerial

  // ------------------------------------------------------------- one store

  function PendingFiles(disk: map<KeyRef, Record>): set<KeyRef> {
    set at | at in disk && disk[at].state == Pending
  }

  ghost predicate Answered(disk: map<KeyRef, Record>) {
    forall at <- disk.Keys :: disk[at].state == Settled ==> disk[at].response.Some?
  }

  /** The census is the truth about the files. */
  ghost predicate Exact(st: Store) {
    st.total == |st.disk| && st.pending.Keys == PendingFiles(st.disk) && Answered(st.disk)
  }

  lemma SizeMinus<K, V>(m: map<K, V>, gone: set<K>)
    requires gone <= m.Keys
    ensures |m - gone| == |m| - |gone| && (m - gone).Keys == m.Keys - gone
  {
    assert (m - gone).Keys == m.Keys - gone;
    assert |m.Keys - gone| == |m.Keys| - |gone|;
  }

  lemma SizeUpdate<K, V>(m: map<K, V>, k: K, v: V)
    ensures m[k := v].Keys == m.Keys + {k} && |m[k := v]| == if k in m then |m| else |m| + 1
  {
    assert m[k := v].Keys == m.Keys + {k};
    if k in m {
      assert m[k := v].Keys == m.Keys;
    }
  }

  lemma Subset<T>(a: set<T>, b: set<T>)
    requires a <= b
    ensures |a| <= |b|
  {
    assert |b - a| == |b| - |a|;
  }

  /** Dropping files together with their census entries keeps the census exact. */
  lemma DropIsExact(st: Store, gone: set<KeyRef>)
    requires Exact(st) && gone <= st.disk.Keys
    ensures Exact(Store(st.disk - gone, Minus(st.total, |gone|), st.pending - gone))
    ensures PendingFiles(st.disk - gone) == PendingFiles(st.disk) - gone
  {
    SizeMinus(st.disk, gone);
    var u := Store(st.disk - gone, Minus(st.total, |gone|), st.pending - gone);
    assert PendingFiles(u.disk) == PendingFiles(st.disk) - gone;
    assert u.pending.Keys == st.pending.Keys - gone;
  }

  lemma SweepIsExact(st: Store, now: int)
    requires Exact(st)
    ensures Exact(Sweep(st, now, {})) && Sweep(st, now, {}).disk == st.disk - Stale(st, now)
    ensures PendingFiles(Sweep(st, now, {}).disk) <= PendingFiles(st.disk)
  {
    DropIsExact(st, Stale(st, now));
    assert Stale(st, now) - {} == Stale(st, now);
  }

  lemma ClearedIsExact(st: Store, at: KeyRef, now: int)
    requires Exact(st) && Fresh(st, at, now)
    ensures Exact(Cleared(st, at, now, {})) && at !in Cleared(st, at, now, {}).disk
    ensures Cleared(st, at, now, {}).disk.Keys <= st.disk.Keys
    ensures PendingFiles(Cleared(st, at, now, {}).disk) <= PendingFiles(st.disk)
  {
    hide Exact, Sweep, PendingFiles;
    if at in st.disk {
      DropIsExact(st, {at});
      assert {at} - {} == {at};
      SweepIsExact(Forget(st.(disk := st.disk - {at}), at), now);
    } else {
      SweepIsExact(st, now);
    }
  }

  /** A sweep keeps the census exactly when every file it forgets can be deleted. */
  lemma SweepIsExactUnlessStuck(st: Store, now: int, stuck: set<KeyRef>)
    requires Exact(st)
    ensures Exact(Sweep(st, now, stuck)) <==> Stale(st, now) !! stuck
  {
    var stale := Stale(st, now);
    var gone := stale - stuck;
    SizeMinus(st.disk, gone);
    Subset(stale, st.disk.Keys);
    if stale !! stuck {
      assert gone == stale;
      DropIsExact(st, stale);
    } else {
      var at :| at in stale && at in stuck;
      assert at in PendingFiles(st.disk - gone) && at !in (st.pending - stale).Keys;
    }
  }

  /** Making room for a key keeps it exactly when, besides, the key's own past
      record can be deleted. */
  lemma ClearedIsExactUnlessStuck(st: Store, at: KeyRef, now: int, stuck: set<KeyRef>)
    requires Exact(st) && Fresh(st, at, now)
    ensures Exact(Cleared(st, at, now, stuck)) <==> (Stale(st, now) + (if at in st.disk then {at} else {})) !! stuck
  {
    if at !in st.disk {
      SweepIsExactUnlessStuck(st, now, stuck);
    } else if at !in stuck {
      DropIsExact(st, {at});
      var u := Forget(st.(disk := st.disk - ({at} - stuck)), at);
      assert {at} - stuck == {at} && Stale(u, now) == Stale(st, now) - {at};
      hide Exact, Sweep;
      SweepIsExactUnlessStuck(u, now, stuck);
    } else {
      StuckIsMiscounted(st, at, now, stuck);
    }
  }

  lemma StuckIsMiscounted(st: Store, at: KeyRef, now: int, stuck: set<KeyRef>)
    requires Exact(st) && at in st.disk && at in stuck
    ensures !Exact(Cleared(st, at, now, stuck))
  {
    assert {at} - stuck == {} && st.disk - {} == st.disk;
    var u := Forget(st, at);
    var stale := Stale(u, now);
    SizeMinus(st.disk, stale - stuck);
    Subset(stale - stuck, stale);
    Subset(stale + {at}, st.disk.Keys);
  }

  /** What is kept, and what cannot be deleted, stays. */
  lemma OpenLeaves(files: map<KeyRef, Record>, now: int, stuck: set<KeyRef>)
    ensures var kept, u := Kept(files, files.Keys, now), Open(files, now, stuck);
            && u.total == |kept| && kept <= u.disk.Keys && u.disk.Keys <= files.Keys
            && (forall at <- files.Keys :: at in kept <==> !Collectable(files[at], now))
            && (forall at <- files.Keys :: at in u.disk.Keys <==> at in kept || at in stuck)
            && u.pending.Keys == (set at | at in kept && files[at].state == Pending) && (forall at <- u.disk.Keys :: u.disk[at] == files[at])
  {
    hide Collectable;
  }

  /** Opening counts exactly what stays exactly when all it collects can be
      deleted. */
  lemma OpenIsExactUnlessStuck(files: map<KeyRef, Record>, now: int, stuck: set<KeyRef>)
    requires Answered(files)
    ensures Exact(Open(files, now, stuck)) <==> forall at <- files.Keys :: Collectable(files[at], now) ==> at !in stuck
  {
    OpenLeaves(files, now, stuck);
    hide Open, Kept, Collectable;
    var kept, u := Kept(files, files.Keys, now), Open(files, now, stuck);
    if forall at <- files.Keys :: Collectable(files[at], now) ==> at !in stuck {
      assert u.disk.Keys == kept;
      assert u.pending.Keys == PendingFiles(u.disk);
    } else {
      var at :| at in files && Collectable(files[at], now) && at in stuck;
      Subset(kept + {at}, u.disk.Keys);
    }
  }

  /** A trim keeps the census whatever is stuck; it gets under the cap exactly when
      there are as many settled files it can delete as the store is over. */
  lemma TrimReachesUnlessStuck(st: Store, keep: KeyRef, stuck: set<KeyRef>, victims: set<KeyRef>)
    requires Exact(st) && TrimVictims(st, keep, stuck, victims)
    ensures Exact(Trim(st, victims))
    ensures |Trim(st, victims).disk| <= MAX_RESERVATIONS <==> Excess(st) <= |Trimmable(st, keep, stuck)|
  {
    DropIsExact(st, victims);
    SizeMinus(st.disk, victims);
  }

  lemma WriteIsExact(st: Store, at: KeyRef, r: Record, now: int, isNew: bool)
    requires Exact(st) && r.state == Pending && isNew == (at !in st.disk)
    ensures Exact(Written(st, at, r, now, isNew))
    ensures PendingFiles(st.disk[at := r]) == PendingFiles(st.disk) + {at}
    ensures |st.disk[at := r]| == if at in st.disk then |st.disk| else |st.disk| + 1
  {
    var u := Written(st, at, r, now, isNew);
    SizeUpdate(st.disk, at, r);
    assert PendingFiles(u.disk) == PendingFiles(st.disk) + {at};
    SizeUpdate(st.pending, at, now);
  }

  /** Settling keeps the census exactly when the file it writes is there already;
      then one file moves from pending to settled. */
  lemma SettleIsExact(st: Store, at: KeyRef, r: Record, answer: Receipt)
    requires Exact(st)
    ensures Exact(Settle(st, at, r, answer)) <==> at in st.disk
    ensures PendingFiles(Settle(st, at, r, answer).disk) == PendingFiles(st.disk) - {at}
    ensures Settle(st, at, r, answer).disk.Keys == st.disk.Keys + {at}
  {
    var u := Settle(st, at, r, answer);
    SizeUpdate(st.disk, at, SettledRecord(r, answer));
    assert PendingFiles(u.disk) == PendingFiles(st.disk) - {at};
    assert u.pending.Keys == st.pending.Keys - {at};
  }

  lemma PendingAfter(disk: map<KeyRef, Record>, at: KeyRef, r: Record)
    ensures PendingFiles(disk[at := r]) == if r.state == Pending then PendingFiles(disk) + {at} else PendingFiles(disk) - {at}
    ensures at in PendingFiles(disk) <==> at in disk && disk[at].state == Pending
  {
  }

  /** A write that lands but is reported as failed keeps the census exactly when
      the file was there in the same state. */
  lemma SlipIsExact(st: Store, at: KeyRef, r: Record)
    requires Exact(st) && (r.state == Settled ==> r.response.Some?)
    ensures Exact(Landed(st, at, r, Slips)) <==> at in st.disk && st.disk[at].state == r.state
  {
    var u := Landed(st, at, r, Slips);
    SizeUpdate(st.disk, at, r);
    PendingAfter(st.disk, at, r);
    hide PendingFiles;
  }

  lemma NewRecordIsPending(identity: Payload, id: string, now: int)
    ensures NewRecord(identity, id, now).state == Pending
  {
  }

  /** Reserving keeps the census exact, never lets a 65th pending file in, and
      adds at most one file. */
  lemma ReserveIsExact(st: Store, at: KeyRef, identity: Payload, id: string, now: int, faults: Faults)
    requires Exact(st) && |PendingFiles(st.disk)| <= MAX_PENDING_RESERVATIONS && faults.stuck == {} && faults.write != Slips
    ensures var (u, o) := Reserve(st, at, identity, id, now, faults);
            && Exact(u) && |PendingFiles(u.disk)| <= MAX_PENDING_RESERVATIONS
            && |u.disk| <= (if o.Claimed? then |st.disk| + 1 else |st.disk|)
            && (o.Claimed? ==> at in u.disk && u.disk[at] == o.record && o.record.state == Pending)
  {
    hide Exact, Cleared, NewRecord, Collectable, TakeoverDue, PendingFiles;
    NewRecordIsPending(identity, id, now);
    if Fresh(st, at, now) {
      ClearedIsExact(st, at, now);
      var s1 := Cleared(st, at, now, {});
      Subset(s1.disk.Keys, st.disk.Keys);
      Subset(PendingFiles(s1.disk), PendingFiles(st.disk));
      ExactKeys(s1);
      if |s1.pending| < MAX_PENDING_RESERVATIONS && faults.write == Lands {
        WriteIsExact(s1, at, NewRecord(identity, id, now), now, true);
        OneMore(PendingFiles(s1.disk), at);
      }
    } else {
      var held := st.disk[at];
      NewRecordIsPending(identity, held.memoryId, now);
      if held.identity == identity && !(held.state == Settled && held.response.Some?) {
        PendingHere(st, at);
        WriteIsExact(st, at, NewRecord(identity, held.memoryId, now), now, false);
      }
    }
  }

  lemma ExactKeys(st: Store)
    requires Exact(st)
    ensures |st.pending| == |PendingFiles(st.disk)| && st.total == |st.disk|
    ensures PendingFiles(st.disk) <= st.disk.Keys
  {
  }

  lemma OneMore<T>(a: set<T>, x: T)
    ensures |a + {x}| <= |a| + 1
  {
  }

  lemma PendingHere(st: Store, at: KeyRef)
    requires Exact(st) && at in st.disk && !(st.disk[at].state == Settled && st.disk[at].response.Some?)
    ensures PendingFiles(st.disk) + {at} == PendingFiles(st.disk)
  {
  }

  /** Trimming after a write brings the store back under its total cap, takes
      settled files only, the oldest of them, and never the one just written. */
  lemma TrimIsExact(st: Store, keep: KeyRef, victims: set<KeyRef>)
    requires Exact(st) && TrimVictims(st, keep, {}, victims)
    requires keep in st.disk && st.disk[keep].state == Pending
    requires |PendingFiles(st.disk)| <= MAX_PENDING_RESERVATIONS
    ensures Exact(Trim(st, victims)) && |Trim(st, victims).disk| <= MAX_RESERVATIONS
    ensures keep in Trim(st, victims).disk && PendingFiles(Trim(st, victims).disk) == PendingFiles(st.disk)
    ensures forall gone <- victims :: gone in st.disk && st.disk[gone].state == Settled && gone != keep
    ensures forall gone <- victims, stays <- Trim(st, victims).disk.Keys ::
              stays != keep && st.disk[stays].state == Settled ==> st.disk[gone].reservedAt <= st.disk[stays].reservedAt
  {
    var open := Trimmable(st, keep, {});
    TrimReaches(st, keep);
    DropIsExact(st, victims);
    SizeMinus(st.disk, victims);
    assert PendingFiles(st.disk) - victims == PendingFiles(st.disk);
    OldestGo(st, keep, victims);
  }

  lemma OldestGo(st: Store, keep: KeyRef, victims: set<KeyRef>)
    requires TrimVictims(st, keep, {}, victims)
    ensures forall gone <- victims, stays <- Trim(st, victims).disk.Keys ::
              stays != keep && st.disk[stays].state == Settled ==> st.disk[gone].reservedAt <= st.disk[stays].reservedAt
  {
    var open := Trimmable(st, keep, {});
    forall gone <- victims, stays <- Trim(st, victims).disk.Keys | stays != keep && st.disk[stays].state == Settled
      ensures st.disk[gone].reservedAt <= st.disk[stays].reservedAt
    {
      assert stays in open - victims;
    }
  }

  /** There are always enough settled files to take. */
  lemma TrimReaches(st: Store, keep: KeyRef)
    requires Exact(st) && keep in st.disk && st.disk[keep].state == Pending
    requires |PendingFiles(st.disk)| <= MAX_PENDING_RESERVATIONS
    ensures Excess(st) <= |Trimmable(st, keep, {})| && |st.disk| - Excess(st) <= MAX_RESERVATIONS
  {
    assert st.disk.Keys - PendingFiles(st.disk) == Trimmable(st, keep, {});
    assert |st.disk.Keys - PendingFiles(st.disk)| == |st.disk.Keys| - |PendingFiles(st.disk)|;
  }

  /** Opening the directory counts exactly what it keeps. */
  lemma OpenIsExact(files: map<KeyRef, Record>, now: int)
    requires Answered(files)
    ensures Exact(Open(files, now, {})) && Open(files, now, {}).disk.Keys <= files.Keys
    ensures PendingFiles(Open(files, now, {}).disk) <= PendingFiles(files)
    ensures forall at :: at in files && !Collectable(files[at], now) ==> at in Open(files, now, {}).disk
  {
    var kept := Kept(files, files.Keys, now);
    var u := Open(files, now, {});
    assert files.Keys - (files.Keys - kept - {}) == kept;
    assert u.disk.Keys == kept;
    assert u.pending.Keys == PendingFiles(u.disk);
  }

  // ------------------------------------------------------- one claim per key

  /** A claim is the holder of its key in its process. */
  ghost predicate ClaimHolds(s: State, r: nat) {
    r in s.requests && HasClaim(s.requests[r].stage) ==>
      var q := s.requests[r];
      q.process in s.processes && q.ref.at in s.processes[q.process].holds && s.processes[q.process].holds[q.ref.at] == r
  }

  ghost predicate ClaimsHold(s: State) {
    forall r {:trigger ClaimHolds(s, r)} :: ClaimHolds(s, r)
  }

  lemma FinishHolds(s: State, r: nat, body: Receipt)
    requires ClaimsHold(s) && r in s.requests
    ensures ClaimsHold(Finish(s, r)) && ClaimsHold(Answer(s, r, body))
  {
    forall x: nat
      ensures ClaimHolds(Finish(s, r), x) && ClaimHolds(Answer(s, r, body), x)
    {
      assert ClaimHolds(s, x) && ClaimHolds(s, r);
    }
  }

  lemma AdvanceHolds(s: State, r: nat, stage: Stage)
    requires ClaimsHold(s) && r in s.requests && (HasClaim(stage) ==> HasClaim(s.requests[r].stage))
    ensures ClaimsHold(Advance(s, r, stage))
  {
    forall x: nat
      ensures ClaimHolds(Advance(s, r, stage), x)
    {
      assert ClaimHolds(s, x);
    }
  }

  lemma AskHolds(s: State, r: nat, seen: Option<Payload>, refusal: Receipt, t: State)
    requires ClaimsHold(s) && r in s.requests && AskStep(s, r, seen, refusal, t)
    ensures ClaimsHold(t)
  {
    hide ClaimsHold, Answer, IsRefusal, Finish;
    FinishHolds(s, r, refusal);
    if seen.None? || seen.value == s.requests[r].ref.payload {
      AdvanceHolds(s, r, t.requests[r].stage);
    }
  }

  lemma StoreHolds(s: State, p: nat, st: Store)
    requires ClaimsHold(s) && p in s.processes
    ensures ClaimsHold(WithStore(s, p, st))
  {
    forall x: nat
      ensures ClaimHolds(WithStore(s, p, st), x)
    {
      assert ClaimHolds(s, x);
    }
  }

  lemma ReserveHolds(k: Kernel, s: State, r: nat, faults: Faults, refusal: Receipt, t: State)
    requires ClaimsHold(s) && r in s.requests && ReserveStep(k, s, r, faults, refusal, t)
    ensures ClaimsHold(t)
  {
    hide Answer, Finish, IsRefusal, Reserve, Unlocked, ClaimsHold;
    var q := s.requests[r];
    var (st, outcome) := Reserve(StoreOf(s, q.process), q.ref.at, q.ref.payload, k.memoryId(q.ref), s.now, faults);
    var u := WithStore(s, q.process, st);
    StoreHolds(s, q.process, st);
    FinishHolds(u, r, refusal);
    match outcome
    case Claimed(record, takenOver) => TakesHold(u, r, Claim(record, takenOver));
    case Replay(response) =>
      FinishHolds(u, r, response);
      if q.stage.found {
        AdvanceHolds(u, r, Backfilling(response));
      }
    case _ =>
  }

  lemma TakesHold(s: State, r: nat, claim: Claim)
    requires ClaimsHold(s) && r in s.requests && s.requests[r].process in s.processes
    requires s.requests[r].ref.at !in s.processes[s.requests[r].process].holds
    ensures ClaimsHold(Advance(Hold(s, s.requests[r].process, s.requests[r].ref.at, r), r, Trimming(claim)))
  {
    var t := Advance(Hold(s, s.requests[r].process, s.requests[r].ref.at, r), r, Trimming(claim));
    forall x: nat
      ensures ClaimHolds(t, x)
    {
      assert ClaimHolds(s, x);
    }
  }

  lemma SettleHolds(s: State, l: Label, t: State)
    requires ClaimsHold(s) && (l.SettleKey? || l.ReplaySettle?) && l.request in s.requests
    requires l.SettleKey? ==> SettleStep(s, l.request, l.write, t)
    requires l.ReplaySettle? ==> ReplaySettleStep(s, l.request, l.write, t)
    ensures ClaimsHold(t)
  {
    hide Answer, Finish, SettleBy, SettleFromReplay, Unlocked, Unfinished, ClaimsHold;
    var q := s.requests[l.request];
    var st := if l.SettleKey? then SettleBy(StoreOf(s, q.process), q.ref.at, q.stage.claim.record, q.stage.body, l.write)
              else SettleFromReplay(StoreOf(s, q.process), q.ref.at, q.ref.payload, q.stage.response, l.write);
    StoreHolds(s, q.process, st);
    FinishHolds(WithStore(s, q.process, st), l.request, if l.SettleKey? then q.stage.body else q.stage.response);
  }

  lemma FailHolds(s: State, r: nat, landed: bool, t: State)
    requires ClaimsHold(s) && r in s.requests && FailStep(s, r, landed, t)
    ensures ClaimsHold(t)
  {
    hide Finish, PutDown, ClaimsHold;
    PutDownShape(s, s.requests[r], landed);
    SameClaims(s, PutDown(s, s.requests[r], landed));
    FinishHolds(PutDown(s, s.requests[r], landed), r, Receipt("", Rejected, "", ""));
  }

  lemma SameClaims(s: State, t: State)
    requires ClaimsHold(s) && t.requests == s.requests && t.processes == s.processes
    ensures ClaimsHold(t)
  {
    forall x: nat
      ensures ClaimHolds(t, x)
    {
      assert ClaimHolds(s, x);
    }
  }

  lemma WorldHolds(k: Kernel, s: State, l: Label, t: State)
    requires ClaimsHold(s) && Step(k, s, l, t) && IsWorld(l)
    ensures ClaimsHold(t)
  {
    hide HalfDone, Open;
    forall x: nat
      ensures ClaimHolds(t, x)
    {
      assert ClaimHolds(s, x);
    }
  }

  /** A claim goes on to its next stage; no file and no census moves. */
  ghost predicate GoesOn(s: State, t: State, r: nat) {
    && r in s.requests && r in t.requests && t.requests == s.requests[r := s.requests[r].(stage := t.requests[r].stage)]
    && t.processes == s.processes && t.disk == s.disk && t.untrimmed == s.untrimmed
    && HasClaim(s.requests[r].stage) && !s.requests[r].stage.Trimming? && !t.requests[r].stage.Trimming?
  }

  lemma CheckGoesOn(s: State, r: nat, body: Receipt, t: State)
    requires r in s.requests && CheckStep(s, r, body, t)
    ensures GoesOn(s, t, r)
  {
    hide IsRefusal, Describes;
  }

  lemma PublishGoesOn(s: State, r: nat, policy: Policy, body: Receipt, t: State)
    requires r in s.requests && PublishStep(s, r, policy, body, t)
    ensures GoesOn(s, t, r)
  {
    hide IsRefusal, Describes;
  }

  lemma RecordGoesOn(k: Kernel, s: State, l: Label, t: State)
    requires Step(k, s, l, t) && (l.RecordReceipt? || l.Authorize?)
    ensures GoesOn(s, t, l.request)
  {
    hide IsRefusal;
  }

  lemma ClaimGoesOn(k: Kernel, s: State, l: Label, t: State)
    requires Step(k, s, l, t) && (l.Check? || l.Authorize? || l.Publish? || l.RecordReceipt?)
    ensures GoesOn(s, t, l.request)
  {
    hide GoesOn, CheckStep, PublishStep;
    match l
    case Check(r, body) => CheckGoesOn(s, r, body, t);
    case Publish(r, policy, body) => PublishGoesOn(s, r, policy, body, t);
    case _ => RecordGoesOn(k, s, l, t);
  }

  lemma GoesOnHolds(s: State, t: State, r: nat)
    requires ClaimsHold(s) && GoesOn(s, t, r)
    ensures ClaimsHold(t)
  {
    forall x: nat
      ensures ClaimHolds(t, x)
    {
      assert ClaimHolds(s, x);
    }
  }

  lemma TrimHolds(s: State, r: nat, stuck: set<KeyRef>, victims: set<KeyRef>, t: State)
    requires ClaimsHold(s) && r in s.requests && TrimStep(s, r, stuck, victims, t)
    ensures ClaimsHold(t)
  {
    hide ClaimsHold, TrimVictims;
    var q := s.requests[r];
    var u := WithStore(s, q.process, Trim(StoreOf(s, q.process), victims));
    StoreHolds(s, q.process, Trim(StoreOf(s, q.process), victims));
    AdvanceHolds(u, r, t.requests[r].stage);
    SameClaims(Advance(u, r, t.requests[r].stage), t);
  }

  lemma StepHolds(k: Kernel, s: State, l: Label, t: State)
    requires ClaimsHold(s) && Step(k, s, l, t)
    ensures ClaimsHold(t)
  {
    hide ClaimsHold, AskStep, ReserveStep, SettleStep, ReplaySettleStep, FailStep, TrimStep, CheckStep, PublishStep, Answer, Finish,
         IsRefusal, Describes, Served, BootStep, CrashStep;
    if IsWorld(l) {
      WorldHolds(k, s, l, t);
    } else if l.Check? || l.Authorize? || l.Publish? || l.RecordReceipt? {
      ClaimGoesOn(k, s, l, t);
      GoesOnHolds(s, t, l.request);
    } else {
      match l
      case Refuse(r, body) => FinishHolds(s, r, body);
      case Ask(r, seen, refusal) => AskHolds(s, r, seen, refusal, t);
      case ReserveKey(r, faults, refusal) => ReserveHolds(k, s, r, faults, refusal, t);
      case TrimStore(r, stuck, victims) => TrimHolds(s, r, stuck, victims, t);
      case SettleKey(r, write) => SettleHolds(s, l, t);
      case ReplaySettle(r, write) => SettleHolds(s, l, t);
      case Fail(r, landed) => FailHolds(s, r, landed, t);
      case Backfill(r) =>
        var u := Recorded(s, s.requests[r].ref, s.requests[r].stage.replay);
        SameClaims(s, u);
        FinishHolds(u, r, s.requests[r].stage.replay);
    }
  }

  lemma {:induction false} RunHolds(k: Kernel, states: seq<State>, labels: seq<Label>, i: nat)
    requires Run(k, states, labels) && i < |states|
    ensures ClaimsHold(states[i])
    decreases i
  {
    hide Step;
    if i > 0 {
      hide ClaimsHold;
      RunHolds(k, states, labels, i - 1);
      assert Step(k, states[i - 1], labels[i - 1], states[i - 1 + 1]);
      StepHolds(k, states[i - 1], labels[i - 1], states[i]);
    }
  }

  /** In every run, however many requests a process serves at a time, no two live
      claims of one process are on one key. */
  lemma OneLiveClaim(k: Kernel, states: seq<State>, labels: seq<Label>, i: nat, one: nat, two: nat)
    requires Run(k, states, labels) && i < |states|
    requires one in states[i].requests && HasClaim(states[i].requests[one].stage)
    requires two in states[i].requests && HasClaim(states[i].requests[two].stage)
    requires states[i].requests[one].ref.at == states[i].requests[two].ref.at
    requires states[i].requests[one].process == states[i].requests[two].process
    ensures one == two
  {
    RunHolds(k, states, labels, i);
    assert ClaimHolds(states[i], one) && ClaimHolds(states[i], two);
  }

  // -------------------------------------------------------------- whole runs

  /** The assumptions: one process at a time, counting one that is only opening;
      files can be deleted, and a write that is reported as failed did not land. */
  ghost predicate Tidy(s: State, l: Label, t: State) {
    && t.processes.Keys <= {0}
    && (l.Crash? && l.gone != {} ==> s.processes.Keys <= {l.process})
    && (l.Boot? || l.TrimStore? ==> l.stuck == {})
    && (l.ReserveKey? ==> l.faults.stuck == {} && l.faults.write != Slips)
    && (l.SettleKey? || l.ReplaySettle? ==> l.write != Slips)
  }

  ghost predicate TidyRun(k: Kernel, states: seq<State>, labels: seq<Label>) {
    && k.slots == MAX_IN_FLIGHT_KERNEL_CALLS && Run(k, states, labels)
    && forall i {:trigger labels[i]} :: 0 <= i < |labels| ==> Tidy(states[i], labels[i], states[i + 1])
  }

  /** Requests between the write and the trim of one reservation. */
  function Trimmers(s: State): set<nat> {
    set r | r in s.requests && s.requests[r].stage.Trimming?
  }

  /** The files one may find over the cap: a trim under way, and those lost. */
  function Overdue(s: State): nat {
    s.untrimmed + |Trimmers(s)|
  }

  /** A claim's file is there, and is pending until the claim may settle it. */
  ghost predicate ClaimFiled(s: State, r: nat) {
    r in s.requests && HasClaim(s.requests[r].stage) ==>
      s.requests[r].ref.at in s.disk && (s.requests[r].stage.Trimming? ==> s.disk[s.requests[r].ref.at].state == Pending)
  }

  ghost predicate Filed(s: State) {
    && Answered(s.disk) && |PendingFiles(s.disk)| <= MAX_PENDING_RESERVATIONS
    && |s.disk| <= MAX_RESERVATIONS + Overdue(s)
    && (forall p <- s.processes.Keys :: Exact(StoreOf(s, p)))
    && (forall r {:trigger ClaimFiled(s, r)} :: ClaimFiled(s, r))
  }

  // ------------------------------------------------------------ step by step

  lemma FiledFacts(s: State, p: nat)
    requires Filed(s) && p in s.processes
    ensures Exact(StoreOf(s, p))
  {
  }

  /** No request serves but r, so no other claim and no other trim is under way. */
  ghost predicate OnlyServes(s: State, r: nat) {
    forall x :: Serving(s, x) ==> x == r
  }

  lemma TrimmersOf(s: State, r: nat)
    requires OnlyServes(s, r)
    ensures |Trimmers(s)| == if r in s.requests && s.requests[r].stage.Trimming? then 1 else 0
  {
    assert forall x <- Trimmers(s) :: Serving(s, x);
    if r in s.requests && s.requests[r].stage.Trimming? {
      assert Trimmers(s) == {r};
    } else {
      assert Trimmers(s) == {};
    }
  }

  lemma StillOnly(s: State, t: State, r: nat)
    requires OnlyServes(s, r) && Moves(s, t, r)
    ensures OnlyServes(t, r)
  {
    MovesOne(s, t, r);
  }

  /** Files, census and count as they were: only the one served request moves, or
      ends, and it starts no trim. */
  lemma QuietFiled(s: State, t: State, r: nat)
    requires Filed(s) && OnlyServes(s, r) && Moves(s, t, r) && t.disk == s.disk && t.untrimmed == s.untrimmed
    requires forall p <- t.processes.Keys :: t.processes[p].total == s.processes[p].total && t.processes[p].pending == s.processes[p].pending
    requires r in t.requests && HasClaim(t.requests[r].stage) ==>
               r in s.requests && HasClaim(s.requests[r].stage) && t.requests[r].ref == s.requests[r].ref
               && t.requests[r].stage.Trimming? == s.requests[r].stage.Trimming?
    requires r in s.requests && s.requests[r].stage.Trimming? ==> r in t.requests && t.requests[r].stage.Trimming?
    ensures Filed(t)
  {
    hide Exact, Answered, PendingFiles;
    StillOnly(s, t, r);
    TrimmersOf(s, r);
    TrimmersOf(t, r);
    forall p <- t.processes.Keys
      ensures Exact(StoreOf(t, p))
    {
      assert StoreOf(t, p) == StoreOf(s, p);
    }
    forall x: nat
      ensures ClaimFiled(t, x)
    {
      assert ClaimFiled(s, x);
      assert x in t.requests && HasClaim(t.requests[x].stage) ==> Serving(t, x);
    }
  }

  /** The one process moves its store to one that is exact; nobody holds a claim
      but r, whose file is there. */
  lemma StoreFiled(s: State, p: nat, st: Store, r: nat)
    requires Filed(s) && s.processes.Keys <= {p} && p in s.processes && OnlyServes(s, r)
    requires Exact(st) && |PendingFiles(st.disk)| <= MAX_PENDING_RESERVATIONS && |st.disk| <= MAX_RESERVATIONS + Overdue(s)
    requires ClaimFiled(WithStore(s, p, st), r)
    ensures Filed(WithStore(s, p, st))
  {
    var t := WithStore(s, p, st);
    assert StoreOf(t, p) == st;
    assert Trimmers(t) == Trimmers(s);
    hide PendingFiles, Answered;
    forall x: nat
      ensures ClaimFiled(t, x)
    {
      assert x in t.requests && HasClaim(t.requests[x].stage) ==> Serving(s, x);
    }
  }

  lemma FinishFiled(s: State, r: nat, body: Receipt)
    requires Filed(s) && OnlyServes(s, r) && r in s.requests && !s.requests[r].stage.Trimming?
    ensures Filed(Finish(s, r)) && Filed(Answer(s, r, body))
  {
    hide Filed, Moves;
    FinishMoves(s, r, body);
    FinishShape(s, r);
    FinishCensus(s, r);
    hide Finish;
    QuietFiled(s, Finish(s, r), r);
    QuietFiled(s, Answer(s, r, body), r);
  }

  lemma FinishCensus(s: State, r: nat)
    requires r in s.requests
    ensures var t := Finish(s, r);
            && t.untrimmed == s.untrimmed && t.processes.Keys == s.processes.Keys
            && forall p <- t.processes.Keys :: t.processes[p].total == s.processes[p].total && t.processes[p].pending == s.processes[p].pending
  {
  }

  lemma AskFiled(s: State, r: nat, seen: Option<Payload>, refusal: Receipt, t: State)
    requires Filed(s) && OnlyServes(s, r) && r in s.requests && AskStep(s, r, seen, refusal, t)
    ensures Filed(t)
  {
    hide Filed, Answer, IsRefusal, Finish, Moves;
    FinishFiled(s, r, refusal);
    if seen.None? || seen.value == s.requests[r].ref.payload {
      AskMoves(s, r, seen, refusal, t);
      QuietFiled(s, t, r);
    }
  }

  lemma ReserveFiled(k: Kernel, s: State, r: nat, faults: Faults, refusal: Receipt, t: State)
    requires Filed(s) && OnlyServes(s, r) && s.processes.Keys <= {0} && r in s.requests && ReserveStep(k, s, r, faults, refusal, t)
    requires faults.stuck == {} && faults.write != Slips
    ensures Filed(t)
  {
    hide Filed, Exact, Reserve, Finish, Answer, IsRefusal, PendingFiles, Unlocked, ClaimFiled, Overdue, OnlyServes;
    var q := s.requests[r];
    var store := StoreOf(s, q.process);
    var (st, o) := Reserve(store, q.ref.at, q.ref.payload, k.memoryId(q.ref), s.now, faults);
    var u := WithStore(s, q.process, st);
    FiledFacts(s, q.process);
    FiledBounds(s);
    ReserveIsExact(store, q.ref.at, q.ref.payload, k.memoryId(q.ref), s.now, faults);
    if o.Claimed? {
      ClaimedFiled(s, r, st, Claim(o.record, o.takenOver), t);
    } else {
      assert ClaimFiled(u, r) by {
        NoClaimFiled(u, r);
      }
      StoreFiled(s, q.process, st, r);
      SameServed(s, u, r);
      FinishFiled(u, r, refusal);
      if o.Replay? {
        FinishFiled(u, r, o.response);
        if q.stage.found {
          ReserveMoves(k, s, r, faults, refusal, t);
          QuietFiled(u, t, r);
        }
      }
    }
  }

  lemma NoClaimFiled(s: State, r: nat)
    requires r in s.requests && !HasClaim(s.requests[r].stage)
    ensures ClaimFiled(s, r)
  {
  }

  lemma SameServed(s: State, t: State, r: nat)
    requires OnlyServes(s, r) && t.requests == s.requests
    ensures OnlyServes(t, r)
  {
    assert forall x :: Serving(t, x) ==> Serving(s, x);
  }

  lemma FiledBounds(s: State)
    requires Filed(s)
    ensures |PendingFiles(s.disk)| <= MAX_PENDING_RESERVATIONS && |s.disk| <= MAX_RESERVATIONS + Overdue(s) && Answered(s.disk)
  {
  }

  /** The file just written may be one over the cap, until the trim. */
  lemma ClaimedFiled(s: State, r: nat, st: Store, claim: Claim, t: State)
    requires Filed(s) && OnlyServes(s, r) && s.processes.Keys <= {0} && r in s.requests && s.requests[r].stage.Asked?
    requires s.requests[r].process in s.processes && Exact(st) && |PendingFiles(st.disk)| <= MAX_PENDING_RESERVATIONS
    requires |st.disk| <= |s.disk| + 1 && s.requests[r].ref.at in st.disk && st.disk[s.requests[r].ref.at].state == Pending
    requires t == Advance(Hold(WithStore(s, s.requests[r].process, st), s.requests[r].process, s.requests[r].ref.at, r), r, Trimming(claim))
    ensures Filed(t)
  {
    var p := s.requests[r].process;
    assert OnlyServes(t, r) by {
      StillOnly(s, t, r);
    }
    TrimmersOf(s, r);
    TrimmersOf(t, r);
    assert StoreOf(t, p) == st;
    hide PendingFiles;
    forall x: nat
      ensures ClaimFiled(t, x)
    {
      assert x in t.requests && HasClaim(t.requests[x].stage) ==> Serving(t, x);
    }
  }

  lemma TrimFiled(s: State, r: nat, victims: set<KeyRef>, t: State)
    requires Filed(s) && OnlyServes(s, r) && s.processes.Keys <= {0} && r in s.requests && TrimStep(s, r, {}, victims, t)
    ensures Filed(t) && |t.disk| <= MAX_RESERVATIONS
  {
    hide Filed, PendingFiles, Exact, OnlyServes, Overdue;
    var q := s.requests[r];
    var st := StoreOf(s, q.process);
    ClaimIsPending(s, r);
    FiledFacts(s, q.process);
    FiledBounds(s);
    TrimIsExact(st, q.ref.at, victims);
    hide TrimVictims;
    TrimmedFiled(s, r, Trim(st, victims), t);
  }

  lemma ClaimIsPending(s: State, r: nat)
    requires Filed(s) && r in s.requests && s.requests[r].stage.Trimming?
    ensures s.requests[r].ref.at in s.disk && s.disk[s.requests[r].ref.at].state == Pending
  {
    assert ClaimFiled(s, r);
  }

  lemma TrimmedFiled(s: State, r: nat, st: Store, t: State)
    requires OnlyServes(s, r) && s.processes.Keys <= {0} && r in s.requests && s.requests[r].process in s.processes && s.requests[r].stage.Trimming?
    requires Exact(st) && |PendingFiles(st.disk)| <= MAX_PENDING_RESERVATIONS && |st.disk| <= MAX_RESERVATIONS
    requires s.requests[r].ref.at in st.disk
    requires var claim := s.requests[r].stage.claim;
             t == Advance(WithStore(s, s.requests[r].process, st), r, if claim.takenOver then Checking(claim) else Authorizing(claim)).(untrimmed := 0)
    ensures Filed(t)
  {
    hide PendingFiles;
    assert OnlyServes(t, r) by {
      StillOnly(s, t, r);
    }
    assert StoreOf(t, s.requests[r].process) == st;
    forall x: nat
      ensures ClaimFiled(t, x)
    {
      assert x in t.requests && HasClaim(t.requests[x].stage) ==> Serving(t, x);
    }
  }

  lemma ExactAnswered(st: Store)
    requires Exact(st)
    ensures Answered(st.disk)
  {
  }

  lemma SettleFiled(s: State, l: Label, t: State)
    requires (l.SettleKey? || l.ReplaySettle?) && l.request in s.requests && l.write != Slips
    requires Filed(s) && OnlyServes(s, l.request) && s.processes.Keys <= {0}
    requires l.SettleKey? ==> SettleStep(s, l.request, l.write, t)
    requires l.ReplaySettle? ==> ReplaySettleStep(s, l.request, l.write, t)
    ensures Filed(t)
  {
    hide Filed, Exact, Finish, Answer, Settle, PendingFiles, Unlocked, OnlyServes, Overdue;
    var q := s.requests[l.request];
    var store := StoreOf(s, q.process);
    var r := if l.SettleKey? then q.stage.claim.record else if q.ref.at in s.disk then s.disk[q.ref.at] else NewRecord(q.ref.payload, "", 0);
    var body := if l.SettleKey? then q.stage.body else q.stage.response;
    var moves := l.write == Lands && (l.SettleKey? || Unfinished(store, q.ref.at, q.ref.payload));
    if l.SettleKey? {
      ClaimIsFiled(s, l.request);
    }
    var u := if moves then WithStore(s, q.process, Settle(store, q.ref.at, r, body)) else s;
    if moves {
      SettledFiled(s, l.request, r, body);
    } else {
      assert WithStore(s, q.process, store) == s;
    }
    SameServed(s, u, l.request);
    FinishFiled(u, l.request, body);
  }

  lemma SettledFiled(s: State, x: nat, r: Record, body: Receipt)
    requires Filed(s) && OnlyServes(s, x) && s.processes.Keys <= {0} && x in s.requests && s.requests[x].process in s.processes
    requires s.requests[x].ref.at in s.disk && !s.requests[x].stage.Trimming?
    ensures Filed(WithStore(s, s.requests[x].process, Settle(StoreOf(s, s.requests[x].process), s.requests[x].ref.at, r, body)))
  {
    hide Filed, Exact, Settle, PendingFiles, OnlyServes, Overdue;
    var q := s.requests[x];
    var store := StoreOf(s, q.process);
    var st := Settle(store, q.ref.at, r, body);
    FiledFacts(s, q.process);
    FiledBounds(s);
    SettleIsExact(store, q.ref.at, r, body);
    Subset(PendingFiles(st.disk), PendingFiles(store.disk));
    SettleKeys(store, q.ref.at, r, body);
    SameSize(st.disk, store.disk);
    StoreFiled(s, q.process, st, x);
  }

  lemma ClaimIsFiled(s: State, r: nat)
    requires Filed(s) && r in s.requests && HasClaim(s.requests[r].stage)
    ensures s.requests[r].ref.at in s.disk
  {
    assert ClaimFiled(s, r);
  }

  lemma SettleKeys(st: Store, at: KeyRef, r: Record, body: Receipt)
    requires at in st.disk
    ensures Settle(st, at, r, body).disk.Keys == st.disk.Keys
  {
  }

  lemma SameSize<K, V, W>(a: map<K, V>, b: map<K, W>)
    requires a.Keys == b.Keys
    ensures |a| == |b|
  {
    assert |a.Keys| == |b.Keys|;
  }

  /** In a listener there is someone who is the only one served. */
  lemma TheServed(s: State, r: nat) returns (x: nat)
    requires Slotted(s)
    ensures OnlyServes(s, x) && (Serving(s, r) || (forall y :: !Serving(s, y)) ==> x == r)
  {
    if y :| Serving(s, y) {
      x := y;
    } else {
      x := r;
    }
  }

  lemma FailFiled(s: State, r: nat, landed: bool, t: State)
    requires Slotted(s) && Filed(s) && r in s.requests && FailStep(s, r, landed, t)
    ensures Filed(t)
  {
    var x := TheServed(s, r);
    FailMoves(s, r, landed, t);
    FailCensus(s, r, landed, t);
    assert Moves(s, t, x) by {
      assert forall y <- t.requests.Keys :: y != r;
    }
    hide FailStep, OnlyServes, Filed, Slotted, Moves;
    QuietFiled(s, t, x);
  }

  lemma FailCensus(s: State, r: nat, landed: bool, t: State)
    requires r in s.requests && FailStep(s, r, landed, t)
    ensures t.disk == s.disk && t.untrimmed == s.untrimmed && t.processes.Keys == s.processes.Keys && t.requests == s.requests - {r}
    ensures forall p <- t.processes.Keys :: t.processes[p].total == s.processes[p].total && t.processes[p].pending == s.processes[p].pending
    ensures !s.requests[r].stage.Trimming?
  {
    hide Finish, PutDown;
    PutDownShape(s, s.requests[r], landed);
    FinishShape(PutDown(s, s.requests[r], landed), r);
    FinishCensus(PutDown(s, s.requests[r], landed), r);
  }

  lemma GoesOnFiled(s: State, t: State, r: nat)
    requires Filed(s) && OnlyServes(s, r) && GoesOn(s, t, r)
    ensures Filed(t)
  {
    hide Filed, OnlyServes;
    QuietFiled(s, t, r);
  }

  lemma BootFiled(s: State, p: nat, t: State)
    requires Slotted(s) && Filed(s) && BootStep(s, p, {}, t) && t.processes.Keys <= {0}
    ensures Filed(t)
  {
    hide Exact, PendingFiles, Open;
    var st := Open(s.disk, s.now, {});
    OpenIsExact(s.disk, s.now);
    Subset(st.disk.Keys, s.disk.Keys);
    Subset(PendingFiles(st.disk), PendingFiles(s.disk));
    ExactAnswered(st);
    assert p in t.processes.Keys && s.processes.Keys == {};
    assert StoreOf(t, p) == st;
    assert t.requests == s.requests == map[];
  }

  lemma CrashFiled(s: State, p: nat, gone: set<KeyRef>, t: State)
    requires Slotted(s) && Filed(s) && CrashStep(s, p, gone, t)
    requires gone != {} ==> s.processes.Keys <= {p}
    ensures Filed(t)
  {
    CrashClaims(s, p, gone, t);
    CrashCount(s, p, gone);
    CrashExact(s, p, gone);
    hide Exact, HalfDone, Slotted, Died, PendingFiles, Answered, Overdue;
  }

  lemma CrashExact(s: State, p: nat, gone: set<KeyRef>)
    requires Filed(s) && (gone != {} ==> s.processes.Keys <= {p})
    ensures forall q <- Died(s, p, gone).processes.Keys :: Exact(StoreOf(Died(s, p, gone), q))
  {
    hide Exact, PendingFiles, Answered, CutOff;
    var t := Died(s, p, gone);
    forall q <- t.processes.Keys
      ensures Exact(StoreOf(t, q))
    {
      assert gone == {} && s.disk - gone == s.disk;
      assert StoreOf(t, q) == StoreOf(s, q);
    }
  }

  /** A trim that a crash cuts off stays overdue. */
  lemma StaysOverdue(s: State, p: nat, gone: set<KeyRef>)
    ensures Overdue(Died(s, p, gone)) == Overdue(s)
  {
    var t := Died(s, p, gone);
    assert Trimmers(s) == Trimmers(t) + CutOff(s, p);
    SumSize(Trimmers(t), CutOff(s, p));
  }

  lemma CrashCount(s: State, p: nat, gone: set<KeyRef>)
    requires Filed(s)
    ensures var t := Died(s, p, gone);
            Answered(t.disk) && |PendingFiles(t.disk)| <= MAX_PENDING_RESERVATIONS && |t.disk| <= MAX_RESERVATIONS + Overdue(t)
  {
    hide Filed, PendingFiles, Answered, Overdue;
    FiledBounds(s);
    FewerFiles(s.disk, gone);
    StaysOverdue(s, p, gone);
    DiedDisk(s, p, gone);
    hide Died;
  }

  lemma DiedDisk(s: State, p: nat, gone: set<KeyRef>)
    ensures Died(s, p, gone).disk == s.disk - gone
  {
  }

  lemma FewerFiles(disk: map<KeyRef, Record>, gone: set<KeyRef>)
    ensures |disk - gone| <= |disk| && |PendingFiles(disk - gone)| <= |PendingFiles(disk)|
    ensures Answered(disk) ==> Answered(disk - gone)
  {
    Subset((disk - gone).Keys, disk.Keys);
    assert PendingFiles(disk - gone) <= PendingFiles(disk);
    Subset(PendingFiles(disk - gone), PendingFiles(disk));
  }

  lemma CrashLeaves(s: State, p: nat, gone: set<KeyRef>, t: State)
    requires CrashStep(s, p, gone, t)
    ensures t.disk == s.disk - gone
    ensures forall x <- t.requests.Keys :: x in s.requests.Keys && t.requests[x] == s.requests[x] && s.requests[x].process != p
  {
    hide HalfDone, CutOff;
  }

  /** No request outlives its process, so none is left where files went. */
  lemma CrashClaims(s: State, p: nat, gone: set<KeyRef>, t: State)
    requires Slotted(s) && Filed(s) && CrashStep(s, p, gone, t)
    requires gone != {} ==> s.processes.Keys <= {p}
    ensures forall r {:trigger ClaimFiled(t, r)} :: ClaimFiled(t, r)
  {
    CrashLeaves(s, p, gone, t);
    hide CrashStep, Filed, ClaimFiled, Slotted;
    forall r: nat
      ensures ClaimFiled(t, r)
    {
      AnyClaimFiled(s, r);
      OwnProcess(s, r);
      CrashClaim(s, p, gone, t, r);
    }
  }

  lemma OwnProcess(s: State, r: nat)
    requires Slotted(s)
    ensures r in s.requests.Keys ==> s.requests[r].process in s.processes.Keys
  {
  }

  lemma CrashClaim(s: State, p: nat, gone: set<KeyRef>, t: State, r: nat)
    requires t.disk == s.disk - gone && (gone != {} ==> s.processes.Keys <= {p}) && ClaimFiled(s, r)
    requires r in t.requests.Keys ==> r in s.requests.Keys && t.requests[r] == s.requests[r]
    requires r in t.requests.Keys ==> s.requests[r].process != p && s.requests[r].process in s.processes.Keys
    ensures ClaimFiled(t, r)
  {
    if r in t.requests.Keys {
      assert gone == {} && t.disk == s.disk;
    }
  }

  lemma AnyClaimFiled(s: State, r: nat)
    requires Filed(s)
    ensures ClaimFiled(s, r)
  {
  }

  lemma SumSize<T>(a: set<T>, b: set<T>)
    ensures |a + b| <= |a| + |b|
  {
    assert a + b == a + (b - a);
  }

  lemma WorldFiled(k: Kernel, s: State, l: Label, t: State)
    requires Slotted(s) && Filed(s) && Step(k, s, l, t) && IsWorld(l) && Tidy(s, l, t)
    ensures Filed(t)
  {
    hide Filed, Slotted, BootStep, CrashStep;
    match l
    case Boot(p, stuck) => BootFiled(s, p, t);
    case Crash(p, gone) => CrashFiled(s, p, gone, t);
    case Arrive(r, p, ref) =>
      var x := TheServed(s, r);
      hide OnlyServes;
      ArriveFiled(s, r, Request(p, ref, s.now, Arrived), x);
    case _ => SameFiles(s, t);
  }

  lemma SameFiles(s: State, t: State)
    requires Filed(s) && t.disk == s.disk && t.processes == s.processes && t.requests == s.requests && t.untrimmed == s.untrimmed
    ensures Filed(t)
  {
    hide Exact, PendingFiles, Answered;
    assert Trimmers(t) == Trimmers(s);
    forall p <- t.processes.Keys
      ensures Exact(StoreOf(t, p))
    {
      assert StoreOf(t, p) == StoreOf(s, p);
    }
    forall x: nat
      ensures ClaimFiled(t, x)
    {
      assert ClaimFiled(s, x);
    }
  }

  lemma ArriveFiled(s: State, r: nat, q: Request, x: nat)
    requires Filed(s) && r !in s.requests && q.stage.Arrived?
    ensures Filed(s.(requests := s.requests[r := q]))
  {
    hide Exact, PendingFiles, Answered;
    var t := s.(requests := s.requests[r := q]);
    assert Trimmers(t) == Trimmers(s);
    forall p <- t.processes.Keys
      ensures Exact(StoreOf(t, p))
    {
      assert StoreOf(t, p) == StoreOf(s, p);
    }
    forall y: nat
      ensures ClaimFiled(t, y)
    {
      assert ClaimFiled(s, y);
    }
  }

  /** Every tidy step keeps census, bounds and claims right. */
  lemma StepKeeps(k: Kernel, s: State, l: Label, t: State)
    requires k.slots == MAX_IN_FLIGHT_KERNEL_CALLS && Slotted(s) && Filed(s) && Step(k, s, l, t) && Tidy(s, l, t)
    ensures Slotted(t) && Filed(t)
    ensures l.TrimStore? ==> |t.disk| <= MAX_RESERVATIONS
  {
    hide Filed, Slotted, AskStep, ReserveStep, SettleStep, ReplaySettleStep, FailStep, TrimStep, CheckStep, PublishStep, Answer, Finish,
         IsRefusal, Describes, Served, BootStep, CrashStep, OnlyServes, Recorded;
    StepSlots(k, s, l, t);
    if IsWorld(l) {
      WorldFiled(k, s, l, t);
    } else if l.Fail? {
      FailFiled(s, l.request, l.landed, t);
    } else {
      OnlyActor(k, s, l, t);
      OneProcess(s);
      if l.Check? || l.Authorize? || l.Publish? || l.RecordReceipt? {
        ClaimGoesOn(k, s, l, t);
        GoesOnFiled(s, t, l.request);
      } else {
        match l
        case Refuse(r, body) => FinishFiled(s, r, body);
        case Ask(r, seen, refusal) => AskFiled(s, r, seen, refusal, t);
        case ReserveKey(r, faults, refusal) => ReserveFiled(k, s, r, faults, refusal, t);
        case TrimStore(r, stuck, victims) => TrimFiled(s, r, victims, t);
        case SettleKey(r, write) => SettleFiled(s, l, t);
        case ReplaySettle(r, write) => SettleFiled(s, l, t);
        case Backfill(r) => BackfillFiled(s, r, t);
      }
    }
  }

  lemma BackfillFiled(s: State, r: nat, t: State)
    requires Filed(s) && OnlyServes(s, r) && r in s.requests && s.requests[r].stage.Backfilling?
    requires t == Answer(Recorded(s, s.requests[r].ref, s.requests[r].stage.replay), r, s.requests[r].stage.replay)
    ensures Filed(t)
  {
    hide Filed, Answer;
    var u := Recorded(s, s.requests[r].ref, s.requests[r].stage.replay);
    SameFiles(s, u);
    SameServed(s, u, r);
    FinishFiled(u, r, s.requests[r].stage.replay);
  }

  lemma OneProcess(s: State)
    requires Slotted(s)
    ensures s.processes.Keys <= {0}
  {
  }

  lemma OnlyActor(k: Kernel, s: State, l: Label, t: State)
    requires k.slots == MAX_IN_FLIGHT_KERNEL_CALLS && Slotted(s) && Step(k, s, l, t) && !IsWorld(l) && !l.Fail?
    ensures OnlyServes(s, l.request)
  {
    hide AskStep, ReserveStep, SettleStep, ReplaySettleStep, FailStep, TrimStep, CheckStep, PublishStep, Answer, Served, Slotted;
    if l.Ask? || l.Refuse? {
      SlotIsFree(k, s, l.request);
    } else {
      ActsServed(k, s, l, t);
      OnlyOne(s, l.request);
    }
  }

  // ---------------------------------------------------------------- over runs

  lemma {:induction false} TidyRunKeeps(k: Kernel, states: seq<State>, labels: seq<Label>, i: nat)
    requires TidyRun(k, states, labels) && i < |states|
    ensures Slotted(states[i]) && Filed(states[i])
    decreases i
  {
    hide Step, Tidy;
    if i > 0 {
      hide Slotted, Filed;
      TidyRunKeeps(k, states, labels, i - 1);
      assert Step(k, states[i - 1], labels[i - 1], states[i - 1 + 1]);
      assert Tidy(states[i - 1], labels[i - 1], states[i - 1 + 1]);
      StepKeeps(k, states[i - 1], labels[i - 1], states[i]);
    } else {
      StartsFiled(states[0]);
    }
  }

  lemma StartsFiled(s: State)
    requires Init(s)
    ensures Slotted(s) && Filed(s)
  {
    assert PendingFiles(map[]) == {};
    assert forall r :: ClaimFiled(s, r);
  }

  /** In every state of a tidy run the census equals the files, at most 64 of them
      are pending, and at most 512 exist but for a trim under way and those that
      crashes cut off since the last one. */
  lemma CensusIsExact(k: Kernel, states: seq<State>, labels: seq<Label>, i: nat, p: nat)
    requires TidyRun(k, states, labels) && i < |states| && p in states[i].processes
    ensures var s := states[i];
            && s.processes[p].total == |s.disk| <= MAX_RESERVATIONS + s.untrimmed + |Trimmers(s)|
            && s.processes[p].pending.Keys == (set at | at in s.disk && s.disk[at].state == Pending)
            && |s.processes[p].pending| <= MAX_PENDING_RESERVATIONS
  {
    TidyRunKeeps(k, states, labels, i);
    FiledFacts(states[i], p);
    ExactKeys(StoreOf(states[i], p));
  }

  /** A reservation that hands out a claim leaves at most 512 files behind it. */
  lemma ClaimedWithinCap(k: Kernel, states: seq<State>, labels: seq<Label>, i: nat)
    requires TidyRun(k, states, labels) && i < |labels| && labels[i].TrimStore?
    ensures |states[i + 1].disk| <= MAX_RESERVATIONS
  {
    hide Step, Tidy, Slotted, Filed;
    TidyRunKeeps(k, states, labels, i);
    assert Step(k, states[i], labels[i], states[i + 1]) && Tidy(states[i], labels[i], states[i + 1]);
    StepKeeps(k, states[i], labels[i], states[i + 1]);
  }

  /** In a tidy run a live claim's file is there. */
  lemma LiveClaimIsFiled(k: Kernel, states: seq<State>, labels: seq<Label>, i: nat, r: nat)
    requires TidyRun(k, states, labels) && i < |states|
    requires r in states[i].requests && HasClaim(states[i].requests[r].stage)
    ensures states[i].requests[r].ref.at in states[i].disk
  {
    TidyRunKeeps(k, states, labels, i);
    assert ClaimFiled(states[i], r);
  }
}
