/** What every run of governed capture keeps, with no assumption on timing, on
    the clock, on how many processes run and requests they serve at a time, or on
    which records and memories disappear. */
module CaptureSafety {
  import opened Reservations
  import opened Capture

  ghost predicate InVault(k: Kernel, s: State, ref: CaptureRef) {
    k.memoryId(ref) in s.vault && s.vault[k.memoryId(ref)] == Ours(ref)
  }

  /** An applied body names the memory that was put in the vault for this capture. */
  ghost predicate Grounded(k: Kernel, s: State, ref: CaptureRef, body: Receipt) {
    body.state == Applied ==> ref in s.placed && body.memoryId == k.memoryId(ref)
  }

  /** ... and, unless the publication was dropped, is the one recorded answer. */
  ghost predicate Final(k: Kernel, s: State, ref: CaptureRef, body: Receipt) {
    && Grounded(k, s, ref, body)
    && (body.state == Applied && ref !in s.forgotten ==> ref in s.receipts && s.receipts[ref] == body)
  }

  ghost predicate RecordSound(k: Kernel, s: State, at: KeyRef, r: Record) {
    && r.memoryId == k.memoryId(CaptureRef(at, r.identity))
    && (r.response.Some? ==> Final(k, s, CaptureRef(at, r.identity), r.response.value))
  }

  ghost predicate RequestSound(k: Kernel, s: State, q: Request) {
    && (q.stage.Replaying? ==> Final(k, s, q.ref, q.stage.response))
    && (q.stage.Backfilling? ==> Final(k, s, q.ref, q.stage.replay))
    && (HasClaim(q.stage) ==>
          var r := q.stage.claim.record;
          r.identity == q.ref.payload && r.memoryId == k.memoryId(q.ref) && r.response == None)
    && (q.stage.Recording? ==> q.stage.body.state == Applied && Grounded(k, s, q.ref, q.stage.body))
    && (q.stage.Settling? ==> Final(k, s, q.ref, q.stage.body))
  }

  ghost predicate Inv(k: Kernel, s: State) {
    && (forall id <- s.vault.Keys :: s.vault[id].Ours? ==> id == k.memoryId(s.vault[id].ref) && s.vault[id].ref in s.placed)
    && s.published <= s.placed
    && (forall ref <- s.receipts.Keys :: Grounded(k, s, ref, s.receipts[ref]))
    && (forall at <- s.disk.Keys :: RecordSound(k, s, at, s.disk[at]))
    && (forall r <- s.requests.Keys :: RequestSound(k, s, s.requests[r]))
    && (forall a <- s.answers :: Final(k, s, a.0, a.1))
  }

  /** What was placed and answered stays on the record, and receipts of a
      publication that is still known never change. */
  ghost predicate Extends(s: State, t: State) {
    && s.placed <= t.placed && s.forgotten <= t.forgotten && s.answers <= t.answers
    && (forall ref <- s.receipts.Keys :: ref in t.forgotten || (ref in t.receipts && t.receipts[ref] == s.receipts[ref]))
  }

  lemma FinalStays(k: Kernel, s: State, t: State, ref: CaptureRef, body: Receipt)
    requires Extends(s, t)
    ensures Grounded(k, s, ref, body) ==> Grounded(k, t, ref, body)
    ensures Final(k, s, ref, body) ==> Final(k, t, ref, body)
  {
  }

  lemma RecordStays(k: Kernel, s: State, t: State, at: KeyRef, r: Record)
    requires Extends(s, t) && RecordSound(k, s, at, r)
    ensures RecordSound(k, t, at, r)
  {
    if r.response.Some? {
      FinalStays(k, s, t, CaptureRef(at, r.identity), r.response.value);
    }
  }

  lemma RequestStays(k: Kernel, s: State, t: State, q: Request)
    requires Extends(s, t) && RequestSound(k, s, q)
    ensures RequestSound(k, t, q)
  {
    match q.stage
    case Replaying(b) => FinalStays(k, s, t, q.ref, b);
    case Backfilling(b) => FinalStays(k, s, t, q.ref, b);
    case Recording(_, b) => FinalStays(k, s, t, q.ref, b);
    case Settling(_, b) => FinalStays(k, s, t, q.ref, b);
    case _ =>
  }

  /** A step keeps the invariant once what it newly put down is sound. */
  lemma InvFromNew(k: Kernel, s: State, t: State)
    requires Inv(k, s) && Extends(s, t)
    requires forall id <- t.vault.Keys :: (id in s.vault && t.vault[id] == s.vault[id]) || (t.vault[id].Ours? ==> id == k.memoryId(t.vault[id].ref) && t.vault[id].ref in t.placed)
    requires forall ref <- t.published :: ref in s.published || ref in t.placed
    requires forall ref <- t.receipts.Keys :: (ref in s.receipts && s.receipts[ref] == t.receipts[ref]) || Grounded(k, t, ref, t.receipts[ref])
    requires forall at <- t.disk.Keys :: (at in s.disk && s.disk[at] == t.disk[at]) || RecordSound(k, t, at, t.disk[at])
    requires forall r <- t.requests.Keys :: (r in s.requests && s.requests[r] == t.requests[r]) || RequestSound(k, t, t.requests[r])
    requires forall a <- t.answers :: a in s.answers || Final(k, t, a.0, a.1)
    ensures Inv(k, t)
  {
    hide InVault, Grounded, Final, RecordSound, RequestSound;
    forall ref <- t.receipts.Keys
      ensures Grounded(k, t, ref, t.receipts[ref])
    {
      if ref in s.receipts && s.receipts[ref] == t.receipts[ref] {
        FinalStays(k, s, t, ref, s.receipts[ref]);
      }
    }
    forall at <- t.disk.Keys
      ensures RecordSound(k, t, at, t.disk[at])
    {
      if at in s.disk && s.disk[at] == t.disk[at] {
        RecordStays(k, s, t, at, s.disk[at]);
      }
    }
    forall r <- t.requests.Keys
      ensures RequestSound(k, t, t.requests[r])
    {
      if r in s.requests && s.requests[r] == t.requests[r] {
        RequestStays(k, s, t, s.requests[r]);
      }
    }
    forall a <- t.answers
      ensures Final(k, t, a.0, a.1)
    {
      if a in s.answers {
        FinalStays(k, s, t, a.0, a.1);
      }
    }
  }

  // ------------------------------------------------------------ step by step

  lemma ClearedDisk(st: Store, at: KeyRef, now: int, stuck: set<KeyRef>)
    ensures var u := Cleared(st, at, now, stuck);
            forall b <- u.disk.Keys :: b in st.disk && st.disk[b] == u.disk[b]
  {
    hide Stale, Minus;
  }

  /** What one reservation can leave on disk: old records, or the claimed one. */
  lemma ReserveDisk(st: Store, at: KeyRef, identity: Payload, id: string, now: int, faults: Faults)
    ensures var (u, o) := Reserve(st, at, identity, id, now, faults);
            && (forall b <- u.disk.Keys :: (b in st.disk && st.disk[b] == u.disk[b]) ||
                  (b == at && (o.Claimed? ==> u.disk[b] == o.record) && (o.Claimed? || o.WriteFailed?)
                   && u.disk[b].identity == identity && u.disk[b].response == None
                   && (u.disk[b].memoryId == id || (at in st.disk && st.disk[at].identity == identity && u.disk[b].memoryId == st.disk[at].memoryId))))
            && (o.Claimed? ==>
                  && o.record.identity == identity && o.record.response == None && o.record.state == Pending
                  && (o.takenOver ==> at in st.disk && st.disk[at].identity == identity && o.record.memoryId == st.disk[at].memoryId)
                  && (!o.takenOver ==> o.record.memoryId == id))
            && (o.Replay? ==> at in st.disk && st.disk[at].identity == identity && st.disk[at].response == Some(o.response))
  {
    hide Cleared, Collectable, NewRecord, TakeoverDue;
    ClearedDisk(st, at, now, faults.stuck);
    NewRecordShape(identity, id, now);
    if at in st.disk {
      NewRecordShape(identity, st.disk[at].memoryId, now);
    }
  }

  lemma NewRecordShape(identity: Payload, id: string, now: int)
    ensures NewRecord(identity, id, now) == Record(identity, id, Pending, Stamp(now), Stamp(now + RESERVATION_TTL), None)
  {
  }

  lemma FinishShape(s: State, r: nat)
    requires r in s.requests
    ensures var t := Finish(s, r);
            && t.disk == s.disk && t.vault == s.vault && t.published == s.published && t.receipts == s.receipts
            && t.forgotten == s.forgotten && t.placed == s.placed && t.answers == s.answers && t.now == s.now
            && t.requests == s.requests - {r} && t.processes.Keys == s.processes.Keys
  {
  }

  lemma AnswerKeeps(k: Kernel, s: State, r: nat, body: Receipt)
    requires Inv(k, s) && r in s.requests && Final(k, s, s.requests[r].ref, body)
    ensures Inv(k, Answer(s, r, body)) && Extends(s, Answer(s, r, body))
  {
    hide InVault, Grounded, RecordSound, RequestSound, Finish;
    FinishShape(s, r);
    var t := Answer(s, r, body);
    FinalStays(k, s, t, s.requests[r].ref, body);
    InvFromNew(k, s, t);
  }

  lemma FinishKeeps(k: Kernel, s: State, r: nat)
    requires Inv(k, s) && r in s.requests
    ensures Inv(k, Finish(s, r)) && Extends(s, Finish(s, r))
  {
    hide InVault, Grounded, Final, RecordSound, RequestSound, Finish;
    FinishShape(s, r);
    InvFromNew(k, s, Finish(s, r));
  }

  lemma AdvanceKeeps(k: Kernel, s: State, r: nat, stage: Stage)
    requires Inv(k, s) && r in s.requests && RequestSound(k, s, s.requests[r].(stage := stage))
    ensures Inv(k, Advance(s, r, stage)) && Extends(s, Advance(s, r, stage))
  {
    hide InVault, Grounded, Final, RecordSound, RequestSound;
    var t := Advance(s, r, stage);
    RequestStays(k, s, t, t.requests[r]);
    InvFromNew(k, s, t);
  }

  lemma ReceiptIsGrounded(k: Kernel, s: State, ref: CaptureRef)
    requires Inv(k, s) && ref in s.receipts
    ensures Grounded(k, s, ref, s.receipts[ref])
  {
  }

  lemma RecordedInv(k: Kernel, s: State, ref: CaptureRef, body: Receipt)
    requires Inv(k, s) && Grounded(k, s, ref, body)
    ensures Inv(k, Recorded(s, ref, body)) && Extends(s, Recorded(s, ref, body))
  {
    hide InVault, Grounded, Final, RecordSound, RequestSound;
    var t := Recorded(s, ref, body);
    FinalStays(k, s, t, ref, body);
    InvFromNew(k, s, t);
  }

  lemma RecordedKeeps(k: Kernel, s: State, ref: CaptureRef, body: Receipt)
    requires Inv(k, s) && Grounded(k, s, ref, body)
    ensures Inv(k, Recorded(s, ref, body)) && Extends(s, Recorded(s, ref, body))
    ensures Final(k, Recorded(s, ref, body), ref, Recorded(s, ref, body).receipts[ref])
    ensures Final(k, s, ref, body) ==> Final(k, Recorded(s, ref, body), ref, body)
  {
    hide InVault, RecordSound, RequestSound, Inv;
    var t := Recorded(s, ref, body);
    FinalStays(k, s, t, ref, body);
    RecordedInv(k, s, ref, body);
    if ref in s.receipts {
      ReceiptIsGrounded(k, s, ref);
    }
  }

  lemma PublishedKeeps(k: Kernel, s: State, ref: CaptureRef)
    requires Inv(k, s)
    ensures Inv(k, Published(s, ref, k.memoryId(ref))) && Extends(s, Published(s, ref, k.memoryId(ref)))
  {
    hide Grounded, Final, RecordSound, RequestSound;
    var id := k.memoryId(ref);
    if id !in s.vault || s.vault[id] == Ours(ref) {
      InvFromNew(k, s, Published(s, ref, id));
    } else {
      ExtendsSelf(s);
    }
  }

  lemma DiskKeeps(k: Kernel, s: State, p: nat, st: Store)
    requires Inv(k, s) && p in s.processes
    requires forall at <- st.disk.Keys :: (at in s.disk && s.disk[at] == st.disk[at]) || RecordSound(k, s, at, st.disk[at])
    ensures Inv(k, WithStore(s, p, st)) && Extends(s, WithStore(s, p, st))
  {
    hide InVault, Grounded, Final, RecordSound, RequestSound;
    var t := WithStore(s, p, st);
    forall at <- t.disk.Keys | !(at in s.disk && s.disk[at] == t.disk[at])
      ensures RecordSound(k, t, at, t.disk[at])
    {
      RecordStays(k, s, t, at, t.disk[at]);
    }
    InvFromNew(k, s, t);
  }

  lemma ExtendsChain(s: State, t: State, u: State)
    requires Extends(s, t) && Extends(t, u)
    ensures Extends(s, u)
  {
  }

  lemma AskKeeps(k: Kernel, s: State, r: nat, seen: Option<Payload>, refusal: Receipt, t: State)
    requires Inv(k, s) && r in s.requests && AskStep(s, r, seen, refusal, t)
    ensures Inv(k, t) && Extends(s, t)
  {
    hide RecordSound, Finish;
    var ref := s.requests[r].ref;
    match seen
    case None => AdvanceKeeps(k, s, r, Asked(false));
    case Some(payload) =>
      if payload != ref.payload {
        AnswerKeeps(k, s, r, refusal);
      } else if ref in s.receipts {
        AdvanceKeeps(k, s, r, Replaying(s.receipts[ref]));
      } else {
        AdvanceKeeps(k, s, r, Asked(true));
      }
  }

  lemma ReplaySettleKeeps(k: Kernel, s: State, r: nat, write: Landing, t: State)
    requires Inv(k, s) && r in s.requests && ReplaySettleStep(s, r, write, t)
    ensures Inv(k, t) && Extends(s, t)
  {
    hide Finish, Inv, Extends, Grounded;
    var q := s.requests[r];
    RequestIsSound(k, s, r);
    var st := SettleFromReplay(StoreOf(s, q.process), q.ref.at, q.ref.payload, q.stage.response, write);
    var u := WithStore(s, q.process, st);
    if q.ref.at in s.disk {
      RecordIsSound(k, s, q.ref.at);
    }
    DiskKeeps(k, s, q.process, st);
    FinalStays(k, s, u, q.ref, q.stage.response);
    if write == Lands || !Unfinished(StoreOf(s, q.process), q.ref.at, q.ref.payload) {
      AnswerKeeps(k, u, r, q.stage.response);
    } else {
      FinishKeeps(k, u, r);
    }
    ExtendsChain(s, u, t);
  }

  lemma RequestIsSound(k: Kernel, s: State, r: nat)
    requires Inv(k, s) && r in s.requests
    ensures RequestSound(k, s, s.requests[r])
  {
  }

  lemma RecordIsSound(k: Kernel, s: State, at: KeyRef)
    requires Inv(k, s) && at in s.disk
    ensures RecordSound(k, s, at, s.disk[at])
  {
  }

  lemma ReserveKeeps(k: Kernel, s: State, r: nat, faults: Faults, refusal: Receipt, t: State)
    requires Inv(k, s) && r in s.requests && ReserveStep(k, s, r, faults, refusal, t)
    ensures Inv(k, t) && Extends(s, t)
  {
    hide Finish, Inv, Extends, Grounded, Reserve;
    var q := s.requests[r];
    var store := StoreOf(s, q.process);
    var (st, outcome) := Reserve(store, q.ref.at, q.ref.payload, k.memoryId(q.ref), s.now, faults);
    ReserveDisk(store, q.ref.at, q.ref.payload, k.memoryId(q.ref), s.now, faults);
    if q.ref.at in s.disk {
      RecordIsSound(k, s, q.ref.at);
    }
    match outcome
    case Claimed(record, takenOver) =>
      var u := WithStore(s, q.process, st);
      DiskKeeps(k, s, q.process, st);
      HoldKeeps(k, u, q.process, q.ref.at, r);
      var v := Hold(u, q.process, q.ref.at, r);
      AdvanceKeeps(k, v, r, Trimming(Claim(record, takenOver)));
      ExtendsChain(s, u, v);
      ExtendsChain(s, v, t);
    case Replay(response) =>
      var u := WithStore(s, q.process, st);
      DiskKeeps(k, s, q.process, st);
      FinalStays(k, s, u, q.ref, response);
      if q.stage.found {
        AdvanceKeeps(k, u, r, Backfilling(response));
      } else {
        AnswerKeeps(k, u, r, response);
      }
      ExtendsChain(s, u, t);
    case Conflict =>
      DiskKeeps(k, s, q.process, st);
      AnswerKeeps(k, WithStore(s, q.process, st), r, refusal) by {
        assert Grounded(k, WithStore(s, q.process, st), q.ref, refusal) by {
          GroundedRefusal(k, WithStore(s, q.process, st), q.ref, refusal);
        }
      }
      ExtendsChain(s, WithStore(s, q.process, st), t);
    case _ =>
      DiskKeeps(k, s, q.process, st);
      FinishKeeps(k, WithStore(s, q.process, st), r);
      ExtendsChain(s, WithStore(s, q.process, st), t);
  }

  lemma TrimKeeps(k: Kernel, s: State, r: nat, stuck: set<KeyRef>, victims: set<KeyRef>, t: State)
    requires Inv(k, s) && r in s.requests && TrimStep(s, r, stuck, victims, t)
    ensures Inv(k, t) && Extends(s, t)
  {
    hide Inv, Extends, TrimVictims;
    RequestIsSound(k, s, r);
    var q := s.requests[r];
    var left := Trim(StoreOf(s, q.process), victims);
    var u := WithStore(s, q.process, left);
    DiskKeeps(k, s, q.process, left);
    var v := Advance(u, r, if q.stage.claim.takenOver then Checking(q.stage.claim) else Authorizing(q.stage.claim));
    AdvanceKeeps(k, u, r, v.requests[r].stage);
    ExtendsChain(s, u, v);
    CountKeeps(k, v, 0);
    ExtendsChain(s, v, t);
  }

  /** The count of lost trims is history only. */
  lemma CountKeeps(k: Kernel, s: State, n: nat)
    requires Inv(k, s)
    ensures Inv(k, s.(untrimmed := n)) && Extends(s, s.(untrimmed := n))
  {
    hide Grounded, Final, RecordSound;
    InvFromNew(k, s, s.(untrimmed := n));
  }

  lemma GroundedRefusal(k: Kernel, s: State, ref: CaptureRef, body: Receipt)
    requires body.state != Applied
    ensures Grounded(k, s, ref, body)
  {
  }

  lemma HoldKeeps(k: Kernel, s: State, p: nat, at: KeyRef, r: nat)
    requires Inv(k, s) && p in s.processes
    ensures Inv(k, Hold(s, p, at, r)) && Extends(s, Hold(s, p, at, r))
  {
    hide InVault, Grounded, Final, RecordSound, RequestSound;
    InvFromNew(k, s, Hold(s, p, at, r));
  }

  lemma OursIsPlaced(k: Kernel, s: State, id: string, ref: CaptureRef)
    requires Inv(k, s) && id in s.vault && s.vault[id] == Ours(ref)
    ensures ref in s.placed
  {
  }

  lemma CheckKeeps(k: Kernel, s: State, r: nat, body: Receipt, t: State)
    requires Inv(k, s) && r in s.requests && CheckStep(s, r, body, t)
    ensures Inv(k, t) && Extends(s, t)
  {
    hide Inv, Extends;
    RequestIsSound(k, s, r);
    var id, ref := s.requests[r].stage.claim.record.memoryId, s.requests[r].ref;
    if id in s.vault && s.vault[id] == Ours(ref) {
      OursIsPlaced(k, s, id, ref);
    }
    AdvanceKeeps(k, s, r, t.requests[r].stage);
  }

  lemma AuthorizeKeeps(k: Kernel, s: State, r: nat, live: bool, body: Receipt, t: State)
    requires Inv(k, s) && r in s.requests && Step(k, s, Authorize(r, live, body), t)
    ensures Inv(k, t) && Extends(s, t)
  {
    hide Inv, Extends;
    RequestIsSound(k, s, r);
    AdvanceKeeps(k, s, r, t.requests[r].stage);
  }

  lemma PublishKeeps(k: Kernel, s: State, r: nat, policy: Policy, body: Receipt, t: State)
    requires Inv(k, s) && r in s.requests && PublishStep(s, r, policy, body, t)
    ensures Inv(k, t) && Extends(s, t)
  {
    hide Inv, Extends;
    RequestIsSound(k, s, r);
    if policy == Write {
      var u := Published(s, s.requests[r].ref, s.requests[r].stage.claim.record.memoryId);
      PublishedKeeps(k, s, s.requests[r].ref);
      var id, ref := s.requests[r].stage.claim.record.memoryId, s.requests[r].ref;
      if u.vault[id] == Ours(ref) {
        OursIsPlaced(k, u, id, ref);
      }
      AdvanceKeeps(k, u, r, t.requests[r].stage);
      ExtendsChain(s, u, t);
    } else {
      AdvanceKeeps(k, s, r, t.requests[r].stage);
    }
  }

  lemma RecordReceiptKeeps(k: Kernel, s: State, r: nat, t: State)
    requires Inv(k, s) && r in s.requests && Step(k, s, RecordReceipt(r), t)
    ensures Inv(k, t) && Extends(s, t)
  {
    hide Inv, Extends, Grounded;
    RequestIsSound(k, s, r);
    var ref, body := s.requests[r].ref, s.requests[r].stage.body;
    var u := Recorded(s, ref, body);
    RecordedKeeps(k, s, ref, body);
    AdvanceKeeps(k, u, r, Settling(s.requests[r].stage.claim, u.receipts[ref]));
    ExtendsChain(s, u, t);
  }

  lemma BackfillKeeps(k: Kernel, s: State, r: nat, t: State)
    requires Inv(k, s) && r in s.requests && Step(k, s, Backfill(r), t)
    ensures Inv(k, t) && Extends(s, t)
  {
    hide Inv, Extends, Grounded, Finish;
    RequestIsSound(k, s, r);
    var ref, replay := s.requests[r].ref, s.requests[r].stage.replay;
    RecordedKeeps(k, s, ref, replay);
    AnswerKeeps(k, Recorded(s, ref, replay), r, replay);
    ExtendsChain(s, Recorded(s, ref, replay), t);
  }

  lemma SettleKeeps(k: Kernel, s: State, r: nat, write: Landing, t: State)
    requires Inv(k, s) && r in s.requests && SettleStep(s, r, write, t)
    ensures Inv(k, t) && Extends(s, t)
  {
    hide Inv, Extends, Finish, Grounded;
    RequestIsSound(k, s, r);
    var q := s.requests[r];
    var st := SettleBy(StoreOf(s, q.process), q.ref.at, q.stage.claim.record, q.stage.body, write);
    var u := WithStore(s, q.process, st);
    DiskKeeps(k, s, q.process, st);
    FinalStays(k, s, u, q.ref, q.stage.body);
    if write == Lands {
      AnswerKeeps(k, u, r, q.stage.body);
    } else {
      FinishKeeps(k, u, r);
    }
    ExtendsChain(s, u, t);
  }

  lemma FailKeeps(k: Kernel, s: State, r: nat, landed: bool, t: State)
    requires Inv(k, s) && r in s.requests && FailStep(s, r, landed, t)
    ensures Inv(k, t) && Extends(s, t)
  {
    hide Inv, Extends, Finish, InVault;
    RequestIsSound(k, s, r);
    var q := s.requests[r];
    var u := PutDown(s, q, landed);
    if landed && q.stage.Publishing? {
      PublishedKeeps(k, s, q.ref);
    } else if landed && q.stage.Recording? {
      RecordedKeeps(k, s, q.ref, q.stage.body);
    } else if landed && q.stage.Backfilling? {
      RecordedKeeps(k, s, q.ref, q.stage.replay);
    } else {
      ExtendsSelf(s);
    }
    FinishKeeps(k, u, r);
    ExtendsChain(s, u, t);
  }

  lemma ExtendsSelf(s: State)
    ensures Extends(s, s)
  {
  }

  lemma WorldKeeps(k: Kernel, s: State, l: Label, t: State)
    requires Inv(k, s) && Step(k, s, l, t)
    requires l.Tick? || l.Boot? || l.Crash? || l.ForeignWrite? || l.Erase? || l.ForgetPublication? || l.Arrive?
    ensures Inv(k, t) && Extends(s, t)
  {
    hide Grounded, Final, RecordSound, Kept, HalfDone;
    InvFromNew(k, s, t);
  }

  /** Every step keeps the invariant and only extends the vault, removals aside,
      and the answers. */
  lemma StepKeeps(k: Kernel, s: State, l: Label, t: State)
    requires Inv(k, s) && Step(k, s, l, t)
    ensures Inv(k, t) && Extends(s, t)
  {
    hide Inv, Extends;
    match l
    case Refuse(r, body) => AnswerKeeps(k, s, r, body);
    case Ask(r, seen, refusal) => AskKeeps(k, s, r, seen, refusal, t);
    case ReplaySettle(r, write) => ReplaySettleKeeps(k, s, r, write, t);
    case ReserveKey(r, faults, refusal) => ReserveKeeps(k, s, r, faults, refusal, t);
    case TrimStore(r, stuck, victims) => TrimKeeps(k, s, r, stuck, victims, t);
    case Backfill(r) => BackfillKeeps(k, s, r, t);
    case Check(r, body) => CheckKeeps(k, s, r, body, t);
    case Authorize(r, live, body) => AuthorizeKeeps(k, s, r, live, body, t);
    case Publish(r, policy, body) => PublishKeeps(k, s, r, policy, body, t);
    case RecordReceipt(r) => RecordReceiptKeeps(k, s, r, t);
    case SettleKey(r, write) => SettleKeeps(k, s, r, write, t);
    case Fail(r, landed) => FailKeeps(k, s, r, landed, t);
    case _ => WorldKeeps(k, s, l, t);
  }

  // ---------------------------------------------------------------- over runs

  lemma {:induction false} RunKeeps(k: Kernel, states: seq<State>, labels: seq<Label>, i: nat)
    requires Run(k, states, labels) && i < |states|
    ensures Inv(k, states[i])
    decreases i
  {
    hide Step;
    if i == 0 {
      assert Inv(k, states[0]);
    } else {
      hide Inv;
      RunKeeps(k, states, labels, i - 1);
      assert Step(k, states[i - 1], labels[i - 1], states[i - 1 + 1]);
      StepKeeps(k, states[i - 1], labels[i - 1], states[i]);
    }
  }

  lemma {:induction false} RunExtends(k: Kernel, states: seq<State>, labels: seq<Label>, i: nat, j: nat)
    requires Run(k, states, labels) && i <= j < |states|
    ensures Extends(states[i], states[j])
    decreases j
  {
    hide Step, Inv, Extends;
    if i == j {
      ExtendsSelf(states[i]);
    } else {
      RunExtends(k, states, labels, i, j - 1);
      RunKeeps(k, states, labels, j - 1);
      assert Step(k, states[j - 1], labels[j - 1], states[j - 1 + 1]);
      StepKeeps(k, states[j - 1], labels[j - 1], states[j]);
      ExtendsChain(states[i], states[j - 1], states[j]);
    }
  }

  /** In every run, one (device, key, identity) has at most one memory, ever. */
  lemma AtMostOneMemory(k: Kernel, states: seq<State>, labels: seq<Label>, i: nat, j: nat, id: string, other: string, ref: CaptureRef)
    requires Run(k, states, labels) && i < |states| && j < |states|
    requires id in states[i].vault && states[i].vault[id] == Ours(ref)
    requires other in states[j].vault && states[j].vault[other] == Ours(ref)
    ensures id == other
  {
    RunKeeps(k, states, labels, i);
    RunKeeps(k, states, labels, j);
  }

  /** Nothing about the vault and the published store changes. */
  predicate SameVault(s: State, t: State) {
    t.vault == s.vault && t.placed == s.placed && t.published == s.published
  }

  lemma FinishSameVault(s: State, r: nat, body: Receipt)
    requires r in s.requests
    ensures SameVault(s, Finish(s, r)) && SameVault(s, Answer(s, r, body))
    ensures Finish(s, r).receipts == s.receipts && Answer(s, r, body).receipts == s.receipts
  {
    FinishShape(s, r);
  }

  lemma AskSameVault(s: State, r: nat, seen: Option<Payload>, refusal: Receipt, t: State)
    requires r in s.requests && AskStep(s, r, seen, refusal, t)
    ensures SameVault(s, t) && t.receipts == s.receipts
  {
    hide Answer, IsRefusal;
    FinishSameVault(s, r, refusal);
  }

  lemma ReserveSameVault(k: Kernel, s: State, r: nat, faults: Faults, refusal: Receipt, t: State)
    requires r in s.requests && ReserveStep(k, s, r, faults, refusal, t)
    ensures SameVault(s, t) && t.receipts == s.receipts
  {
    hide Answer, Finish, IsRefusal, Reserve, Unlocked;
    var q := s.requests[r];
    var (st, outcome) := Reserve(StoreOf(s, q.process), q.ref.at, q.ref.payload, k.memoryId(q.ref), s.now, faults);
    var u := WithStore(s, q.process, st);
    FinishSameVault(u, r, refusal);
    if outcome.Replay? {
      FinishSameVault(u, r, outcome.response);
    }
  }

  lemma SettleSameVault(s: State, l: Label, t: State)
    requires l.SettleKey? || l.ReplaySettle?
    requires l.request in s.requests
    requires l.SettleKey? ==> SettleStep(s, l.request, l.write, t)
    requires l.ReplaySettle? ==> ReplaySettleStep(s, l.request, l.write, t)
    ensures SameVault(s, t) && t.receipts == s.receipts
  {
    hide Answer, Finish, SettleBy, SettleFromReplay, Unlocked, Unfinished;
    var q := s.requests[l.request];
    var st := if l.SettleKey? then SettleBy(StoreOf(s, q.process), q.ref.at, q.stage.claim.record, q.stage.body, l.write)
              else SettleFromReplay(StoreOf(s, q.process), q.ref.at, q.ref.payload, q.stage.response, l.write);
    FinishSameVault(WithStore(s, q.process, st), l.request, if l.SettleKey? then q.stage.body else q.stage.response);
  }

  /** Every step but five leaves both as they are. */
  lemma MostStepsSameVault(k: Kernel, s: State, l: Label, t: State)
    requires Step(k, s, l, t) && !l.Publish? && !l.Fail? && !l.Erase? && !l.ForeignWrite? && !l.ForgetPublication?
    ensures SameVault(s, t) && (!l.RecordReceipt? && !l.Backfill? ==> t.receipts == s.receipts)
  {
    hide AskStep, ReserveStep, SettleStep, ReplaySettleStep, Answer, Finish, TrimVictims, HalfDone, Open, IsRefusal, Describes, Served;
    match l
    case Refuse(r, body) => FinishSameVault(s, r, body);
    case Ask(r, seen, refusal) => AskSameVault(s, r, seen, refusal, t);
    case ReserveKey(r, faults, refusal) => ReserveSameVault(k, s, r, faults, refusal, t);
    case SettleKey(r, write) => SettleSameVault(s, l, t);
    case ReplaySettle(r, write) => SettleSameVault(s, l, t);
    case Backfill(r) =>
      var u := Recorded(s, s.requests[r].ref, s.requests[r].stage.replay);
      FinishSameVault(u, r, s.requests[r].stage.replay);
    case _ =>
  }

  /** ... and publishing, landed or not, puts at most its own memory there. */
  lemma PublishPlaces(k: Kernel, s: State, r: nat, policy: Policy, body: Receipt, t: State)
    requires r in s.requests && RequestSound(k, s, s.requests[r]) && PublishStep(s, r, policy, body, t)
    ensures SameVault(s, t) || SameVault(Published(s, s.requests[r].ref, k.memoryId(s.requests[r].ref)), t)
  {
    PublishesOwn(k, s, s.requests[r]);
    hide IsRefusal, Describes, RequestSound, Published;
  }

  lemma PutDownShape(s: State, q: Request, landed: bool)
    ensures var u := PutDown(s, q, landed);
            && u.requests == s.requests && u.processes == s.processes && u.disk == s.disk && u.now == s.now && u.untrimmed == s.untrimmed
            && SameVault(if landed && q.stage.Publishing? then Published(s, q.ref, q.stage.claim.record.memoryId) else s, u)
  {
  }

  lemma FailPlaces(k: Kernel, s: State, r: nat, landed: bool, t: State)
    requires r in s.requests && RequestSound(k, s, s.requests[r]) && FailStep(s, r, landed, t)
    ensures SameVault(s, t) || SameVault(Published(s, s.requests[r].ref, k.memoryId(s.requests[r].ref)), t)
  {
    var q := s.requests[r];
    if q.stage.Publishing? {
      PublishesOwn(k, s, q);
    }
    hide Finish, RequestSound, Published, PutDown;
    PutDownShape(s, q, landed);
    FinishSameVault(PutDown(s, q, landed), r, Receipt("", Rejected, "", ""));
  }

  lemma PublishedRequests(s: State, ref: CaptureRef, id: string)
    ensures Published(s, ref, id).requests == s.requests && Published(s, ref, id).processes == s.processes
  {
  }

  lemma PublishingPlaces(k: Kernel, s: State, l: Label, t: State)
    requires Inv(k, s) && Step(k, s, l, t) && (l.Publish? || l.Fail?)
    ensures var ref := s.requests[l.request].ref;
            SameVault(s, t) || SameVault(Published(s, ref, k.memoryId(ref)), t)
  {
    hide Inv, PublishStep, FailStep, RequestSound;
    RequestIsSound(k, s, l.request);
    if l.Publish? {
      PublishPlaces(k, s, l.request, l.policy, l.body, t);
    } else {
      FailPlaces(k, s, l.request, l.landed, t);
    }
  }

  lemma PublishesOwn(k: Kernel, s: State, q: Request)
    requires RequestSound(k, s, q) && q.stage.Publishing?
    ensures q.stage.claim.record.memoryId == k.memoryId(q.ref)
  {
  }

  /** A step puts a capture on the record of what was placed only by putting its
      memory in the vault. */
  lemma StepPlaces(k: Kernel, s: State, l: Label, t: State, ref: CaptureRef)
    requires Inv(k, s) && Step(k, s, l, t) && ref in t.placed
    ensures ref in s.placed || InVault(k, t, ref)
  {
    hide Inv, AskStep, ReserveStep, SettleStep, ReplaySettleStep, TrimStep, CrashStep, BootStep, CheckStep, PublishStep, FailStep;
    if l.Publish? || l.Fail? {
      PublishingPlaces(k, s, l, t);
    } else if !l.Erase? && !l.ForeignWrite? && !l.ForgetPublication? {
      MostStepsSameVault(k, s, l, t);
    }
  }

  /** Only a removal takes a memory out of the vault. */
  lemma StepLeavesMemory(k: Kernel, s: State, l: Label, t: State, id: string)
    requires Inv(k, s) && Step(k, s, l, t) && id in s.vault && l != Erase(id)
    ensures id in t.vault && t.vault[id] == s.vault[id]
  {
    hide Inv, AskStep, ReserveStep, SettleStep, ReplaySettleStep, TrimStep, CrashStep, BootStep, CheckStep, PublishStep, FailStep;
    if l.Publish? || l.Fail? {
      PublishingPlaces(k, s, l, t);
    } else if !l.Erase? && !l.ForeignWrite? && !l.ForgetPublication? {
      MostStepsSameVault(k, s, l, t);
    }
  }

  lemma {:induction false} MemoryStays(k: Kernel, states: seq<State>, labels: seq<Label>, i: nat, j: nat, id: string)
    requires Run(k, states, labels) && i <= j < |states| && id in states[i].vault
    requires forall m :: i <= m < j ==> labels[m] != Erase(id)
    ensures id in states[j].vault && states[j].vault[id] == states[i].vault[id]
    decreases j
  {
    hide Step, Inv;
    if i < j {
      MemoryStays(k, states, labels, i, j - 1, id);
      RunKeeps(k, states, labels, j - 1);
      assert Step(k, states[j - 1], labels[j - 1], states[j - 1 + 1]);
      StepLeavesMemory(k, states[j - 1], labels[j - 1], states[j], id);
    }
  }

  lemma {:induction false} PlacedOnce(k: Kernel, states: seq<State>, labels: seq<Label>, i: nat, ref: CaptureRef) returns (h: nat)
    requires Run(k, states, labels) && i < |states| && ref in states[i].placed
    ensures h <= i && InVault(k, states[h], ref)
    decreases i
  {
    hide Step, InVault, Inv;
    h := i;
    if i > 0 && !InVault(k, states[i], ref) {
      RunKeeps(k, states, labels, i - 1);
      assert Step(k, states[i - 1], labels[i - 1], states[i - 1 + 1]);
      StepPlaces(k, states[i - 1], labels[i - 1], states[i], ref);
      h := PlacedOnce(k, states, labels, i - 1, ref);
    }
  }

  /** In every run, an applied answer names a memory that was in the vault for
      that very capture by then, and that stays until someone removes it. */
  lemma AppliedAnswerIsInVault(k: Kernel, states: seq<State>, labels: seq<Label>, i: nat, j: nat, ref: CaptureRef, body: Receipt)
    returns (h: nat)
    requires Run(k, states, labels) && i < |states| && j < |states|
    requires (ref, body) in states[i].answers && body.state == Applied
    ensures h <= i && body.memoryId in states[h].vault && states[h].vault[body.memoryId] == Ours(ref)
    ensures h <= j && (forall m :: h <= m < j ==> labels[m] != Erase(body.memoryId)) ==>
              body.memoryId in states[j].vault && states[j].vault[body.memoryId] == Ours(ref)
  {
    RunKeeps(k, states, labels, i);
    assert Final(k, states[i], ref, body);
    h := PlacedOnce(k, states, labels, i, ref);
    if h <= j && (forall m :: h <= m < j ==> labels[m] != Erase(body.memoryId)) {
      MemoryStays(k, states, labels, h, j, body.memoryId);
    }
  }

  /** In every run, two applied answers to one capture are the same bytes, for
      as long as the published store has not dropped that publication. */
  lemma AppliedAnswersAreIdentical(k: Kernel, states: seq<State>, labels: seq<Label>, i: nat, ref: CaptureRef, body: Receipt, other: Receipt)
    requires Run(k, states, labels) && i < |states|
    requires (ref, body) in states[i].answers && (ref, other) in states[i].answers
    requires body.state == Applied && other.state == Applied
    requires ref !in states[i].forgotten
    ensures body == other
  {
    RunKeeps(k, states, labels, i);
    assert Final(k, states[i], ref, body) && Final(k, states[i], ref, other);
  }

  // ------------------------------------------------- what a receipt may hold

  /** The step that puts a reservation's replay where a publication has no receipt. */
  ghost predicate Backfills(s: State, l: Label) {
    && (l.Backfill? || (l.Fail? && l.landed)) && l.request in s.requests
    && s.requests[l.request].stage.Backfilling? && s.requests[l.request].ref !in s.receipts
  }

  ghost predicate BackfillsApplied(s: State, l: Label) {
    Backfills(s, l) ==> s.requests[l.request].stage.replay.state == Applied
  }

  ghost predicate AppliedReceipts(s: State) {
    forall ref <- s.receipts.Keys :: s.receipts[ref].state == Applied
  }

  lemma RecordedApplied(s: State, ref: CaptureRef, body: Receipt)
    requires AppliedReceipts(s) && (ref in s.receipts || body.state == Applied)
    ensures AppliedReceipts(Recorded(s, ref, body))
  {
  }

  lemma FailReceipts(k: Kernel, s: State, r: nat, landed: bool, t: State)
    requires Inv(k, s) && AppliedReceipts(s) && r in s.requests && FailStep(s, r, landed, t)
    requires BackfillsApplied(s, Fail(r, landed))
    ensures AppliedReceipts(t)
  {
    hide Finish, Inv, AppliedReceipts;
    var q := s.requests[r];
    RequestIsSound(k, s, r);
    FinishSameVault(PutDown(s, q, landed), r, Receipt("", Rejected, "", ""));
    if landed && q.stage.Recording? {
      RecordedApplied(s, q.ref, q.stage.body);
    } else if landed && q.stage.Backfilling? {
      RecordedApplied(s, q.ref, q.stage.replay);
    }
    SameReceipts(PutDown(s, q, landed), t);
    if !(landed && (q.stage.Recording? || q.stage.Backfilling?)) {
      SameReceipts(s, t);
    }
  }

  lemma SameReceipts(s: State, t: State)
    requires t.receipts == s.receipts
    ensures AppliedReceipts(t) <==> AppliedReceipts(s)
  {
  }

  lemma PublishingReceipts(s: State, r: nat, policy: Policy, body: Receipt, t: State)
    requires r in s.requests && PublishStep(s, r, policy, body, t)
    ensures t.receipts == s.receipts
  {
  }

  lemma StepReceipts(k: Kernel, s: State, l: Label, t: State)
    requires Inv(k, s) && AppliedReceipts(s) && Step(k, s, l, t)
    requires BackfillsApplied(s, l)
    ensures AppliedReceipts(t)
  {
    hide Inv, AppliedReceipts, AskStep, ReserveStep, SettleStep, ReplaySettleStep, TrimStep, CrashStep, BootStep, CheckStep, FailStep, PublishStep, Answer,
         Finish;
    match l
    case Fail(r, landed) => FailReceipts(k, s, r, landed, t);
    case Backfill(r) =>
      RecordedApplied(s, s.requests[r].ref, s.requests[r].stage.replay);
      FinishSameVault(Recorded(s, s.requests[r].ref, s.requests[r].stage.replay), r, s.requests[r].stage.replay);
      SameReceipts(Recorded(s, s.requests[r].ref, s.requests[r].stage.replay), t);
    case RecordReceipt(r) =>
      RequestIsSound(k, s, r);
      RecordedApplied(s, s.requests[r].ref, s.requests[r].stage.body);
      SameReceipts(Recorded(s, s.requests[r].ref, s.requests[r].stage.body), t);
    case Publish(r, policy, body) =>
      PublishingReceipts(s, r, policy, body, t);
      SameReceipts(s, t);
    case Erase(id) => SameReceipts(s, t);
    case ForeignWrite(id) => SameReceipts(s, t);
    case ForgetPublication(ref) => FewerReceipts(s, t, ref);
    case _ =>
      MostStepsSameVault(k, s, l, t);
      SameReceipts(s, t);
  }

  lemma FewerReceipts(s: State, t: State, ref: CaptureRef)
    requires AppliedReceipts(s) && t.receipts == s.receipts - {ref}
    ensures AppliedReceipts(t)
  {
  }

  /** In a run that never puts a replay other than an applied one in the place of a
      missing receipt, every receipt is an applied one. */
  lemma {:induction false} ReceiptsStayApplied(k: Kernel, states: seq<State>, labels: seq<Label>, i: nat)
    requires Run(k, states, labels) && i < |states|
    requires forall j {:trigger labels[j]} :: 0 <= j < |labels| ==> BackfillsApplied(states[j], labels[j])
    ensures AppliedReceipts(states[i])
    decreases i
  {
    hide Step, BackfillsApplied;
    if i > 0 {
      ReceiptsStayApplied(k, states, labels, i - 1);
      hide AppliedReceipts, Inv;
      RunKeeps(k, states, labels, i - 1);
      assert Step(k, states[i - 1], labels[i - 1], states[i - 1 + 1]);
      StepReceipts(k, states[i - 1], labels[i - 1], states[i]);
    }
  }

  lemma BackfillPuts(k: Kernel, s: State, l: Label, t: State)
    requires Step(k, s, l, t) && !BackfillsApplied(s, l)
    ensures !AppliedReceipts(t)
  {
    hide Finish;
    var q := s.requests[l.request];
    FinishSameVault(Recorded(s, q.ref, q.stage.replay), l.request, q.stage.replay);
    assert q.ref in t.receipts.Keys && t.receipts[q.ref] == q.stage.replay;
  }

  /** All receipts of a run are applied ones exactly when every replay it puts in
      place of a missing receipt is. */
  lemma ReceiptsAreApplied(k: Kernel, states: seq<State>, labels: seq<Label>)
    requires Run(k, states, labels)
    ensures (forall s <- states :: AppliedReceipts(s)) <==>
            forall j {:trigger labels[j]} :: 0 <= j < |labels| ==> BackfillsApplied(states[j], labels[j])
  {
    hide Step, BackfillsApplied, AppliedReceipts;
    if forall j {:trigger labels[j]} :: 0 <= j < |labels| ==> BackfillsApplied(states[j], labels[j]) {
      forall s <- states
        ensures AppliedReceipts(s)
      {
        var i :| 0 <= i < |states| && states[i] == s;
        ReceiptsStayApplied(k, states, labels, i);
      }
    } else {
      var j :| 0 <= j < |labels| && !BackfillsApplied(states[j], labels[j]);
      assert Step(k, states[j], labels[j], states[j + 1]);
      BackfillPuts(k, states[j], labels[j], states[j + 1]);
      assert states[j + 1] in states;
    }
  }
}
