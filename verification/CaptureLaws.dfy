/** What reserving and settling decide, said over the record's own fields, the
    clock and the write alone: which request is answered how, and what the store
    then holds. */
module CaptureLaws {
  import opened Reservations
  import opened Capture

  /** The key has a record that still stands: it is not past its retention, and
      a pending one is younger than the age at which crashed claims are swept. */
  ghost predicate Standing(s: Store, at: KeyRef, now: int) {
    && at in s.disk && now < s.disk[at].expiresAt
    && (s.disk[at].state == Pending ==> now < s.disk[at].reservedAt + 240_000_000_000)
  }

  /** A standing record of this very capture. */
  ghost predicate Mine(s: Store, at: KeyRef, identity: Payload, now: int) {
    Standing(s, at, now) && s.disk[at].identity == identity
  }

  ghost predicate Answered(r: Record) {
    r.state == Settled && r.response != None
  }

  /** A standing record of this capture that has no answer and is a minute old. */
  ghost predicate Reclaimed(s: Store, at: KeyRef, identity: Payload, now: int) {
    && Mine(s, at, identity, now) && !Answered(s.disk[at])
    && s.disk[at].reservedAt + 60_000_000_000 <= now
  }

  /** The claims of other keys that are still live. */
  ghost function Waiting(s: Store, at: KeyRef, now: int): set<KeyRef> {
    set x | x in s.pending && now < s.pending[x] + 240_000_000_000 && !(x == at && at in s.disk)
  }

  lemma StandingIsNotFresh(s: Store, at: KeyRef, now: int)
    ensures Standing(s, at, now) <==> !Fresh(s, at, now)
  {
  }

  lemma ClearedWaits(s: Store, at: KeyRef, now: int, stuck: set<KeyRef>)
    requires Fresh(s, at, now)
    ensures Cleared(s, at, now, stuck).pending.Keys == Waiting(s, at, now)
    ensures |Cleared(s, at, now, stuck).pending| == |Waiting(s, at, now)|
  {
    var pending := Cleared(s, at, now, stuck).pending;
    assert pending.Keys == Waiting(s, at, now);
    assert |pending| == |pending.Keys|;
  }

  /** Which of the six answers a reservation gives, for every store and clock. */
  lemma ReserveDecides(s: Store, at: KeyRef, identity: Payload, memoryId: string, now: int, faults: Faults)
    ensures var o := Reserve(s, at, identity, memoryId, now, faults).1;
            && (o == Conflict <==> Standing(s, at, now) && s.disk[at].identity != identity)
            && (forall a: Receipt :: o == Replay(a) <==>
                  Mine(s, at, identity, now) && s.disk[at].state == Settled && s.disk[at].response == Some(a))
            && (o == InFlight <==>
                  && Mine(s, at, identity, now) && !Answered(s.disk[at])
                  && now < s.disk[at].reservedAt + 60_000_000_000)
            && (o == TooManyPending <==> !Standing(s, at, now) && 64 <= |Waiting(s, at, now)|)
            && (o.Claimed? && o.takenOver <==> Reclaimed(s, at, identity, now) && faults.write == Lands)
            && (o.Claimed? && !o.takenOver <==>
                  !Standing(s, at, now) && |Waiting(s, at, now)| < 64 && faults.write == Lands)
  {
    StandingIsNotFresh(s, at, now);
    if Fresh(s, at, now) {
      ClearedWaits(s, at, now, faults.stuck);
      hide Cleared, Fresh, Standing, Waiting, NewRecord;
    }
  }

  /** Whole seconds, from the clock and seven days on. */
  ghost predicate StampedAt(r: Record, now: int) {
    && r.reservedAt % 1_000_000_000 == 0 && r.reservedAt <= now < r.reservedAt + 1_000_000_000
    && r.expiresAt == r.reservedAt + 604_800_000_000_000
  }

  ghost predicate NewClaim(r: Record, identity: Payload, memoryId: string, now: int) {
    r.identity == identity && r.memoryId == memoryId && r.state == Pending && r.response == None && StampedAt(r, now)
  }

  lemma NewRecordIsNew(identity: Payload, memoryId: string, now: int)
    ensures NewClaim(NewRecord(identity, memoryId, now), identity, memoryId, now)
  {
  }

  /** Claims forgotten while room is made: a past record of the key, and the
      crashed claims of other keys. */
  ghost function Overdue(s: Store, at: KeyRef, now: int): set<KeyRef> {
    set x | x in s.pending && s.pending[x] + 240_000_000_000 <= now && !(x == at && at in s.disk)
  }

  /** What is left once a key without a standing record was made room for: its past
      record and the crashed claims are gone from the census, and from the files
      too unless they are stuck. */
  ghost predicate RoomMade(s: Store, at: KeyRef, now: int, stuck: set<KeyRef>, t: Store) {
    && (forall x :: x in t.disk <==>
          x in s.disk && (x in stuck || (x != at && (x in s.pending ==> now < s.pending[x] + 240_000_000_000))))
    && (forall x <- t.disk :: t.disk[x] == s.disk[x])
    && t.pending.Keys == Waiting(s, at, now)
    && (forall x <- t.pending :: t.pending[x] == s.pending[x])
    && var gone := |Overdue(s, at, now)| + if at in s.disk then 1 else 0;
       t.total == if gone <= s.total then s.total - gone else 0
  }

  lemma ClearedMakesRoom(s: Store, at: KeyRef, now: int, stuck: set<KeyRef>)
    requires !Standing(s, at, now)
    ensures RoomMade(s, at, now, stuck, Cleared(s, at, now, stuck))
  {
    var collected := if at in s.disk then Forget(s.(disk := s.disk - ({at} - stuck)), at) else s;
    assert Stale(collected, now) == Overdue(s, at, now);
  }

  /** A write that was reported as failed leaves the census alone; the record is in
      the file when the write slipped. */
  ghost predicate FailedWrite(room: Store, at: KeyRef, identity: Payload, memoryId: string, now: int, slips: bool, t: Store) {
    && t.total == room.total && t.pending == room.pending
    && if slips then at in t.disk && NewClaim(t.disk[at], identity, memoryId, now) && t.disk == room.disk[at := t.disk[at]]
       else t.disk == room.disk
  }

  /** A standing record moves by a takeover alone, which keeps its memory id. */
  lemma StandingLeaves(s: Store, at: KeyRef, identity: Payload, memoryId: string, now: int, faults: Faults)
    requires Standing(s, at, now)
    ensures var (t, o) := Reserve(s, at, identity, memoryId, now, faults);
            && (o == Conflict || o.Replay? || o == InFlight ==> t == s)
            && (o.Claimed? ==>
                  && NewClaim(o.record, identity, s.disk[at].memoryId, now)
                  && t == Store(s.disk[at := o.record], s.total, s.pending[at := now]))
            && (o == WriteFailed ==> FailedWrite(s, at, identity, s.disk[at].memoryId, now, faults.write == Slips, t))
  {
    StandingIsNotFresh(s, at, now);
  }

  /** What an answer given after making room leaves behind. */
  ghost predicate Leaves(room: Store, at: KeyRef, identity: Payload, memoryId: string, now: int, slips: bool, t: Store, o: Outcome) {
    && (o == TooManyPending ==> t == room)
    && (o.Claimed? ==>
          && NewClaim(o.record, identity, memoryId, now)
          && t == Store(room.disk[at := o.record], room.total + 1, room.pending[at := now]))
    && (o == WriteFailed ==> FailedWrite(room, at, identity, memoryId, now, slips, t))
  }

  lemma ClearedLeaves(s: Store, at: KeyRef, identity: Payload, memoryId: string, now: int, faults: Faults)
    requires Fresh(s, at, now)
    ensures var (t, o) := Reserve(s, at, identity, memoryId, now, faults);
            Leaves(Cleared(s, at, now, faults.stuck), at, identity, memoryId, now, faults.write == Slips, t, o)
  {
    NewRecordIsNew(identity, memoryId, now);
    hide Cleared, Fresh, NewRecord, NewClaim;
  }

  /** Without one the store makes room first, whatever the answer. */
  lemma FreshLeaves(s: Store, at: KeyRef, identity: Payload, memoryId: string, now: int, faults: Faults)
    requires !Standing(s, at, now)
    ensures var (t, o) := Reserve(s, at, identity, memoryId, now, faults);
            exists room: Store ::
              && RoomMade(s, at, now, faults.stuck, room)
              && Leaves(room, at, identity, memoryId, now, faults.write == Slips, t, o)
  {
    StandingIsNotFresh(s, at, now);
    ClearedMakesRoom(s, at, now, faults.stuck);
    ClearedLeaves(s, at, identity, memoryId, now, faults);
    hide *;
  }

  // ------------------------------------------------------- settling and opening

  /** The row of a claim that has its answer: nothing else in it changes. */
  ghost predicate AnsweredRow(r: Record, answer: Receipt, row: Record) {
    row == Record(r.identity, r.memoryId, Settled, r.reservedAt, r.expiresAt, Some(answer))
  }

  /** A settle that lands files the answer and frees the slot; one that slips files
      it and keeps the slot; one that fails changes nothing. */
  lemma SettleLeaves(s: Store, at: KeyRef, r: Record, answer: Receipt, write: Landing)
    ensures var t := SettleBy(s, at, r, answer, write);
            && t.total == s.total
            && t.pending == (if write == Lands then s.pending - {at} else s.pending)
            && if write == Fails then t.disk == s.disk
               else at in t.disk && AnsweredRow(r, answer, t.disk[at]) && t.disk == s.disk[at := t.disk[at]]
  {
  }

  /** A replay settles a pending row of the same capture, and no other. */
  lemma ReplaySettles(s: Store, at: KeyRef, identity: Payload, answer: Receipt, write: Landing)
    ensures var t := SettleFromReplay(s, at, identity, answer, write);
            if at in s.disk && s.disk[at].state == Pending && s.disk[at].identity == identity && write != Fails
            then && at in t.disk && AnsweredRow(s.disk[at], answer, t.disk[at]) && t.disk == s.disk[at := t.disk[at]]
                 && t.total == s.total && t.pending == (if write == Lands then s.pending - {at} else s.pending)
            else t == s
  {
  }

  /** Opening keeps the standing files and counts them; what may not be kept goes
      unless it is stuck, and is not counted. */
  lemma OpenKeeps(files: map<KeyRef, Record>, now: int, stuck: set<KeyRef>)
    ensures var t := Open(files, now, stuck);
            var kept := set x | x in files && Standing(Store(files, 0, map[]), x, now);
            && t.total == |kept|
            && (forall x :: x in t.disk <==> x in files && (x in stuck || x in kept))
            && (forall x <- t.disk :: t.disk[x] == files[x])
            && (forall x :: x in t.pending <==> x in kept && files[x].state == Pending)
            && (forall x <- t.pending :: t.pending[x] == files[x].reservedAt)
  {
    var empty := Store(files, 0, map[]);
    forall x | x in files ensures Standing(empty, x, now) <==> !Collectable(files[x], now) {
      StandingIsNotFresh(empty, x, now);
    }
    assert Kept(files, files.Keys, now) == set x | x in files && Standing(empty, x, now);
  }

  /** A trim deletes settled files other than the one just written, and none that
      is stuck: as many as there are above 512, or all there are. */
  lemma TrimTakes(s: Store, keep: KeyRef, stuck: set<KeyRef>, victims: set<KeyRef>)
    requires TrimVictims(s, keep, stuck, victims)
    ensures var open := set x | x in s.disk && s.disk[x].state == Settled && x != keep && x !in stuck;
            && victims <= open
            && (s.total <= 512 || |s.disk| <= 512 ==> victims == {})
            && (512 < s.total && 512 < |s.disk| ==>
                  |victims| == if |s.disk| - 512 <= |open| then |s.disk| - 512 else |open|)
            && (forall x <- victims, y <- open - victims :: s.disk[x].reservedAt <= s.disk[y].reservedAt)
  {
    assert Trimmable(s, keep, stuck) == set x | x in s.disk && s.disk[x].state == Settled && x != keep && x !in stuck;
  }

  // --------------------------------------------------------------- at the steps

  /** The request ends with this answer and nothing else changes. */
  ghost predicate EndsWith(s: State, r: nat, body: Receipt, t: State)
    requires r in s.requests
  {
    t == s.(requests := s.requests - {r}, answers := s.answers + {(s.requests[r].ref, body)})
  }

  ghost predicate Reserves(s: State, r: nat) {
    && r in s.requests && s.requests[r].stage.Asked? && s.requests[r].process in s.processes
    && s.requests[r].ref.at !in s.processes[s.requests[r].process].holds
    && forall other <- s.requests.Keys :: !s.requests[other].stage.Trimming?
  }

  lemma SameStore(s: State, p: nat)
    requires p in s.processes
    ensures WithStore(s, p, StoreOf(s, p)) == s
  {
    assert s.processes[p := s.processes[p]] == s.processes;
  }

  /** A capture posted under a key whose standing record holds another capture is
      refused, and that is all that happens. */
  lemma ConflictIsRefused(k: Kernel, s: State, r: nat, faults: Faults, refusal: Receipt, t: State)
    requires Reserves(s, r)
    requires var q := s.requests[r];
             Standing(StoreOf(s, q.process), q.ref.at, s.now) && s.disk[q.ref.at].identity != q.ref.payload
    ensures Step(k, s, ReserveKey(r, faults, refusal), t) <==>
            refusal.state == Rejected && refusal.memoryId == "" && EndsWith(s, r, refusal, t)
  {
    var q := s.requests[r];
    ReserveDecides(StoreOf(s, q.process), q.ref.at, q.ref.payload, k.memoryId(q.ref), s.now, faults);
    StandingLeaves(StoreOf(s, q.process), q.ref.at, q.ref.payload, k.memoryId(q.ref), s.now, faults);
    SameStore(s, q.process);
    hide Reserve, WithStore, Standing;
  }

  /** A capture whose standing record has its answer gets that answer. */
  lemma AnswerIsRepeated(k: Kernel, s: State, r: nat, faults: Faults, refusal: Receipt, answer: Receipt, t: State)
    requires Reserves(s, r)
    requires var q := s.requests[r];
             && Mine(StoreOf(s, q.process), q.ref.at, q.ref.payload, s.now)
             && s.disk[q.ref.at].state == Settled && s.disk[q.ref.at].response == Some(answer)
    ensures Step(k, s, ReserveKey(r, faults, refusal), t) <==>
            if s.requests[r].stage.found then t == s.(requests := s.requests[r := s.requests[r].(stage := Backfilling(answer))])
            else EndsWith(s, r, answer, t)
  {
    var q := s.requests[r];
    ReserveDecides(StoreOf(s, q.process), q.ref.at, q.ref.payload, k.memoryId(q.ref), s.now, faults);
    StandingLeaves(StoreOf(s, q.process), q.ref.at, q.ref.payload, k.memoryId(q.ref), s.now, faults);
    SameStore(s, q.process);
    hide Reserve, WithStore, Standing, Mine;
  }

  /** While another request of the same capture may still be at it, nothing is
      answered and nothing changes. */
  lemma InFlightChangesNothing(k: Kernel, s: State, r: nat, faults: Faults, refusal: Receipt, t: State)
    requires Reserves(s, r)
    requires var q := s.requests[r];
             && Mine(StoreOf(s, q.process), q.ref.at, q.ref.payload, s.now)
             && !Answered(s.disk[q.ref.at]) && s.now < s.disk[q.ref.at].reservedAt + 60_000_000_000
    ensures Step(k, s, ReserveKey(r, faults, refusal), t) <==> t == s.(requests := s.requests - {r})
  {
    var q := s.requests[r];
    ReserveDecides(StoreOf(s, q.process), q.ref.at, q.ref.payload, k.memoryId(q.ref), s.now, faults);
    StandingLeaves(StoreOf(s, q.process), q.ref.at, q.ref.payload, k.memoryId(q.ref), s.now, faults);
    SameStore(s, q.process);
    hide Reserve, WithStore, Standing, Mine;
  }

  /** A key under which another capture was published refuses this one before
      anything is reserved. */
  lemma PublishedConflictIsRefused(k: Kernel, s: State, r: nat, other: Payload, refusal: Receipt, t: State)
    requires r in s.requests && s.requests[r].stage.Arrived? && |Served(s, s.requests[r].process)| < k.slots
    requires CaptureRef(s.requests[r].ref.at, other) in s.published && other != s.requests[r].ref.payload
    ensures Step(k, s, Ask(r, Some(other), refusal), t) <==>
            refusal.state == Rejected && refusal.memoryId == "" && EndsWith(s, r, refusal, t)
  {
  }

  /** What the published store says of the key decides how a request goes on: another
      capture under it ends it with a refusal, this one's recorded receipt is replayed,
      and only a key without either goes on to reserve. */
  lemma AskDecides(k: Kernel, s: State, r: nat, seen: Option<Payload>, refusal: Receipt, t: State)
    requires Step(k, s, Ask(r, seen, refusal), t)
    ensures r in s.requests && s.requests[r].stage.Arrived?
    ensures var ref := s.requests[r].ref;
            match seen
            case None => (forall other <- s.published :: other.at != ref.at) && r in t.requests && t.requests[r].stage == Asked(false)
            case Some(payload) =>
              && CaptureRef(ref.at, payload) in s.published
              && (if payload != ref.payload then
                    refusal.state == Rejected && refusal.memoryId == "" && EndsWith(s, r, refusal, t)
                  else
                    && r in t.requests && t.answers == s.answers
                    && t.requests[r].stage == if ref in s.receipts then Replaying(s.receipts[ref]) else Asked(true))
  {
  }

  /** A replay is answered with the recorded receipt unless a row it has to finish
      cannot be written. */
  lemma ReplayAnswers(k: Kernel, s: State, r: nat, write: Landing, t: State)
    requires Step(k, s, ReplaySettle(r, write), t)
    ensures r in s.requests && s.requests[r].stage.Replaying? && r !in t.requests
    ensures var ref := s.requests[r].ref;
            var finishes := ref.at in s.disk && s.disk[ref.at].state == Pending && s.disk[ref.at].identity == ref.payload;
            t.answers == s.answers + if finishes && write != Lands then {} else {(ref, s.requests[r].stage.response)}
  {
    hide SettleBy;
  }

  /** A replay put in place of a missing receipt is recorded unless one came first, and
      answered. */
  lemma BackfillAnswers(k: Kernel, s: State, r: nat, t: State)
    requires Step(k, s, Backfill(r), t)
    ensures r in s.requests && s.requests[r].stage.Backfilling?
    ensures var ref, replay := s.requests[r].ref, s.requests[r].stage.replay;
            && t.answers == s.answers + {(ref, replay)} && r !in t.requests
            && t.receipts == if ref in s.receipts then s.receipts else s.receipts[ref := replay]
  {
  }

  /** An applied answer is recorded before it is settled, and the first one recorded is
      the one that is settled. */
  lemma FirstReceiptIsSettled(k: Kernel, s: State, r: nat, t: State)
    requires Step(k, s, RecordReceipt(r), t)
    ensures r in s.requests && s.requests[r].stage.Recording? && r in t.requests
    ensures var ref, body := s.requests[r].ref, s.requests[r].stage.body;
            && t.receipts == (if ref in s.receipts then s.receipts else s.receipts[ref := body])
            && t.requests[r].stage == Settling(s.requests[r].stage.claim, t.receipts[ref]) && t.answers == s.answers
  {
  }

  // ------------------------------------------------------ who may write a memory

  /** A claim that was taken over asks the vault before anything else; a new one does
      not. */
  lemma TrimDecides(k: Kernel, s: State, r: nat, stuck: set<KeyRef>, victims: set<KeyRef>, t: State)
    requires Step(k, s, TrimStore(r, stuck, victims), t)
    ensures r in s.requests && s.requests[r].stage.Trimming? && r in t.requests
    ensures var claim := s.requests[r].stage.claim;
            t.requests[r].stage == (if claim.takenOver then Checking(claim) else Authorizing(claim)) && t.answers == s.answers
  {
    hide TrimVictims, Trim;
  }

  /** A memory that an earlier try of this capture left is answered as applied, one of
      anybody else is refused, and only a free id goes on. */
  lemma CheckDecides(k: Kernel, s: State, r: nat, body: Receipt, t: State)
    requires Step(k, s, Check(r, body), t)
    ensures r in s.requests && s.requests[r].stage.Checking? && r in t.requests
    ensures var id, ref, next := s.requests[r].stage.claim.record.memoryId, s.requests[r].ref, t.requests[r].stage;
            && t.vault == s.vault && t.answers == s.answers
            && if id !in s.vault then next.Authorizing?
               else if s.vault[id] == Ours(ref) then next.Recording? && next.body == body && body.state == Applied && body.memoryId == id
               else next.Settling? && next.body == body && body.state == Rejected && body.memoryId == ""
  {
  }

  /** A device that is no longer live is refused before anything is published. */
  lemma AuthorizeDecides(k: Kernel, s: State, r: nat, live: bool, body: Receipt, t: State)
    requires Step(k, s, Authorize(r, live, body), t)
    ensures r in s.requests && r in t.requests && t.vault == s.vault && t.answers == s.answers && t.disk == s.disk
    ensures if live then t.requests[r].stage.Publishing?
            else t.requests[r].stage.Settling? && t.requests[r].stage.body == body && body.state == Rejected && body.memoryId == ""
  {
  }

  /** Only the policy that allows writing puts a memory in the vault, under an id that
      was free or this capture's own; the others refuse, or accept without one. */
  lemma PublishDecides(k: Kernel, s: State, r: nat, policy: Policy, body: Receipt, t: State)
    requires Step(k, s, Publish(r, policy, body), t)
    ensures r in s.requests && s.requests[r].stage.Publishing? && r in t.requests
    ensures var id, ref, next := s.requests[r].stage.claim.record.memoryId, s.requests[r].ref, t.requests[r].stage;
            match policy
            case ReadOnly => t.vault == s.vault && next.Settling? && next.body == body && body.state == Rejected && body.memoryId == ""
            case Propose => t.vault == s.vault && next.Settling? && next.body == body && body.state == Accepted && body.memoryId == ""
            case Write =>
              if id !in s.vault || s.vault[id] == Ours(ref)
              then t.vault == s.vault[id := Ours(ref)] && next.Recording? && next.body == body && body.state == Applied && body.memoryId == id
              else t.vault == s.vault && next.Settling? && next.body == body && body.state == Rejected && body.memoryId == ""
  {
    assert s.requests[r].stage.claim.record.memoryId in s.vault ==>
             s.vault[s.requests[r].stage.claim.record.memoryId := s.vault[s.requests[r].stage.claim.record.memoryId]] == s.vault;
  }

  /** The request of this capture is at the point of publishing. */
  ghost predicate AtPublishing(s: State, r: nat, ref: CaptureRef) {
    r in s.requests && s.requests[r].stage.Publishing? && s.requests[r].ref == ref
  }

  /** This step puts the capture's memory in the vault: it is published under the
      policy that allows it, or the publication landed before the request failed. */
  ghost predicate Places(s: State, l: Label, ref: CaptureRef) {
    && ((l.Publish? && l.policy == Write) || (l.Fail? && l.landed))
    && AtPublishing(s, l.request, ref)
  }

  /** A request gets to the point of publishing by being found live, and a memory gets
      in the vault by being published. */
  ghost predicate Follows(s: State, l: Label, t: State, r: nat, ref: CaptureRef) {
    && (AtPublishing(t, r, ref) ==> AtPublishing(s, r, ref) || (l.Authorize? && l.request == r && l.live))
    && (ref in t.placed ==> ref in s.placed || Places(s, l, ref))
  }

  lemma FinishFollows(s: State, q: nat, body: Receipt, r: nat, ref: CaptureRef)
    requires q in s.requests
    ensures AtPublishing(Finish(s, q), r, ref) || AtPublishing(Answer(s, q, body), r, ref) ==> AtPublishing(s, r, ref)
    ensures Finish(s, q).placed == Answer(s, q, body).placed == s.placed
  {
  }

  lemma StoreFollows(s: State, p: nat, st: Store, r: nat, ref: CaptureRef)
    requires p in s.processes
    ensures WithStore(s, p, st).requests == s.requests && WithStore(s, p, st).placed == s.placed
    ensures AtPublishing(WithStore(s, p, st), r, ref) <==> AtPublishing(s, r, ref)
  {
  }

  lemma BesideRequestsFollows(k: Kernel, s: State, l: Label, t: State, r: nat, ref: CaptureRef)
    requires Step(k, s, l, t)
    requires l.Tick? || l.Boot? || l.Crash? || l.ForeignWrite? || l.Erase? || l.ForgetPublication? || l.Arrive?
    ensures Follows(s, l, t, r, ref)
  {
    hide Open, HalfDone;
  }

  lemma EndingFollows(k: Kernel, s: State, l: Label, t: State, r: nat, ref: CaptureRef)
    requires Step(k, s, l, t) && (l.Refuse? || l.Backfill? || l.SettleKey? || l.ReplaySettle?)
    ensures Follows(s, l, t, r, ref)
  {
    hide Finish, Answer, AtPublishing, WithStore, SettleBy, SettleFromReplay;
    var q := l.request;
    var p := s.requests[q].process;
    if l.Backfill? {
      FinishFollows(Recorded(s, s.requests[q].ref, s.requests[q].stage.replay), q, s.requests[q].stage.replay, r, ref);
      RecordedFollows(s, s.requests[q].ref, s.requests[q].stage.replay, r, ref);
    } else if l.Refuse? {
      FinishFollows(s, q, l.body, r, ref);
    } else if l.SettleKey? {
      var st := SettleBy(StoreOf(s, p), s.requests[q].ref.at, s.requests[q].stage.claim.record, s.requests[q].stage.body, l.write);
      StoreFollows(s, p, st, r, ref);
      FinishFollows(WithStore(s, p, st), q, s.requests[q].stage.body, r, ref);
    } else {
      var st := SettleFromReplay(StoreOf(s, p), s.requests[q].ref.at, s.requests[q].ref.payload, s.requests[q].stage.response, l.write);
      StoreFollows(s, p, st, r, ref);
      FinishFollows(WithStore(s, p, st), q, s.requests[q].stage.response, r, ref);
    }
  }

  lemma RecordedFollows(s: State, own: CaptureRef, body: Receipt, r: nat, ref: CaptureRef)
    ensures Recorded(s, own, body).requests == s.requests && Recorded(s, own, body).placed == s.placed
    ensures AtPublishing(Recorded(s, own, body), r, ref) <==> AtPublishing(s, r, ref)
  {
  }

  lemma AskFollows(k: Kernel, s: State, l: Label, t: State, r: nat, ref: CaptureRef)
    requires Step(k, s, l, t) && l.Ask?
    ensures Follows(s, l, t, r, ref)
  {
    hide Finish, Answer, Advance, AtPublishing;
    var own := s.requests[l.request].ref;
    FinishFollows(s, l.request, l.refusal, r, ref);
    AdvanceFollows(s, l.request, Asked(false), r, ref);
    AdvanceFollows(s, l.request, Asked(true), r, ref);
    if own in s.receipts {
      AdvanceFollows(s, l.request, Replaying(s.receipts[own]), r, ref);
    }
  }

  lemma ReserveFollows(k: Kernel, s: State, l: Label, t: State, r: nat, ref: CaptureRef)
    requires Step(k, s, l, t) && l.ReserveKey?
    ensures Follows(s, l, t, r, ref)
  {
    hide Finish, Answer, WithStore, Reserve;
    var q := s.requests[l.request];
    var (st, outcome) := Reserve(StoreOf(s, q.process), q.ref.at, q.ref.payload, k.memoryId(q.ref), s.now, l.faults);
    StoreFollows(s, q.process, st, r, ref);
    FinishFollows(WithStore(s, q.process, st), l.request, if outcome.Replay? then outcome.response else l.refusal, r, ref);
  }

  lemma AdvanceFollows(s: State, q: nat, stage: Stage, r: nat, ref: CaptureRef)
    requires q in s.requests
    ensures Advance(s, q, stage).placed == s.placed
    ensures AtPublishing(Advance(s, q, stage), r, ref) ==>
              if r == q then stage.Publishing? && s.requests[q].ref == ref else AtPublishing(s, r, ref)
  {
  }

  lemma PublishedFollows(s: State, own: CaptureRef, id: string)
    ensures Published(s, own, id).requests == s.requests && id in Published(s, own, id).vault
    ensures Published(s, own, id).placed <= s.placed + {own}
  {
  }

  lemma TrimFollows(k: Kernel, s: State, l: Label, t: State, r: nat, ref: CaptureRef)
    requires Step(k, s, l, t) && l.TrimStore?
    ensures Follows(s, l, t, r, ref)
  {
    hide TrimVictims, Trim, WithStore;
    var q := s.requests[l.request];
    StoreFollows(s, q.process, Trim(StoreOf(s, q.process), l.victims), r, ref);
  }

  lemma RecordFollows(k: Kernel, s: State, l: Label, t: State, r: nat, ref: CaptureRef)
    requires Step(k, s, l, t) && l.RecordReceipt?
    ensures Follows(s, l, t, r, ref)
  {
    var q := s.requests[l.request];
    RecordedFollows(s, q.ref, q.stage.body, r, ref);
  }

  lemma WorkingFollows(k: Kernel, s: State, l: Label, t: State, r: nat, ref: CaptureRef)
    requires Step(k, s, l, t) && (l.Check? || l.Authorize?)
    ensures Follows(s, l, t, r, ref)
  {
    hide Advance, AtPublishing, Step;
    AdvancedHere(k, s, l, t);
    AdvanceFollows(s, l.request, t.requests[l.request].stage, r, ref);
    if AtPublishing(t, r, ref) && r == l.request {
      PublishingStage(k, s, l, t, ref);
    }
  }

  lemma AdvancedHere(k: Kernel, s: State, l: Label, t: State)
    requires Step(k, s, l, t) && (l.Check? || l.Authorize?)
    ensures l.request in s.requests && l.request in t.requests && t == Advance(s, l.request, t.requests[l.request].stage)
  {
  }

  lemma PublishingStage(k: Kernel, s: State, l: Label, t: State, ref: CaptureRef)
    requires Step(k, s, l, t) && (l.Check? || l.Authorize?) && AtPublishing(t, l.request, ref)
    ensures l.Authorize? && l.live
  {
  }

  lemma PublishFollows(k: Kernel, s: State, l: Label, t: State, r: nat, ref: CaptureRef)
    requires Step(k, s, l, t) && l.Publish?
    ensures Follows(s, l, t, r, ref)
  {
    hide Published;
    var q := s.requests[l.request];
    PublishedFollows(s, q.ref, q.stage.claim.record.memoryId);
    PublishDecides(k, s, l.request, l.policy, l.body, t);
  }

  lemma FailFollows(k: Kernel, s: State, l: Label, t: State, r: nat, ref: CaptureRef)
    requires Step(k, s, l, t) && l.Fail?
    ensures Follows(s, l, t, r, ref)
  {
    hide Finish, Answer, Published, Recorded;
    var q := s.requests[l.request];
    var u := PutDown(s, q, l.landed);
    FinishFollows(u, l.request, Receipt("", Rejected, "", ""), r, ref);
    if q.stage.Publishing? {
      PublishedFollows(s, q.ref, q.stage.claim.record.memoryId);
    } else if q.stage.Recording? {
      RecordedFollows(s, q.ref, q.stage.body, r, ref);
    } else if q.stage.Backfilling? {
      RecordedFollows(s, q.ref, q.stage.replay, r, ref);
    }
  }

  lemma StepFollows(k: Kernel, s: State, l: Label, t: State, r: nat, ref: CaptureRef)
    requires Step(k, s, l, t)
    ensures Follows(s, l, t, r, ref)
  {
    hide Step, Follows;
    match l
    case Ask(_, _, _) => AskFollows(k, s, l, t, r, ref);
    case ReserveKey(_, _, _) => ReserveFollows(k, s, l, t, r, ref);
    case Fail(_, _) => FailFollows(k, s, l, t, r, ref);
    case _ =>
      if l.Refuse? || l.Backfill? || l.SettleKey? || l.ReplaySettle? {
        EndingFollows(k, s, l, t, r, ref);
      } else if l.TrimStore? {
        TrimFollows(k, s, l, t, r, ref);
      } else if l.Publish? {
        PublishFollows(k, s, l, t, r, ref);
      } else if l.RecordReceipt? {
        RecordFollows(k, s, l, t, r, ref);
      } else if l.Check? || l.Authorize? {
        WorkingFollows(k, s, l, t, r, ref);
      } else {
        BesideRequestsFollows(k, s, l, t, r, ref);
      }
  }

  /** At this step the device was found live, and the request has been at the point of
      publishing since. */
  ghost predicate AuthorizedAt(states: seq<State>, labels: seq<Label>, j: nat, i: nat, r: nat, ref: CaptureRef)
    requires |states| == |labels| + 1 && i < |states|
  {
    && j < i && labels[j].Authorize? && labels[j].request == r && labels[j].live
    && forall m :: j < m <= i ==> AtPublishing(states[m], r, ref)
  }

  lemma {:induction false} PublishingWasAuthorized(k: Kernel, states: seq<State>, labels: seq<Label>, i: nat, r: nat, ref: CaptureRef)
    requires Run(k, states, labels) && i < |states| && AtPublishing(states[i], r, ref)
    ensures exists j: nat :: AuthorizedAt(states, labels, j, i, r, ref)
    decreases i
  {
    hide Step, AtPublishing;
    if i == 0 {
      NobodyAtFirst(states[0], r, ref);
    } else {
      assert labels[i - 1] == labels[i - 1] && states[i - 1 + 1] == states[i];
      StepFollows(k, states[i - 1], labels[i - 1], states[i], r, ref);
      if AtPublishing(states[i - 1], r, ref) {
        PublishingWasAuthorized(k, states, labels, i - 1, r, ref);
        var j: nat :| AuthorizedAt(states, labels, j, i - 1, r, ref);
        assert AuthorizedAt(states, labels, j, i, r, ref);
      } else {
        assert AuthorizedAt(states, labels, i - 1, i, r, ref);
      }
    }
  }

  lemma NobodyAtFirst(s: State, r: nat, ref: CaptureRef)
    requires Init(s)
    ensures !AtPublishing(s, r, ref)
  {
  }

  /** Over every run: a memory is in the vault for a capture only if some request of
      that very capture was published by a step that may write, after its device was
      found live, with nothing in between. */
  lemma {:induction false} PlacedWasAuthorized(k: Kernel, states: seq<State>, labels: seq<Label>, i: nat, ref: CaptureRef)
    requires Run(k, states, labels) && i < |states| && ref in states[i].placed
    ensures exists j: nat, m: nat :: m < i && Places(states[m], labels[m], ref) && AuthorizedAt(states, labels, j, m, labels[m].request, ref)
    decreases i
  {
    hide Step, Places, AuthorizedAt;
    if i > 0 {
      assert labels[i - 1] == labels[i - 1] && states[i - 1 + 1] == states[i];
      if ref in states[i - 1].placed {
        PlacedWasAuthorized(k, states, labels, i - 1, ref);
      } else {
        StepFollows(k, states[i - 1], labels[i - 1], states[i], 0, ref);
        PlacerIsPublishing(states[i - 1], labels[i - 1], ref);
        PublishingWasAuthorized(k, states, labels, i - 1, labels[i - 1].request, ref);
      }
    }
  }

  lemma PlacerIsPublishing(s: State, l: Label, ref: CaptureRef)
    requires Places(s, l, ref)
    ensures (l.Publish? || l.Fail?) && AtPublishing(s, l.request, ref)
  {
  }

  /** The answer goes out exactly when the record that holds it landed. */
  lemma SettleAnswers(k: Kernel, s: State, r: nat, write: Landing, t: State)
    requires Step(k, s, SettleKey(r, write), t)
    ensures r in s.requests && s.requests[r].stage.Settling? && r !in t.requests
    ensures t.answers == s.answers + if write == Lands then {(s.requests[r].ref, s.requests[r].stage.body)} else {}
    ensures t.vault == s.vault
  {
    hide SettleBy;
  }
}
