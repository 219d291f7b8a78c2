/** Governed capture as a step relation: any number of requests in any number of
    listener processes, interleaved, crashing, failing and retrying over one
    directory of reservations, one vault and one published store. */
module Capture {
  import opened Reservations

  /** One capture under one idempotency key of one device. */
  datatype CaptureRef = CaptureRef(at: KeyRef, payload: Payload)

  datatype Owner = Foreign | Ours(ref: CaptureRef)

  datatype Policy = ReadOnly | Propose | Write

  datatype Claim = Claim(record: Record, takenOver: bool)

  /** Where a request stands. Each case is a point between two effects; a request
      that is trimming still holds the lock its reservation was written under. */
  datatype Stage =
    | Arrived
    | Replaying(response: Receipt)
    | Asked(found: bool)
    | Backfilling(replay: Receipt)
    | Trimming(claim: Claim)
    | Checking(claim: Claim)
    | Authorizing(claim: Claim)
    | Publishing(claim: Claim)
    | Recording(claim: Claim, body: Receipt)
    | Settling(claim: Claim, body: Receipt)

  datatype Request = Request(process: nat, ref: CaptureRef, started: int, stage: Stage)

  /** A listener process: its census, and which request holds each key. */
  datatype Process = Process(total: nat, pending: map<KeyRef, int>, holds: map<KeyRef, nat>)

  datatype State = State(
    now: int,
    disk: map<KeyRef, Record>,
    vault: map<string, Owner>,
    published: set<CaptureRef>,
    receipts: map<CaptureRef, Receipt>,
    processes: map<nat, Process>,
    requests: map<nat, Request>,
    forgotten: set<CaptureRef>,
    placed: set<CaptureRef>,
    untrimmed: nat,
    answers: set<(CaptureRef, Receipt)>)

  /** How a vault id is derived from a capture, and how many requests a process
      serves at a time. Only a short digest tail enters an id, so two captures may
      share one. */
  datatype Kernel = Kernel(memoryId: CaptureRef -> string, slots: nat)

  const MAX_IN_FLIGHT_KERNEL_CALLS := 1

  datatype Label =
    | Tick(now: int)
    | Boot(process: nat, stuck: set<KeyRef>)
    | Crash(process: nat, gone: set<KeyRef>)
    | ForeignWrite(id: string)
    | Erase(id: string)
    | ForgetPublication(ref: CaptureRef)
    | Arrive(request: nat, process: nat, ref: CaptureRef)
    | Refuse(request: nat, body: Receipt)
    | Ask(request: nat, seen: Option<Payload>, refusal: Receipt)
    | ReplaySettle(request: nat, write: Landing)
    | ReserveKey(request: nat, faults: Faults, refusal: Receipt)
    | TrimStore(request: nat, stuck: set<KeyRef>, victims: set<KeyRef>)
    | Backfill(request: nat)
    | Check(request: nat, body: Receipt)
    | Authorize(request: nat, live: bool, body: Receipt)
    | Publish(request: nat, policy: Policy, body: Receipt)
    | RecordReceipt(request: nat)
    | SettleKey(request: nat, write: Landing)
    | Fail(request: nat, landed: bool)

  // ------------------------------------------------------------ small updates

  function HasClaim(stage: Stage): bool {
    stage.Trimming? || stage.Checking? || stage.Authorizing? || stage.Publishing? || stage.Recording? || stage.Settling?
  }

  function StoreOf(s: State, p: nat): Store
    requires p in s.processes
  {
    Store(s.disk, s.processes[p].total, s.processes[p].pending)
  }

  function WithStore(s: State, p: nat, st: Store): State
    requires p in s.processes
  {
    s.(disk := st.disk, processes := s.processes[p := s.processes[p].(total := st.total, pending := st.pending)])
  }

  function Advance(s: State, r: nat, stage: Stage): State
    requires r in s.requests
  {
    s.(requests := s.requests[r := s.requests[r].(stage := stage)])
  }

  function Hold(s: State, p: nat, at: KeyRef, r: nat): State
    requires p in s.processes
  {
    s.(processes := s.processes[p := s.processes[p].(holds := s.processes[p].holds[at := r])])
  }

  /** The request is over; a key it holds is free again. */
  function Finish(s: State, r: nat): State
    requires r in s.requests
  {
    var q := s.requests[r];
    var gone := s.(requests := s.requests - {r});
    if HasClaim(q.stage) && q.process in s.processes
    then gone.(processes := s.processes[q.process := s.processes[q.process].(holds := s.processes[q.process].holds - {q.ref.at})])
    else gone
  }

  function Answer(s: State, r: nat, body: Receipt): State
    requires r in s.requests
  {
    Finish(s, r).(answers := s.answers + {(s.requests[r].ref, body)})
  }

  /** First writer wins: bytes already recorded for a publication stay. */
  function Recorded(s: State, ref: CaptureRef, body: Receipt): State {
    if ref in s.receipts then s else s.(receipts := s.receipts[ref := body])
  }

  /** Create-exclusive at the pinned id. */
  function Published(s: State, ref: CaptureRef, id: string): State {
    if id in s.vault then (if s.vault[id] == Ours(ref) then s.(published := s.published + {ref}) else s)
    else s.(vault := s.vault[id := Ours(ref)], published := s.published + {ref}, placed := s.placed + {ref})
  }

  /** The requests a process is serving: those that hold one of its slots. */
  function Served(s: State, p: nat): set<nat> {
    set r | r in s.requests && s.requests[r].process == p && !s.requests[r].stage.Arrived?
  }

  /** Nobody is between the two halves of a reservation, so the lock is free. */
  ghost predicate Unlocked(s: State) {
    forall r <- s.requests.Keys :: !s.requests[r].stage.Trimming?
  }

  predicate IsRefusal(body: Receipt) {
    body.state == Rejected && body.memoryId == ""
  }

  /** An applied body names the memory; no other body does. */
  predicate Describes(body: Receipt, state: ReceiptState, id: string) {
    body.state == state && body.memoryId == if state == Applied then id else ""
  }

  // ----------------------------------------------------------------- the steps

  ghost predicate Init(s: State) {
    && s.disk == map[] && s.published == {} && s.receipts == map[] && s.processes == map[] && s.requests == map[]
    && s.forgotten == {} && s.placed == {} && s.untrimmed == 0 && s.answers == {}
    && forall id <- s.vault.Keys :: s.vault[id] == Foreign
  }

  ghost predicate Step(k: Kernel, s: State, l: Label, t: State) {
    match l
    case Tick(now) => t == s.(now := now)
    case Boot(p, stuck) => BootStep(s, p, stuck, t)
    case Crash(p, gone) => CrashStep(s, p, gone, t)
    case ForeignWrite(id) => id !in s.vault && t == s.(vault := s.vault[id := Foreign])
    case Erase(id) => t == s.(vault := s.vault - {id})
    case ForgetPublication(ref) =>
      t == s.(published := s.published - {ref}, receipts := s.receipts - {ref}, forgotten := s.forgotten + {ref})
    case Arrive(r, p, ref) =>
      && r !in s.requests && p in s.processes
      && t == s.(requests := s.requests[r := Request(p, ref, s.now, Arrived)])
    case Refuse(r, body) =>
      && r in s.requests && s.requests[r].stage.Arrived? && |Served(s, s.requests[r].process)| < k.slots
      && IsRefusal(body) && t == Answer(s, r, body)
    case Ask(r, seen, refusal) => r in s.requests && |Served(s, s.requests[r].process)| < k.slots && AskStep(s, r, seen, refusal, t)
    case ReplaySettle(r, write) => r in s.requests && ReplaySettleStep(s, r, write, t)
    case ReserveKey(r, faults, refusal) => r in s.requests && ReserveStep(k, s, r, faults, refusal, t)
    case TrimStore(r, stuck, victims) => r in s.requests && TrimStep(s, r, stuck, victims, t)
    case Backfill(r) =>
      && r in s.requests && s.requests[r].stage.Backfilling?
      && var replay := s.requests[r].stage.replay;
         t == Answer(Recorded(s, s.requests[r].ref, replay), r, replay)
    case Check(r, body) => r in s.requests && CheckStep(s, r, body, t)
    case Authorize(r, live, body) =>
      && r in s.requests && s.requests[r].stage.Authorizing?
      && var claim := s.requests[r].stage.claim;
         if live then t == Advance(s, r, Publishing(claim)) else IsRefusal(body) && t == Advance(s, r, Settling(claim, body))
    case Publish(r, policy, body) => r in s.requests && PublishStep(s, r, policy, body, t)
    case RecordReceipt(r) =>
      && r in s.requests && s.requests[r].stage.Recording?
      && var u := Recorded(s, s.requests[r].ref, s.requests[r].stage.body);
         t == Advance(u, r, Settling(s.requests[r].stage.claim, u.receipts[s.requests[r].ref]))
    case SettleKey(r, write) => r in s.requests && SettleStep(s, r, write, t)
    case Fail(r, landed) => r in s.requests && FailStep(s, r, landed, t)
  }

  ghost predicate BootStep(s: State, p: nat, stuck: set<KeyRef>, t: State) {
    && p !in s.processes
    && var st := Open(s.disk, s.now, stuck);
       t == s.(disk := st.disk, processes := s.processes[p := Process(st.total, st.pending, map[])])
  }

  /** Files that a process which dies may have deleted just before: part of what
      opening collects, of what one reservation sweeps, or of what one trim takes. */
  ghost predicate HalfDone(s: State, p: nat, gone: set<KeyRef>) {
    || gone == {}
    || (p !in s.processes && forall at <- gone :: at in s.disk && Collectable(s.disk[at], s.now))
    || (p in s.processes && exists r: nat, stuck: set<KeyRef>, victims: set<KeyRef> :: Deleting(s, p, r, stuck, victims) && gone <= victims)
  }

  ghost predicate Deleting(s: State, p: nat, r: nat, stuck: set<KeyRef>, victims: set<KeyRef>)
    requires p in s.processes
  {
    && r in s.requests && s.requests[r].process == p
    && var q := s.requests[r];
       || (q.stage.Asked? && Unlocked(s) && Fresh(StoreOf(s, p), q.ref.at, s.now)
           && victims == s.disk.Keys - Cleared(StoreOf(s, p), q.ref.at, s.now, stuck).disk.Keys)
       || (q.stage.Trimming? && TrimVictims(StoreOf(s, p), q.ref.at, stuck, victims))
  }

  /** The trims that a process's death cuts off. */
  function CutOff(s: State, p: nat): set<nat> {
    set r | r in s.requests && s.requests[r].process == p && s.requests[r].stage.Trimming?
  }

  /** A process dies, with its requests and its census. */
  function Died(s: State, p: nat, gone: set<KeyRef>): State {
    s.(disk := s.disk - gone, processes := s.processes - {p},
       requests := map r | r in s.requests && s.requests[r].process != p :: s.requests[r],
       untrimmed := s.untrimmed + |CutOff(s, p)|)
  }

  ghost predicate CrashStep(s: State, p: nat, gone: set<KeyRef>, t: State) {
    HalfDone(s, p, gone) && t == Died(s, p, gone)
  }

  /** The published store is asked before anything is reserved. */
  ghost predicate AskStep(s: State, r: nat, seen: Option<Payload>, refusal: Receipt, t: State)
    requires r in s.requests
  {
    var ref := s.requests[r].ref;
    && s.requests[r].stage.Arrived?
    && match seen
       case None =>
         && (forall other <- s.published :: other.at != ref.at)
         && t == Advance(s, r, Asked(false))
       case Some(payload) =>
         && CaptureRef(ref.at, payload) in s.published
         && if payload != ref.payload then IsRefusal(refusal) && t == Answer(s, r, refusal)
            else if ref in s.receipts then t == Advance(s, r, Replaying(s.receipts[ref]))
            else t == Advance(s, r, Asked(true))
  }

  ghost predicate ReplaySettleStep(s: State, r: nat, write: Landing, t: State)
    requires r in s.requests
  {
    var q := s.requests[r];
    && q.stage.Replaying? && q.process in s.processes && Unlocked(s)
    && var u := WithStore(s, q.process, SettleFromReplay(StoreOf(s, q.process), q.ref.at, q.ref.payload, q.stage.response, write));
       if write == Lands || !Unfinished(StoreOf(s, q.process), q.ref.at, q.ref.payload)
       then t == Answer(u, r, q.stage.response)
       else t == Finish(u, r)
  }

  /** Reserving up to the write and its census; the trim is a step of its own. */
  ghost predicate ReserveStep(k: Kernel, s: State, r: nat, faults: Faults, refusal: Receipt, t: State)
    requires r in s.requests
  {
    var q := s.requests[r];
    && q.stage.Asked? && q.process in s.processes && q.ref.at !in s.processes[q.process].holds && Unlocked(s)
    && var (st, outcome) := Reserve(StoreOf(s, q.process), q.ref.at, q.ref.payload, k.memoryId(q.ref), s.now, faults);
       match outcome
       case Claimed(record, takenOver) =>
         t == Advance(Hold(WithStore(s, q.process, st), q.process, q.ref.at, r), r, Trimming(Claim(record, takenOver)))
       case Replay(response) =>
         if q.stage.found then t == Advance(WithStore(s, q.process, st), r, Backfilling(response))
         else t == Answer(WithStore(s, q.process, st), r, response)
       case Conflict => IsRefusal(refusal) && t == Answer(WithStore(s, q.process, st), r, refusal)
       case _ => t == Finish(WithStore(s, q.process, st), r)
  }

  ghost predicate TrimStep(s: State, r: nat, stuck: set<KeyRef>, victims: set<KeyRef>, t: State)
    requires r in s.requests
  {
    var q := s.requests[r];
    && q.stage.Trimming? && q.process in s.processes
    && var st, claim := StoreOf(s, q.process), q.stage.claim;
       && TrimVictims(st, q.ref.at, stuck, victims)
       && t == Advance(WithStore(s, q.process, Trim(st, victims)), r, if claim.takenOver then Checking(claim) else Authorizing(claim))
               .(untrimmed := 0)
  }

  /** A reclaimed key asks whether the pinned id is already in the vault. */
  ghost predicate CheckStep(s: State, r: nat, body: Receipt, t: State)
    requires r in s.requests
  {
    && s.requests[r].stage.Checking?
    && var claim, ref := s.requests[r].stage.claim, s.requests[r].ref;
       var id := claim.record.memoryId;
       if id !in s.vault then t == Advance(s, r, Authorizing(claim))
       else if s.vault[id] == Ours(ref) then Describes(body, Applied, id) && t == Advance(s, r, Recording(claim, body))
       else IsRefusal(body) && t == Advance(s, r, Settling(claim, body))
  }

  ghost predicate PublishStep(s: State, r: nat, policy: Policy, body: Receipt, t: State)
    requires r in s.requests
  {
    && s.requests[r].stage.Publishing?
    && var claim, ref := s.requests[r].stage.claim, s.requests[r].ref;
       var id := claim.record.memoryId;
       match policy
       case ReadOnly => IsRefusal(body) && t == Advance(s, r, Settling(claim, body))
       case Propose => Describes(body, Accepted, id) && t == Advance(s, r, Settling(claim, body))
       case Write =>
         var u := Published(s, ref, id);
         if u.vault[id] == Ours(ref) then Describes(body, Applied, id) && t == Advance(u, r, Recording(claim, body))
         else IsRefusal(body) && t == Advance(u, r, Settling(claim, body))
  }

  ghost predicate SettleStep(s: State, r: nat, write: Landing, t: State)
    requires r in s.requests
  {
    var q := s.requests[r];
    && q.stage.Settling? && q.process in s.processes && Unlocked(s)
    && var u := WithStore(s, q.process, SettleBy(StoreOf(s, q.process), q.ref.at, q.stage.claim.record, q.stage.body, write));
       if write == Lands then t == Answer(u, r, q.stage.body) else t == Finish(u, r)
  }

  /** What a failing publish, record or backfill may have put down first. */
  function PutDown(s: State, q: Request, landed: bool): State {
    if landed && q.stage.Publishing? then Published(s, q.ref, q.stage.claim.record.memoryId)
    else if landed && q.stage.Recording? then Recorded(s, q.ref, q.stage.body)
    else if landed && q.stage.Backfilling? then Recorded(s, q.ref, q.stage.replay)
    else s
  }

  /** Any request may fail anywhere but in the middle of a reservation. */
  ghost predicate FailStep(s: State, r: nat, landed: bool, t: State)
    requires r in s.requests
  {
    var u := PutDown(s, s.requests[r], landed);
    !s.requests[r].stage.Trimming? && r in u.requests && t == Finish(u, r)
  }

  /** A finite run: states joined by steps, from a first boot. */
  ghost predicate Run(k: Kernel, states: seq<State>, labels: seq<Label>) {
    && |states| == |labels| + 1 && Init(states[0])
    && forall i {:trigger labels[i]} :: 0 <= i < |labels| ==> Step(k, states[i], labels[i], states[i + 1])
  }
}
