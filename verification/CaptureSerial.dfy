/** One key, one capture. A listener serves one capture at a time, so with one
    listener running a key never publishes two different captures: no deadline, no
    clock and no rule about which records may be trimmed is needed for it. */
module CaptureSerial {
  import opened Reservations
  import opened Capture
  import opened CaptureSafety

  /** One listener runs, and the key's publication is not dropped. */
  ghost predicate Alone(l: Label, t: State, at: KeyRef) {
    t.processes.Keys <= {0} && (l.ForgetPublication? ==> l.ref.at != at)
  }

  /** The run of one listener with the number of slots the program gives it. */
  ghost predicate AloneRun(k: Kernel, states: seq<State>, labels: seq<Label>, at: KeyRef) {
    && k.slots == MAX_IN_FLIGHT_KERNEL_CALLS && Run(k, states, labels)
    && forall i {:trigger labels[i]} :: 0 <= i < |labels| ==> Alone(labels[i], states[i + 1], at)
  }

  // ------------------------------------------------------------------ the slot

  ghost predicate Serving(s: State, r: nat) {
    r in s.requests && !s.requests[r].stage.Arrived?
  }

  /** One process at most, every request is its own, and it serves one at most. */
  ghost predicate Slotted(s: State) {
    && s.processes.Keys <= {0}
    && (forall r <- s.requests.Keys :: s.requests[r].process in s.processes)
    && forall r, x :: Serving(s, r) && Serving(s, x) ==> r == x
  }

  lemma SlotIsFree(k: Kernel, s: State, r: nat)
    requires Slotted(s) && r in s.requests && k.slots == 1 && |Served(s, s.requests[r].process)| < k.slots
    ensures forall x :: !Serving(s, x)
  {
    var p := s.requests[r].process;
    assert |Served(s, p)| == 0 && Served(s, p) == {};
    assert forall x :: Serving(s, x) ==> x in Served(s, p);
  }

  /** What a step does to the requests and processes: one request moves, or ends,
      or arrives; or processes come and go. */
  ghost predicate Moves(s: State, t: State, r: nat) {
    && t.processes.Keys == s.processes.Keys
    && forall x <- t.requests.Keys ::
         x in s.requests && t.requests[x].process == s.requests[x].process && t.requests[x].ref == s.requests[x].ref
         && (x != r ==> t.requests[x].stage == s.requests[x].stage)
  }

  lemma MovesOne(s: State, t: State, r: nat)
    requires Moves(s, t, r)
    ensures forall x :: Serving(t, x) && x != r ==> Serving(s, x)
  {
    forall x | Serving(t, x) && x != r
      ensures Serving(s, x)
    {
      assert x in t.requests.Keys;
    }
  }

  lemma FinishMoves(s: State, r: nat, body: Receipt)
    requires r in s.requests
    ensures Moves(s, Finish(s, r), r) && Moves(s, Answer(s, r, body), r)
  {
  }

  lemma AskMoves(s: State, r: nat, seen: Option<Payload>, refusal: Receipt, t: State)
    requires r in s.requests && AskStep(s, r, seen, refusal, t)
    ensures Moves(s, t, r)
  {
    hide Answer, IsRefusal;
    FinishMoves(s, r, refusal);
  }

  lemma ReserveMoves(k: Kernel, s: State, r: nat, faults: Faults, refusal: Receipt, t: State)
    requires r in s.requests && ReserveStep(k, s, r, faults, refusal, t)
    ensures Moves(s, t, r)
  {
    hide Answer, Finish, IsRefusal, Reserve, Unlocked;
    var q := s.requests[r];
    var (st, outcome) := Reserve(StoreOf(s, q.process), q.ref.at, q.ref.payload, k.memoryId(q.ref), s.now, faults);
    var u := WithStore(s, q.process, st);
    FinishMoves(u, r, refusal);
    if outcome.Replay? {
      FinishMoves(u, r, outcome.response);
    }
  }

  lemma SettleMoves(s: State, l: Label, t: State)
    requires (l.SettleKey? || l.ReplaySettle?) && l.request in s.requests
    requires l.SettleKey? ==> SettleStep(s, l.request, l.write, t)
    requires l.ReplaySettle? ==> ReplaySettleStep(s, l.request, l.write, t)
    ensures Moves(s, t, l.request)
  {
    hide Answer, Finish, SettleBy, SettleFromReplay, Unlocked, Unfinished;
    var q := s.requests[l.request];
    var st := if l.SettleKey? then SettleBy(StoreOf(s, q.process), q.ref.at, q.stage.claim.record, q.stage.body, l.write)
              else SettleFromReplay(StoreOf(s, q.process), q.ref.at, q.ref.payload, q.stage.response, l.write);
    FinishMoves(WithStore(s, q.process, st), l.request, if l.SettleKey? then q.stage.body else q.stage.response);
  }

  lemma PublishMoves(s: State, r: nat, policy: Policy, body: Receipt, t: State)
    requires r in s.requests && PublishStep(s, r, policy, body, t)
    ensures Moves(s, t, r) && r in t.requests
  {
    hide IsRefusal, Describes, Moves, Advance, Published;
    var claim := s.requests[r].stage.claim;
    var u := if policy == Write then Published(s, s.requests[r].ref, claim.record.memoryId) else s;
    SameRequests(s, s.requests[r].ref, claim.record.memoryId);
    AdvanceMoves(s, u, r, Settling(claim, body));
    AdvanceMoves(s, u, r, Recording(claim, body));
  }

  lemma SameRequests(s: State, ref: CaptureRef, id: string)
    ensures Published(s, ref, id).requests == s.requests && Published(s, ref, id).processes == s.processes
  {
  }

  lemma AdvanceMoves(s: State, u: State, r: nat, stage: Stage)
    requires r in s.requests && u.requests == s.requests && u.processes == s.processes
    ensures Moves(s, Advance(u, r, stage), r) && r in Advance(u, r, stage).requests
  {
  }

  lemma FailMoves(s: State, r: nat, landed: bool, t: State)
    requires r in s.requests && FailStep(s, r, landed, t)
    ensures Moves(s, t, r) && r !in t.requests
    ensures var q := s.requests[r];
            SameVault(if landed && q.stage.Publishing? then Published(s, q.ref, q.stage.claim.record.memoryId) else s, t)
  {
    hide Finish, Published, PutDown;
    var u := PutDown(s, s.requests[r], landed);
    PutDownShape(s, s.requests[r], landed);
    FinishMoves(u, r, Receipt("", Rejected, "", ""));
    FinishSameVault(u, r, Receipt("", Rejected, "", ""));
    FinishShape(u, r);
  }

  predicate IsWorld(l: Label) {
    l.Tick? || l.Boot? || l.Crash? || l.ForeignWrite? || l.Erase? || l.ForgetPublication? || l.Arrive?
  }

  /** A request's own step moves that request and no other. */
  lemma StepMoves(k: Kernel, s: State, l: Label, t: State)
    requires Step(k, s, l, t) && !IsWorld(l)
    ensures l.request in s.requests && Moves(s, t, l.request)
  {
    hide AskStep, ReserveStep, SettleStep, ReplaySettleStep, PublishStep, FailStep, Answer, Finish, TrimVictims, IsRefusal, Describes, Served;
    match l
    case Refuse(r, body) => FinishMoves(s, r, body);
    case Ask(r, seen, refusal) => AskMoves(s, r, seen, refusal, t);
    case ReserveKey(r, faults, refusal) => ReserveMoves(k, s, r, faults, refusal, t);
    case SettleKey(r, write) => SettleMoves(s, l, t);
    case ReplaySettle(r, write) => SettleMoves(s, l, t);
    case Publish(r, policy, body) => PublishMoves(s, r, policy, body, t);
    case Fail(r, landed) => FailMoves(s, r, landed, t);
    case Backfill(r) =>
      var u := Recorded(s, s.requests[r].ref, s.requests[r].stage.replay);
      FinishMoves(u, r, s.requests[r].stage.replay);
    case _ =>
  }

  lemma ActsServed(k: Kernel, s: State, l: Label, t: State)
    requires Step(k, s, l, t) && !IsWorld(l) && !l.Ask? && !l.Refuse? && !l.Fail?
    ensures Serving(s, l.request)
  {
    hide TrimVictims, Answer, Finish, IsRefusal, Describes, Reserve, Unlocked;
  }

  lemma MovesSlot(s: State, t: State, r: nat)
    requires Slotted(s) && Moves(s, t, r)
    requires Serving(s, r) || r !in t.requests || forall x :: !Serving(s, x)
    ensures Slotted(t)
  {
    MovesOne(s, t, r);
    forall x <- t.requests.Keys
      ensures t.requests[x].process in t.processes
    {
      assert x in s.requests.Keys;
    }
  }

  lemma WorldSlots(k: Kernel, s: State, l: Label, t: State)
    requires Slotted(s) && Step(k, s, l, t) && IsWorld(l) && t.processes.Keys <= {0}
    ensures Slotted(t)
  {
    hide HalfDone, Open;
    forall x <- t.requests.Keys
      ensures t.requests[x].process in t.processes && (Serving(t, x) ==> Serving(s, x))
    {
      if x in s.requests {
        assert x in s.requests.Keys;
      }
    }
  }

  /** The slot's guard keeps a listener at one capture at a time. */
  lemma StepSlots(k: Kernel, s: State, l: Label, t: State)
    requires k.slots == MAX_IN_FLIGHT_KERNEL_CALLS && Slotted(s) && Step(k, s, l, t) && t.processes.Keys <= {0}
    ensures Slotted(t)
  {
    hide AskStep, ReserveStep, SettleStep, ReplaySettleStep, PublishStep, FailStep, TrimStep, CheckStep, HalfDone, Open;
    if !IsWorld(l) {
      StepMoves(k, s, l, t);
      if l.Ask? || l.Refuse? {
        SlotIsFree(k, s, l.request);
      } else if l.Fail? {
        FailMoves(s, l.request, l.landed, t);
      } else {
        ActsServed(k, s, l, t);
      }
      MovesSlot(s, t, l.request);
    } else {
      WorldSlots(k, s, l, t);
    }
  }

  // ----------------------------------------------------------- one publication

  /** At most one capture of the key is published, its memory is on the published
      record, and the request being served agrees with it. */
  ghost predicate OnePublished(k: Kernel, s: State, at: KeyRef) {
    && (forall a, b :: CaptureRef(at, a) in s.published && CaptureRef(at, b) in s.published ==> a == b)
    && (forall a :: InVault(k, s, CaptureRef(at, a)) ==> CaptureRef(at, a) in s.published)
    && (forall r {:trigger Serving(s, r)} :: Serving(s, r) && s.requests[r].ref.at == at ==>
          forall a :: CaptureRef(at, a) in s.published ==> a == s.requests[r].ref.payload)
  }

  lemma AskAgrees(k: Kernel, s: State, r: nat, seen: Option<Payload>, refusal: Receipt, t: State, at: KeyRef)
    requires OnePublished(k, s, at) && r in s.requests && AskStep(s, r, seen, refusal, t) && (forall x :: !Serving(s, x))
    ensures OnePublished(k, t, at)
  {
    AskSameVault(s, r, seen, refusal, t);
    AskMoves(s, r, seen, refusal, t);
    MovesOne(s, t, r);
    assert forall a :: InVault(k, t, CaptureRef(at, a)) <==> InVault(k, s, CaptureRef(at, a));
    if r in t.requests {
      AskLearns(s, r, seen, refusal, t);
    }
  }

  /** A request that goes on was told of no other capture under its key. */
  lemma AskLearns(s: State, r: nat, seen: Option<Payload>, refusal: Receipt, t: State)
    requires r in s.requests && AskStep(s, r, seen, refusal, t) && r in t.requests
    ensures t.requests[r].ref == s.requests[r].ref
    ensures (forall other <- s.published :: other.at != s.requests[r].ref.at) || s.requests[r].ref in s.published
  {
    hide IsRefusal;
  }

  /** A step that adds nothing to vault and published store. */
  lemma QuietAgrees(k: Kernel, s: State, t: State, at: KeyRef)
    requires OnePublished(k, s, at) && SameVault(s, t)
    requires forall r :: Serving(t, r) ==> Serving(s, r) && t.requests[r].ref == s.requests[r].ref
    ensures OnePublished(k, t, at)
  {
    assert forall a :: InVault(k, t, CaptureRef(at, a)) <==> InVault(k, s, CaptureRef(at, a));
  }

  lemma PublishedAgrees(k: Kernel, s: State, r: nat, at: KeyRef)
    requires OnePublished(k, s, at) && Inv(k, s) && Serving(s, r) && (forall x :: Serving(s, x) ==> x == r)
    ensures OnePublished(k, Published(s, s.requests[r].ref, k.memoryId(s.requests[r].ref)), at)
  {
    hide Inv;
    var ref := s.requests[r].ref;
    var u := Published(s, ref, k.memoryId(ref));
    assert forall x :: Serving(u, x) <==> Serving(s, x);
    assert forall a :: InVault(k, u, CaptureRef(at, a)) ==> InVault(k, s, CaptureRef(at, a)) || (CaptureRef(at, a) == ref && ref in u.published);
  }

  lemma PublishingAgrees(k: Kernel, s: State, l: Label, t: State, at: KeyRef)
    requires OnePublished(k, s, at) && Inv(k, s) && Slotted(s) && Step(k, s, l, t) && (l.Publish? || l.Fail?)
    ensures OnePublished(k, t, at)
  {
    hide Inv, IsRefusal, Describes, Slotted, OnePublished, RequestSound, InVault;
    var r := l.request;
    var q := s.requests[r];
    RequestIsSound(k, s, r);
    StepMoves(k, s, l, t);
    if q.stage.Publishing? && (if l.Publish? then l.policy == Write else l.landed) {
      PublishesOwn(k, s, q);
      var u := Published(s, q.ref, k.memoryId(q.ref));
      OnlyOne(s, r);
      PublishedAgrees(k, s, r, at);
      PublishedRequests(s, q.ref, k.memoryId(q.ref));
      EndsOrGoes(s, l, t);
      QuietAgrees(k, u, t, at);
    } else {
      EndsOrGoes(s, l, t);
      QuietAgrees(k, s, t, at);
    }
  }

  lemma OnlyOne(s: State, r: nat)
    requires Slotted(s) && Serving(s, r)
    ensures forall x :: Serving(s, x) ==> x == r
  {
  }

  /** What publishing leaves behind, besides what it publishes. */
  lemma EndsOrGoes(s: State, l: Label, t: State)
    requires (l.Publish? || l.Fail?) && l.request in s.requests
    requires l.Publish? ==> PublishStep(s, l.request, l.policy, l.body, t)
    requires l.Fail? ==> FailStep(s, l.request, l.landed, t)
    ensures var q := s.requests[l.request];
            var lands := q.stage.Publishing? && (if l.Publish? then l.policy == Write else l.landed);
            SameVault(if lands then Published(s, q.ref, q.stage.claim.record.memoryId) else s, t)
    ensures forall x :: Serving(t, x) ==> Serving(s, x) && t.requests[x].ref == s.requests[x].ref
  {
    if l.Fail? {
      hide FailStep;
      FailMoves(s, l.request, l.landed, t);
    } else {
      hide IsRefusal, Describes;
      PublishMoves(s, l.request, l.policy, l.body, t);
    }
  }

  lemma WorldAgrees(k: Kernel, s: State, l: Label, t: State, at: KeyRef)
    requires OnePublished(k, s, at) && Step(k, s, l, t) && IsWorld(l) && Alone(l, t, at)
    ensures OnePublished(k, t, at)
  {
    hide HalfDone, Open;
    assert forall a :: InVault(k, t, CaptureRef(at, a)) ==> InVault(k, s, CaptureRef(at, a));
    assert forall r :: Serving(t, r) ==> Serving(s, r) && t.requests[r].ref == s.requests[r].ref;
  }

  lemma StepAgrees(k: Kernel, s: State, l: Label, t: State, at: KeyRef)
    requires k.slots == MAX_IN_FLIGHT_KERNEL_CALLS && Inv(k, s) && Slotted(s) && OnePublished(k, s, at)
    requires Step(k, s, l, t) && Alone(l, t, at)
    ensures Slotted(t) && OnePublished(k, t, at)
  {
    hide Inv, Slotted, OnePublished, SameVault, AskStep, ReserveStep, SettleStep, ReplaySettleStep, PublishStep, FailStep, TrimStep, CheckStep,
         BootStep, CrashStep;
    StepSlots(k, s, l, t);
    if IsWorld(l) {
      WorldAgrees(k, s, l, t, at);
    } else if l.Ask? {
      SlotIsFree(k, s, l.request);
      AskAgrees(k, s, l.request, l.seen, l.refusal, t, at);
    } else if l.Publish? || l.Fail? {
      PublishingAgrees(k, s, l, t, at);
    } else {
      MostStepsSameVault(k, s, l, t);
      StepMoves(k, s, l, t);
      if l.Refuse? {
        SlotIsFree(k, s, l.request);
      } else {
        ActsServed(k, s, l, t);
      }
      QuietAgrees(k, s, t, at);
    }
  }

  // ---------------------------------------------------------------- over runs

  lemma {:induction false} AloneRunKeeps(k: Kernel, states: seq<State>, labels: seq<Label>, at: KeyRef, i: nat)
    requires AloneRun(k, states, labels, at) && i < |states|
    ensures Slotted(states[i]) && OnePublished(k, states[i], at)
    decreases i
  {
    hide Step, Inv, Alone;
    if i > 0 {
      hide Slotted, OnePublished;
      AloneRunKeeps(k, states, labels, at, i - 1);
      RunKeeps(k, states, labels, i - 1);
      assert Step(k, states[i - 1], labels[i - 1], states[i - 1 + 1]);
      assert Alone(labels[i - 1], states[i - 1 + 1], at);
      StepAgrees(k, states[i - 1], labels[i - 1], states[i], at);
    }
  }

  lemma PublishedStays(k: Kernel, s: State, l: Label, t: State, ref: CaptureRef)
    requires Inv(k, s) && Step(k, s, l, t) && ref in s.published && l != ForgetPublication(ref)
    ensures ref in t.published
  {
    hide Inv, AskStep, ReserveStep, SettleStep, ReplaySettleStep, TrimStep, CrashStep, BootStep, CheckStep, PublishStep, FailStep;
    if l.Publish? || l.Fail? {
      PublishingPlaces(k, s, l, t);
    } else if !l.Erase? && !l.ForeignWrite? && !l.ForgetPublication? {
      MostStepsSameVault(k, s, l, t);
    }
  }

  lemma {:induction false} PublishedOn(k: Kernel, states: seq<State>, labels: seq<Label>, at: KeyRef, i: nat, j: nat, ref: CaptureRef)
    requires AloneRun(k, states, labels, at) && i <= j < |states| && ref in states[i].published && ref.at == at
    ensures ref in states[j].published
    decreases j
  {
    hide Step, Inv;
    if i < j {
      PublishedOn(k, states, labels, at, i, j - 1, ref);
      RunKeeps(k, states, labels, j - 1);
      assert Step(k, states[j - 1], labels[j - 1], states[j - 1 + 1]);
      assert Alone(labels[j - 1], states[j - 1 + 1], at);
      PublishedStays(k, states[j - 1], labels[j - 1], states[j], ref);
    }
  }

  /** With one listener, one key of one device never publishes two different
      captures, at whatever two moments one looks. */
  lemma OneKeyOneCapture(k: Kernel, states: seq<State>, labels: seq<Label>, at: KeyRef, i: nat, j: nat,
                         id: string, other: string, one: Payload, two: Payload)
    requires AloneRun(k, states, labels, at) && i <= j < |states|
    requires id in states[i].vault && states[i].vault[id] == Ours(CaptureRef(at, one))
    requires other in states[j].vault && states[j].vault[other] == Ours(CaptureRef(at, two))
    ensures one == two && id == other
  {
    RunKeeps(k, states, labels, i);
    RunKeeps(k, states, labels, j);
    AloneRunKeeps(k, states, labels, at, i);
    AloneRunKeeps(k, states, labels, at, j);
    assert InVault(k, states[i], CaptureRef(at, one)) && InVault(k, states[j], CaptureRef(at, two));
    PublishedOn(k, states, labels, at, i, j, CaptureRef(at, one));
  }
}
