/** The confirmation handler itself, with the registry it serves and the operator
    beside it, from an empty registry on: what it does is a run of the pairing
    protocol, so that the properties of runs are properties of the handler. */
module Listener {
  import opened Reservations
  import opened Registry
  import opened RegistryFacts
  import opened Pairing
  import opened PairingSafety

  /** What the outside world does to one request: which reads and writes fail. */
  datatype Weather = Weather(now: int, stat: bool, readable: bool, repair: Trouble, clear: Landing, attempt: Trouble,
                             delivered: bool, count: Trouble, mark: bool, revoke: Trouble)

  /** What the caller gets, if it gets anything. */
  datatype Response = GrantReply(token: string, device: Device) | Unauthorized | Lost

  // --------------------------------------------------- what one request comes to

  /** An owed failure is counted before anything is forgiven: the mark goes first,
      the latch only when the mark is known to be gone. */
  ghost function Repaired(host: Host, f: Files, latched: set<string>, device: string, w: Weather): (Files, set<string>) {
    var (g, spent) := RecordFailure(host, f, device, w.now, w.repair);
    if spent.None? then (g, latched) else Released(host, g, latched, device, spent.value, w)
  }

  ghost function Released(host: Host, f: Files, latched: set<string>, device: string, spent: nat, w: Weather): (Files, set<string>) {
    if w.clear == Fails then (f, latched)
    else
      var cleared := f.(markers := f.markers - {device});
      if w.clear == Slips then (cleared, latched)
      else (if spent >= MAX_PAIRING_ATTEMPTS then Revoke(host, cleared, device, w.now, w.revoke).0 else cleared, latched - {device})
  }

  /** A failure is counted; one that cannot be is marked and latched. */
  ghost function FailureCounted(host: Host, f: Files, latched: set<string>, device: string, w: Weather): (Files, set<string>) {
    var (g, spent) := RecordFailure(host, f, device, w.now, w.count);
    if spent.None? then (if w.mark then g.(markers := g.markers + {device}) else g, latched + {device})
    else (if spent.value >= MAX_PAIRING_ATTEMPTS then Revoke(host, g, device, w.now, w.revoke).0 else g, latched)
  }

  ghost function Attempted(host: Host, f: Files, latched: set<string>, c: Confirmation, token: string, w: Weather)
    : (Files, set<string>, Response)
  {
    var (g, answer) := Confirm(host, f, c, token, w.now, w.attempt);
    if answer.Granted? then (g, latched, if w.delivered then GrantReply(token, answer.device) else Lost)
    else
      var (h, latches) := if answer == Denied(WrongCode) then FailureCounted(host, g, latched, c.device, w) else (g, latched);
      (h, latches, Unauthorized)
  }

  /** The files, the latches and the answer after one confirmation. */
  ghost function Served(host: Host, f: Files, latched: set<string>, c: Confirmation, token: string, w: Weather)
    : (Files, set<string>, Response)
  {
    if !w.stat || !w.readable || !Loadable(host, f.devices) then (f, latched, Unauthorized)
    else
      var budget := Budget(f.devices, c.device, c.device in f.markers);
      if budget.unrecorded || c.device in latched then
        var (g, latches) := Repaired(host, f, latched, c.device, w);
        (g, latches, Unauthorized)
      else if budget.attempts >= MAX_PAIRING_ATTEMPTS then
        (if budget.pairable then Revoke(host, f, c.device, w.now, w.revoke).0 else f, latched, Unauthorized)
      else Attempted(host, f, latched, c, token, w)
  }

  lemma RunGrows(host: Host, states: seq<State>, steps: seq<Step>, l: Step, t: State)
    requires Run(host, states, steps) && Next(host, states[|steps|], l, t)
    ensures Run(host, states + [t], steps + [l])
  {
    hide Next;
    var more, longer := states + [t], steps + [l];
    forall i | 0 <= i < |longer|
      ensures Next(host, more[i], longer[i], more[i + 1])
    {
      assert i < |steps| ==> longer[i] == steps[i] && more[i + 1] == states[i + 1];
    }
  }

  /** Every step from one length of the trace on served a request. */
  ghost predicate RouteFrom(steps: seq<Step>, i: nat) {
    forall j {:trigger steps[j]} :: i <= j < |steps| ==> IsRoute(steps[j])
  }

  predicate ActiveIn(ds: seq<Device>, id: string) {
    Known(ds, id) && Get(ds, id).standing == Active
  }

  /** Serving requests leaves every active device as it is. */
  lemma {:induction false} RouteSpares(host: Host, states: seq<State>, steps: seq<Step>, i: nat, j: nat, id: string)
    requires Run(host, states, steps) && i <= j < |states| && RouteFrom(steps, i) && ActiveIn(states[i].files.devices, id)
    ensures Known(states[j].files.devices, id) && Get(states[j].files.devices, id) == Get(states[i].files.devices, id)
    decreases j
  {
    hide Next, Find;
    if i < j {
      RouteSpares(host, states, steps, i, j - 1, id);
      assert IsRoute(steps[j - 1]) && states[j - 1 + 1] == states[j];
      RequestsNeverEndAnActiveDevice(host, states, steps, j - 1, id);
    }
  }

  /** The state one step later, for the steps the handler takes. */
  ghost function After(host: Host, s: State, l: Step): State
    requires l.Repair? ==> s.phase.Repairing?
    requires l.Count? ==> s.phase.Counting?
    requires l.RouteRevoke? ==> s.phase.Revoking?
    requires l.Mark? ==> s.phase.Marking?
  {
    match l
    case Repair(now, faults) =>
      var (g, spent) := RecordFailure(host, s.files, s.phase.device, now, faults);
      s.(files := g, phase := if spent.None? then Idle else Clearing(s.phase.device, spent.value))
    case Count(now, faults) =>
      var (g, spent) := RecordFailure(host, s.files, s.phase.device, now, faults);
      s.(files := g, phase := if spent.None? then Marking(s.phase.device)
                              else if spent.value >= MAX_PAIRING_ATTEMPTS then Revoking(s.phase.device) else Idle)
    case RouteRevoke(now, faults) => s.(files := Revoke(host, s.files, s.phase.device, now, faults).0, phase := Idle)
    case Mark(landed) =>
      s.(files := if landed then s.files.(markers := s.files.markers + {s.phase.device}) else s.files, phase := Latching(s.phase.device))
    case _ => s
  }

  class ConfirmHandler {
    const registry: DeviceRegistry
    var latched: set<string>
    /** The protocol state this handler is in. */
    ghost var state: State
    ghost var states: seq<State>
    ghost var steps: seq<Step>

    constructor (host: Host)
      ensures Traced() && state.phase.Idle? && registry.host == host && fresh(registry)
      ensures registry.devices == [] && latched == {} && steps == []
    {
      registry := new DeviceRegistry(host);
      latched := {};
      state := State(Files([], [], {}), {}, Idle, 0, map[], [], {}, {});
      states, steps := [State(Files([], [], {}), {}, Idle, 0, map[], [], {}, {})], [];
    }

    /** The handler's own memory and files are those of the protocol state, and
        the trace so far is a run of the protocol. */
    ghost predicate Traced()
      reads this, registry
    {
      && state.files == registry.Value() && state.latched == latched
      && Run(registry.host, states, steps) && states[|steps|] == state
    }

    ghost method Take(l: Step, t: State)
      requires Run(registry.host, states, steps) && states[|steps|] == state
      requires Next(registry.host, state, l, t)
      requires t.files == registry.Value() && t.latched == latched
      modifies this`state, this`states, this`steps
      ensures Traced() && state == t && states == old(states) + [t] && steps == old(steps) + [l]
    {
      RunGrows(registry.host, states, steps, l, t);
      states, steps, state := states + [t], steps + [l], t;
    }

    // ------------------------------------------- what happens beside requests

    method PairDevice(id: string, name: string, platform: string, code: string, now: int, faults: Trouble) returns (verdict: Verdict)
      requires Traced()
      modifies this, registry
      ensures Traced() && state.phase == old(state.phase) && old(states) <= states && old(steps) <= steps
      ensures (registry.Value(), verdict) == Pair(registry.host, old(registry.Value()), NewDevice(id, name, platform, code, now), now, faults)
    {
      hide Run, Pair;
      verdict := registry.PairDevice(id, name, platform, code, now, faults);
      Take(OperatorPair(id, name, platform, code, now, faults), state.(files := registry.Value()));
    }

    method RevokeDevice(id: string, now: int, faults: Trouble) returns (verdict: Verdict)
      requires Traced()
      modifies this, registry
      ensures Traced() && state.phase == old(state.phase) && old(states) <= states && old(steps) <= steps
      ensures (registry.Value(), verdict) == Revoke(registry.host, old(registry.Value()), id, now, faults)
    {
      hide Run, Revoke;
      verdict := registry.RevokeDevice(id, now, faults);
      Take(OperatorRevoke(id, now, faults), state.(files := registry.Value()));
    }

    method StampSeen(id: string, now: int, faults: Trouble) returns (verdict: Verdict)
      requires Traced()
      modifies this, registry
      ensures Traced() && state.phase == old(state.phase) && old(states) <= states && old(steps) <= steps
      ensures (registry.Value(), verdict) == MarkSeen(registry.host, old(registry.Value()), id, now, faults)
    {
      hide Run, MarkSeen;
      verdict := registry.StampSeen(id, now, faults);
      Take(Seen(id, now, faults), state.(files := registry.Value()));
    }

    /** The process ends, wherever its request stood, and another begins. */
    method Restart()
      requires Traced()
      modifies this
      ensures Traced() && state.phase.Idle? && latched == {} && state.restarts == old(state.restarts) + 1
      ensures old(states) <= states && old(steps) <= steps
    {
      hide Run;
      latched := {};
      Take(Pairing.Restart, state.(latched := {}, phase := Idle, restarts := state.restarts + 1));
    }

    // --------------------------------------------------------- one confirmation

    /** Serves one decoded confirmation. */
    method HandleConfirm(c: Confirmation, token: string, w: Weather) returns (reply: Response)
      requires Traced() && state.phase.Idle? && token !in state.used
      modifies this, registry
      ensures Traced() && state.phase.Idle? && old(states) <= states && old(steps) <= steps
      ensures reply.GrantReply? ==>
                && reply.token == token && reply.device.standing == Active && reply.device.token == Of(token)
                && PairableAt(old(registry.devices), c.device) && Get(old(registry.devices), c.device).code == Of(c.code)
                && Get(old(registry.devices), c.device).attempts < MAX_PAIRING_ATTEMPTS
                && c.device !in old(registry.markers) && c.device !in old(latched)
                && reply.device in registry.devices
      ensures (registry.Value(), latched, reply) == Served(registry.host, old(registry.Value()), old(latched), c, token, w)
      ensures RouteFrom(steps, |old(steps)|)
      ensures state.handed == old(state.handed) + (if reply.GrantReply? then {Grant(c.device, token)} else {})
      ensures forall id {:trigger ActiveIn(old(registry.devices), id)} :: ActiveIn(old(registry.devices), id) ==>
                Known(registry.devices, id) && Get(registry.devices, id) == Get(old(registry.devices), id)
    {
      ghost var before, from := states, |steps|;
      reply := Serve(c, token, w);
      forall id | ActiveIn(old(registry.devices), id)
        ensures Known(registry.devices, id) && Get(registry.devices, id) == Get(old(registry.devices), id)
      {
        assert states[from] == before[from];
        RouteSpares(registry.host, states, steps, from, |steps|, id);
      }
    }

    method Serve(c: Confirmation, token: string, w: Weather) returns (reply: Response)
      requires Traced() && state.phase.Idle? && token !in state.used
      modifies this, registry
      ensures Traced() && state.phase.Idle? && old(states) <= states && old(steps) <= steps && RouteFrom(steps, |old(steps)|)
      ensures reply.GrantReply? ==>
                && reply.token == token && reply.device.standing == Active && reply.device.token == Of(token)
                && PairableAt(old(registry.devices), c.device) && Get(old(registry.devices), c.device).code == Of(c.code)
                && Get(old(registry.devices), c.device).attempts < MAX_PAIRING_ATTEMPTS
                && c.device !in old(registry.markers) && c.device !in old(latched)
                && reply.device in registry.devices
      ensures (registry.Value(), latched, reply) == Served(registry.host, old(registry.Value()), old(latched), c, token, w)
      ensures state.handed == old(state.handed) + (if reply.GrantReply? then {Grant(c.device, token)} else {})
    {
      hide Run, Next, Budget, Get, PairableAt, Judged;
      reply := Unauthorized;
      BudgetMeans(registry.devices, c.device, c.device in registry.markers);
      JudgedMeans(c, Budget(registry.devices, c.device, c.device in registry.markers), c.device in latched);
      Take(Receive(c), state.(phase := Received(c))) by {
        ReceiveIsNext(registry.host, state, c);
      }
      var budget := registry.PairingBudget(c.device, w.stat, w.readable);
      ReadPhases(budget, c, w);
      if budget.None? {
        return;
      }
      if budget.value.unrecorded || c.device in latched {
        RetryOwedFailure(c.device, w);
        return;
      }
      if budget.value.attempts >= MAX_PAIRING_ATTEMPTS {
        if budget.value.pairable {
          RevokePairing(c.device, w);
        }
        return;
      }
      reply := AttemptCode(c, token, w);
    }

    /** Tries the code, then answers with the grant or counts the failure. */
    method AttemptCode(c: Confirmation, token: string, w: Weather) returns (reply: Response)
      requires Traced() && state.phase == Trying(c) && token !in state.used
      modifies this, registry
      ensures Traced() && state.phase.Idle? && old(states) <= states && old(steps) <= steps && RouteFrom(steps, |old(steps)|)
      ensures state.handed == old(state.handed) + (if reply.GrantReply? then {Grant(c.device, token)} else {})
      ensures reply.GrantReply? ==>
                && reply.token == token && reply.device.standing == Active && reply.device.token == Of(token)
                && PairableAt(old(registry.devices), c.device) && Get(old(registry.devices), c.device).code == Of(c.code)
                && reply.device in registry.devices
      ensures (registry.Value(), latched, reply) == Attempted(registry.host, old(registry.Value()), old(latched), c, token, w)
    {
      hide Run, Get, PairableAt;
      reply := Unauthorized;
      var answer := TryCode(c, token, w);
      if answer == Denied(WrongCode) {
        CountFailure(c.device, w);
      } else if answer.Granted? {
        reply := SendGrant(c.device, token, answer.device, w);
      }
    }

    /** Writes the grant; the token exists nowhere but in this answer. */
    method SendGrant(id: string, token: string, device: Device, w: Weather) returns (reply: Response)
      requires Traced() && state.phase == Granting(id, token)
      modifies this`state, this`states, this`steps
      ensures Traced() && state.phase.Idle? && old(states) <= states && old(steps) <= steps && RouteFrom(steps, |old(steps)|)
      ensures reply == if w.delivered then GrantReply(token, device) else Lost
      ensures state.handed == old(state.handed) + (if w.delivered then {Grant(id, token)} else {})
    {
      hide Run;
      Take(Pairing.Reply(w.delivered), state.(phase := Idle, handed := if w.delivered then state.handed + {Grant(id, token)} else state.handed));
      reply := if w.delivered then GrantReply(token, device) else Lost;
    }

    method TryCode(c: Confirmation, token: string, w: Weather) returns (answer: Answer)
      requires Traced() && state.phase == Trying(c) && token !in state.used
      modifies this, registry
      ensures Traced() && old(states) <= states && old(steps) <= steps && RouteFrom(steps, |old(steps)|)
      ensures state.phase == if answer.Granted? then Granting(c.device, token) else if answer == Denied(WrongCode) then Counting(c.device) else Idle
      ensures state.handed == old(state.handed)
      ensures answer.Granted? ==>
                && PairableAt(old(registry.devices), c.device) && Get(old(registry.devices), c.device).code == Of(c.code)
                && answer.device in registry.devices && answer.device.standing == Active && answer.device.token == Of(token)
      ensures (registry.Value(), answer) == Confirm(registry.host, old(registry.Value()), c, token, w.now, w.attempt)
      ensures latched == old(latched)
    {
      hide Run, Confirm, ComparedWrong, Minted, Get, PairableAt;
      ghost var s := state;
      answer := registry.ConfirmPairing(c, token, w.now, w.attempt);
      Take(Try(w.now, token, w.attempt), Tried(s, c, token, w));
      if answer.Granted? {
        GrantedMeans(registry.host, s.files, c, token, w);
      }
    }

    ghost function Tried(s: State, c: Confirmation, token: string, w: Weather): State
      reads registry
    {
      var (g, answer) := Confirm(registry.host, s.files, c, token, w.now, w.attempt);
      s.(files := g, used := s.used + {token},
         phase := if answer.Granted? then Granting(c.device, token) else if answer == Denied(WrongCode) then Counting(c.device) else Idle,
         guesses := if ComparedWrong(s.files.devices, c, w.attempt, registry.host) then s.guesses[c.device := Guesses(s, c.device) + 1] else s.guesses,
         grants := if Minted(s.files.devices, g.devices, c.device) then s.grants + [Grant(c.device, token)] else s.grants)
    }

    /** The reads before any guess, as protocol steps. */
    ghost method ReadPhases(budget: Option<PairingState>, c: Confirmation, w: Weather)
      requires Traced() && state.phase == Received(c)
      requires budget == if w.stat && w.readable && Loadable(registry.host, registry.devices)
                         then Some(Budget(registry.devices, c.device, c.device in registry.markers)) else None
      modifies this`state, this`states, this`steps
      ensures Traced() && old(states) <= states && old(steps) <= steps && RouteFrom(steps, |old(steps)|)
      ensures state == old(state).(phase := if budget.None? then Idle else Judged(c, budget.value, c.device in latched))
    {
      hide Run, Judged;
      Take(StatMarker(w.stat), state.(phase := if w.stat then Statted(c, c.device in registry.markers) else Idle));
      if w.stat {
        Take(ReadBudget(budget.Some?), state.(phase := if budget.Some? then Read(c, budget.value) else Idle));
        if budget.Some? {
          Take(Judge, state.(phase := Judged(c, budget.value, c.device in latched)));
        }
      }
    }

    method RetryOwedFailure(device: string, w: Weather)
      requires Traced() && state.phase == Repairing(device)
      modifies this, registry
      ensures Traced() && state.phase.Idle? && old(states) <= states && old(steps) <= steps && RouteFrom(steps, |old(steps)|)
      ensures state.handed == old(state.handed)
      ensures (registry.Value(), latched) == Repaired(registry.host, old(registry.Value()), old(latched), device, w)
    {
      hide Run, RecordFailure, Revoke;
      ghost var t := After(registry.host, state, Repair(w.now, w.repair));
      var spent := registry.RecordPairingFailure(device, w.now, w.repair);
      Take(Repair(w.now, w.repair), t);
      if spent.Some? {
        ReleaseOwed(device, spent.value, w);
      }
    }

    /** The mark goes first; the latch only when the mark is known to be gone. */
    method ReleaseOwed(device: string, spent: nat, w: Weather)
      requires Traced() && state.phase == Clearing(device, spent)
      modifies this, registry
      ensures Traced() && state.phase.Idle? && old(states) <= states && old(steps) <= steps && RouteFrom(steps, |old(steps)|)
      ensures state.handed == old(state.handed)
      ensures (registry.Value(), latched) == Released(registry.host, old(registry.Value()), old(latched), device, spent, w)
    {
      hide Run, RecordFailure, Revoke;
      var ok := registry.ClearFailureUnrecorded(device, w.clear);
      if !ok {
        Take(Clear(w.clear), state.(files := registry.Value(), phase := Idle));
        return;
      }
      latched := latched - {device};
      Take(Clear(Lands), state.(files := registry.Value(), latched := latched,
                               phase := if spent >= MAX_PAIRING_ATTEMPTS then Revoking(device) else Idle));
      if spent >= MAX_PAIRING_ATTEMPTS {
        RevokePairing(device, w);
      }
    }

    method CountFailure(device: string, w: Weather)
      requires Traced() && state.phase == Counting(device)
      modifies this, registry
      ensures Traced() && state.phase.Idle? && old(states) <= states && old(steps) <= steps && RouteFrom(steps, |old(steps)|)
      ensures state.handed == old(state.handed)
      ensures (registry.Value(), latched) == FailureCounted(registry.host, old(registry.Value()), old(latched), device, w)
    {
      hide Run, RecordFailure, Revoke;
      ghost var t := After(registry.host, state, Count(w.now, w.count));
      var spent := registry.RecordPairingFailure(device, w.now, w.count);
      Take(Count(w.now, w.count), t);
      if spent.None? {
        MarkAndLatch(device, w);
      } else if spent.value >= MAX_PAIRING_ATTEMPTS {
        RevokePairing(device, w);
      }
    }

    /** Written down first, remembered second. */
    method MarkAndLatch(device: string, w: Weather)
      requires Traced() && state.phase == Marking(device)
      modifies this, registry
      ensures Traced() && state.phase.Idle? && old(states) <= states && old(steps) <= steps && RouteFrom(steps, |old(steps)|)
      ensures device in latched && state.handed == old(state.handed)
      ensures registry.Value() == (var f := old(registry.Value()); if w.mark then f.(markers := f.markers + {device}) else f)
      ensures latched == old(latched) + {device}
    {
      hide Run;
      ghost var t := After(registry.host, state, Mark(w.mark));
      registry.MarkFailureUnrecorded(device, w.mark);
      Take(Mark(w.mark), t);
      latched := latched + {device};
      Take(Latch, state.(latched := latched, phase := Idle));
    }

    method RevokePairing(device: string, w: Weather)
      requires Traced() && state.phase == Revoking(device)
      modifies this, registry
      ensures Traced() && state.phase.Idle? && old(states) <= states && old(steps) <= steps && RouteFrom(steps, |old(steps)|)
      ensures state.handed == old(state.handed)
      ensures registry.Value() == Revoke(registry.host, old(registry.Value()), device, w.now, w.revoke).0 && latched == old(latched)
    {
      hide Run, Revoke;
      ghost var t := After(registry.host, state, RouteRevoke(w.now, w.revoke));
      var verdict := registry.RevokeDevice(device, w.now, w.revoke);
      Take(RouteRevoke(w.now, w.revoke), t);
    }
  }

  lemma BudgetMeans(ds: seq<Device>, id: string, unrecorded: bool)
    ensures Budget(ds, id, unrecorded).unrecorded == unrecorded
    ensures PairableAt(ds, id) ==> Budget(ds, id, unrecorded).attempts == Get(ds, id).attempts
  {
  }

  lemma JudgedMeans(c: Confirmation, state: PairingState, latched: bool)
    ensures state.unrecorded || latched ==> Judged(c, state, latched) == Repairing(c.device)
    ensures !(state.unrecorded || latched) ==>
              Judged(c, state, latched) == if state.attempts < MAX_PAIRING_ATTEMPTS then Trying(c) else if state.pairable then Revoking(c.device) else Idle
  {
  }

  lemma ReceiveIsNext(host: Host, s: State, c: Confirmation)
    requires s.phase.Idle?
    ensures Next(host, s, Receive(c), s.(phase := Received(c)))
  {
  }

  lemma GrantedMeans(host: Host, f: Files, c: Confirmation, token: string, w: Weather)
    requires Confirm(host, f, c, token, w.now, w.attempt).1.Granted?
    ensures var (g, answer) := Confirm(host, f, c, token, w.now, w.attempt);
            && PairableAt(f.devices, c.device) && Get(f.devices, c.device).code == Of(c.code)
            && answer.device in g.devices && answer.device.standing == Active && answer.device.token == Of(token)
  {
    if PairableAt(f.devices, c.device) {
      var i := Find(f.devices, c.device);
      BurnedIsNotActive(f.devices, i, c, token);
      FindSame(f.devices, i, Activated(f.devices[i], c, token), c.device);
    }
  }

  // ------------------------------------------------- what a handler may rely on

  /** Whatever writes fail, and however often it is restarted. */
  lemma HandlerBoundsGuesses(h: ConfirmHandler, id: string)
    requires h.Traced()
    ensures Guesses(h.state, id) <= MAX_PAIRING_ATTEMPTS + h.state.restarts
  {
    WrongCodesAreBounded(h.registry.host, h.states, h.steps, |h.steps|, id);
  }

  /** Its audit rows are true of its files, its files load, and the credentials it
      minted open exactly the devices that are active. */
  lemma HandlerFilesAreSound(h: ConfirmHandler, row: Row, g: Grant)
    requires h.Traced()
    ensures Loadable(h.registry.host, h.registry.devices)
    ensures row in h.registry.audit ==> RowHolds(h.registry.devices, row)
    ensures g in h.state.grants ==>
              Known(h.registry.devices, g.device)
              && Authenticate(h.registry.devices, g.token) ==
                 if Get(h.registry.devices, g.device).standing == Active then Authenticated(Get(h.registry.devices, g.device)) else RevokedDevice
  {
    AuditNeverLies(h.registry.host, h.states, h.steps, |h.steps|, row);
    if g in h.state.grants {
      CredentialsWorkWhileActive(h.registry.host, h.states, h.steps, |h.steps|, g);
    }
  }
}
