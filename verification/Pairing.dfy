/** The confirmation route over the registry as a step relation: one listener
    serving one confirmation at a time, an operator at the same registry, writes
    that fail or slip, a clock that may go backwards, and restarts anywhere. */
module Pairing {
  import opened Reservations
  import opened Registry

  const MAX_PAIRING_ATTEMPTS := 5

  /** Where the one confirmation in flight stands. */
  datatype Phase =
    | Idle
    | Received(c: Confirmation)
    | Statted(c: Confirmation, unrecorded: bool)
    | Read(c: Confirmation, state: PairingState)
    | Repairing(device: string)
    | Clearing(device: string, spent: nat)
    | Trying(c: Confirmation)
    | Granting(device: string, token: string)
    | Counting(device: string)
    | Marking(device: string)
    | Latching(device: string)
    | Revoking(device: string)

  datatype Grant = Grant(device: string, token: string)

  /** The files, the listener's memory, and the history the properties speak of:
      restarts, wrong codes compared per device, tokens minted, tokens that a caller
      was told. */
  datatype State = State(files: Files, latched: set<string>, phase: Phase, restarts: nat, guesses: map<string, nat>,
                         grants: seq<Grant>, handed: set<Grant>, used: set<string>)

  datatype Step =
    | Receive(c: Confirmation)
    | StatMarker(ok: bool)
    | ReadBudget(ok: bool)
    | Judge
    | Repair(now: int, faults: Trouble)
    | Clear(removal: Landing)
    | Try(now: int, token: string, faults: Trouble)
    | Reply(delivered: bool)
    | Count(now: int, faults: Trouble)
    | Mark(landed: bool)
    | Latch
    | RouteRevoke(now: int, faults: Trouble)
    | Restart
    | OperatorPair(device: string, name: string, platform: string, code: string, now: int, faults: Trouble)
    | OperatorRevoke(device: string, now: int, faults: Trouble)
    | Seen(device: string, now: int, faults: Trouble)

  function Guesses(s: State, id: string): nat {
    if id in s.guesses then s.guesses[id] else 0
  }

  /** A wrong code was really compared with a live one. */
  predicate ComparedWrong(ds: seq<Device>, c: Confirmation, faults: Trouble, host: Host) {
    faults.lock && faults.readable && Loadable(host, ds) && ConfirmChange(host, ds, c, "", 0) == Refuse(WrongCode)
  }

  predicate Minted(before: seq<Device>, after: seq<Device>, id: string) {
    PairableAt(before, id) && Known(after, id) && Get(after, id).standing == Active
  }

  ghost predicate Init(s: State) {
    s == State(Files([], [], {}), {}, Idle, 0, map[], [], {}, {})
  }

  ghost predicate Next(host: Host, s: State, l: Step, t: State) {
    match l
    case Receive(c) => s.phase.Idle? && t == s.(phase := Received(c))
    case StatMarker(ok) =>
      s.phase.Received? && t == s.(phase := if ok then Statted(s.phase.c, s.phase.c.device in s.files.markers) else Idle)
    case ReadBudget(ok) =>
      && s.phase.Statted? && (ok ==> Loadable(host, s.files.devices))
      && t == s.(phase := if ok then Read(s.phase.c, Budget(s.files.devices, s.phase.c.device, s.phase.unrecorded)) else Idle)
    case Judge => s.phase.Read? && t == s.(phase := Judged(s.phase.c, s.phase.state, s.phase.c.device in s.latched))
    case Repair(now, faults) =>
      && s.phase.Repairing?
      && var (g, spent) := RecordFailure(host, s.files, s.phase.device, now, faults);
         t == s.(files := g, phase := if spent.None? then Idle else Clearing(s.phase.device, spent.value))
    case Clear(removal) => s.phase.Clearing? && ClearNext(s, removal, t)
    case Try(now, token, faults) => s.phase.Trying? && token !in s.used && TryNext(host, s, now, token, faults, t)
    case Reply(delivered) =>
      && s.phase.Granting?
      && t == s.(phase := Idle, handed := if delivered then s.handed + {Grant(s.phase.device, s.phase.token)} else s.handed)
    case Count(now, faults) =>
      && s.phase.Counting?
      && var (g, spent) := RecordFailure(host, s.files, s.phase.device, now, faults);
         t == s.(files := g, phase := if spent.None? then Marking(s.phase.device)
                                      else if spent.value >= MAX_PAIRING_ATTEMPTS then Revoking(s.phase.device) else Idle)
    case Mark(landed) =>
      && s.phase.Marking?
      && t == s.(files := if landed then s.files.(markers := s.files.markers + {s.phase.device}) else s.files, phase := Latching(s.phase.device))
    case Latch => s.phase.Latching? && t == s.(latched := s.latched + {s.phase.device}, phase := Idle)
    case RouteRevoke(now, faults) =>
      s.phase.Revoking? && t == s.(files := Revoke(host, s.files, s.phase.device, now, faults).0, phase := Idle)
    case Restart => t == s.(latched := {}, phase := Idle, restarts := s.restarts + 1)
    case OperatorPair(id, name, platform, code, now, faults) =>
      t == s.(files := Pair(host, s.files, NewDevice(id, name, platform, code, now), now, faults).0)
    case OperatorRevoke(id, now, faults) => t == s.(files := Revoke(host, s.files, id, now, faults).0)
    case Seen(id, now, faults) => t == s.(files := MarkSeen(host, s.files, id, now, faults).0)
  }

  /** What the route does with what it read, before any guess is tried. */
  function Judged(c: Confirmation, state: PairingState, latched: bool): Phase {
    if state.unrecorded || latched then Repairing(c.device)
    else if state.attempts >= MAX_PAIRING_ATTEMPTS then (if state.pairable then Revoking(c.device) else Idle)
    else Trying(c)
  }

  /** The durable mark goes first; the latch only once it is gone. */
  ghost predicate ClearNext(s: State, removal: Landing, t: State)
    requires s.phase.Clearing?
  {
    if removal == Fails then t == s.(phase := Idle)
    else if removal == Slips then t == s.(files := s.files.(markers := s.files.markers - {s.phase.device}), phase := Idle)
    else t == s.(files := s.files.(markers := s.files.markers - {s.phase.device}), latched := s.latched - {s.phase.device},
                 phase := if s.phase.spent >= MAX_PAIRING_ATTEMPTS then Revoking(s.phase.device) else Idle)
  }

  ghost predicate TryNext(host: Host, s: State, now: int, token: string, faults: Trouble, t: State)
    requires s.phase.Trying?
  {
    var c := s.phase.c;
    var (g, answer) := Confirm(host, s.files, c, token, now, faults);
    var wrong := answer == Denied(WrongCode);
    t == s.(files := g, phase := if answer.Granted? then Granting(c.device, token) else if wrong then Counting(c.device) else Idle,
            used := s.used + {token},
            guesses := if ComparedWrong(s.files.devices, c, faults, host) then s.guesses[c.device := Guesses(s, c.device) + 1] else s.guesses,
            grants := if Minted(s.files.devices, g.devices, c.device) then s.grants + [Grant(c.device, token)] else s.grants)
  }

  ghost predicate Run(host: Host, states: seq<State>, steps: seq<Step>) {
    && |states| == |steps| + 1 && Init(states[0])
    && forall i {:trigger steps[i]} :: 0 <= i < |steps| ==> Next(host, states[i], steps[i], states[i + 1])
  }

  /** Steps that serve a confirmation request. */
  predicate IsRoute(l: Step) {
    !l.OperatorPair? && !l.OperatorRevoke? && !l.Seen?
  }
}
