/** Exclusive publication of one path by any number of callers, system call by
    system call: link the staged file, or claim the name and rename over it. */
module Exclusive {

  /** What the path names. A placeholder is the empty file of a claim; a body is
      the whole staged file of its caller. */
  datatype File = Absent | Existing | Placeholder(owner: nat) | Body(owner: nat)

  /** The two users of the protocol differ once a rename fails. */
  datatype Routine = CreateExclusive | ClaimExclusiveDurable

  datatype Stage = Staging | Staged | Claiming | Holding | Renaming | Removing | Succeeded | FailedCall

  datatype Caller = Caller(routine: Routine, stage: Stage)

  datatype State = State(path: File, callers: map<nat, Caller>)

  /** How a link or a rename may come back: done, name taken, not supported
      here, failed, or failed after it had taken effect. */
  datatype Outcome = Done | Taken | Unsupported | Failed | FailedLate

  datatype Step =
    | Begin(c: nat, routine: Routine)
    | Stage(c: nat, ok: bool)
    | Link(c: nat, outcome: Outcome)
    | OpenExclusive(c: nat, ok: bool)
    | Close(c: nat, ok: bool)
    | Rename(c: nat, outcome: Outcome)
    | Remove(c: nat, ok: bool)
    | Crash(c: nat)

  function At(s: State, c: nat, stage: Stage): State
    requires c in s.callers
  {
    s.(callers := s.callers[c := s.callers[c].(stage := stage)])
  }

  /** What the system does with a step: a name is linked or created only when it
      is free; a rename replaces whatever is there. */
  predicate Possible(s: State, l: Step) {
    match l
    case Begin(c, _) => c !in s.callers
    case Stage(c, _) => c in s.callers && s.callers[c].stage.Staging?
    case Link(c, outcome) =>
      && c in s.callers && s.callers[c].stage.Staged?
      && (outcome.Done? || outcome.FailedLate? ==> s.path.Absent?) && (outcome.Taken? ==> !s.path.Absent?)
    case OpenExclusive(c, ok) => c in s.callers && s.callers[c].stage.Claiming? && (ok ==> s.path.Absent?)
    case Close(c, _) => c in s.callers && s.callers[c].stage.Holding?
    case Rename(c, outcome) => c in s.callers && s.callers[c].stage.Renaming? && !outcome.Taken? && !outcome.Unsupported?
    case Remove(c, _) => c in s.callers && s.callers[c].stage.Removing?
    case Crash(c) => c in s.callers && !s.callers[c].stage.Succeeded?
  }

  function Next(s: State, l: Step): State
    requires Possible(s, l)
  {
    match l
    case Begin(c, routine) => s.(callers := s.callers[c := Caller(routine, Staging)])
    case Stage(c, ok) => At(s, c, if ok then Staged else FailedCall)
    case Link(c, outcome) =>
      (match outcome
       case Done => At(s.(path := Body(c)), c, Succeeded)
       case FailedLate => At(s.(path := Body(c)), c, FailedCall)
       case Unsupported => At(s, c, Claiming)
       case _ => At(s, c, FailedCall))
    case OpenExclusive(c, ok) => if ok then At(s.(path := Placeholder(c)), c, Holding) else At(s, c, FailedCall)
    case Close(c, ok) => At(s, c, if ok then Renaming else Removing)
    case Rename(c, outcome) =>
      var t := if outcome.Done? || outcome.FailedLate? then s.(path := Body(c)) else s;
      At(t, c, if outcome.Done? then Succeeded else if s.callers[c].routine.CreateExclusive? then Removing else FailedCall)
    case Remove(c, ok) => At(if ok then s.(path := Absent) else s, c, FailedCall)
    case Crash(c) => At(s, c, FailedCall)
  }

  /** A finite run from a free name, or from one that was already taken. */
  ghost predicate Run(states: seq<State>, steps: seq<Step>) {
    && |states| == |steps| + 1 && states[0].callers == map[] && states[0].path in {Absent, Existing}
    && forall i {:trigger steps[i]} :: 0 <= i < |steps| ==> Possible(states[i], steps[i]) && states[i + 1] == Next(states[i], steps[i])
  }

  /** Whoever holds the name has it to itself, and whoever succeeded published. */
  ghost predicate Owns(s: State, c: nat)
    requires c in s.callers
  {
    match s.callers[c].stage
    case Holding => s.path == Placeholder(c)
    case Renaming => s.path == Placeholder(c)
    case Removing => s.path == Placeholder(c) || s.path == Body(c)
    case Succeeded => s.path == Body(c)
    case _ => true
  }

  ghost predicate Inv(s: State) {
    && (forall c {:trigger Owns(s, c)} :: c in s.callers ==> Owns(s, c))
    && (s.path.Placeholder? || s.path.Body? ==> s.path.owner in s.callers)
  }

  lemma StepKeeps(s: State, l: Step)
    requires Inv(s) && Possible(s, l)
    ensures Inv(Next(s, l))
    ensures s.path == Existing ==> Next(s, l).path == Existing
    ensures forall c <- s.callers.Keys :: c in Next(s, l).callers
    ensures forall c <- s.callers.Keys :: s.callers[c].stage.Succeeded? ==> Next(s, l) .callers[c] == s.callers[c] && Next(s, l).path == s.path
  {
    var t := Next(s, l);
    assert l.c in s.callers ==> Owns(s, l.c);
    forall c | c in t.callers
      ensures Owns(t, c)
    {
      assert c in s.callers ==> Owns(s, c);
    }
    forall c <- s.callers.Keys | s.callers[c].stage.Succeeded?
      ensures t.callers[c] == s.callers[c] && t.path == s.path
    {
      assert Owns(s, c);
    }
  }

  lemma {:induction false} RunKeeps(states: seq<State>, steps: seq<Step>, i: nat)
    requires Run(states, steps) && i < |states|
    ensures Inv(states[i]) && (states[0].path == Existing ==> states[i].path == Existing)
    decreases i
  {
    if i > 0 {
      RunKeeps(states, steps, i - 1);
      hide Inv, Possible, Next;
      assert Possible(states[i - 1], steps[i - 1]) && states[i - 1 + 1] == Next(states[i - 1], steps[i - 1]);
      StepKeeps(states[i - 1], steps[i - 1]);
    }
  }

  /** At most one call ever succeeds. */
  lemma AtMostOneSucceeds(states: seq<State>, steps: seq<Step>, i: nat, a: nat, b: nat)
    requires Run(states, steps) && i < |states| && a in states[i].callers && b in states[i].callers
    requires states[i].callers[a].stage.Succeeded? && states[i].callers[b].stage.Succeeded?
    ensures a == b
  {
    RunKeeps(states, steps, i);
    assert Owns(states[i], a) && Owns(states[i], b);
  }

  /** From the moment a call succeeds the path holds that caller's whole body,
      whatever the others go on to do. */
  lemma {:induction false} SuccessStands(states: seq<State>, steps: seq<Step>, i: nat, j: nat, c: nat)
    requires Run(states, steps) && i <= j < |states| && c in states[i].callers && states[i].callers[c].stage.Succeeded?
    ensures c in states[j].callers && states[j].callers[c].stage.Succeeded? && states[j].path == Body(c)
    decreases j
  {
    hide Possible, Next;
    if i == j {
      RunKeeps(states, steps, i);
      assert Owns(states[i], c);
    } else {
      SuccessStands(states, steps, i, j - 1, c);
      RunKeeps(states, steps, j - 1);
      assert Possible(states[j - 1], steps[j - 1]) && states[j - 1 + 1] == Next(states[j - 1], steps[j - 1]);
      StepKeeps(states[j - 1], steps[j - 1]);
    }
  }

  /** A file that was there before is never replaced or removed, and then no call
      succeeds. */
  lemma ExistingFileIsSafe(states: seq<State>, steps: seq<Step>, i: nat, c: nat)
    requires Run(states, steps) && i < |states| && states[0].path == Existing
    ensures states[i].path == Existing
    ensures c in states[i].callers ==> !states[i].callers[c].stage.Succeeded?
  {
    RunKeeps(states, steps, i);
    if c in states[i].callers {
      assert Owns(states[i], c);
    }
  }

  // ------------------------------------------------------------- the routines

  /** One call's luck: how each system call comes back. */
  datatype Luck = Luck(staged: bool, link: Outcome, open_: bool, close: bool, rename: Outcome, remove: bool)

  /** What a claim leaves under a name that was free: the body once the rename took
      effect, the placeholder while it did not, and nothing where it was given back. */
  function LeftByClaim(c: nat, routine: Routine, luck: Luck): File {
    var moved := luck.close && luck.rename in {Done, FailedLate};
    var givenBack := luck.remove && (!luck.close || (luck.rename != Done && routine == CreateExclusive));
    if !luck.open_ || givenBack then Absent else if moved then Body(c) else Placeholder(c)
  }

  lemma RunGrows(states: seq<State>, steps: seq<Step>, l: Step)
    requires Run(states, steps) && Possible(states[|steps|], l)
    ensures Run(states + [Next(states[|steps|], l)], steps + [l])
  {
    hide Possible, Next;
    var more, longer := states + [Next(states[|steps|], l)], steps + [l];
    forall i | 0 <= i < |longer|
      ensures Possible(more[i], longer[i]) && more[i + 1] == Next(more[i], longer[i])
    {
      assert i < |steps| ==> longer[i] == steps[i] && more[i + 1] == states[i + 1];
    }
  }

  /** The directory entry the routines work on, with the run of the protocol that
      has led to it beside it. */
  class Directory {
    var path: File
    ghost var state: State
    ghost var states: seq<State>
    ghost var steps: seq<Step>

    constructor (taken: bool)
      ensures Traced() && path == (if taken then Existing else Absent) && state.callers == map[] && states == [state]
    {
      path := if taken then Existing else Absent;
      state := State(if taken then Existing else Absent, map[]);
      states, steps := [State(if taken then Existing else Absent, map[])], [];
    }

    ghost predicate Traced()
      reads this
    {
      state.path == path && Run(states, steps) && states[|steps|] == state
    }

    ghost method Take(l: Step)
      requires Run(states, steps) && states[|steps|] == state && Possible(state, l) && path == Next(state, l).path
      modifies `state, `states, `steps
      ensures Traced() && state == old(Next(state, l)) && old(steps) <= steps && old(states) <= states
    {
      RunGrows(states, steps, l);
      states, steps := states + [Next(state, l)], steps + [l];
      state := Next(state, l);
    }

    /** One system call of somebody else, whatever it may be. */
    method Elsewhere(l: Step, after: File)
      requires Traced() && Possible(state, l) && after == Next(state, l).path
      modifies this
      ensures Traced() && path == after && state == old(Next(state, l)) && old(steps) <= steps && old(states) <= states
    {
      hide Run;
      path := after;
      Take(l);
    }

    /** Stages the body beside the path and publishes it without replacing
        anything; `luck` says how each system call comes back. */
    method Publish(c: nat, routine: Routine, luck: Luck) returns (ok: bool)
      requires Traced() && c !in state.callers
      modifies this
      ensures Traced() && c in state.callers && (ok <==> state.callers[c].stage.Succeeded?)
      ensures state.callers[c].stage in {Succeeded, FailedCall} && old(steps) <= steps && old(states) <= states
      ensures ok ==> old(path) == Absent && path == Body(c)
      ensures old(path) != Absent ==> !ok && path == old(path)
      ensures ok <==>
                && luck.staged && old(path) == Absent
                && (luck.link in {Done, Taken} || (luck.link == Unsupported && luck.open_ && luck.close && luck.rename == Done))
      ensures old(path) == Absent ==>
                path == if luck.staged && luck.link in {Done, Taken, FailedLate} then Body(c)
                        else if luck.staged && luck.link == Unsupported then LeftByClaim(c, routine, luck) else Absent
    {
      hide Run;
      ok := false;
      Take(Begin(c, routine));
      Take(Stage(c, luck.staged));
      if !luck.staged {
        return;
      }
      var linked := if luck.link.Done? && !path.Absent? then Taken
                    else if path.Absent? && luck.link.Taken? then Done
                    else if !path.Absent? && luck.link.FailedLate? then Failed else luck.link;
      if linked.Done? || linked.FailedLate? {
        path := Body(c);
      }
      Take(Link(c, linked));
      if !linked.Unsupported? {
        return linked.Done?;
      }
      ok := ClaimName(c, routine, luck);
    }

    /** Where hard links do not exist: create the name empty and exclusively,
        then rename the staged file over it; a failure gives the name back. */
    method ClaimName(c: nat, routine: Routine, luck: Luck) returns (ok: bool)
      requires Traced() && c in state.callers && state.callers[c] == Caller(routine, Claiming)
      modifies this
      ensures Traced() && c in state.callers && (ok <==> state.callers[c].stage.Succeeded?)
      ensures state.callers[c].stage in {Succeeded, FailedCall} && old(steps) <= steps && old(states) <= states
      ensures ok ==> old(path) == Absent && path == Body(c)
      ensures old(path) != Absent ==> !ok && path == old(path)
      ensures ok <==> old(path) == Absent && luck.open_ && luck.close && luck.rename == Done
      ensures old(path) == Absent ==> path == LeftByClaim(c, routine, luck)
    {
      hide Run;
      ok := false;
      var opened_ := luck.open_ && path.Absent?;
      if opened_ {
        path := Placeholder(c);
      }
      Take(OpenExclusive(c, opened_));
      if !opened_ {
        return;
      }
      Take(Close(c, luck.close));
      if luck.close {
        ok := RenameOver(c, luck);
        if ok || routine.ClaimExclusiveDurable? {
          return;
        }
      }
      if luck.remove {
        path := Absent;
      }
      Take(Remove(c, luck.remove));
    }

    method RenameOver(c: nat, luck: Luck) returns (ok: bool)
      requires Traced() && c in state.callers && state.callers[c].stage.Renaming?
      modifies this
      ensures Traced() && c in state.callers && old(steps) <= steps && old(states) <= states
      ensures state.callers[c] == Caller(old(state.callers[c].routine),
                if ok then Succeeded else if old(state.callers[c].routine).CreateExclusive? then Removing else FailedCall)
      ensures ok <==> luck.rename == Done
      ensures path == if luck.rename in {Done, FailedLate} then Body(c) else old(path)
    {
      hide Run;
      var renamed := if luck.rename.Taken? || luck.rename.Unsupported? then Failed else luck.rename;
      if renamed.Done? || renamed.FailedLate? {
        path := Body(c);
      }
      Take(Rename(c, renamed));
      ok := renamed.Done?;
    }
  }

  // ----------------------------------------------- what a directory may rely on

  /** However its calls and everybody else's went, one of them succeeded at most,
      and the path holds what that one published. */
  lemma DirectoryHasOneWinner(d: Directory, a: nat, b: nat)
    requires d.Traced() && a in d.state.callers && b in d.state.callers
    requires d.state.callers[a].stage.Succeeded? && d.state.callers[b].stage.Succeeded?
    ensures a == b && d.path == Body(a) && d.states[0].path == Absent
  {
    AtMostOneSucceeds(d.states, d.steps, |d.steps|, a, b);
    SuccessStands(d.states, d.steps, |d.steps|, |d.steps|, a);
    if d.states[0].path == Existing {
      ExistingFileIsSafe(d.states, d.steps, |d.steps|, a);
    }
  }
}
