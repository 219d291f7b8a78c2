/** Correction scoring: what a corpus keeps of the calls and denials it hears,
    in any order and however often each is copied. */
module CorpusRows {
  import opened Connectivity
  import opened Forest
  import opened Latest
  import opened Ordering

  // Nanoseconds since the epoch, in the range whose milliseconds fit 64 bits.
  type Time = t: int | (NO_TIME + 1) * 1_000_000 <= t witness 0

  function Milli(t: Time): Millis {
    t / 1_000_000
  }

  const CLAUDE := "claude"
  const BETWEEN_CALLS := "interrupted-between-calls"
  const CODEX_TURN_INTERRUPT := "codex-turn-interrupt"
  const CODEX_PATCH_DECLINED := "codex-patch-declined"

  datatype SessionRef = SessionRef(harness: string, id: string)

  /** The digest of a harness and a tool use id, taken as injective. */
  datatype CallId = CallId(harness: string, toolUseId: string)

  /** One simple command: its private identity and its printable shape. */
  datatype Segment = Segment(key: string, shape: string)

  datatype Line = Line(segments: seq<Segment>, primary: int)

  type Parsed = l: Line | -1 <= l.primary < |l.segments| witness Line([], -1)

  datatype Call = Call(harness: string, session: string, toolUseId: string, ts: Time, fileFirst: Time, command: string)

  datatype Denial = Denial(session: string, toolUseId: string, messageId: string, ts: Time, fileFirst: Time, kind: string,
                           tool: string, subagent: bool, shutdown: bool, nextOrigin: string)

  datatype EventRef = EventRef(kind: string, id: string)

  /** The command parser and the timestamp printer. */
  datatype Text = Text(parse: string -> Parsed, stamp: Time -> string)

  // -------------------------------------------------- what is heard of a call

  /** All that scoring uses of one sighting of a call. */
  datatype Sighting = Sighting(session: SessionRef, first: Millis, ts: Millis, early: bool, line: Parsed)

  function Id(c: Call): CallId {
    CallId(c.harness, c.toolUseId)
  }

  function Sight(text: Text, since: Time, c: Call): Sighting {
    Sighting(SessionRef(c.harness, c.session), Milli(c.fileFirst), Milli(c.ts), c.ts < since, text.parse(c.command))
  }

  /** The first copy wins: lowest file start, then time, then session. */
  predicate Lower(aFirst: int, aTs: int, aSession: string, bFirst: int, bTs: int, bSession: string) {
    aFirst < bFirst || (aFirst == bFirst && (aTs < bTs || (aTs == bTs && Less(aSession, bSession))))
  }

  predicate LowerSighting(a: Sighting, b: Sighting) {
    Lower(a.first, a.ts, a.session.id, b.first, b.ts, b.session.id)
  }

  predicate LowerDenial(a: Denial, b: Denial) {
    Lower(Milli(a.fileFirst), Milli(a.ts), a.session, Milli(b.fileFirst), Milli(b.ts), b.session)
  }

  ghost predicate LeastSighting(a: Sighting, copies: multiset<Sighting>) {
    a in copies && forall b <- copies :: !LowerSighting(b, a)
  }

  ghost predicate LeastDenial(a: Denial, copies: multiset<Denial>) {
    a in copies && forall b <- copies :: !LowerDenial(b, a)
  }

  predicate IsEvent(d: Denial) {
    d.kind == BETWEEN_CALLS || d.kind == CODEX_TURN_INTERRUPT || d.kind == CODEX_PATCH_DECLINED
  }

  function Event(text: Text, d: Denial): EventRef {
    EventRef(d.kind, if d.toolUseId != "" then d.toolUseId else text.stamp(d.ts))
  }

  type Heard = map<CallId, multiset<Sighting>>
  type Refused = map<string, multiset<Denial>>

  function Copies<K, V>(m: map<K, multiset<V>>, k: K): multiset<V> {
    if k in m then m[k] else multiset{}
  }

  /** All copies of each call in a log. */
  ghost function HeardIn(text: Text, since: Time, log: seq<Call>): Heard {
    if log == [] then map[] else
      var c := log[|log| - 1];
      var before := HeardIn(text, since, log[..|log| - 1]);
      before[Id(c) := Copies(before, Id(c)) + multiset{Sight(text, since, c)}]
  }

  ghost function RefusedIn(log: seq<Denial>): Refused {
    if log == [] then map[] else
      var d := log[|log| - 1];
      var before := RefusedIn(log[..|log| - 1]);
      if IsEvent(d) then before else before[d.toolUseId := Copies(before, d.toolUseId) + multiset{d}]
  }

  /** The copy kept of each call in a log: a later one only if it is lower. */
  ghost function KeptIn(text: Text, since: Time, log: seq<Call>): map<CallId, Sighting> {
    if log == [] then map[] else
      var c := log[|log| - 1];
      var before := KeptIn(text, since, log[..|log| - 1]);
      var sight := Sight(text, since, c);
      if Id(c) in before && !LowerSighting(sight, before[Id(c)]) then before else before[Id(c) := sight]
  }

  ghost function DenialsIn(log: seq<Denial>): map<string, Denial> {
    if log == [] then map[] else
      var d := log[|log| - 1];
      var before := DenialsIn(log[..|log| - 1]);
      if IsEvent(d) || (d.toolUseId in before && !LowerDenial(d, before[d.toolUseId])) then before else before[d.toolUseId := d]
  }

  ghost function EventsIn(text: Text, since: Time, log: seq<Denial>): set<EventRef> {
    set d | d in log && IsEvent(d) && d.ts >= since :: Event(text, d)
  }

  function SessionOf(d: Denial): SessionRef {
    SessionRef(CLAUDE, d.session)
  }

  ghost function CallSharing(heard: Heard): set<(SessionRef, SessionRef)> {
    set id, a, b | id in heard && a in heard[id] && b in heard[id] :: (a.session, b.session)
  }

  ghost function DenialSharing(refused: Refused): set<(SessionRef, SessionRef)> {
    set id, a, b | id in refused && a in refused[id] && b in refused[id] :: (SessionOf(a), SessionOf(b))
  }

  /** Two sessions share an id when each holds a copy of one call or one denial. */
  ghost function Sharing(heard: Heard, refused: Refused): set<(SessionRef, SessionRef)> {
    CallSharing(heard) + DenialSharing(refused)
  }

  // ----------------------------------------------------------------- the rows

  datatype Seg = Seg(key: string, shape: nat)

  /** One surviving call; its segments are segs[list..list + count]. */
  datatype Row = Row(ts: Millis, first: Millis, session: nat, copies: nat, list: nat, count: nat, primary: int, early: bool)

  predicate RowFits(refs: seq<SessionRef>, segs: seq<Seg>, shapes: seq<string>, r: Row) {
    && r.session < |refs| && r.list + r.count <= |segs| && -1 <= r.primary < r.count
    && forall j :: r.list <= j < r.list + r.count ==> segs[j].shape < |shapes|
  }

  function LineOf(segs: seq<Seg>, shapes: seq<string>, r: Row): (l: Parsed)
    requires r.list + r.count <= |segs| && -1 <= r.primary < r.count
    requires forall j :: r.list <= j < r.list + r.count ==> segs[j].shape < |shapes|
  {
    var line := seq(r.count, j requires 0 <= j < r.count => Segment(segs[r.list + j].key, shapes[segs[r.list + j].shape]));
    assert |line| == r.count;
    Line(line, r.primary)
  }

  function SightingAt(refs: seq<SessionRef>, segs: seq<Seg>, shapes: seq<string>, r: Row): Sighting
    requires RowFits(refs, segs, shapes, r)
  {
    Sighting(refs[r.session], r.first, r.ts, r.early, LineOf(segs, shapes, r))
  }

  ghost predicate RowOk(refs: seq<SessionRef>, segs: seq<Seg>, shapes: seq<string>, r: Row, copies: multiset<Sighting>) {
    && RowFits(refs, segs, shapes, r) && LeastSighting(SightingAt(refs, segs, shapes, r), copies)
    && r.copies + 1 == |copies|
  }

  /** Appending to the tables changes no row already there. */
  lemma RowStays(refs: seq<SessionRef>, segs: seq<Seg>, shapes: seq<string>,
                 refs': seq<SessionRef>, segs': seq<Seg>, shapes': seq<string>, r: Row)
    requires RowFits(refs, segs, shapes, r) && refs <= refs' && segs <= segs' && shapes <= shapes'
    ensures RowFits(refs', segs', shapes', r)
    ensures SightingAt(refs', segs', shapes', r) == SightingAt(refs, segs, shapes, r)
  {
    assert LineOf(segs', shapes', r).segments == LineOf(segs, shapes, r).segments;
  }

  // -------------------------------------------------------- what must hold

  ghost predicate Interned(index: map<SessionRef, nat>, refs: seq<SessionRef>, parent: seq<nat>) {
    && |parent| == |refs|
    && (forall i :: 0 <= i < |refs| ==> refs[i] in index && index[refs[i]] == i && parent[i] < |refs|)
    && (forall ref <- index.Keys :: index[ref] < |refs| && refs[index[ref]] == ref)
  }

  /** The parent pointers, between sessions rather than their numbers. */
  ghost function Pointers(index: map<SessionRef, nat>, refs: seq<SessionRef>, parent: seq<nat>): map<SessionRef, SessionRef>
    requires Interned(index, refs, parent)
  {
    map ref | ref in index :: refs[parent[index[ref]]]
  }

  ghost predicate ShapesOk(shapes: seq<string>, shapeIds: map<string, nat>, segs: seq<Seg>) {
    && |shapes| > 0 && shapes[0] == ""
    && (forall i :: 0 <= i < |shapes| ==> shapes[i] in shapeIds && shapeIds[shapes[i]] == i)
    && (forall shape <- shapeIds.Keys :: shapeIds[shape] < |shapes| && shapes[shapeIds[shape]] == shape)
    && (forall i :: 0 <= i < |segs| ==> segs[i].shape < |shapes|)
  }

  ghost predicate RowsOk(refs: seq<SessionRef>, segs: seq<Seg>, shapes: seq<string>, calls: map<CallId, Row>, heard: Heard) {
    && calls.Keys == heard.Keys
    && forall id <- calls.Keys :: RowOk(refs, segs, shapes, calls[id], heard[id])
  }

  /** The rows stand for these copies. */
  ghost predicate RowsHold(refs: seq<SessionRef>, segs: seq<Seg>, shapes: seq<string>, calls: map<CallId, Row>, kept: map<CallId, Sighting>) {
    && calls.Keys == kept.Keys
    && forall id <- calls.Keys :: RowFits(refs, segs, shapes, calls[id]) && SightingAt(refs, segs, shapes, calls[id]) == kept[id]
  }

  ghost predicate DenialsOk(denials: map<string, Denial>, refused: Refused) {
    && denials.Keys == refused.Keys
    && forall id <- denials.Keys :: LeastDenial(denials[id], refused[id])
  }

  /** A session is known and linked to the one that holds the kept copy. */
  ghost predicate LinkedTo(links: set<(SessionRef, SessionRef)>, refs: seq<SessionRef>, x: SessionRef, holder: SessionRef) {
    x in refs && Connected(links, x, holder)
  }

  ghost predicate CallsLinked(links: set<(SessionRef, SessionRef)>, refs: seq<SessionRef>, calls: map<CallId, Row>, heard: Heard) {
    forall id, a :: id in heard && a in heard[id] && id in calls && calls[id].session < |refs| ==>
      LinkedTo(links, refs, a.session, refs[calls[id].session])
  }

  ghost predicate DenialsLinked(links: set<(SessionRef, SessionRef)>, refs: seq<SessionRef>, denials: map<string, Denial>, refused: Refused) {
    forall id, a :: id in refused && a in refused[id] && id in denials ==> LinkedTo(links, refs, SessionOf(a), SessionOf(denials[id]))
  }

  // ------------------------------------------------------------ small steps

  lemma Registered(index: map<SessionRef, nat>, refs: seq<SessionRef>, parent: seq<nat>, ref: SessionRef)
    requires Interned(index, refs, parent) && ref !in index
    ensures Interned(index[ref := |refs|], refs + [ref], parent + [|refs|])
    ensures Pointers(index[ref := |refs|], refs + [ref], parent + [|refs|]) == Pointers(index, refs, parent)[ref := ref]
  {
    var i2, r2, p2 := index[ref := |refs|], refs + [ref], parent + [|refs|];
    assert forall i :: 0 <= i < |refs| ==> refs[i] != ref;
    assert Interned(i2, r2, p2);
  }

  lemma Repointed(index: map<SessionRef, nat>, refs: seq<SessionRef>, parent: seq<nat>, i: nat, to: nat)
    requires Interned(index, refs, parent) && i < |refs| && to < |refs|
    ensures Interned(index, refs, parent[i := to])
    ensures Pointers(index, refs, parent[i := to]) == Pointers(index, refs, parent)[refs[i] := refs[to]]
  {
  }

  lemma PointerAt(index: map<SessionRef, nat>, refs: seq<SessionRef>, parent: seq<nat>, i: nat)
    requires Interned(index, refs, parent) && i < |refs|
    ensures refs[i] in Pointers(index, refs, parent) && Pointers(index, refs, parent)[refs[i]] == refs[parent[i]]
    ensures forall j :: 0 <= j < |refs| ==> (refs[j] == refs[i] <==> j == i)
  {
  }

  /** Keeping the lower of two copies keeps the least of all, as only an exact
      tie leaves two copies unordered. */
  lemma LowerOrder(aFirst: int, aTs: int, aSession: string, bFirst: int, bTs: int, bSession: string, cFirst: int, cTs: int, cSession: string)
    ensures Lower(aFirst, aTs, aSession, bFirst, bTs, bSession) ==> !Lower(bFirst, bTs, bSession, aFirst, aTs, aSession)
    ensures Lower(aFirst, aTs, aSession, bFirst, bTs, bSession) && !Lower(cFirst, cTs, cSession, bFirst, bTs, bSession) ==>
              !Lower(cFirst, cTs, cSession, aFirst, aTs, aSession)
    ensures !Lower(aFirst, aTs, aSession, bFirst, bTs, bSession) && !Lower(bFirst, bTs, bSession, aFirst, aTs, aSession) ==>
              aFirst == bFirst && aTs == bTs && aSession == bSession
  {
    LessTotal(aSession, bSession);
    LessTotal(cSession, bSession);
    if Less(aSession, bSession) {
      LessAsymmetric(aSession, bSession);
      if Less(cSession, aSession) {
        LessTransitive(cSession, aSession, bSession);
      }
      if Less(bSession, cSession) {
        LessTransitive(aSession, bSession, cSession);
        LessAsymmetric(aSession, cSession);
      }
    }
    LessIrreflexive(aSession);
    if Less(bSession, cSession) && Less(cSession, bSession) {
      LessAsymmetric(bSession, cSession);
    }
  }

  lemma LeastAfter(held: Sighting, copies: multiset<Sighting>, more: Sighting)
    requires LeastSighting(held, copies)
    ensures LeastSighting(if LowerSighting(more, held) then more else held, copies + multiset{more})
  {
    forall b <- copies + multiset{more}
      ensures !LowerSighting(b, if LowerSighting(more, held) then more else held)
    {
      LowerOrder(more.first, more.ts, more.session.id, held.first, held.ts, held.session.id, b.first, b.ts, b.session.id);
      LowerOrder(b.first, b.ts, b.session.id, b.first, b.ts, b.session.id, b.first, b.ts, b.session.id);
    }
  }

  lemma LeastDenialAfter(held: Denial, copies: multiset<Denial>, more: Denial)
    requires LeastDenial(held, copies)
    ensures LeastDenial(if LowerDenial(more, held) then more else held, copies + multiset{more})
  {
    forall b <- copies + multiset{more}
      ensures !LowerDenial(b, if LowerDenial(more, held) then more else held)
    {
      LowerOrder(Milli(more.fileFirst), Milli(more.ts), more.session, Milli(held.fileFirst), Milli(held.ts), held.session,
                 Milli(b.fileFirst), Milli(b.ts), b.session);
      LowerOrder(Milli(b.fileFirst), Milli(b.ts), b.session, Milli(b.fileFirst), Milli(b.ts), b.session, Milli(b.fileFirst), Milli(b.ts), b.session);
    }
  }

  lemma LeastAlone(a: Sighting)
    ensures LeastSighting(a, multiset{} + multiset{a})
  {
    LowerOrder(a.first, a.ts, a.session.id, a.first, a.ts, a.session.id, a.first, a.ts, a.session.id);
  }

  lemma LeastDenialAlone(a: Denial)
    ensures LeastDenial(a, multiset{} + multiset{a})
  {
    LowerOrder(Milli(a.fileFirst), Milli(a.ts), a.session, Milli(a.fileFirst), Milli(a.ts), a.session, Milli(a.fileFirst), Milli(a.ts), a.session);
  }
}
