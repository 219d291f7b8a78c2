/** What a corpus shows of the calls and denials it heard, said over those calls
    and denials alone. */
module CorpusLaws {
  import opened Connectivity
  import opened Ordering
  import opened OrderingLaws
  import opened CorpusRows
  import opened CorpusStore
  import opened CorpusViews
  import opened CorpusReport

  /** Earlier file, then earlier time, both to the millisecond, then earlier text. */
  ghost predicate Sooner(aFile: int, aTs: int, aSession: string, bFile: int, bTs: int, bSession: string) {
    || aFile / 1_000_000 < bFile / 1_000_000
    || (aFile / 1_000_000 == bFile / 1_000_000
        && (aTs / 1_000_000 < bTs / 1_000_000 || (aTs / 1_000_000 == bTs / 1_000_000 && TextBefore(aSession, bSession))))
  }

  // ------------------------------------------------------------------- denials

  /** Denials of these three kinds are noted as events; all others are filed. */
  ghost predicate Filed(d: CorpusRows.Denial) {
    d.kind != "interrupted-between-calls" && d.kind != "codex-turn-interrupt" && d.kind != "codex-patch-declined"
  }

  lemma LowerDenialMeans(a: CorpusRows.Denial, b: CorpusRows.Denial)
    ensures LowerDenial(a, b) <==> Sooner(a.fileFirst, a.ts, a.session, b.fileFirst, b.ts, b.session)
    ensures IsEvent(a) <==> !Filed(a)
  {
    LessIsTextBefore(a.session, b.session);
  }

  /** Each filed denial that was heard is shown once, by a copy that none precedes. */
  lemma DenialsShown(c: Corpus)
    requires c.Kept()
    ensures var shown := ViewOf(c).denials;
            && (forall id :: id in shown <==> exists d <- c.denialLog :: Filed(d) && d.toolUseId == id)
            && forall id <- shown.Keys ::
                 && shown[id] in c.denialLog && Filed(shown[id]) && shown[id].toolUseId == id
                 && forall d <- c.denialLog :: Filed(d) && d.toolUseId == id ==>
                      !Sooner(d.fileFirst, d.ts, d.session, shown[id].fileFirst, shown[id].ts, shown[id].session)
  {
    var shown := ViewOf(c).denials;
    ViewIsKept(c);
    DenialIsLeast(c.denialLog);
    RefusedHasCopies(c.denialLog);
    hide ViewOf, Corpus.Kept, DenialsIn, RefusedIn, IsEvent, Filed, LowerDenial, Sooner;
    forall d: CorpusRows.Denial
      ensures IsEvent(d) <==> !Filed(d)
    {
      LowerDenialMeans(d, d);
    }
    forall id: string
      ensures id in shown <==> exists d <- c.denialLog :: Filed(d) && d.toolUseId == id
    {
      RefusedFrom(c.denialLog, id);
    }
    forall id <- shown.Keys
      ensures shown[id] in c.denialLog && Filed(shown[id]) && shown[id].toolUseId == id
      ensures forall d <- c.denialLog :: Filed(d) && d.toolUseId == id ==>
                !Sooner(d.fileFirst, d.ts, d.session, shown[id].fileFirst, shown[id].ts, shown[id].session)
    {
      RefusedFrom(c.denialLog, id);
      forall d <- c.denialLog | Filed(d) && d.toolUseId == id
        ensures !Sooner(d.fileFirst, d.ts, d.session, shown[id].fileFirst, shown[id].ts, shown[id].session)
      {
        LowerDenialMeans(d, shown[id]);
      }
    }
  }

  /** The events are those of the three kinds inside the window, each once. */
  lemma EventsShown(c: Corpus)
    requires c.Kept()
    ensures forall e: EventRef :: e in ViewOf(c).events <==>
              exists d <- c.denialLog ::
                && !Filed(d) && c.since <= d.ts && e.kind == d.kind
                && e.id == if d.toolUseId != "" then d.toolUseId else c.text.stamp(d.ts)
  {
    hide RowsOk, RowsHold, ShapesOk, DenialsOk, HeardIn, RefusedIn, KeptIn, DenialsIn, KeptOf, Sharing;
  }

  // --------------------------------------------------------------------- calls

  ghost predicate IsCopy(call: CorpusRows.Call, id: CallId) {
    call.harness == id.harness && call.toolUseId == id.toolUseId
  }

  /** All that is shown of one copy of a call. */
  ghost predicate ShowsCopy(text: Text, since: Time, s: Sighting, call: CorpusRows.Call) {
    && s.session == SessionRef(call.harness, call.session)
    && s.first == call.fileFirst / 1_000_000 && s.ts == call.ts / 1_000_000
    && (s.early <==> call.ts < since) && s.line == text.parse(call.command)
  }

  ghost predicate NonePrecedes(log: seq<CorpusRows.Call>, id: CallId, call: CorpusRows.Call) {
    forall other <- log :: IsCopy(other, id) ==>
      !Sooner(other.fileFirst, other.ts, other.session, call.fileFirst, call.ts, call.session)
  }

  lemma SightMeans(text: Text, since: Time, id: CallId, call: CorpusRows.Call, s: Sighting)
    ensures ShowsCopy(text, since, s, call) <==> Sight(text, since, call) == s
    ensures IsCopy(call, id) <==> Id(call) == id
  {
  }

  lemma LowerSightingMeans(text: Text, since: Time, a: CorpusRows.Call, b: CorpusRows.Call)
    ensures LowerSighting(Sight(text, since, a), Sight(text, since, b)) <==> Sooner(a.fileFirst, a.ts, a.session, b.fileFirst, b.ts, b.session)
  {
    LessIsTextBefore(a.session, b.session);
  }

  /** Each call heard is shown once, by a copy that none precedes. */
  lemma CallsShown(c: Corpus)
    requires c.Kept()
    ensures var shown := ViewOf(c).kept;
            && (forall id :: id in shown <==> exists call <- c.callLog :: IsCopy(call, id))
            && forall id <- shown.Keys ::
                 exists call <- c.callLog :: IsCopy(call, id) && ShowsCopy(c.text, c.since, shown[id], call) && NonePrecedes(c.callLog, id, call)
  {
    var shown, heard := ViewOf(c).kept, HeardIn(c.text, c.since, c.callLog);
    ViewIsKept(c);
    KeptIsLeast(c.text, c.since, c.callLog);
    HeardHasCopies(c.text, c.since, c.callLog);
    hide ViewOf, Corpus.Kept, KeptIn, HeardIn, LowerSighting, Sight, Sooner, IsCopy, Id, ShowsCopy, NonePrecedes;
    forall id: CallId
      ensures id in shown <==> exists call <- c.callLog :: IsCopy(call, id)
    {
      CopiesHeard(c, id);
    }
    forall id <- shown.Keys
      ensures exists call <- c.callLog :: IsCopy(call, id) && ShowsCopy(c.text, c.since, shown[id], call) && NonePrecedes(c.callLog, id, call)
    {
      HeardFrom(c.text, c.since, c.callLog, id);
      var call :| call in c.callLog && Id(call) == id && Sight(c.text, c.since, call) == shown[id];
      SightMeans(c.text, c.since, id, call, shown[id]);
      LeastPrecedes(c, id, call, heard[id]);
    }
  }

  lemma CopiesHeard(c: Corpus, id: CallId)
    ensures id in HeardIn(c.text, c.since, c.callLog) <==> exists call <- c.callLog :: IsCopy(call, id)
  {
    hide HeardIn, Sight, Id, IsCopy;
    var heard := HeardIn(c.text, c.since, c.callLog);
    HeardFrom(c.text, c.since, c.callLog, id);
    HeardHasCopies(c.text, c.since, c.callLog);
    forall call <- c.callLog
      ensures IsCopy(call, id) <==> Id(call) == id
    {
      SightMeans(c.text, c.since, id, call, Sight(c.text, c.since, call));
    }
    if id in heard {
      var a :| a in heard[id];
      var call :| call in c.callLog && Id(call) == id && Sight(c.text, c.since, call) == a;
    }
  }

  lemma LeastPrecedes(c: Corpus, id: CallId, call: CorpusRows.Call, copies: multiset<Sighting>)
    requires AreSightings(c.text, c.since, c.callLog, id, copies) && LeastSighting(Sight(c.text, c.since, call), copies)
    ensures NonePrecedes(c.callLog, id, call)
  {
    hide Sight, Id, IsCopy, LowerSighting, Sooner;
    forall other <- c.callLog | IsCopy(other, id)
      ensures !Sooner(other.fileFirst, other.ts, other.session, call.fileFirst, call.ts, call.session)
    {
      SightMeans(c.text, c.since, id, other, Sight(c.text, c.since, other));
      LowerSightingMeans(c.text, c.since, other, call);
    }
  }

  /** How many copies of a call were heard. */
  ghost function CopyPlaces(log: seq<CorpusRows.Call>, id: CallId): set<int> {
    set i | 0 <= i < |log| && IsCopy(log[i], id)
  }

  lemma CopyPlacesGrow(log: seq<CorpusRows.Call>, call: CorpusRows.Call, id: CallId)
    ensures |CopyPlaces(log + [call], id)| == |CopyPlaces(log, id)| + if IsCopy(call, id) then 1 else 0
  {
    assert CopyPlaces(log + [call], id) == if IsCopy(call, id) then CopyPlaces(log, id) + {|log|} else CopyPlaces(log, id);
  }

  lemma {:induction false} HeardSize(text: Text, since: Time, log: seq<CorpusRows.Call>, id: CallId)
    ensures |Copies(HeardIn(text, since, log), id)| == |CopyPlaces(log, id)|
    decreases |log|
  {
    if log == [] {
      assert CopyPlaces(log, id) == {};
    } else {
      var n := |log| - 1;
      assert log == log[..n] + [log[n]];
      HeardSize(text, since, log[..n], id);
      HeardGrows(text, since, log[..n], log[n]);
      CopyPlacesGrow(log[..n], log[n], id);
      SightMeans(text, since, id, log[n], Sight(text, since, log[n]));
      hide HeardIn, Sight, CopyPlaces, IsCopy, Id;
    }
  }

  /** Copies beyond the one shown are counted. */
  lemma CopiesShown(c: Corpus, id: CallId)
    requires c.Valid() && id in c.calls
    ensures ViewOf(c).copies[id] + 1 == |CopyPlaces(c.callLog, id)|
  {
    hide RowFits, SightingAt, LeastSighting, CopyPlaces;
    HeardSize(c.text, c.since, c.callLog, id);
    HeldFits(c.refs, c.segs, c.shapes, c.calls, HeardIn(c.text, c.since, c.callLog), id);
  }

  ghost function Places(log: seq<CorpusRows.Call>, ids: set<CallId>): set<int> {
    set i | 0 <= i < |log| && CallId(log[i].harness, log[i].toolUseId) in ids
  }

  lemma PlacesSplit(log: seq<CorpusRows.Call>, ids: set<CallId>, id: CallId)
    requires id !in ids
    ensures |Places(log, ids + {id})| == |Places(log, ids)| + |CopyPlaces(log, id)|
  {
    assert Places(log, ids + {id}) == Places(log, ids) + CopyPlaces(log, id);
    assert Places(log, ids) !! CopyPlaces(log, id);
  }

  /** Nothing heard is lost from the count: of any calls shown, those shown and the
      copies counted beside them are all that was heard of them. */
  lemma {:induction false} CopiesAreConserved(c: Corpus, ids: set<CallId>)
    requires c.Valid() && ids <= c.calls.Keys
    ensures ids <= ViewOf(c).copies.Keys && Sum(ViewOf(c).copies, ids) + |ids| == |Places(c.callLog, ids)|
    decreases |ids|
  {
    hide Corpus.Linked, Corpus.Joined, Corpus.Kept, CopyPlaces, Places;
    CopyKeys(c);
    if ids == {} {
      NoPlaces(c.callLog);
    } else {
      var id :| id in ids;
      CopiesAreConserved(c, ids - {id});
      CopiesShown(c, id);
      PlacesSplit(c.callLog, ids - {id}, id);
      SumAdds(ViewOf(c).copies, ids - {id}, id);
      assert ids - {id} + {id} == ids;
    }
  }

  lemma NoPlaces(log: seq<CorpusRows.Call>)
    ensures Places(log, {}) == {}
  {
  }

  lemma CopyKeys(c: Corpus)
    requires c.Kept()
    ensures ViewOf(c).copies.Keys == c.calls.Keys
  {
  }

  // -------------------------------------------------------------------- sharing

  /** Two sessions share an id when each made a copy of one call, or was refused a
      copy of one filed denial. */
  ghost predicate SharesCall(log: seq<CorpusRows.Call>, a: SessionRef, b: SessionRef) {
    exists x, y ::
      && x in log && y in log && x.harness == y.harness && x.toolUseId == y.toolUseId
      && a == SessionRef(x.harness, x.session) && b == SessionRef(y.harness, y.session)
  }

  ghost predicate SharesDenial(log: seq<CorpusRows.Denial>, a: SessionRef, b: SessionRef) {
    exists x, y ::
      && x in log && y in log && Filed(x) && Filed(y) && x.toolUseId == y.toolUseId
      && a == SessionRef("claude", x.session) && b == SessionRef("claude", y.session)
  }

  lemma SharingShown(c: Corpus, a: SessionRef, b: SessionRef)
    requires c.Kept()
    ensures (a, b) in ViewOf(c).sharing <==> SharesCall(c.callLog, a, b) || SharesDenial(c.denialLog, a, b)
  {
    hide Corpus.Kept, HeardIn, RefusedIn, IsEvent, Filed, KeptOf;
    var heard, refused := HeardIn(c.text, c.since, c.callLog), RefusedIn(c.denialLog);
    assert ViewOf(c).sharing == Sharing(heard, refused);
    CallSharingMeans(c, a, b);
    DenialSharingMeans(c, a, b);
    hide CallSharing, DenialSharing, SharesCall, SharesDenial;
  }

  lemma CallSharingMeans(c: Corpus, a: SessionRef, b: SessionRef)
    ensures (a, b) in CallSharing(HeardIn(c.text, c.since, c.callLog)) <==> SharesCall(c.callLog, a, b)
  {
    hide HeardIn;
    var heard := HeardIn(c.text, c.since, c.callLog);
    if (a, b) in CallSharing(heard) {
      var id: CallId, s: Sighting, t: Sighting :| id in heard && s in heard[id] && t in heard[id] && (a, b) == (s.session, t.session);
      HeardFrom(c.text, c.since, c.callLog, id);
    }
    if SharesCall(c.callLog, a, b) {
      var x, y :| x in c.callLog && y in c.callLog && x.harness == y.harness && x.toolUseId == y.toolUseId
                  && a == SessionRef(x.harness, x.session) && b == SessionRef(y.harness, y.session);
      HeardFrom(c.text, c.since, c.callLog, Id(x));
      assert Id(x) == Id(y);
      var s, t := Sight(c.text, c.since, x), Sight(c.text, c.since, y);
      assert s in Copies(heard, Id(x)) && t in Copies(heard, Id(x));
    }
  }

  lemma FiledOrEvent(d: CorpusRows.Denial)
    ensures IsEvent(d) <==> !Filed(d)
  {
  }

  lemma RefusedIsFiled(log: seq<CorpusRows.Denial>, id: string, d: CorpusRows.Denial)
    ensures d in Copies(RefusedIn(log), id) <==> d in log && Filed(d) && d.toolUseId == id
  {
    hide RefusedIn, IsEvent, Filed, Copies;
    RefusedFrom(log, id);
    FiledOrEvent(d);
  }

  lemma DenialSharingMeans(c: Corpus, a: SessionRef, b: SessionRef)
    ensures (a, b) in DenialSharing(RefusedIn(c.denialLog)) <==> SharesDenial(c.denialLog, a, b)
  {
    hide RefusedIn, Filed;
    var refused := RefusedIn(c.denialLog);
    if (a, b) in DenialSharing(refused) {
      var id: string, s: CorpusRows.Denial, t: CorpusRows.Denial :|
        id in refused && s in refused[id] && t in refused[id] && (a, b) == (SessionOf(s), SessionOf(t));
      RefusedIsFiled(c.denialLog, id, s);
      RefusedIsFiled(c.denialLog, id, t);
      assert s in c.denialLog && t in c.denialLog && Filed(s) && Filed(t) && s.toolUseId == t.toolUseId;
      assert SharesDenial(c.denialLog, a, b);
    }
    if SharesDenial(c.denialLog, a, b) {
      var x, y :| x in c.denialLog && y in c.denialLog && Filed(x) && Filed(y) && x.toolUseId == y.toolUseId
                  && a == SessionRef("claude", x.session) && b == SessionRef("claude", y.session);
      RefusedIsFiled(c.denialLog, x.toolUseId, x);
      RefusedIsFiled(c.denialLog, x.toolUseId, y);
      assert x in refused[x.toolUseId] && y in refused[x.toolUseId];
      assert (SessionOf(x), SessionOf(y)) in DenialSharing(refused);
    }
  }
}
