/** What a corpus stands for, whatever order it heard things in. */
module CorpusViews {
  import opened Connectivity
  import opened Forest
  import opened Latest
  import opened Ordering
  import opened CorpusRows
  import opened CorpusStore

  /** The surviving calls with their copies, the surviving denials, the noted
      events and which sessions share an id. */
  datatype View = View(kept: map<CallId, Sighting>, copies: map<CallId, nat>, denials: map<string, CorpusRows.Denial>, events: set<EventRef>,
                       sharing: set<(SessionRef, SessionRef)>)

  ghost function KeptOf(refs: seq<SessionRef>, segs: seq<Seg>, shapes: seq<string>, calls: map<CallId, Row>): map<CallId, Sighting>
    requires forall id <- calls.Keys :: RowFits(refs, segs, shapes, calls[id])
  {
    map id | id in calls :: SightingAt(refs, segs, shapes, calls[id])
  }

  lemma RowsFit(c: Corpus)
    requires c.Kept()
    ensures forall id <- c.calls.Keys :: RowFits(c.refs, c.segs, c.shapes, c.calls[id])
  {
    forall id <- c.calls.Keys
      ensures RowFits(c.refs, c.segs, c.shapes, c.calls[id])
    {
      HeldFits(c.refs, c.segs, c.shapes, c.calls, HeardIn(c.text, c.since, c.callLog), id);
    }
  }

  ghost function ViewOf(c: Corpus): View
    requires c.Kept()
    reads c`refs, c`segs, c`shapes, c`shapeIds, c`calls, c`denials, c`events, c`callLog, c`denialLog
  {
    RowsFit(c);
    View(KeptOf(c.refs, c.segs, c.shapes, c.calls), map id | id in c.calls :: c.calls[id].copies, c.denials, c.events,
         Sharing(HeardIn(c.text, c.since, c.callLog), RefusedIn(c.denialLog)))
  }

  // -------------------------------------------------- one order like another

  ghost function Sightings(text: Text, since: Time, log: seq<CorpusRows.Call>): seq<(CallId, Sighting)> {
    seq(|log|, i requires 0 <= i < |log| => (Id(log[i]), Sight(text, since, log[i])))
  }

  lemma SightingsSum(text: Text, since: Time, a: seq<CorpusRows.Call>, b: seq<CorpusRows.Call>)
    ensures Sightings(text, since, a + b) == Sightings(text, since, a) + Sightings(text, since, b)
  {
  }

  lemma WithoutOne<T>(s: seq<T>, j: nat)
    requires j < |s|
    ensures multiset(s[..j] + s[j + 1..]) == multiset(s) - multiset{s[j]}
  {
    assert s == s[..j] + [s[j]] + s[j + 1..];
  }

  lemma PutBetween<T>(p: seq<T>, u: seq<T>, x: seq<T>, w: seq<T>)
    requires multiset(p) == multiset(u + w)
    ensures multiset(p + x) == multiset(u + (x + w))
  {
  }

  lemma {:induction false} SightingsAnyOrder(text: Text, since: Time, a: seq<CorpusRows.Call>, b: seq<CorpusRows.Call>)
    requires multiset(a) == multiset(b)
    ensures multiset(Sightings(text, since, a)) == multiset(Sightings(text, since, b))
    decreases |a|
  {
    assert |multiset(a)| == |a| && |multiset(b)| == |b|;
    if |a| > 0 {
      hide Sightings;
      var n := |a| - 1;
      var x := a[n];
      assert a == a[..n] + [x];
      assert x in multiset(b);
      var j :| 0 <= j < |b| && b[j] == x;
      var u, w := b[..j], b[j + 1..];
      assert b == u + ([x] + w);
      WithoutOne(b, j);
      WithoutOne(a, n);
      assert a[..n] + a[n + 1..] == a[..n];
      SightingsAnyOrder(text, since, a[..n], u + w);
      SightingsSum(text, since, a[..n], [x]);
      SightingsSum(text, since, u, [x] + w);
      SightingsSum(text, since, [x], w);
      SightingsSum(text, since, u, w);
      PutBetween(Sightings(text, since, a[..n]), Sightings(text, since, u), Sightings(text, since, [x]), Sightings(text, since, w));
    }
  }

  /** Each copy is held as often as it was sighted. */
  lemma {:induction false} HeardCounts(text: Text, since: Time, log: seq<CorpusRows.Call>, id: CallId, s: Sighting)
    ensures Copies(HeardIn(text, since, log), id)[s] == multiset(Sightings(text, since, log))[(id, s)]
    decreases |log|
  {
    if |log| > 0 {
      hide Sightings;
      var n := |log| - 1;
      assert log == log[..n] + [log[n]];
      HeardCounts(text, since, log[..n], id, s);
      HeardGrows(text, since, log[..n], log[n]);
      SightingsSum(text, since, log[..n], [log[n]]);
      OneSighting(text, since, log[n]);
    }
  }

  lemma {:induction false} HeardHasCopies(text: Text, since: Time, log: seq<CorpusRows.Call>)
    ensures NoEmpty(HeardIn(text, since, log))
    decreases |log|
  {
    if |log| > 0 {
      var n := |log| - 1;
      assert log == log[..n] + [log[n]];
      HeardHasCopies(text, since, log[..n]);
      HeardGrows(text, since, log[..n], log[n]);
      assert Sight(text, since, log[n]) in Copies(HeardIn(text, since, log[..n]), Id(log[n])) + multiset{Sight(text, since, log[n])};
    }
  }

  ghost predicate NoEmpty<K, V>(m: map<K, multiset<V>>) {
    forall k <- m.Keys :: m[k] != multiset{}
  }

  lemma OneSighting(text: Text, since: Time, c: CorpusRows.Call)
    ensures Sightings(text, since, [c]) == [(Id(c), Sight(text, since, c))]
  {
  }

  lemma SameCopies<K, V>(a: map<K, multiset<V>>, b: map<K, multiset<V>>)
    requires forall k :: Copies(a, k) == Copies(b, k)
    requires NoEmpty(a) && NoEmpty(b)
    ensures a == b
  {
    forall k | k in a || k in b
      ensures k in a && k in b && a[k] == b[k]
    {
      assert Copies(a, k) == Copies(b, k);
    }
  }

  lemma HeardAnyOrder(text: Text, since: Time, a: seq<CorpusRows.Call>, b: seq<CorpusRows.Call>)
    requires multiset(a) == multiset(b)
    ensures HeardIn(text, since, a) == HeardIn(text, since, b)
  {
    hide HeardIn, Sightings;
    SightingsAnyOrder(text, since, a, b);
    var x, y := HeardIn(text, since, a), HeardIn(text, since, b);
    HeardHasCopies(text, since, a);
    HeardHasCopies(text, since, b);
    forall id
      ensures Copies(x, id) == Copies(y, id)
    {
      forall s
        ensures Copies(x, id)[s] == Copies(y, id)[s]
      {
        HeardCounts(text, since, a, id, s);
        HeardCounts(text, since, b, id, s);
      }
    }
    SameCopies(x, y);
  }

  lemma {:induction false} RefusedCounts(log: seq<CorpusRows.Denial>, id: string, d: CorpusRows.Denial)
    ensures Copies(RefusedIn(log), id)[d] == if !IsEvent(d) && d.toolUseId == id then multiset(log)[d] else 0
    decreases |log|
  {
    if |log| > 0 {
      var n := |log| - 1;
      assert log == log[..n] + [log[n]];
      RefusedCounts(log[..n], id, d);
      RefusedGrows(log[..n], log[n]);
    }
  }

  lemma {:induction false} RefusedHasCopies(log: seq<CorpusRows.Denial>)
    ensures NoEmpty(RefusedIn(log))
    decreases |log|
  {
    if |log| > 0 {
      var n := |log| - 1;
      assert log == log[..n] + [log[n]];
      RefusedHasCopies(log[..n]);
      RefusedGrows(log[..n], log[n]);
      assert log[n] in Copies(RefusedIn(log[..n]), log[n].toolUseId) + multiset{log[n]};
    }
  }

  lemma RefusedAnyOrder(a: seq<CorpusRows.Denial>, b: seq<CorpusRows.Denial>)
    requires multiset(a) == multiset(b)
    ensures RefusedIn(a) == RefusedIn(b)
  {
    hide RefusedIn, IsEvent;
    var x, y := RefusedIn(a), RefusedIn(b);
    RefusedHasCopies(a);
    RefusedHasCopies(b);
    forall id
      ensures Copies(x, id) == Copies(y, id)
    {
      forall d
        ensures Copies(x, id)[d] == Copies(y, id)[d]
      {
        RefusedCounts(a, id, d);
        RefusedCounts(b, id, d);
      }
    }
    SameCopies(x, y);
  }

  lemma EventsAnyOrder(text: Text, since: Time, a: seq<CorpusRows.Denial>, b: seq<CorpusRows.Denial>)
    requires multiset(a) == multiset(b)
    ensures EventsIn(text, since, a) == EventsIn(text, since, b)
  {
    assert forall d :: d in a <==> d in multiset(a);
    assert forall d :: d in b <==> d in multiset(b);
  }

  // --------------------------------------------------- which copies are kept

  /** No call has two different copies that are both the lowest. */
  ghost predicate NoCallTies(heard: Heard) {
    forall id, a, b :: id in heard && LeastSighting(a, heard[id]) && LeastSighting(b, heard[id]) ==> a == b
  }

  ghost predicate NoDenialTies(refused: Refused) {
    forall id, a, b :: id in refused && LeastDenial(a, refused[id]) && LeastDenial(b, refused[id]) ==> a == b
  }

  ghost predicate NoTies(heard: Heard, refused: Refused) {
    NoCallTies(heard) && NoDenialTies(refused)
  }

  ghost predicate AllLeast(kept: map<CallId, Sighting>, heard: Heard) {
    kept.Keys == heard.Keys && forall id <- kept.Keys :: LeastSighting(kept[id], heard[id])
  }

  lemma LeastStep(kept: map<CallId, Sighting>, heard: Heard, id: CallId, sight: Sighting)
    requires AllLeast(kept, heard)
    ensures AllLeast(if id in kept && !LowerSighting(sight, kept[id]) then kept else kept[id := sight], heard[id := Copies(heard, id) + multiset{sight}])
  {
    hide LeastSighting, LowerSighting;
    if id in kept {
      LeastAfter(kept[id], heard[id], sight);
    } else {
      LeastAlone(sight);
    }
  }

  /** The copy kept of a call is a lowest one. */
  lemma {:induction false} KeptIsLeast(text: Text, since: Time, log: seq<CorpusRows.Call>)
    ensures AllLeast(KeptIn(text, since, log), HeardIn(text, since, log))
    decreases |log|
  {
    if log != [] {
      hide KeptIn, HeardIn, Sight, AllLeast, LowerSighting;
      var n := |log| - 1;
      var c := log[n];
      assert log == log[..n] + [c];
      KeptIsLeast(text, since, log[..n]);
      KeptGrows(text, since, log[..n], c);
      HeardGrows(text, since, log[..n], c);
      LeastStep(KeptIn(text, since, log[..n]), HeardIn(text, since, log[..n]), Id(c), Sight(text, since, c));
    }
  }

  lemma {:induction false} DenialIsLeast(log: seq<CorpusRows.Denial>)
    ensures DenialsIn(log).Keys == RefusedIn(log).Keys
    ensures forall id <- DenialsIn(log).Keys :: LeastDenial(DenialsIn(log)[id], RefusedIn(log)[id])
    decreases |log|
  {
    if log != [] {
      hide DenialsIn, RefusedIn, LeastDenial, LowerDenial, IsEvent;
      var n := |log| - 1;
      var d, kept, refused := log[n], DenialsIn(log[..n]), RefusedIn(log[..n]);
      assert log == log[..n] + [d];
      DenialIsLeast(log[..n]);
      DenialsGrow(log[..n], d);
      RefusedGrows(log[..n], d);
      if d.toolUseId in kept {
        LeastDenialAfter(kept[d.toolUseId], refused[d.toolUseId], d);
      } else {
        LeastDenialAlone(d);
      }
    }
  }

  /** The first copy stays where no other is lower. */
  lemma {:induction false} FirstStays(text: Text, since: Time, log: seq<CorpusRows.Call>)
    requires log != [] && forall c <- log :: Id(c) == Id(log[0]) ==> !LowerSighting(Sight(text, since, c), Sight(text, since, log[0]))
    ensures Id(log[0]) in KeptIn(text, since, log) && KeptIn(text, since, log)[Id(log[0])] == Sight(text, since, log[0])
    decreases |log|
  {
    hide KeptIn, Sight, LowerSighting, Id;
    var n := |log| - 1;
    assert log == log[..n] + [log[n]];
    KeptGrows(text, since, log[..n], log[n]);
    if n > 0 {
      FirstStays(text, since, log[..n]);
    } else {
      NoneKept(text, since);
      assert log[..n] == [];
    }
  }

  lemma NoneKept(text: Text, since: Time)
    ensures KeptIn(text, since, []) == map[] && DenialsIn([]) == map[]
  {
  }

  lemma {:induction false} FirstDenialStays(log: seq<CorpusRows.Denial>)
    requires log != [] && !IsEvent(log[0])
    requires forall d <- log :: d.toolUseId == log[0].toolUseId && !IsEvent(d) ==> !LowerDenial(d, log[0])
    ensures log[0].toolUseId in DenialsIn(log) && DenialsIn(log)[log[0].toolUseId] == log[0]
    decreases |log|
  {
    hide DenialsIn, LowerDenial, IsEvent;
    var n := |log| - 1;
    assert log == log[..n] + [log[n]];
    DenialsGrow(log[..n], log[n]);
    if n > 0 {
      FirstDenialStays(log[..n]);
    } else {
      assert log[..n] == [];
      assert DenialsIn([]) == map[] by {
        NoDenials();
      }
    }
  }

  lemma NoDenials()
    ensures DenialsIn([]) == map[]
  {
  }

  /** These are the sightings of the calls with this id. */
  ghost predicate AreSightings(text: Text, since: Time, log: seq<CorpusRows.Call>, id: CallId, copies: multiset<Sighting>) {
    && (forall c <- log :: Id(c) == id ==> Sight(text, since, c) in copies)
    && forall a <- copies :: exists c <- log :: Id(c) == id && Sight(text, since, c) == a
  }

  lemma SightingsStep(text: Text, since: Time, log: seq<CorpusRows.Call>, c: CorpusRows.Call, id: CallId, copies: multiset<Sighting>)
    requires AreSightings(text, since, log, id, copies)
    ensures AreSightings(text, since, log + [c], id, if Id(c) == id then copies + multiset{Sight(text, since, c)} else copies)
  {
    hide Sight, Id;
    var now := if Id(c) == id then copies + multiset{Sight(text, since, c)} else copies;
    forall a <- now
      ensures exists x <- log + [c] :: Id(x) == id && Sight(text, since, x) == a
    {
      if a in copies {
        var x :| x in log && Id(x) == id && Sight(text, since, x) == a;
        assert x in log + [c];
      } else {
        assert c in log + [c];
      }
    }
  }

  /** The copies of a call are the sightings of its calls in the log. */
  lemma {:induction false} HeardFrom(text: Text, since: Time, log: seq<CorpusRows.Call>, id: CallId)
    ensures AreSightings(text, since, log, id, Copies(HeardIn(text, since, log), id))
    decreases |log|
  {
    if log != [] {
      hide HeardIn, Sight, Id, AreSightings;
      var n := |log| - 1;
      assert log == log[..n] + [log[n]];
      HeardFrom(text, since, log[..n], id);
      HeardGrows(text, since, log[..n], log[n]);
      SightingsStep(text, since, log[..n], log[n], id, Copies(HeardIn(text, since, log[..n]), id));
    }
  }

  lemma {:induction false} RefusedFrom(log: seq<CorpusRows.Denial>, id: string)
    ensures forall d <- log :: d.toolUseId == id && !IsEvent(d) ==> d in Copies(RefusedIn(log), id)
    ensures forall d <- Copies(RefusedIn(log), id) :: d in log && d.toolUseId == id && !IsEvent(d)
    decreases |log|
  {
    if log != [] {
      hide RefusedIn, IsEvent;
      var n := |log| - 1;
      assert log == log[..n] + [log[n]];
      RefusedFrom(log[..n], id);
      RefusedGrows(log[..n], log[n]);
    }
  }

  /** A log with one of its entries moved to the front. */
  function Fronted<T>(log: seq<T>, k: nat): (r: seq<T>)
    requires k < |log|
    ensures multiset(r) == multiset(log) && r != [] && r[0] == log[k]
    ensures forall x <- r :: x in log
  {
    assert log == log[..k] + [log[k]] + log[k + 1..];
    [log[k]] + (log[..k] + log[k + 1..])
  }

  /** Any lowest copy is the one kept in some order. */
  lemma LeastIsKept(text: Text, since: Time, log: seq<CorpusRows.Call>, id: CallId, a: Sighting) returns (order: seq<CorpusRows.Call>)
    requires id in HeardIn(text, since, log) && LeastSighting(a, HeardIn(text, since, log)[id])
    ensures multiset(order) == multiset(log) && id in KeptIn(text, since, order) && KeptIn(text, since, order)[id] == a
  {
    hide KeptIn, HeardIn, Sight, LowerSighting, Id;
    HeardFrom(text, since, log, id);
    assert a in Copies(HeardIn(text, since, log), id);
    var c :| c in log && Id(c) == id && Sight(text, since, c) == a;
    var k :| 0 <= k < |log| && log[k] == c;
    order := Fronted(log, k);
    FirstStays(text, since, order);
  }

  lemma LeastDenialIsKept(log: seq<CorpusRows.Denial>, id: string, a: CorpusRows.Denial) returns (order: seq<CorpusRows.Denial>)
    requires id in RefusedIn(log) && LeastDenial(a, RefusedIn(log)[id])
    ensures multiset(order) == multiset(log) && id in DenialsIn(order) && DenialsIn(order)[id] == a
  {
    hide DenialsIn, RefusedIn, LowerDenial, IsEvent;
    RefusedFrom(log, id);
    var k :| 0 <= k < |log| && log[k] == a;
    order := Fronted(log, k);
    FirstDenialStays(order);
  }

  ghost predicate AnyOrderKeeps(text: Text, since: Time, log: seq<CorpusRows.Call>) {
    forall order :: multiset(order) == multiset(log) ==> KeptIn(text, since, order) == KeptIn(text, since, log)
  }

  ghost predicate AnyOrderDenies(log: seq<CorpusRows.Denial>) {
    forall order :: multiset(order) == multiset(log) ==> DenialsIn(order) == DenialsIn(log)
  }

  /** The copies kept are the same for every order of the calls exactly when no
      call has two different lowest copies. */
  lemma OrderMattersByTies(text: Text, since: Time, log: seq<CorpusRows.Call>)
    ensures AnyOrderKeeps(text, since, log) <==> NoCallTies(HeardIn(text, since, log))
  {
    hide KeptIn, HeardIn, LeastSighting;
    var heard := HeardIn(text, since, log);
    if AnyOrderKeeps(text, since, log) {
      forall id, a, b | id in heard && LeastSighting(a, heard[id]) && LeastSighting(b, heard[id])
        ensures a == b
      {
        var one := LeastIsKept(text, since, log, id, a);
        var two := LeastIsKept(text, since, log, id, b);
      }
    }
    if NoCallTies(heard) {
      forall order | multiset(order) == multiset(log)
        ensures KeptIn(text, since, order) == KeptIn(text, since, log)
      {
        HeardAnyOrder(text, since, order, log);
        KeptIsLeast(text, since, order);
        KeptIsLeast(text, since, log);
      }
    }
  }

  /** ... and so it is for denials. */
  lemma DenialOrderMattersByTies(log: seq<CorpusRows.Denial>)
    ensures AnyOrderDenies(log) <==> NoDenialTies(RefusedIn(log))
  {
    hide DenialsIn, RefusedIn, LeastDenial;
    var refused := RefusedIn(log);
    if AnyOrderDenies(log) {
      forall id, a, b | id in refused && LeastDenial(a, refused[id]) && LeastDenial(b, refused[id])
        ensures a == b
      {
        var one := LeastDenialIsKept(log, id, a);
        var two := LeastDenialIsKept(log, id, b);
      }
    }
    if NoDenialTies(refused) {
      forall order | multiset(order) == multiset(log)
        ensures DenialsIn(order) == DenialsIn(log)
      {
        RefusedAnyOrder(order, log);
        DenialIsLeast(order);
        DenialIsLeast(log);
      }
    }
  }

  lemma RowsShow(refs: seq<SessionRef>, segs: seq<Seg>, shapes: seq<string>, calls: map<CallId, Row>, kept: map<CallId, Sighting>)
    requires RowsHold(refs, segs, shapes, calls, kept) && forall id <- calls.Keys :: RowFits(refs, segs, shapes, calls[id])
    ensures KeptOf(refs, segs, shapes, calls) == kept
  {
    hide RowFits, SightingAt;
  }

  /** What a corpus shows of its calls and denials is what its logs keep. */
  lemma ViewIsKept(c: Corpus)
    requires c.Kept()
    ensures ViewOf(c).kept == KeptIn(c.text, c.since, c.callLog) && ViewOf(c).denials == DenialsIn(c.denialLog)
  {
    hide RowFits, SightingAt, RowsHold, RowsOk, KeptOf, KeptIn, DenialsIn, DenialsOk, ShapesOk, EventsIn, HeardIn, RefusedIn, Sharing;
    RowsFit(c);
    RowsShow(c.refs, c.segs, c.shapes, c.calls, KeptIn(c.text, c.since, c.callLog));
  }

  lemma CountsAreSettled(refs: seq<SessionRef>, segs: seq<Seg>, shapes: seq<string>, calls: map<CallId, Row>,
                         refs': seq<SessionRef>, segs': seq<Seg>, shapes': seq<string>, calls': map<CallId, Row>, heard: Heard)
    requires RowsOk(refs, segs, shapes, calls, heard) && RowsOk(refs', segs', shapes', calls', heard)
    ensures (map id | id in calls :: calls[id].copies) == (map id | id in calls' :: calls'[id].copies)
  {
    hide RowFits, SightingAt, LeastSighting;
    forall id <- calls.Keys
      ensures calls[id].copies == calls'[id].copies
    {
      assert RowOk(refs, segs, shapes, calls[id], heard[id]);
      assert RowOk(refs', segs', shapes', calls'[id], heard[id]);
    }
  }

  /** Feeding the same calls and denials in any order gives the same view. */
  lemma OrderDoesNotMatter(one: Corpus, two: Corpus)
    requires one.Valid() && two.Valid() && one.since == two.since && one.text == two.text
    requires multiset(one.callLog) == multiset(two.callLog) && multiset(one.denialLog) == multiset(two.denialLog)
    requires NoTies(HeardIn(one.text, one.since, one.callLog), RefusedIn(one.denialLog))
    ensures ViewOf(one) == ViewOf(two)
  {
    hide ShapesOk, CallsLinked, DenialsLinked, Sharing, HeardIn, RefusedIn, KeptIn, DenialsIn, EventsIn, RowsOk, RowsHold, DenialsOk, KeptOf,
         Grouped, NoCallTies, NoDenialTies, RowFits;
    HeardAnyOrder(one.text, one.since, one.callLog, two.callLog);
    RefusedAnyOrder(one.denialLog, two.denialLog);
    EventsAnyOrder(one.text, one.since, one.denialLog, two.denialLog);
    OrderMattersByTies(one.text, one.since, one.callLog);
    DenialOrderMattersByTies(one.denialLog);
    ViewIsKept(one);
    ViewIsKept(two);
    CountsAreSettled(one.refs, one.segs, one.shapes, one.calls, two.refs, two.segs, two.shapes, two.calls,
                     HeardIn(one.text, one.since, one.callLog));
  }

  /** A corpus fed with these calls and denials, in this order. */
  method Fed(since: Time, text: Text, calls: seq<CorpusRows.Call>, denials: seq<CorpusRows.Denial>) returns (c: Corpus)
    ensures fresh(c) && c.Valid() && c.since == since && c.text == text && c.callLog == calls && c.denialLog == denials
  {
    hide Corpus.Valid;
    c := new Corpus(since, text);
    for i := 0 to |calls|
      invariant c.Valid() && fresh(c) && c.callLog == calls[..i] && c.denialLog == []
    {
      c.Call(calls[i]);
      assert calls[..i] + [calls[i]] == calls[..i + 1];
    }
    for i := 0 to |denials|
      invariant c.Valid() && fresh(c) && c.callLog == calls && c.denialLog == denials[..i]
    {
      c.Denial(denials[i]);
      assert denials[..i] + [denials[i]] == denials[..i + 1];
    }
  }

  /** Two corpora fed two tied copies in either order show different calls. */
  method TiesMatter(since: Time, text: Text, a: CorpusRows.Call, b: CorpusRows.Call) returns (one: Corpus, two: Corpus)
    requires Id(a) == Id(b) && Sight(text, since, a) != Sight(text, since, b)
    requires !LowerSighting(Sight(text, since, a), Sight(text, since, b)) && !LowerSighting(Sight(text, since, b), Sight(text, since, a))
    ensures one.Valid() && two.Valid() && one.callLog == [a, b] && two.callLog == [b, a] && one.denialLog == two.denialLog == []
    ensures one.since == two.since == since && one.text == two.text == text
    ensures ViewOf(one).kept != ViewOf(two).kept
  {
    hide Corpus.Linked, Corpus.Joined, Corpus.Kept, ViewOf, KeptIn, Sight, LowerSighting;
    one := Fed(since, text, [a, b], []);
    two := Fed(since, text, [b, a], []);
    ViewIsKept(one);
    ViewIsKept(two);
    AloneIsLeast(Sight(text, since, a));
    AloneIsLeast(Sight(text, since, b));
    FirstStays(text, since, [a, b]);
    FirstStays(text, since, [b, a]);
  }

  lemma AloneIsLeast(a: Sighting)
    ensures !LowerSighting(a, a)
  {
    LowerOrder(a.first, a.ts, a.session.id, a.first, a.ts, a.session.id, a.first, a.ts, a.session.id);
  }

  // ---------------------------------------------------------------- the groups

  ghost predicate SameGroup(v: View, a: SessionRef, b: SessionRef) {
    Connected(v.sharing, a, b)
  }

  /** The root two sessions climb to is the same exactly when a chain of shared
      ids joins them. */
  lemma GroupsAreShared(c: Corpus, a: SessionRef, b: SessionRef)
    requires c.Valid() && a in c.root && b in c.root
    ensures c.root[a] == c.root[b] <==> SameGroup(ViewOf(c), a, b)
  {
    hide Corpus.Kept;
    var heard, refused := HeardIn(c.text, c.since, c.callLog), RefusedIn(c.denialLog);
    var sharing := Sharing(heard, refused);
    assert c.root[a] == c.root[b] <==> Connected(c.links, a, b);
    if Connected(c.links, a, b) {
      ConnectedMonotone(c.links, sharing, a, b);
    }
    if Connected(sharing, a, b) {
      forall e <- sharing
        ensures Connected(c.links, e.0, e.1)
      {
        SharedIsLinked(c, e);
      }
      var p :| IsPath(sharing, p, a, b);
      SameReach(sharing, c.links, p, a, b);
    }
  }

  lemma SharedIsLinked(c: Corpus, e: (SessionRef, SessionRef))
    requires c.Valid() && e in Sharing(HeardIn(c.text, c.since, c.callLog), RefusedIn(c.denialLog))
    ensures Connected(c.links, e.0, e.1)
  {
    hide Corpus.Linked, ShapesOk, EventsIn, HeardIn, RefusedIn, RowsOk;
    var heard, refused := HeardIn(c.text, c.since, c.callLog), RefusedIn(c.denialLog);
    if e in CallSharing(heard) {
      var id: CallId, a: Sighting, b: Sighting :| id in heard && a in heard[id] && b in heard[id] && e == (a.session, b.session);
      RowKeys(c.refs, c.segs, c.shapes, c.calls, heard);
      HeldFits(c.refs, c.segs, c.shapes, c.calls, heard, id);
      var holder := c.refs[c.calls[id].session];
      assert LinkedTo(c.links, c.refs, a.session, holder) && LinkedTo(c.links, c.refs, b.session, holder);
      ConnectedSymmetric(c.links, b.session, holder);
      ConnectedTransitive(c.links, a.session, holder, b.session);
    } else {
      var id: string, a: CorpusRows.Denial, b: CorpusRows.Denial :| id in refused && a in refused[id] && b in refused[id] && e == (SessionOf(a), SessionOf(b));
      var holder := SessionOf(c.denials[id]);
      assert LinkedTo(c.links, c.refs, SessionOf(a), holder) && LinkedTo(c.links, c.refs, SessionOf(b), holder);
      ConnectedSymmetric(c.links, SessionOf(b), holder);
      ConnectedTransitive(c.links, SessionOf(a), holder, SessionOf(b));
    }
  }
}
