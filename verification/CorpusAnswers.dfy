/** The fixed-size summaries answer exactly the search over every linked group. */
module CorpusAnswers {
  import opened Connectivity
  import opened Forest
  import opened Latest
  import opened CorpusRows
  import opened CorpusStore
  import opened CorpusViews
  import opened CorpusTimeline

  ghost predicate Right(c: Corpus, start: seq<int>, t: Timeline)
    reads c
  {
    c.Valid() && TimelineOk(c.calls, c.segs, Numbers(c.refs, c.index, c.root), start, t)
  }

  lemma RowsAreWithin(c: Corpus)
    requires c.Valid()
    ensures RowsWithin(c.calls, c.segs, |c.refs|)
  {
    RowsFit(c);
  }

  /** What one surviving call looks like in the view. */
  lemma KeptAt(c: Corpus, id: CallId)
    requires c.Valid() && id in c.calls
    ensures RowFits(c.refs, c.segs, c.shapes, c.calls[id])
    ensures id in ViewOf(c).kept && ViewOf(c).kept[id] == SightingAt(c.refs, c.segs, c.shapes, c.calls[id])
  {
    RowsFit(c);
  }

  lemma KeptKeys(c: Corpus)
    requires c.Valid()
    ensures ViewOf(c).kept.Keys == c.calls.Keys
  {
  }

  lemma NumberOf(c: Corpus, i: nat)
    requires c.Linked() && i < |c.refs|
    ensures c.refs[i] in c.root && c.root[c.refs[i]] in c.index
    ensures Numbers(c.refs, c.index, c.root)[i] == c.index[c.root[c.refs[i]]]
    ensures c.index[c.root[c.refs[i]]] < |c.refs| && c.refs[c.index[c.root[c.refs[i]]]] == c.root[c.refs[i]]
  {
    ClimbAt(c.index, c.refs, c.parent, c.root, c.depth, c.links, i);
  }

  lemma NumbersMeanGroups(c: Corpus, i: nat, j: nat)
    requires c.Valid() && i < |c.refs| && j < |c.refs|
    ensures var gs := Numbers(c.refs, c.index, c.root);
            gs[i] == gs[j] <==> SameGroup(ViewOf(c), c.refs[i], c.refs[j])
  {
    hide ViewOf, Corpus.Kept, Corpus.Joined, SameGroup, Grouped, Numbers;
    NumberOf(c, i);
    NumberOf(c, j);
    GroupsAreShared(c, c.refs[i], c.refs[j]);
  }

  /** A session's recorded start is its start in the view. */
  lemma StartMeans(c: Corpus, start: seq<int>, i: nat, t: int)
    requires c.Valid() && |start| == |c.refs| && StartsAll(c.calls, c.calls.Keys, start) && i < |start|
    ensures (start[i] != NO_TIME && t == start[i]) <==> IsStart(ViewOf(c), c.refs[i], t)
  {
    hide ViewOf, Corpus.Linked, Corpus.Kept, Corpus.Joined, LineOf;
    var v := ViewOf(c);
    KeptKeys(c);
    forall id <- c.calls.Keys
      ensures v.kept[id].ts == c.calls[id].ts && (v.kept[id].session == c.refs[i] <==> c.calls[id].session == i)
    {
      KeptAt(c, id);
      Distinct(c, c.calls[id].session, i);
    }
    assert StartAt(c.calls, c.calls.Keys, i, start[i]);
  }

  lemma Distinct(c: Corpus, i: nat, j: nat)
    requires c.Linked() && i < |c.refs| && j < |c.refs|
    ensures c.refs[i] == c.refs[j] <==> i == j
  {
    PointerAt(c.index, c.refs, c.parent, j);
  }

  lemma SessionLaterMeans(c: Corpus, start: seq<int>, own: nat, at: int)
    requires c.Valid() && |start| == |c.refs| && StartsAll(c.calls, c.calls.Keys, start) && own < |start|
    ensures var gs := Numbers(c.refs, c.index, c.root);
            SomeLater(AllStarts(gs, start, |start|), gs[own], at) <==> SessionLater(ViewOf(c), c.refs[own], at)
  {
    hide ViewOf, Corpus.Linked, Corpus.Kept, Corpus.Joined, StartsAll, IsStart, SameGroup, Numbers;
    var v := ViewOf(c);
    var gs := Numbers(c.refs, c.index, c.root);
    if SomeLater(AllStarts(gs, start, |start|), gs[own], at) {
      var i :| 0 <= i < |start| && start[i] != NO_TIME && gs[i] != gs[own] && start[i] > at;
      StartMeans(c, start, i, start[i]);
      NumbersMeanGroups(c, i, own);
      assert LaterStart(v, c.refs[i], c.refs[own], at);
    }
    if SessionLater(v, c.refs[own], at) {
      var s :| LaterStart(v, s, c.refs[own], at);
      var t :| IsStart(v, s, t) && t > at;
      var i := StartedIndex(c, s, t);
      StartMeans(c, start, i, t);
      NumbersMeanGroups(c, i, own);
      assert (gs[i], start[i]) in AllStarts(gs, start, |start|);
    }
  }

  lemma StartedIndex(c: Corpus, s: SessionRef, t: int) returns (i: nat)
    requires c.Valid() && IsStart(ViewOf(c), s, t)
    ensures i < |c.refs| && c.refs[i] == s
  {
    KeptKeys(c);
    var id :| id in ViewOf(c).kept && ViewOf(c).kept[id].session == s;
    KeptAt(c, id);
    i := c.calls[id].session;
  }

  lemma LineAt(segs: seq<Seg>, shapes: seq<string>, refs: seq<SessionRef>, r: Row)
    requires RowFits(refs, segs, shapes, r)
    ensures r.list + r.count <= |segs| && |LineOf(segs, shapes, r).segments| == r.count
    ensures forall j :: r.list <= j < r.list + r.count ==>
              segs[j].shape < |shapes| && LineOf(segs, shapes, r).segments[j - r.list] == Segment(segs[j].key, shapes[segs[j].shape])
  {
  }

  lemma KeyMeans(segs: seq<Seg>, shapes: seq<string>, refs: seq<SessionRef>, r: Row, key: string)
    requires RowFits(refs, segs, shapes, r)
    ensures KeyIn(segs, r, r.count, key) <==> HoldsKey(LineOf(segs, shapes, r), key)
  {
    LineAt(segs, shapes, refs, r);
    hide LineOf, RowFits;
    var line := LineOf(segs, shapes, r).segments;
    if KeyIn(segs, r, r.count, key) {
      var j :| r.list <= j < r.list + r.count && segs[j].key == key;
      assert line[j - r.list].key == key;
    }
    if HoldsKey(LineOf(segs, shapes, r), key) {
      var j :| 0 <= j < |line| && line[j].key == key;
      assert line[r.list + j - r.list] == line[j] && segs[r.list + j].key == key;
    }
  }

  lemma ShapeNumbered(shapes: seq<string>, shapeIds: map<string, nat>, segs: seq<Seg>, i: nat, j: nat)
    requires ShapesOk(shapes, shapeIds, segs) && i < |shapes| && j < |shapes|
    ensures shapes[i] == shapes[j] <==> i == j
  {
  }

  lemma ShapeMeans(segs: seq<Seg>, shapes: seq<string>, shapeIds: map<string, nat>, refs: seq<SessionRef>, r: Row, shape: nat)
    requires ShapesOk(shapes, shapeIds, segs) && RowFits(refs, segs, shapes, r) && shape < |shapes|
    ensures ShapeIn(segs, r, r.count, shape) <==> HoldsShape(LineOf(segs, shapes, r), shapes[shape])
  {
    LineAt(segs, shapes, refs, r);
    hide LineOf, RowFits, ShapesOk;
    var line := LineOf(segs, shapes, r).segments;
    if ShapeIn(segs, r, r.count, shape) {
      var j :| r.list <= j < r.list + r.count && segs[j].shape == shape;
      assert line[j - r.list].shape == shapes[shape];
    }
    if HoldsShape(LineOf(segs, shapes, r), shapes[shape]) {
      var j :| 0 <= j < |line| && line[j].shape == shapes[shape];
      assert line[r.list + j - r.list] == line[j];
      ShapeNumbered(shapes, shapeIds, segs, segs[r.list + j].shape, shape);
      assert segs[r.list + j].shape == shape;
    }
  }

  /** One surviving call counts as later in the summaries exactly when its
      session does in the search. */
  lemma CallLaterMeans(c: Corpus, start: seq<int>, id: CallId, own: nat, at: int)
    requires c.Valid() && |start| == |c.refs| && StartsAll(c.calls, c.calls.Keys, start) && own < |start| && id in c.calls
    ensures c.calls[id].session < |start|
    ensures var gs := Numbers(c.refs, c.index, c.root);
            var v := ViewOf(c);
            (gs[c.calls[id].session] != gs[own] && start[c.calls[id].session] > at)
            <==> LaterStart(v, v.kept[id].session, c.refs[own], at)
  {
    hide ViewOf, Corpus.Linked, Corpus.Kept, Corpus.Joined, StartsAll, IsStart, SameGroup, Numbers, RowFits, LineOf;
    KeptAt(c, id);
    RowsAreWithin(c);
    RowWithin(c.calls, c.segs, |c.refs|, id);
    var i := c.calls[id].session;
    SessionStarted(c.calls, start, id);
    NumbersMeanGroups(c, i, own);
    StartMeans(c, start, i, start[i]);
    forall t
      ensures IsStart(ViewOf(c), c.refs[i], t) ==> t == start[i]
    {
      StartMeans(c, start, i, t);
    }
  }

  lemma KeyLaterMeans(c: Corpus, start: seq<int>, key: string, own: nat, at: int)
    requires c.Valid() && |start| == |c.refs| && StartsAll(c.calls, c.calls.Keys, start) && own < |start|
    requires RowsWithin(c.calls, c.segs, |c.refs|)
    ensures var gs := Numbers(c.refs, c.index, c.root);
            SomeLater(KeyStarts(c.calls, c.segs, gs, start, c.calls.Keys, key), gs[own], at) <==> KeyLater(ViewOf(c), key, c.refs[own], at)
  {
    hide ViewOf, Corpus.Linked, Corpus.Joined, StartsAll, IsStart, SameGroup, Numbers, RowFits, LineOf, LaterStart, KeyIn, HoldsKey, RowsOk, DenialsOk, ShapesOk;
    var v := ViewOf(c);
    var gs := Numbers(c.refs, c.index, c.root);
    KeptKeys(c);
    forall id <- c.calls.Keys
      ensures v.kept[id].early == c.calls[id].early && (KeyIn(c.segs, c.calls[id], c.calls[id].count, key) <==> HoldsKey(v.kept[id].line, key))
      ensures (gs[c.calls[id].session] != gs[own] && start[c.calls[id].session] > at) <==> LaterStart(v, v.kept[id].session, c.refs[own], at)
    {
      KeptAt(c, id);
      CallLaterMeans(c, start, id, own, at);
      ShapesStart(c.shapes, c.shapeIds, c.segs);
      KeyMeans(c.segs, c.shapes, c.refs, c.calls[id], key);
    }
    if id :| id in c.calls && !c.calls[id].early && KeyIn(c.segs, c.calls[id], c.calls[id].count, key)
             && gs[c.calls[id].session] != gs[own] && start[c.calls[id].session] > at {
      assert (gs[c.calls[id].session], start[c.calls[id].session]) in KeyStarts(c.calls, c.segs, gs, start, c.calls.Keys, key);
    }
  }

  lemma ShapesStart(shapes: seq<string>, shapeIds: map<string, nat>, segs: seq<Seg>)
    requires ShapesOk(shapes, shapeIds, segs)
    ensures |shapes| > 0
  {
  }

  lemma ShapeLaterMeans(c: Corpus, start: seq<int>, shape: nat, own: nat, at: int)
    requires c.Valid() && |start| == |c.refs| && StartsAll(c.calls, c.calls.Keys, start) && own < |start| && shape < |c.shapes|
    requires RowsWithin(c.calls, c.segs, |c.refs|)
    ensures var gs := Numbers(c.refs, c.index, c.root);
            SomeLater(ShapeStarts(c.calls, c.segs, gs, start, c.calls.Keys, shape), gs[own], at)
            <==> ShapeLater(ViewOf(c), c.shapes[shape], c.refs[own], at)
  {
    hide ViewOf, Corpus.Linked, Corpus.Joined, StartsAll, IsStart, SameGroup, Numbers, RowFits, LineOf, LaterStart, ShapeIn, HoldsShape, RowsOk, DenialsOk, ShapesOk;
    var v := ViewOf(c);
    var gs := Numbers(c.refs, c.index, c.root);
    KeptKeys(c);
    forall id <- c.calls.Keys
      ensures v.kept[id].early == c.calls[id].early
      ensures ShapeIn(c.segs, c.calls[id], c.calls[id].count, shape) <==> HoldsShape(v.kept[id].line, c.shapes[shape])
      ensures (gs[c.calls[id].session] != gs[own] && start[c.calls[id].session] > at) <==> LaterStart(v, v.kept[id].session, c.refs[own], at)
    {
      KeptAt(c, id);
      CallLaterMeans(c, start, id, own, at);
      ShapeMeans(c.segs, c.shapes, c.shapeIds, c.refs, c.calls[id], shape);
    }
    if id :| id in c.calls && !c.calls[id].early && ShapeIn(c.segs, c.calls[id], c.calls[id].count, shape)
             && gs[c.calls[id].session] != gs[own] && start[c.calls[id].session] > at {
      assert (gs[c.calls[id].session], start[c.calls[id].session]) in ShapeStarts(c.calls, c.segs, gs, start, c.calls.Keys, shape);
    }
  }

  /** A key can be asked about only if it is some surviving call's primary key. */
  lemma AskedMeans(c: Corpus, key: string)
    requires c.Valid() && RowsWithin(c.calls, c.segs, |c.refs|)
    ensures AskedIn(c.calls, c.segs, c.calls.Keys, key) <==> Asked(ViewOf(c), key)
  {
    hide ViewOf, Corpus.Linked, Corpus.Joined, Corpus.Kept;
    KeptKeys(c);
    forall id <- c.calls.Keys
      ensures PrimaryKey(c.calls, c.segs, id, key) <==> IsPrimary(ViewOf(c).kept[id], key)
    {
      KeptAt(c, id);
    }
  }

  // ------------------------------------------------------------ the questions

  method HasLater(c: Corpus, t: Timeline, ghost start: seq<int>, s: nat, at: Millis) returns (later: bool)
    requires Right(c, start, t) && s < |c.refs|
    modifies c`parent
    ensures Right(c, start, t) && ViewOf(c) == old(ViewOf(c))
    ensures later <==> SessionLater(ViewOf(c), c.refs[s], at)
  {
    hide TimelineOk, ViewOf, SessionLater, Corpus.Linked, Summarises, Later, Numbers, Corpus.Kept, Corpus.Joined;
    SessionLaterFrom(c, t, start, s, at);
    var own := c.Find(s);
    FoundGroup(c, s, own);
    later := Later(t.all, own, at);
  }

  lemma SessionLaterFrom(c: Corpus, t: Timeline, start: seq<int>, s: nat, at: Millis)
    requires Right(c, start, t) && s < |c.refs|
    ensures Later(t.all, Numbers(c.refs, c.index, c.root)[s], at) <==> SessionLater(ViewOf(c), c.refs[s], at)
  {
    var gs := Numbers(c.refs, c.index, c.root);
    LaterIsSearch(t.all, AllStarts(gs, start, |start|), gs[s], at);
    SessionLaterMeans(c, start, s, at);
  }

  method AnyLaterKey(c: Corpus, t: Timeline, ghost start: seq<int>, key: string, s: nat, at: Millis) returns (later: bool)
    requires Right(c, start, t) && s < |c.refs|
    modifies c`parent
    ensures Right(c, start, t) && ViewOf(c) == old(ViewOf(c))
    ensures later <==> Asked(ViewOf(c), key) && KeyLater(ViewOf(c), key, c.refs[s], at)
  {
    hide TimelineOk, ViewOf, KeyLater, Asked, Corpus.Linked, Summarises, Later, Numbers, Corpus.Kept, Corpus.Joined;
    KeyLaterFrom(c, t, start, key, s, at);
    if key !in t.byKey {
      return false;
    }
    var own := c.Find(s);
    FoundGroup(c, s, own);
    later := Later(t.byKey[key], own, at);
  }

  lemma KeyLaterFrom(c: Corpus, t: Timeline, start: seq<int>, key: string, s: nat, at: Millis)
    requires Right(c, start, t) && s < |c.refs|
    ensures key in t.byKey <==> Asked(ViewOf(c), key)
    ensures key in t.byKey ==>
              (Later(t.byKey[key], Numbers(c.refs, c.index, c.root)[s], at) <==> KeyLater(ViewOf(c), key, c.refs[s], at))
  {
    hide KeyStarts, Summarises, AskedIn, Asked;
    var gs := Numbers(c.refs, c.index, c.root);
    AskedMeans(c, key);
    assert KeyRight(t.byKey, key, KeyStarts(c.calls, c.segs, gs, start, c.calls.Keys, key));
    if key in t.byKey {
      LaterIsSearch(t.byKey[key], KeyStarts(c.calls, c.segs, gs, start, c.calls.Keys, key), gs[s], at);
      KeyLaterMeans(c, start, key, s, at);
    }
  }

  method AnyLaterShape(c: Corpus, t: Timeline, ghost start: seq<int>, shape: nat, s: nat, at: Millis) returns (later: bool)
    requires Right(c, start, t) && s < |c.refs| && 0 < shape < |c.shapes|
    modifies c`parent
    ensures Right(c, start, t) && ViewOf(c) == old(ViewOf(c))
    ensures later <==> ShapeLater(ViewOf(c), c.shapes[shape], c.refs[s], at)
  {
    hide TimelineOk, ViewOf, ShapeLater, Corpus.Linked, Summarises, Later, Numbers, Corpus.Kept, Corpus.Joined;
    ShapeLaterFrom(c, t, start, shape, s, at);
    if shape !in t.byShape {
      return false;
    }
    var own := c.Find(s);
    FoundGroup(c, s, own);
    later := Later(t.byShape[shape], own, at);
  }

  lemma ShapeLaterFrom(c: Corpus, t: Timeline, start: seq<int>, shape: nat, s: nat, at: Millis)
    requires Right(c, start, t) && s < |c.refs| && 0 < shape < |c.shapes|
    ensures shape !in t.byShape ==> !ShapeLater(ViewOf(c), c.shapes[shape], c.refs[s], at)
    ensures shape in t.byShape ==>
              (Later(t.byShape[shape], Numbers(c.refs, c.index, c.root)[s], at) <==> ShapeLater(ViewOf(c), c.shapes[shape], c.refs[s], at))
  {
    hide ShapeStarts, Summarises;
    var gs := Numbers(c.refs, c.index, c.root);
    var starts := ShapeStarts(c.calls, c.segs, gs, start, c.calls.Keys, shape);
    assert ShapeRight(t.byShape, shape, starts);
    ShapeLaterMeans(c, start, shape, s, at);
    if shape in t.byShape {
      LaterIsSearch(t.byShape[shape], starts, gs[s], at);
    }
  }
}
