/** Which sessions count as later: fixed-size summaries per key and per shape,
    shown to answer the search over all linked session groups. */
module CorpusTimeline {
  import opened Connectivity
  import opened Forest
  import opened Latest
  import opened Ordering
  import opened CorpusRows
  import opened CorpusStore
  import opened CorpusViews

  // ------------------------------------------------- the questions, by search

  /** A session starts with the earliest of its surviving calls. */
  ghost predicate IsStart(v: View, s: SessionRef, at: int) {
    && (exists id <- v.kept.Keys :: v.kept[id].session == s && v.kept[id].ts == at)
    && forall id <- v.kept.Keys :: v.kept[id].session == s ==> v.kept[id].ts >= at
  }

  ghost predicate LaterStart(v: View, s: SessionRef, own: SessionRef, at: int) {
    !SameGroup(v, s, own) && exists t :: IsStart(v, s, t) && t > at
  }

  ghost predicate SessionLater(v: View, own: SessionRef, at: int) {
    exists s :: LaterStart(v, s, own, at)
  }

  predicate HoldsKey(line: Line, key: string) {
    exists j :: 0 <= j < |line.segments| && line.segments[j].key == key
  }

  predicate HoldsShape(line: Line, shape: string) {
    exists j :: 0 <= j < |line.segments| && line.segments[j].shape == shape
  }

  ghost predicate KeyLater(v: View, key: string, own: SessionRef, at: int) {
    exists id <- v.kept.Keys :: !v.kept[id].early && HoldsKey(v.kept[id].line, key) && LaterStart(v, v.kept[id].session, own, at)
  }

  ghost predicate ShapeLater(v: View, shape: string, own: SessionRef, at: int) {
    exists id <- v.kept.Keys :: !v.kept[id].early && HoldsShape(v.kept[id].line, shape) && LaterStart(v, v.kept[id].session, own, at)
  }

  /** The surviving calls whose primary command has this key. */
  predicate IsPrimary(s: Sighting, key: string) {
    s.line.primary >= 0 && s.line.segments[s.line.primary].key == key
  }

  ghost predicate Asked(v: View, key: string) {
    exists id <- v.kept.Keys :: IsPrimary(v.kept[id], key)
  }

  // --------------------------------------------------- the summaries, by rows

  /** What the first walk knows of session i after the calls in `done`. */
  ghost predicate StartAt(calls: map<CallId, Row>, done: set<CallId>, i: nat, at: int)
    requires done <= calls.Keys
  {
    if at == NO_TIME then forall id <- done :: calls[id].session != i
    else (exists id <- done :: calls[id].session == i && calls[id].ts == at)
         && forall id <- done :: calls[id].session == i ==> calls[id].ts >= at
  }

  predicate KeyIn(segs: seq<Seg>, r: Row, n: nat, key: string)
    requires r.list + r.count <= |segs| && n <= r.count
  {
    exists j :: r.list <= j < r.list + n && segs[j].key == key
  }

  predicate ShapeIn(segs: seq<Seg>, r: Row, n: nat, shape: nat)
    requires r.list + r.count <= |segs| && n <= r.count
  {
    exists j :: r.list <= j < r.list + n && segs[j].shape == shape
  }

  predicate RowsWithin(calls: map<CallId, Row>, segs: seq<Seg>, size: nat) {
    forall id <- calls.Keys :: calls[id].session < size && calls[id].list + calls[id].count <= |segs| && -1 <= calls[id].primary < calls[id].count
  }

  ghost function AllStarts(gs: seq<nat>, start: seq<int>, n: nat): Starts
    requires n <= |start| == |gs|
  {
    set i | 0 <= i < n && start[i] != NO_TIME :: (gs[i], start[i])
  }

  ghost function KeyStarts(calls: map<CallId, Row>, segs: seq<Seg>, gs: seq<nat>, start: seq<int>, done: set<CallId>, key: string): Starts
    requires RowsWithin(calls, segs, |gs|) && |start| == |gs| && done <= calls.Keys
  {
    set id | id in done && !calls[id].early && KeyIn(segs, calls[id], calls[id].count, key) :: (gs[calls[id].session], start[calls[id].session])
  }

  ghost function ShapeStarts(calls: map<CallId, Row>, segs: seq<Seg>, gs: seq<nat>, start: seq<int>, done: set<CallId>, shape: nat): Starts
    requires RowsWithin(calls, segs, |gs|) && |start| == |gs| && done <= calls.Keys
  {
    set id | id in done && !calls[id].early && ShapeIn(segs, calls[id], calls[id].count, shape) :: (gs[calls[id].session], start[calls[id].session])
  }

  datatype Timeline = Timeline(all: Latest, byKey: map<string, Latest>, byShape: map<nat, Latest>)

  ghost predicate KeyRight(l: map<string, Latest>, key: string, starts: Starts) {
    key in l ==> Summarises(l[key], starts)
  }

  ghost predicate ShapeRight(l: map<nat, Latest>, shape: nat, starts: Starts) {
    if shape in l then Summarises(l[shape], starts) else starts == {}
  }

  /** The number of the root each session climbs to. */
  ghost function Numbers(refs: seq<SessionRef>, index: map<SessionRef, nat>, root: map<SessionRef, SessionRef>): (gs: seq<nat>)
    ensures |gs| == |refs|
  {
    seq(|refs|, i requires 0 <= i < |refs| => if refs[i] in root && root[refs[i]] in index then index[root[refs[i]]] else 0)
  }

  predicate PrimaryKey(calls: map<CallId, Row>, segs: seq<Seg>, id: CallId, key: string)
    requires id in calls && calls[id].list + calls[id].count <= |segs| && -1 <= calls[id].primary < calls[id].count
  {
    calls[id].primary >= 0 && segs[calls[id].list + calls[id].primary].key == key
  }

  ghost predicate AskedIn(calls: map<CallId, Row>, segs: seq<Seg>, done: set<CallId>, key: string)
    requires done <= calls.Keys
    requires forall id <- calls.Keys :: calls[id].list + calls[id].count <= |segs| && -1 <= calls[id].primary < calls[id].count
  {
    exists id <- done :: PrimaryKey(calls, segs, id, key)
  }

  ghost predicate TimelineOk(calls: map<CallId, Row>, segs: seq<Seg>, gs: seq<nat>, start: seq<int>, t: Timeline) {
    && RowsWithin(calls, segs, |gs|) && |start| == |gs|
    && StartsAll(calls, calls.Keys, start)
    && Summarises(t.all, AllStarts(gs, start, |start|))
    && KeysRight(calls, segs, gs, start, calls.Keys, t.byKey) && AskedAll(calls, segs, calls.Keys, t.byKey.Keys)
    && ShapesRight(calls, segs, gs, start, calls.Keys, t.byShape)
  }

  ghost predicate KeysRight(calls: map<CallId, Row>, segs: seq<Seg>, gs: seq<nat>, start: seq<int>, done: set<CallId>, l: map<string, Latest>)
    requires RowsWithin(calls, segs, |gs|) && |start| == |gs| && done <= calls.Keys
  {
    forall key :: KeyRight(l, key, KeyStarts(calls, segs, gs, start, done, key))
  }

  ghost predicate ShapesRight(calls: map<CallId, Row>, segs: seq<Seg>, gs: seq<nat>, start: seq<int>, done: set<CallId>, l: map<nat, Latest>)
    requires RowsWithin(calls, segs, |gs|) && |start| == |gs| && done <= calls.Keys
  {
    forall shape: nat :: shape != 0 ==> ShapeRight(l, shape, ShapeStarts(calls, segs, gs, start, done, shape))
  }

  // ------------------------------------------------------------ the three walks

  ghost predicate StartsAll(calls: map<CallId, Row>, done: set<CallId>, start: seq<int>)
    requires done <= calls.Keys
  {
    forall i :: 0 <= i < |start| ==> start[i] >= NO_TIME && StartAt(calls, done, i, start[i])
  }

  ghost predicate AskedAll(calls: map<CallId, Row>, segs: seq<Seg>, done: set<CallId>, asked: set<string>)
    requires done <= calls.Keys
    requires forall id <- calls.Keys :: calls[id].list + calls[id].count <= |segs| && -1 <= calls[id].primary < calls[id].count
  {
    forall key :: key in asked <==> AskedIn(calls, segs, done, key)
  }

  method FirstTimes(calls: map<CallId, Row>, segs: seq<Seg>, size: nat) returns (start: seq<int>, asked: set<string>)
    requires RowsWithin(calls, segs, size)
    ensures |start| == size && StartsAll(calls, calls.Keys, start) && AskedAll(calls, segs, calls.Keys, asked)
  {
    hide StartsAll, AskedAll;
    start := seq(size, _ => NO_TIME);
    asked := {};
    NothingYet(calls, segs, start);
    var rest := calls.Keys;
    ghost var done: set<CallId> := {};
    while rest != {}
      invariant rest <= calls.Keys && done == calls.Keys - rest && |start| == size
      invariant StartsAll(calls, done, start) && AskedAll(calls, segs, done, asked)
      decreases |rest|
    {
      var id :| id in rest;
      rest := rest - {id};
      var r := calls[id];
      StartsStep(calls, done, id, start);
      AskedMore(calls, segs, done, id, asked);
      if start[r.session] == NO_TIME || r.ts < start[r.session] {
        start := start[r.session := r.ts];
      }
      if r.primary >= 0 {
        asked := asked + {segs[r.list + r.primary].key};
      }
      done := done + {id};
    }
    assert done == calls.Keys;
  }

  lemma NothingYet(calls: map<CallId, Row>, segs: seq<Seg>, start: seq<int>)
    requires forall id <- calls.Keys :: calls[id].list + calls[id].count <= |segs| && -1 <= calls[id].primary < calls[id].count
    requires forall i :: 0 <= i < |start| ==> start[i] == NO_TIME
    ensures StartsAll(calls, {}, start) && AskedAll(calls, segs, {}, {})
  {
  }

  lemma StartsStep(calls: map<CallId, Row>, done: set<CallId>, id: CallId, start: seq<int>)
    requires done <= calls.Keys && id in calls && calls[id].session < |start| && StartsAll(calls, done, start)
    ensures var r := calls[id];
            StartsAll(calls, done + {id}, if start[r.session] == NO_TIME || r.ts < start[r.session] then start[r.session := r.ts] else start)
  {
    hide StartAt;
    var r := calls[id];
    var after := if start[r.session] == NO_TIME || r.ts < start[r.session] then start[r.session := r.ts] else start;
    forall i | 0 <= i < |start|
      ensures after[i] >= NO_TIME && StartAt(calls, done + {id}, i, after[i])
    {
      StartStep(calls, done, id, i, start[i]);
    }
  }

  lemma AskedMore(calls: map<CallId, Row>, segs: seq<Seg>, done: set<CallId>, id: CallId, asked: set<string>)
    requires done <= calls.Keys && id in calls
    requires forall id <- calls.Keys :: calls[id].list + calls[id].count <= |segs| && -1 <= calls[id].primary < calls[id].count
    requires AskedAll(calls, segs, done, asked)
    ensures var r := calls[id];
            AskedAll(calls, segs, done + {id}, if r.primary >= 0 then asked + {segs[r.list + r.primary].key} else asked)
  {
    hide AskedIn;
    forall key
      ensures AskedIn(calls, segs, done + {id}, key) == (AskedIn(calls, segs, done, key) || PrimaryKey(calls, segs, id, key))
    {
      AskedStep(calls, segs, done, id, key);
    }
  }

  lemma AskedStep(calls: map<CallId, Row>, segs: seq<Seg>, done: set<CallId>, id: CallId, key: string)
    requires done <= calls.Keys && id in calls
    requires forall id <- calls.Keys :: calls[id].list + calls[id].count <= |segs| && -1 <= calls[id].primary < calls[id].count
    ensures AskedIn(calls, segs, done + {id}, key) == (AskedIn(calls, segs, done, key) || PrimaryKey(calls, segs, id, key))
  {
    if x :| x in done && PrimaryKey(calls, segs, x, key) {
      assert x in done + {id};
    }
    assert id in done + {id};
  }

  lemma StartStep(calls: map<CallId, Row>, done: set<CallId>, id: CallId, i: nat, at: int)
    requires done <= calls.Keys && id in calls && StartAt(calls, done, i, at) && at >= NO_TIME
    ensures StartAt(calls, done + {id}, i,
                    if calls[id].session == i && (at == NO_TIME || calls[id].ts < at) then calls[id].ts else at)
  {
    assert id in done + {id};
    if at != NO_TIME {
      var x :| x in done && calls[x].session == i && calls[x].ts == at;
      assert x in done + {id};
    }
  }

  method AllSessions(c: Corpus, start: seq<int>) returns (all: Latest)
    requires c.Linked() && |start| == |c.refs| && forall i :: 0 <= i < |start| ==> start[i] >= NO_TIME
    modifies c`parent
    ensures c.Linked() && Summarises(all, AllStarts(Numbers(c.refs, c.index, c.root), start, |start|))
  {
    hide Corpus.Linked, Summarises;
    all := NO_LATEST;
    NoneSummarises();
    ghost var gs := Numbers(c.refs, c.index, c.root);
    assert AllStarts(gs, start, 0) == {};
    var i := 0;
    while i < |start|
      invariant i <= |start| && c.Linked() && Summarises(all, AllStarts(gs, start, i))
    {
      if start[i] != NO_TIME {
        var g := c.Find(i);
        FoundGroup(c, i, g);
        AddSummarises(all, AllStarts(gs, start, i), g, start[i]);
        all := Add(all, g, start[i]);
      }
      AllStartsGrow(gs, start, i);
      i := i + 1;
    }
  }

  lemma AllStartsGrow(gs: seq<nat>, start: seq<int>, i: nat)
    requires i < |start| == |gs|
    ensures AllStarts(gs, start, i + 1) ==
            if start[i] != NO_TIME then AllStarts(gs, start, i) + {(gs[i], start[i])} else AllStarts(gs, start, i)
  {
    forall s | s in AllStarts(gs, start, i)
      ensures s in AllStarts(gs, start, i + 1)
    {
    }
    if start[i] != NO_TIME {
      assert (gs[i], start[i]) in AllStarts(gs, start, i + 1);
    }
  }

  lemma FoundGroup(c: Corpus, i: nat, g: nat)
    requires c.Linked() && i < |c.refs| && g < |c.refs| && c.refs[i] in c.root && c.refs[g] == c.root[c.refs[i]]
    ensures Numbers(c.refs, c.index, c.root)[i] == g
  {
    assert c.refs[g] in c.index && c.index[c.refs[g]] == g;
  }

  // ------------------------------------------------------------- the third walk

  /** Half way through one call: the first n of its segments are added. */
  ghost predicate KeysPartly(calls: map<CallId, Row>, segs: seq<Seg>, gs: seq<nat>, start: seq<int>, done: set<CallId>, id: CallId, n: nat,
                             l: map<string, Latest>)
    requires RowsWithin(calls, segs, |gs|) && |start| == |gs| && done <= calls.Keys && id in calls && n <= calls[id].count
  {
    var one := (gs[calls[id].session], start[calls[id].session]);
    forall key :: KeyRight(l, key, KeyStarts(calls, segs, gs, start, done, key) + if KeyIn(segs, calls[id], n, key) then {one} else {})
  }

  ghost predicate ShapesPartly(calls: map<CallId, Row>, segs: seq<Seg>, gs: seq<nat>, start: seq<int>, done: set<CallId>, id: CallId, n: nat,
                               l: map<nat, Latest>)
    requires RowsWithin(calls, segs, |gs|) && |start| == |gs| && done <= calls.Keys && id in calls && n <= calls[id].count
  {
    var one := (gs[calls[id].session], start[calls[id].session]);
    forall shape: nat :: shape != 0 ==>
      ShapeRight(l, shape, ShapeStarts(calls, segs, gs, start, done, shape) + if ShapeIn(segs, calls[id], n, shape) then {one} else {})
  }

  function AddKey(l: map<string, Latest>, key: string, group: nat, at: Millis): map<string, Latest> {
    if key in l then l[key := Add(l[key], group, at)] else l
  }

  function AddShape(l: map<nat, Latest>, shape: nat, group: nat, at: Millis): map<nat, Latest> {
    if shape == 0 then l else l[shape := Add(if shape in l then l[shape] else NO_LATEST, group, at)]
  }

  lemma KeysStep(calls: map<CallId, Row>, segs: seq<Seg>, gs: seq<nat>, start: seq<int>, done: set<CallId>, id: CallId, n: nat, l: map<string, Latest>)
    requires RowsWithin(calls, segs, |gs|) && |start| == |gs| && done <= calls.Keys && id in calls && n < calls[id].count
    requires start[calls[id].session] > NO_TIME && KeysPartly(calls, segs, gs, start, done, id, n, l)
    ensures KeysPartly(calls, segs, gs, start, done, id, n + 1,
                       AddKey(l, segs[calls[id].list + n].key, gs[calls[id].session], start[calls[id].session]))
  {
    hide Summarises, KeyStarts, Add;
    var r := calls[id];
    var one := (gs[r.session], start[r.session]);
    var now := segs[r.list + n].key;
    var m := AddKey(l, now, one.0, one.1);
    forall key
      ensures KeyRight(m, key, KeyStarts(calls, segs, gs, start, done, key) + if KeyIn(segs, r, n + 1, key) then {one} else {})
    {
      var before := KeyStarts(calls, segs, gs, start, done, key) + if KeyIn(segs, r, n, key) then {one} else {};
      assert KeyRight(l, key, before);
      KeyInGrows(segs, r, n, key);
      if key == now && key in l {
        AddSummarises(l[key], before, one.0, one.1);
        assert before + {one} == KeyStarts(calls, segs, gs, start, done, key) + {one};
      }
    }
  }

  lemma KeyInGrows(segs: seq<Seg>, r: Row, n: nat, key: string)
    requires r.list + r.count <= |segs| && n < r.count
    ensures KeyIn(segs, r, n + 1, key) == (KeyIn(segs, r, n, key) || segs[r.list + n].key == key)
  {
  }

  lemma ShapeInGrows(segs: seq<Seg>, r: Row, n: nat, shape: nat)
    requires r.list + r.count <= |segs| && n < r.count
    ensures ShapeIn(segs, r, n + 1, shape) == (ShapeIn(segs, r, n, shape) || segs[r.list + n].shape == shape)
  {
  }

  lemma ShapesStep(calls: map<CallId, Row>, segs: seq<Seg>, gs: seq<nat>, start: seq<int>, done: set<CallId>, id: CallId, n: nat, l: map<nat, Latest>)
    requires RowsWithin(calls, segs, |gs|) && |start| == |gs| && done <= calls.Keys && id in calls && n < calls[id].count
    requires start[calls[id].session] > NO_TIME && ShapesPartly(calls, segs, gs, start, done, id, n, l)
    ensures ShapesPartly(calls, segs, gs, start, done, id, n + 1,
                         AddShape(l, segs[calls[id].list + n].shape, gs[calls[id].session], start[calls[id].session]))
  {
    hide Summarises, ShapeStarts, Add;
    var r := calls[id];
    var one := (gs[r.session], start[r.session]);
    var now := segs[r.list + n].shape;
    var m := AddShape(l, now, one.0, one.1);
    forall shape: nat | shape != 0
      ensures ShapeRight(m, shape, ShapeStarts(calls, segs, gs, start, done, shape) + if ShapeIn(segs, r, n + 1, shape) then {one} else {})
    {
      var before := ShapeStarts(calls, segs, gs, start, done, shape) + if ShapeIn(segs, r, n, shape) then {one} else {};
      assert ShapeRight(l, shape, before);
      ShapeInGrows(segs, r, n, shape);
      if shape == now {
        if shape !in l {
          NoneSummarises();
        }
        AddSummarises(if shape in l then l[shape] else NO_LATEST, before, one.0, one.1);
        assert before + {one} == ShapeStarts(calls, segs, gs, start, done, shape) + {one};
      }
    }
  }

  /** The call is begun with none of its segments and ended with all of them. */
  lemma KeysBegin(calls: map<CallId, Row>, segs: seq<Seg>, gs: seq<nat>, start: seq<int>, done: set<CallId>, id: CallId, l: map<string, Latest>)
    requires RowsWithin(calls, segs, |gs|) && |start| == |gs| && done <= calls.Keys && id in calls && KeysRight(calls, segs, gs, start, done, l)
    ensures KeysPartly(calls, segs, gs, start, done, id, 0, l)
  {
    forall key
      ensures !KeyIn(segs, calls[id], 0, key) && KeyRight(l, key, KeyStarts(calls, segs, gs, start, done, key) + {})
    {
      assert KeyRight(l, key, KeyStarts(calls, segs, gs, start, done, key));
      assert KeyStarts(calls, segs, gs, start, done, key) + {} == KeyStarts(calls, segs, gs, start, done, key);
    }
  }

  lemma ShapesBegin(calls: map<CallId, Row>, segs: seq<Seg>, gs: seq<nat>, start: seq<int>, done: set<CallId>, id: CallId, l: map<nat, Latest>)
    requires RowsWithin(calls, segs, |gs|) && |start| == |gs| && done <= calls.Keys && id in calls && ShapesRight(calls, segs, gs, start, done, l)
    ensures ShapesPartly(calls, segs, gs, start, done, id, 0, l)
  {
    forall shape: nat | shape != 0
      ensures !ShapeIn(segs, calls[id], 0, shape) && ShapeRight(l, shape, ShapeStarts(calls, segs, gs, start, done, shape) + {})
    {
      assert ShapeRight(l, shape, ShapeStarts(calls, segs, gs, start, done, shape));
      assert ShapeStarts(calls, segs, gs, start, done, shape) + {} == ShapeStarts(calls, segs, gs, start, done, shape);
    }
  }

  lemma KeyStartsGrow(calls: map<CallId, Row>, segs: seq<Seg>, gs: seq<nat>, start: seq<int>, done: set<CallId>, id: CallId, key: string)
    requires RowsWithin(calls, segs, |gs|) && |start| == |gs| && done <= calls.Keys && id in calls
    ensures KeyStarts(calls, segs, gs, start, done + {id}, key) == KeyStarts(calls, segs, gs, start, done, key)
            + if !calls[id].early && KeyIn(segs, calls[id], calls[id].count, key) then {(gs[calls[id].session], start[calls[id].session])} else {}
  {
    var more := KeyStarts(calls, segs, gs, start, done + {id}, key);
    forall s | s in KeyStarts(calls, segs, gs, start, done, key)
      ensures s in more
    {
      var x :| x in done && !calls[x].early && KeyIn(segs, calls[x], calls[x].count, key) && s == (gs[calls[x].session], start[calls[x].session]);
      assert x in done + {id};
    }
    if !calls[id].early && KeyIn(segs, calls[id], calls[id].count, key) {
      assert id in done + {id};
      assert (gs[calls[id].session], start[calls[id].session]) in more;
    }
  }

  lemma ShapeStartsGrow(calls: map<CallId, Row>, segs: seq<Seg>, gs: seq<nat>, start: seq<int>, done: set<CallId>, id: CallId, shape: nat)
    requires RowsWithin(calls, segs, |gs|) && |start| == |gs| && done <= calls.Keys && id in calls
    ensures ShapeStarts(calls, segs, gs, start, done + {id}, shape) == ShapeStarts(calls, segs, gs, start, done, shape)
            + if !calls[id].early && ShapeIn(segs, calls[id], calls[id].count, shape) then {(gs[calls[id].session], start[calls[id].session])} else {}
  {
    var more := ShapeStarts(calls, segs, gs, start, done + {id}, shape);
    forall s | s in ShapeStarts(calls, segs, gs, start, done, shape)
      ensures s in more
    {
      var x :| x in done && !calls[x].early && ShapeIn(segs, calls[x], calls[x].count, shape) && s == (gs[calls[x].session], start[calls[x].session]);
      assert x in done + {id};
    }
    if !calls[id].early && ShapeIn(segs, calls[id], calls[id].count, shape) {
      assert id in done + {id};
      assert (gs[calls[id].session], start[calls[id].session]) in more;
    }
  }

  lemma CallEnds(calls: map<CallId, Row>, segs: seq<Seg>, gs: seq<nat>, start: seq<int>, done: set<CallId>, id: CallId,
                 keys: map<string, Latest>, shapes: map<nat, Latest>)
    requires RowsWithin(calls, segs, |gs|) && |start| == |gs| && done <= calls.Keys && id in calls
    requires if calls[id].early then KeysRight(calls, segs, gs, start, done, keys) && ShapesRight(calls, segs, gs, start, done, shapes)
             else KeysPartly(calls, segs, gs, start, done, id, calls[id].count, keys)
                  && ShapesPartly(calls, segs, gs, start, done, id, calls[id].count, shapes)
    ensures KeysRight(calls, segs, gs, start, done + {id}, keys) && ShapesRight(calls, segs, gs, start, done + {id}, shapes)
  {
    hide KeyStarts, ShapeStarts, KeyRight, ShapeRight, KeyIn, ShapeIn, RowsWithin;
    forall key
      ensures KeyRight(keys, key, KeyStarts(calls, segs, gs, start, done + {id}, key))
    {
      KeyStartsGrow(calls, segs, gs, start, done, id, key);
      assert calls[id].early ==> KeyRight(keys, key, KeyStarts(calls, segs, gs, start, done, key));
      assert KeyStarts(calls, segs, gs, start, done, key) + {} == KeyStarts(calls, segs, gs, start, done, key);
    }
    forall shape: nat | shape != 0
      ensures ShapeRight(shapes, shape, ShapeStarts(calls, segs, gs, start, done + {id}, shape))
    {
      ShapeStartsGrow(calls, segs, gs, start, done, id, shape);
      assert calls[id].early ==> ShapeRight(shapes, shape, ShapeStarts(calls, segs, gs, start, done, shape));
      assert ShapeStarts(calls, segs, gs, start, done, shape) + {} == ShapeStarts(calls, segs, gs, start, done, shape);
    }
  }

  lemma NoKeysYet(calls: map<CallId, Row>, segs: seq<Seg>, gs: seq<nat>, start: seq<int>, asked: set<string>)
    requires RowsWithin(calls, segs, |gs|) && |start| == |gs|
    ensures KeysRight(calls, segs, gs, start, {}, map key | key in asked :: NO_LATEST) && ShapesRight(calls, segs, gs, start, {}, map[])
  {
    hide Summarises;
    NoneSummarises();
    forall key
      ensures KeyStarts(calls, segs, gs, start, {}, key) == {}
    {
    }
    forall shape
      ensures ShapeStarts(calls, segs, gs, start, {}, shape) == {}
    {
    }
  }

  lemma SessionStarted(calls: map<CallId, Row>, start: seq<int>, id: CallId)
    requires id in calls && calls[id].session < |start| && StartsAll(calls, calls.Keys, start)
    ensures start[calls[id].session] > NO_TIME
  {
    assert StartAt(calls, calls.Keys, calls[id].session, start[calls[id].session]);
  }

  /** Adds one call's segments under its session's group and start. */
  method AddCall(r: Row, segs: seq<Seg>, group: nat, at: Millis, keys: map<string, Latest>, shapes: map<nat, Latest>,
                 ghost calls: map<CallId, Row>, ghost gs: seq<nat>, ghost start: seq<int>, ghost done: set<CallId>, ghost id: CallId)
    returns (byKey: map<string, Latest>, byShape: map<nat, Latest>)
    requires RowsWithin(calls, segs, |gs|) && |start| == |gs| && done <= calls.Keys && id in calls && calls[id] == r
    requires group == gs[r.session] && at == start[r.session]
    requires KeysRight(calls, segs, gs, start, done, keys) && ShapesRight(calls, segs, gs, start, done, shapes)
    ensures byKey.Keys == keys.Keys
    ensures KeysPartly(calls, segs, gs, start, done, id, r.count, byKey) && ShapesPartly(calls, segs, gs, start, done, id, r.count, byShape)
  {
    hide KeysRight, ShapesRight, KeysPartly, ShapesPartly, Add;
    byKey, byShape := keys, shapes;
    KeysBegin(calls, segs, gs, start, done, id, keys);
    ShapesBegin(calls, segs, gs, start, done, id, shapes);
    var j := 0;
    while j < r.count
      invariant j <= r.count && byKey.Keys == keys.Keys
      invariant KeysPartly(calls, segs, gs, start, done, id, j, byKey) && ShapesPartly(calls, segs, gs, start, done, id, j, byShape)
    {
      var seg := segs[r.list + j];
      KeysStep(calls, segs, gs, start, done, id, j, byKey);
      ShapesStep(calls, segs, gs, start, done, id, j, byShape);
      if seg.key in byKey {
        byKey := byKey[seg.key := Add(byKey[seg.key], group, at)];
      }
      if seg.shape != 0 {
        var l := if seg.shape in byShape then byShape[seg.shape] else NO_LATEST;
        byShape := byShape[seg.shape := Add(l, group, at)];
      }
      j := j + 1;
    }
  }

  lemma RowWithin(calls: map<CallId, Row>, segs: seq<Seg>, size: nat, id: CallId)
    requires RowsWithin(calls, segs, size) && id in calls
    ensures calls[id].session < size && calls[id].list + calls[id].count <= |segs| && -1 <= calls[id].primary < calls[id].count
  {
  }

  method AllCalls(c: Corpus, start: seq<int>, asked: set<string>) returns (byKey: map<string, Latest>, byShape: map<nat, Latest>)
    requires c.Linked() && |start| == |c.refs| && RowsWithin(c.calls, c.segs, |c.refs|) && StartsAll(c.calls, c.calls.Keys, start)
    modifies c`parent
    ensures c.Linked() && byKey.Keys == asked
    ensures var gs := Numbers(c.refs, c.index, c.root);
            KeysRight(c.calls, c.segs, gs, start, c.calls.Keys, byKey) && ShapesRight(c.calls, c.segs, gs, start, c.calls.Keys, byShape)
  {
    hide Corpus.Linked, KeysRight, ShapesRight, KeysPartly, ShapesPartly, StartsAll, RowsWithin;
    byKey, byShape := map key | key in asked :: NO_LATEST, map[];
    ghost var gs := Numbers(c.refs, c.index, c.root);
    NoKeysYet(c.calls, c.segs, gs, start, asked);
    var rest := c.calls.Keys;
    ghost var done: set<CallId> := {};
    while rest != {}
      invariant rest <= c.calls.Keys && done == c.calls.Keys - rest && c.Linked() && byKey.Keys == asked
      invariant KeysRight(c.calls, c.segs, gs, start, done, byKey) && ShapesRight(c.calls, c.segs, gs, start, done, byShape)
      decreases |rest|
    {
      var id :| id in rest;
      rest := rest - {id};
      var r := c.calls[id];
      RowWithin(c.calls, c.segs, |c.refs|, id);
      if !r.early {
        var group := c.Find(r.session);
        FoundGroup(c, r.session, group);
        SessionStarted(c.calls, start, id);
        byKey, byShape := AddCall(r, c.segs, group, start[r.session], byKey, byShape, c.calls, gs, start, done, id);
      }
      CallEnds(c.calls, c.segs, gs, start, done, id, byKey, byShape);
      done := done + {id};
    }
    assert done == c.calls.Keys;
  }

  method TakeTimeline(c: Corpus) returns (t: Timeline, ghost start: seq<int>)
    requires c.Linked() && RowsWithin(c.calls, c.segs, |c.refs|)
    modifies c`parent
    ensures c.Linked() && TimelineOk(c.calls, c.segs, Numbers(c.refs, c.index, c.root), start, t)
  {
    hide Corpus.Linked, KeysRight, ShapesRight, StartsAll, AskedAll, Summarises;
    var begun, asked := FirstTimes(c.calls, c.segs, |c.refs|);
    start := begun;
    assert forall i :: 0 <= i < |begun| ==> begun[i] >= NO_TIME by {
      StartsBounded(c.calls, begun);
    }
    var all := AllSessions(c, begun);
    var byKey, byShape := AllCalls(c, begun, asked);
    t := Timeline(all, byKey, byShape);
  }

  lemma StartsBounded(calls: map<CallId, Row>, start: seq<int>)
    requires StartsAll(calls, calls.Keys, start)
    ensures forall i :: 0 <= i < |start| ==> start[i] >= NO_TIME
  {
  }
}
