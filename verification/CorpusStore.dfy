/** The corpus object: interned sessions under a union-find, one row per call,
    one record per denial, and what it keeps as it hears more. */
module CorpusStore {
  import opened Connectivity
  import opened Forest
  import opened Latest
  import opened Ordering
  import opened CorpusRows

  ghost predicate Grouped(index: map<SessionRef, nat>, refs: seq<SessionRef>, parent: seq<nat>,
                          root: map<SessionRef, SessionRef>, depth: map<SessionRef, nat>, links: set<(SessionRef, SessionRef)>) {
    && Interned(index, refs, parent)
    && IsForest(Pointers(index, refs, parent), root, depth)
    && Partitions(root, links)
  }

  /** Looking at session i: its pointer climbs towards its root. */
  lemma ClimbAt(index: map<SessionRef, nat>, refs: seq<SessionRef>, parent: seq<nat>,
                root: map<SessionRef, SessionRef>, depth: map<SessionRef, nat>, links: set<(SessionRef, SessionRef)>, i: nat)
    requires Grouped(index, refs, parent, root, depth, links) && i < |refs|
    ensures parent[i] < |refs| && refs[i] in root && refs[parent[i]] in root && root[refs[parent[i]]] == root[refs[i]]
    ensures refs[i] in depth && refs[parent[i]] in depth
    ensures parent[i] == i ==> root[refs[i]] == refs[i]
    ensures parent[i] != i ==> depth[refs[parent[i]]] < depth[refs[i]]
    ensures root[refs[i]] in index && (root[refs[i]] == refs[i] ==> parent[i] == i)
  {
    PointerAt(index, refs, parent, i);
    PointerAt(index, refs, parent, parent[i]);
    assert Climbs(Pointers(index, refs, parent), root, depth, refs[i]);
  }

  lemma HalvedAt(index: map<SessionRef, nat>, refs: seq<SessionRef>, parent: seq<nat>,
                 root: map<SessionRef, SessionRef>, depth: map<SessionRef, nat>, links: set<(SessionRef, SessionRef)>, i: nat)
    requires Grouped(index, refs, parent, root, depth, links) && i < |refs|
    ensures parent[i] < |refs|
    ensures Grouped(index, refs, parent[i := parent[parent[i]]], root, depth, links)
  {
    hide Interned, IsForest, Pointers, Partitions;
    Bounds(index, refs, parent, i);
    PointerAt(index, refs, parent, i);
    PointerAt(index, refs, parent, parent[i]);
    Halved(Pointers(index, refs, parent), root, depth, refs[i]);
    Bounds(index, refs, parent, parent[i]);
    Repointed(index, refs, parent, i, parent[parent[i]]);
  }

  lemma Bounds(index: map<SessionRef, nat>, refs: seq<SessionRef>, parent: seq<nat>, i: nat)
    requires Interned(index, refs, parent) && i < |refs|
    ensures |parent| == |refs| && parent[i] < |refs| && refs[i] in index && index[refs[i]] == i
  {
  }

  lemma HungAt(index: map<SessionRef, nat>, refs: seq<SessionRef>, parent: seq<nat>,
               root: map<SessionRef, SessionRef>, depth: map<SessionRef, nat>, links: set<(SessionRef, SessionRef)>,
               a: nat, b: nat, ra: nat, rb: nat)
    requires Grouped(index, refs, parent, root, depth, links)
    requires a < |refs| && b < |refs| && ra < |refs| && rb < |refs| && ra != rb
    requires refs[a] in root && refs[b] in root && root[refs[a]] == refs[ra] && root[refs[b]] == refs[rb]
    requires |parent| == |refs| && parent[ra] == ra && parent[rb] == rb && refs[rb] in depth && root.Keys == depth.Keys
    ensures Grouped(index, refs, parent[ra := rb], Merged(root, refs[ra], refs[rb]),
                    DepthAfterUnion(root, depth, refs[ra], refs[rb]), links + {(refs[a], refs[b])})
  {
    hide Interned, IsForest, Pointers, Partitions;
    PointerAt(index, refs, parent, ra);
    PointerAt(index, refs, parent, rb);
    Repointed(index, refs, parent, ra, rb);
    Hung(Pointers(index, refs, parent), root, depth, refs[ra], refs[rb]);
    AddLink(root, links, refs[a], refs[b], Merged(root, refs[ra], refs[rb]));
  }

  lemma SameRootLink(root: map<SessionRef, SessionRef>, links: set<(SessionRef, SessionRef)>, a: SessionRef, b: SessionRef)
    requires Partitions(root, links) && a in root && b in root && root[a] == root[b]
    ensures Partitions(root, links + {(a, b)})
  {
    assert Merged(root, root[a], root[b]) == root;
    AddLink(root, links, a, b, root);
  }

  class Corpus {
    const since: Time
    const text: Text
    var index: map<SessionRef, nat>
    var refs: seq<SessionRef>
    var parent: seq<nat>
    var calls: map<CallId, Row>
    var segs: seq<Seg>
    var shapes: seq<string>
    var shapeIds: map<string, nat>
    var denials: map<string, Denial>
    var events: set<EventRef>

    // The forest's roots, the links made, and everything heard so far.
    ghost var root: map<SessionRef, SessionRef>
    ghost var depth: map<SessionRef, nat>
    ghost var links: set<(SessionRef, SessionRef)>
    ghost var callLog: seq<Call>
    ghost var denialLog: seq<Denial>

    ghost predicate Linked()
      reads `index, `refs, `parent, `root, `depth, `links
      ensures Linked() ==> Interned(index, refs, parent) && |parent| == |refs| && root.Keys == depth.Keys
    {
      Grouped(index, refs, parent, root, depth, links)
    }

    ghost predicate Kept()
      reads `refs, `segs, `shapes, `shapeIds, `calls, `denials, `events, `callLog, `denialLog
    {
      && ShapesOk(shapes, shapeIds, segs)
      && RowsOk(refs, segs, shapes, calls, HeardIn(text, since, callLog))
      && RowsHold(refs, segs, shapes, calls, KeptIn(text, since, callLog))
      && DenialsOk(denials, RefusedIn(denialLog)) && denials == DenialsIn(denialLog)
      && events == EventsIn(text, since, denialLog)
    }

    ghost predicate Joined()
      reads `refs, `links, `calls, `denials, `callLog, `denialLog
    {
      && links <= Sharing(HeardIn(text, since, callLog), RefusedIn(denialLog))
      && CallsLinked(links, refs, calls, HeardIn(text, since, callLog))
      && DenialsLinked(links, refs, denials, RefusedIn(denialLog))
    }

    ghost predicate Valid()
      reads this
    {
      Linked() && Kept() && Joined()
    }

    constructor (since: Time, text: Text)
      ensures Valid() && this.since == since && this.text == text
      ensures callLog == [] && denialLog == [] && calls == map[] && denials == map[] && events == {}
    {
      this.since, this.text := since, text;
      index, refs, parent := map[], [], [];
      calls, segs, shapes, shapeIds := map[], [], [""], map["" := 0];
      denials, events := map[], {};
      root, depth, links := map[], map[], {};
      callLog, denialLog := [], [];
      new;
      NoLinks(root);
    }

    method Session(harness: string, id: string) returns (s: nat)
      requires Linked()
      modifies `index, `refs, `parent, `root, `depth
      ensures Linked() && old(refs) <= refs && s < |refs| && refs[s] == SessionRef(harness, id)
      ensures old(index.Keys) <= index.Keys
    {
      hide IsForest, Partitions, Pointers, Interned;
      var ref := SessionRef(harness, id);
      if ref in index {
        RefAt(index, refs, parent, ref);
        return index[ref];
      }
      s := |refs|;
      Registered(index, refs, parent, ref);
      Grown(Pointers(index, refs, parent), root, depth, links, ref) by {
        PointersKeys(index, refs, parent);
      }
      index := index[ref := s];
      refs := refs + [ref];
      parent := parent + [s];
      root, depth := root[ref := ref], depth[ref := 0];
    }

    /** Climbs to the session that stands for the whole group, halving the path. */
    method Find(s: nat) returns (r: nat)
      requires Linked() && s < |refs|
      modifies `parent
      ensures Linked() && r < |refs| && refs[s] in root && refs[r] == root[refs[s]] && parent[r] == r
    {
      hide IsForest, Partitions, Pointers, Interned;
      r := s;
      ClimbAt(index, refs, parent, root, depth, links, r);
      while parent[r] != r
        invariant Linked() && r < |refs| && refs[s] in root && refs[r] in root && root[refs[r]] == root[refs[s]]
        invariant refs[r] in depth
        decreases depth[refs[r]]
      {
        ClimbAt(index, refs, parent, root, depth, links, r);
        ClimbAt(index, refs, parent, root, depth, links, parent[r]);
        HalvedAt(index, refs, parent, root, depth, links, r);
        parent := parent[r := parent[parent[r]]];
        r := parent[r];
      }
      ClimbAt(index, refs, parent, root, depth, links, r);
    }

    method Link(a: nat, b: nat)
      requires Linked() && a < |refs| && b < |refs|
      modifies `parent, `root, `depth, `links
      ensures Linked() && links == old(links) + {(refs[a], refs[b])}
    {
      hide IsForest, Partitions, Pointers, Interned, DepthAfterUnion;
      var ra := Find(a);
      var rb := Find(b);
      StillRoot(index, refs, parent, root, depth, links, a, ra);
      StillRoot(index, refs, parent, root, depth, links, b, rb);
      if ra == rb {
        SameRootLink(root, links, refs[a], refs[b]);
        links := links + {(refs[a], refs[b])};
        assert parent[ra := rb] == parent;
        parent := parent[ra := rb];
        return;
      }
      HungAt(index, refs, parent, root, depth, links, a, b, ra, rb);
      ghost var ta, tb := refs[ra], refs[rb];
      parent := parent[ra := rb];
      depth := DepthAfterUnion(root, depth, ta, tb);
      root := Merged(root, ta, tb);
      links := links + {(refs[a], refs[b])};
    }
    method ShapeId(shape: string) returns (n: nat)
      requires ShapesOk(shapes, shapeIds, segs)
      modifies `shapes, `shapeIds
      ensures ShapesOk(shapes, shapeIds, segs) && old(shapes) <= shapes && n < |shapes| && shapes[n] == shape
    {
      if shape in shapeIds {
        return shapeIds[shape];
      }
      n := |shapes|;
      shapeIds := shapeIds[shape := n];
      shapes := shapes + [shape];
    }

    /** Stores the segments of one command line, in order. */
    method Append(line: Parsed) returns (list: nat)
      requires ShapesOk(shapes, shapeIds, segs)
      modifies `shapes, `shapeIds, `segs
      ensures ShapesOk(shapes, shapeIds, segs) && old(shapes) <= shapes && old(segs) <= segs
      ensures Stores(segs, shapes, list, line.segments)
    {
      list := |segs|;
      var j := 0;
      while j < |line.segments|
        invariant j <= |line.segments| && |segs| == list + j && old(segs) <= segs && old(shapes) <= shapes
        invariant ShapesOk(shapes, shapeIds, segs)
        invariant Stores(segs, shapes, list, line.segments[..j])
      {
        var n := ShapeId(line.segments[j].shape);
        segs := segs + [Seg(line.segments[j].key, n)];
        j := j + 1;
      }
      assert line.segments[..j] == line.segments;
    }

    /** Hears one call: the lowest copy is kept, copies are counted, and the
        sessions that share it are linked. */
    method Call(call: CorpusRows.Call)
      requires Valid()
      modifies this
      ensures Valid() && callLog == old(callLog) + [call] && denialLog == old(denialLog)
    {
      hide Linked, ShapesOk, RowsOk, DenialsOk, CallsLinked, DenialsLinked, Sharing, EventsIn, HeardIn, RefusedIn, KeptIn, DenialsIn, RowsHold, Interned, Lower, Milli;
      var p := text.parse(call.command);
      var id := Id(call);
      ghost var heard := HeardIn(text, since, callLog);
      var first, ts := Milli(call.fileFirst), Milli(call.ts);
      var s := Session(call.harness, call.session);
      ghost var links0 := links;
      var copies := 0;
      if id in calls {
        var held := calls[id];
        HeldFits(old(refs), segs, shapes, calls, heard, id);
        Link(held.session, s);
        held := held.(copies := held.copies + 1);
        if !Lower(first, ts, call.session, held.first, held.ts, refs[held.session].id) {
          CountCopy(call, held, old(refs), links0);
          return;
        }
        copies := held.copies;
      }
      Keep(call, p, s, copies, old(refs), links0);
    }

    /** A higher copy only counts, and adds its session's link. */
    method CountCopy(call: CorpusRows.Call, held: Row, ghost refs0: seq<SessionRef>, ghost links0: set<(SessionRef, SessionRef)>)
      requires Linked() && SessionRef(call.harness, call.session) in refs && refs0 <= refs
      requires ShapesOk(shapes, shapeIds, segs) && RowsOk(refs0, segs, shapes, calls, HeardIn(text, since, callLog))
      requires RowsHold(refs0, segs, shapes, calls, KeptIn(text, since, callLog)) && denials == DenialsIn(denialLog)
      requires DenialsOk(denials, RefusedIn(denialLog)) && events == EventsIn(text, since, denialLog)
      requires links0 <= Sharing(HeardIn(text, since, callLog), RefusedIn(denialLog))
      requires CallsLinked(links0, refs0, calls, HeardIn(text, since, callLog)) && DenialsLinked(links0, refs0, denials, RefusedIn(denialLog))
      requires var id := Id(call);
               && id in calls && held == calls[id].(copies := calls[id].copies + 1) && held.session < |refs0|
               && links == links0 + {(refs0[held.session], SessionRef(call.harness, call.session))}
               && !Lower(Milli(call.fileFirst), Milli(call.ts), call.session, held.first, held.ts, refs0[held.session].id)
      modifies `calls, `callLog
      ensures Valid() && callLog == old(callLog) + [call]
    {
      hide Linked, ShapesOk, RowsOk, DenialsOk, CallsLinked, DenialsLinked, Sharing, EventsIn, HeardIn, RefusedIn, KeptIn, DenialsIn, RowsHold, Interned, Lower, Milli;
      var id := Id(call);
      ghost var sight := Sight(text, since, call);
      ghost var heard, refused := HeardIn(text, since, callLog), RefusedIn(denialLog);
      HeardGrows(text, since, callLog, call);
      KeepHeld(refs0, refs, segs, shapes, calls, heard, id, sight);
      StaysHeld(refs0, refs, segs, shapes, calls, text, since, callLog, call);
      LinksHeld(links0, links, refs0, refs, segs, shapes, calls, heard, refused, denials, id, sight, held);
      calls := calls[id := held];
      callLog := callLog + [call];
    }

    /** Puts down the row of a call whose copy is the lowest so far. */
    method Keep(call: CorpusRows.Call, p: Parsed, s: nat, copies: nat, ghost refs0: seq<SessionRef>, ghost links0: set<(SessionRef, SessionRef)>)
      requires Linked() && p == text.parse(call.command) && s < |refs| && refs[s] == SessionRef(call.harness, call.session) && refs0 <= refs
      requires ShapesOk(shapes, shapeIds, segs) && RowsOk(refs0, segs, shapes, calls, HeardIn(text, since, callLog))
      requires RowsHold(refs0, segs, shapes, calls, KeptIn(text, since, callLog)) && denials == DenialsIn(denialLog)
      requires DenialsOk(denials, RefusedIn(denialLog)) && events == EventsIn(text, since, denialLog)
      requires links0 <= Sharing(HeardIn(text, since, callLog), RefusedIn(denialLog))
      requires CallsLinked(links0, refs0, calls, HeardIn(text, since, callLog)) && DenialsLinked(links0, refs0, denials, RefusedIn(denialLog))
      requires var id := Id(call);
               if id in calls then
                 && calls[id].session < |refs0| && copies == calls[id].copies + 1
                 && links == links0 + {(refs0[calls[id].session], refs[s])}
                 && Lower(Milli(call.fileFirst), Milli(call.ts), call.session, calls[id].first, calls[id].ts, refs0[calls[id].session].id)
               else copies == 0 && links == links0
      modifies `calls, `segs, `shapes, `shapeIds, `callLog
      ensures Valid() && callLog == old(callLog) + [call]
    {
      hide Linked, ShapesOk, RowsOk, DenialsOk, CallsLinked, DenialsLinked, Sharing, EventsIn, HeardIn, RefusedIn, KeptIn, DenialsIn, RowsHold, Interned, Lower, Milli, Stores;
      var id := Id(call);
      ghost var sight := Sight(text, since, call);
      ghost var heard, refused := HeardIn(text, since, callLog), RefusedIn(denialLog);
      HeardGrows(text, since, callLog, call);
      var list := Append(p);
      var r := Row(Milli(call.ts), Milli(call.fileFirst), s, copies, list, |p.segments|, p.primary, call.ts < since);
      KeepNew(refs0, refs, old(segs), segs, old(shapes), shapes, calls, heard, id, sight, r);
      NowHeld(refs0, refs, old(segs), segs, old(shapes), shapes, calls, text, since, callLog, call, r);
      LinksNew(links0, links, refs0, refs, old(segs), old(shapes), calls, heard, refused, denials, id, sight, r);
      calls := calls[id := r];
      callLog := callLog + [call];
    }

    /** Hears one denial; events that name no command are only noted. */
    method Denial(d: CorpusRows.Denial)
      requires Valid()
      modifies this
      ensures Valid() && denialLog == old(denialLog) + [d] && callLog == old(callLog)
    {
      hide Linked, ShapesOk, RowsOk, DenialsOk, CallsLinked, DenialsLinked, Sharing, EventsIn, HeardIn, RefusedIn, KeptIn, DenialsIn, RowsHold;
      EventsGrow(text, since, denialLog, d);
      if IsEvent(d) {
        RefusedGrows(denialLog, d);
        DenialsGrow(denialLog, d);
        if d.ts >= since {
          events := events + {Event(text, d)};
        }
        denialLog := denialLog + [d];
        return;
      }
      Refuse(d);
    }

    /** Keeps the lowest copy of a denial and links the sessions that share it. */
    method Refuse(d: CorpusRows.Denial)
      requires Valid() && !IsEvent(d) && EventsIn(text, since, denialLog + [d]) == events
      modifies `index, `refs, `parent, `root, `depth, `links, `denials, `denialLog
      ensures Valid() && denialLog == old(denialLog) + [d]
    {
      hide Linked, ShapesOk, RowsOk, DenialsOk, CallsLinked, DenialsLinked, Sharing, EventsIn, HeardIn, RefusedIn, KeptIn, DenialsIn, RowsHold, Interned, Lower, Milli;
      var id := d.toolUseId;
      var s := Session(CLAUDE, d.session);
      ghost var links0 := links;
      if id in denials {
        var held := denials[id];
        var h := Session(CLAUDE, held.session);
        Link(h, s);
        if !Lower(Milli(d.fileFirst), Milli(d.ts), d.session, Milli(held.fileFirst), Milli(held.ts), held.session) {
          StayDenial(d, old(refs), links0);
          return;
        }
      }
      KeepDenial(d, old(refs), links0);
    }

    /** A higher copy changes no record; it only adds its session's link. */
    ghost method StayDenial(d: CorpusRows.Denial, refs0: seq<SessionRef>, links0: set<(SessionRef, SessionRef)>)
      requires Linked() && !IsEvent(d) && SessionOf(d) in refs && refs0 <= refs
      requires ShapesOk(shapes, shapeIds, segs) && RowsOk(refs0, segs, shapes, calls, HeardIn(text, since, callLog))
      requires RowsHold(refs0, segs, shapes, calls, KeptIn(text, since, callLog)) && denials == DenialsIn(denialLog)
      requires DenialsOk(denials, RefusedIn(denialLog)) && events == EventsIn(text, since, denialLog + [d])
      requires links0 <= Sharing(HeardIn(text, since, callLog), RefusedIn(denialLog))
      requires CallsLinked(links0, refs0, calls, HeardIn(text, since, callLog)) && DenialsLinked(links0, refs0, denials, RefusedIn(denialLog))
      requires var id := d.toolUseId;
               && id in denials && !LowerDenial(d, denials[id]) && SessionOf(denials[id]) in refs
               && links == links0 + {(SessionOf(denials[id]), SessionOf(d))}
      modifies `denialLog
      ensures Valid() && denialLog == old(denialLog) + [d]
    {
      hide Linked, ShapesOk, RowsOk, DenialsOk, CallsLinked, DenialsLinked, Sharing, EventsIn, HeardIn, RefusedIn, KeptIn, DenialsIn, RowsHold, Interned, LowerDenial;
      ghost var heard, refused := HeardIn(text, since, callLog), RefusedIn(denialLog);
      RefusedGrows(denialLog, d);
      DenialsGrow(denialLog, d);
      RowsRegistered(refs0, refs, segs, shapes, calls, heard);
      HoldsRegistered(refs0, refs, segs, shapes, calls, KeptIn(text, since, callLog));
      DenialStays(denials, refused, d.toolUseId, d);
      DenialStayLinks(links0, links, refs0, refs, segs, shapes, calls, heard, refused, denials, d.toolUseId, d);
      denialLog := denialLog + [d];
    }

    /** Puts down the record of a denial whose copy is the lowest so far. */
    method KeepDenial(d: CorpusRows.Denial, ghost refs0: seq<SessionRef>, ghost links0: set<(SessionRef, SessionRef)>)
      requires Linked() && !IsEvent(d) && SessionOf(d) in refs && refs0 <= refs
      requires ShapesOk(shapes, shapeIds, segs) && RowsOk(refs0, segs, shapes, calls, HeardIn(text, since, callLog))
      requires RowsHold(refs0, segs, shapes, calls, KeptIn(text, since, callLog)) && denials == DenialsIn(denialLog)
      requires DenialsOk(denials, RefusedIn(denialLog)) && events == EventsIn(text, since, denialLog + [d])
      requires links0 <= Sharing(HeardIn(text, since, callLog), RefusedIn(denialLog))
      requires CallsLinked(links0, refs0, calls, HeardIn(text, since, callLog)) && DenialsLinked(links0, refs0, denials, RefusedIn(denialLog))
      requires var id := d.toolUseId;
               if id in denials then
                 && LowerDenial(d, denials[id]) && SessionOf(denials[id]) in refs
                 && links == links0 + {(SessionOf(denials[id]), SessionOf(d))}
               else links == links0
      modifies `denials, `denialLog
      ensures Valid() && denialLog == old(denialLog) + [d]
    {
      hide Linked, ShapesOk, RowsOk, DenialsOk, CallsLinked, DenialsLinked, Sharing, EventsIn, HeardIn, RefusedIn, KeptIn, DenialsIn, RowsHold, Interned, LowerDenial;
      ghost var heard, refused := HeardIn(text, since, callLog), RefusedIn(denialLog);
      RefusedGrows(denialLog, d);
      DenialsGrow(denialLog, d);
      RowsRegistered(refs0, refs, segs, shapes, calls, heard);
      HoldsRegistered(refs0, refs, segs, shapes, calls, KeptIn(text, since, callLog));
      DenialKept(denials, refused, d.toolUseId, d);
      DenialLinks(links0, links, refs0, refs, segs, shapes, calls, heard, refused, denials, d.toolUseId, d);
      denials := denials[d.toolUseId := d];
      denialLog := denialLog + [d];
    }
  }

  /** A group's root stays its own parent while other paths are halved. */
  lemma StillRoot(index: map<SessionRef, nat>, refs: seq<SessionRef>, parent: seq<nat>,
                  root: map<SessionRef, SessionRef>, depth: map<SessionRef, nat>, links: set<(SessionRef, SessionRef)>, a: nat, ra: nat)
    requires Grouped(index, refs, parent, root, depth, links) && a < |refs| && ra < |refs|
    requires refs[a] in root && refs[ra] == root[refs[a]]
    ensures |parent| == |refs| && parent[ra] == ra && refs[ra] in depth
  {
    PointerAt(index, refs, parent, a);
    PointerAt(index, refs, parent, ra);
    assert Climbs(Pointers(index, refs, parent), root, depth, refs[a]);
  }

  lemma RefAt(index: map<SessionRef, nat>, refs: seq<SessionRef>, parent: seq<nat>, ref: SessionRef)
    requires Interned(index, refs, parent) && ref in index
    ensures index[ref] < |refs| && refs[index[ref]] == ref
  {
  }

  lemma PointersKeys(index: map<SessionRef, nat>, refs: seq<SessionRef>, parent: seq<nat>)
    requires Interned(index, refs, parent)
    ensures Pointers(index, refs, parent).Keys == index.Keys
  {
  }

  // ---------------------------------------------------------------- hearing

  /** The stored segments from `list` on spell out `line`. */
  ghost predicate Stores(segs: seq<Seg>, shapes: seq<string>, list: nat, line: seq<Segment>) {
    && list + |line| <= |segs|
    && forall j :: 0 <= j < |line| ==>
         segs[list + j].key == line[j].key && segs[list + j].shape < |shapes| && shapes[segs[list + j].shape] == line[j].shape
  }

  lemma HeardGrows(text: Text, since: Time, log: seq<CorpusRows.Call>, c: CorpusRows.Call)
    ensures var before := HeardIn(text, since, log);
            HeardIn(text, since, log + [c]) == before[Id(c) := Copies(before, Id(c)) + multiset{Sight(text, since, c)}]
  {
    assert (log + [c])[..|log|] == log;
  }

  lemma RefusedGrows(log: seq<CorpusRows.Denial>, d: CorpusRows.Denial)
    ensures var before := RefusedIn(log);
            RefusedIn(log + [d]) == if IsEvent(d) then before else before[d.toolUseId := Copies(before, d.toolUseId) + multiset{d}]
  {
    assert (log + [d])[..|log|] == log;
  }

  lemma KeptGrows(text: Text, since: Time, log: seq<CorpusRows.Call>, c: CorpusRows.Call)
    ensures var before, sight := KeptIn(text, since, log), Sight(text, since, c);
            KeptIn(text, since, log + [c]) ==
            if Id(c) in before && !LowerSighting(sight, before[Id(c)]) then before else before[Id(c) := sight]
  {
    assert (log + [c])[..|log|] == log;
  }

  lemma DenialsGrow(log: seq<CorpusRows.Denial>, d: CorpusRows.Denial)
    ensures var before := DenialsIn(log);
            DenialsIn(log + [d]) ==
            if IsEvent(d) || (d.toolUseId in before && !LowerDenial(d, before[d.toolUseId])) then before else before[d.toolUseId := d]
  {
    assert (log + [d])[..|log|] == log;
  }

  lemma EventsGrow(text: Text, since: Time, log: seq<CorpusRows.Denial>, d: CorpusRows.Denial)
    ensures EventsIn(text, since, log + [d]) == EventsIn(text, since, log) + if IsEvent(d) && d.ts >= since then {Event(text, d)} else {}
  {
    assert forall x :: x in log + [d] <==> x in log || x == d;
  }

  lemma HeldFits(refs: seq<SessionRef>, segs: seq<Seg>, shapes: seq<string>, calls: map<CallId, Row>, heard: Heard, id: CallId)
    requires RowsOk(refs, segs, shapes, calls, heard) && id in calls
    ensures calls[id].session < |refs| && id in heard && RowOk(refs, segs, shapes, calls[id], heard[id])
  {
  }

  /** The held row stays: its copy count goes up. */
  lemma KeepHeld(refs0: seq<SessionRef>, refs: seq<SessionRef>, segs: seq<Seg>, shapes: seq<string>, calls: map<CallId, Row>,
                 heard: Heard, id: CallId, sight: Sighting)
    requires RowsOk(refs0, segs, shapes, calls, heard) && refs0 <= refs && id in calls
    requires calls[id].session < |refs0| && !Lower(sight.first, sight.ts, sight.session.id, calls[id].first, calls[id].ts, refs0[calls[id].session].id)
    ensures RowsOk(refs, segs, shapes, calls[id := calls[id].(copies := calls[id].copies + 1)], heard[id := Copies(heard, id) + multiset{sight}])
  {
    hide RowFits, SightingAt, RowOk;
    RowsRegistered(refs0, refs, segs, shapes, calls, heard);
    assert RowOk(refs, segs, shapes, calls[id], heard[id]);
    CopyCounted(refs, segs, shapes, calls[id], heard[id], sight);
  }

  lemma HoldsRegistered(refs0: seq<SessionRef>, refs: seq<SessionRef>, segs: seq<Seg>, shapes: seq<string>, calls: map<CallId, Row>,
                        kept: map<CallId, Sighting>)
    requires RowsHold(refs0, segs, shapes, calls, kept) && refs0 <= refs
    ensures RowsHold(refs, segs, shapes, calls, kept)
  {
    HoldsAppended(refs0, segs, shapes, refs, segs, shapes, calls, kept);
  }

  lemma HoldsAppended(refs0: seq<SessionRef>, segs0: seq<Seg>, shapes0: seq<string>,
                      refs: seq<SessionRef>, segs: seq<Seg>, shapes: seq<string>, calls: map<CallId, Row>, kept: map<CallId, Sighting>)
    requires RowsHold(refs0, segs0, shapes0, calls, kept) && refs0 <= refs && segs0 <= segs && shapes0 <= shapes
    ensures RowsHold(refs, segs, shapes, calls, kept)
  {
    hide RowFits, SightingAt;
    forall id <- calls.Keys
      ensures RowFits(refs, segs, shapes, calls[id]) && SightingAt(refs, segs, shapes, calls[id]) == kept[id]
    {
      RowStays(refs0, segs0, shapes0, refs, segs, shapes, calls[id]);
    }
  }

  lemma SightingMeans(refs: seq<SessionRef>, segs: seq<Seg>, shapes: seq<string>, calls: map<CallId, Row>, kept: map<CallId, Sighting>, id: CallId)
    requires RowsHold(refs, segs, shapes, calls, kept) && id in calls
    ensures id in kept && calls[id].session < |refs| && kept[id].session == refs[calls[id].session]
    ensures kept[id].first == calls[id].first && kept[id].ts == calls[id].ts
  {
  }

  /** The copy kept stays the same where the new one is not lower. */
  lemma StaysHeld(refs0: seq<SessionRef>, refs: seq<SessionRef>, segs: seq<Seg>, shapes: seq<string>, calls: map<CallId, Row>,
                  text: Text, since: Time, log: seq<CorpusRows.Call>, call: CorpusRows.Call)
    requires RowsHold(refs0, segs, shapes, calls, KeptIn(text, since, log)) && refs0 <= refs && Id(call) in calls && calls[Id(call)].session < |refs0|
    requires var held := calls[Id(call)];
             !Lower(Milli(call.fileFirst), Milli(call.ts), call.session, held.first, held.ts, refs0[held.session].id)
    ensures RowsHold(refs, segs, shapes, calls[Id(call) := calls[Id(call)].(copies := calls[Id(call)].copies + 1)], KeptIn(text, since, log + [call]))
  {
    hide KeptIn, Lower, Milli, RowFits, SightingAt;
    var id, kept := Id(call), KeptIn(text, since, log);
    KeptGrows(text, since, log, call);
    SightingMeans(refs0, segs, shapes, calls, kept, id);
    HoldsRegistered(refs0, refs, segs, shapes, calls, kept);
    CountIsNoSight(refs, segs, shapes, calls[id]);
  }

  lemma CountIsNoSight(refs: seq<SessionRef>, segs: seq<Seg>, shapes: seq<string>, r: Row)
    requires RowFits(refs, segs, shapes, r)
    ensures RowFits(refs, segs, shapes, r.(copies := r.copies + 1))
    ensures SightingAt(refs, segs, shapes, r.(copies := r.copies + 1)) == SightingAt(refs, segs, shapes, r)
  {
    assert LineOf(segs, shapes, r.(copies := r.copies + 1)).segments == LineOf(segs, shapes, r).segments;
  }

  /** ... and is the new one where that is lower, or the first. */
  lemma NowHeld(refs0: seq<SessionRef>, refs: seq<SessionRef>, segs0: seq<Seg>, segs: seq<Seg>, shapes0: seq<string>, shapes: seq<string>,
                calls: map<CallId, Row>, text: Text, since: Time, log: seq<CorpusRows.Call>, call: CorpusRows.Call, r: Row)
    requires RowsHold(refs0, segs0, shapes0, calls, KeptIn(text, since, log)) && refs0 <= refs && segs0 <= segs && shapes0 <= shapes
    requires var sight := Sight(text, since, call);
             && Stores(segs, shapes, r.list, sight.line.segments) && r.count == |sight.line.segments| && r.primary == sight.line.primary
             && r.session < |refs| && refs[r.session] == sight.session && r.ts == sight.ts && r.first == sight.first && r.early == sight.early
    requires var id := Id(call);
             id in calls ==> calls[id].session < |refs0|
                             && Lower(Milli(call.fileFirst), Milli(call.ts), call.session, calls[id].first, calls[id].ts, refs0[calls[id].session].id)
    ensures RowsHold(refs, segs, shapes, calls[Id(call) := r], KeptIn(text, since, log + [call]))
  {
    hide KeptIn, Lower, Milli, RowFits, SightingAt, Stores;
    var id, kept := Id(call), KeptIn(text, since, log);
    KeptGrows(text, since, log, call);
    if id in calls {
      SightingMeans(refs0, segs0, shapes0, calls, kept, id);
    }
    HoldsAppended(refs0, segs0, shapes0, refs, segs, shapes, calls, kept);
    StoredRow(refs, segs, shapes, r, Sight(text, since, call));
  }

  lemma CopyCounted(refs: seq<SessionRef>, segs: seq<Seg>, shapes: seq<string>, r: Row, copies: multiset<Sighting>, sight: Sighting)
    requires RowOk(refs, segs, shapes, r, copies)
    requires !Lower(sight.first, sight.ts, sight.session.id, r.first, r.ts, refs[r.session].id)
    ensures RowOk(refs, segs, shapes, r.(copies := r.copies + 1), copies + multiset{sight})
  {
    LeastAfter(SightingAt(refs, segs, shapes, r), copies, sight);
    assert LineOf(segs, shapes, r.(copies := r.copies + 1)).segments == LineOf(segs, shapes, r).segments;
  }

  lemma RowsRegistered(refs0: seq<SessionRef>, refs: seq<SessionRef>, segs: seq<Seg>, shapes: seq<string>, calls: map<CallId, Row>, heard: Heard)
    requires RowsOk(refs0, segs, shapes, calls, heard) && refs0 <= refs
    ensures RowsOk(refs, segs, shapes, calls, heard)
  {
    RowsAppended(refs0, segs, shapes, refs, segs, shapes, calls, heard);
  }

  lemma RowsAppended(refs0: seq<SessionRef>, segs0: seq<Seg>, shapes0: seq<string>,
                     refs: seq<SessionRef>, segs: seq<Seg>, shapes: seq<string>, calls: map<CallId, Row>, heard: Heard)
    requires RowsOk(refs0, segs0, shapes0, calls, heard) && refs0 <= refs && segs0 <= segs && shapes0 <= shapes
    ensures RowsOk(refs, segs, shapes, calls, heard)
  {
    forall id <- calls.Keys
      ensures RowOk(refs, segs, shapes, calls[id], heard[id])
    {
      assert RowOk(refs0, segs0, shapes0, calls[id], heard[id]);
      RowStays(refs0, segs0, shapes0, refs, segs, shapes, calls[id]);
    }
  }

  /** A new row, or one that takes over from a higher copy. */
  lemma KeepNew(refs0: seq<SessionRef>, refs: seq<SessionRef>, segs0: seq<Seg>, segs: seq<Seg>, shapes0: seq<string>, shapes: seq<string>,
                calls: map<CallId, Row>, heard: Heard, id: CallId, sight: Sighting, r: Row)
    requires RowsOk(refs0, segs0, shapes0, calls, heard) && refs0 <= refs && segs0 <= segs && shapes0 <= shapes
    requires Stores(segs, shapes, r.list, sight.line.segments) && r.count == |sight.line.segments| && r.primary == sight.line.primary
    requires r.session < |refs| && refs[r.session] == sight.session && r.ts == sight.ts && r.first == sight.first && r.early == sight.early
    requires id in calls ==> calls[id].session < |refs0| && r.copies == calls[id].copies + 1
                             && Lower(sight.first, sight.ts, sight.session.id, calls[id].first, calls[id].ts, refs0[calls[id].session].id)
    requires id !in calls ==> r.copies == 0
    ensures RowsOk(refs, segs, shapes, calls[id := r], heard[id := Copies(heard, id) + multiset{sight}])
  {
    hide RowOk, RowFits;
    RowsAppended(refs0, segs0, shapes0, refs, segs, shapes, calls, heard);
    StoredRow(refs, segs, shapes, r, sight);
    if id in calls {
      HeldFits(refs0, segs0, shapes0, calls, heard, id);
      TakesOver(refs0, segs0, shapes0, refs, segs, shapes, calls[id], heard[id], sight, r);
    } else {
      FirstCopy(refs, segs, shapes, sight, r);
    }
  }

  lemma StoredRow(refs: seq<SessionRef>, segs: seq<Seg>, shapes: seq<string>, r: Row, sight: Sighting)
    requires Stores(segs, shapes, r.list, sight.line.segments) && r.count == |sight.line.segments| && r.primary == sight.line.primary
    requires r.session < |refs| && refs[r.session] == sight.session && r.ts == sight.ts && r.first == sight.first && r.early == sight.early
    ensures RowFits(refs, segs, shapes, r) && SightingAt(refs, segs, shapes, r) == sight
  {
    forall j | r.list <= j < r.list + r.count
      ensures segs[j].shape < |shapes|
    {
      var segment := sight.line.segments[j - r.list];
    }
    assert LineOf(segs, shapes, r).segments == sight.line.segments;
  }

  lemma TakesOver(refs0: seq<SessionRef>, segs0: seq<Seg>, shapes0: seq<string>, refs: seq<SessionRef>, segs: seq<Seg>, shapes: seq<string>,
                  held: Row, copies: multiset<Sighting>, sight: Sighting, r: Row)
    requires RowOk(refs0, segs0, shapes0, held, copies)
    requires RowFits(refs, segs, shapes, r) && SightingAt(refs, segs, shapes, r) == sight && r.copies == held.copies + 1
    requires Lower(sight.first, sight.ts, sight.session.id, held.first, held.ts, refs0[held.session].id)
    ensures RowOk(refs, segs, shapes, r, copies + multiset{sight})
  {
    LeastAfter(SightingAt(refs0, segs0, shapes0, held), copies, sight);
  }

  lemma FirstCopy(refs: seq<SessionRef>, segs: seq<Seg>, shapes: seq<string>, sight: Sighting, r: Row)
    requires RowFits(refs, segs, shapes, r) && SightingAt(refs, segs, shapes, r) == sight && r.copies == 0
    ensures RowOk(refs, segs, shapes, r, multiset{} + multiset{sight})
  {
    LeastAlone(sight);
  }

  // ------------------------------------------------- links are shared ids

  lemma LinkedGrows(links0: set<(SessionRef, SessionRef)>, links: set<(SessionRef, SessionRef)>, refs0: seq<SessionRef>, refs: seq<SessionRef>,
                    x: SessionRef, holder: SessionRef)
    requires LinkedTo(links0, refs0, x, holder) && links0 <= links && refs0 <= refs
    ensures LinkedTo(links, refs, x, holder)
  {
    ConnectedMonotone(links0, links, x, holder);
  }

  lemma DenialsLinkedGrow(links0: set<(SessionRef, SessionRef)>, links: set<(SessionRef, SessionRef)>, refs0: seq<SessionRef>, refs: seq<SessionRef>,
                          denials: map<string, CorpusRows.Denial>, refused: Refused)
    requires DenialsLinked(links0, refs0, denials, refused) && links0 <= links && refs0 <= refs
    ensures DenialsLinked(links, refs, denials, refused)
  {
    hide LinkedTo;
    forall id, a | id in refused && a in refused[id] && id in denials
      ensures LinkedTo(links, refs, SessionOf(a), SessionOf(denials[id]))
    {
      LinkedGrows(links0, links, refs0, refs, SessionOf(a), SessionOf(denials[id]));
    }
  }

  lemma CallsLinkedGrow(links0: set<(SessionRef, SessionRef)>, links: set<(SessionRef, SessionRef)>, refs0: seq<SessionRef>, refs: seq<SessionRef>,
                        segs: seq<Seg>, shapes: seq<string>, calls: map<CallId, Row>, heard: Heard)
    requires CallsLinked(links0, refs0, calls, heard) && links0 <= links && refs0 <= refs && RowsOk(refs0, segs, shapes, calls, heard)
    ensures CallsLinked(links, refs, calls, heard)
  {
    hide LinkedTo, RowsOk;
    forall id, a | id in heard && a in heard[id] && id in calls && calls[id].session < |refs|
      ensures LinkedTo(links, refs, a.session, refs[calls[id].session])
    {
      HeldFits(refs0, segs, shapes, calls, heard, id);
      LinkedGrows(links0, links, refs0, refs, a.session, refs0[calls[id].session]);
    }
  }

  lemma SharingGrows(heard: Heard, refused: Refused, id: CallId, sight: Sighting)
    ensures Sharing(heard, refused) <= Sharing(heard[id := Copies(heard, id) + multiset{sight}], refused)
    ensures forall a <- Copies(heard, id) :: (a.session, sight.session) in Sharing(heard[id := Copies(heard, id) + multiset{sight}], refused)
  {
    hide CallSharing, DenialSharing;
    CallSharingGrows(heard, id, sight);
    forall a <- Copies(heard, id)
      ensures (a.session, sight.session) in CallSharing(heard[id := Copies(heard, id) + multiset{sight}])
    {
      CopyShares(heard, id, sight, a);
    }
  }

  lemma CopyShares(heard: Heard, id: CallId, sight: Sighting, a: Sighting)
    requires a in Copies(heard, id)
    ensures (a.session, sight.session) in CallSharing(heard[id := Copies(heard, id) + multiset{sight}])
  {
    var more := heard[id := Copies(heard, id) + multiset{sight}];
    assert a in more[id] && sight in more[id];
  }

  lemma CallSharingGrows(heard: Heard, id: CallId, sight: Sighting)
    ensures CallSharing(heard) <= CallSharing(heard[id := Copies(heard, id) + multiset{sight}])
  {
    var more := heard[id := Copies(heard, id) + multiset{sight}];
    forall e <- CallSharing(heard)
      ensures e in CallSharing(more)
    {
      var x, a, b :| x in heard && a in heard[x] && b in heard[x] && e == (a.session, b.session);
      assert a in more[x] && b in more[x];
    }
  }

  lemma HeldIsCopy(refs: seq<SessionRef>, segs: seq<Seg>, shapes: seq<string>, calls: map<CallId, Row>, heard: Heard, id: CallId)
    requires RowsOk(refs, segs, shapes, calls, heard) && id in calls
    ensures id in heard && calls[id].session < |refs| && exists a :: a in heard[id] && a.session == refs[calls[id].session]
  {
    HeldFits(refs, segs, shapes, calls, heard, id);
    var a := SightingAt(refs, segs, shapes, calls[id]);
    assert a in heard[id] && a.session == refs[calls[id].session];
  }

  /** After the held row's session and the new one are linked. */
  lemma LinksHeld(links0: set<(SessionRef, SessionRef)>, links: set<(SessionRef, SessionRef)>, refs0: seq<SessionRef>, refs: seq<SessionRef>,
                  segs: seq<Seg>, shapes: seq<string>, calls: map<CallId, Row>, heard: Heard, refused: Refused,
                  denials: map<string, CorpusRows.Denial>, id: CallId, sight: Sighting, held: Row)
    requires RowsOk(refs0, segs, shapes, calls, heard) && refs0 <= refs && id in calls && sight.session in refs
    requires calls[id].session < |refs0| && held.session == calls[id].session
    requires links0 <= Sharing(heard, refused) && links == links0 + {(refs0[held.session], sight.session)}
    requires CallsLinked(links0, refs0, calls, heard) && DenialsLinked(links0, refs0, denials, refused)
    ensures var more := heard[id := Copies(heard, id) + multiset{sight}];
            && links <= Sharing(more, refused)
            && CallsLinked(links, refs, calls[id := held], more) && DenialsLinked(links, refs, denials, refused)
  {
    hide Sharing, RowsOk, LinkedTo, DenialsLinked;
    SharingGrows(heard, refused, id, sight);
    HeldIsCopy(refs0, segs, shapes, calls, heard, id);
    DenialsLinkedGrow(links0, links, refs0, refs, denials, refused);
    CallsLinkedGrow(links0, links, refs0, refs, segs, shapes, calls, heard);
    var more := heard[id := Copies(heard, id) + multiset{sight}];
    LinkedNow(links, refs, refs0[held.session], sight.session);
    forall x: CallId, a: Sighting | x in more && a in more[x] && x in calls
      ensures calls[id := held][x].session < |refs| ==> LinkedTo(links, refs, a.session, refs[calls[id := held][x].session])
    {
      if x == id && a !in heard[id] {
        assert a == sight;
      }
    }
  }

  lemma LinkedNow(links: set<(SessionRef, SessionRef)>, refs: seq<SessionRef>, holder: SessionRef, x: SessionRef)
    requires (holder, x) in links && x in refs && holder in refs
    ensures LinkedTo(links, refs, x, holder) && LinkedTo(links, refs, holder, x)
  {
    assert Adjacent(links, holder, x) && Adjacent(links, x, holder);
    ConnectedLink(links, holder, x);
    ConnectedLink(links, x, holder);
  }

  /** When the new copy holds the row: everything linked to the old holder is
      linked to the new one. */
  lemma LinksNew(links0: set<(SessionRef, SessionRef)>, links: set<(SessionRef, SessionRef)>, refs0: seq<SessionRef>, refs: seq<SessionRef>,
                 segs: seq<Seg>, shapes: seq<string>, calls: map<CallId, Row>, heard: Heard, refused: Refused,
                 denials: map<string, CorpusRows.Denial>, id: CallId, sight: Sighting, r: Row)
    requires RowsOk(refs0, segs, shapes, calls, heard) && refs0 <= refs && r.session < |refs| && refs[r.session] == sight.session
    requires id in calls ==> calls[id].session < |refs0| && links == links0 + {(refs0[calls[id].session], sight.session)}
    requires id !in calls ==> links == links0
    requires links0 <= Sharing(heard, refused)
    requires CallsLinked(links0, refs0, calls, heard) && DenialsLinked(links0, refs0, denials, refused)
    ensures var more := heard[id := Copies(heard, id) + multiset{sight}];
            && links <= Sharing(more, refused)
            && CallsLinked(links, refs, calls[id := r], more) && DenialsLinked(links, refs, denials, refused)
  {
    hide Sharing, RowsOk, LinkedTo, DenialsLinked;
    SharingGrows(heard, refused, id, sight);
    assert calls.Keys == heard.Keys by {
      RowKeys(refs0, segs, shapes, calls, heard);
    }
    DenialsLinkedGrow(links0, links, refs0, refs, denials, refused);
    CallsLinkedGrow(links0, links, refs0, refs, segs, shapes, calls, heard);
    var more := heard[id := Copies(heard, id) + multiset{sight}];
    LinkedSelf(links, refs, sight.session);
    if id in calls {
      HeldIsCopy(refs0, segs, shapes, calls, heard, id);
      LinkedNow(links, refs, refs0[calls[id].session], sight.session);
    }
    forall x: CallId, a: Sighting | x in more && a in more[x] && x in calls[id := r] && calls[id := r][x].session < |refs|
      ensures LinkedTo(links, refs, a.session, refs[calls[id := r][x].session])
    {
      if x == id && a in Copies(heard, id) {
        LinkedChain(links, refs, a.session, refs0[calls[id].session], sight.session);
      }
    }
  }

  lemma RowKeys(refs: seq<SessionRef>, segs: seq<Seg>, shapes: seq<string>, calls: map<CallId, Row>, heard: Heard)
    requires RowsOk(refs, segs, shapes, calls, heard)
    ensures calls.Keys == heard.Keys
  {
  }

  lemma LinkedSelf(links: set<(SessionRef, SessionRef)>, refs: seq<SessionRef>, x: SessionRef)
    requires x in refs
    ensures LinkedTo(links, refs, x, x)
  {
    ConnectedSelf(links, x);
  }

  lemma LinkedChain(links: set<(SessionRef, SessionRef)>, refs: seq<SessionRef>, x: SessionRef, y: SessionRef, z: SessionRef)
    requires LinkedTo(links, refs, x, y) && LinkedTo(links, refs, y, z)
    ensures LinkedTo(links, refs, x, z)
  {
    ConnectedTransitive(links, x, y, z);
  }

  lemma DenialStays(denials: map<string, CorpusRows.Denial>, refused: Refused, id: string, d: CorpusRows.Denial)
    requires DenialsOk(denials, refused) && id in denials && !LowerDenial(d, denials[id])
    ensures DenialsOk(denials, refused[id := Copies(refused, id) + multiset{d}])
  {
    hide LeastDenial, LowerDenial;
    LeastDenialAfter(denials[id], refused[id], d);
  }

  lemma DenialKept(denials: map<string, CorpusRows.Denial>, refused: Refused, id: string, d: CorpusRows.Denial)
    requires DenialsOk(denials, refused) && (id in denials ==> LowerDenial(d, denials[id]))
    ensures DenialsOk(denials[id := d], refused[id := Copies(refused, id) + multiset{d}])
  {
    hide LeastDenial, LowerDenial;
    if id in denials {
      LeastDenialAfter(denials[id], refused[id], d);
    } else {
      LeastDenialAlone(d);
    }
  }

  lemma SharingGrowsByDenial(heard: Heard, refused: Refused, id: string, d: CorpusRows.Denial)
    ensures Sharing(heard, refused) <= Sharing(heard, refused[id := Copies(refused, id) + multiset{d}])
    ensures forall a <- Copies(refused, id) :: (SessionOf(a), SessionOf(d)) in Sharing(heard, refused[id := Copies(refused, id) + multiset{d}])
  {
    hide CallSharing, DenialSharing;
    DenialSharingGrows(refused, id, d);
    forall a <- Copies(refused, id)
      ensures (SessionOf(a), SessionOf(d)) in DenialSharing(refused[id := Copies(refused, id) + multiset{d}])
    {
      DenialShares(refused, id, d, a);
    }
  }

  lemma DenialShares(refused: Refused, id: string, d: CorpusRows.Denial, a: CorpusRows.Denial)
    requires a in Copies(refused, id)
    ensures (SessionOf(a), SessionOf(d)) in DenialSharing(refused[id := Copies(refused, id) + multiset{d}])
  {
    var more := refused[id := Copies(refused, id) + multiset{d}];
    assert a in more[id] && d in more[id];
  }

  lemma DenialSharingGrows(refused: Refused, id: string, d: CorpusRows.Denial)
    ensures DenialSharing(refused) <= DenialSharing(refused[id := Copies(refused, id) + multiset{d}])
  {
    var more := refused[id := Copies(refused, id) + multiset{d}];
    forall e <- DenialSharing(refused)
      ensures e in DenialSharing(more)
    {
      var x, a, b :| x in refused && a in refused[x] && b in refused[x] && e == (SessionOf(a), SessionOf(b));
      assert a in more[x] && b in more[x];
    }
  }

  lemma DenialStayLinks(links0: set<(SessionRef, SessionRef)>, links: set<(SessionRef, SessionRef)>, refs0: seq<SessionRef>, refs: seq<SessionRef>,
                        segs: seq<Seg>, shapes: seq<string>, calls: map<CallId, Row>, heard: Heard, refused: Refused,
                        denials: map<string, CorpusRows.Denial>, id: string, d: CorpusRows.Denial)
    requires RowsOk(refs0, segs, shapes, calls, heard) && DenialsOk(denials, refused) && refs0 <= refs && id in denials
    requires SessionOf(d) in refs && SessionOf(denials[id]) in refs
    requires links0 <= Sharing(heard, refused) && links == links0 + {(SessionOf(denials[id]), SessionOf(d))}
    requires CallsLinked(links0, refs0, calls, heard) && DenialsLinked(links0, refs0, denials, refused)
    ensures var more := refused[id := Copies(refused, id) + multiset{d}];
            && links <= Sharing(heard, more)
            && CallsLinked(links, refs, calls, heard) && DenialsLinked(links, refs, denials, more)
  {
    hide Sharing, RowsOk, LinkedTo, CallsLinked;
    SharingGrowsByDenial(heard, refused, id, d);
    assert denials[id] in refused[id];
    DenialsLinkedGrow(links0, links, refs0, refs, denials, refused);
    CallsLinkedGrow(links0, links, refs0, refs, segs, shapes, calls, heard);
    var more := refused[id := Copies(refused, id) + multiset{d}];
    LinkedNow(links, refs, SessionOf(denials[id]), SessionOf(d));
    forall x: string, a: CorpusRows.Denial | x in more && a in more[x] && x in denials
      ensures LinkedTo(links, refs, SessionOf(a), SessionOf(denials[x]))
    {
      if x == id && a !in refused[id] {
        assert a == d;
      }
    }
  }

  lemma DenialLinks(links0: set<(SessionRef, SessionRef)>, links: set<(SessionRef, SessionRef)>, refs0: seq<SessionRef>, refs: seq<SessionRef>,
                    segs: seq<Seg>, shapes: seq<string>, calls: map<CallId, Row>, heard: Heard, refused: Refused,
                    denials: map<string, CorpusRows.Denial>, id: string, d: CorpusRows.Denial)
    requires RowsOk(refs0, segs, shapes, calls, heard) && DenialsOk(denials, refused) && refs0 <= refs && SessionOf(d) in refs
    requires id in denials ==> SessionOf(denials[id]) in refs && links == links0 + {(SessionOf(denials[id]), SessionOf(d))}
    requires id !in denials ==> links == links0
    requires links0 <= Sharing(heard, refused)
    requires CallsLinked(links0, refs0, calls, heard) && DenialsLinked(links0, refs0, denials, refused)
    ensures var more := refused[id := Copies(refused, id) + multiset{d}];
            && links <= Sharing(heard, more)
            && CallsLinked(links, refs, calls, heard) && DenialsLinked(links, refs, denials[id := d], more)
  {
    hide Sharing, RowsOk, LinkedTo, CallsLinked;
    SharingGrowsByDenial(heard, refused, id, d);
    DenialsLinkedGrow(links0, links, refs0, refs, denials, refused);
    CallsLinkedGrow(links0, links, refs0, refs, segs, shapes, calls, heard);
    var more := refused[id := Copies(refused, id) + multiset{d}];
    LinkedSelf(links, refs, SessionOf(d));
    if id in denials {
      assert denials[id] in refused[id];
      LinkedNow(links, refs, SessionOf(denials[id]), SessionOf(d));
    }
    forall x: string, a: CorpusRows.Denial | x in more && a in more[x] && x in denials[id := d]
      ensures LinkedTo(links, refs, SessionOf(a), SessionOf(denials[id := d][x]))
    {
      if x == id && a in Copies(refused, id) {
        LinkedChain(links, refs, SessionOf(a), SessionOf(denials[id]), SessionOf(d));
      }
    }
  }
}
