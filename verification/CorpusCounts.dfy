/** The loops behind the report, each counting exactly what the view says. */
module CorpusCounts {
  import opened Latest
  import opened Ordering
  import opened CorpusRows
  import opened CorpusStore
  import opened CorpusViews
  import opened CorpusTimeline
  import opened CorpusAnswers
  import opened CorpusReport
  import opened Sorting

  // ---------------------------------------------------------------- denials

  ghost predicate TallyRight(since: Time, v: View, done: set<string>, tally: Tally)
    requires done <= v.denials.Keys
  {
    && (forall b: Bucket :: !b.Outside? ==> CountOf(tally, b) == |InBucket(since, v, done, b)|)
    && Outside !in tally && forall b <- tally.Keys :: tally[b] > 0
  }

  lemma TallyStep(since: Time, v: View, done: set<string>, id: string, tally: Tally)
    requires done <= v.denials.Keys && id in v.denials && id !in done && TallyRight(since, v, done, tally)
    ensures var b := BucketOf(since, v.denials[id]);
            TallyRight(since, v, done + {id}, if b.Outside? then tally else tally[b := CountOf(tally, b) + 1])
  {
    hide BucketOf, InBucket;
    var now := BucketOf(since, v.denials[id]);
    forall b: Bucket
      ensures |InBucket(since, v, done + {id}, b)| == |InBucket(since, v, done, b)| + if b == now then 1 else 0
    {
      BucketStep(since, v, done, id, b);
    }
  }

  lemma BucketStep(since: Time, v: View, done: set<string>, id: string, b: Bucket)
    requires done <= v.denials.Keys && id in v.denials && id !in done
    ensures |InBucket(since, v, done + {id}, b)| == |InBucket(since, v, done, b)| + if b == BucketOf(since, v.denials[id]) then 1 else 0
  {
    hide BucketOf;
    assert InBucket(since, v, done + {id}, b) ==
           if b == BucketOf(since, v.denials[id]) then InBucket(since, v, done, b) + {id} else InBucket(since, v, done, b);
  }

  lemma ActionsStep(since: Time, v: View, done: set<string>, id: string)
    requires done <= v.denials.Keys && id in v.denials
    ensures Actions(since, v, done + {id}) ==
            if BucketOf(since, v.denials[id]).Correction?
            then Actions(since, v, done) + {if v.denials[id].messageId != "" then v.denials[id].messageId else id}
            else Actions(since, v, done)
  {
    hide BucketOf;
    var more := Actions(since, v, done + {id});
    forall a | a in Actions(since, v, done)
      ensures a in more
    {
      var x :| x in done && BucketOf(since, v.denials[x]).Correction? && a == if v.denials[x].messageId != "" then v.denials[x].messageId else x;
      assert x in done + {id};
    }
    if BucketOf(since, v.denials[id]).Correction? {
      assert id in done + {id};
      assert (if v.denials[id].messageId != "" then v.denials[id].messageId else id) in more;
    }
  }

  lemma ScoredStep(since: Time, v: View, done: set<string>, id: string, scored: map<ScoredRef, ScoredRow>)
    requires done <= v.denials.Keys && id in v.denials && IsScored(since, v, done, scored)
    ensures IsScored(since, v, done + {id},
                     if Scores(since, v, id) && (RefOf(v, id) !in scored || RowLess(RowOf(v, id), scored[RefOf(v, id)]))
                     then scored[RefOf(v, id) := RowOf(v, id)] else scored)
  {
    hide Named, RefOf, RowOf, RowLess, IsScored, ScoredAt;
    var after := if Scores(since, v, id) && ScoredFirst(since, v, id, scored) then scored[RefOf(v, id) := RowOf(v, id)] else scored;
    forall ref
      ensures ScoredAt(since, v, done + {id}, after, ref)
    {
      ScoredOne(since, v, done, scored, ref);
      ScoredStepAt(since, v, done, id, scored, after, ref);
    }
    ScoredWhole(since, v, done + {id}, after);
  }

  predicate ScoredFirst(since: Time, v: View, id: string, scored: map<ScoredRef, ScoredRow>)
    requires id in v.denials && Scores(since, v, id)
  {
    RefOf(v, id) !in scored || RowLess(RowOf(v, id), scored[RefOf(v, id)])
  }

  lemma ScoredOne(since: Time, v: View, done: set<string>, scored: map<ScoredRef, ScoredRow>, ref: ScoredRef)
    requires done <= v.denials.Keys && IsScored(since, v, done, scored)
    ensures ScoredAt(since, v, done, scored, ref)
  {
  }

  lemma ScoredWhole(since: Time, v: View, done: set<string>, scored: map<ScoredRef, ScoredRow>)
    requires done <= v.denials.Keys && forall ref :: ScoredAt(since, v, done, scored, ref)
    ensures IsScored(since, v, done, scored)
  {
  }

  lemma ScoredStepAt(since: Time, v: View, done: set<string>, id: string, scored: map<ScoredRef, ScoredRow>, after: map<ScoredRef, ScoredRow>,
                     ref: ScoredRef)
    requires done <= v.denials.Keys && id in v.denials && ScoredAt(since, v, done, scored, ref)
    requires after == if Scores(since, v, id) && ScoredFirst(since, v, id, scored) then scored[RefOf(v, id) := RowOf(v, id)] else scored
    ensures ScoredAt(since, v, done + {id}, after, ref)
  {
    hide Named, Corrects, RefOf, RowOf, RowLess;
    assert id in done + {id};
    if ref in scored {
      var x :| x in done && Scores(since, v, x) && RefOf(v, x) == ref && RowOf(v, x) == scored[ref];
      assert x in done + {id};
    }
    forall x | x in done + {id} && Scores(since, v, x) && RefOf(v, x) == ref && ref in after
      ensures !RowLess(RowOf(v, x), after[ref])
    {
      RowLessTotal(after[ref], if ref in scored then scored[ref] else after[ref], RowOf(v, x));
      RowLessTotal(RowOf(v, x), RowOf(v, x), RowOf(v, x));
    }
  }

  lemma CorrectedStep(v: View, done: set<string>, id: string, corrected: set<string>)
    requires done <= v.denials.Keys && id in v.denials && IsCorrected(v, done, corrected)
    ensures IsCorrected(v, done + {id}, if Corrects(v, id) then corrected + {RefOf(v, id).key} else corrected)
  {
    hide Corrects, RefOf;
    forall key
      ensures CorrectedBy(v, done + {id}, key) <==> CorrectedBy(v, done, key) || (Corrects(v, id) && RefOf(v, id).key == key)
    {
      if x :| x in done && Corrects(v, x) && RefOf(v, x).key == key {
        assert x in done + {id};
      }
      assert id in done + {id};
    }
  }

  lemma NothingTallied(since: Time, v: View, seen: Span)
    requires IsSpan(CallTimes(v, v.kept.Keys), seen)
    ensures Tallied(since, v, {}, map[], {}, map[], {}, seen)
  {
    CallsSeen(since, v, seen);
    forall b: Bucket
      ensures InBucket(since, v, {}, b) == {}
    {
    }
  }

  /** The primary command of the call a denial names. */
  method NamedCommand(c: Corpus, id: string, d: CorpusRows.Denial) returns (named: Option<Segment>)
    requires c.Valid()
    ensures named == Named(ViewOf(c).kept, id, d)
  {
    hide ViewOf, Corpus.Linked, Corpus.Joined, Corpus.Kept;
    var call := CallId(CLAUDE, id);
    KeptKeys(c);
    if d.tool != "Bash" || call !in c.calls {
      return None;
    }
    KeptAt(c, call);
    var r := c.calls[call];
    if r.primary < 0 {
      return None;
    }
    var seg := c.segs[r.list + r.primary];
    named := Some(Segment(seg.key, c.shapes[seg.shape]));
  }

  lemma DenialTimesStep(since: Time, v: View, done: set<string>, id: string)
    requires done <= v.denials.Keys && id in v.denials
    ensures DenialTimes(since, v, done + {id}) ==
            if v.denials[id].ts >= since then DenialTimes(since, v, done) + {Milli(v.denials[id].ts)} else DenialTimes(since, v, done)
  {
    var more := DenialTimes(since, v, done + {id});
    assert id in done + {id};
    forall ts | ts in DenialTimes(since, v, done)
      ensures ts in more
    {
      var x :| x in done && v.denials[x].ts >= since && ts == Milli(v.denials[x].ts);
      assert x in done + {id};
    }
  }

  /** One more denial widens what was seen, if it is inside the window. */
  lemma DenialWidens(since: Time, v: View, done: set<string>, id: string, w: Span)
    requires done <= v.denials.Keys && id in v.denials && SeenBy(since, v, done, w)
    ensures SeenBy(since, v, done + {id}, if v.denials[id].ts >= since then Widened(w, Milli(v.denials[id].ts)) else w)
  {
    hide IsSpan, Widened, DenialTimes, CallTimes;
    var times := CallTimes(v, v.kept.Keys);
    DenialTimesStep(since, v, done, id);
    if v.denials[id].ts >= since {
      SpanWidens(times + DenialTimes(since, v, done), w, Milli(v.denials[id].ts));
      assert times + DenialTimes(since, v, done + {id}) == times + DenialTimes(since, v, done) + {Milli(v.denials[id].ts)};
    }
  }

  lemma CallsSeen(since: Time, v: View, w: Span)
    requires IsSpan(CallTimes(v, v.kept.Keys), w)
    ensures SeenBy(since, v, {}, w)
  {
    assert CallTimes(v, v.kept.Keys) + DenialTimes(since, v, {}) == CallTimes(v, v.kept.Keys);
  }

  /** What one denial does, said by its bucket and the command it names. */
  lemma DenialMeans(since: Time, v: View, id: string)
    requires id in v.denials
    ensures var d := v.denials[id];
            var named := Named(v.kept, id, d);
            && (BucketOf(since, d).Outside? <==> d.ts < since)
            && (Scores(since, v, id) ==> Corrects(v, id))
            && (Corrects(v, id) <==> named.Some? && !Classify(d).NotOne?)
            && (Scores(since, v, id) <==> named.Some? && BucketOf(since, d).Correction?)
            && (Corrects(v, id) ==> RefOf(v, id) == ScoredRef(SessionOf(d), named.value.key)
                                    && RowOf(v, id) == ScoredRow(Milli(d.ts), named.value.shape))
  {
    hide Named;
  }

  /** The loop has counted these denials. */
  ghost predicate Tallied(since: Time, v: View, done: set<string>, tally: Tally, actions: set<string>, scored: map<ScoredRef, ScoredRow>,
                          corrected: set<string>, when: Span)
    requires done <= v.denials.Keys
  {
    && TallyRight(since, v, done, tally) && actions == Actions(since, v, done) && IsScored(since, v, done, scored)
    && IsCorrected(v, done, corrected) && SeenBy(since, v, done, when)
  }

  /** All that one denial changes. */
  lemma DenialStep(since: Time, v: View, done: set<string>, id: string, tally: Tally, actions: set<string>, scored: map<ScoredRef, ScoredRow>,
                   corrected: set<string>, when: Span)
    requires done <= v.denials.Keys && id in v.denials && id !in done
    requires Tallied(since, v, done, tally, actions, scored, corrected, when)
    ensures var d := v.denials[id];
            var b, named := BucketOf(since, d), Named(v.kept, id, d);
            Tallied(since, v, done + {id},
                    if b.Outside? then tally else tally[b := CountOf(tally, b) + 1],
                    if b.Correction? then actions + {if d.messageId != "" then d.messageId else id} else actions,
                    if b.Correction? && named.Some? then ScoredWith(scored, d, named.value) else scored,
                    if named.Some? && !Classify(d).NotOne? then corrected + {named.value.key} else corrected,
                    if b.Outside? then when else Widened(when, Milli(d.ts)))
  {
    hide TallyRight, Actions, IsScored, IsCorrected, SeenBy, BucketOf, Classify, Corrects, Scores, RefOf, RowOf, RowLess, Named, Widened, CountOf;
    TallyStep(since, v, done, id, tally);
    ActionsStep(since, v, done, id);
    ScoredStep(since, v, done, id, scored);
    CorrectedStep(v, done, id, corrected);
    DenialWidens(since, v, done, id, when);
    DenialMeans(since, v, id);
  }

  /** The rows with this denial's, if it is the first of its session and key. */
  function ScoredWith(scored: map<ScoredRef, ScoredRow>, d: CorpusRows.Denial, seg: Segment): map<ScoredRef, ScoredRow> {
    var ref, row := ScoredRef(SessionOf(d), seg.key), ScoredRow(Milli(d.ts), seg.shape);
    if ref !in scored || RowLess(row, scored[ref]) then scored[ref := row] else scored
  }

  /** One turn of the loop. */
  method TallyOne(c: Corpus, ghost done: set<string>, id: string, tally: Tally, actions: set<string>, scored: map<ScoredRef, ScoredRow>,
                  corrected: set<string>, when: Span)
    returns (tally': Tally, actions': set<string>, scored': map<ScoredRef, ScoredRow>, corrected': set<string>, when': Span)
    requires c.Valid() && done <= ViewOf(c).denials.Keys && id in ViewOf(c).denials && id !in done
    requires Tallied(c.since, ViewOf(c), done, tally, actions, scored, corrected, when)
    ensures Tallied(c.since, ViewOf(c), done + {id}, tally', actions', scored', corrected', when')
  {
    hide Tallied, IsSpan, CallTimes, Widened, BucketOf, Classify, CountOf, Milli, ScoredWith, ViewOf, Named, Corpus.Linked, Corpus.Joined, Corpus.Kept;
    tally', actions', scored', corrected', when' := tally, actions, scored, corrected, when;
    DenialsInView(c);
    var d := c.denials[id];
    var named := NamedCommand(c, id, d);
    DenialStep(c.since, ViewOf(c), done, id, tally, actions, scored, corrected, when);
    var bucket := BucketOf(c.since, d);
    if named.Some? && !Classify(d).NotOne? {
      corrected' := corrected + {named.value.key};
    }
    if bucket.Outside? {
      return;
    }
    when' := Widened(when, Milli(d.ts));
    tally' := tally[bucket := CountOf(tally, bucket) + 1];
    if bucket.Correction? {
      actions' := actions + {if d.messageId != "" then d.messageId else id};
      if named.Some? {
        scored' := ScoredWith(scored, d, named.value);
      }
    }
  }

  method TallyDenials(c: Corpus, seen: Span)
    returns (tally: Tally, actions: set<string>, scored: map<ScoredRef, ScoredRow>, corrected: set<string>, when: Span)
    requires c.Valid() && IsSpan(CallTimes(ViewOf(c), ViewOf(c).kept.Keys), seen)
    ensures var v := ViewOf(c);
            Tallied(c.since, v, v.denials.Keys, tally, actions, scored, corrected, when)
  {
    hide Tallied, IsSpan, CallTimes, ViewOf, Corpus.Linked, Corpus.Joined, Corpus.Kept;
    DenialsInView(c);
    tally, actions, scored, corrected, when := map[], {}, map[], {}, seen;
    NothingTallied(c.since, ViewOf(c), seen);
    var rest := c.denials.Keys;
    ghost var done: set<string> := {};
    while rest != {}
      invariant rest <= c.denials.Keys && done == c.denials.Keys - rest
      invariant c.denials == ViewOf(c).denials && Tallied(c.since, ViewOf(c), done, tally, actions, scored, corrected, when)
      decreases |rest|
    {
      var id :| id in rest;
      tally, actions, scored, corrected, when := TallyOne(c, done, id, tally, actions, scored, corrected, when);
      rest, done := rest - {id}, done + {id};
    }
    assert done == c.denials.Keys;
  }

  // ---------------------------------------------------------------- repeats

  /** Adding one element to a filtered set. */
  lemma AddOne<T>(before: set<T>, after: set<T>, x: T, taken: bool)
    requires x !in before && after == if taken then before + {x} else before
    ensures |after| == |before| + if taken then 1 else 0
  {
  }

  lemma EligibleStep(v: View, scored: map<ScoredRef, ScoredRow>, done: set<ScoredRef>, ref: ScoredRef)
    requires done <= scored.Keys && ref in scored && ref !in done
    ensures |Eligible(v, scored, done + {ref})| == |Eligible(v, scored, done)| + if SessionLater(v, ref.session, scored[ref].at) then 1 else 0
  {
    hide SessionLater;
    AddOne(Eligible(v, scored, done), Eligible(v, scored, done + {ref}), ref, SessionLater(v, ref.session, scored[ref].at));
  }

  lemma SameCommandStep(v: View, scored: map<ScoredRef, ScoredRow>, done: set<ScoredRef>, ref: ScoredRef)
    requires done <= scored.Keys && ref in scored && ref !in done
    ensures |SameCommand(v, scored, done + {ref})| == |SameCommand(v, scored, done)|
            + if SessionLater(v, ref.session, scored[ref].at) && Asked(v, ref.key) && KeyLater(v, ref.key, ref.session, scored[ref].at) then 1 else 0
  {
    hide SessionLater, Asked, KeyLater;
    AddOne(SameCommand(v, scored, done), SameCommand(v, scored, done + {ref}), ref,
           SessionLater(v, ref.session, scored[ref].at) && Asked(v, ref.key) && KeyLater(v, ref.key, ref.session, scored[ref].at));
  }

  lemma SameShapeStep(v: View, scored: map<ScoredRef, ScoredRow>, done: set<ScoredRef>, ref: ScoredRef)
    requires done <= scored.Keys && ref in scored && ref !in done
    ensures |SameShape(v, scored, done + {ref})| == |SameShape(v, scored, done)|
            + if SessionLater(v, ref.session, scored[ref].at) && scored[ref].shape != "" && ShapeLater(v, scored[ref].shape, ref.session, scored[ref].at)
              then 1 else 0
  {
    hide SessionLater, ShapeLater;
    AddOne(SameShape(v, scored, done), SameShape(v, scored, done + {ref}), ref,
           SessionLater(v, ref.session, scored[ref].at) && scored[ref].shape != "" && ShapeLater(v, scored[ref].shape, ref.session, scored[ref].at));
  }

  lemma PairStep(v: View, pairs: map<ScoredRef, Millis>, done: set<ScoredRef>, ref: ScoredRef)
    requires done <= pairs.Keys && ref in pairs && ref !in done
    ensures var e := SessionLater(v, ref.session, pairs[ref]);
            && |LaterPairs(v, pairs, done + {ref})| == |LaterPairs(v, pairs, done)| + (if e then 1 else 0)
            && |RepeatedPairs(v, pairs, done + {ref})| == |RepeatedPairs(v, pairs, done)|
               + (if e && Asked(v, ref.key) && KeyLater(v, ref.key, ref.session, pairs[ref]) then 1 else 0)
  {
    hide SessionLater, Asked, KeyLater;
    var e := SessionLater(v, ref.session, pairs[ref]);
    AddOne(LaterPairs(v, pairs, done), LaterPairs(v, pairs, done + {ref}), ref, e);
    AddOne(RepeatedPairs(v, pairs, done), RepeatedPairs(v, pairs, done + {ref}), ref,
           e && Asked(v, ref.key) && KeyLater(v, ref.key, ref.session, pairs[ref]));
  }

  /** A scored session and shape are ones the corpus has numbered. */
  lemma ScoredIsNumbered(c: Corpus, scored: map<ScoredRef, ScoredRow>, ref: ScoredRef)
    requires c.Valid() && IsScored(c.since, ViewOf(c), c.denials.Keys, scored) && ref in scored
    ensures ref.session in c.index && scored[ref].shape in c.shapeIds
  {
    hide ViewOf, Corpus.Linked, Corpus.Joined, Corpus.Kept, RowLess, IsScored, Named;
    var v := ViewOf(c);
    DenialsInView(c);
    ScoredOne(c.since, v, c.denials.Keys, scored, ref);
    var id :| id in c.denials && Scores(c.since, v, id) && RefOf(v, id) == ref && RowOf(v, id) == scored[ref];
    DenialSession(c, id);
    NamedShape(c, id);
  }

  lemma NamedShape(c: Corpus, id: string)
    requires c.Valid() && id in c.denials && Named(ViewOf(c).kept, id, c.denials[id]).Some?
    ensures Named(ViewOf(c).kept, id, c.denials[id]).value.shape in c.shapeIds
  {
    hide ViewOf, Corpus.Linked, Corpus.Joined, Corpus.Kept;
    KeptKeys(c);
    KeptAt(c, CallId(CLAUDE, id));
    var r := c.calls[CallId(CLAUDE, id)];
    ShapeKnown(c, c.segs[r.list + r.primary].shape);
  }

  lemma ShapeKnown(c: Corpus, n: nat)
    requires c.Kept() && n < |c.shapes|
    ensures c.shapes[n] in c.shapeIds
  {
  }

  lemma DenialSession(c: Corpus, id: string)
    requires c.Valid() && id in c.denials
    ensures SessionOf(c.denials[id]) in c.index
  {
    hide HeardIn, RefusedIn, RowsOk, ShapesOk, EventsIn;
    var refused := RefusedIn(c.denialLog);
    assert LeastDenial(c.denials[id], refused[id]);
    assert LinkedTo(c.links, c.refs, SessionOf(c.denials[id]), SessionOf(c.denials[id]));
  }

  lemma NumberedShape(c: Corpus, shape: string)
    requires c.Kept() && shape in c.shapeIds
    ensures c.shapeIds[shape] < |c.shapes| && c.shapes[c.shapeIds[shape]] == shape && (c.shapeIds[shape] == 0 <==> shape == "")
  {
  }

  lemma PrintingStep(scored: map<ScoredRef, ScoredRow>, before: set<ScoredRef>, after: set<ScoredRef>, ref: ScoredRef, taken: bool, shape: string)
    requires ref in scored && ref !in before && after == if taken then before + {ref} else before
    ensures Printing(scored, after, shape) ==
            if taken && PrintedShape(scored[ref]) == shape then Printing(scored, before, shape) + {ref} else Printing(scored, before, shape)
    ensures |Printing(scored, after, shape)| == |Printing(scored, before, shape)| + if taken && PrintedShape(scored[ref]) == shape then 1 else 0
  {
    hide PrintedShape;
    AddOne(Printing(scored, before, shape), Printing(scored, after, shape), ref, taken && PrintedShape(scored[ref]) == shape);
  }

  /** A pattern with one more row counted in. */
  function Noted(patterns: map<string, Pattern>, shape: string, command: bool, same: bool): map<string, Pattern> {
    var p := if shape in patterns then patterns[shape] else Pattern(shape, 0, 0);
    patterns[shape := Pattern(p.shape, p.sameCommand + (if command then 1 else 0), p.sameShape + (if same then 1 else 0))]
  }

  lemma RowSets(v: View, scored: map<ScoredRef, ScoredRow>, done: set<ScoredRef>, ref: ScoredRef, later: bool, command: bool, same: bool)
    requires done <= scored.Keys && ref in scored && ref !in done
    requires later <==> SessionLater(v, ref.session, scored[ref].at)
    requires command <==> later && Asked(v, ref.key) && KeyLater(v, ref.key, ref.session, scored[ref].at)
    requires same <==> later && scored[ref].shape != "" && ShapeLater(v, scored[ref].shape, ref.session, scored[ref].at)
    ensures Eligible(v, scored, done + {ref}) == if later then Eligible(v, scored, done) + {ref} else Eligible(v, scored, done)
    ensures SameCommand(v, scored, done + {ref}) == if command then SameCommand(v, scored, done) + {ref} else SameCommand(v, scored, done)
    ensures SameShape(v, scored, done + {ref}) == if same then SameShape(v, scored, done) + {ref} else SameShape(v, scored, done)
    ensures ref !in Eligible(v, scored, done) && ref !in SameCommand(v, scored, done) && ref !in SameShape(v, scored, done)
    ensures SameCommand(v, scored, done) <= Eligible(v, scored, done) && SameShape(v, scored, done) <= Eligible(v, scored, done)
  {
    hide SessionLater, Asked, KeyLater, ShapeLater;
  }

  lemma NoneOfNone(scored: map<ScoredRef, ScoredRow>, some: set<ScoredRef>, part: set<ScoredRef>, shape: string)
    requires part <= some && Printing(scored, some, shape) == {}
    ensures Printing(scored, part, shape) == {}
  {
    assert Printing(scored, part, shape) <= Printing(scored, some, shape);
  }

  lemma PatternsStep(v: View, scored: map<ScoredRef, ScoredRow>, done: set<ScoredRef>, ref: ScoredRef, patterns: map<string, Pattern>,
                     later: bool, command: bool, same: bool)
    requires done <= scored.Keys && ref in scored && ref !in done && ArePatterns(v, scored, done, patterns)
    requires later <==> SessionLater(v, ref.session, scored[ref].at)
    requires command <==> later && Asked(v, ref.key) && KeyLater(v, ref.key, ref.session, scored[ref].at)
    requires same <==> later && scored[ref].shape != "" && ShapeLater(v, scored[ref].shape, ref.session, scored[ref].at)
    ensures ArePatterns(v, scored, done + {ref}, if later then Noted(patterns, PrintedShape(scored[ref]), command, same) else patterns)
  {
    hide SessionLater, Asked, KeyLater, ShapeLater, PatternAt, Noted, PrintedShape;
    var after := if later then Noted(patterns, PrintedShape(scored[ref]), command, same) else patterns;
    forall shape: string
      ensures PatternAt(v, scored, done + {ref}, after, shape)
    {
      PatternHolds(v, scored, done, patterns, shape);
      RowSets(v, scored, done, ref, later, command, same);
      PatternStep(v, scored, done, ref, patterns, shape, later, command, same);
    }
    PatternsHold(v, scored, done + {ref}, after);
  }

  lemma PatternHolds(v: View, scored: map<ScoredRef, ScoredRow>, done: set<ScoredRef>, patterns: map<string, Pattern>, shape: string)
    requires done <= scored.Keys && ArePatterns(v, scored, done, patterns)
    ensures PatternAt(v, scored, done, patterns, shape)
  {
  }

  lemma PatternsHold(v: View, scored: map<ScoredRef, ScoredRow>, done: set<ScoredRef>, patterns: map<string, Pattern>)
    requires done <= scored.Keys && forall shape :: PatternAt(v, scored, done, patterns, shape)
    ensures ArePatterns(v, scored, done, patterns)
  {
  }

  lemma PatternStep(v: View, scored: map<ScoredRef, ScoredRow>, done: set<ScoredRef>, ref: ScoredRef, patterns: map<string, Pattern>, shape: string,
                    later: bool, command: bool, same: bool)
    requires done <= scored.Keys && ref in scored && ref !in done && PatternAt(v, scored, done, patterns, shape)
    requires Eligible(v, scored, done + {ref}) == if later then Eligible(v, scored, done) + {ref} else Eligible(v, scored, done)
    requires SameCommand(v, scored, done + {ref}) == if command then SameCommand(v, scored, done) + {ref} else SameCommand(v, scored, done)
    requires SameShape(v, scored, done + {ref}) == if same then SameShape(v, scored, done) + {ref} else SameShape(v, scored, done)
    requires ref !in Eligible(v, scored, done) && ref !in SameCommand(v, scored, done) && ref !in SameShape(v, scored, done)
    requires SameCommand(v, scored, done) <= Eligible(v, scored, done) && SameShape(v, scored, done) <= Eligible(v, scored, done)
    requires (command ==> later) && (same ==> later)
    ensures PatternAt(v, scored, done + {ref}, if later then Noted(patterns, PrintedShape(scored[ref]), command, same) else patterns, shape)
  {
    var more, printed := done + {ref}, PrintedShape(scored[ref]);
    var e, c, s := Eligible(v, scored, done), SameCommand(v, scored, done), SameShape(v, scored, done);
    hide Eligible, SameCommand, SameShape, Printing, PrintedShape, PatternIs, Noted;
    PrintingStep(scored, e, Eligible(v, scored, more), ref, later, shape);
    PrintingStep(scored, c, SameCommand(v, scored, more), ref, command, shape);
    PrintingStep(scored, s, SameShape(v, scored, more), ref, same, shape);
    if Printing(scored, e, shape) == {} {
      NoneOfNone(scored, e, c, shape);
      NoneOfNone(scored, e, s, shape);
    }
    NotedMeans(patterns, shape, printed, Printing(scored, e, shape), |Printing(scored, c, shape)|, |Printing(scored, s, shape)|, ref, later, command, same);
  }

  lemma NotedMeans(patterns: map<string, Pattern>, shape: string, printed: string, rows: set<ScoredRef>, c: nat, s: nat, ref: ScoredRef,
                   later: bool, command: bool, same: bool)
    requires PatternIs(patterns, shape, rows, c, s) && (rows == {} ==> c == 0 && s == 0) && (command ==> later) && (same ==> later)
    ensures PatternIs(if later then Noted(patterns, printed, command, same) else patterns, shape,
                      if later && printed == shape then rows + {ref} else rows,
                      c + (if command && printed == shape then 1 else 0), s + (if same && printed == shape then 1 else 0))
  {
  }

  // -------------------------------------------------------------- top patterns

  lemma AheadOrders(a: Pattern, b: Pattern, c: Pattern)
    ensures !(PatternLess(a, b) && PatternLess(b, a)) && (a != b ==> PatternLess(a, b) || PatternLess(b, a))
    ensures !PatternLess(b, a) && !PatternLess(c, b) ==> !PatternLess(c, a)
  {
    LessTotal(a.shape, b.shape);
    LessTotal(b.shape, c.shape);
    if Less(a.shape, b.shape) {
      LessAsymmetric(a.shape, b.shape);
    }
    if Less(b.shape, a.shape) {
      LessAsymmetric(b.shape, a.shape);
    }
    if Less(c.shape, a.shape) && Less(a.shape, b.shape) {
      LessTransitive(c.shape, a.shape, b.shape);
    }
  }

  lemma AheadBehaves(all: seq<Pattern>)
    ensures Behaves(all, Ahead())
  {
    hide PatternLess;
    forall a, b, c
      ensures !(Ahead()(a, b) && Ahead()(b, a))
      ensures !Ahead()(b, a) && !Ahead()(c, b) ==> !Ahead()(c, a)
    {
      AheadOrders(a, b, c);
    }
  }

  lemma ArrangedAscends(all: seq<Pattern>, order: seq<nat>, shown: set<Pattern>)
    requires IsOrder(order, |all|) && InOrder(all, Ahead(), order) && multiset(all) == multiset(shown)
    requires multiset(Arranged(all, order)) == multiset(all)
    ensures Ascends(Arranged(all, order), Ahead())
  {
    hide PatternLess;
    var sorted := Arranged(all, order);
    forall j, k | 0 <= j < k < |sorted|
      ensures Ahead()(sorted[j], sorted[k]) && !Ahead()(sorted[k], sorted[j])
    {
      assert !Ahead()(all[order[k]], all[order[j]]);
      AheadOrders(sorted[j], sorted[k], sorted[j]);
      NoRepeat(sorted, shown, j, k);
    }
  }

  lemma NoRepeat<T>(s: seq<T>, shown: set<T>, j: nat, k: nat)
    requires multiset(s) == multiset(shown) && j < k < |s|
    ensures s[j] != s[k]
  {
    assert s == s[..j] + [s[j]] + s[j + 1..k] + [s[k]] + s[k + 1..];
    assert multiset(s)[s[j]] <= 1;
  }

  lemma ShownStep(patterns: map<string, Pattern>, done: set<string>, shape: string)
    requires shape in patterns && shape !in done && (forall s <- patterns.Keys :: patterns[s].shape == s)
    ensures ShownIn(patterns, done + {shape}) == if Shown(patterns[shape]) then ShownIn(patterns, done) + {patterns[shape]} else ShownIn(patterns, done)
    ensures patterns[shape] !in ShownIn(patterns, done)
  {
    hide Shown;
    assert shape in done + {shape};
    forall p | p in ShownIn(patterns, done)
      ensures p in ShownIn(patterns, done + {shape}) && p != patterns[shape]
    {
      var s :| s in done && s in patterns && Shown(patterns[s]) && p == patterns[s];
      assert s in done + {shape};
    }
  }

  /** The patterns that came back, most repeated first, ten at most. */
  method TopPatterns(patterns: map<string, Pattern>) returns (top: seq<Pattern>)
    requires forall s <- patterns.Keys :: patterns[s].shape == s
    ensures IsTop(patterns, top)
  {
    hide Shown, ShownIn, PatternLess, Ascends, InOrder, Behaves;
    var all: seq<Pattern> := [];
    var rest := patterns.Keys;
    ghost var done: set<string> := {};
    NoneShown(patterns);
    while rest != {}
      invariant rest <= patterns.Keys && done == patterns.Keys - rest
      invariant multiset(all) == multiset(ShownIn(patterns, done))
      decreases |rest|
    {
      var shape :| shape in rest;
      rest := rest - {shape};
      ShownStep(patterns, done, shape);
      done := done + {shape};
      if Shown(patterns[shape]) {
        all := all + [patterns[shape]];
      }
    }
    assert done == patterns.Keys;
    var order := Sorting.Sort(all, Ahead());
    AheadBehaves(all);
    ArrangedAscends(all, order, ShownIn(patterns, patterns.Keys));
    var sorted := Arranged(all, order);
    assert IsListing(patterns, sorted);
    top := if |sorted| <= MAX_TOP then sorted else sorted[..MAX_TOP];
  }

  lemma NoneShown(patterns: map<string, Pattern>)
    ensures multiset(ShownIn(patterns, {})) == multiset{}
  {
    assert ShownIn(patterns, {}) == {};
  }

  lemma PatternsAreNamed(v: View, scored: map<ScoredRef, ScoredRow>, patterns: map<string, Pattern>)
    requires ArePatterns(v, scored, scored.Keys, patterns)
    ensures forall s <- patterns.Keys :: patterns[s].shape == s
  {
    hide Printing, Eligible, SameCommand, SameShape;
    forall s <- patterns.Keys
      ensures patterns[s].shape == s
    {
      assert PatternAt(v, scored, scored.Keys, patterns, s);
    }
  }

  method CountRepeats(c: Corpus, t: Timeline, ghost start: seq<int>, scored: map<ScoredRef, ScoredRow>)
    returns (eligible: nat, sameCommand: nat, sameShape: nat, top: seq<Pattern>)
    requires Right(c, start, t) && IsScored(c.since, ViewOf(c), c.denials.Keys, scored)
    modifies c`parent
    ensures Right(c, start, t) && ViewOf(c) == old(ViewOf(c))
    ensures var v := ViewOf(c);
            && eligible == |Eligible(v, scored, scored.Keys)| && sameCommand == |SameCommand(v, scored, scored.Keys)|
            && sameShape == |SameShape(v, scored, scored.Keys)|
            && exists patterns :: ArePatterns(v, scored, scored.Keys, patterns) && IsTop(patterns, top)
  {
    hide ArePatterns, IsTop, PrintedShape, ViewOf, TimelineOk, SessionLater, KeyLater, ShapeLater, Asked, Corpus.Linked, Corpus.Joined, Corpus.Kept, IsScored, Eligible, SameCommand, SameShape, Numbers;
    ghost var v := ViewOf(c);
    eligible, sameCommand, sameShape := 0, 0, 0;
    var patterns: map<string, Pattern> := map[];
    NoRepeats(v, scored);
    var rest := scored.Keys;
    ghost var done: set<ScoredRef> := {};
    while rest != {}
      invariant rest <= scored.Keys && done == scored.Keys - rest && Right(c, start, t) && ViewOf(c) == v
      invariant eligible == |Eligible(v, scored, done)| && sameCommand == |SameCommand(v, scored, done)|
      invariant sameShape == |SameShape(v, scored, done)| && ArePatterns(v, scored, done, patterns)
      decreases |rest|
    {
      var ref :| ref in rest;
      rest := rest - {ref};
      ghost var counted := done;
      EligibleStep(v, scored, done, ref);
      SameCommandStep(v, scored, done, ref);
      SameShapeStep(v, scored, done, ref);
      done := done + {ref};
      var row := scored[ref];
      var later, command, shape := Ask(c, t, start, scored, ref);
      PatternsStep(v, scored, counted, ref, patterns, later, later && command, later && shape);
      if later {
        eligible := eligible + 1;
        patterns := Noted(patterns, PrintedShape(row), command, shape);
        if command {
          sameCommand := sameCommand + 1;
        }
        if shape {
          sameShape := sameShape + 1;
        }
      }
    }
    assert done == scored.Keys;
    PatternsAreNamed(v, scored, patterns);
    top := TopPatterns(patterns);
  }

  lemma NoRepeats(v: View, scored: map<ScoredRef, ScoredRow>)
    ensures Eligible(v, scored, {}) == {} && SameCommand(v, scored, {}) == {} && SameShape(v, scored, {}) == {}
    ensures ArePatterns(v, scored, {}, map[])
  {
    assert Eligible(v, scored, {}) == {};
  }

  /** The three questions about one scored row. */
  method Ask(c: Corpus, t: Timeline, ghost start: seq<int>, scored: map<ScoredRef, ScoredRow>, ref: ScoredRef)
    returns (later: bool, command: bool, shape: bool)
    requires Right(c, start, t) && IsScored(c.since, ViewOf(c), c.denials.Keys, scored) && ref in scored
    modifies c`parent
    ensures Right(c, start, t) && ViewOf(c) == old(ViewOf(c))
    ensures later <==> SessionLater(ViewOf(c), ref.session, scored[ref].at)
    ensures later ==> (command <==> Asked(ViewOf(c), ref.key) && KeyLater(ViewOf(c), ref.key, ref.session, scored[ref].at))
    ensures later ==> (shape <==> scored[ref].shape != "" && ShapeLater(ViewOf(c), scored[ref].shape, ref.session, scored[ref].at))
  {
    hide ViewOf, TimelineOk, SessionLater, KeyLater, ShapeLater, Asked, Corpus.Linked, Corpus.Joined, Corpus.Kept, IsScored, Numbers;
    ScoredIsNumbered(c, scored, ref);
    NumberedShape(c, scored[ref].shape);
    var s := c.index[ref.session];
    RefAt(c.index, c.refs, c.parent, ref.session);
    command, shape := false, false;
    later := HasLater(c, t, start, s, scored[ref].at);
    if !later {
      return;
    }
    command := AnyLaterKey(c, t, start, ref.key, s, scored[ref].at);
    var n := c.shapeIds[scored[ref].shape];
    if n != 0 {
      shape := AnyLaterShape(c, t, start, n, s, scored[ref].at);
    }
  }

  // ---------------------------------------------------------------- baseline

  lemma PairsStep(v: View, corrected: set<string>, done: set<CallId>, id: CallId, pairs: map<ScoredRef, Millis>)
    requires done <= v.kept.Keys && id in v.kept && IsPairs(v, corrected, done, pairs)
    ensures var s := v.kept[id];
            IsPairs(v, corrected, done + {id},
                    if Pairs(s) && PairRef(s).key !in corrected && (PairRef(s) !in pairs || s.ts < pairs[PairRef(s)])
                    then pairs[PairRef(s) := s.ts] else pairs)
  {
    hide PairRef;
    var s := v.kept[id];
    var after := if Pairs(s) && PairRef(s).key !in corrected && (PairRef(s) !in pairs || s.ts < pairs[PairRef(s)])
                 then pairs[PairRef(s) := s.ts] else pairs;
    assert id in done + {id};
    forall ref
      ensures PairAt(v, corrected, done + {id}, after, ref)
    {
      assert PairAt(v, corrected, done, pairs, ref);
      if ref in pairs {
        var x :| x in done && Pairs(v.kept[x]) && PairRef(v.kept[x]) == ref && v.kept[x].ts == pairs[ref];
        assert x in done + {id};
      }
    }
  }

  lemma NoPairs(v: View, corrected: set<string>)
    ensures IsPairs(v, corrected, {}, map[])
  {
  }

  /** One turn of the loop. */
  method TakePair(c: Corpus, corrected: set<string>, ghost done: set<CallId>, id: CallId, pairs: map<ScoredRef, Millis>)
    returns (pairs': map<ScoredRef, Millis>)
    requires c.Valid() && done <= ViewOf(c).kept.Keys && id in c.calls && IsPairs(ViewOf(c), corrected, done, pairs)
    ensures done + {id} <= ViewOf(c).kept.Keys && IsPairs(ViewOf(c), corrected, done + {id}, pairs')
  {
    hide ViewOf, Corpus.Linked, Corpus.Joined, Corpus.Kept, IsPairs;
    KeptKeys(c);
    KeptAt(c, id);
    PairsStep(ViewOf(c), corrected, done, id, pairs);
    pairs' := pairs;
    var r := c.calls[id];
    if r.early || r.primary < 0 || c.segs[r.list + r.primary].key in corrected {
      return;
    }
    var ref := ScoredRef(c.refs[r.session], c.segs[r.list + r.primary].key);
    if ref !in pairs || r.ts < pairs[ref] {
      pairs' := pairs[ref := r.ts];
    }
  }

  method TakePairs(c: Corpus, corrected: set<string>) returns (pairs: map<ScoredRef, Millis>)
    requires c.Valid()
    ensures IsPairs(ViewOf(c), corrected, c.calls.Keys, pairs)
  {
    hide ViewOf, Corpus.Linked, Corpus.Joined, Corpus.Kept, IsPairs;
    ghost var v := ViewOf(c);
    KeptKeys(c);
    pairs := map[];
    NoPairs(v, corrected);
    var rest := c.calls.Keys;
    ghost var done: set<CallId> := {};
    while rest != {}
      invariant rest <= c.calls.Keys && done == c.calls.Keys - rest && IsPairs(v, corrected, done, pairs)
      decreases |rest|
    {
      var id :| id in rest;
      rest := rest - {id};
      pairs := TakePair(c, corrected, done, id, pairs);
      done := done + {id};
    }
    assert done == c.calls.Keys;
  }

  lemma PairIsNumbered(c: Corpus, corrected: set<string>, pairs: map<ScoredRef, Millis>, ref: ScoredRef)
    requires c.Valid() && IsPairs(ViewOf(c), corrected, c.calls.Keys, pairs) && ref in pairs
    ensures ref.session in c.index
  {
    hide ViewOf, Corpus.Joined, Corpus.Kept;
    var v := ViewOf(c);
    KeptKeys(c);
    assert PairAt(v, corrected, c.calls.Keys, pairs, ref);
    var id :| id in c.calls && Pairs(v.kept[id]) && PairRef(v.kept[id]) == ref;
    KeptAt(c, id);
  }

  method CountBaseline(c: Corpus, t: Timeline, ghost start: seq<int>, corrected: set<string>, pairs: map<ScoredRef, Millis>)
    returns (laterPairs: nat, repeated: nat)
    requires Right(c, start, t) && IsPairs(ViewOf(c), corrected, c.calls.Keys, pairs)
    modifies c`parent
    ensures Right(c, start, t) && ViewOf(c) == old(ViewOf(c))
    ensures laterPairs == |LaterPairs(ViewOf(c), pairs, pairs.Keys)| && repeated == |RepeatedPairs(ViewOf(c), pairs, pairs.Keys)|
  {
    hide ViewOf, TimelineOk, SessionLater, KeyLater, Asked, Corpus.Linked, Corpus.Joined, Corpus.Kept, IsPairs, LaterPairs, RepeatedPairs, Numbers;
    ghost var v := ViewOf(c);
    laterPairs, repeated := 0, 0;
    NoneLater(v, pairs);
    var rest := pairs.Keys;
    ghost var done: set<ScoredRef> := {};
    while rest != {}
      invariant rest <= pairs.Keys && done == pairs.Keys - rest && Right(c, start, t) && ViewOf(c) == v
      invariant laterPairs == |LaterPairs(v, pairs, done)| && repeated == |RepeatedPairs(v, pairs, done)|
      decreases |rest|
    {
      var ref :| ref in rest;
      rest := rest - {ref};
      PairStep(v, pairs, done, ref);
      done := done + {ref};
      PairIsNumbered(c, corrected, pairs, ref);
      RefAt(c.index, c.refs, c.parent, ref.session);
      var s := c.index[ref.session];
      var later := HasLater(c, t, start, s, pairs[ref]);
      if !later {
        continue;
      }
      laterPairs := laterPairs + 1;
      var again := AnyLaterKey(c, t, start, ref.key, s, pairs[ref]);
      if again {
        repeated := repeated + 1;
      }
    }
    assert done == pairs.Keys;
  }

  lemma NoneLater(v: View, pairs: map<ScoredRef, Millis>)
    ensures LaterPairs(v, pairs, {}) == {} && RepeatedPairs(v, pairs, {}) == {}
  {
  }

  // ------------------------------------------------------------ calls and events

  ghost function Young(v: View, done: set<CallId>): (young: set<CallId>)
    requires done <= v.kept.Keys
    ensures young <= done
  {
    set id | id in done && !v.kept[id].early
  }

  lemma CallStep(v: View, done: set<CallId>, id: CallId, harness: string)
    requires done <= v.kept.Keys && id in v.kept && id !in done
    ensures |CountedCalls(v, harness, done + {id})| ==
            |CountedCalls(v, harness, done)| + (if !v.kept[id].early && v.kept[id].session.harness == harness then 1 else 0)
  {
    AddOne(CountedCalls(v, harness, done), CountedCalls(v, harness, done + {id}), id,
           !v.kept[id].early && v.kept[id].session.harness == harness);
  }

  lemma CopiesStep(v: View, done: set<CallId>, id: CallId)
    requires done <= v.kept.Keys && id in v.kept && id !in done && v.copies.Keys == v.kept.Keys
    ensures Sum(v.copies, Young(v, done + {id})) == Sum(v.copies, Young(v, done)) + (if v.kept[id].early then 0 else v.copies[id])
  {
    if v.kept[id].early {
      assert Young(v, done + {id}) == Young(v, done);
    } else {
      assert Young(v, done + {id}) == Young(v, done) + {id};
      SumAdds(v.copies, Young(v, done), id);
    }
  }

  lemma KeptPlace(c: Corpus, id: CallId)
    requires c.Valid() && id in c.calls
    ensures c.calls[id].session < |c.refs| && id in ViewOf(c).kept
    ensures ViewOf(c).kept[id].session == c.refs[c.calls[id].session] && ViewOf(c).kept[id].early == c.calls[id].early
    ensures ViewOf(c).kept[id].ts == c.calls[id].ts
  {
    hide ViewOf, Corpus.Linked, Corpus.Joined, Corpus.Kept, LineOf;
    KeptAt(c, id);
  }

  /** One more call widens what was seen, if it is inside the window. */
  lemma CallWidens(v: View, done: set<CallId>, id: CallId, w: Span)
    requires done <= v.kept.Keys && id in v.kept && IsSpan(CallTimes(v, done), w)
    ensures IsSpan(CallTimes(v, done + {id}), if v.kept[id].early then w else Widened(w, v.kept[id].ts))
  {
    hide IsSpan, Widened;
    var more := CallTimes(v, done + {id});
    assert id in done + {id};
    forall ts | ts in CallTimes(v, done)
      ensures ts in more
    {
      var x :| x in done && !v.kept[x].early && ts == v.kept[x].ts;
      assert x in done + {id};
    }
    if v.kept[id].early {
      assert more == CallTimes(v, done);
    } else {
      assert more == CallTimes(v, done) + {v.kept[id].ts};
      SpanWidens(CallTimes(v, done), w, v.kept[id].ts);
    }
  }

  /** The loop has counted these calls. */
  ghost predicate CallsTallied(v: View, done: set<CallId>, claude: nat, codex: nat, copied: nat, when: Span)
    requires done <= v.kept.Keys && v.copies.Keys == v.kept.Keys
  {
    && claude == |CountedCalls(v, CLAUDE, done)| && codex == |CountedCalls(v, "codex", done)|
    && copied == Sum(v.copies, Young(v, done)) && IsSpan(CallTimes(v, done), when)
  }

  lemma CountStep(v: View, done: set<CallId>, id: CallId, claude: nat, codex: nat, copied: nat, when: Span)
    requires v.copies.Keys == v.kept.Keys && done <= v.kept.Keys && id in v.kept && id !in done
    requires CallsTallied(v, done, claude, codex, copied, when)
    ensures var s := v.kept[id];
            CallsTallied(v, done + {id},
                         if !s.early && s.session.harness == CLAUDE then claude + 1 else claude,
                         if !s.early && s.session.harness == "codex" then codex + 1 else codex,
                         if s.early then copied else copied + v.copies[id],
                         if s.early then when else Widened(when, s.ts))
  {
    hide IsSpan, CallTimes, Widened, CountedCalls, Young, Sum;
    CallStep(v, done, id, CLAUDE);
    CallStep(v, done, id, "codex");
    CopiesStep(v, done, id);
    CallWidens(v, done, id, when);
  }

  method CountCalls(c: Corpus) returns (claude: nat, codex: nat, copied: nat, when: Span)
    requires c.Valid()
    ensures var v := ViewOf(c);
            v.copies.Keys == v.kept.Keys && CallsTallied(v, v.kept.Keys, claude, codex, copied, when)
  {
    hide Widened, ViewOf, CallsTallied, Corpus.Linked, Corpus.Joined, Corpus.Kept;
    ghost var v := ViewOf(c);
    var calls := c.calls;
    KeptKeys(c);
    CopiesAt(c);
    claude, codex, copied, when := 0, 0, 0, NoSpan;
    NoCalls(v);
    var rest := calls.Keys;
    ghost var done: set<CallId> := {};
    while rest != {}
      invariant rest <= calls.Keys && done == calls.Keys - rest && CallsTallied(v, done, claude, codex, copied, when)
      decreases |rest|
    {
      var id :| id in rest;
      rest := rest - {id};
      var r := calls[id];
      KeptPlace(c, id);
      CountStep(v, done, id, claude, codex, copied, when);
      done := done + {id};
      if !r.early {
        when := Widened(when, r.ts);
        if c.refs[r.session].harness == CLAUDE {
          claude := claude + 1;
        } else if c.refs[r.session].harness == "codex" {
          codex := codex + 1;
        }
        copied := copied + r.copies;
      }
    }
    assert done == calls.Keys;
  }

  lemma CopiesAt(c: Corpus)
    requires c.Kept()
    ensures ViewOf(c).copies.Keys == c.calls.Keys && forall id <- c.calls.Keys :: ViewOf(c).copies[id] == c.calls[id].copies
  {
  }

  lemma NoCalls(v: View)
    requires v.copies.Keys == v.kept.Keys
    ensures CallsTallied(v, {}, 0, 0, 0, NoSpan)
  {
    assert CountedCalls(v, CLAUDE, {}) == {} && CountedCalls(v, "codex", {}) == {} && Young(v, {}) == {} && CallTimes(v, {}) == {};
  }

  lemma KindsStep(done: set<EventRef>, e: EventRef)
    ensures (set x | x in done + {e} :: x.kind) == (set x | x in done :: x.kind) + {e.kind}
  {
    var more := set x | x in done + {e} :: x.kind;
    assert e in done + {e};
    forall kind | kind in (set x | x in done :: x.kind)
      ensures kind in more
    {
      var x :| x in done && x.kind == kind;
      assert x in done + {e};
    }
  }

  lemma KindStep(done: set<EventRef>, e: EventRef, kind: string)
    requires e !in done
    ensures |set x | x in done + {e} && x.kind == kind| == |set x | x in done && x.kind == kind| + if e.kind == kind then 1 else 0
    ensures kind !in (set x | x in done :: x.kind) ==> |set x | x in done && x.kind == kind| == 0
  {
    var before := set x | x in done && x.kind == kind;
    AddOne(before, (set x | x in done + {e} && x.kind == kind), e, e.kind == kind);
    if kind !in (set x | x in done :: x.kind) {
      assert before == {};
    }
  }

  lemma EventStep(done: set<EventRef>, e: EventRef, m: map<string, nat>)
    requires e !in done && EventsCounted(done, m)
    ensures EventsCounted(done + {e}, m[e.kind := (if e.kind in m then m[e.kind] else 0) + 1])
  {
    var after := m[e.kind := (if e.kind in m then m[e.kind] else 0) + 1];
    KindsStep(done, e);
    forall kind <- after.Keys
      ensures after[kind] == |set x | x in done + {e} && x.kind == kind|
    {
      KindStep(done, e, kind);
    }
  }

  method CountEvents(events: set<EventRef>) returns (m: map<string, nat>)
    ensures EventsCounted(events, m)
  {
    m := map[];
    var rest := events;
    ghost var done: set<EventRef> := {};
    assert (set e | e in done :: e.kind) == {};
    while rest != {}
      invariant rest <= events && done == events - rest && EventsCounted(done, m)
      decreases |rest|
    {
      hide EventsCounted;
      var e :| e in rest;
      EventStep(done, e, m);
      rest, done := rest - {e}, done + {e};
      m := m[e.kind := (if e.kind in m then m[e.kind] else 0) + 1];
    }
    assert done == events;
  }

  /** The whole report, exactly as the view of what was heard demands. */
  method MakeReport(c: Corpus) returns (r: Report)
    requires c.Valid()
    modifies c`parent
    ensures c.Valid() && ViewOf(c) == old(ViewOf(c)) && IsReport(c.since, ViewOf(c), r)
  {
    hide ViewOf, TimelineOk, Corpus.Linked, Corpus.Joined, Corpus.Kept, IsScored, IsPairs, IsCorrected, Actions, InBucket, Eligible, SameCommand,
         SameShape, LaterPairs, RepeatedPairs, CountedCalls, EventsCounted, Sum, Numbers, RowsWithin,
         ArePatterns, IsTop, IsSpan, CallTimes, SeenBy;
    ghost var v := ViewOf(c);
    RowsAreWithin(c);
    KeptKeys(c);
    DenialsInView(c);
    var t, start := TakeTimeline(c);
    var claude, codex, copied, seen := CountCalls(c);
    var tally, actions, scored, corrected, when := TallyDenials(c, seen);
    var events := CountEvents(c.events);
    var eligible, sameCommand, sameShape, top := CountRepeats(c, t, start, scored);
    var pairs := TakePairs(c, corrected);
    var laterPairs, repeated := CountBaseline(c, t, start, corrected, pairs);
    r := Report(when, top, claude, codex, copied, tally, |actions|, |scored|, eligible, sameCommand, sameShape, laterPairs, repeated, events);
    assert RepeatsCounted(v, scored, r) && TopShown(v, scored, r) && BaselineCounted(v, pairs, r);
  }

  lemma DenialsInView(c: Corpus)
    requires c.Kept()
    ensures ViewOf(c).denials == c.denials && ViewOf(c).events == c.events
  {
  }
}
