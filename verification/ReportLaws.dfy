/** What a report counts, said over the fields of the denials and calls a corpus
    shows: each number is the size of a set described by them alone. */
module ReportLaws {
  import opened Connectivity
  import opened Latest
  import opened Ordering
  import opened OrderingLaws
  import opened CorpusRows
  import opened CorpusStore
  import opened CorpusViews
  import opened CorpusTimeline
  import opened CorpusReport

  // ---------------------------------------------------------- corrections

  ghost predicate IsRejection(d: CorpusRows.Denial) {
    d.kind == "user-rejected"
  }

  /** A person stopped the agent itself: not a helper, not a shutdown, not another
      agent or a task that went on. */
  ghost predicate IsInterruption(d: CorpusRows.Denial) {
    d.kind == "interrupted" && !d.subagent && !d.shutdown && d.nextOrigin != "peer" && d.nextOrigin != "task_notification"
  }

  ghost predicate IsCorrection(d: CorpusRows.Denial) {
    IsRejection(d) || IsInterruption(d)
  }

  /** Why a denial is not a correction. */
  ghost predicate Excused(d: CorpusRows.Denial, reason: Reason) {
    match reason
    case CancelledSiblings => d.kind == "cancelled"
    case BlockedByRule => d.kind == "permission-rule"
    case BlockedByAutoMode => d.kind == "automode-blocked" || d.kind == "automode-unavailable" || d.kind == "automode-parsing-error"
    case InterruptedInSubagent => d.kind == "interrupted" && d.subagent
    case InterruptedNotHuman =>
      d.kind == "interrupted" && !d.subagent && (d.shutdown || d.nextOrigin == "peer" || d.nextOrigin == "task_notification")
    case InterruptedBetweenCalls => d.kind == "interrupted-between-calls"
    case UntypedRejections => d.kind == "untyped-rejection"
    case UnknownDenialKinds =>
      && d.kind != "user-rejected" && d.kind != "interrupted" && d.kind != "cancelled" && d.kind != "permission-rule"
      && d.kind != "automode-blocked" && d.kind != "automode-unavailable" && d.kind != "automode-parsing-error"
      && d.kind != "untyped-rejection" && d.kind != "interrupted-between-calls"
  }

  lemma BucketMeans(since: Time, d: CorpusRows.Denial, bash: bool, reason: Reason)
    ensures BucketOf(since, d) == Correction(bash, true) <==> since <= d.ts && IsRejection(d) && (d.tool == "Bash" <==> bash)
    ensures BucketOf(since, d) == Correction(bash, false) <==> since <= d.ts && IsInterruption(d) && (d.tool == "Bash" <==> bash)
    ensures BucketOf(since, d) == Uncounted(reason) <==> since <= d.ts && Excused(d, reason)
    ensures BucketOf(since, d).Correction? <==> since <= d.ts && IsCorrection(d)
    ensures Classify(d) in {Rejected, Interrupted} <==> IsCorrection(d)
  {
  }

  /** The tally has this many under this bucket. */
  ghost predicate Tells(m: Tally, b: Bucket, ids: set<string>) {
    if ids == {} then b !in m else b in m && m[b] == |ids|
  }

  lemma CountTells(since: Time, v: View, r: Report, b: Bucket, ids: set<string>)
    requires DenialsCounted(since, v, r) && !b.Outside?
    requires forall id :: id in ids <==> id in v.denials && BucketOf(since, v.denials[id]) == b
    ensures Tells(r.tally, b, ids)
  {
    hide BucketOf;
    assert InBucket(since, v, v.denials.Keys, b) == ids;
    assert CountOf(r.tally, b) == |ids|;
  }

  /** Each number of the tally, by kind, tool, origin and time. */
  lemma TallyTells(since: Time, v: View, r: Report)
    requires DenialsCounted(since, v, r)
    ensures forall bash: bool ::
              && Tells(r.tally, Correction(bash, true),
                       set id | id in v.denials && since <= v.denials[id].ts && IsRejection(v.denials[id]) && (v.denials[id].tool == "Bash" <==> bash))
              && Tells(r.tally, Correction(bash, false),
                       set id | id in v.denials && since <= v.denials[id].ts && IsInterruption(v.denials[id]) && (v.denials[id].tool == "Bash" <==> bash))
    ensures forall reason: Reason ::
              Tells(r.tally, Uncounted(reason), set id | id in v.denials && since <= v.denials[id].ts && Excused(v.denials[id], reason))
    ensures Outside !in r.tally
  {
    hide BucketOf, Classify, IsRejection, IsInterruption, Excused, Tells, DenialsCounted, InBucket;
    forall bash: bool
      ensures Tells(r.tally, Correction(bash, true),
                    set id | id in v.denials && since <= v.denials[id].ts && IsRejection(v.denials[id]) && (v.denials[id].tool == "Bash" <==> bash))
      ensures Tells(r.tally, Correction(bash, false),
                    set id | id in v.denials && since <= v.denials[id].ts && IsInterruption(v.denials[id]) && (v.denials[id].tool == "Bash" <==> bash))
    {
      forall id <- v.denials.Keys
        ensures BucketOf(since, v.denials[id]) == Correction(bash, true) <==>
                since <= v.denials[id].ts && IsRejection(v.denials[id]) && (v.denials[id].tool == "Bash" <==> bash)
        ensures BucketOf(since, v.denials[id]) == Correction(bash, false) <==>
                since <= v.denials[id].ts && IsInterruption(v.denials[id]) && (v.denials[id].tool == "Bash" <==> bash)
      {
        BucketMeans(since, v.denials[id], bash, CancelledSiblings);
      }
      CountTells(since, v, r, Correction(bash, true),
                 set id | id in v.denials && since <= v.denials[id].ts && IsRejection(v.denials[id]) && (v.denials[id].tool == "Bash" <==> bash));
      CountTells(since, v, r, Correction(bash, false),
                 set id | id in v.denials && since <= v.denials[id].ts && IsInterruption(v.denials[id]) && (v.denials[id].tool == "Bash" <==> bash));
    }
    forall reason: Reason
      ensures Tells(r.tally, Uncounted(reason), set id | id in v.denials && since <= v.denials[id].ts && Excused(v.denials[id], reason))
    {
      forall id <- v.denials.Keys
        ensures BucketOf(since, v.denials[id]) == Uncounted(reason) <==> since <= v.denials[id].ts && Excused(v.denials[id], reason)
      {
        BucketMeans(since, v.denials[id], true, reason);
      }
      CountTells(since, v, r, Uncounted(reason), set id | id in v.denials && since <= v.denials[id].ts && Excused(v.denials[id], reason));
    }
    NoOutside(since, v, r);
  }

  lemma NoOutside(since: Time, v: View, r: Report)
    requires DenialsCounted(since, v, r)
    ensures Outside !in r.tally
  {
  }

  /** One message of the person is one action, however many calls it stopped. */
  lemma ActionsTell(since: Time, v: View, r: Report)
    requires DenialsCounted(since, v, r)
    ensures r.userActions ==
            |set id | id in v.denials && since <= v.denials[id].ts && IsCorrection(v.denials[id])
                    :: if v.denials[id].messageId != "" then v.denials[id].messageId else id|
  {
    hide BucketOf, Classify, IsCorrection;
    forall id <- v.denials.Keys
      ensures BucketOf(since, v.denials[id]).Correction? <==> since <= v.denials[id].ts && IsCorrection(v.denials[id])
    {
      BucketMeans(since, v.denials[id], true, CancelledSiblings);
    }
    var told := set id | id in v.denials && since <= v.denials[id].ts && IsCorrection(v.denials[id])
                       :: if v.denials[id].messageId != "" then v.denials[id].messageId else id;
    assert Actions(since, v, v.denials.Keys) == told;
  }

  // ------------------------------------------------------- corrected commands

  /** A correction of a shell call that was heard and has a primary command. */
  ghost predicate Commanded(v: View, id: string) {
    && id in v.denials && IsCorrection(v.denials[id]) && v.denials[id].tool == "Bash"
    && CallId("claude", id) in v.kept && 0 <= v.kept[CallId("claude", id)].line.primary
  }

  ghost function Command(v: View, id: string): Segment
    requires Commanded(v, id)
  {
    var line := v.kept[CallId("claude", id)].line;
    line.segments[line.primary]
  }

  /** It corrects this command in this session. */
  ghost predicate Under(v: View, id: string, ref: ScoredRef) {
    Commanded(v, id) && ref.session == SessionRef("claude", v.denials[id].session) && ref.key == Command(v, id).key
  }

  ghost predicate InWindow(since: Time, v: View, id: string, ref: ScoredRef) {
    Under(v, id, ref) && since <= v.denials[id].ts
  }

  ghost predicate Earlier(a: int, aShape: string, b: int, bShape: string) {
    a < b || (a == b && TextBefore(aShape, bShape))
  }

  lemma CommandedMeans(since: Time, v: View, id: string, ref: ScoredRef)
    requires id in v.denials
    ensures Commanded(v, id) <==> Corrects(v, id)
    ensures Commanded(v, id) ==>
              && RefOf(v, id) == ScoredRef(SessionRef("claude", v.denials[id].session), Command(v, id).key)
              && RowOf(v, id) == ScoredRow(v.denials[id].ts / 1_000_000, Command(v, id).shape)
    ensures Under(v, id, ref) <==> Corrects(v, id) && RefOf(v, id) == ref
    ensures InWindow(since, v, id, ref) <==> Scores(since, v, id) && RefOf(v, id) == ref
  {
    BucketMeans(since, v.denials[id], true, CancelledSiblings);
    hide Classify, IsCorrection;
  }

  /** One row per session and command that a correction inside the window names,
      with the time and shape of the first such correction. */
  ghost predicate RowTells(since: Time, v: View, rows: map<ScoredRef, ScoredRow>, ref: ScoredRef) {
    && (ref in rows <==> exists id <- v.denials.Keys :: InWindow(since, v, id, ref))
    && (ref in rows ==>
          && (exists id <- v.denials.Keys :: InWindow(since, v, id, ref)
                && rows[ref].at == v.denials[id].ts / 1_000_000 && rows[ref].shape == Command(v, id).shape)
          && forall id <- v.denials.Keys :: InWindow(since, v, id, ref) ==>
               !Earlier(v.denials[id].ts / 1_000_000, Command(v, id).shape, rows[ref].at, rows[ref].shape))
  }

  lemma ScoredTells(since: Time, v: View, rows: map<ScoredRef, ScoredRow>, ref: ScoredRef)
    requires ScoredAt(since, v, v.denials.Keys, rows, ref)
    ensures RowTells(since, v, rows, ref)
  {
    hide Scores, Corrects, RefOf, RowOf, Commanded, Command, Under, InWindow, RowLess, Earlier;
    forall id <- v.denials.Keys
      ensures InWindow(since, v, id, ref) <==> Scores(since, v, id) && Corrects(v, id) && RefOf(v, id) == ref
      ensures Scores(since, v, id) ==> Corrects(v, id)
      ensures InWindow(since, v, id, ref) ==> Commanded(v, id) && RowOf(v, id) == ScoredRow(v.denials[id].ts / 1_000_000, Command(v, id).shape)
      ensures ref in rows && InWindow(since, v, id, ref) ==>
                (RowLess(RowOf(v, id), rows[ref]) <==>
                 Earlier(v.denials[id].ts / 1_000_000, Command(v, id).shape, rows[ref].at, rows[ref].shape))
    {
      CommandedMeans(since, v, id, ref);
      InWindowIsCommanded(since, v, id, ref);
      ScoresCorrects(since, v, id);
      if ref in rows && InWindow(since, v, id, ref) {
        RowLessMeans(RowOf(v, id), rows[ref]);
      }
    }
  }

  lemma ScoresCorrects(since: Time, v: View, id: string)
    requires id in v.denials
    ensures Scores(since, v, id) ==> Corrects(v, id)
  {
  }

  lemma InWindowIsCommanded(since: Time, v: View, id: string, ref: ScoredRef)
    ensures InWindow(since, v, id, ref) ==> Commanded(v, id)
  {
  }

  lemma RowLessMeans(a: ScoredRow, b: ScoredRow)
    ensures RowLess(a, b) <==> Earlier(a.at, a.shape, b.at, b.shape)
  {
    LessIsTextBefore(a.shape, b.shape);
  }

  // ------------------------------------------------------------- later sessions

  /** No chain of shared ids joins the two sessions, and every call of the first
      comes after the moment. */
  ghost predicate StartsAfter(v: View, s: SessionRef, own: SessionRef, at: int) {
    !Connected(v.sharing, s, own) && forall id <- v.kept.Keys :: v.kept[id].session == s ==> at < v.kept[id].ts
  }

  ghost predicate AnySessionAfter(v: View, own: SessionRef, at: int) {
    exists id <- v.kept.Keys :: StartsAfter(v, v.kept[id].session, own, at)
  }

  /** A call inside the window of such a session has the command among its parts. */
  ghost predicate KeyRunAfter(v: View, key: string, own: SessionRef, at: int) {
    exists id <- v.kept.Keys ::
      && !v.kept[id].early && (exists j :: 0 <= j < |v.kept[id].line.segments| && v.kept[id].line.segments[j].key == key)
      && StartsAfter(v, v.kept[id].session, own, at)
  }

  ghost predicate ShapeRunAfter(v: View, shape: string, own: SessionRef, at: int) {
    exists id <- v.kept.Keys ::
      && !v.kept[id].early && (exists j :: 0 <= j < |v.kept[id].line.segments| && v.kept[id].line.segments[j].shape == shape)
      && StartsAfter(v, v.kept[id].session, own, at)
  }

  lemma {:induction false} FirstCall(v: View, s: SessionRef, ids: set<CallId>) returns (first: CallId)
    requires ids != {} && ids <= v.kept.Keys
    ensures first in ids && forall id <- ids :: v.kept[first].ts <= v.kept[id].ts
    decreases |ids|
  {
    first :| first in ids;
    if ids != {first} {
      var other := FirstCall(v, s, ids - {first});
      first := if v.kept[other].ts < v.kept[first].ts then other else first;
    }
  }

  lemma StartExists(v: View, id: CallId) returns (t: int)
    requires id in v.kept
    ensures IsStart(v, v.kept[id].session, t)
  {
    var s := v.kept[id].session;
    var calls := set x | x in v.kept && v.kept[x].session == s;
    assert id in calls;
    var first := FirstCall(v, s, calls);
    t := v.kept[first].ts;
  }

  lemma LaterMeans(v: View, id: CallId, own: SessionRef, at: int)
    requires id in v.kept
    ensures LaterStart(v, v.kept[id].session, own, at) <==> StartsAfter(v, v.kept[id].session, own, at)
  {
    hide Connected;
    var t := StartExists(v, id);
  }

  lemma SessionLaterTells(v: View, own: SessionRef, at: int)
    ensures SessionLater(v, own, at) <==> AnySessionAfter(v, own, at)
  {
    hide LaterStart, StartsAfter;
    if SessionLater(v, own, at) {
      var s :| LaterStart(v, s, own, at);
      var id := LaterHasCall(v, s, own, at);
      LaterMeans(v, id, own, at);
    }
    if id :| id in v.kept && StartsAfter(v, v.kept[id].session, own, at) {
      LaterMeans(v, id, own, at);
    }
  }

  lemma LaterHasCall(v: View, s: SessionRef, own: SessionRef, at: int) returns (id: CallId)
    requires LaterStart(v, s, own, at)
    ensures id in v.kept && v.kept[id].session == s
  {
    var t :| IsStart(v, s, t) && t > at;
    id :| id in v.kept && v.kept[id].session == s && v.kept[id].ts == t;
  }

  lemma KeyLaterTells(v: View, key: string, own: SessionRef, at: int)
    ensures KeyLater(v, key, own, at) <==> KeyRunAfter(v, key, own, at)
  {
    hide LaterStart, StartsAfter;
    forall id <- v.kept.Keys
      ensures LaterStart(v, v.kept[id].session, own, at) <==> StartsAfter(v, v.kept[id].session, own, at)
    {
      LaterMeans(v, id, own, at);
    }
  }

  lemma ShapeLaterTells(v: View, shape: string, own: SessionRef, at: int)
    ensures ShapeLater(v, shape, own, at) <==> ShapeRunAfter(v, shape, own, at)
  {
    hide LaterStart, StartsAfter;
    forall id <- v.kept.Keys
      ensures LaterStart(v, v.kept[id].session, own, at) <==> StartsAfter(v, v.kept[id].session, own, at)
    {
      LaterMeans(v, id, own, at);
    }
  }

  // ------------------------------------------------------------------- repeats

  /** The rows counted, those with a later session, those whose command is run again
      and those whose shape is. */
  ghost predicate RepeatsTell(v: View, rows: map<ScoredRef, ScoredRow>, r: Report) {
    && r.scored == |rows|
    && r.eligible == |set ref | ref in rows && AnySessionAfter(v, ref.session, rows[ref].at)|
    && r.sameCommand == |set ref | ref in rows && KeyRunAfter(v, ref.key, ref.session, rows[ref].at)|
    && r.sameShape == |set ref | ref in rows && rows[ref].shape != "" && ShapeRunAfter(v, rows[ref].shape, ref.session, rows[ref].at)|
  }

  lemma KeyRunIsLater(v: View, key: string, own: SessionRef, at: int)
    ensures KeyRunAfter(v, key, own, at) ==> AnySessionAfter(v, own, at)
    ensures ShapeRunAfter(v, key, own, at) ==> AnySessionAfter(v, own, at)
  {
    hide StartsAfter;
  }

  lemma RowIsAsked(since: Time, v: View, rows: map<ScoredRef, ScoredRow>, ref: ScoredRef)
    requires RowTells(since, v, rows, ref) && ref in rows
    ensures Asked(v, ref.key)
  {
    hide Earlier, IsCorrection;
    var id :| id in v.denials && InWindow(since, v, id, ref);
    assert IsPrimary(v.kept[CallId("claude", id)], ref.key);
  }

  /** One row's part in each of the three counts. */
  lemma RowCounts(since: Time, v: View, rows: map<ScoredRef, ScoredRow>, ref: ScoredRef)
    requires RowTells(since, v, rows, ref) && ref in rows
    ensures ref in Eligible(v, rows, rows.Keys) <==> AnySessionAfter(v, ref.session, rows[ref].at)
    ensures ref in SameCommand(v, rows, rows.Keys) <==> KeyRunAfter(v, ref.key, ref.session, rows[ref].at)
    ensures ref in SameShape(v, rows, rows.Keys) <==> rows[ref].shape != "" && ShapeRunAfter(v, rows[ref].shape, ref.session, rows[ref].at)
  {
    RowIsAsked(since, v, rows, ref);
    SessionLaterTells(v, ref.session, rows[ref].at);
    KeyLaterTells(v, ref.key, ref.session, rows[ref].at);
    ShapeLaterTells(v, rows[ref].shape, ref.session, rows[ref].at);
    KeyRunIsLater(v, ref.key, ref.session, rows[ref].at);
    KeyRunIsLater(v, rows[ref].shape, ref.session, rows[ref].at);
    hide SessionLater, KeyLater, ShapeLater, AnySessionAfter, KeyRunAfter, ShapeRunAfter, Asked, RowTells;
  }

  lemma RepeatsAreTold(since: Time, v: View, rows: map<ScoredRef, ScoredRow>, r: Report)
    requires (forall ref :: RowTells(since, v, rows, ref)) && RepeatsCounted(v, rows, r)
    ensures RepeatsTell(v, rows, r)
  {
    hide RowTells, AnySessionAfter, KeyRunAfter, ShapeRunAfter, Eligible, SameCommand, SameShape;
    forall ref <- rows.Keys
      ensures ref in Eligible(v, rows, rows.Keys) <==> AnySessionAfter(v, ref.session, rows[ref].at)
      ensures ref in SameCommand(v, rows, rows.Keys) <==> KeyRunAfter(v, ref.key, ref.session, rows[ref].at)
      ensures ref in SameShape(v, rows, rows.Keys) <==> rows[ref].shape != "" && ShapeRunAfter(v, rows[ref].shape, ref.session, rows[ref].at)
    {
      RowCounts(since, v, rows, ref);
    }
    RowSetsWithin(v, rows);
    assert Eligible(v, rows, rows.Keys) == set ref | ref in rows && AnySessionAfter(v, ref.session, rows[ref].at);
    assert SameCommand(v, rows, rows.Keys) == set ref | ref in rows && KeyRunAfter(v, ref.key, ref.session, rows[ref].at);
    assert SameShape(v, rows, rows.Keys) ==
           set ref | ref in rows && rows[ref].shape != "" && ShapeRunAfter(v, rows[ref].shape, ref.session, rows[ref].at);
  }

  lemma RowSetsWithin(v: View, rows: map<ScoredRef, ScoredRow>)
    ensures Eligible(v, rows, rows.Keys) <= rows.Keys
    ensures SameCommand(v, rows, rows.Keys) <= rows.Keys && SameShape(v, rows, rows.Keys) <= rows.Keys
  {
  }

  // ------------------------------------------------------------------ baseline

  /** A call inside the window with this primary command in this session. */
  ghost predicate CallOf(v: View, id: CallId, ref: ScoredRef) {
    && id in v.kept && !v.kept[id].early && 0 <= v.kept[id].line.primary
    && ref.session == v.kept[id].session && ref.key == v.kept[id].line.segments[v.kept[id].line.primary].key
  }

  /** No correction, inside the window or before it, names the command. */
  ghost predicate Uncorrected(v: View, key: string) {
    forall id <- v.denials.Keys :: Commanded(v, id) ==> Command(v, id).key != key
  }

  /** One pair per session and command that nobody corrected, at its first call. */
  ghost predicate PairTells(v: View, firsts: map<ScoredRef, Millis>, ref: ScoredRef) {
    && (ref in firsts <==> Uncorrected(v, ref.key) && exists id <- v.kept.Keys :: CallOf(v, id, ref))
    && (ref in firsts ==>
          && (exists id <- v.kept.Keys :: CallOf(v, id, ref) && v.kept[id].ts == firsts[ref])
          && forall id <- v.kept.Keys :: CallOf(v, id, ref) ==> firsts[ref] <= v.kept[id].ts)
  }

  lemma UncorrectedMeans(v: View, corrected: set<string>, key: string)
    requires IsCorrected(v, v.denials.Keys, corrected)
    ensures Uncorrected(v, key) <==> key !in corrected
  {
    hide Corrects, RefOf, RowOf, Commanded, Command, Under, InWindow;
    forall id <- v.denials.Keys
      ensures Commanded(v, id) <==> Corrects(v, id)
      ensures Commanded(v, id) ==> Corrects(v, id) && RefOf(v, id).key == Command(v, id).key
    {
      CommandedMeans(0, v, id, ScoredRef(SessionRef("", ""), ""));
    }
  }

  lemma PairsTell(v: View, corrected: set<string>, firsts: map<ScoredRef, Millis>, ref: ScoredRef)
    requires IsCorrected(v, v.denials.Keys, corrected) && PairAt(v, corrected, v.kept.Keys, firsts, ref)
    ensures PairTells(v, firsts, ref)
  {
    UncorrectedMeans(v, corrected, ref.key);
    hide IsCorrected, Uncorrected;
    forall id <- v.kept.Keys
      ensures CallOf(v, id, ref) <==> Pairs(v.kept[id]) && PairRef(v.kept[id]) == ref
    {
    }
    hide CallOf, Pairs, PairRef;
  }

  ghost predicate BaselineTells(v: View, firsts: map<ScoredRef, Millis>, r: Report) {
    && r.baselinePairs == |set ref | ref in firsts && AnySessionAfter(v, ref.session, firsts[ref])|
    && r.baselineRepeated == |set ref | ref in firsts && KeyRunAfter(v, ref.key, ref.session, firsts[ref])|
  }

  lemma PairIsAsked(v: View, firsts: map<ScoredRef, Millis>, ref: ScoredRef)
    requires PairTells(v, firsts, ref) && ref in firsts
    ensures Asked(v, ref.key)
  {
    hide Uncorrected;
    var id :| id in v.kept && CallOf(v, id, ref);
    assert IsPrimary(v.kept[id], ref.key);
  }

  lemma PairCounts(v: View, firsts: map<ScoredRef, Millis>, ref: ScoredRef)
    requires PairTells(v, firsts, ref) && ref in firsts
    ensures ref in LaterPairs(v, firsts, firsts.Keys) <==> AnySessionAfter(v, ref.session, firsts[ref])
    ensures ref in RepeatedPairs(v, firsts, firsts.Keys) <==> KeyRunAfter(v, ref.key, ref.session, firsts[ref])
  {
    PairIsAsked(v, firsts, ref);
    SessionLaterTells(v, ref.session, firsts[ref]);
    KeyLaterTells(v, ref.key, ref.session, firsts[ref]);
    KeyRunIsLater(v, ref.key, ref.session, firsts[ref]);
    hide SessionLater, KeyLater, AnySessionAfter, KeyRunAfter, Asked, PairTells;
  }

  lemma BaselineIsTold(v: View, firsts: map<ScoredRef, Millis>, r: Report)
    requires (forall ref :: PairTells(v, firsts, ref)) && BaselineCounted(v, firsts, r)
    ensures BaselineTells(v, firsts, r)
  {
    hide PairTells, AnySessionAfter, KeyRunAfter, LaterPairs, RepeatedPairs;
    forall ref <- firsts.Keys
      ensures ref in LaterPairs(v, firsts, firsts.Keys) <==> AnySessionAfter(v, ref.session, firsts[ref])
      ensures ref in RepeatedPairs(v, firsts, firsts.Keys) <==> KeyRunAfter(v, ref.key, ref.session, firsts[ref])
    {
      PairCounts(v, firsts, ref);
    }
    PairSetsWithin(v, firsts);
    assert LaterPairs(v, firsts, firsts.Keys) == set ref | ref in firsts && AnySessionAfter(v, ref.session, firsts[ref]);
    assert RepeatedPairs(v, firsts, firsts.Keys) == set ref | ref in firsts && KeyRunAfter(v, ref.key, ref.session, firsts[ref]);
  }

  lemma PairSetsWithin(v: View, firsts: map<ScoredRef, Millis>)
    ensures LaterPairs(v, firsts, firsts.Keys) <= firsts.Keys && RepeatedPairs(v, firsts, firsts.Keys) <= firsts.Keys
  {
  }

  // --------------------------------------------------------- window and patterns

  ghost predicate InsideCall(v: View, id: CallId) {
    id in v.kept && !v.kept[id].early
  }

  ghost predicate InsideDenial(since: Time, v: View, id: string) {
    id in v.denials && since <= v.denials[id].ts
  }

  /** A moment of a call or a denial inside the window. */
  ghost predicate Happened(since: Time, v: View, at: int) {
    || (exists id <- v.kept.Keys :: InsideCall(v, id) && v.kept[id].ts == at)
    || (exists id <- v.denials.Keys :: InsideDenial(since, v, id) && v.denials[id].ts / 1_000_000 == at)
  }

  /** The window runs from the first such moment to the last. */
  ghost predicate WindowTells(since: Time, v: View, w: Span) {
    match w
    case NoSpan => forall at: int :: !Happened(since, v, at)
    case Span(first, last) =>
      Happened(since, v, first) && Happened(since, v, last) && forall at: int :: Happened(since, v, at) ==> first <= at <= last
  }

  lemma WindowIsTold(since: Time, v: View, r: Report)
    requires SeenBy(since, v, v.denials.Keys, r.window)
    ensures WindowTells(since, v, r.window)
  {
    var times := CallTimes(v, v.kept.Keys) + DenialTimes(since, v, v.denials.Keys);
    forall at: int
      ensures Happened(since, v, at) <==> at in times
    {
      if id :| id in v.kept && InsideCall(v, id) && v.kept[id].ts == at {
        assert at in CallTimes(v, v.kept.Keys);
      }
      if id :| id in v.denials && InsideDenial(since, v, id) && v.denials[id].ts / 1_000_000 == at {
        assert Milli(v.denials[id].ts) in DenialTimes(since, v, v.denials.Keys);
      }
      if at in DenialTimes(since, v, v.denials.Keys) {
        var id :| id in v.denials && v.denials[id].ts >= since && Milli(v.denials[id].ts) == at;
        assert InsideDenial(since, v, id);
      }
      if at in CallTimes(v, v.kept.Keys) {
        var id :| id in v.kept && !v.kept[id].early && v.kept[id].ts == at;
        assert InsideCall(v, id);
      }
    }
    hide Happened, CallTimes, DenialTimes;
  }

  /** How a row prints: its shape, or the one name for commands without a shape. */
  ghost predicate PrintsAs(rows: map<ScoredRef, ScoredRow>, ref: ScoredRef, shape: string) {
    ref in rows && shape == if rows[ref].shape != "" then rows[ref].shape else "(other command)"
  }

  /** How many rows that print so have their command run again, or their shape. */
  ghost function CommandAgain(v: View, rows: map<ScoredRef, ScoredRow>, shape: string): nat {
    |set ref | ref in rows && PrintsAs(rows, ref, shape) && KeyRunAfter(v, ref.key, ref.session, rows[ref].at)|
  }

  ghost function ShapeAgain(v: View, rows: map<ScoredRef, ScoredRow>, shape: string): nat {
    |set ref | ref in rows && PrintsAs(rows, ref, shape) && rows[ref].shape != ""
               && ShapeRunAfter(v, rows[ref].shape, ref.session, rows[ref].at)|
  }

  /** Printed shapes are listed when they came back; the name for the others when
      the very command did. */
  ghost predicate Listed(v: View, rows: map<ScoredRef, ScoredRow>, shape: string) {
    0 < ShapeAgain(v, rows, shape) || (shape == "(other command)" && 0 < CommandAgain(v, rows, shape))
  }

  /** More commands run again, then more shapes, then the earlier text. */
  ghost predicate RanksBefore(aCommand: nat, aSame: nat, aShape: string, bCommand: nat, bSame: nat, bShape: string) {
    || bCommand < aCommand
    || (aCommand == bCommand && (bSame < aSame || (aSame == bSame && TextBefore(aShape, bShape))))
  }

  lemma PatternTells(since: Time, v: View, rows: map<ScoredRef, ScoredRow>, patterns: map<string, Pattern>, shape: string)
    requires (forall ref :: RowTells(since, v, rows, ref)) && ArePatterns(v, rows, rows.Keys, patterns)
    ensures shape in patterns ==> patterns[shape] == Pattern(shape, CommandAgain(v, rows, shape), ShapeAgain(v, rows, shape))
    ensures Listed(v, rows, shape) <==> shape in patterns && Shown(patterns[shape])
  {
    hide RowTells, AnySessionAfter, KeyRunAfter, ShapeRunAfter, Eligible, SameCommand, SameShape, ArePatterns;
    forall ref <- rows.Keys
      ensures ref in Eligible(v, rows, rows.Keys) <==> AnySessionAfter(v, ref.session, rows[ref].at)
      ensures ref in SameCommand(v, rows, rows.Keys) <==> KeyRunAfter(v, ref.key, ref.session, rows[ref].at)
      ensures ref in SameShape(v, rows, rows.Keys) <==> rows[ref].shape != "" && ShapeRunAfter(v, rows[ref].shape, ref.session, rows[ref].at)
      ensures KeyRunAfter(v, ref.key, ref.session, rows[ref].at) ==> AnySessionAfter(v, ref.session, rows[ref].at)
      ensures ShapeRunAfter(v, rows[ref].shape, ref.session, rows[ref].at) ==> AnySessionAfter(v, ref.session, rows[ref].at)
    {
      RowCounts(since, v, rows, ref);
      KeyRunIsLater(v, ref.key, ref.session, rows[ref].at);
      KeyRunIsLater(v, rows[ref].shape, ref.session, rows[ref].at);
    }
    RowSetsWithin(v, rows);
    PatternOf(v, rows, patterns, shape);
    var e, c, s := Eligible(v, rows, rows.Keys), SameCommand(v, rows, rows.Keys), SameShape(v, rows, rows.Keys);
    var again := set ref | ref in rows && PrintsAs(rows, ref, shape) && KeyRunAfter(v, ref.key, ref.session, rows[ref].at);
    var same := set ref | ref in rows && PrintsAs(rows, ref, shape) && rows[ref].shape != ""
                          && ShapeRunAfter(v, rows[ref].shape, ref.session, rows[ref].at);
    assert Printing(rows, c, shape) == again;
    assert Printing(rows, s, shape) == same;
    assert again <= Printing(rows, e, shape) && same <= Printing(rows, e, shape);
  }

  lemma PatternOf(v: View, rows: map<ScoredRef, ScoredRow>, patterns: map<string, Pattern>, shape: string)
    requires ArePatterns(v, rows, rows.Keys, patterns)
    ensures PatternAt(v, rows, rows.Keys, patterns, shape)
  {
  }

  /** The top list: at most ten shapes that came back, first ranked first, and no
      shape left out that ranks before one shown. */
  ghost predicate TopTells(v: View, rows: map<ScoredRef, ScoredRow>, top: seq<Pattern>) {
    && |top| <= 10
    && (forall p <- top ::
          p.sameCommand == CommandAgain(v, rows, p.shape) && p.sameShape == ShapeAgain(v, rows, p.shape) && Listed(v, rows, p.shape))
    && (forall j, k :: 0 <= j < k < |top| ==>
          RanksBefore(top[j].sameCommand, top[j].sameShape, top[j].shape, top[k].sameCommand, top[k].sameShape, top[k].shape))
    && (forall shape :: Listed(v, rows, shape) ==>
          || (exists p <- top :: p.shape == shape)
          || (|top| == 10 && forall p <- top ::
                RanksBefore(p.sameCommand, p.sameShape, p.shape, CommandAgain(v, rows, shape), ShapeAgain(v, rows, shape), shape)))
  }

  lemma RanksMeans(a: Pattern, b: Pattern)
    ensures Ahead()(a, b) <==> RanksBefore(a.sameCommand, a.sameShape, a.shape, b.sameCommand, b.sameShape, b.shape)
  {
    LessIsTextBefore(a.shape, b.shape);
  }

  lemma ListingHolds(patterns: map<string, Pattern>, all: seq<Pattern>)
    requires IsListing(patterns, all)
    ensures forall p :: p in all <==> exists shape :: shape in patterns && Shown(patterns[shape]) && p == patterns[shape]
    ensures forall j, k :: 0 <= j < k < |all| ==> Ahead()(all[j], all[k])
  {
    hide Shown;
    forall p
      ensures p in all <==> p in ShownIn(patterns, patterns.Keys)
    {
      assert p in all <==> p in multiset(all);
    }
  }

  lemma TopIsTold(since: Time, v: View, rows: map<ScoredRef, ScoredRow>, patterns: map<string, Pattern>, top: seq<Pattern>)
    requires (forall ref :: RowTells(since, v, rows, ref)) && ArePatterns(v, rows, rows.Keys, patterns) && IsTop(patterns, top)
    ensures TopTells(v, rows, top)
  {
    hide RowTells, ArePatterns, CommandAgain, ShapeAgain, Listed, RanksBefore, IsListing, Shown, PatternLess;
    var all: seq<Pattern> :| IsListing(patterns, all) && top == if |all| <= MAX_TOP then all else all[..MAX_TOP];
    ListingHolds(patterns, all);
    forall shape: string
      ensures shape in patterns ==> patterns[shape] == Pattern(shape, CommandAgain(v, rows, shape), ShapeAgain(v, rows, shape))
      ensures Listed(v, rows, shape) <==> shape in patterns && Shown(patterns[shape])
    {
      PatternTells(since, v, rows, patterns, shape);
    }
    forall p <- all
      ensures p.sameCommand == CommandAgain(v, rows, p.shape) && p.sameShape == ShapeAgain(v, rows, p.shape) && Listed(v, rows, p.shape)
    {
      var shape :| shape in patterns && Shown(patterns[shape]) && p == patterns[shape];
    }
    forall j, k | 0 <= j < k < |all|
      ensures RanksBefore(all[j].sameCommand, all[j].sameShape, all[j].shape, all[k].sameCommand, all[k].sameShape, all[k].shape)
    {
      RanksMeans(all[j], all[k]);
    }
    forall shape | Listed(v, rows, shape) && forall p <- top :: p.shape != shape
      ensures |top| == 10 && forall p <- top ::
                RanksBefore(p.sameCommand, p.sameShape, p.shape, CommandAgain(v, rows, shape), ShapeAgain(v, rows, shape), shape)
    {
      assert patterns[shape] in all;
      var k :| 0 <= k < |all| && all[k] == patterns[shape];
      assert k >= |top|;
    }
  }

  // ------------------------------------------------------------------ everything

  ghost predicate CallsTell(v: View, r: Report)
    requires v.copies.Keys == v.kept.Keys
  {
    && r.claudeCalls == |set id | id in v.kept && !v.kept[id].early && v.kept[id].session.harness == "claude"|
    && r.codexCalls == |set id | id in v.kept && !v.kept[id].early && v.kept[id].session.harness == "codex"|
    && r.copiedCalls == Sum(v.copies, set id | id in v.kept && !v.kept[id].early)
  }

  lemma CallsAreTold(v: View, r: Report)
    requires v.copies.Keys == v.kept.Keys && CallsCounted(v, r)
    ensures CallsTell(v, r)
  {
    assert CountedCalls(v, CLAUDE, v.kept.Keys) == set id | id in v.kept && !v.kept[id].early && v.kept[id].session.harness == "claude";
    assert CountedCalls(v, "codex", v.kept.Keys) == set id | id in v.kept && !v.kept[id].early && v.kept[id].session.harness == "codex";
  }

  /** Scored rows, what came back of them, and the patterns shown. */
  ghost predicate RowsTell(since: Time, v: View, r: Report, rows: map<ScoredRef, ScoredRow>) {
    (forall ref :: RowTells(since, v, rows, ref)) && RepeatsTell(v, rows, r) && TopTells(v, rows, r.top)
  }

  ghost predicate FirstsTell(v: View, r: Report, firsts: map<ScoredRef, Millis>) {
    (forall ref :: PairTells(v, firsts, ref)) && BaselineTells(v, firsts, r)
  }

  /** Every part of a report, by the fields of what the corpus shows. The tally and
      the actions are those of `TallyTells` and `ActionsTell`. */
  lemma ReportTells(since: Time, v: View, r: Report)
    requires IsReport(since, v, r)
    ensures v.copies.Keys == v.kept.Keys && CallsTell(v, r) && WindowTells(since, v, r.window)
    ensures exists rows :: RowsTell(since, v, r, rows)
    ensures exists firsts :: FirstsTell(v, r, firsts)
  {
    hide CallsCounted, DenialsCounted, EventsCounted, SeenBy, IsScored, RepeatsCounted, IsCorrected, IsPairs, BaselineCounted, ArePatterns, IsTop,
         CallsTell, WindowTells, RowTells, RepeatsTell, TopTells, PairTells, BaselineTells;
    CallsAreTold(v, r);
    WindowIsTold(since, v, r);
    var rows :| IsScored(since, v, v.denials.Keys, rows) && RepeatsCounted(v, rows, r) && TopShown(v, rows, r);
    forall ref
      ensures RowTells(since, v, rows, ref)
    {
      ScoredHere(since, v, rows, ref);
      ScoredTells(since, v, rows, ref);
    }
    RepeatsAreTold(since, v, rows, r);
    var patterns :| ArePatterns(v, rows, rows.Keys, patterns) && IsTop(patterns, r.top);
    TopIsTold(since, v, rows, patterns, r.top);
    assert RowsTell(since, v, r, rows);
    var corrected, firsts :|
      IsCorrected(v, v.denials.Keys, corrected) && IsPairs(v, corrected, v.kept.Keys, firsts) && BaselineCounted(v, firsts, r);
    forall ref
      ensures PairTells(v, firsts, ref)
    {
      PairHere(v, corrected, firsts, ref);
      PairsTell(v, corrected, firsts, ref);
    }
    BaselineIsTold(v, firsts, r);
    assert FirstsTell(v, r, firsts);
  }

  lemma ScoredHere(since: Time, v: View, rows: map<ScoredRef, ScoredRow>, ref: ScoredRef)
    requires IsScored(since, v, v.denials.Keys, rows)
    ensures ScoredAt(since, v, v.denials.Keys, rows, ref)
  {
  }

  lemma PairHere(v: View, corrected: set<string>, firsts: map<ScoredRef, Millis>, ref: ScoredRef)
    requires IsPairs(v, corrected, v.kept.Keys, firsts)
    ensures PairAt(v, corrected, v.kept.Keys, firsts, ref)
  {
  }
}
