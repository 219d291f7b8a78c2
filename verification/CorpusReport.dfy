/** The report: what one view of a corpus is worth. */
module CorpusReport {
  import opened Connectivity
  import opened Latest
  import opened Ordering
  import opened CorpusRows
  import opened CorpusStore
  import opened CorpusViews
  import opened CorpusTimeline
  import opened CorpusAnswers
  import opened Sorting

  datatype Reason =
    | CancelledSiblings | BlockedByRule | BlockedByAutoMode | InterruptedInSubagent | InterruptedNotHuman
    | InterruptedBetweenCalls | UntypedRejections | UnknownDenialKinds

  /** A correction, or the reason a denial is not one. */
  datatype Class = Rejected | Interrupted | NotOne(reason: Reason)

  function Classify(d: CorpusRows.Denial): Class {
    if d.kind == "user-rejected" then Rejected
    else if d.kind == "interrupted" then
      (if d.subagent then NotOne(InterruptedInSubagent)
       else if d.shutdown || d.nextOrigin == "peer" || d.nextOrigin == "task_notification" then NotOne(InterruptedNotHuman)
       else Interrupted)
    else if d.kind == "cancelled" then NotOne(CancelledSiblings)
    else if d.kind == "permission-rule" then NotOne(BlockedByRule)
    else if d.kind == "automode-blocked" || d.kind == "automode-unavailable" || d.kind == "automode-parsing-error" then NotOne(BlockedByAutoMode)
    else if d.kind == "untyped-rejection" then NotOne(UntypedRejections)
    else if d.kind == BETWEEN_CALLS then NotOne(InterruptedBetweenCalls)
    else NotOne(UnknownDenialKinds)
  }

  datatype Bucket = Outside | Uncounted(reason: Reason) | Correction(bash: bool, rejected: bool)

  function BucketOf(since: Time, d: CorpusRows.Denial): Bucket {
    if d.ts < since then Outside
    else match Classify(d)
      case NotOne(reason) => Uncounted(reason)
      case kind => Correction(d.tool == "Bash", kind == Rejected)
  }

  type Tally = map<Bucket, nat>

  function CountOf(m: Tally, b: Bucket): nat {
    if b in m then m[b] else 0
  }

  datatype Option<+T> = None | Some(value: T)

  datatype ScoredRef = ScoredRef(session: SessionRef, key: string)
  datatype ScoredRow = ScoredRow(at: Millis, shape: string)

  /** The command a denial names: the primary command of its surviving call. */
  function Named(kept: map<CallId, Sighting>, id: string, d: CorpusRows.Denial): Option<Segment> {
    var call := CallId(CLAUDE, id);
    if d.tool == "Bash" && call in kept && kept[call].line.primary >= 0 then Some(kept[call].line.segments[kept[call].line.primary])
    else None
  }

  predicate Corrects(v: View, id: string)
    requires id in v.denials
  {
    Classify(v.denials[id]) in {Rejected, Interrupted} && Named(v.kept, id, v.denials[id]).Some?
  }

  predicate Scores(since: Time, v: View, id: string)
    requires id in v.denials
  {
    Corrects(v, id) && v.denials[id].ts >= since
  }

  function RefOf(v: View, id: string): ScoredRef
    requires id in v.denials && Corrects(v, id)
  {
    ScoredRef(SessionOf(v.denials[id]), Named(v.kept, id, v.denials[id]).value.key)
  }

  function RowOf(v: View, id: string): ScoredRow
    requires id in v.denials && Corrects(v, id)
  {
    ScoredRow(Milli(v.denials[id].ts), Named(v.kept, id, v.denials[id]).value.shape)
  }

  predicate RowLess(a: ScoredRow, b: ScoredRow) {
    a.at < b.at || (a.at == b.at && Less(a.shape, b.shape))
  }

  lemma RowLessTotal(a: ScoredRow, b: ScoredRow, c: ScoredRow)
    ensures RowLess(a, b) || RowLess(b, a) || a == b
    ensures !(RowLess(a, b) && RowLess(b, a))
    ensures RowLess(a, b) && !RowLess(c, b) ==> !RowLess(c, a)
  {
    LessTotal(a.shape, b.shape);
    LessTotal(b.shape, c.shape);
    if Less(a.shape, b.shape) {
      LessAsymmetric(a.shape, b.shape);
      if Less(c.shape, a.shape) {
        LessTransitive(c.shape, a.shape, b.shape);
      }
    }
  }

  // -------------------------------------------------- what the counts stand for

  ghost predicate CorrectedBy(v: View, done: set<string>, key: string)
    requires done <= v.denials.Keys
  {
    exists id <- done :: Corrects(v, id) && RefOf(v, id).key == key
  }

  ghost function Actions(since: Time, v: View, done: set<string>): set<string>
    requires done <= v.denials.Keys
  {
    set id | id in done && BucketOf(since, v.denials[id]).Correction? :: if v.denials[id].messageId != "" then v.denials[id].messageId else id
  }

  ghost function InBucket(since: Time, v: View, done: set<string>, b: Bucket): set<string>
    requires done <= v.denials.Keys
  {
    set id | id in done && BucketOf(since, v.denials[id]) == b
  }

  ghost predicate ScoredAt(since: Time, v: View, done: set<string>, scored: map<ScoredRef, ScoredRow>, ref: ScoredRef)
    requires done <= v.denials.Keys
  {
    if ref in scored
    then (exists id <- done :: Scores(since, v, id) && RefOf(v, id) == ref && RowOf(v, id) == scored[ref])
         && forall id <- done :: Scores(since, v, id) && RefOf(v, id) == ref ==> !RowLess(RowOf(v, id), scored[ref])
    else forall id <- done :: Scores(since, v, id) ==> RefOf(v, id) != ref
  }

  /** One row per (session, key): the least of the denials that score it. */
  ghost predicate IsScored(since: Time, v: View, done: set<string>, scored: map<ScoredRef, ScoredRow>)
    requires done <= v.denials.Keys
  {
    forall ref :: ScoredAt(since, v, done, scored, ref)
  }

  predicate Pairs(s: Sighting) {
    !s.early && s.line.primary >= 0
  }

  function PairRef(s: Sighting): ScoredRef
    requires s.line.primary >= 0
  {
    ScoredRef(s.session, s.line.segments[s.line.primary].key)
  }

  ghost predicate PairAt(v: View, corrected: set<string>, done: set<CallId>, pairs: map<ScoredRef, Millis>, ref: ScoredRef)
    requires done <= v.kept.Keys
  {
    if ref in pairs
    then ref.key !in corrected
         && (exists id <- done :: Pairs(v.kept[id]) && PairRef(v.kept[id]) == ref && v.kept[id].ts == pairs[ref])
         && forall id <- done :: Pairs(v.kept[id]) && PairRef(v.kept[id]) == ref ==> v.kept[id].ts >= pairs[ref]
    else ref.key in corrected || forall id <- done :: Pairs(v.kept[id]) ==> PairRef(v.kept[id]) != ref
  }

  /** One pair per (session, key) nobody corrected, dated by its first call. */
  ghost predicate IsPairs(v: View, corrected: set<string>, done: set<CallId>, pairs: map<ScoredRef, Millis>)
    requires done <= v.kept.Keys
  {
    forall ref :: PairAt(v, corrected, done, pairs, ref)
  }

  ghost function Eligible(v: View, scored: map<ScoredRef, ScoredRow>, done: set<ScoredRef>): set<ScoredRef>
    requires done <= scored.Keys
  {
    set ref | ref in done && SessionLater(v, ref.session, scored[ref].at)
  }

  ghost function SameCommand(v: View, scored: map<ScoredRef, ScoredRow>, done: set<ScoredRef>): set<ScoredRef>
    requires done <= scored.Keys
  {
    set ref | ref in done && SessionLater(v, ref.session, scored[ref].at) && Asked(v, ref.key) && KeyLater(v, ref.key, ref.session, scored[ref].at)
  }

  ghost function SameShape(v: View, scored: map<ScoredRef, ScoredRow>, done: set<ScoredRef>): set<ScoredRef>
    requires done <= scored.Keys
  {
    set ref | ref in done && SessionLater(v, ref.session, scored[ref].at) && scored[ref].shape != "" && ShapeLater(v, scored[ref].shape, ref.session, scored[ref].at)
  }

  ghost function LaterPairs(v: View, pairs: map<ScoredRef, Millis>, done: set<ScoredRef>): set<ScoredRef>
    requires done <= pairs.Keys
  {
    set ref | ref in done && SessionLater(v, ref.session, pairs[ref])
  }

  ghost function RepeatedPairs(v: View, pairs: map<ScoredRef, Millis>, done: set<ScoredRef>): set<ScoredRef>
    requires done <= pairs.Keys
  {
    set ref | ref in done && SessionLater(v, ref.session, pairs[ref]) && Asked(v, ref.key) && KeyLater(v, ref.key, ref.session, pairs[ref])
  }

  ghost function CountedCalls(v: View, harness: string, done: set<CallId>): set<CallId>
    requires done <= v.kept.Keys
  {
    set id | id in done && !v.kept[id].early && v.kept[id].session.harness == harness
  }

  ghost function Sum(m: map<CallId, nat>, ids: set<CallId>): nat
    requires ids <= m.Keys
    decreases |ids|
  {
    if ids == {} then 0 else var id :| id in ids; m[id] + Sum(m, ids - {id})
  }

  lemma {:induction false} SumAdds(m: map<CallId, nat>, ids: set<CallId>, id: CallId)
    requires ids <= m.Keys && id in m && id !in ids
    ensures Sum(m, ids + {id}) == Sum(m, ids) + m[id]
    decreases |ids|
  {
    var all := ids + {id};
    var x :| x in all && Sum(m, all) == m[x] + Sum(m, all - {x});
    if x == id {
      assert all - {x} == ids;
    } else {
      SumAdds(m, ids - {x}, id);
      assert all - {x} == (ids - {x}) + {id};
      SumAdds(m, ids - {x}, x);
      assert (ids - {x}) + {x} == ids;
    }
  }

  // ------------------------------------------------------- patterns and window

  /** How a command without a shape prints. */
  const OTHER_SHAPE := "(other command)"

  const MAX_TOP := 10

  /** One shape that came back, and how often. */
  datatype Pattern = Pattern(shape: string, sameCommand: nat, sameShape: nat)

  function PrintedShape(row: ScoredRow): string {
    if row.shape != "" then row.shape else OTHER_SHAPE
  }

  /** The rows that print as this shape. */
  ghost function Printing(scored: map<ScoredRef, ScoredRow>, refs: set<ScoredRef>, shape: string): set<ScoredRef> {
    set ref | ref in refs && ref in scored && PrintedShape(scored[ref]) == shape
  }

  /** The shape's pattern has these counts, and is there if it has these rows. */
  ghost predicate PatternIs(patterns: map<string, Pattern>, shape: string, rows: set<ScoredRef>, command: nat, same: nat) {
    if shape in patterns then rows != {} && patterns[shape] == Pattern(shape, command, same) else rows == {}
  }

  ghost predicate PatternAt(v: View, scored: map<ScoredRef, ScoredRow>, done: set<ScoredRef>, patterns: map<string, Pattern>, shape: string)
    requires done <= scored.Keys
  {
    PatternIs(patterns, shape, Printing(scored, Eligible(v, scored, done), shape), |Printing(scored, SameCommand(v, scored, done), shape)|,
              |Printing(scored, SameShape(v, scored, done), shape)|)
  }

  /** One pattern per shape an eligible row prints as. */
  ghost predicate ArePatterns(v: View, scored: map<ScoredRef, ScoredRow>, done: set<ScoredRef>, patterns: map<string, Pattern>)
    requires done <= scored.Keys
  {
    forall shape :: PatternAt(v, scored, done, patterns, shape)
  }

  predicate Shown(p: Pattern) {
    p.sameShape > 0 || (p.shape == OTHER_SHAPE && p.sameCommand > 0)
  }

  /** Most repeated first, by command, then by shape, then by name. */
  predicate PatternLess(a: Pattern, b: Pattern) {
    || a.sameCommand > b.sameCommand
    || (a.sameCommand == b.sameCommand && (a.sameShape > b.sameShape || (a.sameShape == b.sameShape && Less(a.shape, b.shape))))
  }

  function Ahead(): (Pattern, Pattern) -> bool {
    (a, b) => PatternLess(a, b)
  }

  ghost function ShownIn(patterns: map<string, Pattern>, shapes: set<string>): set<Pattern> {
    set shape | shape in shapes && shape in patterns && Shown(patterns[shape]) :: patterns[shape]
  }

  ghost predicate IsListing(patterns: map<string, Pattern>, all: seq<Pattern>) {
    Ascends(all, Ahead()) && multiset(all) == multiset(ShownIn(patterns, patterns.Keys))
  }

  /** The first ten of the patterns that came back. */
  ghost predicate IsTop(patterns: map<string, Pattern>, top: seq<Pattern>) {
    exists all: seq<Pattern> :: IsListing(patterns, all) && top == if |all| <= MAX_TOP then all else all[..MAX_TOP]
  }

  /** First and last moment seen. */
  datatype Span = NoSpan | Span(first: Millis, last: Millis)

  function Widened(w: Span, ts: Millis): Span {
    match w
    case NoSpan => Span(ts, ts)
    case Span(first, last) => Span(if ts < first then ts else first, if ts > last then ts else last)
  }

  ghost predicate IsSpan(times: set<Millis>, w: Span) {
    match w
    case NoSpan => times == {}
    case Span(first, last) => first in times && last in times && forall ts <- times :: first <= ts <= last
  }

  lemma SpanWidens(times: set<Millis>, w: Span, ts: Millis)
    requires IsSpan(times, w)
    ensures IsSpan(times + {ts}, Widened(w, ts))
  {
  }

  lemma SpanIsSettled(times: set<Millis>, a: Span, b: Span)
    requires IsSpan(times, a) && IsSpan(times, b)
    ensures a == b
  {
  }

  /** When calls inside the window were made. */
  ghost function CallTimes(v: View, done: set<CallId>): set<Millis>
    requires done <= v.kept.Keys
  {
    set id | id in done && !v.kept[id].early :: v.kept[id].ts
  }

  ghost function DenialTimes(since: Time, v: View, done: set<string>): set<Millis>
    requires done <= v.denials.Keys
  {
    set id | id in done && v.denials[id].ts >= since :: Milli(v.denials[id].ts)
  }

  datatype Report = Report(window: Span, top: seq<Pattern>, claudeCalls: nat, codexCalls: nat, copiedCalls: nat, tally: Tally, userActions: nat,
                           scored: nat, eligible: nat, sameCommand: nat, sameShape: nat, baselinePairs: nat, baselineRepeated: nat,
                           events: map<string, nat>)

  ghost predicate IsCorrected(v: View, done: set<string>, corrected: set<string>)
    requires done <= v.denials.Keys
  {
    forall key :: key in corrected <==> CorrectedBy(v, done, key)
  }

  ghost predicate CallsCounted(v: View, r: Report)
    requires v.copies.Keys == v.kept.Keys
  {
    && r.claudeCalls == |CountedCalls(v, CLAUDE, v.kept.Keys)| && r.codexCalls == |CountedCalls(v, "codex", v.kept.Keys)|
    && r.copiedCalls == Sum(v.copies, set id | id in v.kept && !v.kept[id].early)
  }

  ghost predicate DenialsCounted(since: Time, v: View, r: Report) {
    && (forall b: Bucket :: !b.Outside? ==> CountOf(r.tally, b) == |InBucket(since, v, v.denials.Keys, b)|)
    && Outside !in r.tally && (forall b <- r.tally.Keys :: r.tally[b] > 0)
    && r.userActions == |Actions(since, v, v.denials.Keys)|
  }

  ghost predicate RepeatsCounted(v: View, scored: map<ScoredRef, ScoredRow>, r: Report) {
    && r.scored == |scored| && r.eligible == |Eligible(v, scored, scored.Keys)|
    && r.sameCommand == |SameCommand(v, scored, scored.Keys)| && r.sameShape == |SameShape(v, scored, scored.Keys)|
  }

  ghost predicate BaselineCounted(v: View, pairs: map<ScoredRef, Millis>, r: Report) {
    r.baselinePairs == |LaterPairs(v, pairs, pairs.Keys)| && r.baselineRepeated == |RepeatedPairs(v, pairs, pairs.Keys)|
  }

  ghost predicate EventsCounted(events: set<EventRef>, m: map<string, nat>) {
    m.Keys == (set e | e in events :: e.kind) && forall kind <- m.Keys :: m[kind] == |set e | e in events && e.kind == kind|
  }

  /** First and last moment of the calls inside the window and of these denials. */
  ghost predicate SeenBy(since: Time, v: View, done: set<string>, w: Span)
    requires done <= v.denials.Keys
  {
    IsSpan(CallTimes(v, v.kept.Keys) + DenialTimes(since, v, done), w)
  }

  ghost predicate TopShown(v: View, scored: map<ScoredRef, ScoredRow>, r: Report) {
    exists patterns :: ArePatterns(v, scored, scored.Keys, patterns) && IsTop(patterns, r.top)
  }

  /** Everything a report of this view says. */
  ghost predicate IsReport(since: Time, v: View, r: Report) {
    && v.copies.Keys == v.kept.Keys
    && CallsCounted(v, r) && DenialsCounted(since, v, r) && EventsCounted(v.events, r.events)
    && SeenBy(since, v, v.denials.Keys, r.window)
    && (exists scored :: IsScored(since, v, v.denials.Keys, scored) && RepeatsCounted(v, scored, r) && TopShown(v, scored, r))
    && (exists corrected, pairs ::
          IsCorrected(v, v.denials.Keys, corrected) && IsPairs(v, corrected, v.kept.Keys, pairs) && BaselineCounted(v, pairs, r))
  }

  // ------------------------------------------------ a view has one report

  lemma ScoredIsSettled(since: Time, v: View, a: map<ScoredRef, ScoredRow>, b: map<ScoredRef, ScoredRow>)
    requires IsScored(since, v, v.denials.Keys, a) && IsScored(since, v, v.denials.Keys, b)
    ensures a == b
  {
    hide Corrects, RefOf, RowOf, RowLess;
    forall ref
      ensures ref in a <==> ref in b
      ensures ref in a ==> a[ref] == b[ref]
    {
      assert ScoredAt(since, v, v.denials.Keys, a, ref) && ScoredAt(since, v, v.denials.Keys, b, ref);
      if ref in a && ref in b {
        RowLessTotal(a[ref], b[ref], a[ref]);
      }
    }
  }

  lemma PairsAreSettled(v: View, corrected: set<string>, a: map<ScoredRef, Millis>, b: map<ScoredRef, Millis>)
    requires IsPairs(v, corrected, v.kept.Keys, a) && IsPairs(v, corrected, v.kept.Keys, b)
    ensures a == b
  {
    hide Pairs, PairRef;
    forall ref
      ensures ref in a <==> ref in b
      ensures ref in a ==> a[ref] == b[ref]
    {
      assert PairAt(v, corrected, v.kept.Keys, a, ref) && PairAt(v, corrected, v.kept.Keys, b, ref);
    }
  }

  lemma TallyIsSettled(since: Time, v: View, a: Report, b: Report)
    requires DenialsCounted(since, v, a) && DenialsCounted(since, v, b)
    ensures a.tally == b.tally && a.userActions == b.userActions
  {
    hide InBucket, Actions;
    forall k: Bucket
      ensures k in a.tally <==> k in b.tally
      ensures k in a.tally ==> a.tally[k] == b.tally[k]
    {
      assert !k.Outside? ==> CountOf(a.tally, k) == CountOf(b.tally, k);
    }
  }

  lemma PatternsAreSettled(v: View, scored: map<ScoredRef, ScoredRow>, a: map<string, Pattern>, b: map<string, Pattern>)
    requires ArePatterns(v, scored, scored.Keys, a) && ArePatterns(v, scored, scored.Keys, b)
    ensures a == b
  {
    hide Printing, Eligible, SameCommand, SameShape;
    forall shape
      ensures shape in a <==> shape in b
      ensures shape in a ==> a[shape] == b[shape]
    {
      assert PatternAt(v, scored, scored.Keys, a, shape) && PatternAt(v, scored, scored.Keys, b, shape);
    }
  }

  /** The order of the patterns leaves one list, whatever order the map gave them in. */
  lemma TopIsSettled(patterns: map<string, Pattern>, a: seq<Pattern>, b: seq<Pattern>)
    requires IsTop(patterns, a) && IsTop(patterns, b)
    ensures a == b
  {
    hide IsListing;
    var x :| IsListing(patterns, x) && a == if |x| <= MAX_TOP then x else x[..MAX_TOP];
    var y :| IsListing(patterns, y) && b == if |y| <= MAX_TOP then y else y[..MAX_TOP];
    ListingIsSettled(patterns, x, y);
  }

  lemma ListingIsSettled(patterns: map<string, Pattern>, x: seq<Pattern>, y: seq<Pattern>)
    requires IsListing(patterns, x) && IsListing(patterns, y)
    ensures x == y
  {
    OneArrangement(x, y, Ahead());
  }

  /** One view has one report. */
  lemma ReportIsSettled(since: Time, v: View, a: Report, b: Report)
    requires IsReport(since, v, a) && IsReport(since, v, b)
    ensures a == b
  {
    hide IsScored, IsPairs, CorrectedBy, CountedCalls, Eligible, SameCommand, SameShape, LaterPairs, RepeatedPairs, DenialsCounted, EventsCounted,
         ArePatterns, IsTop, IsSpan, CallTimes, DenialTimes;
    SpanIsSettled(CallTimes(v, v.kept.Keys) + DenialTimes(since, v, v.denials.Keys), a.window, b.window);
    TallyIsSettled(since, v, a, b);
    EventsAreSettled(v.events, a.events, b.events);
    var s1 :| IsScored(since, v, v.denials.Keys, s1) && RepeatsCounted(v, s1, a) && TopShown(v, s1, a);
    var s2 :| IsScored(since, v, v.denials.Keys, s2) && RepeatsCounted(v, s2, b) && TopShown(v, s2, b);
    ScoredIsSettled(since, v, s1, s2);
    var m1 :| ArePatterns(v, s1, s1.Keys, m1) && IsTop(m1, a.top);
    var m2 :| ArePatterns(v, s1, s1.Keys, m2) && IsTop(m2, b.top);
    PatternsAreSettled(v, s1, m1, m2);
    TopIsSettled(m1, a.top, b.top);
    var c1, p1 :| IsCorrected(v, v.denials.Keys, c1) && IsPairs(v, c1, v.kept.Keys, p1) && BaselineCounted(v, p1, a);
    var c2, p2 :| IsCorrected(v, v.denials.Keys, c2) && IsPairs(v, c2, v.kept.Keys, p2) && BaselineCounted(v, p2, b);
    assert c1 == c2;
    PairsAreSettled(v, c1, p1, p2);
  }

  lemma EventsAreSettled(events: set<EventRef>, a: map<string, nat>, b: map<string, nat>)
    requires EventsCounted(events, a) && EventsCounted(events, b)
    ensures a == b
  {
  }

  /** Two corpora that heard the same calls and denials, in whatever order,
      report the same counts, window and patterns. */
  lemma SameReportInAnyOrder(one: Corpus, two: Corpus, a: Report, b: Report)
    requires one.Valid() && two.Valid() && one.since == two.since && one.text == two.text
    requires multiset(one.callLog) == multiset(two.callLog) && multiset(one.denialLog) == multiset(two.denialLog)
    requires NoTies(HeardIn(one.text, one.since, one.callLog), RefusedIn(one.denialLog))
    requires IsReport(one.since, ViewOf(one), a) && IsReport(two.since, ViewOf(two), b)
    ensures a == b
  {
    hide IsReport, ViewOf, Corpus.Linked, Corpus.Kept, Corpus.Joined, NoTies, HeardIn, RefusedIn;
    OrderDoesNotMatter(one, two);
    ReportIsSettled(one.since, ViewOf(one), a, b);
  }
}
