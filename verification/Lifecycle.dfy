/** Commitment state: authored evidence closes or supersedes the one open item
    it fits best. */
module Lifecycle {
  import opened Ordering
  import opened Sorting

  datatype Option<+T> = None | Some(value: T)

  datatype Atom = Atom(provider: string, kind: string, value: string)

  datatype Span = Span(memoryId: string, messageRef: string, blockRef: string, ancestorRefs: seq<string>, quote: string, occurredAt: string)

  datatype Direction = OwedBySelf | OwedByCounterparty

  datatype State = Open | Closed | Superseded

  datatype Citation = Citation(memoryId: string, commitmentId: string, role: string, evidenceRef: string, source: string)

  datatype Item = Item(id: string, owner: Atom, counterparty: Atom, counterpartyKeys: seq<string>, direction: Direction, summary: string,
                       openedBy: Span, due: string, state: State, closureRef: string, supersededBy: string, gap: string,
                       citations: seq<Citation>, duplicateOf: string)

  datatype Party = Unknown | Self | Counterparty

  datatype Evidence = Evidence(memoryId: string, text: string, occurredAt: string, party: Party, authored: bool, counterpartyKeys: seq<string>,
                               citation: Citation)

  /** What a message says happened, and whose words can prove it. */
  datatype Turn = Nothing | Closes | Supersedes
  datatype Voice = Delivery | Ack | AttendanceAck | Either

  /** A counterparty key, lower-cased and cut at its first colon. */
  datatype KeyText = KeyText(text: string, cut: bool, kind: string, value: string, words: nat)

  /** The text helpers: phrase tables, tokenizer, clock text, key text, wording. */
  datatype Language = Language(
    turn: string -> Turn, voice: string -> Voice, tokens: string -> set<string>, instant: string -> Option<int>, trim: string -> string,
    fold: string -> string, oneLine: string -> string, key: string -> KeyText, gap: (string, nat) -> string)

  // ------------------------------------------------------------------- scoring

  function Overlap(lang: Language, a: string, b: string): nat {
    |lang.tokens(a) * lang.tokens(b)|
  }

  predicate StrictlyAfter(lang: Language, opened_: string, evidence: string) {
    var o, e := lang.instant(lang.trim(opened_)), lang.instant(lang.trim(evidence));
    o.Some? && e.Some? && e.value > o.value
  }

  ghost predicate SharesAtom(lang: Language, keys: seq<string>, others: seq<string>) {
    exists k <- keys, o <- others ::
      lang.key(k).cut && lang.key(k).kind != "given" && lang.key(k).kind != "name" && lang.key(o).text == lang.key(k).text
  }

  function AtomValues(lang: Language, keys: seq<string>, kind: string): set<string> {
    set k | k in keys && lang.key(k).cut && lang.key(k).kind == kind && lang.key(k).value != "" :: lang.key(k).value
  }

  predicate Disagree(lang: Language, keys: seq<string>, others: seq<string>, kind: string) {
    var a, b := AtomValues(lang, keys, kind), AtomValues(lang, others, kind);
    a != {} && b != {} && a !! b
  }

  /** Addresses decide when both sides have one; handles only otherwise. */
  predicate AtomsConflict(lang: Language, keys: seq<string>, others: seq<string>) {
    if AtomValues(lang, keys, "address") != {} && AtomValues(lang, others, "address") != {}
    then Disagree(lang, keys, others, "address")
    else Disagree(lang, keys, others, "handle")
  }

  function FullNames(lang: Language, keys: seq<string>): set<string> {
    set k | k in keys && lang.key(k).cut && lang.key(k).kind == "name" && lang.key(k).words >= 2 :: lang.key(k).value
  }

  ghost predicate LinkedBy(lang: Language, keys: seq<string>, others: seq<string>) {
    || SharesAtom(lang, keys, others)
    || (!AtomsConflict(lang, keys, others) && !(FullNames(lang, keys) !! FullNames(lang, others)))
  }

  method CounterpartyLinked(lang: Language, keys: seq<string>, evidenceKeys: seq<string>) returns (linked: bool)
    ensures linked <==> LinkedBy(lang, keys, evidenceKeys)
  {
    var texts := set o | o in evidenceKeys :: lang.key(o).text;
    var i := 0;
    while i < |keys|
      invariant i <= |keys|
      invariant forall j, o :: 0 <= j < i && o in evidenceKeys ==>
                  !(lang.key(keys[j]).cut && lang.key(keys[j]).kind != "given" && lang.key(keys[j]).kind != "name" && lang.key(o).text == lang.key(keys[j]).text)
    {
      var k := lang.key(keys[i]);
      if k.cut && k.kind != "given" && k.kind != "name" && k.text in texts {
        ghost var o :| o in evidenceKeys && lang.key(o).text == k.text;
        assert keys[i] in keys && SharesAtom(lang, keys, evidenceKeys);
        return true;
      }
      i := i + 1;
    }
    forall k, o | k in keys && o in evidenceKeys
      ensures !(lang.key(k).cut && lang.key(k).kind != "given" && lang.key(k).kind != "name" && lang.key(o).text == lang.key(k).text)
    {
      var j :| 0 <= j < |keys| && keys[j] == k;
    }
    if AtomsConflict(lang, keys, evidenceKeys) {
      return false;
    }
    linked := !(FullNames(lang, keys) !! FullNames(lang, evidenceKeys));
  }

  /** A given name, or a name of one word, is never identity evidence. */
  lemma BareNamesNeverLink(lang: Language, keys: seq<string>, others: seq<string>)
    requires forall k <- keys :: !lang.key(k).cut || lang.key(k).kind == "given" || (lang.key(k).kind == "name" && lang.key(k).words < 2)
    ensures !LinkedBy(lang, keys, others)
  {
    assert FullNames(lang, keys) == {};
  }

  /** Which side is asked does not matter, for keys whose text fixes their cut. */
  lemma LinkingIsMutual(lang: Language, keys: seq<string>, others: seq<string>)
    requires forall a, b :: lang.key(a).text == lang.key(b).text ==> lang.key(a) == lang.key(b)
    ensures LinkedBy(lang, keys, others) <==> LinkedBy(lang, others, keys)
  {
    if SharesAtom(lang, keys, others) {
      var k, o :| k in keys && o in others && lang.key(k).cut && lang.key(k).kind != "given" && lang.key(k).kind != "name"
                  && lang.key(o).text == lang.key(k).text;
      assert SharesAtom(lang, others, keys);
    }
    if SharesAtom(lang, others, keys) {
      var k, o :| k in others && o in keys && lang.key(k).cut && lang.key(k).kind != "given" && lang.key(k).kind != "name"
                  && lang.key(o).text == lang.key(k).text;
      assert SharesAtom(lang, keys, others);
    }
  }

  function OwnerOf(c: Item): Party {
    if c.direction == OwedBySelf then Self else Counterparty
  }

  /** The words count for this item: known author, later than its opening, about
      the same party, and said by the side whose words can prove it. */
  ghost predicate MayJudge(lang: Language, c: Item, e: Evidence) {
    && e.party != Unknown && StrictlyAfter(lang, c.openedBy.occurredAt, e.occurredAt)
    && (c.openedBy.memoryId == e.memoryId || LinkedBy(lang, c.counterpartyKeys, e.counterpartyKeys))
    && (lang.voice(e.text) == Delivery ==> e.party == OwnerOf(c))
    && (lang.voice(e.text) in {Ack, AttendanceAck} ==> e.party != OwnerOf(c))
  }

  ghost function Score(lang: Language, c: Item, e: Evidence): nat {
    var overlap := Overlap(lang, c.summary + " " + c.openedBy.quote, e.text);
    var same := c.openedBy.memoryId == e.memoryId;
    if !MayJudge(lang, c, e) || (overlap == 0 && (lang.voice(e.text) == AttendanceAck || !same)) then 0
    else overlap * 10 + (if same then 1 else 0) + (if lang.turn(e.text) == Supersedes then 1 else 0)
  }

  method ClosureScore(lang: Language, c: Item, e: Evidence) returns (score: nat)
    ensures score == Score(lang, c, e)
  {
    if e.party == Unknown || !StrictlyAfter(lang, c.openedBy.occurredAt, e.occurredAt) {
      return 0;
    }
    if c.openedBy.memoryId != e.memoryId {
      var linked := CounterpartyLinked(lang, c.counterpartyKeys, e.counterpartyKeys);
      if !linked {
        return 0;
      }
    }
    var owner, voice := OwnerOf(c), lang.voice(e.text);
    if voice == Delivery && e.party != owner {
      return 0;
    }
    if (voice == Ack || voice == AttendanceAck) && e.party == owner {
      return 0;
    }
    var overlap := Overlap(lang, c.summary + " " + c.openedBy.quote, e.text);
    var same := c.openedBy.memoryId == e.memoryId;
    if overlap == 0 {
      if voice == AttendanceAck || !same {
        return 0;
      }
    }
    score := overlap * 10;
    if same {
      score := score + 1;
    }
    if lang.turn(e.text) == Supersedes {
      score := score + 1;
    }
  }

  // ---------------------------------------------------------------- projecting

  datatype Result = Result(item: Item, closureEvidence: int)

  predicate Acts(lang: Language, e: Evidence) {
    lang.turn(e.text) != Nothing && e.authored
  }

  ghost predicate Competes(lang: Language, out: seq<Result>, i: nat, e: Evidence)
    requires i < |out|
  {
    out[i].item.state == Open && Score(lang, out[i].item, e) > 0
  }

  /** No open item scores higher. */
  ghost predicate Tops(lang: Language, out: seq<Result>, i: nat, e: Evidence)
    requires i < |out|
  {
    && Competes(lang, out, i, e)
    && forall j {:trigger Competes(lang, out, j, e)} :: 0 <= j < |out| && Competes(lang, out, j, e) ==>
         Score(lang, out[j].item, e) <= Score(lang, out[i].item, e)
  }

  /** Every other open item scores strictly lower. */
  ghost predicate Wins(lang: Language, out: seq<Result>, i: nat, e: Evidence)
    requires i < |out|
  {
    && Competes(lang, out, i, e)
    && forall j {:trigger Competes(lang, out, j, e)} :: 0 <= j < |out| && j != i && Competes(lang, out, j, e) ==>
         Score(lang, out[j].item, e) < Score(lang, out[i].item, e)
  }

  ghost function TopSet(lang: Language, out: seq<Result>, e: Evidence): set<nat> {
    set i: nat | i < |out| && Tops(lang, out, i, e)
  }

  function Changed(lang: Language, r: Result, e: Evidence, index: nat): Result {
    if lang.turn(e.text) == Supersedes then r.(item := r.item.(state := Superseded, supersededBy := e.memoryId))
    else r.(item := r.item.(state := Closed, closureRef := e.memoryId), closureEvidence := index)
  }

  ghost function AfterAt(lang: Language, out: seq<Result>, i: nat, e: Evidence, index: nat): Result
    requires i < |out|
  {
    if !Acts(lang, e) || !Tops(lang, out, i, e) then out[i]
    else if Wins(lang, out, i, e) then Changed(lang, out[i], e, index)
    else out[i].(item := out[i].item.(gap := lang.gap(e.memoryId, |TopSet(lang, out, e)|)))
  }

  /** One piece of evidence against the items as they then stand. */
  ghost function After(lang: Language, out: seq<Result>, e: Evidence, index: nat): (r: seq<Result>)
    ensures |r| == |out| && forall i :: 0 <= i < |out| ==> r[i] == AfterAt(lang, out, i, e, index)
  {
    seq(|out|, i requires 0 <= i < |out| => AfterAt(lang, out, i, e, index))
  }

  function Start(items: seq<Item>): (r: seq<Result>)
    ensures |r| == |items|
  {
    seq(|items|, i requires 0 <= i < |items| => Result(items[i], -1))
  }

  /** The items after the first n pieces, taken in `order`. */
  ghost function Projected(lang: Language, items: seq<Item>, evidence: seq<Evidence>, order: seq<nat>, n: nat): (r: seq<Result>)
    requires IsOrder(order, |evidence|) && n <= |order|
    ensures |r| == |items|
  {
    if n == 0 then Start(items)
    else After(lang, Projected(lang, items, evidence, order, n - 1), evidence[order[n - 1]], order[n - 1])
  }

  function EvidenceKeyLess(): (Evidence, Evidence) -> bool {
    (a: Evidence, b: Evidence) =>
      if a.occurredAt != b.occurredAt then Less(a.occurredAt, b.occurredAt)
      else if a.memoryId != b.memoryId then Less(a.memoryId, b.memoryId)
      else Less(a.text, b.text)
  }

  // ------------------------------------------------------------------ the loops

  /** `best` lists, in order, the top open items among the first n. */
  ghost predicate BestOf(lang: Language, out: seq<Result>, e: Evidence, n: nat, bestScore: nat, best: seq<nat>)
    requires n <= |out|
  {
    && (bestScore == 0 <==> best == [])
    && (forall j {:trigger Competes(lang, out, j, e)} :: 0 <= j < n && Competes(lang, out, j, e) ==> Score(lang, out[j].item, e) <= bestScore)
    && (forall j: nat :: j in best <==> j < n && Competes(lang, out, j, e) && Score(lang, out[j].item, e) == bestScore)
    && (forall j, k :: 0 <= j < k < |best| ==> best[j] < best[k])
  }

  lemma BestSkips(lang: Language, out: seq<Result>, e: Evidence, n: nat, bestScore: nat, best: seq<nat>)
    requires n < |out| && BestOf(lang, out, e, n, bestScore, best)
    requires !Competes(lang, out, n, e) || Score(lang, out[n].item, e) < bestScore
    ensures BestOf(lang, out, e, n + 1, bestScore, best)
  {
    hide Score;
  }

  lemma BestTakes(lang: Language, out: seq<Result>, e: Evidence, n: nat, bestScore: nat, best: seq<nat>)
    requires n < |out| && BestOf(lang, out, e, n, bestScore, best)
    requires Competes(lang, out, n, e) && Score(lang, out[n].item, e) >= bestScore
    ensures var score := Score(lang, out[n].item, e);
            BestOf(lang, out, e, n + 1, score, if score > bestScore then [n] else best + [n])
  {
    var score := Score(lang, out[n].item, e);
    assert score > 0;
    hide Score, Competes;
    var next := if score > bestScore then [n] else best + [n];
    forall j: nat
      ensures j in next <==> j < n + 1 && Competes(lang, out, j, e) && Score(lang, out[j].item, e) == score
    {
      assert j in best <==> j < n && Competes(lang, out, j, e) && Score(lang, out[j].item, e) == bestScore;
      assert j < n && Competes(lang, out, j, e) ==> Score(lang, out[j].item, e) <= bestScore;
    }
    forall j | 0 <= j < |best|
      ensures best[j] < n
    {
      assert best[j] in best;
    }
  }

  lemma BestIsTop(lang: Language, out: seq<Result>, e: Evidence, bestScore: nat, best: seq<nat>)
    requires BestOf(lang, out, e, |out|, bestScore, best)
    ensures forall i: nat :: i in best <==> i < |out| && Tops(lang, out, i, e)
  {
    hide Score;
    forall j: nat
      ensures j in best <==> j < |out| && Tops(lang, out, j, e)
    {
      if best != [] {
        assert best[0] in best && Competes(lang, out, best[0], e);
      }
    }
  }

  /** The ascending list of the top open items, and their score. */
  method BestOpen(lang: Language, out: seq<Result>, e: Evidence) returns (bestScore: nat, best: seq<nat>)
    ensures bestScore == 0 <==> best == []
    ensures forall i: nat :: i in best <==> i < |out| && Tops(lang, out, i, e)
    ensures forall j, k :: 0 <= j < k < |best| ==> best[j] < best[k]
  {
    bestScore, best := 0, [];
    var i := 0;
    while i < |out|
      invariant i <= |out| && BestOf(lang, out, e, i, bestScore, best)
    {
      hide Score, BestOf;
      if out[i].item.state != Open {
        BestSkips(lang, out, e, i, bestScore, best);
        i := i + 1;
        continue;
      }
      var score := ClosureScore(lang, out[i].item, e);
      if score > bestScore {
        BestTakes(lang, out, e, i, bestScore, best);
        bestScore, best := score, [i];
      } else if score > 0 && score == bestScore {
        BestTakes(lang, out, e, i, bestScore, best);
        best := best + [i];
      } else {
        BestSkips(lang, out, e, i, bestScore, best);
      }
      i := i + 1;
    }
    BestIsTop(lang, out, e, bestScore, best);
  }

  /** Applies one piece of evidence in place. */
  method Judge(lang: Language, out: seq<Result>, e: Evidence, index: nat) returns (next: seq<Result>)
    ensures next == After(lang, out, e, index)
  {
    hide Score;
    next := out;
    if !Acts(lang, e) {
      return;
    }
    var bestScore, best := BestOpen(lang, out, e);
    if bestScore == 0 {
      return;
    }
    BestIsTopSet(lang, out, e, best);
    if |best| != 1 {
      var gap := lang.gap(e.memoryId, |best|);
      var k := 0;
      while k < |best|
        invariant k <= |best| && |next| == |out|
        invariant forall i :: 0 <= i < |out| ==>
                    next[i] == if i in best[..k] then out[i].(item := out[i].item.(gap := gap)) else out[i]
      {
        assert best[k] in best;
        next := next[best[k] := next[best[k]].(item := next[best[k]].item.(gap := gap))];
        k := k + 1;
      }
      assert best[..k] == best;
      return;
    }
    var i := best[0];
    assert i in best;
    next := next[i := Changed(lang, next[i], e, index)];
  }

  lemma BestIsTopSet(lang: Language, out: seq<Result>, e: Evidence, best: seq<nat>)
    requires best != []
    requires forall i: nat :: i in best <==> i < |out| && Tops(lang, out, i, e)
    requires forall j, k :: 0 <= j < k < |best| ==> best[j] < best[k]
    ensures |TopSet(lang, out, e)| == |best|
    ensures forall i :: 0 <= i < |out| && Tops(lang, out, i, e) ==> (Wins(lang, out, i, e) <==> |best| == 1)
  {
    hide Score;
    assert TopSet(lang, out, e) == Places(best);
    DistinctSize(best);
    forall i | 0 <= i < |out| && Tops(lang, out, i, e)
      ensures Wins(lang, out, i, e) <==> |best| == 1
    {
      assert i in best;
      if |best| > 1 {
        var other := if best[0] == i then best[1] else best[0];
        assert other in best && other != i && Tops(lang, out, other, e);
      } else {
        forall j | 0 <= j < |out| && j != i && Competes(lang, out, j, e)
          ensures Score(lang, out[j].item, e) < Score(lang, out[i].item, e)
        {
          assert j !in best;
        }
      }
    }
  }

  ghost function Places(s: seq<nat>): set<nat> {
    set i | i in s
  }

  lemma {:induction false} DistinctSize(s: seq<nat>)
    requires forall j, k :: 0 <= j < k < |s| ==> s[j] < s[k]
    ensures |Places(s)| == |s|
    decreases |s|
  {
    if |s| > 0 {
      var n := |s| - 1;
      DistinctSize(s[..n]);
      assert s == s[..n] + [s[n]];
      assert Places(s) == Places(s[..n]) + {s[n]};
      assert s[n] !in s[..n];
    }
  }

  /** The evidence folded in one piece at a time, in time, memory and text order. */
  ghost predicate IsProjection(lang: Language, items: seq<Item>, evidence: seq<Evidence>, out: seq<Result>) {
    exists order: seq<nat> ::
      && IsOrder(order, |evidence|) && InOrder(evidence, EvidenceKeyLess(), order) && Rearranges(evidence, order)
      && out == Projected(lang, items, evidence, order, |evidence|)
  }

  ghost predicate Rearranges(evidence: seq<Evidence>, order: seq<nat>)
    requires IsOrder(order, |evidence|)
  {
    multiset(Arranged(evidence, order)) == multiset(evidence)
  }

  /** What one item's outcome owes to the evidence: nothing moved it, or one
      allowed and authored piece did, and the record names that piece. */
  ghost predicate Evidenced(lang: Language, item: Item, evidence: seq<Evidence>, r: Result) {
    && SameTerms(item, r.item)
    && (r.item.state == item.state ==>
          r.closureEvidence == -1 && r.item.closureRef == item.closureRef && r.item.supersededBy == item.supersededBy)
    && (r.item.state != item.state ==> item.state == Open && exists e <- evidence :: MovedBy(lang, item, evidence, r, e))
  }

  ghost predicate MovedBy(lang: Language, item: Item, evidence: seq<Evidence>, r: Result, e: Evidence) {
    && Acts(lang, e) && MayJudge(lang, item, e)
    && if lang.turn(e.text) == Supersedes
       then r.item.state == Superseded && r.item.supersededBy == e.memoryId && r.closureEvidence == -1
       else r.item.state == Closed && r.item.closureRef == e.memoryId
            && 0 <= r.closureEvidence < |evidence| && evidence[r.closureEvidence] == e
  }

  method ProjectLifecycle(lang: Language, items: seq<Item>, evidence: seq<Evidence>) returns (out: seq<Result>)
    ensures IsProjection(lang, items, evidence, out)
    ensures |out| == |items| && forall i :: 0 <= i < |items| ==> Evidenced(lang, items[i], evidence, out[i])
  {
    hide After, Evidenced, Projected, InOrder;
    EvidenceOrderBehaves(evidence);
    var sorted := Sorting.Sort(evidence, EvidenceKeyLess());
    out := Start(items);
    ProjectedNone(lang, items, evidence, sorted);
    var k := 0;
    while k < |sorted|
      invariant k <= |sorted| && out == Projected(lang, items, evidence, sorted, k)
    {
      ProjectedNext(lang, items, evidence, sorted, k);
      out := Judge(lang, out, evidence[sorted[k]], sorted[k]);
      k := k + 1;
    }
    forall i | 0 <= i < |items|
      ensures Evidenced(lang, items[i], evidence, out[i])
    {
      OutcomeIsEvidenced(lang, items, evidence, sorted, i);
    }
  }

  lemma ProjectedNone(lang: Language, items: seq<Item>, evidence: seq<Evidence>, order: seq<nat>)
    requires IsOrder(order, |evidence|)
    ensures Projected(lang, items, evidence, order, 0) == Start(items)
  {
  }

  lemma OutcomeIsEvidenced(lang: Language, items: seq<Item>, evidence: seq<Evidence>, order: seq<nat>, i: nat)
    requires IsOrder(order, |evidence|) && i < |items|
    ensures Evidenced(lang, items[i], evidence, Projected(lang, items, evidence, order, |evidence|)[i])
  {
    hide Projected, Wins, SameTerms;
    LifecycleIsEvidenced(lang, items, evidence, order, i, |evidence|);
    var r := Projected(lang, items, evidence, order, |evidence|)[i];
    if k: nat :| k < |evidence| && MovedAt(lang, items, evidence, order, i, k) {
      assert MovedBy(lang, items[i], evidence, r, evidence[order[k]]);
    }
  }

  lemma EvidenceOrderBehaves(evidence: seq<Evidence>)
    ensures Behaves(evidence, EvidenceKeyLess())
  {
    var less := EvidenceKeyLess();
    forall a, b | a in evidence && b in evidence && less(a, b)
      ensures !less(b, a)
    {
      EvidenceOrder(a, b, b);
    }
    forall a, b, c | a in evidence && b in evidence && c in evidence && !less(b, a) && !less(c, b)
      ensures !less(c, a)
    {
      EvidenceOrder(a, b, c);
    }
  }

  lemma EvidenceOrder(a: Evidence, b: Evidence, c: Evidence)
    ensures var less := EvidenceKeyLess();
            (less(a, b) ==> !less(b, a)) && (!less(b, a) && !less(c, b) ==> !less(c, a))
  {
    TextOrder(a.occurredAt, b.occurredAt, c.occurredAt);
    TextOrder(a.memoryId, b.memoryId, c.memoryId);
    TextOrder(a.text, b.text, c.text);
  }

  lemma TextOrder(a: string, b: string, c: string)
    ensures !(Less(a, b) && Less(b, a)) && !Less(a, a)
    ensures Less(a, b) || Less(b, a) || a == b
    ensures !Less(b, a) && !Less(c, b) ==> !Less(c, a)
    ensures Less(a, b) && Less(b, c) ==> Less(a, c)
  {
    LessIrreflexive(a);
    LessTotal(a, b);
    LessTotal(b, c);
    if Less(a, b) {
      LessAsymmetric(a, b);
      if Less(b, c) {
        LessTransitive(a, b, c);
        LessAsymmetric(a, c);
      }
    }
    if Less(b, c) {
      LessAsymmetric(b, c);
    }
  }

  // ------------------------------------------------------- what a run promises

  /** Only an open item's state, its closing reference and its gap ever move. */
  predicate SameTerms(a: Item, b: Item) {
    b == a.(state := b.state, closureRef := b.closureRef, supersededBy := b.supersededBy, gap := b.gap)
  }

  /** A piece of evidence moves an item exactly when it was authored, says
      something happened, and fits that item strictly better than any other open
      one; so it moves at most one, and a tie moves none. */
  lemma OneMoveAtMost(lang: Language, out: seq<Result>, e: Evidence, index: nat, i: nat)
    requires i < |out|
    ensures var next := After(lang, out, e, index);
            && (next[i].item.state != out[i].item.state <==> Acts(lang, e) && Wins(lang, out, i, e))
            && (next[i].item.state != out[i].item.state ==>
                  && out[i].item.state == Open && MayJudge(lang, out[i].item, e)
                  && (forall j :: 0 <= j < |out| && j != i ==> next[j] == out[j])
                  && (next[i].item.state == Superseded ==> next[i].item.supersededBy == e.memoryId && lang.turn(e.text) == Supersedes)
                  && (next[i].item.state == Closed ==> next[i].item.closureRef == e.memoryId && next[i].closureEvidence == index))
            && (out[i].item.state != Open ==> next[i] == out[i])
            && (next[i].item.state == out[i].item.state ==> next[i] == out[i].(item := out[i].item.(gap := next[i].item.gap)))
            && SameTerms(out[i].item, next[i].item)
  {
    if Wins(lang, out, i, e) {
      assert Tops(lang, out, i, e);
      WinnerIsAlone(lang, out, e, i);
    }
    hide Score;
    if Tops(lang, out, i, e) && !Wins(lang, out, i, e) {
      assert out[i].item.state == Open;
    }
  }

  lemma WinnerIsAlone(lang: Language, out: seq<Result>, e: Evidence, i: nat)
    requires i < |out| && Wins(lang, out, i, e)
    ensures forall j :: 0 <= j < |out| && j != i ==> !Tops(lang, out, j, e)
  {
    hide Score;
    forall j | 0 <= j < |out| && j != i
      ensures !Tops(lang, out, j, e)
    {
      if Competes(lang, out, j, e) {
        assert Competes(lang, out, i, e);
      }
    }
  }

  /** The step at which an item moved, if it did. */
  ghost predicate MovedAt(lang: Language, items: seq<Item>, evidence: seq<Evidence>, order: seq<nat>, i: nat, k: nat)
    requires IsOrder(order, |evidence|) && k < |order| && i < |items|
  {
    Acts(lang, evidence[order[k]]) && Wins(lang, Projected(lang, items, evidence, order, k), i, evidence[order[k]])
  }

  lemma ProjectedNext(lang: Language, items: seq<Item>, evidence: seq<Evidence>, order: seq<nat>, n: nat)
    requires IsOrder(order, |evidence|) && n < |order|
    ensures Projected(lang, items, evidence, order, n + 1) ==
            After(lang, Projected(lang, items, evidence, order, n), evidence[order[n]], order[n])
  {
  }

  /** Once out of Open an item never changes again. */
  lemma {:induction false} SettledStays(lang: Language, items: seq<Item>, evidence: seq<Evidence>, order: seq<nat>, i: nat, m: nat, n: nat)
    requires IsOrder(order, |evidence|) && m <= n <= |order| && i < |items|
    requires Projected(lang, items, evidence, order, m)[i].item.state != Open
    ensures Projected(lang, items, evidence, order, n)[i] == Projected(lang, items, evidence, order, m)[i]
    decreases n
  {
    hide After, AfterAt, Projected;
    if n > m {
      SettledStays(lang, items, evidence, order, i, m, n - 1);
      ProjectedNext(lang, items, evidence, order, n - 1);
      OneMoveAtMost(lang, Projected(lang, items, evidence, order, n - 1), evidence[order[n - 1]], order[n - 1], i);
    }
  }

  /** An item leaves Open at most once. */
  lemma MovesOnce(lang: Language, items: seq<Item>, evidence: seq<Evidence>, order: seq<nat>, i: nat, j: nat, k: nat)
    requires IsOrder(order, |evidence|) && j < |order| && k < |order| && i < |items|
    requires MovedAt(lang, items, evidence, order, i, j) && MovedAt(lang, items, evidence, order, i, k)
    ensures j == k
  {
    hide Projected, Score, After;
    var a, b := if j < k then j else k, if j < k then k else j;
    if a < b {
      var s := Projected(lang, items, evidence, order, a);
      ProjectedNext(lang, items, evidence, order, a);
      OneMoveAtMost(lang, s, evidence[order[a]], order[a], i);
      SettledStays(lang, items, evidence, order, i, a + 1, b);
    }
  }

  /** Over any list of evidence, in the order it is taken: an item ends out of
      its opening state exactly when one piece moved it, and then its record
      names that piece; everything it was opened with is untouched. */
  lemma {:induction false} LifecycleIsEvidenced(lang: Language, items: seq<Item>, evidence: seq<Evidence>, order: seq<nat>, i: nat, n: nat)
    requires IsOrder(order, |evidence|) && n <= |order| && i < |items|
    ensures var end := Projected(lang, items, evidence, order, n)[i];
            && SameTerms(items[i], end.item)
            && (end.item.state != items[i].state <==> exists k: nat :: k < n && MovedAt(lang, items, evidence, order, i, k))
            && (end.item.state == items[i].state ==> end.closureEvidence == -1 && end.item.closureRef == items[i].closureRef
                                                     && end.item.supersededBy == items[i].supersededBy)
            && (forall k: nat :: k < n && MovedAt(lang, items, evidence, order, i, k) ==>
                  var e := evidence[order[k]];
                  && items[i].state == Open && MayJudge(lang, items[i], e)
                  && (if lang.turn(e.text) == Supersedes
                      then end.item.state == Superseded && end.item.supersededBy == e.memoryId && end.closureEvidence == -1
                      else end.item.state == Closed && end.item.closureRef == e.memoryId && end.closureEvidence == order[k]))
    decreases n
  {
    hide After, Score, MayJudge;
    if n > 0 {
      LifecycleIsEvidenced(lang, items, evidence, order, i, n - 1);
      hide Projected;
      var s := Projected(lang, items, evidence, order, n - 1);
      var e := evidence[order[n - 1]];
      ProjectedNext(lang, items, evidence, order, n - 1);
      OneMoveAtMost(lang, s, e, order[n - 1], i);
      SameJudge(lang, items[i], s[i].item, e);
      assert MovedAt(lang, items, evidence, order, i, n - 1) <==> Acts(lang, e) && Wins(lang, s, i, e);
      forall k: nat | k < n && MovedAt(lang, items, evidence, order, i, k)
        ensures k == n - 1 || !MovedAt(lang, items, evidence, order, i, n - 1)
      {
        if MovedAt(lang, items, evidence, order, i, n - 1) {
          MovesOnce(lang, items, evidence, order, i, n - 1, k);
        }
      }
    }
  }

  lemma SameJudge(lang: Language, a: Item, b: Item, e: Evidence)
    requires SameTerms(a, b)
    ensures MayJudge(lang, a, e) == MayJudge(lang, b, e)
  {
  }

  // ------------------------------------------------ the order evidence came in

  predicate SameKey(a: Evidence, b: Evidence) {
    a.occurredAt == b.occurredAt && a.memoryId == b.memoryId && a.text == b.text
  }

  /** No two pieces share time, memory and text. */
  predicate DistinctKeys(evidence: seq<Evidence>) {
    forall j, k :: 0 <= j < k < |evidence| ==> !SameKey(evidence[j], evidence[k])
  }

  /** The same items, closed by the same pieces of evidence. */
  ghost predicate Alike(x: seq<Result>, y: seq<Result>, a: seq<Evidence>, b: seq<Evidence>) {
    && |x| == |y|
    && forall i :: 0 <= i < |x| ==>
         && x[i].item == y[i].item && (x[i].closureEvidence == y[i].closureEvidence == -1
             || (0 <= x[i].closureEvidence < |a| && 0 <= y[i].closureEvidence < |b| && a[x[i].closureEvidence] == b[y[i].closureEvidence]))
  }

  lemma SameContest(lang: Language, x: seq<Result>, y: seq<Result>, e: Evidence)
    requires |x| == |y| && forall i :: 0 <= i < |x| ==> x[i].item == y[i].item
    ensures forall i :: 0 <= i < |x| ==> Tops(lang, x, i, e) == Tops(lang, y, i, e) && Wins(lang, x, i, e) == Wins(lang, y, i, e)
    ensures TopSet(lang, x, e) == TopSet(lang, y, e)
  {
    hide Score;
    assert forall i :: 0 <= i < |x| ==> Competes(lang, x, i, e) == Competes(lang, y, i, e);
    forall i | 0 <= i < |x|
      ensures Tops(lang, x, i, e) == Tops(lang, y, i, e) && Wins(lang, x, i, e) == Wins(lang, y, i, e)
    {
    }
  }

  lemma AfterAlike(lang: Language, x: seq<Result>, y: seq<Result>, a: seq<Evidence>, b: seq<Evidence>, i: nat, j: nat)
    requires Alike(x, y, a, b) && i < |a| && j < |b| && a[i] == b[j]
    ensures Alike(After(lang, x, a[i], i), After(lang, y, b[j], j), a, b)
  {
    SameContest(lang, x, y, a[i]);
    hide Tops, Wins, TopSet, Acts;
  }

  lemma {:induction false} ProjectedAlike(lang: Language, items: seq<Item>, a: seq<Evidence>, b: seq<Evidence>, oa: seq<nat>, ob: seq<nat>, n: nat)
    requires IsOrder(oa, |a|) && IsOrder(ob, |b|) && |a| == |b| && n <= |a|
    requires forall k :: 0 <= k < |oa| ==> a[oa[k]] == b[ob[k]]
    ensures Alike(Projected(lang, items, a, oa, n), Projected(lang, items, b, ob, n), a, b)
    decreases n
  {
    hide After, Alike;
    if n > 0 {
      ProjectedAlike(lang, items, a, b, oa, ob, n - 1);
      AfterAlike(lang, Projected(lang, items, a, oa, n - 1), Projected(lang, items, b, ob, n - 1), a, b, oa[n - 1], ob[n - 1]);
    } else {
      StartsAlike(items, a, b);
    }
  }

  lemma StartsAlike(items: seq<Item>, a: seq<Evidence>, b: seq<Evidence>)
    ensures Alike(Start(items), Start(items), a, b)
  {
  }

  lemma EvidenceAscends(evidence: seq<Evidence>, order: seq<nat>)
    requires DistinctKeys(evidence) && IsOrder(order, |evidence|) && InOrder(evidence, EvidenceKeyLess(), order)
    ensures Ascends(Arranged(evidence, order), EvidenceKeyLess())
  {
    hide Less;
    var s, less := Arranged(evidence, order), EvidenceKeyLess();
    forall j, k | 0 <= j < k < |s|
      ensures less(s[j], s[k]) && !less(s[k], s[j])
    {
      assert order[j] != order[k] && !SameKey(evidence[order[j]], evidence[order[k]]);
      TextOrder(s[j].occurredAt, s[k].occurredAt, s[k].occurredAt);
      TextOrder(s[j].memoryId, s[k].memoryId, s[k].memoryId);
      TextOrder(s[j].text, s[k].text, s[k].text);
    }
  }

  /** The projection does not depend on the order its evidence came in, where no
      two pieces share time, memory and text. */
  lemma EvidenceOrderIrrelevant(lang: Language, items: seq<Item>, a: seq<Evidence>, b: seq<Evidence>, x: seq<Result>, y: seq<Result>)
    requires multiset(a) == multiset(b) && DistinctKeys(a) && DistinctKeys(b)
    requires IsProjection(lang, items, a, x) && IsProjection(lang, items, b, y)
    ensures Alike(x, y, a, b)
  {
    hide Projected, InOrder, DistinctKeys, Alike, Ascends, EvidenceKeyLess;
    var oa: seq<nat> :| IsOrder(oa, |a|) && InOrder(a, EvidenceKeyLess(), oa) && Rearranges(a, oa) && x == Projected(lang, items, a, oa, |a|);
    var ob: seq<nat> :| IsOrder(ob, |b|) && InOrder(b, EvidenceKeyLess(), ob) && Rearranges(b, ob) && y == Projected(lang, items, b, ob, |b|);
    assert |multiset(a)| == |a| && |multiset(b)| == |b|;
    EvidenceAscends(a, oa);
    EvidenceAscends(b, ob);
    OneArrangement(Arranged(a, oa), Arranged(b, ob), EvidenceKeyLess());
    forall k | 0 <= k < |oa|
      ensures a[oa[k]] == b[ob[k]]
    {
      assert Arranged(a, oa)[k] == a[oa[k]] && Arranged(b, ob)[k] == b[ob[k]];
    }
    ProjectedAlike(lang, items, a, b, oa, ob, |a|);
  }
}
