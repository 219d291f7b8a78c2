/** Which item a piece of evidence moves, said over the words shared, the memories,
    the times and the parties, and never over a score. */
module LifecycleLaws {
  import opened Ordering
  import opened OrderingLaws
  import opened Sorting
  import opened Lifecycle

  // ---------------------------------------------------- may it judge the item

  /** One of the keys names this party, by this kind of name. */
  ghost predicate KnownBy(lang: Language, keys: seq<string>, kind: string, value: string) {
    exists k <- keys :: lang.key(k).cut && lang.key(k).kind == kind && lang.key(k).value == value
  }

  ghost predicate HasOne(lang: Language, keys: seq<string>, kind: string) {
    exists value: string :: value != "" && KnownBy(lang, keys, kind, value)
  }

  ghost predicate HaveCommon(lang: Language, keys: seq<string>, others: seq<string>, kind: string) {
    exists value: string :: value != "" && KnownBy(lang, keys, kind, value) && KnownBy(lang, others, kind, value)
  }

  /** Both sides have an address and no common one; or, where a side has none, both
      have a handle and no common one. */
  ghost predicate Contradict(lang: Language, keys: seq<string>, others: seq<string>) {
    if HasOne(lang, keys, "address") && HasOne(lang, others, "address") then !HaveCommon(lang, keys, others, "address")
    else HasOne(lang, keys, "handle") && HasOne(lang, others, "handle") && !HaveCommon(lang, keys, others, "handle")
  }

  ghost predicate CommonAtom(lang: Language, keys: seq<string>, others: seq<string>) {
    exists k <- keys, o <- others ::
      lang.key(k).cut && lang.key(k).kind != "given" && lang.key(k).kind != "name" && lang.key(o).text == lang.key(k).text
  }

  ghost predicate CommonFullName(lang: Language, keys: seq<string>, others: seq<string>) {
    exists k <- keys, o <- others ::
      && lang.key(k).cut && lang.key(k).kind == "name" && 2 <= lang.key(k).words
      && lang.key(o).cut && lang.key(o).kind == "name" && 2 <= lang.key(o).words
      && lang.key(k).value == lang.key(o).value
  }

  lemma ValuesMean(lang: Language, keys: seq<string>, kind: string)
    ensures forall value: string :: value in AtomValues(lang, keys, kind) <==> value != "" && KnownBy(lang, keys, kind, value)
  {
    forall value: string | value != "" && KnownBy(lang, keys, kind, value)
      ensures value in AtomValues(lang, keys, kind)
    {
      var k :| k in keys && lang.key(k).cut && lang.key(k).kind == kind && lang.key(k).value == value;
      assert lang.key(k).value in AtomValues(lang, keys, kind);
    }
  }

  lemma DisagreeMeans(lang: Language, keys: seq<string>, others: seq<string>, kind: string)
    ensures Disagree(lang, keys, others, kind) <==>
            HasOne(lang, keys, kind) && HasOne(lang, others, kind) && !HaveCommon(lang, keys, others, kind)
    ensures HasOne(lang, keys, kind) <==> AtomValues(lang, keys, kind) != {}
    ensures HasOne(lang, others, kind) <==> AtomValues(lang, others, kind) != {}
  {
    hide AtomValues, KnownBy;
    ValuesMean(lang, keys, kind);
    ValuesMean(lang, others, kind);
    var a, b := AtomValues(lang, keys, kind), AtomValues(lang, others, kind);
    if a != {} {
      var value :| value in a;
    }
    if b != {} {
      var value :| value in b;
    }
    if !(a !! b) {
      var value :| value in a && value in b;
    }
  }

  ghost predicate FullyNamed(lang: Language, keys: seq<string>, value: string) {
    exists k <- keys :: lang.key(k).cut && lang.key(k).kind == "name" && 2 <= lang.key(k).words && lang.key(k).value == value
  }

  lemma FullNameMeans(lang: Language, keys: seq<string>, value: string)
    ensures value in FullNames(lang, keys) <==> FullyNamed(lang, keys, value)
  {
  }

  lemma FullNamesMean(lang: Language, keys: seq<string>, others: seq<string>)
    ensures !(FullNames(lang, keys) !! FullNames(lang, others)) <==> CommonFullName(lang, keys, others)
  {
    forall value: string
      ensures value in FullNames(lang, keys) <==> FullyNamed(lang, keys, value)
      ensures value in FullNames(lang, others) <==> FullyNamed(lang, others, value)
    {
      FullNameMeans(lang, keys, value);
      FullNameMeans(lang, others, value);
    }
    hide FullNames;
    if CommonFullName(lang, keys, others) {
      var k, o :| k in keys && o in others && lang.key(k).cut && lang.key(k).kind == "name" && 2 <= lang.key(k).words
                  && lang.key(o).cut && lang.key(o).kind == "name" && 2 <= lang.key(o).words && lang.key(k).value == lang.key(o).value;
      assert FullyNamed(lang, keys, lang.key(k).value) && FullyNamed(lang, others, lang.key(k).value);
    }
  }

  /** Two parties are linked by a common address, handle or other exact key; or by a
      common full name that no such key contradicts. */
  lemma LinkedMeans(lang: Language, keys: seq<string>, others: seq<string>)
    ensures LinkedBy(lang, keys, others) <==>
            CommonAtom(lang, keys, others) || (CommonFullName(lang, keys, others) && !Contradict(lang, keys, others))
  {
    DisagreeMeans(lang, keys, others, "address");
    DisagreeMeans(lang, keys, others, "handle");
    FullNamesMean(lang, keys, others);
    hide Disagree, HasOne, HaveCommon, AtomValues, CommonFullName, FullNames;
  }

  /** Known author, both times readable and the words later, the same memory or
      linked parties; a delivery is reported by the side that owes, a receipt by the
      other. */
  ghost predicate Allowed(lang: Language, c: Item, e: Evidence) {
    var opened_, said := lang.instant(lang.trim(c.openedBy.occurredAt)), lang.instant(lang.trim(e.occurredAt));
    var owes := if c.direction == OwedBySelf then Party.Self else Party.Counterparty;
    && e.party != Unknown && opened_.Some? && said.Some? && opened_.value < said.value
    && (c.openedBy.memoryId == e.memoryId
        || CommonAtom(lang, c.counterpartyKeys, e.counterpartyKeys)
        || (CommonFullName(lang, c.counterpartyKeys, e.counterpartyKeys) && !Contradict(lang, c.counterpartyKeys, e.counterpartyKeys)))
    && match lang.voice(e.text)
       case Delivery => e.party == owes
       case Either => true
       case _ => e.party != owes
  }

  lemma MayJudgeMeans(lang: Language, c: Item, e: Evidence)
    ensures MayJudge(lang, c, e) <==> Allowed(lang, c, e)
  {
    LinkedMeans(lang, c.counterpartyKeys, e.counterpartyKeys);
    hide LinkedBy, CommonAtom, CommonFullName, Contradict;
  }

  // ------------------------------------------------------- which item it fits

  /** Object words of the item that the evidence uses too. */
  ghost function Shared(lang: Language, c: Item, e: Evidence): nat {
    |lang.tokens(c.summary + " " + c.openedBy.quote) * lang.tokens(e.text)|
  }

  ghost predicate SameMemory(c: Item, e: Evidence) {
    c.openedBy.memoryId == e.memoryId
  }

  /** An item may move: open, and either words are shared or, unless the evidence
      only thanks somebody for coming, the memory is. */
  ghost predicate Contends(lang: Language, c: Item, e: Evidence) {
    && c.state == Open && Allowed(lang, c, e)
    && (0 < Shared(lang, c, e) || (SameMemory(c, e) && lang.voice(e.text) != AttendanceAck))
  }

  /** More shared words fit better; among as many, the item of the same memory. */
  ghost predicate FitsBetter(lang: Language, c: Item, d: Item, e: Evidence) {
    || Shared(lang, d, e) < Shared(lang, c, e)
    || (Shared(lang, c, e) == Shared(lang, d, e) && SameMemory(c, e) && !SameMemory(d, e))
  }

  lemma ScoreOrders(lang: Language, c: Item, d: Item, e: Evidence)
    requires c.state == Open && d.state == Open
    ensures Score(lang, c, e) > 0 <==> Contends(lang, c, e)
    ensures Contends(lang, c, e) && Contends(lang, d, e) ==>
              (Score(lang, c, e) > Score(lang, d, e) <==> FitsBetter(lang, c, d, e))
  {
    MayJudgeMeans(lang, c, e);
    MayJudgeMeans(lang, d, e);
    hide MayJudge, Allowed;
  }

  /** With no shared word only an item of the same memory may move, and never on an
      attendance acknowledgement. */
  lemma NoSharedWord(lang: Language, out: seq<Result>, e: Evidence, index: nat, i: nat)
    requires i < |out| && Shared(lang, out[i].item, e) == 0
    requires !SameMemory(out[i].item, e) || lang.voice(e.text) == AttendanceAck
    ensures After(lang, out, e, index)[i] == out[i]
  {
  }

  /** It fits this open item strictly better than every other that may move. */
  ghost predicate FitsAlone(lang: Language, out: seq<Result>, i: nat, e: Evidence)
    requires i < |out|
  {
    && Contends(lang, out[i].item, e)
    && forall j :: 0 <= j < |out| && j != i && Contends(lang, out[j].item, e) ==> FitsBetter(lang, out[i].item, out[j].item, e)
  }

  /** It fits this open item, and none better. */
  ghost predicate FitsBest(lang: Language, out: seq<Result>, i: nat, e: Evidence)
    requires i < |out|
  {
    && Contends(lang, out[i].item, e)
    && forall j :: 0 <= j < |out| && Contends(lang, out[j].item, e) ==> !FitsBetter(lang, out[j].item, out[i].item, e)
  }

  lemma CompetesMeans(lang: Language, out: seq<Result>, j: nat, e: Evidence)
    requires j < |out|
    ensures Competes(lang, out, j, e) <==> Contends(lang, out[j].item, e)
  {
    if out[j].item.state == Open {
      ScoreOrders(lang, out[j].item, out[j].item, e);
    }
  }

  lemma FitMeans(lang: Language, out: seq<Result>, i: nat, e: Evidence)
    requires i < |out|
    ensures Wins(lang, out, i, e) <==> FitsAlone(lang, out, i, e)
    ensures Tops(lang, out, i, e) <==> FitsBest(lang, out, i, e)
  {
    hide Score, Contends, FitsBetter, Competes;
    forall j | 0 <= j < |out|
      ensures Competes(lang, out, j, e) <==> Contends(lang, out[j].item, e)
      ensures Contends(lang, out[i].item, e) && Contends(lang, out[j].item, e) ==>
                && (Score(lang, out[i].item, e) > Score(lang, out[j].item, e) <==> FitsBetter(lang, out[i].item, out[j].item, e))
                && (Score(lang, out[j].item, e) > Score(lang, out[i].item, e) <==> FitsBetter(lang, out[j].item, out[i].item, e))
    {
      CompetesMeans(lang, out, i, e);
      CompetesMeans(lang, out, j, e);
      ContendersOrdered(lang, out[i].item, out[j].item, e);
      ContendersOrdered(lang, out[j].item, out[i].item, e);
    }
  }

  lemma ContendersOrdered(lang: Language, c: Item, d: Item, e: Evidence)
    ensures Contends(lang, c, e) && Contends(lang, d, e) ==> (Score(lang, c, e) > Score(lang, d, e) <==> FitsBetter(lang, c, d, e))
  {
    if Contends(lang, c, e) && Contends(lang, d, e) {
      ScoreOrders(lang, c, d, e);
    }
  }

  /** The item once this piece has moved it. */
  ghost function Moved(lang: Language, c: Item, e: Evidence): Item {
    var replaced := lang.turn(e.text) == Supersedes;
    Item(c.id, c.owner, c.counterparty, c.counterpartyKeys, c.direction, c.summary, c.openedBy, c.due,
         if replaced then Superseded else Closed, if replaced then c.closureRef else e.memoryId,
         if replaced then e.memoryId else c.supersededBy, c.gap, c.citations, c.duplicateOf)
  }

  ghost function WithGap(c: Item, gap: string): Item {
    Item(c.id, c.owner, c.counterparty, c.counterpartyKeys, c.direction, c.summary, c.openedBy, c.due, c.state, c.closureRef,
         c.supersededBy, gap, c.citations, c.duplicateOf)
  }

  /** What one piece of evidence does to each item. Words nobody wrote, or that say
      nothing happened, do nothing. The item that fits strictly best is moved; items
      that fit equally well are left open, and say how many they are. */
  lemma EvidenceDecides(lang: Language, out: seq<Result>, e: Evidence, index: nat, i: nat)
    requires i < |out|
    ensures var next := After(lang, out, e, index)[i];
            if lang.turn(e.text) == Nothing || !e.authored || !FitsBest(lang, out, i, e) then next == out[i]
            else if FitsAlone(lang, out, i, e) then
              next == Result(Moved(lang, out[i].item, e), if lang.turn(e.text) == Supersedes then out[i].closureEvidence else index)
            else
              next == Result(WithGap(out[i].item, lang.gap(e.memoryId, |set j: nat | j < |out| && FitsBest(lang, out, j, e)|)),
                             out[i].closureEvidence)
  {
    hide Tops, Wins, FitsAlone, FitsBest;
    forall j: nat | j < |out|
      ensures Tops(lang, out, j, e) <==> FitsBest(lang, out, j, e)
      ensures Wins(lang, out, j, e) <==> FitsAlone(lang, out, j, e)
    {
      FitMeans(lang, out, j, e);
    }
    assert TopSet(lang, out, e) == set j: nat | j < |out| && FitsBest(lang, out, j, e);
  }

  // ---------------------------------------------------- in which order it comes

  /** Earlier time, then memory, then text, all as texts. */
  ghost predicate ComesBefore(a: Evidence, b: Evidence) {
    || TextBefore(a.occurredAt, b.occurredAt)
    || (a.occurredAt == b.occurredAt
        && (TextBefore(a.memoryId, b.memoryId) || (a.memoryId == b.memoryId && TextBefore(a.text, b.text))))
  }

  lemma OrderMeans(a: Evidence, b: Evidence)
    ensures EvidenceKeyLess()(a, b) <==> ComesBefore(a, b)
  {
    LessIsTextBefore(a.occurredAt, b.occurredAt);
    LessIsTextBefore(a.memoryId, b.memoryId);
    LessIsTextBefore(a.text, b.text);
    TextOrder(a.occurredAt, a.occurredAt, a.occurredAt);
    TextOrder(a.memoryId, a.memoryId, a.memoryId);
  }

  /** The items stage by stage: each piece once, none before one that comes before
      it, each against the items as the last piece left them. */
  ghost predicate TakenInTurn(lang: Language, items: seq<Item>, evidence: seq<Evidence>, order: seq<nat>, stages: seq<seq<Result>>) {
    && |order| == |evidence| && |stages| == |evidence| + 1
    && (forall k :: 0 <= k < |order| ==> order[k] < |evidence|)
    && (forall j, k :: 0 <= j < k < |order| ==> order[j] != order[k] && !ComesBefore(evidence[order[k]], evidence[order[j]]))
    && |stages[0]| == |items| && (forall i :: 0 <= i < |items| ==> stages[0][i] == Result(items[i], -1))
    && forall k :: 0 <= k < |order| ==> stages[k + 1] == After(lang, stages[k], evidence[order[k]], order[k])
  }

  lemma ProjectionInTurn(lang: Language, items: seq<Item>, evidence: seq<Evidence>, out: seq<Result>)
    requires IsProjection(lang, items, evidence, out)
    ensures exists order, stages :: TakenInTurn(lang, items, evidence, order, stages) && out == stages[|evidence|]
  {
    hide After, ComesBefore, EvidenceKeyLess;
    var order: seq<nat> :|
      && IsOrder(order, |evidence|) && InOrder(evidence, EvidenceKeyLess(), order) && Rearranges(evidence, order)
      && out == Projected(lang, items, evidence, order, |evidence|);
    var stages := seq(|evidence| + 1, k requires 0 <= k < |evidence| + 1 => Projected(lang, items, evidence, order, k));
    forall j, k | 0 <= j < k < |order|
      ensures order[j] != order[k] && !ComesBefore(evidence[order[k]], evidence[order[j]])
    {
      OrderMeans(evidence[order[k]], evidence[order[j]]);
    }
    forall k | 0 <= k < |order|
      ensures stages[k + 1] == After(lang, stages[k], evidence[order[k]], order[k])
    {
      ProjectedNext(lang, items, evidence, order, k);
    }
    ProjectedNone(lang, items, evidence, order);
    assert TakenInTurn(lang, items, evidence, order, stages);
  }
}
