/** Duplicate commitments: which item stands for which, and how the evidence of
    the copies is carried to the one that stands. */
module Duplicates {
  import opened Ordering
  import opened Sorting
  import opened Lifecycle

  const SUPPORTING := "supporting"

  // ----------------------------------------------------------------- the order

  function Instant(lang: Language, x: Item): Option<int> {
    lang.instant(x.openedBy.occurredAt)
  }

  predicate EvidenceLess(lang: Language, a: Item, b: Item) {
    if a.openedBy.occurredAt != b.openedBy.occurredAt then
      var at, bt := Instant(lang, a), Instant(lang, b);
      if at.Some? && bt.Some? && at != bt then at.value < bt.value
      else Less(a.openedBy.occurredAt, b.openedBy.occurredAt)
    else if a.openedBy.messageRef != b.openedBy.messageRef then Less(a.openedBy.messageRef, b.openedBy.messageRef)
    else if a.openedBy.blockRef != b.openedBy.blockRef then Less(a.openedBy.blockRef, b.openedBy.blockRef)
    else Less(a.id, b.id)
  }

  function ItemLess(lang: Language): (Item, Item) -> bool {
    (a: Item, b: Item) => EvidenceLess(lang, a, b)
  }

  /** A time that does not parse stands, as text, between two that do and that the
      clock orders the other way round. */
  ghost predicate Tangle(lang: Language, late: Item, odd: Item, early: Item) {
    && Instant(lang, late).Some? && Instant(lang, odd).None? && Instant(lang, early).Some?
    && Instant(lang, early).value < Instant(lang, late).value
    && Less(late.openedBy.occurredAt, odd.openedBy.occurredAt) && Less(odd.openedBy.occurredAt, early.openedBy.occurredAt)
  }

  /** No three of the items are tangled. */
  ghost predicate Orderly(lang: Language, items: seq<Item>) {
    forall late, odd, early {:trigger Tangle(lang, late, odd, early)} ::
      late in items && odd in items && early in items ==> !Tangle(lang, late, odd, early)
  }

  /** The comparison is asymmetric, and decides between any two items of different
      id, whatever their times. */
  lemma EvidenceLessDecides(lang: Language, a: Item, b: Item)
    ensures !(EvidenceLess(lang, a, b) && EvidenceLess(lang, b, a)) && !EvidenceLess(lang, a, a)
    ensures a.id != b.id ==> EvidenceLess(lang, a, b) || EvidenceLess(lang, b, a)
  {
    hide Less;
    TextOrder(a.openedBy.occurredAt, b.openedBy.occurredAt, b.openedBy.occurredAt);
    TextOrder(a.openedBy.messageRef, b.openedBy.messageRef, b.openedBy.messageRef);
    TextOrder(a.openedBy.blockRef, b.openedBy.blockRef, b.openedBy.blockRef);
    TextOrder(a.id, b.id, b.id);
    SameTextSameInstant(lang, a, b);
  }

  /** Where three items go round in a circle, they are tangled. */
  lemma CirclesAreTangles(lang: Language, a: Item, b: Item, c: Item)
    requires !EvidenceLess(lang, b, a) && !EvidenceLess(lang, c, b) && EvidenceLess(lang, c, a)
    ensures Tangle(lang, a, b, c) || Tangle(lang, b, c, a) || Tangle(lang, c, a, b)
  {
    hide Less;
    TextOrder(a.openedBy.occurredAt, b.openedBy.occurredAt, c.openedBy.occurredAt);
    TextOrder(b.openedBy.occurredAt, c.openedBy.occurredAt, a.openedBy.occurredAt);
    TextOrder(c.openedBy.occurredAt, a.openedBy.occurredAt, b.openedBy.occurredAt);
    TextOrder(a.openedBy.messageRef, b.openedBy.messageRef, c.openedBy.messageRef);
    TextOrder(a.openedBy.blockRef, b.openedBy.blockRef, c.openedBy.blockRef);
    TextOrder(a.id, b.id, c.id);
    SameTextSameInstant(lang, a, b);
    SameTextSameInstant(lang, b, c);
    SameTextSameInstant(lang, a, c);
  }

  /** ... and three tangled items do go round. */
  lemma TanglesAreCircles(lang: Language, late: Item, odd: Item, early: Item)
    requires Tangle(lang, late, odd, early)
    ensures EvidenceLess(lang, late, odd) && EvidenceLess(lang, odd, early) && EvidenceLess(lang, early, late)
  {
    hide Less;
    TextOrder(late.openedBy.occurredAt, odd.openedBy.occurredAt, early.openedBy.occurredAt);
    SameTextSameInstant(lang, late, odd);
    SameTextSameInstant(lang, odd, early);
    SameTextSameInstant(lang, early, late);
  }

  /** The comparison is an order on some items, fit to sort them by, exactly when
      no three of them are tangled; ids do not matter for it. */
  lemma OrderExactlyWithoutTangles(lang: Language, items: seq<Item>)
    ensures Behaves(items, ItemLess(lang)) <==> Orderly(lang, items)
  {
    hide EvidenceLess, Tangle;
    var less := ItemLess(lang);
    if Orderly(lang, items) {
      forall a, b | a in items && b in items && less(a, b)
        ensures !less(b, a)
      {
        EvidenceLessDecides(lang, a, b);
      }
      forall a, b, c | a in items && b in items && c in items && !less(b, a) && !less(c, b)
        ensures !less(c, a)
      {
        if less(c, a) {
          CirclesAreTangles(lang, a, b, c);
        }
      }
    } else {
      var late, odd, early :| late in items && odd in items && early in items && Tangle(lang, late, odd, early);
      TanglesAreCircles(lang, late, odd, early);
      EvidenceLessDecides(lang, late, odd);
      EvidenceLessDecides(lang, odd, early);
      assert !less(odd, late) && !less(early, odd) && less(early, late);
    }
  }

  /** Where all times parse, or none does, nothing is tangled. */
  lemma ReadableTimesAreOrderly(lang: Language, items: seq<Item>)
    requires (forall x <- items :: Instant(lang, x).Some?) || (forall x <- items :: Instant(lang, x).None?)
    ensures Orderly(lang, items)
  {
  }

  lemma SameTextSameInstant(lang: Language, a: Item, b: Item)
    ensures a.openedBy.occurredAt == b.openedBy.occurredAt ==> Instant(lang, a) == Instant(lang, b)
  {
  }

  lemma {:induction false} LessAfter(p: string, a: string, b: string)
    ensures Less(p + a, p + b) == Less(a, b)
  {
    if |p| > 0 {
      LessAfter(p[1..], a, b);
      assert (p + a)[1..] == p[1..] + a && (p + b)[1..] == p[1..] + b;
    } else {
      assert p + a == a && p + b == b;
    }
  }

  /** A tangle of three times one may meet: two with zones, and a typing error. */
  lemma UnparsedTimesCycle(lang: Language, late: Item, early: Item, odd: Item)
    requires late.openedBy.occurredAt == "2026-01-0" + "1T23:00:00-05:00" && early.openedBy.occurredAt == "2026-01-0" + "2T00:00:00Z"
    requires odd.openedBy.occurredAt == "2026-01-0" + "1X"
    requires Instant(lang, late) == Some(1767326400) && Instant(lang, early) == Some(1767312000) && Instant(lang, odd) == None
    ensures Tangle(lang, late, odd, early) && !Orderly(lang, [late, odd, early])
    ensures EvidenceLess(lang, late, odd) && EvidenceLess(lang, odd, early) && EvidenceLess(lang, early, late)
  {
    LessAfter("2026-01-0", "1T23:00:00-05:00", "1X");
    LessAfter("2026-01-0", "1X", "2T00:00:00Z");
    LessAfter("1", "T23:00:00-05:00", "X");
    assert "1" + "T23:00:00-05:00" == "1T23:00:00-05:00" && "1" + "X" == "1X";
    assert "T23:00:00-05:00"[0] < "X"[0] && "1X"[0] < "2T00:00:00Z"[0];
    assert Tangle(lang, late, odd, early);
    TanglesAreCircles(lang, late, odd, early);
  }

  // ------------------------------------------------------------- what matches

  predicate SameAtom(lang: Language, a: Atom, b: Atom) {
    lang.fold(a.provider) == lang.fold(b.provider) && lang.fold(a.kind) == lang.fold(b.kind) && lang.fold(a.value) == lang.fold(b.value)
  }

  predicate Contains(lang: Language, values: seq<string>, want: string) {
    want != "" && exists v <- values :: lang.fold(v) == lang.fold(want)
  }

  predicate AlikeInWords(lang: Language, a: Item, b: Item) {
    || lang.fold(lang.oneLine(a.summary)) == lang.fold(lang.oneLine(b.summary))
    || (var left, right := lang.tokens(a.summary), lang.tokens(b.summary);
        left != {} && right != {} && Overlap(lang, a.summary, b.summary) * 2 >= if |right| < |left| then |right| else |left|)
  }

  predicate SharesOrigin(lang: Language, a: Item, b: Item) {
    || (a.openedBy.messageRef != "" && a.openedBy.messageRef == b.openedBy.messageRef
        && a.openedBy.blockRef != "" && a.openedBy.blockRef == b.openedBy.blockRef)
    || Contains(lang, a.openedBy.ancestorRefs, b.openedBy.messageRef) || Contains(lang, b.openedBy.ancestorRefs, a.openedBy.messageRef)
  }

  predicate SameLifecycle(lang: Language, a: Item, b: Item) {
    var counterparty := SameAtom(lang, a.counterparty, b.counterparty)
                        || exists k <- a.counterpartyKeys, o <- b.counterpartyKeys :: lang.key(k).text == lang.key(o).text;
    var owner := SameAtom(lang, a.owner, b.owner) || (a.direction == OwedByCounterparty && b.direction == OwedByCounterparty && counterparty);
    owner && counterparty && a.direction == b.direction && a.due == b.due && a.state == b.state && a.closureRef == b.closureRef
  }

  predicate Matches(lang: Language, a: Item, b: Item) {
    AlikeInWords(lang, a, b) && SharesOrigin(lang, a, b) && SameLifecycle(lang, a, b)
  }

  /** Matching looks at no link between items. */
  lemma MatchesIgnoresLinks(lang: Language, a: Item, b: Item, x: string, y: string)
    ensures Matches(lang, a.(duplicateOf := x), b.(duplicateOf := y)) == Matches(lang, a, b)
  {
  }

  // ------------------------------------------------------------ who stands for whom

  predicate Standing(s: seq<Item>, i: nat)
    requires i < |s|
  {
    s[i].id != "" && s[i].duplicateOf == ""
  }

  /** Item i takes item j: it stands for itself, nobody takes it, they match. */
  predicate Takes(lang: Language, s: seq<Item>, i: nat, j: nat)
    requires i < j < |s|
    decreases j, 0, 0
  {
    Standing(s, i) && Canon(lang, s, i) == None && Matches(lang, s[i], s[j])
  }

  function CanonFrom(lang: Language, s: seq<Item>, i: nat, j: nat): Option<nat>
    requires i <= j < |s|
    decreases j, 1, j - i
  {
    if i == j then None else if Takes(lang, s, i, j) then Some(i) else CanonFrom(lang, s, i + 1, j)
  }

  /** The first earlier item that takes j. */
  function Canon(lang: Language, s: seq<Item>, j: nat): Option<nat>
    requires j < |s|
    decreases j, 2, 0
  {
    if Standing(s, j) then CanonFrom(lang, s, 0, j) else None
  }

  lemma {:induction false} CanonFromMeans(lang: Language, s: seq<Item>, i: nat, j: nat)
    requires i <= j < |s|
    ensures var c := CanonFrom(lang, s, i, j);
            && (c.Some? ==> i <= c.value < j && Takes(lang, s, c.value, j) && forall k :: i <= k < c.value ==> !Takes(lang, s, k, j))
            && (c.None? ==> forall k :: i <= k < j ==> !Takes(lang, s, k, j))
    decreases j - i
  {
    if i < j {
      CanonFromMeans(lang, s, i + 1, j);
    }
  }

  datatype Projected = Projected(item: Item, originalIndex: nat, supporting: seq<nat>)

  /** The places after c, up to n, whose item is taken by c. */
  function Supports(lang: Language, s: seq<Item>, order: seq<nat>, c: nat, n: nat): (r: seq<nat>)
    requires c < n <= |s| == |order|
    decreases n
  {
    if n == c + 1 then []
    else Supports(lang, s, order, c, n - 1) + if Canon(lang, s, n - 1) == Some(c) then [order[n - 1]] else []
  }

  function FinalItem(lang: Language, s: seq<Item>, j: nat): Item
    requires j < |s|
  {
    var c := Canon(lang, s, j);
    if c.Some? && c.value < |s| then s[j].(duplicateOf := s[c.value].id) else s[j]
  }

  /** Every duplicate of one item, earliest first, and nothing else. */
  lemma {:induction false} SupportsAreDuplicates(lang: Language, s: seq<Item>, order: seq<nat>, c: nat, n: nat, x: nat)
    requires c < n <= |s| == |order|
    ensures x in Supports(lang, s, order, c, n) <==> exists j :: c < j < n && Canon(lang, s, j) == Some(c) && order[j] == x
    decreases n
  {
    hide Canon;
    if n > c + 1 {
      SupportsAreDuplicates(lang, s, order, c, n - 1, x);
    }
  }

  /** Links go one step, back to an earlier item that stands for itself. */
  lemma StarsHaveDepthOne(lang: Language, s: seq<Item>, j: nat)
    requires j < |s| && Canon(lang, s, j).Some?
    ensures var c := Canon(lang, s, j).value;
            && c < j && Standing(s, c) && Canon(lang, s, c) == None && FinalItem(lang, s, c) == s[c] && Matches(lang, s[c], s[j])
            && FinalItem(lang, s, j).duplicateOf == s[c].id
            && forall k :: 0 <= k < c ==> !Takes(lang, s, k, j)
  {
    CanonFromMeans(lang, s, 0, j);
  }

  /** Nothing that an earlier standing item matches is left unlinked. */
  lemma UnlinkedIsUnmatched(lang: Language, s: seq<Item>, i: nat, j: nat)
    requires i < j < |s| && Standing(s, i) && Standing(s, j) && Canon(lang, s, i) == None && Canon(lang, s, j) == None
    ensures !Matches(lang, s[i], s[j])
  {
    CanonFromMeans(lang, s, 0, j);
    assert !Takes(lang, s, i, j);
  }

  /** With distinct ids the links and the supporting places are inverse. */
  lemma LinksAndSupportsAgree(lang: Language, s: seq<Item>, order: seq<nat>, c: nat, j: nat)
    requires |s| == |order| && c < |s| && j < |s| && IsOrder(order, |s|)
    requires forall a, b :: 0 <= a < b < |s| ==> s[a].id != s[b].id
    requires Standing(s, j)
    ensures order[j] in Supports(lang, s, order, c, |s|) <==> (s[c].id != "" && FinalItem(lang, s, j).duplicateOf == s[c].id)
  {
    hide Matches, Supports, Takes;
    SupportsAreDuplicates(lang, s, order, c, |s|, order[j]);
    if Canon(lang, s, j).Some? {
      StarsHaveDepthOne(lang, s, j);
    }
  }

  // ------------------------------------------------------------------ the loops

  /** What the places hold once the standing items before i have taken theirs,
      and item i has looked at the places before j. */
  ghost predicate Swept(lang: Language, s: seq<Item>, order: seq<nat>, out: seq<Projected>, i: nat, j: nat)
    requires |s| == |order|
  {
    && |out| == |s|
    && forall k {:trigger out[k]} :: 0 <= k < |s| ==> SweptAt(lang, s, order, out[k], i, j, k)
  }

  ghost predicate SweptAt(lang: Language, s: seq<Item>, order: seq<nat>, p: Projected, i: nat, j: nat, k: nat)
    requires |s| == |order| && k < |s|
  {
    var c := Canon(lang, s, k);
    && p.originalIndex == order[k]
    && p.item == (if c.Some? && (c.value < i || (c.value == i && k < j)) && c.value < |s| then s[k].(duplicateOf := s[c.value].id) else s[k])
    && p.supporting == (if k < i then Supports(lang, s, order, k, |s|) else if k == i && i < j <= |s| then Supports(lang, s, order, i, j) else [])
  }

  lemma CanonIsEarlier(lang: Language, s: seq<Item>, k: nat)
    requires k < |s|
    ensures var c := Canon(lang, s, k); c.Some? ==> c.value < k && s[c.value].id != ""
  {
    if Canon(lang, s, k).Some? {
      StarsHaveDepthOne(lang, s, k);
    }
  }

  /** Item i, nobody's duplicate, takes place j exactly when the loop's test holds. */
  lemma TakesNow(lang: Language, s: seq<Item>, order: seq<nat>, out: seq<Projected>, i: nat, j: nat)
    requires |s| == |order| && i < j < |s| && Swept(lang, s, order, out, i, j)
    requires Standing(s, i) && Canon(lang, s, i) == None
    ensures (out[j].item.id != "" && out[j].item.duplicateOf == "" && Matches(lang, out[i].item, out[j].item)) <==> Canon(lang, s, j) == Some(i)
    ensures out[i].item == s[i]
  {
    hide Matches, Supports;
    assert SweptAt(lang, s, order, out[j], i, j, j) && SweptAt(lang, s, order, out[i], i, j, i);
    CanonFromMeans(lang, s, 0, j);
    CanonIsEarlier(lang, s, j);
    MatchesIgnoresLinks(lang, s[i], s[j], s[i].duplicateOf, out[j].item.duplicateOf);
    assert s[i].(duplicateOf := s[i].duplicateOf) == s[i];
    assert Takes(lang, s, i, j) <==> Matches(lang, s[i], s[j]);
  }

  lemma SweepPlace(lang: Language, s: seq<Item>, order: seq<nat>, out: seq<Projected>, i: nat, j: nat)
    requires |s| == |order| && i < j < |s| && Swept(lang, s, order, out, i, j) && out[i].item == s[i]
    ensures Swept(lang, s, order,
                  if Canon(lang, s, j) == Some(i)
                  then out[j := out[j].(item := out[j].item.(duplicateOf := out[i].item.id))][i := out[i].(supporting := out[i].supporting + [out[j].originalIndex])]
                  else out, i, j + 1)
  {
    hide Canon;
    var next := if Canon(lang, s, j) == Some(i)
                then out[j := out[j].(item := out[j].item.(duplicateOf := out[i].item.id))][i := out[i].(supporting := out[i].supporting + [out[j].originalIndex])]
                else out;
    assert SweptAt(lang, s, order, out[j], i, j, j) && SweptAt(lang, s, order, out[i], i, j, i);
    CanonIsEarlier(lang, s, i);
    forall k | 0 <= k < |s|
      ensures SweptAt(lang, s, order, next[k], i, j + 1, k)
    {
      assert SweptAt(lang, s, order, out[k], i, j, k);
    }
  }

  lemma SweepNext(lang: Language, s: seq<Item>, order: seq<nat>, out: seq<Projected>, i: nat)
    requires |s| == |order| && i < |s| && Swept(lang, s, order, out, i, |s|)
    ensures Swept(lang, s, order, out, i + 1, i + 2)
  {
    hide Canon;
    forall k | 0 <= k < |s|
      ensures SweptAt(lang, s, order, out[k], i + 1, i + 2, k)
    {
      assert SweptAt(lang, s, order, out[k], i, |s|, k);
      CanonIsEarlier(lang, s, k);
    }
  }

  /** An item that does not stand, or that somebody took, takes nobody. */
  lemma SweepIdle(lang: Language, s: seq<Item>, order: seq<nat>, out: seq<Projected>, i: nat)
    requires |s| == |order| && i < |s| && Swept(lang, s, order, out, i, i + 1)
    requires !Standing(s, i) || Canon(lang, s, i).Some?
    ensures Swept(lang, s, order, out, i, |s|)
  {
    hide Supports, Matches;
    NoSupports(lang, s, order, i, |s|);
    NoSupports(lang, s, order, i, i + 1);
    forall k | 0 <= k < |s|
      ensures SweptAt(lang, s, order, out[k], i, |s|, k)
    {
      assert SweptAt(lang, s, order, out[k], i, i + 1, k);
      if Canon(lang, s, k).Some? {
        StarsHaveDepthOne(lang, s, k);
      }
    }
  }

  lemma {:induction false} NoSupports(lang: Language, s: seq<Item>, order: seq<nat>, i: nat, n: nat)
    requires i < n <= |s| == |order| && (!Standing(s, i) || Canon(lang, s, i).Some?)
    ensures Supports(lang, s, order, i, n) == []
    decreases n
  {
    if n > i + 1 {
      NoSupports(lang, s, order, i, n - 1);
      hide Matches;
      if Canon(lang, s, n - 1).Some? {
        StarsHaveDepthOne(lang, s, n - 1);
      }
    }
  }

  /** The items arranged by `order`, which is evidence order unless some are
      tangled, each with its link and the places it supports. */
  ghost predicate LinkedUp(lang: Language, items: seq<Item>, order: seq<nat>, out: seq<Projected>) {
    && IsOrder(order, |items|) && |out| == |items| && multiset(Arranged(items, order)) == multiset(items)
    && Stable(items, ItemLess(lang), order) && (Orderly(lang, items) ==> InOrder(items, ItemLess(lang), order))
    && var s := Arranged(items, order);
       forall k :: 0 <= k < |items| ==> out[k] == Projected(FinalItem(lang, s, k), order[k], Supports(lang, s, order, k, |s|))
  }

  method ProjectDuplicates(lang: Language, items: seq<Item>) returns (out: seq<Projected>)
    ensures exists order :: LinkedUp(lang, items, order, out)
  {
    hide Matches, Canon, Supports, Swept, EvidenceLess;
    OrderExactlyWithoutTangles(lang, items);
    var sorted := Sorting.Sort(items, ItemLess(lang));
    ghost var s := Arranged(items, sorted);
    out := seq(|items|, k requires 0 <= k < |items| => Projected(items[sorted[k]], sorted[k], []));
    SweepStart(lang, s, sorted, out);
    var i := 0;
    while i < |out|
      invariant i <= |items| && |out| == |items| && Swept(lang, s, sorted, out, i, i + 1)
    {
      SweptAtSelf(lang, s, sorted, out, i);
      if out[i].item.id == "" || out[i].item.duplicateOf != "" {
        SweepIdle(lang, s, sorted, out, i);
        SweepNext(lang, s, sorted, out, i);
        i := i + 1;
        continue;
      }
      var j := i + 1;
      while j < |out|
        invariant i < j <= |items| && |out| == |items| && Swept(lang, s, sorted, out, i, j)
      {
        TakesNow(lang, s, sorted, out, i, j);
        SweepPlace(lang, s, sorted, out, i, j);
        if out[j].item.id == "" || out[j].item.duplicateOf != "" || !Matches(lang, out[i].item, out[j].item) {
          j := j + 1;
          continue;
        }
        var taken := out[j].originalIndex;
        out := out[j := out[j].(item := out[j].item.(duplicateOf := out[i].item.id))];
        out := out[i := out[i].(supporting := out[i].supporting + [taken])];
        j := j + 1;
      }
      SweepNext(lang, s, sorted, out, i);
      i := i + 1;
    }
    SweepEnds(lang, s, sorted, out);
    assert LinkedUp(lang, items, sorted, out);
  }

  lemma SweepStart(lang: Language, s: seq<Item>, order: seq<nat>, out: seq<Projected>)
    requires |s| == |order| == |out| && forall k :: 0 <= k < |s| ==> out[k] == Projected(s[k], order[k], [])
    ensures Swept(lang, s, order, out, 0, 1)
  {
    hide Canon;
    forall k | 0 <= k < |s|
      ensures SweptAt(lang, s, order, out[k], 0, 1, k)
    {
      CanonIsEarlier(lang, s, k);
    }
  }

  lemma SweptAtSelf(lang: Language, s: seq<Item>, order: seq<nat>, out: seq<Projected>, i: nat)
    requires |s| == |order| && i < |s| && Swept(lang, s, order, out, i, i + 1)
    ensures |out| == |s|
    ensures (out[i].item.id == "" || out[i].item.duplicateOf != "") <==> (!Standing(s, i) || Canon(lang, s, i).Some?)
  {
    hide Canon;
    assert SweptAt(lang, s, order, out[i], i, i + 1, i);
    CanonIsEarlier(lang, s, i);
    CanonStands(lang, s, i);
  }

  lemma CanonStands(lang: Language, s: seq<Item>, i: nat)
    requires i < |s|
    ensures Canon(lang, s, i).Some? ==> Standing(s, i)
  {
  }

  lemma SweepEnds(lang: Language, s: seq<Item>, order: seq<nat>, out: seq<Projected>)
    requires |s| == |order| && Swept(lang, s, order, out, |s|, |s| + 1)
    ensures |out| == |s|
    ensures forall k :: 0 <= k < |s| ==> out[k] == Projected(FinalItem(lang, s, k), order[k], Supports(lang, s, order, k, |s|))
  {
    hide Canon, Supports;
    forall k | 0 <= k < |s|
      ensures out[k] == Projected(FinalItem(lang, s, k), order[k], Supports(lang, s, order, k, |s|))
    {
      assert SweptAt(lang, s, order, out[k], |s|, |s| + 1, k);
      CanonIsEarlier(lang, s, k);
    }
  }

  // ------------------------------------------------ the order they came in

  predicate DistinctIds(items: seq<Item>) {
    forall j, k :: 0 <= j < k < |items| ==> items[j].id != items[k].id
  }

  lemma ArrangedIn<T>(xs: seq<T>, order: seq<nat>, k: nat)
    requires (forall j :: 0 <= j < |order| ==> order[j] < |xs|) && k < |order|
    ensures Arranged(xs, order)[k] in xs
  {
  }

  lemma ArrangedAscends(lang: Language, items: seq<Item>, order: seq<nat>)
    requires DistinctIds(items) && IsOrder(order, |items|) && InOrder(items, ItemLess(lang), order)
    ensures Ascends(Arranged(items, order), ItemLess(lang))
  {
    hide EvidenceLess;
    var s, less := Arranged(items, order), ItemLess(lang);
    forall j, k | 0 <= j < k < |s|
      ensures less(s[j], s[k]) && !less(s[k], s[j])
    {
      ArrangedIn(items, order, j);
      ArrangedIn(items, order, k);
      EvidenceLessDecides(lang, s[j], s[k]);
      assert order[j] != order[k];
      assert items[order[j]].id != items[order[k]].id;
    }
  }

  lemma SameMembers(lang: Language, a: seq<Item>, b: seq<Item>)
    requires multiset(a) == multiset(b) && Orderly(lang, a)
    ensures Orderly(lang, b) && |a| == |b|
  {
    assert |multiset(a)| == |a| && |multiset(b)| == |b|;
    forall x | x in b
      ensures x in a
    {
      assert x in multiset(b);
    }
  }

  /** Items with distinct ids of which no three are tangled come out the same,
      links and all, whatever order they went in. */
  lemma LinksIgnoreInputOrder(lang: Language, a: seq<Item>, b: seq<Item>, oa: seq<nat>, ob: seq<nat>, x: seq<Projected>, y: seq<Projected>)
    requires multiset(a) == multiset(b) && DistinctIds(a) && DistinctIds(b) && Orderly(lang, a)
    requires LinkedUp(lang, a, oa, x) && LinkedUp(lang, b, ob, y)
    ensures |x| == |y| && forall k :: 0 <= k < |x| ==> x[k].item == y[k].item
  {
    hide FinalItem, Orderly, Arranged, Supports;
    SameMembers(lang, a, b);
    ArrangedAscends(lang, a, oa);
    ArrangedAscends(lang, b, ob);
    OneArrangement(Arranged(a, oa), Arranged(b, ob), ItemLess(lang));
  }

  // -------------------------------------------------------------- the citations

  function Key(c: Citation): (string, string, string, string) {
    (c.memoryId, c.commitmentId, c.role, c.evidenceRef)
  }

  function Keys(cs: seq<Citation>): set<(string, string, string, string)> {
    set c | c in cs :: Key(c)
  }

  /** All of a, then each citation of b whose key is new, once. */
  function Merged(a: seq<Citation>, b: seq<Citation>): seq<Citation>
    decreases |b|
  {
    if b == [] then a else Merged(if Key(b[0]) in Keys(a) then a else a + [b[0]], b[1..])
  }

  lemma KeysAdd(cs: seq<Citation>, c: Citation)
    ensures Keys(cs + [c]) == Keys(cs) + {Key(c)}
  {
    forall k | k in Keys(cs)
      ensures k in Keys(cs + [c])
    {
      var x :| x in cs && Key(x) == k;
      assert x in cs + [c];
    }
    assert c in cs + [c];
  }

  /** Merging keeps what was there, first and in order, gains every key of the
      other side and no key twice. */
  lemma {:induction false} MergedMeans(a: seq<Citation>, b: seq<Citation>)
    ensures a <= Merged(a, b) && Keys(Merged(a, b)) == Keys(a) + Keys(b)
    ensures forall j :: |a| <= j < |Merged(a, b)| ==> Merged(a, b)[j] in b && Key(Merged(a, b)[j]) !in Keys(Merged(a, b)[..j])
    decreases |b|
  {
    if b == [] {
      assert Keys(b) == {};
    } else {
      var next := if Key(b[0]) in Keys(a) then a else a + [b[0]];
      KeysAdd(a, b[0]);
      KeysCut(b);
      MergedMeans(next, b[1..]);
      var m := Merged(next, b[1..]);
      forall j | |a| <= j < |m|
        ensures m[j] in b && Key(m[j]) !in Keys(m[..j])
      {
        if j < |next| {
          assert m[j] == b[0] && m[..j] == a;
        } else {
          assert m[j] in b[1..];
        }
      }
    }
  }

  lemma KeysCut(b: seq<Citation>)
    requires b != []
    ensures Keys(b) == {Key(b[0])} + Keys(b[1..])
  {
    forall k | k in Keys(b)
      ensures k in {Key(b[0])} + Keys(b[1..])
    {
      var x :| x in b && Key(x) == k;
      assert x == b[0] || x in b[1..];
    }
    forall k | k in {Key(b[0])} + Keys(b[1..])
      ensures k in Keys(b)
    {
      if k == Key(b[0]) {
        assert b[0] in b;
      } else {
        var x :| x in b[1..] && Key(x) == k;
        assert x in b;
      }
    }
  }

  method MergeCitations(a: seq<Citation>, b: seq<Citation>) returns (out: seq<Citation>)
    ensures out == Merged(a, b)
  {
    out := a;
    var seen := Keys(a);
    var i := 0;
    while i < |b|
      invariant i <= |b| && seen == Keys(out) && Merged(out, b[i..]) == Merged(a, b)
    {
      KeysAdd(out, b[i]);
      assert b[i..][1..] == b[i + 1..];
      if Key(b[i]) !in seen {
        seen := seen + {Key(b[i])};
        out := out + [b[i]];
      }
      i := i + 1;
    }
    assert b[i..] == [];
  }

  function Supporting(c: Citation, id: string): Citation {
    c.(role := SUPPORTING, commitmentId := id)
  }

  /** What one duplicate brings: its citations, marked as supporting. */
  function Brought(r: Item): seq<Citation> {
    seq(|r.citations|, k requires 0 <= k < |r.citations| => Supporting(r.citations[k], r.id))
  }

  predicate Within(places: seq<nat>, n: nat) {
    forall k :: 0 <= k < |places| ==> places[k] < n
  }

  function Carried(records: seq<Item>, base: seq<Citation>, places: seq<nat>): seq<Citation>
    requires Within(places, |records|)
    decreases |places|
  {
    if places == [] then base else Carried(records, Merged(base, Brought(records[places[0]])), places[1..])
  }

  /** Nothing already cited is lost, and every citation of every duplicate is there. */
  lemma {:induction false} CarriedHasAll(records: seq<Item>, base: seq<Citation>, places: seq<nat>, p: nat, c: Citation)
    requires Within(places, |records|)
    ensures base <= Carried(records, base, places)
    ensures p in places && c in records[p].citations ==> Key(Supporting(c, records[p].id)) in Keys(Carried(records, base, places))
    decreases |places|
  {
    if places != [] {
      var more := Merged(base, Brought(records[places[0]]));
      assert places == [places[0]] + places[1..];
      MergedMeans(base, Brought(records[places[0]]));
      CarriedHasAll(records, more, places[1..], p, c);
      if p == places[0] && c in records[p].citations {
        var k :| 0 <= k < |records[p].citations| && records[p].citations[k] == c;
        assert Brought(records[p])[k] == Supporting(c, records[p].id);
        assert Brought(records[p])[k] in Brought(records[p]);
        KeysKept(more, Carried(records, more, places[1..]));
      } else if p in places {
        assert places == [places[0]] + places[1..];
      }
    }
  }

  lemma KeysKept(a: seq<Citation>, b: seq<Citation>)
    requires a <= b
    ensures Keys(a) <= Keys(b)
  {
    forall k | k in Keys(a)
      ensures k in Keys(b)
    {
      var x :| x in a && Key(x) == k;
      var i :| 0 <= i < |a| && a[i] == x;
      assert b[i] == x;
    }
  }

  lemma {:induction false} SupportsInRange(lang: Language, s: seq<Item>, order: seq<nat>, c: nat, n: nat)
    requires c < n <= |s| == |order| && forall k :: 0 <= k < |order| ==> order[k] < |s|
    ensures Within(Supports(lang, s, order, c, n), |s|)
    decreases n
  {
    hide Canon;
    if n > c + 1 {
      SupportsInRange(lang, s, order, c, n - 1);
    }
  }

  /** Each record with its link, and the citations of all that it supports. */
  ghost predicate Merges(lang: Language, records: seq<Item>, order: seq<nat>, out: seq<Item>) {
    && IsOrder(order, |records|) && |out| == |records|
    && Stable(records, ItemLess(lang), order) && (Orderly(lang, records) ==> InOrder(records, ItemLess(lang), order))
    && var s := Arranged(records, order);
       forall k :: 0 <= k < |records| ==>
         && Within(Supports(lang, s, order, k, |s|), |records|)
         && out[k] == records[order[k]].(duplicateOf := FinalItem(lang, s, k).duplicateOf,
                                         citations := Carried(records, records[order[k]].citations, Supports(lang, s, order, k, |s|)))
  }

  method Deduplicate(lang: Language, records: seq<Item>) returns (out: seq<Item>)
    ensures exists order :: Merges(lang, records, order, out)
  {
    hide Supports, FinalItem, Carried, Orderly;
    var projected := ProjectDuplicates(lang, records);
    ghost var order :| LinkedUp(lang, records, order, projected);
    ghost var s := Arranged(records, order);
    out := [];
    var i := 0;
    while i < |projected|
      invariant i <= |projected| == |records| && |out| == i
      invariant forall k :: 0 <= k < i ==>
                  && Within(Supports(lang, s, order, k, |s|), |records|)
                  && out[k] == records[order[k]].(duplicateOf := FinalItem(lang, s, k).duplicateOf,
                                                  citations := Carried(records, records[order[k]].citations, Supports(lang, s, order, k, |s|)))
    {
      SupportsInRange(lang, s, order, i, |s|);
      var record := records[projected[i].originalIndex];
      var citations := CarryAll(records, record.citations, projected[i].supporting);
      out := out + [record.(duplicateOf := projected[i].item.duplicateOf, citations := citations)];
      i := i + 1;
    }
    assert Merges(lang, records, order, out);
  }

  method CarryAll(records: seq<Item>, base: seq<Citation>, places: seq<nat>) returns (out: seq<Citation>)
    requires Within(places, |records|)
    ensures out == Carried(records, base, places)
  {
    out := base;
    var i := 0;
    while i < |places|
      invariant i <= |places| && Within(places[i..], |records|) && Carried(records, out, places[i..]) == Carried(records, base, places)
    {
      assert places[i..][0] == places[i] && places[i..][1..] == places[i + 1..];
      var r := records[places[i]];
      ghost var before := out;
      var j := 0;
      assert Brought(r)[0..] == Brought(r);
      while j < |r.citations|
        invariant j <= |r.citations| && Merged(out, Brought(r)[j..]) == Merged(before, Brought(r))
      {
        assert Brought(r)[j..][0] == Brought(r)[j] && Brought(r)[j..][1..] == Brought(r)[j + 1..];
        MergeOne(out, Brought(r)[j]);
        out := MergeCitations(out, [Supporting(r.citations[j], r.id)]);
        j := j + 1;
      }
      assert Brought(r)[j..] == [];
      i := i + 1;
    }
    assert places[i..] == [];
  }

  lemma MergeOne(a: seq<Citation>, c: Citation)
    ensures Merged(a, [c]) == if Key(c) in Keys(a) then a else a + [c]
  {
    assert [c][1..] == [];
  }

  /** Every citation of a duplicate ends up, marked as supporting, on the item it
      duplicates; and that item keeps every citation it had. */
  lemma CitationsAreCarried(lang: Language, records: seq<Item>, order: seq<nat>, j: nat, c: Citation)
    requires IsOrder(order, |records|) && j < |records| && c in records[order[j]].citations
    requires Canon(lang, Arranged(records, order), j).Some?
    ensures var s := Arranged(records, order);
            var k := Canon(lang, s, j).value;
            && k < j && Within(Supports(lang, s, order, k, |s|), |records|)
            && var carried := Carried(records, records[order[k]].citations, Supports(lang, s, order, k, |s|));
               Key(Supporting(c, records[order[j]].id)) in Keys(carried) && records[order[k]].citations <= carried
  {
    hide Canon, Supports, Matches, Takes;
    var s := Arranged(records, order);
    StarsHaveDepthOne(lang, s, j);
    var k := Canon(lang, s, j).value;
    SupportsInRange(lang, s, order, k, |s|);
    SupportsAreDuplicates(lang, s, order, k, |s|, order[j]);
    CarriedHasAll(records, records[order[k]].citations, Supports(lang, s, order, k, |s|), order[j], c);
  }
}
