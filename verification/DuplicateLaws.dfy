/** Which items are one commitment, said over their words, their sources, their
    parties and their state; and what linking then does to each. */
module DuplicateLaws {
  import opened Ordering
  import opened OrderingLaws
  import opened Sorting
  import opened Lifecycle
  import opened Duplicates

  // ------------------------------------------------------------ what must match

  /** The same line, or at least half of the object words of the item with fewer. */
  ghost predicate SameWords(lang: Language, a: Item, b: Item) {
    || lang.fold(lang.oneLine(a.summary)) == lang.fold(lang.oneLine(b.summary))
    || (&& 0 < |lang.tokens(a.summary)| && 0 < |lang.tokens(b.summary)|
        && (|lang.tokens(a.summary)| <= 2 * |lang.tokens(a.summary) * lang.tokens(b.summary)|
            || |lang.tokens(b.summary)| <= 2 * |lang.tokens(a.summary) * lang.tokens(b.summary)|))
  }

  /** One block of one message opened both, or the one's message is an ancestor of
      the other's. */
  ghost predicate SameSource(lang: Language, a: Item, b: Item) {
    || (a.openedBy.messageRef == b.openedBy.messageRef != "" && a.openedBy.blockRef == b.openedBy.blockRef != "")
    || (b.openedBy.messageRef != "" && exists v <- a.openedBy.ancestorRefs :: lang.fold(v) == lang.fold(b.openedBy.messageRef))
    || (a.openedBy.messageRef != "" && exists v <- b.openedBy.ancestorRefs :: lang.fold(v) == lang.fold(a.openedBy.messageRef))
  }

  ghost predicate OneAtom(lang: Language, a: Atom, b: Atom) {
    lang.fold(a.provider) == lang.fold(b.provider) && lang.fold(a.kind) == lang.fold(b.kind) && lang.fold(a.value) == lang.fold(b.value)
  }

  ghost predicate OneCounterparty(lang: Language, a: Item, b: Item) {
    || OneAtom(lang, a.counterparty, b.counterparty)
    || exists k <- a.counterpartyKeys, o <- b.counterpartyKeys :: lang.key(k).text == lang.key(o).text
  }

  /** What matching asks, all of it: words and source, the counterparty, the owner
      unless the counterparty owes, and direction, due date, state and closing
      reference to the letter. */
  lemma MatchingAsks(lang: Language, a: Item, b: Item)
    ensures Matches(lang, a, b) <==>
            && SameWords(lang, a, b) && SameSource(lang, a, b) && OneCounterparty(lang, a, b)
            && (OneAtom(lang, a.owner, b.owner) || a.direction == OwedByCounterparty)
            && a.direction == b.direction && a.due == b.due && a.state == b.state && a.closureRef == b.closureRef
  {
    var left, right := lang.tokens(a.summary), lang.tokens(b.summary);
    assert left != {} <==> 0 < |left|;
    assert right != {} <==> 0 < |right|;
  }

  /** Items that differ in direction, due date, state or closing reference never
      match, nor do items that name no message. */
  lemma NeverMatch(lang: Language, a: Item, b: Item)
    requires a.direction != b.direction || a.due != b.due || a.state != b.state || a.closureRef != b.closureRef
             || (a.openedBy.messageRef == "" && b.openedBy.messageRef == "")
    ensures !Matches(lang, a, b)
  {
    MatchingAsks(lang, a, b);
  }

  /** Which of the two is asked does not matter. */
  lemma MatchingIsMutual(lang: Language, a: Item, b: Item)
    ensures Matches(lang, a, b) <==> Matches(lang, b, a)
  {
    MatchingAsks(lang, a, b);
    MatchingAsks(lang, b, a);
    hide Matches;
    assert lang.tokens(a.summary) * lang.tokens(b.summary) == lang.tokens(b.summary) * lang.tokens(a.summary);
  }

  // ------------------------------------------------------------ which comes first

  /** Earlier by the clock where both times can be read and differ, by the text
      otherwise; then by message, block and id. */
  ghost predicate OpenedBefore(lang: Language, a: Item, b: Item) {
    var at, bt := lang.instant(a.openedBy.occurredAt), lang.instant(b.openedBy.occurredAt);
    if a.openedBy.occurredAt != b.openedBy.occurredAt then
      if at.Some? && bt.Some? && at.value != bt.value then at.value < bt.value
      else TextBefore(a.openedBy.occurredAt, b.openedBy.occurredAt)
    else
      || TextBefore(a.openedBy.messageRef, b.openedBy.messageRef)
      || (a.openedBy.messageRef == b.openedBy.messageRef
          && (TextBefore(a.openedBy.blockRef, b.openedBy.blockRef)
              || (a.openedBy.blockRef == b.openedBy.blockRef && TextBefore(a.id, b.id))))
  }

  lemma OrderIsByOpening(lang: Language, a: Item, b: Item)
    ensures ItemLess(lang)(a, b) <==> OpenedBefore(lang, a, b)
  {
    LessIsTextBefore(a.openedBy.occurredAt, b.openedBy.occurredAt);
    LessIsTextBefore(a.openedBy.messageRef, b.openedBy.messageRef);
    LessIsTextBefore(a.openedBy.blockRef, b.openedBy.blockRef);
    LessIsTextBefore(a.id, b.id);
    LessIrreflexive(a.openedBy.messageRef);
    LessIrreflexive(a.openedBy.blockRef);
    hide Less, TextBefore;
  }

  // ------------------------------------------------------------ who is linked

  /** The item carries an id and came in as nobody's duplicate. */
  ghost predicate Stands(s: seq<Item>, j: nat)
    requires j < |s|
  {
    s[j].id != "" && s[j].duplicateOf == ""
  }

  /** Item k comes out for itself and matches j. */
  ghost predicate CanTake(lang: Language, s: seq<Item>, k: nat, j: nat)
    requires k < j < |s|
  {
    Stands(s, k) && FinalItem(lang, s, k).duplicateOf == "" && Matches(lang, s[k], s[j])
  }

  lemma TakesMeans(lang: Language, s: seq<Item>, k: nat, j: nat)
    requires k < j < |s|
    ensures Takes(lang, s, k, j) <==> CanTake(lang, s, k, j)
  {
    hide Matches;
    if Canon(lang, s, k).Some? {
      StarsHaveDepthOne(lang, s, k);
    }
  }

  ghost function LinkedTo(c: Item, id: string): Item {
    Item(c.id, c.owner, c.counterparty, c.counterpartyKeys, c.direction, c.summary, c.openedBy, c.due, c.state, c.closureRef,
         c.supersededBy, c.gap, c.citations, id)
  }

  /** An item that stands is linked to the first earlier one that comes out for itself
      and matches it, and otherwise left alone; nothing but its link ever changes. */
  lemma LinkingDecides(lang: Language, s: seq<Item>, j: nat)
    requires j < |s|
    ensures if Stands(s, j) && exists k: nat :: k < j && CanTake(lang, s, k, j) then
              exists k: nat ::
                && k < j && CanTake(lang, s, k, j) && (forall i: nat :: i < k ==> !CanTake(lang, s, i, j))
                && FinalItem(lang, s, j) == LinkedTo(s[j], s[k].id)
            else FinalItem(lang, s, j) == s[j]
  {
    hide Matches;
    forall k: nat | k < j
      ensures Takes(lang, s, k, j) <==> CanTake(lang, s, k, j)
    {
      TakesMeans(lang, s, k, j);
    }
    CanonFromMeans(lang, s, 0, j);
    hide Takes, CanTake;
  }

  /** Where the duplicates of one item stand, in their order. */
  ghost predicate ArePlaces(lang: Language, s: seq<Item>, c: nat, n: nat, places: seq<nat>)
    requires c < n <= |s|
  {
    && (forall k :: 0 <= k < |places| ==> c < places[k] < n && Canon(lang, s, places[k]) == Some(c))
    && (forall j, k :: 0 <= j < k < |places| ==> places[j] < places[k])
  }

  /** The duplicates of an item are listed in the order they stand in. */
  lemma {:induction false} SupportsAscend(lang: Language, s: seq<Item>, order: seq<nat>, c: nat, n: nat) returns (places: seq<nat>)
    requires c < n <= |s| == |order|
    ensures ArePlaces(lang, s, c, n, places) && |Supports(lang, s, order, c, n)| == |places|
    ensures forall k :: 0 <= k < |places| ==> Supports(lang, s, order, c, n)[k] == order[places[k]]
    decreases n
  {
    hide Canon;
    places := [];
    if n > c + 1 {
      places := SupportsAscend(lang, s, order, c, n - 1);
      if Canon(lang, s, n - 1) == Some(c) {
        places := places + [n - 1];
      }
    }
  }

  // ------------------------------------------------------------- what is carried

  /** Two citations are one when memory, commitment, role and reference agree. */
  lemma OneCitation(c: Citation, d: Citation)
    ensures Key(c) == Key(d) <==>
            c.memoryId == d.memoryId && c.commitmentId == d.commitmentId && c.role == d.role && c.evidenceRef == d.evidenceRef
  {
  }

  /** A citation is carried over as supporting, under the duplicate's id. */
  lemma CarriedAsSupporting(c: Citation, id: string)
    ensures Supporting(c, id) == Citation(c.memoryId, id, "supporting", c.evidenceRef, c.source)
  {
  }

  /** What is carried beyond an item's own citations comes from its duplicates, and
      no citation is carried twice. */
  lemma {:induction false} CarriedIsBrought(records: seq<Item>, base: seq<Citation>, places: seq<nat>, i: nat)
    requires Within(places, |records|) && |base| <= i < |Carried(records, base, places)|
    ensures var all := Carried(records, base, places);
            && (exists p <- places, c <- records[p].citations :: all[i] == Supporting(c, records[p].id))
            && forall h :: 0 <= h < i ==> Key(all[h]) != Key(all[i])
    decreases |places|
  {
    if places != [] {
      var r := records[places[0]];
      var more := Merged(base, Brought(r));
      var all := Carried(records, more, places[1..]);
      assert places == [places[0]] + places[1..];
      MergedMeans(base, Brought(r));
      CarriedHasAll(records, more, places[1..], 0, Citation("", "", "", "", ""));
      if i < |more| {
        var k :| 0 <= k < |Brought(r)| && Brought(r)[k] == more[i];
        assert r.citations[k] in r.citations && all[i] == Supporting(r.citations[k], r.id);
        assert all[..i] == more[..i];
        NotAmong(all, i);
      } else {
        CarriedIsBrought(records, more, places[1..], i);
      }
    }
  }

  lemma NotAmong(cs: seq<Citation>, i: nat)
    requires i < |cs| && Key(cs[i]) !in Keys(cs[..i])
    ensures forall h :: 0 <= h < i ==> Key(cs[h]) != Key(cs[i])
  {
    forall h | 0 <= h < i
      ensures Key(cs[h]) != Key(cs[i])
    {
      assert cs[..i][h] == cs[h] && cs[h] in cs[..i];
    }
  }
}
