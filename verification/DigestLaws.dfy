/** What budgeting does to a digest, said over the items shown, the text of the
    page and its length. */
module DigestLaws {
  import opened Digest

  /** The page when nothing is on the shelf and no section is there. */
  lemma FrameIsBarePage(d: Model)
    ensures Frame(d) == |RenderBody(d.(urgent := [], sections := []))|
  {
  }

  ghost function Emptied(s: Section): Section {
    Section(s.source, s.name, s.state, [], |s.items| + s.moreCount, s.truncated, s.elidedByBudget)
  }

  /** What is set aside for a section is what it takes with all its items counted and
      none shown; one with nothing to count has its unprinted count line set aside. */
  lemma ReservedIsEmptied(s: Section, rest: seq<Section>)
    ensures Reserved([s] + rest) == Reserved([s]) + Reserved(rest) && Reserved([]) == 0
    ensures Reserved([s]) ==
            |RenderSection(Emptied(s))| + if |s.items| + s.moreCount > 0 then 0 else |MoreLine(|s.items| + s.moreCount)|
  {
    hide Digits, Heading, Decimal, MoreLine;
    assert ([s] + rest)[0] == s && ([s] + rest)[1..] == rest && [s][0] == s && [s][1..] == [] && Reserved([]) == 0;
    HeadingIsKept(s);
    var head := "\n## " + Heading(s) + "\n";
    assert Lines([]) == "" && head + "" == head;
  }

  lemma HeadingIsKept(s: Section)
    ensures SectionHeading(Emptied(s)) == SectionHeading(s)
  {
    hide Decimal;
  }

  /** The shelf's heading counts every urgent item there was; the shelf holds the
      longest run of them from the first that fits under the room with it. */
  lemma ShelfIsLongestRun(d: Model, room: int, fit: nat)
    requires fit <= |d.urgent|
    ensures UrgentFits(d, room, fit) <==>
            var bare := |RenderBody(d.(urgent := [], sections := []))| + |"\n## " + WARNING + " Urgent (" + Digits(|d.urgent|) + ")\n"|;
            && (fit > 0 ==> bare + |Lines(d.urgent[..fit])| <= room)
            && (fit < |d.urgent| ==> room < bare + |Lines(d.urgent[..fit + 1])|)
  {
    FrameIsBarePage(d);
    LinesCost(d.urgent, fit);
    if fit < |d.urgent| {
      LinesCost(d.urgent, fit + 1);
    }
    hide RenderBody, Frame, Lines, Cost, Digits;
  }

  /** The text of each section's first items, up to the floor. */
  ghost function FloorLines(ss: seq<Section>, floor: int): string {
    if ss == [] then ""
    else
      var last := ss[|ss| - 1].items;
      FloorLines(ss[..|ss| - 1], floor) +
      if floor <= 0 then "" else if floor < |last| then Lines(last[..floor]) else Lines(last)
  }

  lemma {:induction false} FloorCostIsText(ss: seq<Section>, floor: int, n: nat)
    requires n <= |ss|
    ensures FloorCost(ss, floor, n) == |FloorLines(ss[..n], floor)|
    decreases n
  {
    if n > 0 {
      FloorCostIsText(ss, floor, n - 1);
      assert ss[..n][..n - 1] == ss[..n - 1];
      var last := ss[n - 1].items;
      LinesCost(last, Min(AtLeastZero(floor), |last|));
      assert last[..0] == [] && last[..|last|] == last;
    }
  }

  /** What the kept items cost is the length of their lines. */
  lemma {:induction false} SpentIsText(ss: seq<Section>, kept: seq<nat>)
    requires Fits(ss, kept)
    ensures ss == [] ==> Spent(ss, kept) == 0
    ensures ss != [] ==> Spent(ss, kept) == |Lines(ss[0].items[..kept[0]])| + Spent(ss[1..], kept[1..])
  {
    if ss != [] {
      LinesCost(ss[0].items, kept[0]);
    }
  }

  /** The page stays within the room, unless what is never cut does not fit in it. */
  lemma PageIsBounded(d: Model, room: int, sourceFloor: int, fit: nat, kept: seq<nat>, out: Model, survived: set<string>)
    requires Budgeted(d, room, sourceFloor, fit, kept, out, survived)
    ensures var uncut := |RenderBody(d.(urgent := [], sections := []))| + |UrgentShelf(out)| + Reserved(d.sections);
            |RenderBody(out)| <= if uncut <= room then room else uncut
  {
    FrameIsBarePage(d);
    ShelfSame(UrgentCut(d, fit), out.sections, out.emptyExplanation);
    hide RenderBody, UrgentShelf, Frame, Reserved, UrgentFits;
  }

  /** What is reported as shown is what is shown. */
  lemma SurvivorsAreShown(d: Model, room: int, sourceFloor: int, fit: nat, kept: seq<nat>, out: Model, survived: set<string>, id: string)
    requires Budgeted(d, room, sourceFloor, fit, kept, out, survived)
    ensures id in survived <==>
            || (exists k :: 0 <= k < |out.urgent| && out.urgent[k].id == id)
            || (exists i, k :: 0 <= i < |out.sections| && 0 <= k < |out.sections[i].items| && out.sections[i].items[k].id == id)
  {
    hide UrgentFits, RenderBody, UrgentShelf, Reserved, Frame, Spent, FloorCost, Explained;
    assert out.urgent == d.urgent[..fit];
    if id in Surfaced(d.sections, kept) {
      var i, k :| 0 <= i < |d.sections| && 0 <= k < kept[i] && d.sections[i].items[k].id == id;
      assert out.sections[i].items[k].id == id;
    }
    if i, k :| 0 <= i < |out.sections| && 0 <= k < |out.sections[i].items| && out.sections[i].items[k].id == id {
      assert k < kept[i] && d.sections[i].items[k].id == id;
    }
    if id in Ids(d.urgent, fit) {
      var k :| 0 <= k < fit && d.urgent[k].id == id;
      assert out.urgent[k].id == id;
    }
    if k :| 0 <= k < |out.urgent| && out.urgent[k].id == id {
      assert d.urgent[k].id == id;
    }
  }

  ghost predicate ShowsNothing(d: Model) {
    d.urgent == [] && forall i :: 0 <= i < |d.sections| ==> d.sections[i].items == []
  }

  lemma {:induction false} CountedIsShown(ss: seq<Section>)
    ensures CountItems(ss) == 0 <==> forall i :: 0 <= i < |ss| ==> ss[i].items == []
  {
    if ss != [] {
      CountedIsShown(ss[1..]);
      assert forall i :: 1 <= i < |ss| ==> ss[i] == ss[1..][i - 1];
    }
  }

  /** A page that lost its last item to the budget says so, where it had nothing else
      to say; any other keeps what it said. */
  lemma EmptiedPageSaysWhy(d: Model, fit: nat, kept: seq<nat>)
    requires fit <= |d.urgent| && Fits(d.sections, kept)
    ensures var out := Whole(d, fit, kept);
            out.emptyExplanation ==
            if d.emptyExplanation == "" && !ShowsNothing(d) && ShowsNothing(out) then "all items elided by token budget" else d.emptyExplanation
  {
    CountedIsShown(d.sections);
    CountedIsShown(CutAll(d.sections, kept));
    hide CountItems;
  }

  lemma FloorIsHeld(d: Model, room: int, sourceFloor: int, fit: nat, kept: seq<nat>, out: Model, survived: set<string>, i: nat)
    requires Budgeted(d, room, sourceFloor, fit, kept, out, survived) && i < |d.sections|
    requires Frame(d) + |UrgentShelf(UrgentCut(d, fit))| + Reserved(d.sections) + FloorCost(d.sections, sourceFloor, |d.sections|) <= room
    ensures |kept| == |d.sections| && kept[i] <= |d.sections[i].items| && out.sections == CutAll(d.sections, kept)
    ensures kept[i] >= Min(AtLeastZero(sourceFloor), |d.sections[i].items|)
    ensures out.urgent == UrgentCut(d, fit).urgent && out.urgentMore == UrgentCut(d, fit).urgentMore
  {
    hide RenderBody, UrgentShelf, Frame, Reserved, UrgentFits, FloorCost, Spent, Explained, UrgentCut, Surfaced, Ids, Min, AtLeastZero;
  }

  lemma ShelfIsSame(d: Model, e: Model)
    requires d.urgent == e.urgent && d.urgentMore == e.urgentMore
    ensures UrgentShelf(d) == UrgentShelf(e)
  {
  }

  /** Where the floors fit each section shows its floor, or all it has. */
  lemma FloorsAreKept(d: Model, room: int, sourceFloor: int, fit: nat, kept: seq<nat>, out: Model, survived: set<string>, i: nat)
    requires Budgeted(d, room, sourceFloor, fit, kept, out, survived) && i < |d.sections|
    requires |RenderBody(d.(urgent := [], sections := []))| + |UrgentShelf(out)| + Reserved(d.sections)
             + |FloorLines(d.sections, sourceFloor)| <= room
    ensures |out.sections| == |d.sections|
    ensures sourceFloor <= |out.sections[i].items| || out.sections[i].items == d.sections[i].items
  {
    hide RenderBody, UrgentShelf, Frame, Reserved, UrgentFits, FloorCost, FloorLines, Spent, Explained, UrgentCut, Surfaced, Ids, Cut, Budgeted;
    FrameIsBarePage(d);
    FloorCostIsText(d.sections, sourceFloor, |d.sections|);
    assert d.sections[..|d.sections|] == d.sections;
    BudgetedShelf(d, room, sourceFloor, fit, kept, out, survived);
    ShelfIsSame(UrgentCut(d, fit), out);
    FloorIsHeld(d, room, sourceFloor, fit, kept, out, survived, i);
    assert d.sections[i].items[..|d.sections[i].items|] == d.sections[i].items;
  }

  lemma BudgetedShelf(d: Model, room: int, sourceFloor: int, fit: nat, kept: seq<nat>, out: Model, survived: set<string>)
    requires Budgeted(d, room, sourceFloor, fit, kept, out, survived)
    ensures fit <= |d.urgent| && out.urgent == UrgentCut(d, fit).urgent && out.urgentMore == UrgentCut(d, fit).urgentMore
  {
    hide RenderBody, UrgentShelf, Frame, Reserved, UrgentFits, FloorCost, Spent, Explained, UrgentCut, Surfaced, Ids;
  }
}
