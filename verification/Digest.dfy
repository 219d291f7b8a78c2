/** The digest's byte budget: what is cut, what the reader is told about it, and
    why the page then fits. Text is a sequence of bytes, one per char. */
module Digest {

  // The UTF-8 bytes of the em dash and of the warning sign.
  const DASH := "\U{00e2}\U{0080}\U{0094}"
  const WARNING := "\U{00e2}\U{009a}\U{00a0}"

  /** An item as its id and the lines it renders to. */
  datatype Item = Item(id: string, line: string)

  datatype Section = Section(source: string, name: string, state: string, items: seq<Item>, moreCount: int, truncated: bool, elidedByBudget: int)

  /** The parts budgeting never touches come as rendered text. */
  datatype Model = Model(header: string, healthBanner: string, freshness: string, staleTasks: string,
                         urgent: seq<Item>, urgentMore: int, sections: seq<Section>, emptyExplanation: string)

  // ----------------------------------------------------------------- rendering

  function Digits(n: nat): (s: string)
    ensures |s| > 0
  {
    var last := [(n % 10) as char + '0'];
    if n < 10 then last else Digits(n / 10) + last
  }

  function Decimal(n: int): string {
    if n < 0 then "-" + Digits(-n) else Digits(n)
  }

  /** A larger count never prints shorter. */
  lemma {:induction false} DigitsGrow(m: nat, n: nat)
    requires m <= n
    ensures |Digits(m)| <= |Digits(n)|
    decreases n
  {
    if m >= 10 {
      DigitsGrow(m / 10, n / 10);
    }
  }

  function MoreLine(n: int): string {
    "- +" + Decimal(n) + " more since last brief\n"
  }

  function UrgentHeading(n: nat): string {
    "\n## " + WARNING + " Urgent (" + Digits(n) + ")\n"
  }

  function Lines(items: seq<Item>): string {
    if items == [] then "" else items[0].line + Lines(items[1..])
  }

  function UrgentShelf(d: Model): string {
    if d.urgent == [] then ""
    else UrgentHeading(|d.urgent|) + Lines(d.urgent) + (if d.urgentMore > 0 then "- +" + Decimal(d.urgentMore) + " more urgent\n" else "")
  }

  function Heading(s: Section): string {
    var total := |s.items| + s.moreCount;
    if s.state == "no changes since last brief" then s.name + " " + DASH + " no changes since last brief"
    else if s.state == "stale" then s.name + " " + DASH + " stale (no recent sync)"
    else if s.state == "unavailable" then s.name + " " + DASH + " unavailable (sync error)"
    else if s.state == "baseline" then s.name + " " + DASH + " baseline (" + Decimal(total) + ")"
    else s.name + " (" + Decimal(total) + ")"
  }

  function SectionHeading(s: Section): string {
    "\n## " + Heading(s) + "\n"
  }

  function RenderSection(s: Section): string {
    SectionHeading(s) + Lines(s.items) + (if s.moreCount > 0 then MoreLine(s.moreCount) else "")
  }

  function RenderSections(ss: seq<Section>): string {
    if ss == [] then "" else RenderSection(ss[0]) + RenderSections(ss[1..])
  }

  function RenderBody(d: Model): string {
    d.header + (if d.healthBanner != "" then d.healthBanner + "\n" else "") + d.freshness + UrgentShelf(d) + RenderSections(d.sections) + d.staleTasks
  }

  // -------------------------------------------------------------- the accounts

  function Cost(items: seq<Item>, n: nat): nat
    requires n <= |items|
  {
    if n == 0 then 0 else Cost(items, n - 1) + |items[n - 1].line|
  }

  function Ids(items: seq<Item>, n: nat): set<string>
    requires n <= |items|
  {
    set k | 0 <= k < n :: items[k].id
  }

  function Frame(d: Model): nat {
    |d.header| + |d.healthBanner| + (if d.healthBanner != "" then 1 else 0) + |d.freshness| + |d.staleTasks|
  }

  /** Room set aside before any item is placed. */
  function Reserved(ss: seq<Section>): nat {
    if ss == [] then 0
    else |SectionHeading(ss[0])| + |MoreLine(|ss[0].items| + ss[0].moreCount)| + Reserved(ss[1..])
  }

  predicate Fits(ss: seq<Section>, kept: seq<nat>) {
    |kept| == |ss| && forall i :: 0 <= i < |ss| ==> kept[i] <= |ss[i].items|
  }

  function Spent(ss: seq<Section>, kept: seq<nat>): nat
    requires Fits(ss, kept)
  {
    if ss == [] then 0 else Cost(ss[0].items, kept[0]) + Spent(ss[1..], kept[1..])
  }

  ghost function Surfaced(ss: seq<Section>, kept: seq<nat>): set<string>
    requires Fits(ss, kept)
  {
    set i, k | 0 <= i < |ss| && 0 <= k < kept[i] :: ss[i].items[k].id
  }

  /** One section after the cut: a prefix of its items, the rest counted. */
  function Cut(s: Section, kept: nat): (r: Section)
    requires kept <= |s.items|
    ensures r.items == s.items[..kept] && |r.items| + r.moreCount == |s.items| + s.moreCount
    ensures r.elidedByBudget == s.elidedByBudget + (|s.items| - kept)
    ensures r.source == s.source && r.name == s.name && r.state == s.state
    ensures r.truncated == (s.truncated || kept < |s.items|)
  {
    if s.items == [] then s
    else if kept == 0 then Section(s.source, s.name, s.state, [], s.moreCount + |s.items|, true, s.elidedByBudget + |s.items|)
    else
      var dropped := |s.items| - kept;
      s.(items := s.items[..kept], moreCount := s.moreCount + dropped, truncated := s.truncated || dropped > 0,
         elidedByBudget := s.elidedByBudget + dropped)
  }

  lemma {:induction false} LinesCost(items: seq<Item>, n: nat)
    requires n <= |items|
    ensures |Lines(items[..n])| == Cost(items, n)
    decreases n
  {
    if n > 0 {
      LinesCost(items, n - 1);
      LinesEnd(items[..n - 1], items[n - 1]);
      assert items[..n] == items[..n - 1] + [items[n - 1]];
    }
  }

  lemma {:induction false} LinesEnd(items: seq<Item>, it: Item)
    ensures |Lines(items + [it])| == |Lines(items)| + |it.line|
    decreases |items|
  {
    if items != [] {
      assert (items + [it])[1..] == items[1..] + [it];
      LinesEnd(items[1..], it);
    } else {
      assert [it] == [] + [it] && [it][1..] == [];
    }
  }

  /** A cut section takes its heading, its kept lines and at most one count line
      no longer than the one set aside. */
  lemma CutFits(s: Section, kept: nat)
    requires kept <= |s.items|
    ensures |RenderSection(Cut(s, kept))| <= |SectionHeading(s)| + |MoreLine(|s.items| + s.moreCount)| + Cost(s.items, kept)
  {
    LinesCost(s.items, kept);
    var r := Cut(s, kept);
    if r.moreCount > 0 {
      DigitsGrow(r.moreCount, |s.items| + s.moreCount);
    }
  }

  function CutAll(ss: seq<Section>, kept: seq<nat>): (r: seq<Section>)
    requires Fits(ss, kept)
    ensures |r| == |ss| && forall i :: 0 <= i < |ss| ==> r[i] == Cut(ss[i], kept[i])
  {
    seq(|ss|, i requires 0 <= i < |ss| => Cut(ss[i], kept[i]))
  }

  lemma {:induction false} CutAllFits(ss: seq<Section>, kept: seq<nat>)
    requires Fits(ss, kept)
    ensures |RenderSections(CutAll(ss, kept))| <= Reserved(ss) + Spent(ss, kept)
  {
    hide RenderSection, MoreLine, SectionHeading;
    if ss != [] {
      CutAllFits(ss[1..], kept[1..]);
      CutFits(ss[0], kept[0]);
      assert CutAll(ss, kept)[1..] == CutAll(ss[1..], kept[1..]);
    }
  }

  /** Whatever prefixes are kept, the page is no longer than its frame, its
      urgent shelf, what was set aside and what the kept items cost. */
  lemma PageFits(d: Model, urgent: seq<Item>, urgentMore: int, kept: seq<nat>, why: string)
    requires Fits(d.sections, kept)
    ensures var out := d.(urgent := urgent, urgentMore := urgentMore, sections := CutAll(d.sections, kept), emptyExplanation := why);
            |RenderBody(out)| <= Frame(d) + |UrgentShelf(out)| + Reserved(d.sections) + Spent(d.sections, kept)
  {
    hide RenderSections, UrgentShelf;
    CutAllFits(d.sections, kept);
  }

  // ------------------------------------------------------------------ the loops

  lemma {:induction false} SpentMore(ss: seq<Section>, kept: seq<nat>, i: nat)
    requires Fits(ss, kept) && i < |ss| && kept[i] < |ss[i].items|
    ensures Fits(ss, kept[i := kept[i] + 1])
    ensures Spent(ss, kept[i := kept[i] + 1]) == Spent(ss, kept) + |ss[i].items[kept[i]].line|
  {
    if i > 0 {
      SpentMore(ss[1..], kept[1..], i - 1);
      assert kept[i := kept[i] + 1][1..] == kept[1..][i - 1 := kept[i] + 1];
    } else {
      assert kept[0 := kept[0] + 1][1..] == kept[1..];
    }
  }

  lemma SurfacedMore(ss: seq<Section>, kept: seq<nat>, i: nat)
    requires Fits(ss, kept) && i < |ss| && kept[i] < |ss[i].items|
    ensures Fits(ss, kept[i := kept[i] + 1])
    ensures Surfaced(ss, kept[i := kept[i] + 1]) == Surfaced(ss, kept) + {ss[i].items[kept[i]].id}
  {
    var more := kept[i := kept[i] + 1];
    forall id | id in Surfaced(ss, kept) + {ss[i].items[kept[i]].id}
      ensures id in Surfaced(ss, more)
    {
      if id in Surfaced(ss, kept) {
        var j, k :| 0 <= j < |ss| && 0 <= k < kept[j] && ss[j].items[k].id == id;
        assert k < more[j];
      } else {
        assert kept[i] < more[i];
      }
    }
    forall id | id in Surfaced(ss, more)
      ensures id in Surfaced(ss, kept) + {ss[i].items[kept[i]].id}
    {
      var j, k :| 0 <= j < |ss| && 0 <= k < more[j] && ss[j].items[k].id == id;
      if k < kept[j] {
        assert ss[j].items[k].id in Surfaced(ss, kept);
      }
    }
  }

  function AtLeastZero(n: int): nat {
    if n < 0 then 0 else n
  }

  function Min(a: nat, b: nat): nat {
    if a < b then a else b
  }

  /** What the sections before n ask for to get their floor. */
  function FloorCost(ss: seq<Section>, floor: int, n: nat): nat
    requires n <= |ss|
  {
    if n == 0 then 0 else FloorCost(ss, floor, n - 1) + Cost(ss[n - 1].items, Min(AtLeastZero(floor), |ss[n - 1].items|))
  }

  lemma {:induction false} FloorCostGrows(ss: seq<Section>, floor: int, m: nat, n: nat)
    requires m <= n <= |ss|
    ensures FloorCost(ss, floor, m) <= FloorCost(ss, floor, n)
    decreases n
  {
    if m < n {
      FloorCostGrows(ss, floor, m, n - 1);
    }
  }

  lemma {:induction false} CostGrows(items: seq<Item>, m: nat, n: nat)
    requires m <= n <= |items|
    ensures Cost(items, m) <= Cost(items, n)
    decreases n
  {
    if m < n {
      CostGrows(items, m, n - 1);
    }
  }

  /** The running account of one budgeting: what each section keeps, what that
      costs and which ids the reader will see. */
  class Account {
    const sections: seq<Section>
    const remaining: nat
    const kept: array<nat>
    var used: nat
    var survived: set<string>
    ghost const shown: set<string>

    ghost predicate Valid()
      reads this, kept
    {
      && kept.Length == |sections| && Fits(sections, kept[..])
      && used == Spent(sections, kept[..]) && used <= remaining
      && survived == shown + Surfaced(sections, kept[..])
    }

    constructor (sections: seq<Section>, remaining: nat, survived: set<string>)
      ensures this.sections == sections && this.remaining == remaining && shown == survived
      ensures Valid() && fresh(kept) && used == 0 && forall i :: 0 <= i < |sections| ==> kept[i] == 0
    {
      this.sections, this.remaining, this.survived, shown := sections, remaining, survived, survived;
      kept := new nat[|sections|](_ => 0);
      used := 0;
      new;
      NothingSpent(sections, kept[..]);
    }

    /** Keeps the next item of section i if it still fits. */
    method Add(i: nat) returns (ok: bool)
      requires Valid() && i < |sections| && kept[i] < |sections[i].items|
      modifies `used, `survived, kept
      ensures Valid() && ok == (old(used) + |sections[i].items[old(kept[i])].line| <= remaining)
      ensures kept[..] == if ok then old(kept[..])[i := old(kept[i]) + 1] else old(kept[..])
      ensures used == old(used) + if ok then |sections[i].items[old(kept[i])].line| else 0
    {
      hide Spent, Surfaced;
      var it := sections[i].items[kept[i]];
      var cost := |it.line|;
      if used + cost > remaining {
        return false;
      }
      SpentMore(sections, kept[..], i);
      SurfacedMore(sections, kept[..], i);
      ghost var next := kept[..][i := kept[i] + 1];
      used := used + cost;
      kept[i] := kept[i] + 1;
      survived := survived + {it.id};
      assert kept[..] == next;
      return true;
    }

    /** Every section's first items, up to the floor, in turn. */
    method FillFloors(floor: int)
      requires Valid() && used == 0 && forall i :: 0 <= i < |sections| ==> kept[i] == 0
      modifies `used, `survived, kept
      ensures Valid()
      ensures FloorCost(sections, floor, |sections|) <= remaining ==>
                forall i :: 0 <= i < |sections| ==> kept[i] == Min(AtLeastZero(floor), |sections[i].items|)
    {
      hide Spent, Surfaced, Fits;
      ghost var whole := FloorCost(sections, floor, |sections|) <= remaining;
      var i := 0;
      while i < |sections|
        invariant i <= |sections| && Valid()
        invariant whole ==> used == FloorCost(sections, floor, i)
        invariant forall k :: i <= k < |sections| ==> kept[k] == 0
        invariant whole ==> forall k :: 0 <= k < i ==> kept[k] == Min(AtLeastZero(floor), |sections[k].items|)
      {
        FloorCostGrows(sections, floor, i + 1, |sections|);
        FillFloor(i, floor);
        i := i + 1;
      }
    }

    method FillFloor(i: nat, floor: int)
      requires Valid() && i < |sections| && kept[i] == 0
      modifies `used, `survived, kept
      ensures Valid() && forall k :: 0 <= k < |sections| && k != i ==> kept[k] == old(kept[k])
      ensures var wanted := Min(AtLeastZero(floor), |sections[i].items|);
              old(used) + Cost(sections[i].items, wanted) <= remaining ==>
                kept[i] == wanted && used == old(used) + Cost(sections[i].items, wanted)
    {
      hide Spent, Surfaced, Fits;
      ghost var before, spent := kept[..], used;
      var j: nat := 0;
      while j < |sections[i].items| && j < floor
        invariant j <= |sections[i].items| && Valid() && kept[i] == j && (j <= AtLeastZero(floor))
        invariant kept[..] == before[i := j] && used == spent + Cost(sections[i].items, j)
      {
        CostGrows(sections[i].items, j + 1, Min(AtLeastZero(floor), |sections[i].items|));
        var ok := Add(i);
        if !ok {
          break;
        }
        j := j + 1;
      }
      assert forall k :: 0 <= k < |sections| && k != i ==> kept[..][k] == before[k];
    }

    /** Then whatever still fits, section by section, in order. */
    method FillRest()
      requires Valid()
      modifies `used, `survived, kept
      ensures Valid() && forall i :: 0 <= i < |sections| ==> kept[i] >= old(kept[i])
      ensures forall i :: 0 <= i < |sections| && kept[i] < |sections[i].items| ==> used + |sections[i].items[kept[i]].line| > remaining
    {
      hide Spent, Surfaced, Fits;
      var i := 0;
      while i < |sections|
        invariant i <= |sections| && Valid()
        invariant forall k :: 0 <= k < |sections| ==> kept[k] >= old(kept[k])
        invariant forall k :: 0 <= k < i && kept[k] < |sections[k].items| ==> used + |sections[k].items[kept[k]].line| > remaining
      {
        ghost var before, spent := kept[..], used;
        KeptFits(sections, kept[..], i);
        while kept[i] < |sections[i].items|
          invariant Valid() && kept[i] <= |sections[i].items| && kept[..] == before[i := kept[i]] && kept[i] >= before[i] && used >= spent
          decreases |sections[i].items| - kept[i]
        {
          var ok := Add(i);
          if !ok {
            break;
          }
        }
        i := i + 1;
      }
    }
  }

  lemma KeptFits(ss: seq<Section>, kept: seq<nat>, i: nat)
    requires Fits(ss, kept) && i < |ss|
    ensures kept[i] <= |ss[i].items|
  {
  }

  lemma {:induction false} NothingSpent(ss: seq<Section>, kept: seq<nat>)
    requires |kept| == |ss| && forall i :: 0 <= i < |ss| ==> kept[i] == 0
    ensures Fits(ss, kept) && Spent(ss, kept) == 0 && Surfaced(ss, kept) == {}
  {
    if ss != [] {
      NothingSpent(ss[1..], kept[1..]);
    }
  }

  /** As many urgent items as fit on top of the frame, and no more would. */
  ghost predicate UrgentFits(d: Model, room: int, fit: nat)
    requires fit <= |d.urgent|
  {
    && (fit > 0 ==> Frame(d) + |UrgentHeading(|d.urgent|)| + Cost(d.urgent, fit) <= room)
    && (fit < |d.urgent| ==> Frame(d) + |UrgentHeading(|d.urgent|)| + Cost(d.urgent, fit + 1) > room)
  }

  /** How many urgent items fit on top of the frame. */
  method FitUrgent(d: Model, budget: int) returns (fit: nat, survived: set<string>)
    ensures fit <= |d.urgent| && survived == Ids(d.urgent, fit)
    ensures UrgentFits(d, budget, fit)
  {
    fit, survived := 0, {};
    var used := Frame(d) + |UrgentHeading(|d.urgent|)|;
    while fit < |d.urgent|
      invariant fit <= |d.urgent| && survived == Ids(d.urgent, fit)
      invariant used == Frame(d) + |UrgentHeading(|d.urgent|)| + Cost(d.urgent, fit)
      invariant fit > 0 ==> used <= budget
    {
      var it := d.urgent[fit];
      if used + |it.line| > budget {
        return;
      }
      used := used + |it.line|;
      assert Ids(d.urgent, fit + 1) == Ids(d.urgent, fit) + {it.id};
      survived := survived + {it.id};
      fit := fit + 1;
    }
  }

  function Effective(budget: int, defaultBudget: int): int {
    if budget <= 0 then defaultBudget else budget
  }

  function UrgentCut(d: Model, fit: nat): Model
    requires fit <= |d.urgent|
  {
    if fit < |d.urgent| then d.(urgent := d.urgent[..fit], urgentMore := d.urgentMore + |d.urgent| - fit) else d
  }

  function CountItems(ss: seq<Section>): nat {
    if ss == [] then 0 else |ss[0].items| + CountItems(ss[1..])
  }

  function Explained(d: Model, out: Model): string {
    if out.emptyExplanation == "" && |d.urgent| + CountItems(d.sections) > 0 && |out.urgent| + CountItems(out.sections) == 0
    then "all items elided by token budget" else out.emptyExplanation
  }

  function Whole(d: Model, fit: nat, kept: seq<nat>): Model
    requires fit <= |d.urgent| && Fits(d.sections, kept)
  {
    var out := UrgentCut(d, fit).(sections := CutAll(d.sections, kept));
    out.(emptyExplanation := Explained(d, out))
  }

  method BuildSections(ss: seq<Section>, kept: array<nat>) returns (out: seq<Section>)
    requires Fits(ss, kept[..])
    ensures out == CutAll(ss, kept[..])
  {
    out := [];
    var i := 0;
    while i < |ss|
      invariant i <= |ss| && |out| == i && forall k :: 0 <= k < i ==> out[k] == Cut(ss[k], kept[..][k])
    {
      var s := ss[i];
      var k := kept[i];
      if |s.items| == 0 {
        out := out + [s];
      } else if k == 0 {
        out := out + [Section(s.source, s.name, s.state, [], s.moreCount + |s.items|, true, s.elidedByBudget + |s.items|)];
      } else {
        var dropped := |s.items| - k;
        var ns := Section(s.source, s.name, s.state, s.items[..k], s.moreCount, s.truncated, s.elidedByBudget);
        if dropped > 0 {
          ns := ns.(moreCount := ns.moreCount + dropped, truncated := true, elidedByBudget := ns.elidedByBudget + dropped);
        }
        out := out + [ns];
      }
      i := i + 1;
    }
  }

  /** The first `fit` urgent items, as many as fit, and the first `kept[i]` items of every section:
      they fit, no section could show its next item, and floors come first. */
  ghost predicate Budgeted(d: Model, room: int, sourceFloor: int, fit: nat, kept: seq<nat>, out: Model, survived: set<string>) {
    && fit <= |d.urgent| && Fits(d.sections, kept) && out == Whole(d, fit, kept) && UrgentFits(d, room, fit)
    && survived == Ids(d.urgent, fit) + Surfaced(d.sections, kept)
    && var reserve := Frame(d) + |UrgentShelf(UrgentCut(d, fit))| + Reserved(d.sections);
       && |RenderBody(out)| <= (if reserve <= room then room else reserve)
       && (forall i :: 0 <= i < |d.sections| && kept[i] < |d.sections[i].items| ==>
             reserve + Spent(d.sections, kept) + |d.sections[i].items[kept[i]].line| > room)
       && (reserve + FloorCost(d.sections, sourceFloor, |d.sections|) <= room ==>
             forall i :: 0 <= i < |d.sections| ==> kept[i] >= Min(AtLeastZero(sourceFloor), |d.sections[i].items|))
  }

  /** Cuts a digest to its budget. When the frame, the cut shelf, the headings and
      the count lines fit, so does the whole page; every section keeps a prefix
      and nothing more would have fitted; the ids reported are those shown. */
  method Budget(d: Model, budget: int, defaultBudget: int, sourceFloor: int) returns (out: Model, survived: set<string>)
    ensures budget > 0 ==> exists fit: nat, kept: seq<nat> :: Budgeted(d, budget, sourceFloor, fit, kept, out, survived)
    ensures budget <= 0 ==> exists fit: nat, kept: seq<nat> :: Budgeted(d, defaultBudget, sourceFloor, fit, kept, out, survived)
  {
    hide UrgentFits, RenderBody, UrgentShelf, Reserved, Frame, Spent, Surfaced, CutAll, UrgentCut, Budgeted, Explained, FloorCost, Ids;
    var room := Effective(budget, defaultBudget);
    var fitted, ids := FitUrgent(d, room);
    out := UrgentCut(d, fitted);
    var reserve := Frame(d) + |UrgentShelf(out)| + Reserved(d.sections);
    var remaining := if reserve <= room then room - reserve else 0;
    var account := new Account(d.sections, remaining, ids);
    account.FillFloors(sourceFloor);
    account.FillRest();
    ghost var kept := account.kept[..];
    survived := account.survived;
    var sections := BuildSections(d.sections, account.kept);
    out := out.(sections := sections);
    out := out.(emptyExplanation := Explained(d, out));
    assert out == Whole(d, fitted, kept) && survived == Ids(d.urgent, fitted) + Surfaced(d.sections, kept);
    FilledIsBudgeted(d, room, sourceFloor, fitted, kept, remaining);
  }

  lemma FilledIsBudgeted(d: Model, room: int, sourceFloor: int, fit: nat, kept: seq<nat>, remaining: nat)
    requires fit <= |d.urgent| && Fits(d.sections, kept) && Spent(d.sections, kept) <= remaining && UrgentFits(d, room, fit)
    requires var reserve := Frame(d) + |UrgentShelf(UrgentCut(d, fit))| + Reserved(d.sections);
             remaining == if reserve <= room then room - reserve else 0
    requires forall i :: 0 <= i < |d.sections| && kept[i] < |d.sections[i].items| ==>
               Spent(d.sections, kept) + |d.sections[i].items[kept[i]].line| > remaining
    requires FloorCost(d.sections, sourceFloor, |d.sections|) <= remaining ==>
               forall i :: 0 <= i < |d.sections| ==> kept[i] >= Min(AtLeastZero(sourceFloor), |d.sections[i].items|)
    ensures Budgeted(d, room, sourceFloor, fit, kept, Whole(d, fit, kept), Ids(d.urgent, fit) + Surfaced(d.sections, kept))
  {
    hide UrgentFits, RenderBody, UrgentShelf, Reserved, Frame, Spent, Surfaced, FloorCost, Ids, Explained;
    var out := Whole(d, fit, kept);
    PageFits(d, out.urgent, out.urgentMore, kept, out.emptyExplanation);
    ShelfSame(UrgentCut(d, fit), out.sections, out.emptyExplanation);
  }

  lemma ShelfSame(d: Model, sections: seq<Section>, why: string)
    ensures UrgentShelf(d.(sections := sections, emptyExplanation := why)) == UrgentShelf(d)
  {
  }

  /** Nothing goes uncounted: in every section and on the shelf, shown plus counted
      stays what it was. A section is charged for what the budget took from it;
      nothing is charged for urgent items. */
  lemma NothingLostUncounted(d: Model, fit: nat, kept: seq<nat>, i: nat)
    requires fit <= |d.urgent| && Fits(d.sections, kept) && i < |d.sections|
    ensures var out := Whole(d, fit, kept);
            && |out.urgent| + out.urgentMore == |d.urgent| + d.urgentMore && out.urgent <= d.urgent
            && out.sections[i].items <= d.sections[i].items
            && |out.sections[i].items| + out.sections[i].moreCount == |d.sections[i].items| + d.sections[i].moreCount
            && out.sections[i].elidedByBudget - d.sections[i].elidedByBudget == |d.sections[i].items| - |out.sections[i].items|
            && SectionHeading(out.sections[i]) == SectionHeading(d.sections[i])
  {
    hide CountItems, Decimal;
  }

  /** What the budget takes from a section the page itself says, whatever is left of
      the section. What it takes from the shelf the page says exactly when at least
      one urgent item stays: an emptied shelf prints nothing, its count included. */
  lemma DropsShowUnlessShelfIsEmptied(d: Model, fit: nat, kept: seq<nat>, i: nat)
    requires fit < |d.urgent| && d.urgentMore >= 0 && Fits(d.sections, kept) && i < |d.sections| && d.sections[i].moreCount >= 0
    ensures var out := Whole(d, fit, kept);
            && (fit > 0 <==> UrgentShelf(out) == UrgentHeading(fit) + Lines(out.urgent) + "- +" + Decimal(out.urgentMore) + " more urgent\n")
            && (fit == 0 <==> UrgentShelf(out) == "")
            && (kept[i] < |d.sections[i].items| ==>
                  RenderSection(out.sections[i]) == SectionHeading(out.sections[i]) + Lines(out.sections[i].items) + MoreLine(out.sections[i].moreCount))
  {
    hide CountItems, Decimal, Lines, Digits;
    var out := Whole(d, fit, kept);
    var last := "- +" + Decimal(out.urgentMore) + " more urgent\n";
    assert UrgentHeading(fit) + Lines(out.urgent) + last == UrgentHeading(fit) + Lines(out.urgent) + "- +" + Decimal(out.urgentMore) + " more urgent\n";
    assert |UrgentHeading(fit)| > 0;
  }
}
