/** The two newest linked groups among some sessions: fixed memory that answers
    the same question as a search over every session start. */
module Latest {

  // Unix milliseconds; the least value stands for "none".
  const NO_TIME: int := -0x8000_0000_0000_0000
  type Millis = t: int | t > NO_TIME witness 0

  datatype LastStart = LastStart(group: int, at: int)

  /** Newest first; group -1 means the slot is empty. */
  datatype Latest = Latest(first: LastStart, second: LastStart)

  const NO_LATEST := Latest(LastStart(-1, NO_TIME), LastStart(-1, NO_TIME))

  function Max(a: int, b: int): int {
    if a < b then b else a
  }

  function Add(l: Latest, group: nat, at: Millis): Latest {
    if group == l.first.group then l.(first := LastStart(group, Max(l.first.at, at)))
    else if at > l.first.at then Latest(LastStart(group, at), l.first)
    else if group == l.second.group then l.(second := LastStart(group, Max(l.second.at, at)))
    else if at > l.second.at then l.(second := LastStart(group, at))
    else l
  }

  predicate Later(l: Latest, own: nat, at: int) {
    if l.first.group != own then l.first.at > at else l.second.at > at
  }

  type Starts = set<(nat, int)>

  /** The search the two slots replace. */
  ghost predicate SomeLater(starts: Starts, own: nat, at: int) {
    exists s <- starts :: s.0 != own && s.1 > at
  }

  predicate Filled(slot: LastStart, starts: Starts) {
    slot.group >= 0 && slot.at > NO_TIME && (slot.group, slot.at) in starts
  }

  /** What the slots remember of the whole history. */
  ghost predicate Summarises(l: Latest, starts: Starts) {
    && (if starts == {} then l == NO_LATEST
        else Filled(l.first, starts) && forall s <- starts :: s.1 <= l.first.at)
    && (if forall s <- starts :: s.0 == l.first.group then l.second == LastStart(-1, NO_TIME)
        else Filled(l.second, starts) && l.second.group != l.first.group
             && forall s <- starts :: s.0 != l.first.group ==> s.1 <= l.second.at)
  }

  lemma NoneSummarises()
    ensures Summarises(NO_LATEST, {})
  {
  }

  lemma AddSummarises(l: Latest, starts: Starts, group: nat, at: Millis)
    requires Summarises(l, starts)
    ensures Summarises(Add(l, group, at), starts + {(group, at)})
  {
    var more := starts + {(group, at)};
    var m := Add(l, group, at);
    assert (group, at) in more;
    if starts == {} {
      assert m == Latest(LastStart(group, at), LastStart(-1, NO_TIME));
      assert forall s <- more :: s.0 == group;
    } else if group == l.first.group {
      assert Filled(m.first, more);
      assert (forall s <- starts :: s.0 == l.first.group) <==> forall s <- more :: s.0 == m.first.group;
    } else if at > l.first.at {
      assert Filled(m.first, more);
      assert (l.first.group, l.first.at) in more;
    } else {
      assert m.first == l.first;
    }
  }

  /** The two slots give the answer of the full search, for every group and
      every moment. */
  lemma LaterIsSearch(l: Latest, starts: Starts, own: nat, at: int)
    requires Summarises(l, starts) && at >= NO_TIME
    ensures Later(l, own, at) <==> SomeLater(starts, own, at)
  {
    if Later(l, own, at) {
      var slot := if l.first.group != own then l.first else l.second;
      assert (slot.group, slot.at) in starts;
    }
  }

  ghost function History(adds: seq<(nat, Millis)>): Latest {
    if adds == [] then NO_LATEST
    else Add(History(adds[..|adds| - 1]), adds[|adds| - 1].0, adds[|adds| - 1].1)
  }

  ghost function Added(adds: seq<(nat, Millis)>): Starts {
    set s | s in adds
  }

  lemma {:induction false} HistorySummarises(adds: seq<(nat, Millis)>)
    ensures Summarises(History(adds), Added(adds))
    decreases |adds|
  {
    if adds == [] {
      NoneSummarises();
      assert Added(adds) == {};
    } else {
      hide Summarises;
      var n := |adds| - 1;
      HistorySummarises(adds[..n]);
      AddSummarises(History(adds[..n]), Added(adds[..n]), adds[n].0, adds[n].1);
      assert Added(adds) == Added(adds[..n]) + {(adds[n].0, adds[n].1)} by {
        assert adds == adds[..n] + [adds[n]];
      }
    }
  }

  /** After any sequence of additions the slots answer for the whole sequence. */
  lemma HistoryIsSearch(adds: seq<(nat, Millis)>, own: nat, at: int)
    requires at >= NO_TIME
    ensures Later(History(adds), own, at) <==> exists i :: 0 <= i < |adds| && adds[i].0 != own && adds[i].1 > at
  {
    hide Summarises, History, Later;
    HistorySummarises(adds);
    LaterIsSearch(History(adds), Added(adds), own, at);
    if SomeLater(Added(adds), own, at) {
      var s :| s in Added(adds) && s.0 != own && s.1 > at;
      assert s in adds;
    }
    if i :| 0 <= i < |adds| && adds[i].0 != own && adds[i].1 > at {
      assert adds[i] in Added(adds);
    }
  }
}
