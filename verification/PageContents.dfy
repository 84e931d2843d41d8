/** What a page of the record table shows, and how high it is (src/components/TrajectoryView.tsx, src/lib/trajectory-virtual.ts). */
module PageContents {
  import opened Seqs
  import opened Records
  import opened VirtualList
  import opened Paging
  import opened Collecting

  // ----- What entries show -----------------------------------------------------------------------

  function RowIn(e: Entry): seq<Record> {
    if e.RowOf? then [e.record] else []
  }

  /** A turn shown as one line, or headed by a line of its own above its rows. */
  function LineIn(e: Entry): seq<Turn> {
    if e.Folded? || e.Head? then [e.turn] else []
  }

  /** The rows of the turns that are open. */
  function OpenRows(turns: seq<Turn>, collapse: bool, expanded: set<nat>): seq<Record> {
    if turns == [] then [] else
    (if collapse && turns[0].startIndex !in expanded then [] else turns[0].records) + OpenRows(turns[1..], collapse, expanded)
  }

  /** The height of the turns in pixels: 24 for a folded turn, 18 for a head, 24 for every row, and 9 between turns. */
  function HeightOf(turns: seq<Turn>, collapse: bool, expanded: set<nat>): nat {
    if turns == [] then 0 else
    (if collapse && turns[0].startIndex !in expanded then 24 else (if collapse then 18 else 0) + 24 * |turns[0].records|) +
    (if |turns| > 1 then 9 else 0) + HeightOf(turns[1..], collapse, expanded)
  }

  lemma {:induction false} RowsShown(records: seq<Record>)
    ensures Collect(RowIn, Rows(records)) == records && Collect(LineIn, Rows(records)) == [] && Heights(Rows(records)) == 24 * |records|
  {
    if records != [] {
      var front, last := records[..|records| - 1], records[|records| - 1];
      RowsShown(front);
      CollectPush(RowIn, Rows(front), RowOf(last));
      CollectPush(LineIn, Rows(front), RowOf(last));
      HeightsJoin(Rows(front), [RowOf(last)]);
      HeightsOne(RowOf(last));
    }
  }

  lemma HeightsOne(e: Entry)
    ensures Heights([e]) == e.Height()
  {
    assert Top([e], 1) == Top([e], 0) + [e][0].Height();
  }

  lemma HeightsJoin(a: seq<Entry>, b: seq<Entry>)
    ensures Heights(a + b) == Heights(a) + Heights(b)
  {
    assert (a + b)[|a|..|a + b|] == b;
    TopSplits(a + b, |a|, |a + b|);
    assert (a + b)[..|a|] == a[..|a|];
    TopPrefix(a + b, a, |a|);
  }

  lemma CollectOne<T>(read: Entry -> seq<T>, e: Entry)
    ensures Collect(read, [e]) == read(e)
  {
    CollectPush(read, [], e);
    assert [] + [e] == [e];
  }

  lemma TurnShown(turn: Turn, collapse: bool, expanded: set<nat>)
    ensures var (own, folded) := (TurnEntries(turn, CollapsedUnless(collapse, expanded), collapse), collapse && turn.startIndex !in expanded);
            Collect(RowIn, own) == (if folded then [] else turn.records) &&
            Collect(LineIn, own) == (if collapse then [turn] else []) &&
            Heights(own) == if folded then 24 else (if collapse then 18 else 0) + 24 * |turn.records|
  {
    RowsShown(turn.records);
    CollectOne(RowIn, Folded(turn));
    CollectOne(LineIn, Folded(turn));
    CollectOne(RowIn, Head(turn));
    CollectOne(LineIn, Head(turn));
    HeightsOne(Folded(turn));
    HeightsOne(Head(turn));
    CollectJoin(RowIn, [Head(turn)], Rows(turn.records));
    CollectJoin(LineIn, [Head(turn)], Rows(turn.records));
    HeightsJoin([Head(turn)], Rows(turn.records));
    assert [] + Rows(turn.records) == Rows(turn.records);
    hide Collect, Top, Rows, Heights;
  }

  lemma {:induction false} TurnsShown(turns: seq<Turn>, collapse: bool, expanded: set<nat>, isFirst: bool)
    ensures var entries := Flatten(turns, CollapsedUnless(collapse, expanded), collapse, isFirst);
            Collect(RowIn, entries) == OpenRows(turns, collapse, expanded) &&
            Collect(LineIn, entries) == (if collapse then turns else []) &&
            Heights(entries) == HeightOf(turns, collapse, expanded) + if isFirst || turns == [] then 0 else 9
    decreases turns
  {
    hide Flatten, TurnEntries, Collect, Heights, RowIn, LineIn, CollapsedUnless;
    FlattenIs(turns, CollapsedUnless(collapse, expanded), collapse, isFirst);
    SepShown(0);
    if turns != [] {
      var collapsed := CollapsedUnless(collapse, expanded);
      var sep := if isFirst then [] else [Separator(turns[0].startIndex)];
      var own, rest := TurnEntries(turns[0], collapsed, collapse), Flatten(turns[1..], collapsed, collapse, false);
      TurnShown(turns[0], collapse, expanded);
      TurnsShown(turns[1..], collapse, expanded, false);
      SepShown(turns[0].startIndex);
      ThreeShown(sep, own, rest);
      Units(Collect(RowIn, own));
      assert turns == [turns[0]] + turns[1..];
    }
  }

  lemma FlattenIs(turns: seq<Turn>, collapsed: Turn -> bool, showHead: bool, isFirst: bool)
    ensures Flatten(turns, collapsed, showHead, isFirst) ==
            if turns == [] then []
            else (if isFirst then [] else [Separator(turns[0].startIndex)]) + TurnEntries(turns[0], collapsed, showHead) +
                 Flatten(turns[1..], collapsed, showHead, false)
  {
  }

  lemma SepShown(start: nat)
    ensures var sep := [Separator(start)]; Collect(RowIn, sep) == [] && Collect(LineIn, sep) == [] && Heights(sep) == 9
    ensures Collect(RowIn, []) == [] && Collect(LineIn, []) == [] && Heights([]) == 0
  {
    CollectOne(RowIn, Separator(start));
    CollectOne(LineIn, Separator(start));
    HeightsOne(Separator(start));
  }

  lemma ThreeShown(sep: seq<Entry>, own: seq<Entry>, rest: seq<Entry>)
    ensures Collect(RowIn, sep + own + rest) == Collect(RowIn, sep) + Collect(RowIn, own) + Collect(RowIn, rest)
    ensures Collect(LineIn, sep + own + rest) == Collect(LineIn, sep) + Collect(LineIn, own) + Collect(LineIn, rest)
    ensures Heights(sep + own + rest) == Heights(sep) + Heights(own) + Heights(rest)
  {
    hide *;
    CollectJoin(RowIn, sep + own, rest);
    CollectJoin(RowIn, sep, own);
    CollectJoin(LineIn, sep + own, rest);
    CollectJoin(LineIn, sep, own);
    HeightsJoin(sep + own, rest);
    HeightsJoin(sep, own);
  }

  // ----- The newest records ----------------------------------------------------------------------------

  lemma {:induction false} FromJoin(a: seq<Record>, b: seq<Record>, first: nat)
    ensures From(a + b, first) == From(a, first) + From(b, first)
  {
    if a == [] { assert a + b == b; }
    else {
      assert (a + b)[1..] == a[1..] + b;
      FromJoin(a[1..], b, first);
      Assoc(if a[0].index >= first then [a[0]] else [], From(a[1..], first), From(b, first));
    }
  }

  lemma {:induction false} TrimRows(turns: seq<Turn>, first: nat)
    ensures OpenRows(Trim(turns, first), false, {}) == From(OpenRows(turns, false, {}), first)
  {
    if turns != [] {
      TrimRows(turns[1..], first);
      FromJoin(turns[0].records, OpenRows(turns[1..], false, {}), first);
      var kept := From(turns[0].records, first);
      if kept != [] { assert ([turns[0].(records := kept)] + Trim(turns[1..], first))[1..] == Trim(turns[1..], first); }
      else { assert [] + Trim(turns[1..], first) == Trim(turns[1..], first); }
    }
  }

  lemma {:induction false} OpenJoin(a: seq<Turn>, b: seq<Turn>)
    ensures OpenRows(a + b, false, {}) == OpenRows(a, false, {}) + OpenRows(b, false, {})
  {
    if a == [] { assert a + b == b; }
    else {
      assert (a + b)[1..] == a[1..] + b;
      OpenJoin(a[1..], b);
    }
  }

  lemma OpenLast(front: seq<Turn>, turn: Turn)
    ensures OpenRows(front + [turn], false, {}) == OpenRows(front, false, {}) + turn.records
  {
    OpenJoin(front, [turn]);
    assert [turn][1..] == [];
    Units(turn.records);
  }

  lemma {:induction false} GroupRows(records: seq<Record>)
    ensures OpenRows(GroupTurns(records), false, {}) == records
  {
    hide OpenRows;
    NoRows();
    if records != [] {
      var front, last := records[..|records| - 1], records[|records| - 1];
      var turns := GroupTurns(front);
      GroupRows(front);
      OpenLast(turns, Extend(Turn(last.index, [], 0, 0, last.kind.UserRecord?), last));
      Units([last]);
      if turns != [] {
        var before, newest := turns[..|turns| - 1], turns[|turns| - 1];
        OpenLast(before, newest);
        OpenLast(before, Extend(newest, last));
        assert before + [newest] == turns && turns[|turns| - 1 := Extend(newest, last)] == before + [Extend(newest, last)];
        Assoc(OpenRows(before, false, {}), newest.records, [last]);
      }
    }
  }

  lemma NoRows()
    ensures OpenRows([], false, {}) == []
  {
  }

  lemma {:induction false} FromAfter(records: seq<Record>, i: nat)
    requires Increasing(records) && i < |records|
    ensures From(records, records[i].index) == records[i..]
  {
    if i == 0 { FromAll(records, records[0].index); }
    else { FromAfter(records[1..], i - 1); }
  }

  lemma {:induction false} AllOpen(turns: seq<Turn>, expanded: set<nat>)
    ensures OpenRows(turns, false, expanded) == OpenRows(turns, false, {})
  {
    if turns != [] { AllOpen(turns[1..], expanded); }
  }

  /** Without collapsing, the rows of a page are exactly the newest `limit` records, in order. With it, every turn that has one
      of them has a line of its own, and the rows of the turns that are expanded are shown; the heights add up accordingly. */
  lemma PageShows(records: seq<Record>, limit: int, collapse: bool, expanded: set<nat>)
    requires Increasing(records)
    ensures var start := if limit <= 0 then |records| else if limit <= |records| then |records| - limit else 0;
            var (entries, turns) := (View(records, limit, collapse, expanded), VisibleTurns(records, limit));
            OpenRows(turns, false, {}) == records[start..] && (!collapse ==> Collect(RowIn, entries) == records[start..]) &&
            Collect(RowIn, entries) == OpenRows(turns, collapse, expanded) &&
            Collect(LineIn, entries) == (if collapse then turns else []) && Heights(entries) == HeightOf(turns, collapse, expanded)
  {
    TurnsShown(VisibleTurns(records, limit), collapse, expanded, true);
    AllOpen(VisibleTurns(records, limit), expanded);
    GroupRows(records);
    if 0 < limit && records != [] {
      var i := if limit <= |records| then |records| - limit else 0;
      TrimRows(GroupTurns(records), records[i].index);
      FromAfter(records, i);
      assert records[i..][0] == records[i];
    }
    hide Trim, GroupTurns, From, OpenRows, Flatten, Collect, HeightOf, Heights;
  }
}
