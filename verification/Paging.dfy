/** Loading an earlier page keeps the viewport where it is (src/components/TrajectoryView.tsx, TrajectoryList.tsx). */
module Paging {
  import opened Options
  import opened Seqs
  import opened Records
  import opened VirtualList

  /** `collapseTurns() && !expandedTurns().has(t.startIndex)`. */
  function CollapsedUnless(collapse: bool, expanded: set<nat>): Turn -> bool {
    (t: Turn) => collapse && t.startIndex !in expanded
  }

  /** The entries shown for the newest `limit` records. */
  function View(records: seq<Record>, limit: int, collapse: bool, expanded: set<nat>): seq<Entry> {
    Flatten(VisibleTurns(records, limit), CollapsedUnless(collapse, expanded), collapse, true)
  }

  // ----- Keys carry the geometry ---------------------------------------------------------------

  function Keys(entries: seq<Entry>): (keys: seq<Key>)
    ensures |keys| == |entries| && forall i :: 0 <= i < |entries| ==> keys[i] == entries[i].Key()
  {
    seq(|entries|, i requires 0 <= i < |entries| => entries[i].Key())
  }

  function KeyHeight(key: Key): nat {
    match key
    case SepKey(_) => 9
    case FoldKey(_) => 24
    case HeadKey(_) => 18
    case RowKey(_) => 24
  }

  function KeyTop(keys: seq<Key>, i: nat): nat
    requires i <= |keys|
  {
    if i == 0 then 0 else KeyTop(keys, i - 1) + KeyHeight(keys[i - 1])
  }

  lemma {:induction false} TopOfKeys(entries: seq<Entry>, i: nat)
    requires i <= |entries|
    ensures Top(entries, i) == KeyTop(Keys(entries), i)
  {
    if i > 0 { TopOfKeys(entries, i - 1); }
  }

  // ----- Turns in order ---------------------------------------------------------------------------

  ghost predicate TurnInOrder(turn: Turn) {
    turn.records != [] && Increasing(turn.records) && turn.startIndex <= turn.records[0].index
  }

  ghost predicate EndsBefore(turn: Turn, n: nat) {
    forall k :: 0 <= k < |turn.records| ==> turn.records[k].index < n
  }

  /** Every turn lies, with all its records, before the start of the next one. */
  ghost predicate Chained(turns: seq<Turn>) {
    (forall i :: 0 <= i < |turns| ==> TurnInOrder(turns[i])) &&
    forall i, j :: 0 <= i < j < |turns| ==> EndsBefore(turns[i], turns[j].startIndex)
  }

  lemma ChainNew(turns: seq<Turn>, turn: Turn, n: nat)
    requires Chained(turns) && TurnInOrder(turn) && EndsBefore(turn, n) && turn.startIndex <= n
    requires forall i :: 0 <= i < |turns| ==> EndsBefore(turns[i], turn.startIndex)
    ensures Chained(turns + [turn]) && forall i :: 0 <= i < |turns + [turn]| ==> EndsBefore((turns + [turn])[i], n)
  {
  }

  lemma ChainGrow(turns: seq<Turn>, record: Record, n: nat)
    requires Chained(turns) && turns != [] && record.index < n
    requires forall i :: 0 <= i < |turns| ==> EndsBefore(turns[i], record.index)
    ensures var grown := turns[..|turns| - 1] + [Extend(turns[|turns| - 1], record)];
            Chained(grown) && forall i :: 0 <= i < |grown| ==> EndsBefore(grown[i], n)
  {
    var front, last := turns[..|turns| - 1], turns[|turns| - 1];
    forall i | 0 <= i < |front| ensures EndsBefore(front[i], last.startIndex) { assert front[i] == turns[i]; }
    var grown := Extend(last, record);
    assert TurnInOrder(grown) && EndsBefore(grown, n) && grown.startIndex == last.startIndex;
    ChainNew(front, grown, n);
  }

  lemma {:induction false} GroupChained(records: seq<Record>, n: nat)
    requires Increasing(records) && forall k :: 0 <= k < |records| ==> records[k].index < n
    ensures Chained(GroupTurns(records)) && forall i :: 0 <= i < |GroupTurns(records)| ==> EndsBefore(GroupTurns(records)[i], n)
  {
    if records != [] {
      var front, last := records[..|records| - 1], records[|records| - 1];
      GroupChained(front, last.index);
      LastStep(records);
      var turns, newest := GroupTurns(front), Extend(Turn(last.index, [], 0, 0, last.kind.UserRecord?), last);
      assert newest.records == [last];
      ChainNew(turns, newest, n);
      if turns != [] { ChainGrow(turns, last, n); }
      hide GroupTurns, Chained, EndsBefore;
    }
  }

  lemma {:induction false} FromBounds(records: seq<Record>, first: nat)
    ensures |From(records, first)| <= |records|
    ensures forall k :: 0 <= k < |From(records, first)| ==> From(records, first)[k].index >= first
    ensures forall k :: 0 <= k < |records| && records[k].index >= first ==> From(records, first) != []
  {
    if records != [] { FromBounds(records[1..], first); }
  }

  lemma {:induction false} FromSuffix(records: seq<Record>, first: nat)
    requires Increasing(records)
    ensures |From(records, first)| <= |records| && From(records, first) == records[|records| - |From(records, first)|..]
  {
    if records != [] {
      var rest := records[1..];
      FromSuffix(rest, first);
      if records[0].index >= first {
        FromAll(rest, first);
        assert From(records, first) == [records[0]] + rest == records;
      } else {
        assert From(records, first) == From(rest, first);
        hide *;
        TailOfTail(records, |From(rest, first)|);
      }
    }
  }

  lemma TailOfTail(records: seq<Record>, n: nat)
    requires n < |records|
    ensures records[1..][|records| - 1 - n..] == records[|records| - n..]
  {
  }

  lemma FromFacts(records: seq<Record>, first: nat)
    requires Increasing(records)
    ensures Increasing(From(records, first)) && |From(records, first)| <= |records|
    ensures From(records, first) == records[|records| - |From(records, first)|..]
    ensures forall k :: 0 <= k < |From(records, first)| ==> From(records, first)[k].index >= first
    ensures forall k :: 0 <= k < |records| && records[k].index >= first ==> From(records, first) != []
  {
    FromBounds(records, first);
    FromSuffix(records, first);
  }

  lemma {:induction false} FromAll(records: seq<Record>, first: nat)
    requires forall k :: 0 <= k < |records| ==> records[k].index >= first
    ensures From(records, first) == records
  {
    if records != [] { FromAll(records[1..], first); }
  }

  lemma {:induction false} TrimChained(turns: seq<Turn>, first: nat, n: nat)
    requires Chained(turns) && forall i :: 0 <= i < |turns| ==> n <= turns[i].startIndex
    ensures Chained(Trim(turns, first)) && forall i :: 0 <= i < |Trim(turns, first)| ==> n <= Trim(turns, first)[i].startIndex
  {
    if turns != [] {
      var t, rest := turns[0], turns[1..];
      FromFacts(t.records, first);
      var m := t.records[|t.records| - 1].index;
      forall i | 0 <= i < |rest| ensures m < rest[i].startIndex { assert EndsBefore(t, turns[i + 1].startIndex); }
      TrimChained(rest, first, m + 1);
      if From(t.records, first) == [] { assert Trim(turns, first) == Trim(rest, first); }
      else {
        var kept := t.(records := From(t.records, first));
        assert Trim(turns, first) == [kept] + Trim(rest, first);
        KeptTurn(t, first);
        hide Trim, From, Chained, TurnInOrder;
        ChainTurn(kept, Trim(rest, first), m + 1);
      }
    }
  }

  lemma KeptTurn(turn: Turn, first: nat)
    requires TurnInOrder(turn) && From(turn.records, first) != []
    ensures var kept := turn.(records := From(turn.records, first));
            TurnInOrder(kept) && EndsBefore(kept, turn.records[|turn.records| - 1].index + 1)
  {
    FromFacts(turn.records, first);
  }

  lemma ChainTurn(turn: Turn, rest: seq<Turn>, n: nat)
    requires TurnInOrder(turn) && EndsBefore(turn, n) && Chained(rest) && forall i :: 0 <= i < |rest| ==> n <= rest[i].startIndex
    ensures Chained([turn] + rest)
  {
  }

  lemma {:induction false} TrimAll(turns: seq<Turn>, first: nat)
    requires Chained(turns) && forall i :: 0 <= i < |turns| ==> first <= turns[i].startIndex
    ensures Trim(turns, first) == turns
  {
    if turns != [] {
      var t := turns[0];
      forall k | 0 <= k < |t.records| ensures t.records[k].index >= first { assert TurnInOrder(t); }
      FromAll(t.records, first);
      TrimAll(turns[1..], first);
    }
  }

  // ----- Keys are distinct -----------------------------------------------------------------------------

  function Number(key: Key): nat {
    match key
    case SepKey(n) => n
    case FoldKey(n) => n
    case HeadKey(n) => n
    case RowKey(n) => n
  }

  ghost predicate Distinct(keys: seq<Key>) {
    forall i, j :: 0 <= i < j < |keys| ==> keys[i] != keys[j]
  }

  ghost predicate Within(keys: seq<Key>, lo: nat, hi: nat) {
    forall i :: 0 <= i < |keys| ==> lo <= Number(keys[i]) < hi
  }

  lemma {:induction false} RowKeys(records: seq<Record>)
    ensures |Rows(records)| == |records|
    ensures forall i :: 0 <= i < |records| ==> Rows(records)[i] == RowOf(records[i])
  {
    if records != [] { RowKeys(records[..|records| - 1]); }
  }

  lemma RowsJoin(head: seq<Key>, rows: seq<Key>, turn: Turn)
    requires TurnInOrder(turn) && (head == [] || head == [HeadKey(turn.startIndex)])
    requires |rows| == |turn.records| && forall k :: 0 <= k < |rows| ==> rows[k] == RowKey(turn.records[k].index)
    ensures head + rows != [] && Distinct(head + rows)
    ensures Within(head + rows, turn.startIndex, turn.records[|turn.records| - 1].index + 1)
    ensures forall i :: 0 <= i < |head + rows| ==> !(head + rows)[i].SepKey?
  {
  }

  lemma TurnKeys(turn: Turn, collapsed: Turn -> bool, showHead: bool)
    requires TurnInOrder(turn)
    ensures var keys := Keys(TurnEntries(turn, collapsed, showHead));
            keys != [] && Distinct(keys) && Within(keys, turn.startIndex, turn.records[|turn.records| - 1].index + 1) &&
            forall i :: 0 <= i < |keys| ==> !keys[i].SepKey?
  {
    if collapsed(turn) {
      assert Keys(TurnEntries(turn, collapsed, showHead)) == [FoldKey(turn.startIndex)];
    } else {
      RowKeys(turn.records);
      var head: seq<Entry> := if showHead then [Head(turn)] else [];
      KeysJoin(head, Rows(turn.records));
      RowsJoin(Keys(head), Keys(Rows(turn.records)), turn);
      hide Rows, Keys;
    }
  }

  /** Every entry of every page has a key of its own. */
  lemma {:induction false} FlattenKeys(turns: seq<Turn>, collapsed: Turn -> bool, showHead: bool, isFirst: bool)
    requires Chained(turns)
    ensures Distinct(Keys(Flatten(turns, collapsed, showHead, isFirst)))
    ensures forall i :: turns != [] && 0 <= i < |Flatten(turns, collapsed, showHead, isFirst)| ==>
      turns[0].startIndex <= Number(Keys(Flatten(turns, collapsed, showHead, isFirst))[i])
  {
    if turns != [] {
      var t, rest := turns[0], turns[1..];
      FlattenKeys(rest, collapsed, showHead, false);
      assert rest != [] ==> EndsBefore(t, rest[0].startIndex) by { assert rest != [] ==> rest[0] == turns[1]; }
      var own, tail := TurnEntries(t, collapsed, showHead), Flatten(rest, collapsed, showHead, false);
      assert Flatten(turns, collapsed, showHead, isFirst) == (if isFirst then [] else [Separator(t.startIndex)]) + own + tail;
      assert TurnInOrder(t) && (rest == [] ==> tail == []);
      hide *;
      FlattenStep(t, rest, collapsed, showHead, isFirst, tail);
    }
  }

  lemma FlattenStep(turn: Turn, rest: seq<Turn>, collapsed: Turn -> bool, showHead: bool, isFirst: bool, tail: seq<Entry>)
    requires TurnInOrder(turn) && (rest == [] ==> tail == []) && (rest != [] ==> EndsBefore(turn, rest[0].startIndex))
    requires Distinct(Keys(tail)) && forall i :: rest != [] && 0 <= i < |tail| ==> rest[0].startIndex <= Number(Keys(tail)[i])
    ensures var all := (if isFirst then [] else [Separator(turn.startIndex)]) + TurnEntries(turn, collapsed, showHead) + tail;
            Distinct(Keys(all)) && forall i :: 0 <= i < |all| ==> turn.startIndex <= Number(Keys(all)[i])
  {
    TurnKeys(turn, collapsed, showHead);
    var own, hi := TurnEntries(turn, collapsed, showHead), turn.records[|turn.records| - 1].index + 1;
    var sep: seq<Entry> := if isFirst then [] else [Separator(turn.startIndex)];
    hide TurnEntries;
    KeysJoin(sep, own);
    KeysJoin(sep + own, tail);
    assert Keys(sep) == if isFirst then [] else [SepKey(turn.startIndex)];
    hide Keys, Distinct;
    DistinctJoin(Keys(sep), Keys(own), Keys(tail), turn.startIndex, hi);
  }

  lemma DistinctJoin(sep: seq<Key>, own: seq<Key>, tail: seq<Key>, lo: nat, hi: nat)
    requires sep == [] || sep == [SepKey(lo)]
    requires Distinct(own) && Within(own, lo, hi) && (forall i :: 0 <= i < |own| ==> !own[i].SepKey?)
    requires Distinct(tail) && lo < hi && forall i :: 0 <= i < |tail| ==> hi <= Number(tail[i])
    ensures Distinct(sep + own + tail) && forall i :: 0 <= i < |sep + own + tail| ==> lo <= Number((sep + own + tail)[i])
  {
  }

  lemma ViewKeys(records: seq<Record>, limit: int, collapse: bool, expanded: set<nat>)
    requires Increasing(records)
    ensures Distinct(Keys(View(records, limit, collapse, expanded)))
  {
    var window := TailWindow(records, limit);
    if window != [] {
      GroupChained(records, records[|records| - 1].index + 1);
      TrimChained(GroupTurns(records), window[0].index, 0);
      FlattenKeys(VisibleTurns(records, limit), CollapsedUnless(collapse, expanded), collapse, true);
    }
  }

  // ----- A larger page extends a smaller one --------------------------------------------------------------

  /** Where entry `j` of the smaller page is in the larger one: `p` entries come before the first, `m` more before the rest. */
  function Pos(p: nat, m: nat, j: nat): nat {
    if j == 0 then p else p + m + j
  }

  /** The larger page has all entries of the smaller one in order; what is inserted behind the first are rows under its head. */
  ghost predicate Extends(small: seq<Key>, large: seq<Key>, p: nat, m: nat) {
    |large| == p + m + |small| && (forall j :: 0 <= j < |small| ==> large[Pos(p, m, j)] == small[j]) &&
    (m > 0 ==> small != [] && small[0].HeadKey? && forall q :: p < q <= p + m ==> large[q].RowKey?)
  }

  lemma ExtendsUnder(small: seq<Key>, large: seq<Key>, p: nat, m: nat, before: seq<Key>)
    requires Extends(small, large, p, m)
    ensures Extends(small, before + large, |before| + p, m)
  {
    var all := before + large;
    forall j | 0 <= j < |small| ensures all[Pos(|before| + p, m, j)] == small[j] {
      assert all[Pos(|before| + p, m, j)] == large[Pos(p, m, j)];
    }
    forall q | |before| + p < q <= |before| + p + m ensures m > 0 ==> all[q].RowKey? { assert all[q] == large[q - |before|]; }
  }

  lemma KeysJoin(a: seq<Entry>, b: seq<Entry>)
    ensures Keys(a + b) == Keys(a) + Keys(b)
  {
  }

  lemma SuffixExtends(few: seq<Key>, many: seq<Key>, tail: seq<Key>, d: nat)
    requires few != [] && d <= |many| && few == many[d..]
    ensures Extends(few + tail, many + tail, d, 0)
  {
    var (small, large) := (few + tail, many + tail);
    forall j | 0 <= j < |small| ensures large[Pos(d, 0, j)] == small[j] { assert j < |few| ==> many[d + j] == few[j]; }
  }

  lemma HeadExtends(head: Key, few: seq<Key>, many: seq<Key>, tail: seq<Key>, d: nat)
    requires head.HeadKey? && d <= |many| && few == many[d..] && forall i :: 0 <= i < |many| ==> many[i].RowKey?
    ensures Extends([head] + few + tail, [head] + many + tail, 0, d)
  {
    var (small, large) := ([head] + few + tail, [head] + many + tail);
    forall j | 0 <= j < |small| ensures large[Pos(0, d, j)] == small[j] { assert 0 < j <= |few| ==> many[d + j - 1] == few[j - 1]; }
    forall q | 0 < q <= d ensures large[q].RowKey? { assert large[q] == many[q - 1]; }
  }

  lemma RowsSuffix(few: seq<Record>, many: seq<Record>)
    requires |few| <= |many| && few == many[|many| - |few|..]
    ensures |Keys(Rows(many))| == |many| && Keys(Rows(few)) == Keys(Rows(many))[|many| - |few|..]
    ensures forall i :: 0 <= i < |many| ==> Keys(Rows(many))[i].RowKey?
  {
    RowKeys(few);
    RowKeys(many);
  }

  lemma EntryKeys(turn: Turn, collapsed: Turn -> bool, showHead: bool, tail: seq<Entry>)
    ensures Keys(TurnEntries(turn, collapsed, showHead) + tail) ==
      (if collapsed(turn) then [FoldKey(turn.startIndex)]
       else (if showHead then [HeadKey(turn.startIndex)] else []) + Keys(Rows(turn.records))) + Keys(tail)
  {
    KeysJoin(TurnEntries(turn, collapsed, showHead), tail);
    if !collapsed(turn) && showHead { KeysJoin([Head(turn)], Rows(turn.records)); }
  }

  lemma SameExtends(keys: seq<Key>)
    ensures Extends(keys, keys, 0, 0)
  {
  }

  lemma NoHead(keys: seq<Key>)
    ensures [] + keys == keys
  {
  }

  /** The turn in which the smaller page starts, with the rows the larger page adds to it. */
  lemma PartialTurn(small: Turn, large: Turn, collapsed: Turn -> bool, showHead: bool, tail: seq<Entry>)
    returns (p: nat, m: nat)
    requires collapsed(small) == collapsed(large) && small.startIndex == large.startIndex && small.records != []
    requires |small.records| <= |large.records| && small.records == large.records[|large.records| - |small.records|..]
    ensures Extends(Keys(TurnEntries(small, collapsed, showHead) + tail), Keys(TurnEntries(large, collapsed, showHead) + tail), p, m)
  {
    RowsSuffix(small.records, large.records);
    RowKeys(small.records);
    EntryKeys(small, collapsed, showHead, tail);
    EntryKeys(large, collapsed, showHead, tail);
    var d := |large.records| - |small.records|;
    var fewKeys := Keys(Rows(small.records));
    var manyKeys := Keys(Rows(large.records));
    assert fewKeys != [];
    hide Extends, Rows, TurnEntries;
    if collapsed(small) {
      p, m := 0, 0;
      SameExtends([FoldKey(small.startIndex)] + Keys(tail));
    } else if showHead {
      p, m := 0, d;
      HeadExtends(HeadKey(small.startIndex), fewKeys, manyKeys, Keys(tail), d);
    } else {
      p, m := d, 0;
      NoHead(fewKeys);
      NoHead(manyKeys);
      SuffixExtends(fewKeys, manyKeys, Keys(tail), d);
    }
  }

  lemma {:induction false} FromOrder(records: seq<Record>, lo: nat, hi: nat)
    requires lo <= hi
    ensures |From(records, hi)| <= |From(records, lo)|
  {
    if records != [] { FromOrder(records[1..], lo, hi); }
  }

  lemma LaterFlatten(turns: seq<Turn>, collapsed: Turn -> bool, showHead: bool)
    requires turns != []
    ensures Flatten(turns, collapsed, showHead, false) == [Separator(turns[0].startIndex)] + Flatten(turns, collapsed, showHead, true)
  {
  }

  lemma EmptyExtends(large: seq<Key>)
    ensures Extends([], large, |large|, 0)
  {
  }

  /** The smaller page starts in this turn: everything behind the turn is the same on both pages. */
  lemma StartsHere(turns: seq<Turn>, lo: nat, hi: nat, collapse: bool, expanded: set<nat>) returns (p: nat, m: nat)
    requires Chained(turns) && lo <= hi && turns != [] && From(turns[0].records, hi) != []
    ensures var c := CollapsedUnless(collapse, expanded);
            Extends(Keys(Flatten(Trim(turns, hi), c, collapse, true)), Keys(Flatten(Trim(turns, lo), c, collapse, true)), p, m)
  {
    var (t, rest, c) := (turns[0], turns[1..], CollapsedUnless(collapse, expanded));
    assert TurnInOrder(t);
    FromNested(t.records, lo, hi);
    TrimHere(turns, lo, hi);
    TrimHere(turns, hi, hi);
    var small, large := t.(records := From(t.records, hi)), t.(records := From(t.records, lo));
    assert c(small) == c(large);
    hide *;
    p, m := PartialTurn(small, large, c, collapse, Flatten(rest, c, collapse, false));
    FlattenFirst(small, rest, c, collapse);
    FlattenFirst(large, rest, c, collapse);
  }

  lemma FromNested(records: seq<Record>, lo: nat, hi: nat)
    requires Increasing(records) && lo <= hi
    ensures var few, many := From(records, hi), From(records, lo);
            |few| <= |many| && few == many[|many| - |few|..]
  {
    FromSuffix(records, lo);
    FromSuffix(records, hi);
    FromOrder(records, lo, hi);
    var few, many := From(records, hi), From(records, lo);
    hide *;
    assert records[|records| - |many|..][|many| - |few|..] == records[|records| - |few|..];
  }

  lemma TrimHere(turns: seq<Turn>, first: nat, hi: nat)
    requires Chained(turns) && turns != [] && first <= hi && From(turns[0].records, hi) != []
    ensures Trim(turns, first) == [turns[0].(records := From(turns[0].records, first))] + turns[1..]
  {
    assert TurnInOrder(turns[0]);
    FromOrder(turns[0].records, first, hi);
    AllLater(turns, hi);
    TrimAll(turns[1..], first);
    hide From, Chained;
  }

  lemma AllLater(turns: seq<Turn>, hi: nat)
    requires Chained(turns) && turns != [] && From(turns[0].records, hi) != []
    ensures Chained(turns[1..]) && forall i :: 0 <= i < |turns[1..]| ==> hi <= turns[1..][i].startIndex
  {
    var rs := turns[0].records;
    FromFacts(rs, hi);
    var k := |rs| - |From(rs, hi)|;
    assert rs[k] == From(rs, hi)[0];
    forall i | 0 <= i < |turns[1..]| ensures hi <= turns[1..][i].startIndex { assert EndsBefore(turns[0], turns[i + 1].startIndex); }
  }

  lemma FlattenFirst(turn: Turn, rest: seq<Turn>, collapsed: Turn -> bool, showHead: bool)
    ensures Flatten([turn] + rest, collapsed, showHead, true) == TurnEntries(turn, collapsed, showHead) + Flatten(rest, collapsed, showHead, false)
  {
    var turns := [turn] + rest;
    assert turns[1..] == rest && turns[0] == turn;
    Units(TurnEntries(turn, collapsed, showHead));
    hide TurnEntries;
    assert Flatten(turns, collapsed, showHead, true) == [] + TurnEntries(turn, collapsed, showHead) + Flatten(rest, collapsed, showHead, false);
  }

  lemma {:induction false} PageExtends(turns: seq<Turn>, lo: nat, hi: nat, collapse: bool, expanded: set<nat>)
    returns (p: nat, m: nat)
    requires Chained(turns) && lo <= hi
    ensures var c := CollapsedUnless(collapse, expanded);
            Extends(Keys(Flatten(Trim(turns, hi), c, collapse, true)), Keys(Flatten(Trim(turns, lo), c, collapse, true)), p, m)
  {
    if turns == [] {
      p, m := 0, 0;
      assert Keys(Flatten(turns, CollapsedUnless(collapse, expanded), collapse, true)) == [];
      SameExtends([]);
      return;
    }
    if From(turns[0].records, hi) != [] {
      p, m := StartsHere(turns, lo, hi, collapse, expanded);
      return;
    }
    p, m := PageExtends(turns[1..], lo, hi, collapse, expanded);
    assert Trim(turns, hi) == Trim(turns[1..], hi);
    assert From(turns[0].records, lo) == [] ==> Trim(turns, lo) == Trim(turns[1..], lo);
    hide Extends, Flatten, TurnEntries, Chained;
    if From(turns[0].records, lo) != [] {
      var c := CollapsedUnless(collapse, expanded);
      var t, rest := turns[0].(records := From(turns[0].records, lo)), Trim(turns[1..], lo);
      assert Trim(turns, lo) == [t] + rest && Trim(turns, hi) == Trim(turns[1..], hi);
      FlattenFirst(t, rest, c, collapse);
      p := AddTurn(Keys(Flatten(Trim(turns, hi), c, collapse, true)), p, m, t, rest, c, collapse);
    }
  }

  lemma AddTurn(small: seq<Key>, p: nat, m: nat, turn: Turn, rest: seq<Turn>, collapsed: Turn -> bool, showHead: bool)
    returns (p': nat)
    requires Extends(small, Keys(Flatten(rest, collapsed, showHead, true)), p, m)
    ensures Extends(small, Keys(TurnEntries(turn, collapsed, showHead) + Flatten(rest, collapsed, showHead, false)), p', m)
  {
    var own := TurnEntries(turn, collapsed, showHead);
    if rest == [] {
      assert small == [] && m == 0;
      p' := AddLast(small, own);
    } else {
      LaterFlatten(rest, collapsed, showHead);
      hide *;
      p' := AddBefore(small, Flatten(rest, collapsed, showHead, true), p, m, own, Separator(rest[0].startIndex));
    }
  }

  lemma AddLast(small: seq<Key>, own: seq<Entry>) returns (p: nat)
    requires small == []
    ensures Extends(small, Keys(own + []), p, 0)
  {
    Units(own);
    EmptyExtends(Keys(own));
    p := |own|;
  }

  lemma AddBefore(small: seq<Key>, later: seq<Entry>, p: nat, m: nat, own: seq<Entry>, sep: Entry) returns (p': nat)
    requires Extends(small, Keys(later), p, m)
    ensures Extends(small, Keys(own + ([sep] + later)), p', m)
  {
    hide Extends;
    Assoc(own, [sep], later);
    KeysJoin(own + [sep], later);
    ExtendsUnder(small, Keys(later), p, m, Keys(own + [sep]));
    p' := |own + [sep]| + p;
  }

  /** The keys of a page are a subsequence of those of every larger page. */
  lemma ViewExtends(records: seq<Record>, limit: int, more: int, collapse: bool, expanded: set<nat>)
    returns (p: nat, m: nat)
    requires Increasing(records) && limit <= more
    ensures Extends(Keys(View(records, limit, collapse, expanded)), Keys(View(records, more, collapse, expanded)), p, m)
  {
    var small, large := TailStart(|records|, limit), TailStart(|records|, more);
    if small == |records| {
      p, m := |View(records, more, collapse, expanded)|, 0;
      EmptyExtends(Keys(View(records, more, collapse, expanded)));
    } else {
      GroupChained(records, records[|records| - 1].index + 1);
      p, m := PageExtends(GroupTurns(records), records[large].index, records[small].index, collapse, expanded);
    }
  }

  // ----- The viewport stays put -------------------------------------------------------------------------------

  lemma {:induction false} RowStretch(keys: seq<Key>, from: nat, m: nat)
    requires from + m <= |keys| && forall q :: from <= q < from + m ==> keys[q].RowKey?
    ensures KeyTop(keys, from + m) == KeyTop(keys, from) + 24 * m
  {
    if m > 0 { RowStretch(keys, from, m - 1); }
  }

  /** Height of what the larger page puts above entry `j`. */
  lemma {:induction false} ShiftOf(small: seq<Key>, large: seq<Key>, p: nat, m: nat, j: nat)
    requires Extends(small, large, p, m) && j < |small|
    ensures KeyTop(large, Pos(p, m, j)) == KeyTop(large, p) + KeyTop(small, j) + if j == 0 then 0 else 24 * m
  {
    if j == 1 {
      assert large[Pos(p, m, 0)] == small[0];
      RowStretch(large, p + 1, m);
    } else if j > 1 {
      ShiftOf(small, large, p, m, j - 1);
      assert large[Pos(p, m, j - 1)] == small[j - 1];
    }
  }

  /** Where entry `i` is on screen. */
  function OnScreen(entries: seq<Entry>, i: nat, scrollTop: real): real
    requires i <= |entries|
  {
    Top(entries, i) as real - scrollTop
  }

  lemma {:induction false} IndexIs(entries: seq<Entry>, i: nat)
    requires i < |entries| && Distinct(Keys(entries))
    ensures IndexOf(entries, entries[i].Key(), 0) == Some(i)
  {
    var at := IndexOf(entries, entries[i].Key(), 0).value;
    assert Keys(entries)[at] == Keys(entries)[i];
  }

  /** The restored anchor is where it was on screen; the entries below it are too, but for `m` rows inserted under a head
      that is itself the anchor. */
  ghost predicate Kept(small: seq<Entry>, large: seq<Entry>, scrollTop: real, p: nat, m: nat) {
    var i := FirstEndingBelow(small, 0, scrollTop);
    i < |small| && Extends(Keys(small), Keys(large), p, m) && (m > 0 ==> small[0].Head?) &&
    var a := TopAnchorOf(small, scrollTop).value;
    var restored := AnchorScrollTop(large, a.key, a.offset);
    OnScreen(large, Pos(p, m, i), restored) == OnScreen(small, i, scrollTop) &&
    forall j :: i < j < |small| ==>
      OnScreen(large, Pos(p, m, j), restored) == OnScreen(small, j, scrollTop) + if i == 0 then (24 * m) as real else 0.0
  }

  lemma PosIn(small: seq<Key>, large: seq<Key>, p: nat, m: nat, j: nat)
    requires Extends(small, large, p, m) && j < |small|
    ensures p <= |large| && Pos(p, m, j) < |large| && large[Pos(p, m, j)] == small[j]
  {
  }

  lemma TopShift(small: seq<Entry>, large: seq<Entry>, p: nat, m: nat, j: nat)
    requires Extends(Keys(small), Keys(large), p, m) && j < |small|
    ensures Pos(p, m, j) < |large| && large[Pos(p, m, j)].Key() == small[j].Key()
    ensures Top(large, Pos(p, m, j)) == KeyTop(Keys(large), p) + Top(small, j) + if j == 0 then 0 else 24 * m
  {
    hide *;
    PosIn(Keys(small), Keys(large), p, m, j);
    ShiftOf(Keys(small), Keys(large), p, m, j);
    TopOfKeys(large, Pos(p, m, j));
    TopOfKeys(small, j);
  }

  lemma RestoredAt(entries: seq<Entry>, i: nat, offset: real)
    requires i < |entries| && Distinct(Keys(entries))
    ensures AnchorScrollTop(entries, entries[i].Key(), offset) == Top(entries, i) as real + offset
  {
    IndexIs(entries, i);
  }

  lemma EntryKept(small: seq<Entry>, large: seq<Entry>, scrollTop: real, restored: real, p: nat, m: nat, i: nat, j: nat)
    requires Extends(Keys(small), Keys(large), p, m) && i <= j < |small| && Pos(p, m, i) < |large|
    requires restored == Top(large, Pos(p, m, i)) as real + (scrollTop - Top(small, i) as real)
    ensures Pos(p, m, j) < |large|
    ensures OnScreen(large, Pos(p, m, j), restored) ==
      OnScreen(small, j, scrollTop) + if i == 0 && i < j then (24 * m) as real else 0.0
  {
    hide Top, Pos, Extends;
    TopShift(small, large, p, m, i);
    TopShift(small, large, p, m, j);
  }

  lemma RestoreKeeps(small: seq<Entry>, large: seq<Entry>, scrollTop: real, p: nat, m: nat)
    requires Extends(Keys(small), Keys(large), p, m) && Distinct(Keys(large)) && TopAnchorOf(small, scrollTop).Some?
    ensures Kept(small, large, scrollTop, p, m)
  {
    var i, a := FirstEndingBelow(small, 0, scrollTop), TopAnchorOf(small, scrollTop).value;
    assert i < |small| && a == Anchor(small[i].Key(), scrollTop - Top(small, i) as real);
    assert m > 0 ==> Keys(small)[0].HeadKey?;
    hide *;
    TopShift(small, large, p, m, i);
    RestoredAt(large, Pos(p, m, i), a.offset);
    var restored := AnchorScrollTop(large, a.key, a.offset);
    forall j: nat | i <= j < |small|
      ensures Pos(p, m, j) < |large|
      ensures OnScreen(large, Pos(p, m, j), restored) ==
        OnScreen(small, j, scrollTop) + if i == 0 && i < j then (24 * m) as real else 0.0
    {
      EntryKept(small, large, scrollTop, restored, p, m, i, j);
    }
    KeptIs(small, large, scrollTop, p, m);
  }

  lemma KeptIs(small: seq<Entry>, large: seq<Entry>, scrollTop: real, p: nat, m: nat)
    requires Extends(Keys(small), Keys(large), p, m) && TopAnchorOf(small, scrollTop).Some? && (m > 0 ==> Keys(small)[0].HeadKey?)
    requires var i, a := FirstEndingBelow(small, 0, scrollTop), TopAnchorOf(small, scrollTop).value;
             forall j: nat :: i <= j < |small| ==>
               Pos(p, m, j) < |large| &&
               OnScreen(large, Pos(p, m, j), AnchorScrollTop(large, a.key, a.offset)) ==
                 OnScreen(small, j, scrollTop) + if i == 0 && i < j then (24 * m) as real else 0.0
    ensures Kept(small, large, scrollTop, p, m)
  {
    hide FirstEndingBelow, AnchorScrollTop, Extends, OnScreen, Pos;
  }

  /** Loading earlier records and restoring the anchor: the larger page has every entry of the smaller one, and keeps them in view. */
  lemma ViewportKept(records: seq<Record>, limit: int, more: int, collapse: bool, expanded: set<nat>, scrollTop: real)
    requires Increasing(records) && limit <= more
    requires TopAnchorOf(View(records, limit, collapse, expanded), scrollTop).Some?
    ensures exists p: nat, m: nat ::
      Kept(View(records, limit, collapse, expanded), View(records, more, collapse, expanded), scrollTop, p, m)
  {
    var p, m := ViewExtends(records, limit, more, collapse, expanded);
    ViewKeys(records, more, collapse, expanded);
    RestoreKeeps(View(records, limit, collapse, expanded), View(records, more, collapse, expanded), scrollTop, p, m);
  }

  /** When the anchor is not a turn head, no entry from the anchor on moves. */
  lemma BelowAnchorKept(
      records: seq<Record>, limit: int, more: int, collapse: bool, expanded: set<nat>, scrollTop: real, j: nat)
    requires Increasing(records) && limit <= more
    requires var small := View(records, limit, collapse, expanded);
             TopAnchorOf(small, scrollTop).Some? && FirstEndingBelow(small, 0, scrollTop) <= j < |small| &&
             !small[FirstEndingBelow(small, 0, scrollTop)].Head?
    ensures var small, large := View(records, limit, collapse, expanded), View(records, more, collapse, expanded);
            var a := TopAnchorOf(small, scrollTop).value;
            exists q: nat :: q < |large| && large[q].Key() == small[j].Key() &&
              OnScreen(large, q, AnchorScrollTop(large, a.key, a.offset)) == OnScreen(small, j, scrollTop)
  {
    var small, large := View(records, limit, collapse, expanded), View(records, more, collapse, expanded);
    ViewportKept(records, limit, more, collapse, expanded, scrollTop);
    hide *;
    var p: nat, m: nat :| Kept(small, large, scrollTop, p, m);
    KeptBelow(small, large, scrollTop, p, m, j);
  }

  lemma KeptBelow(small: seq<Entry>, large: seq<Entry>, scrollTop: real, p: nat, m: nat, j: nat)
    requires Kept(small, large, scrollTop, p, m) && FirstEndingBelow(small, 0, scrollTop) <= j < |small|
    requires !small[FirstEndingBelow(small, 0, scrollTop)].Head?
    ensures var a := TopAnchorOf(small, scrollTop).value;
            Pos(p, m, j) < |large| && large[Pos(p, m, j)].Key() == small[j].Key() &&
            OnScreen(large, Pos(p, m, j), AnchorScrollTop(large, a.key, a.offset)) == OnScreen(small, j, scrollTop)
  {
    assert Keys(large)[Pos(p, m, j)] == Keys(small)[j];
    hide FirstEndingBelow, AnchorScrollTop, OnScreen, Pos;
  }

  /** The keys of a page are a subsequence of the keys of every larger page. */
  lemma KeysKept(records: seq<Record>, limit: int, more: int, collapse: bool, expanded: set<nat>)
    requires Increasing(records) && limit <= more
    ensures exists p: nat, m: nat :: Extends(Keys(View(records, limit, collapse, expanded)), Keys(View(records, more, collapse, expanded)), p, m)
  {
    var p, m := ViewExtends(records, limit, more, collapse, expanded);
  }

  // ----- A page whose anchor is the head of a turn -----------------------------------------------------

  function Plain(index: nat, kind: Kind): Record {
    Record(index, kind, "m", 0, 0, "", None, None, None, None, None, None, None, None)
  }

  const Exchange := [Plain(0, UserRecord), Plain(1, MessageRecord), Plain(2, MessageRecord)]

  lemma ExchangeTurns()
    ensures GroupTurns(Exchange) == [Turn(0, Exchange, 3, 0, true)]
  {
    var (a, b, c) := (Exchange[0], Exchange[1], Exchange[2]);
    LastStep([a]);
    LastStep([a, b]);
    LastStep(Exchange);
    assert [a][..0] == [] && [a, b][..1] == [a] && Exchange[..2] == [a, b];
    hide GroupTurns;
    assert GroupTurns([a]) == [Turn(0, [a], 1, 0, true)] by { NoTurns(); assert [] + [a] == [a]; }
    assert GroupTurns([a, b]) == [Turn(0, [a, b], 2, 0, true)] by { assert [a] + [b] == [a, b]; }
    assert [a, b] + [c] == Exchange;
  }

  lemma NoTurns()
    ensures GroupTurns([]) == []
  {
  }

  /** The page of a single expanded turn. */
  lemma SingleTurnView(records: seq<Record>, turn: Turn, limit: int, expanded: set<nat>, kept: seq<Record>)
    requires GroupTurns(records) == [turn] && TailWindow(records, limit) != [] && turn.startIndex in expanded
    requires kept == From(turn.records, TailWindow(records, limit)[0].index) != []
    ensures View(records, limit, true, expanded) == [Head(turn.(records := kept))] + Rows(kept)
  {
    var shown, c := turn.(records := kept), CollapsedUnless(true, expanded);
    var first := TailWindow(records, limit)[0].index;
    assert [turn][1..] == [] && [shown][1..] == [];
    assert Trim([], first) == [] && Flatten([], c, true, false) == [];
    assert Trim([turn], first) == [shown] + [];
    assert VisibleTurns(records, limit) == [shown];
    assert Flatten([shown], c, true, true) == [] + ([Head(shown)] + Rows(kept)) + [];
  }

  lemma ExchangePages()
    ensures Exchange[1..] == [Exchange[1], Exchange[2]] && Exchange[2..] == [Exchange[2]]
    ensures TailWindow(Exchange, 1) == Exchange[2..] && TailWindow(Exchange, 2) == Exchange[1..]
    ensures From(Exchange, 1) == Exchange[1..] && From(Exchange, 2) == Exchange[2..]
  {
    var (b, c) := (Exchange[1], Exchange[2]);
    assert Exchange[1..] == [b, c] && Exchange[2..] == [c] && [b, c][1..] == [c];
    assert From([c], 1) == [c] && From([b, c], 1) == [b, c];
    assert From([c], 2) == [c] && From([b, c], 2) == [c];
  }

  lemma TwoRows(b: Record, c: Record)
    ensures Rows([c]) == [RowOf(c)] && Rows([b, c]) == [RowOf(b), RowOf(c)]
  {
    assert [b, c][..1] == [b] && [c][..0] == [] && [b][..0] == [];
    assert Rows([b]) == [RowOf(b)];
  }

  /** One turn, expanded, of which one record is shown and then two. */
  lemma ExchangeViews()
    ensures var turn := Turn(0, Exchange, 3, 0, true);
            View(Exchange, 1, true, {0}) == [Head(turn.(records := Exchange[2..])), RowOf(Exchange[2])] &&
            View(Exchange, 2, true, {0}) == [Head(turn.(records := Exchange[1..])), RowOf(Exchange[1]), RowOf(Exchange[2])]
  {
    hide View, GroupTurns, From, TailWindow, Rows;
    var turn := Turn(0, Exchange, 3, 0, true);
    ExchangeTurns();
    ExchangePages();
    TwoRows(Exchange[1], Exchange[2]);
    SingleTurnView(Exchange, turn, 1, {0}, Exchange[2..]);
    SingleTurnView(Exchange, turn, 2, {0}, Exchange[1..]);
  }

  /** With the head at the top of the viewport, loading one earlier record pushes the record below it down by its height. */
  lemma HeadAnchorShifts()
    ensures var small, large := View(Exchange, 1, true, {0}), View(Exchange, 2, true, {0});
            |small| == 2 && |large| == 3 && TopAnchorOf(small, 0.0) == Some(Anchor(HeadKey(0), 0.0)) &&
            var restored := AnchorScrollTop(large, HeadKey(0), 0.0);
            large[2].Key() == small[1].Key() && OnScreen(large, 2, restored) == OnScreen(small, 1, 0.0) + 24.0
  {
    ExchangeViews();
    var small, large := View(Exchange, 1, true, {0}), View(Exchange, 2, true, {0});
    HeadFirst(small);
    HeadFirst(large);
    hide View, GroupTurns, TopAnchorOf, AnchorScrollTop;
  }

  lemma HeadFirst(entries: seq<Entry>)
    requires |entries| > 1 && entries[0].Head? && entries[0].turn.startIndex == 0
    ensures TopAnchorOf(entries, 0.0) == Some(Anchor(HeadKey(0), 0.0)) && AnchorScrollTop(entries, HeadKey(0), 0.0) == 0.0
    ensures Top(entries, 1) == 18 && (|entries| > 2 && entries[1].RowOf? ==> Top(entries, 2) == 42)
  {
    assert Top(entries, 0) == 0;
  }
}
