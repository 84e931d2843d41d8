/** The fixed-height virtual list of the record table (src/lib/trajectory-virtual.ts). */
module VirtualList {
  import opened Options
  import opened Records

  datatype Key = SepKey(start: nat) | FoldKey(start: nat) | HeadKey(start: nat) | RowKey(index: nat)

  datatype Entry =
    | Separator(start: nat)
    | Folded(turn: Turn)
    | Head(turn: Turn)
    | RowOf(record: Record)
  {
    function Key(): Key {
      match this
      case Separator(start) => SepKey(start)
      case Folded(turn) => FoldKey(turn.startIndex)
      case Head(turn) => HeadKey(turn.startIndex)
      case RowOf(record) => RowKey(record.index)
    }

    function Height(): nat {
      match this
      case Separator(_) => 9
      case Folded(_) => 24
      case Head(_) => 18
      case RowOf(_) => 24
    }
  }

  function Rows(records: seq<Record>): seq<Entry> {
    if records == [] then [] else Rows(records[..|records| - 1]) + [RowOf(records[|records| - 1])]
  }

  /** What one turn is shown as. */
  function TurnEntries(turn: Turn, collapsed: Turn -> bool, showHead: bool): seq<Entry> {
    if collapsed(turn) then [Folded(turn)]
    else (if showHead then [Head(turn)] else []) + Rows(turn.records)
  }

  /** The entries of the turns, with a separator before each but the first. */
  function Flatten(turns: seq<Turn>, collapsed: Turn -> bool, showHead: bool, isFirst: bool): seq<Entry> {
    if turns == [] then [] else
    (if isFirst then [] else [Separator(turns[0].startIndex)]) + TurnEntries(turns[0], collapsed, showHead) +
    Flatten(turns[1..], collapsed, showHead, false)
  }

  method PushTurn(out0: seq<Entry>, turn: Turn, collapsed: Turn -> bool, showHead: bool) returns (out: seq<Entry>)
    ensures out == out0 + TurnEntries(turn, collapsed, showHead)
  {
    out := out0;
    if collapsed(turn) { return out + [Folded(turn)]; }
    if showHead { out := out + [Head(turn)]; }
    ghost var start := out;
    for k := 0 to |turn.records|
      invariant out == start + Rows(turn.records[..k])
    {
      assert turn.records[..k + 1][..k] == turn.records[..k];
      out := out + [RowOf(turn.records[k])];
    }
    assert turn.records[..|turn.records|] == turn.records;
  }

  lemma FlattenNext(turns: seq<Turn>, i: nat, collapsed: Turn -> bool, showHead: bool)
    requires i < |turns|
    ensures Flatten(turns[i..], collapsed, showHead, i == 0) ==
      (if i == 0 then [] else [Separator(turns[i].startIndex)]) + TurnEntries(turns[i], collapsed, showHead) +
      Flatten(turns[i + 1..], collapsed, showHead, false)
  {
    assert turns[i..][1..] == turns[i + 1..];
  }

  lemma Regroup<T>(out: seq<T>, sep: seq<T>, own: seq<T>, rest: seq<T>)
    ensures out + (sep + own + rest) == (out + sep) + own + rest
  {
  }

  method FlattenTurns(turns: seq<Turn>, collapsed: Turn -> bool, showHead: bool) returns (out: seq<Entry>)
    ensures out == Flatten(turns, collapsed, showHead, true)
  {
    out := [];
    ghost var total := Flatten(turns, collapsed, showHead, true);
    assert turns[0..] == turns;
    for i := 0 to |turns|
      invariant out + Flatten(turns[i..], collapsed, showHead, i == 0) == total
    {
      out := FlattenStep(out, turns, i, collapsed, showHead);
    }
  }

  method FlattenStep(out0: seq<Entry>, turns: seq<Turn>, i: nat, collapsed: Turn -> bool, showHead: bool)
    returns (out: seq<Entry>)
    requires i < |turns|
    ensures out + Flatten(turns[i + 1..], collapsed, showHead, false) == out0 + Flatten(turns[i..], collapsed, showHead, i == 0)
  {
    FlattenNext(turns, i, collapsed, showHead);
    ghost var sep: seq<Entry> := if i == 0 then [] else [Separator(turns[i].startIndex)];
    Regroup(out0, sep, TurnEntries(turns[i], collapsed, showHead), Flatten(turns[i + 1..], collapsed, showHead, false));
    hide Flatten, TurnEntries;
    out := out0;
    if i > 0 { out := out + [Separator(turns[i].startIndex)]; }
    assert out == out0 + sep;
    out := PushTurn(out, turns[i], collapsed, showHead);
  }

  // ----- Geometry -----------------------------------------------------------------------------

  /** Height of the first `i` entries. */
  function Top(entries: seq<Entry>, i: nat): nat
    requires i <= |entries|
  {
    if i == 0 then 0 else Top(entries, i - 1) + entries[i - 1].Height()
  }

  method EntryTop(entries: seq<Entry>, index: nat) returns (top: nat)
    ensures top == Top(entries, if index < |entries| then index else |entries|)
  {
    top := 0;
    var upto := if index < |entries| then index else |entries|;
    for i := 0 to upto
      invariant top == Top(entries, i)
    {
      top := top + entries[i].Height();
    }
  }

  lemma {:induction false} TopGrows(entries: seq<Entry>, i: nat, j: nat)
    requires i <= j <= |entries|
    ensures Top(entries, i) + 9 * (j - i) <= Top(entries, j)
    decreases j
  {
    if i < j { TopGrows(entries, i, j - 1); }
  }

  function Bottom(entries: seq<Entry>, i: nat): nat
    requires i < |entries|
  {
    Top(entries, i) + entries[i].Height()
  }

  /** The first entry from `i` on whose bottom edge is below `y`. */
  function FirstEndingBelow(entries: seq<Entry>, i: nat, y: real): (k: nat)
    requires i <= |entries|
    ensures i <= k <= |entries|
    ensures k < |entries| ==> Bottom(entries, k) as real > y
    ensures forall j :: i <= j < k ==> Bottom(entries, j) as real <= y
    decreases |entries| - i
  {
    if i < |entries| && Bottom(entries, i) as real <= y then FirstEndingBelow(entries, i + 1, y) else i
  }

  /** The first entry from `i` on whose top edge is at or below `y`. */
  function FirstStartingBelow(entries: seq<Entry>, i: nat, y: real): (k: nat)
    requires i <= |entries|
    ensures i <= k <= |entries|
    ensures k < |entries| ==> Top(entries, k) as real >= y
    ensures forall j :: i <= j < k ==> (Top(entries, j) as real) < y
    decreases |entries| - i
  {
    if i < |entries| && (Top(entries, i) as real) < y then FirstStartingBelow(entries, i + 1, y) else i
  }

  datatype Window = Window(start: nat, end: nat, topPad: nat, bottomPad: nat)

  function WindowOf(entries: seq<Entry>, scrollTop: real, viewport: real, overscan: nat): (w: Window)
    ensures w.start <= w.end <= |entries|
  {
    if viewport <= 0.0 then Window(0, |entries|, 0, 0) else
    var first := FirstEndingBelow(entries, 0, scrollTop);
    var start := if first < overscan then 0 else first - overscan;
    var last := FirstStartingBelow(entries, start, scrollTop + viewport);
    var end := if last + overscan < |entries| then last + overscan else |entries|;
    TopGrows(entries, end, |entries|);
    Window(start, end, Top(entries, start), Top(entries, |entries|) - Top(entries, end))
  }

  method VirtualWindow(entries: seq<Entry>, scrollTop: real, viewport: real, overscan: nat) returns (w: Window)
    ensures w == WindowOf(entries, scrollTop, viewport, overscan)
  {
    hide FirstEndingBelow, FirstStartingBelow, Top;
    if viewport <= 0.0 { return Window(0, |entries|, 0, 0); }
    var start := ScanPast(entries, scrollTop);
    start := if start < overscan then 0 else start - overscan;
    var end := ScanTo(entries, start, scrollTop + viewport);
    end := if end + overscan < |entries| then end + overscan else |entries|;
    var topPad := EntryTop(entries, start);
    var total := EntryTop(entries, |entries|);
    var shown := EntryTop(entries, end);
    TopGrows(entries, end, |entries|);
    w := Window(start, end, topPad, total - shown);
  }

  /** The loop past every entry that ends above the viewport. */
  method ScanPast(entries: seq<Entry>, scrollTop: real) returns (index: nat)
    ensures index == FirstEndingBelow(entries, 0, scrollTop)
  {
    index := 0;
    while index < |entries|
      invariant index <= |entries|
      invariant FirstEndingBelow(entries, index, scrollTop) == FirstEndingBelow(entries, 0, scrollTop)
    {
      var top := EntryTop(entries, index);
      if (top + entries[index].Height()) as real > scrollTop { break; }
      index := index + 1;
    }
  }

  method ScanTo(entries: seq<Entry>, start: nat, limit: real) returns (end: nat)
    requires start <= |entries|
    ensures end == FirstStartingBelow(entries, start, limit)
  {
    end := start;
    while end < |entries|
      invariant start <= end <= |entries|
      invariant FirstStartingBelow(entries, end, limit) == FirstStartingBelow(entries, start, limit)
    {
      var top := EntryTop(entries, end);
      if top as real >= limit { break; }
      end := end + 1;
    }
  }

  function Heights(entries: seq<Entry>): nat {
    Top(entries, |entries|)
  }

  lemma {:induction false} TopSplits(entries: seq<Entry>, i: nat, j: nat)
    requires i <= j <= |entries|
    ensures Top(entries, j) == Top(entries, i) + Heights(entries[i..j])
    decreases j
  {
    if i < j {
      TopSplits(entries, i, j - 1);
      TopPrefix(entries[i..j], entries[i..j - 1], j - 1 - i);
    }
  }

  lemma {:induction false} TopPrefix(a: seq<Entry>, b: seq<Entry>, i: nat)
    requires i <= |a| && i <= |b| && a[..i] == b[..i]
    ensures Top(a, i) == Top(b, i)
  {
    if i > 0 {
      assert a[..i][i - 1] == b[..i][i - 1] && a[..i - 1] == a[..i][..i - 1] && b[..i - 1] == b[..i][..i - 1];
      TopPrefix(a, b, i - 1);
    }
  }

  /** Part of the entry lies inside the viewport. */
  predicate Intersects(entries: seq<Entry>, i: nat, scrollTop: real, viewport: real) {
    i < |entries| && (Top(entries, i) as real) < scrollTop + viewport && Bottom(entries, i) as real > scrollTop
  }

  /** The spacers stand for what is not rendered; everything visible is rendered, and so is what lies at most `overscan`
      entries from it; and the rendered part is bounded by the viewport.  Without a viewport everything is rendered. */
  lemma WindowCovers(entries: seq<Entry>, scrollTop: real, viewport: real, overscan: nat)
    ensures var w := WindowOf(entries, scrollTop, viewport, overscan);
            w.start <= w.end <= |entries| && w.topPad == Heights(entries[..w.start]) && w.bottomPad == Heights(entries[w.end..]) &&
            w.topPad + Heights(entries[w.start..w.end]) + w.bottomPad == Heights(entries) &&
            (forall i: nat, k: nat :: Intersects(entries, i, scrollTop, viewport) && Near(entries, i, k, overscan) ==> w.start <= k < w.end) &&
            (if viewport > 0.0 then (w.end - w.start) as real <= viewport / 9.0 + (2 * overscan + 2) as real
             else w.start == 0 && w.end == |entries|)
  {
    var w := WindowOf(entries, scrollTop, viewport, overscan);
    WindowPads(entries, w.start, w.end);
    hide Intersects, Top;
    if viewport > 0.0 {
      var first := FirstEndingBelow(entries, 0, scrollTop);
      var last := FirstStartingBelow(entries, w.start, scrollTop + viewport);
      WindowSize(entries, w.start, scrollTop, viewport);
      forall i: nat, k: nat | Intersects(entries, i, scrollTop, viewport) && Near(entries, i, k, overscan) ensures w.start <= k < w.end {
        VisibleBetween(entries, i, w.start, scrollTop, viewport);
      }
    }
  }

  /** Entry `k` is at most `overscan` entries away from entry `i`. */
  predicate Near(entries: seq<Entry>, i: nat, k: nat, overscan: nat) {
    k < |entries| && i <= k + overscan && k <= i + overscan
  }

  lemma WindowSize(entries: seq<Entry>, start: nat, scrollTop: real, viewport: real)
    requires start <= FirstEndingBelow(entries, 0, scrollTop) && viewport > 0.0
    ensures var first, last := FirstEndingBelow(entries, 0, scrollTop), FirstStartingBelow(entries, start, scrollTop + viewport);
            (last - first) as real <= viewport / 9.0 + 2.0
  {
    WindowBound(entries, FirstEndingBelow(entries, 0, scrollTop), FirstStartingBelow(entries, start, scrollTop + viewport), scrollTop, viewport);
  }

  lemma VisibleBetween(entries: seq<Entry>, i: nat, start: nat, scrollTop: real, viewport: real)
    requires Intersects(entries, i, scrollTop, viewport) && start <= FirstEndingBelow(entries, 0, scrollTop)
    ensures FirstEndingBelow(entries, 0, scrollTop) <= i < FirstStartingBelow(entries, start, scrollTop + viewport)
  {
    var last := FirstStartingBelow(entries, start, scrollTop + viewport);
    if i >= last { TopGrows(entries, last, i); }
  }

  lemma WindowPads(entries: seq<Entry>, start: nat, end: nat)
    requires start <= end <= |entries|
    ensures Top(entries, start) == Heights(entries[..start]) && Top(entries, end) <= Top(entries, |entries|)
    ensures Top(entries, |entries|) - Top(entries, end) == Heights(entries[end..])
    ensures Top(entries, start) + Heights(entries[start..end]) == Top(entries, end)
  {
    TopSplits(entries, start, end);
    TopSplits(entries, end, |entries|);
    assert entries[end..|entries|] == entries[end..];
    TopPrefix(entries, entries[..start], start);
  }

  lemma WindowBound(entries: seq<Entry>, first: nat, last: nat, scrollTop: real, viewport: real)
    requires first <= |entries| && last <= |entries| && viewport > 0.0
    requires first < |entries| ==> Bottom(entries, first) as real > scrollTop
    requires last > 0 && first < last ==> (Top(entries, last - 1) as real) < scrollTop + viewport
    ensures (last - first) as real <= viewport / 9.0 + 2.0
  {
    if first + 1 < last {
      TopGrows(entries, first + 1, last - 1);
      var rows := last - first - 2;
      assert (Top(entries, last - 1) - Top(entries, first + 1)) as real < viewport;
      assert 9 * rows <= Top(entries, last - 1) - Top(entries, first + 1);
      assert (9 * rows) as real == 9.0 * rows as real;
    }
  }

  // ----- Anchors ---------------------------------------------------------------------------------

  datatype Anchor = Anchor(key: Key, offset: real)

  function TopAnchorOf(entries: seq<Entry>, scrollTop: real): Option<Anchor> {
    var i := FirstEndingBelow(entries, 0, scrollTop);
    if i < |entries| then Some(Anchor(entries[i].Key(), scrollTop - Top(entries, i) as real)) else None
  }

  method TopAnchor(entries: seq<Entry>, scrollTop: real) returns (anchor: Option<Anchor>)
    ensures anchor == TopAnchorOf(entries, scrollTop)
  {
    var index := ScanPast(entries, scrollTop);
    if index == |entries| { return None; }
    var top := EntryTop(entries, index);
    return Some(Anchor(entries[index].Key(), scrollTop - top as real));
  }

  /** `findIndex` by key. */
  function IndexOf(entries: seq<Entry>, key: Key, i: nat): (at: Option<nat>)
    requires i <= |entries|
    ensures at.Some? ==> i <= at.value < |entries| && entries[at.value].Key() == key
    ensures at.None? ==> forall k :: i <= k < |entries| ==> entries[k].Key() != key
    decreases |entries| - i
  {
    if i == |entries| then None else if entries[i].Key() == key then Some(i) else IndexOf(entries, key, i + 1)
  }

  function AnchorScrollTop(entries: seq<Entry>, key: Key, offset: real): real {
    var index := IndexOf(entries, key, 0);
    if index.None? then 0.0 else Top(entries, index.value) as real + offset
  }
}
