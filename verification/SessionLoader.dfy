/** `mergeSnapshotWithLive` as the loops of src/lib/session-loader.ts, proved to compute the merged timeline. */
module SessionLoader {
  import opened Options
  import opened Seqs
  import opened Timeline
  import opened MergeSpec
  import opened MergeTheorems

  function Get<K, V>(counts: map<K, V>, key: K, default: V): V {
    if key in counts then counts[key] else default
  }

  method OccurrenceKeys(items: seq<Item>) returns (keys: seq<Option<Key>>)
    ensures |keys| == |items| && forall i :: 0 <= i < |items| ==> keys[i] == KeyAt(items, i)
  {
    keys := [];
    var seen: map<Identity, nat> := map[];
    for n := 0 to |items|
      invariant |keys| == n && forall i :: 0 <= i < n ==> keys[i] == KeyAt(items, i)
      invariant forall id :: Get(seen, id, 0) == Occurrences(items, id, n)
    {
      var identity := StableIdentity(items[n]);
      if identity.None? {
        keys := keys + [None];
      } else {
        var occurrence := Get(seen, identity.value, 0);
        seen := seen[identity.value := occurrence + 1];
        keys := keys + [Some(Key(identity.value, occurrence))];
      }
    }
  }

  ghost predicate KeysOf(keys: seq<Option<Key>>, items: seq<Item>) {
    |keys| == |items| && forall i :: 0 <= i < |items| ==> keys[i] == KeyAt(items, i)
  }

  /** `snapshotIndex`. */
  ghost predicate Indexes(index: map<Key, nat>, items: seq<Item>, n: nat)
    requires n <= |items|
  {
    forall key :: (if key in index then Some(index[key]) else None) == Find(items, key, n)
  }

  method IndexByKey(items: seq<Item>, keys: seq<Option<Key>>) returns (index: map<Key, nat>)
    requires KeysOf(keys, items)
    ensures Indexes(index, items, |items|)
  {
    index := map[];
    for n := 0 to |items|
      invariant Indexes(index, items, n)
    {
      if keys[n].Some? { index := index[keys[n].value := n]; }
    }
  }

  /** `baselineByKey`. */
  ghost predicate Baseline(byKey: map<Key, Item>, m: Sources) {
    forall key :: (key in byKey <==> !Unknown(m, key)) && (key in byKey ==> byKey[key] == m.base[Find(m.base, key, |m.base|).value])
  }

  method ItemsByKey(m: Sources, keys: seq<Option<Key>>) returns (byKey: map<Key, Item>)
    requires KeysOf(keys, m.base)
    ensures Baseline(byKey, m)
  {
    byKey := map[];
    for n := 0 to |m.base|
      invariant forall key :: (key in byKey <==> Find(m.base, key, n).Some?)
      invariant forall key :: key in byKey ==> byKey[key] == m.base[Find(m.base, key, n).value]
    {
      if keys[n].Some? { byKey := byKey[keys[n].value := m.base[n]]; }
    }
  }

  function AnchorKey(m: Sources, a: Option<nat>): Option<Key> {
    if a.Some? && a.value < |m.live| then KeyAt(m.live, a.value) else None
  }

  function PreviousKey(m: Sources, j: nat): Option<Key>
    requires j <= |m.live|
  {
    AnchorKey(m, PrevAnchor(m, j))
  }

  function KeyFrom(m: Sources, j: nat): Option<Key>
    requires j <= |m.live|
  {
    AnchorKey(m, AnchorFrom(m, j))
  }

  function NextKey(m: Sources, j: nat): Option<Key>
    requires j < |m.live|
  {
    KeyFrom(m, j + 1)
  }

  lemma AnchorHere(m: Sources, liveKeys: seq<Option<Key>>, index: map<Key, nat>, n: nat)
    requires KeysOf(liveKeys, m.live) && Indexes(index, m.stored, |m.stored|) && n < |m.live|
    ensures var here := liveKeys[n].Some? && liveKeys[n].value in index;
            PreviousKey(m, n + 1) == (if here then liveKeys[n] else PreviousKey(m, n)) &&
            KeyFrom(m, n) == (if here then liveKeys[n] else NextKey(m, n)) && NextKey(m, n) == KeyFrom(m, n + 1)
  {
    hide KeyAt, Find;
  }

  lemma NoAnchors(m: Sources)
    ensures PreviousKey(m, 0).None? && KeyFrom(m, |m.live|).None?
  {
  }

  method PreviousAnchors(m: Sources, liveKeys: seq<Option<Key>>, index: map<Key, nat>)
    returns (previous: seq<Option<Key>>)
    requires KeysOf(liveKeys, m.live) && Indexes(index, m.stored, |m.stored|)
    ensures |previous| == |m.live| && forall j :: 0 <= j < |m.live| ==> previous[j] == PreviousKey(m, j)
  {
    NoAnchors(m);
    hide PreviousKey, NextKey, KeyFrom, KeyAt, Indexes, Find;
    previous := [];
    var anchor: Option<Key> := None;
    for n := 0 to |m.live|
      invariant |previous| == n && forall j :: 0 <= j < n ==> previous[j] == PreviousKey(m, j)
      invariant anchor == PreviousKey(m, n)
    {
      AnchorHere(m, liveKeys, index, n);
      previous := previous + [anchor];
      if liveKeys[n].Some? && liveKeys[n].value in index { anchor := liveKeys[n]; }
    }
  }

  method NextAnchors(m: Sources, liveKeys: seq<Option<Key>>, index: map<Key, nat>) returns (next: seq<Option<Key>>)
    requires KeysOf(liveKeys, m.live) && Indexes(index, m.stored, |m.stored|)
    ensures |next| == |m.live| && forall j :: 0 <= j < |m.live| ==> next[j] == NextKey(m, j)
  {
    NoAnchors(m);
    hide PreviousKey, NextKey, KeyFrom, KeyAt, Indexes, Find;
    next := [];
    var anchor: Option<Key> := None;
    for n := |m.live| downto 0
      invariant |next| == |m.live| - n && forall j :: n <= j < |m.live| ==> next[j - n] == NextKey(m, j)
      invariant anchor == KeyFrom(m, n)
    {
      AnchorHere(m, liveKeys, index, n);
      next := [anchor] + next;
      if liveKeys[n].Some? && liveKeys[n].value in index { anchor := liveKeys[n]; }
    }
  }

  // ----- Stored messages ---------------------------------------------------------------

  datatype Entry = Entry(index: nat, item: Item, consumed: bool)

  predicate EntryOk(m: Sources, entry: Entry, n: nat, taken: set<nat>) {
    entry.index < n && IsStoredMessage(m, entry.index) && entry.item == m.stored[entry.index] && (entry.consumed <==> entry.index in taken)
  }

  /** `storedMessages` over the first `n` snapshot items, `taken` of them consumed. */
  ghost predicate Entries(m: Sources, entries: seq<Entry>, n: nat, taken: set<nat>)
    requires n <= |m.stored|
  {
    (forall e :: 0 <= e < |entries| ==> EntryOk(m, entries[e], n, taken)) &&
    (forall e, f :: 0 <= e < f < |entries| ==> entries[e].index < entries[f].index) &&
    (forall i :: 0 <= i < n && IsStoredMessage(m, i) ==> exists e :: 0 <= e < |entries| && entries[e].index == i)
  }

  ghost predicate Counts(m: Sources, unmatched: map<Item, nat>, n: nat)
    requires n <= |m.live|
  {
    forall item :: Get(unmatched, item, 0) ==
      var copies := Copies(m.stored, item, |m.stored|) - Copies(m.live, item, n);
      if copies < 0 then 0 else copies
  }

  method StoredMessages(m: Sources, keys: seq<Option<Key>>, byKey: map<Key, Item>)
    returns (entries: seq<Entry>, unmatched: map<Item, nat>)
    requires KeysOf(keys, m.stored) && Baseline(byKey, m)
    ensures Entries(m, entries, |m.stored|, Taken(m, 0)) && Counts(m, unmatched, 0)
  {
    entries, unmatched := [], map[];
    for n := 0 to |m.stored|
      invariant Entries(m, entries, n, KnownMessages(m))
      invariant forall item :: Get(unmatched, item, 0) == Copies(m.stored, item, n)
    {
      var item := m.stored[n];
      ghost var before := entries;
      if item.Msg? && Truthy(item.messageId) {
        entries := entries + [Entry(n, item, keys[n].Some? && keys[n].value in byKey)];
        AddEntry(m, before, entries, n);
      }
      if keys[n].None? { unmatched := unmatched[item := Get(unmatched, item, 0) + 1]; }
    }
  }

  lemma AddEntry(m: Sources, before: seq<Entry>, after: seq<Entry>, n: nat)
    requires n < |m.stored| && Entries(m, before, n, KnownMessages(m)) && IsStoredMessage(m, n)
    requires after == before + [Entry(n, m.stored[n], !Unknown(m, KeyAt(m.stored, n).value))]
    ensures Entries(m, after, n + 1, KnownMessages(m))
  {
    forall i | 0 <= i < n + 1 && IsStoredMessage(m, i) ensures exists e :: 0 <= e < |after| && after[e].index == i {
      if i == n { assert after[|before|].index == n; }
      else { var e :| 0 <= e < |before| && before[e].index == i; assert after[e].index == i; }
    }
  }

  method FindEntry(m: Sources, entries: seq<Entry>, i: nat, ghost taken: set<nat>) returns (at: Option<nat>)
    requires Entries(m, entries, |m.stored|, taken) && i < |m.stored|
    ensures at.Some? ==> at.value < |entries| && entries[at.value].index == i
    ensures at.Some? <==> IsStoredMessage(m, i)
  {
    for e := 0 to |entries|
      invariant forall f :: 0 <= f < e ==> entries[f].index != i
    {
      if entries[e].index == i { return Some(e); }
    }
    return None;
  }

  lemma {:induction false} LastClaimIs(m: Sources, j: nat, taken: set<nat>, n: nat, i: nat)
    requires j < |m.live| && i < n <= |m.stored| && i !in taken && Claims(m, i, j)
    requires forall k :: i < k < n && k !in taken ==> !Claims(m, k, j)
    ensures LastClaim(m, j, taken, n) == Some(i)
  {
    if i < n - 1 { LastClaimIs(m, j, taken, n - 1, i); }
  }

  /** `storedMessages.findLast` for live item `j`. */
  method FindLastClaim(m: Sources, entries: seq<Entry>, j: nat, lower: int, upper: int, ghost taken: set<nat>)
    returns (at: Option<nat>)
    requires j < |m.live| && Entries(m, entries, |m.stored|, taken)
    requires forall i: nat :: i < |m.stored| ==> (Between(m, i, j) <==> lower < i < upper)
    ensures at.Some? ==> at.value < |entries| && LastClaim(m, j, taken, |m.stored|) == Some(entries[at.value].index)
    ensures at.None? ==> LastClaim(m, j, taken, |m.stored|).None?
  {
    for e := |entries| downto 0
      invariant forall f :: e <= f < |entries| && entries[f].index !in taken ==> !Claims(m, entries[f].index, j)
    {
      var entry := entries[e];
      if !entry.consumed && lower < entry.index < upper && Subsumes(entry.item, m.live[j]) {
        forall k | entry.index < k < |m.stored| && k !in taken ensures !Claims(m, k, j) {
          if IsStoredMessage(m, k) { var f :| 0 <= f < |entries| && entries[f].index == k; }
        }
        LastClaimIs(m, j, taken, |m.stored|, entry.index);
        return Some(e);
      }
    }
    return None;
  }

  lemma Consume(m: Sources, entries: seq<Entry>, e: nat, taken: set<nat>)
    requires Entries(m, entries, |m.stored|, taken) && e < |entries|
    ensures Entries(m, entries[e := entries[e].(consumed := true)], |m.stored|, taken + {entries[e].index})
  {
    var after := entries[e := entries[e].(consumed := true)];
    forall i | 0 <= i < |m.stored| && IsStoredMessage(m, i) ensures exists f :: 0 <= f < |after| && after[f].index == i {
      var f :| 0 <= f < |entries| && entries[f].index == i;
      assert after[f].index == i;
    }
  }

  // ----- The loop over the live items --------------------------------------------------------

  function MergedSoFar(m: Sources, i: nat, n: nat): Item
    requires i < |m.stored|
  {
    var j := LivePos(m, i);
    if j.Some? && j.value < n && Overlays(m, j.value) then m.live[j.value] else m.stored[i]
  }

  ghost predicate MergedUpTo(m: Sources, merged: seq<Item>, n: nat) {
    |merged| == |m.stored| && forall i :: 0 <= i < |m.stored| ==> merged[i] == MergedSoFar(m, i, n)
  }

  /** Everything the loop has computed when it reaches live item `n`. */
  ghost predicate Reconciled(m: Sources, n: nat, merged: seq<Item>, entries: seq<Entry>, unmatched: map<Item,
                             nat>, candidates: seq<nat>) {
    n <= |m.live| && MergedUpTo(m, merged, n) && Entries(m, entries, |m.stored|, Taken(m, n)) && Counts(m, unmatched, n) &&
    candidates == Candidates(m, n)
  }

  /** Only the stored position with the key of live item `n` is decided by it. */
  lemma MergedNext(m: Sources, i: nat, n: nat)
    requires n < |m.live| && i < |m.stored|
    ensures MergedSoFar(m, i, n + 1) == if StoredPos(m, n) == Some(i) && Overlays(m, n) then m.live[n] else MergedSoFar(m, i, n)
  {
    PosInverse(m, i, n);
    hide LivePos, StoredPos, Overlays;
  }

  lemma OverlayNext(m: Sources, merged: seq<Item>, n: nat)
    requires n < |m.live| && MergedUpTo(m, merged, n)
    ensures var at := StoredPos(m, n);
            MergedUpTo(m, if at.Some? && Overlays(m, n) then merged[at.value := m.live[n]] else merged, n + 1)
  {
    forall i: nat | i < |m.stored|
      ensures MergedSoFar(m, i, n + 1) == if StoredPos(m, n) == Some(i) && Overlays(m, n) then m.live[n] else MergedSoFar(m, i, n)
    { MergedNext(m, i, n); }
    hide MergedSoFar, StoredPos, Overlays;
  }

  method ReconcileKeyed(m: Sources, n: nat, key: Key, index: map<Key, nat>, byKey: map<Key, Item>,
                        merged0: seq<Item>, entries0: seq<Entry>, ghost unmatched: map<Item, nat>, candidates0: seq<nat>)
    returns (merged: seq<Item>, entries: seq<Entry>, candidates: seq<nat>)
    requires Reconciled(m, n, merged0, entries0, unmatched, candidates0)
    requires n < |m.live| && KeyAt(m.live, n) == Some(key) && Indexes(index, m.stored, |m.stored|) && Baseline(byKey, m)
    ensures Reconciled(m, n + 1, merged, entries, unmatched, candidates)
  {
    merged, entries, candidates := merged0, entries0, candidates0;
    OverlayNext(m, merged, n);
    var item := m.live[n];
    var changedDuringLoad := key in byKey && byKey[key] != item;
    if key in index {
      var snapshotAt := index[key];
      assert StoredPos(m, n) == Some(snapshotAt);
      var e := FindEntry(m, entries, snapshotAt, Taken(m, n));
      if e.Some? {
        Consume(m, entries, e.value, Taken(m, n));
        entries := entries[e.value := entries[e.value].(consumed := true)];
      }
      if changedDuringLoad || (key !in byKey && item.Approval?) { merged := merged[snapshotAt := item]; }
    } else {
      assert StoredPos(m, n).None?;
      if key !in byKey || changedDuringLoad { candidates := candidates + [n]; }
    }
  }

  method Bounds(m: Sources, j: nat, index: map<Key, nat>, previous: Option<Key>, next: Option<Key>)
    returns (lower: int, upper: int)
    requires j < |m.live| && Indexes(index, m.stored, |m.stored|)
    requires previous == PreviousKey(m, j) && next == NextKey(m, j)
    ensures forall i: nat :: i < |m.stored| ==> (Between(m, i, j) <==> lower < i < upper)
  {
    lower := if previous.Some? && previous.value in index then index[previous.value] else -1;
    upper := if next.Some? && next.value in index then index[next.value] else |m.stored|;
  }

  lemma CountsNext(m: Sources, unmatched: map<Item, nat>, n: nat)
    requires n < |m.live| && Counts(m, unmatched, n) && KeyAt(m.live, n).None?
    ensures var count := Get(unmatched, m.live[n], 0);
            (Matched(m, n) <==> count > 0) &&
            Counts(m, if count > 0 then unmatched[m.live[n] := count - 1] else unmatched, n + 1)
  {
  }

  lemma UnkeyedNext(m: Sources, n: nat)
    requires n < |m.live| && KeyAt(m.live, n).None?
    ensures StoredPos(m, n).None?
    ensures Taken(m, n + 1) == if Matched(m, n) || Takeover(m, n).None? then Taken(m, n) else Taken(m, n) + {Takeover(m, n).value}
    ensures Candidates(m, n + 1) == Candidates(m, n) + if Matched(m, n) || Takeover(m, n).Some? then [] else [n]
  {
  }

  method ReconcileUnkeyed(m: Sources, n: nat, index: map<Key, nat>, previous: Option<Key>, next: Option<Key>,
                          ghost merged: seq<Item>, entries0: seq<Entry>, unmatched0: map<Item, nat>, candidates0: seq<nat>)
    returns (entries: seq<Entry>, unmatched: map<Item, nat>, candidates: seq<nat>)
    requires Reconciled(m, n, merged, entries0, unmatched0, candidates0)
    requires n < |m.live| && KeyAt(m.live, n).None? && Indexes(index, m.stored, |m.stored|)
    requires previous == PreviousKey(m, n) && next == NextKey(m, n)
    ensures Reconciled(m, n + 1, merged, entries, unmatched, candidates)
  {
    entries, unmatched, candidates := entries0, unmatched0, candidates0;
    OverlayNext(m, merged, n);
    CountsNext(m, unmatched, n);
    UnkeyedNext(m, n);
    hide Subsumes, Between, MergedUpTo, PrevAnchor, NextAnchor, Counts, Taken, Candidates, Entries, Matched, StoredPos;
    var item := m.live[n];
    var snapshotCount := Get(unmatched, item, 0);
    if snapshotCount > 0 {
      unmatched := unmatched[item := snapshotCount - 1];
      return;
    }
    var lower, upper := Bounds(m, n, index, previous, next);
    var storedMatch: Option<nat> := None;
    if item.Msg? && !Truthy(item.sendError) { storedMatch := FindLastClaim(m, entries, n, lower, upper, Taken(m, n)); }
    if storedMatch.Some? {
      Consume(m, entries, storedMatch.value, Taken(m, n));
      entries := entries[storedMatch.value := entries[storedMatch.value].(consumed := true)];
      return;
    }
    candidates := candidates + [n];
  }

  method ReconcileLive(m: Sources, keys: seq<Option<Key>>, index: map<Key, nat>, byKey: map<Key, Item>,
                       previous: seq<Option<Key>>, next: seq<Option<Key>>, entries0: seq<Entry>, unmatched0: map<Item, nat>)
    returns (merged: seq<Item>, candidates: seq<nat>)
    requires KeysOf(keys, m.live) && Indexes(index, m.stored, |m.stored|) && Baseline(byKey, m)
    requires |previous| == |m.live| && forall j :: 0 <= j < |m.live| ==> previous[j] == PreviousKey(m, j)
    requires |next| == |m.live| && forall j :: 0 <= j < |m.live| ==> next[j] == NextKey(m, j)
    requires Entries(m, entries0, |m.stored|, Taken(m, 0)) && Counts(m, unmatched0, 0)
    ensures MergedUpTo(m, merged, |m.live|) && candidates == Candidates(m, |m.live|)
  {
    var entries, unmatched := entries0, unmatched0;
    merged, candidates := m.stored, [];
    for n := 0 to |m.live|
      invariant Reconciled(m, n, merged, entries, unmatched, candidates)
    {
      if keys[n].Some? {
        merged, entries, candidates := ReconcileKeyed(m, n, keys[n].value, index, byKey, merged, entries, unmatched, candidates);
      } else {
        entries, unmatched, candidates := ReconcileUnkeyed(m, n, index, previous[n], next[n], merged, entries, unmatched, candidates);
      }
    }
  }

  // ----- Placing the candidates ------------------------------------------------------------------

  function LiveItems(m: Sources, js: seq<nat>): (items: seq<Item>)
    requires forall k :: 0 <= k < |js| ==> js[k] < |m.live|
    ensures |items| == |js|
  {
    seq(|js|, k requires 0 <= k < |js| => m.live[js[k]])
  }

  /** The candidates of `js` at one place, in order. */
  function Pile(m: Sources, js: seq<nat>, place: Place): seq<Item>
    requires forall k :: 0 <= k < |js| ==> js[k] < |m.live|
  {
    LiveItems(m, Placed(m, js, place))
  }

  lemma PileNext(m: Sources, js: seq<nat>, j: nat, place: Place)
    requires j < |m.live| && forall k :: 0 <= k < |js| ==> js[k] < |m.live|
    ensures Pile(m, js + [j], place) == Pile(m, js, place) + if PlaceOf(m, j) == place then [m.live[j]] else []
  {
    assert (js + [j])[..|js|] == js;
  }

  function Side(isAfter: bool, i: nat): Place {
    if isAfter then After(i) else Before(i)
  }

  /** The map `before` or `after`, for the candidates `js`. */
  ghost predicate Files(m: Sources, js: seq<nat>, table: map<Key, seq<Item>>, isAfter: bool)
    requires forall k :: 0 <= k < |js| ==> js[k] < |m.live|
  {
    forall i: nat :: i < |m.stored| && KeyAt(m.stored, i).Some? ==>
      Get(table, KeyAt(m.stored, i).value, []) == Pile(m, js, Side(isAfter, i))
  }

  lemma FileElsewhere(m: Sources, js: seq<nat>, j: nat, table: map<Key, seq<Item>>, isAfter: bool)
    requires j < |m.live| && (forall k :: 0 <= k < |js| ==> js[k] < |m.live|) && Files(m, js, table, isAfter)
    requires if isAfter then !PlaceOf(m, j).After? else !PlaceOf(m, j).Before?
    ensures Files(m, js + [j], table, isAfter)
  {
    hide Pile, PlaceOf, KeyAt;
    forall i: nat { PileNext(m, js, j, Side(isAfter, i)); }
  }

  lemma FileHere(m: Sources, js: seq<nat>, j: nat, table: map<Key, seq<Item>>, isAfter: bool, pos: nat, key: Key)
    requires j < |m.live| && (forall k :: 0 <= k < |js| ==> js[k] < |m.live|) && Files(m, js, table, isAfter)
    requires pos < |m.stored| && KeyAt(m.stored, pos) == Some(key) && PlaceOf(m, j) == Side(isAfter, pos)
    ensures Files(m, js + [j], table[key := Get(table, key, []) + [m.live[j]]], isAfter)
  {
    forall i: nat | i < |m.stored| && KeyAt(m.stored, i) == Some(key) ensures i == pos { KeysDistinct(m.stored, i, pos); }
    hide Pile, PlaceOf, KeyAt;
    forall i: nat { PileNext(m, js, j, Side(isAfter, i)); }
  }

  /** What the three piles hold when the candidates `js` have been placed. */
  ghost predicate Filed(m: Sources, js: seq<nat>, before: map<Key, seq<Item>>, after: map<Key, seq<Item>>, tail: seq<Item>)
  {
    (forall k :: 0 <= k < |js| ==> js[k] < |m.live|) &&
    Files(m, js, before, false) && Files(m, js, after, true) && tail == Pile(m, js, Tail)
  }

  function Add(m: Sources, j: nat, table: map<Key, seq<Item>>, key: Key): map<Key, seq<Item>>
    requires j < |m.live|
  {
    table[key := Get(table, key, []) + [m.live[j]]]
  }

  lemma FiledBefore(m: Sources, js: seq<nat>, j: nat, before: map<Key, seq<Item>>, after: map<Key, seq<Item>>,
                    tail: seq<Item>, key: Key)
    requires Filed(m, js, before, after, tail) && j < |m.live|
    requires PlaceOf(m, j).Before? && KeyAt(m.stored, PlaceOf(m, j).pos) == Some(key)
    ensures Filed(m, js + [j], Add(m, j, before, key), after, tail)
  {
    hide Files, Pile, PlaceOf, KeyAt;
    FileHere(m, js, j, before, false, PlaceOf(m, j).pos, key);
    FileElsewhere(m, js, j, after, true);
    PileNext(m, js, j, Tail);
  }

  lemma FiledAfter(m: Sources, js: seq<nat>, j: nat, before: map<Key, seq<Item>>, after: map<Key, seq<Item>>,
                   tail: seq<Item>, key: Key)
    requires Filed(m, js, before, after, tail) && j < |m.live|
    requires PlaceOf(m, j).After? && KeyAt(m.stored, PlaceOf(m, j).pos) == Some(key)
    ensures Filed(m, js + [j], before, Add(m, j, after, key), tail)
  {
    hide Files, Pile, PlaceOf, KeyAt;
    FileElsewhere(m, js, j, before, false);
    FileHere(m, js, j, after, true, PlaceOf(m, j).pos, key);
    PileNext(m, js, j, Tail);
  }

  lemma FiledTail(m: Sources, js: seq<nat>, j: nat, before: map<Key, seq<Item>>, after: map<Key, seq<Item>>,
                  tail: seq<Item>)
    requires Filed(m, js, before, after, tail) && j < |m.live| && PlaceOf(m, j).Tail?
    ensures Filed(m, js + [j], before, after, tail + [m.live[j]])
  {
    hide Files, Pile, PlaceOf, KeyAt;
    FileElsewhere(m, js, j, before, false);
    FileElsewhere(m, js, j, after, true);
    PileNext(m, js, j, Tail);
  }

  /** The key the code files candidate `j` under. */
  lemma FiledUnder(m: Sources, j: nat, next: Option<Key>, previous: Option<Key>)
    requires j < |m.live| && next == NextKey(m, j) && previous == PreviousKey(m, j)
    ensures next.Some? ==> PlaceOf(m, j).Before? && KeyAt(m.stored, PlaceOf(m, j).pos) == next
    ensures next.None? && previous.Some? ==> PlaceOf(m, j).After? && KeyAt(m.stored, PlaceOf(m, j).pos) == previous
    ensures next.None? && previous.None? && ApprovalFrom(m, 0).Some? ==> PlaceOf(m, j) == Before(ApprovalFrom(m, 0).value)
    ensures next.None? && previous.None? && ApprovalFrom(m, 0).None? ==> PlaceOf(m, j) == Tail
  {
  }

  method PlaceCandidates(m: Sources, candidates: seq<nat>, keys: seq<Option<Key>>, previous: seq<Option<Key>>,
                         next: seq<Option<Key>>)
    returns (before: map<Key, seq<Item>>, after: map<Key, seq<Item>>, tail: seq<Item>)
    requires KeysOf(keys, m.stored) && forall c :: 0 <= c < |candidates| ==> candidates[c] < |m.live|
    requires |previous| == |m.live| && forall j :: 0 <= j < |m.live| ==> previous[j] == PreviousKey(m, j)
    requires |next| == |m.live| && forall j :: 0 <= j < |m.live| ==> next[j] == NextKey(m, j)
    ensures Files(m, candidates, before, false) && Files(m, candidates, after, true) && tail == Pile(m, candidates, Tail)
  {
    before, after, tail := map[], map[], [];
    var approval := FindApproval(m, keys);
    assert candidates[..0] == [];
    for c := 0 to |candidates|
      invariant Filed(m, candidates[..c], before, after, tail)
    {
      var j := candidates[c];
      FiledUnder(m, j, next[j], previous[j]);
      ghost var js := candidates[..c];
      assert candidates[..c + 1] == js + [j];
      hide *;
      if next[j].Some? {
        FiledBefore(m, js, j, before, after, tail, next[j].value);
        before := Add(m, j, before, next[j].value);
      } else if previous[j].Some? {
        FiledAfter(m, js, j, before, after, tail, previous[j].value);
        after := Add(m, j, after, previous[j].value);
      } else if approval.Some? {
        FiledBefore(m, js, j, before, after, tail, approval.value);
        before := Add(m, j, before, approval.value);
      } else {
        FiledTail(m, js, j, before, after, tail);
        tail := tail + [m.live[j]];
      }
    }
    assert candidates[..|candidates|] == candidates;
  }

  method FindApproval(m: Sources, keys: seq<Option<Key>>) returns (key: Option<Key>)
    requires KeysOf(keys, m.stored)
    ensures var at := ApprovalFrom(m, 0); key == if at.Some? then KeyAt(m.stored, at.value) else None
  {
    for i := 0 to |m.stored|
      invariant ApprovalFrom(m, 0) == ApprovalFrom(m, i)
    {
      if keys[i].Some? && m.stored[i].Approval? { return keys[i]; }
    }
    return None;
  }

  // ----- The result ----------------------------------------------------------------------------

  lemma FreshLines(m: Sources, place: Place)
    ensures var js := Candidates(m, |m.live|); var slots := FreshSlots(Placed(m, js, place));
            (forall k :: 0 <= k < |slots| ==> SlotOk(m, slots[k])) && Lines(m, slots) == Pile(m, js, place)
  {
    FreshFacts(m, place);
    var slots := FreshSlots(Placed(m, Candidates(m, |m.live|), place));
    forall k | 0 <= k < |slots| ensures SlotOk(m, slots[k]) { assert slots[k] in slots; }
  }

  lemma LinesJoin(m: Sources, a: seq<Slot>, b: seq<Slot>)
    requires (forall k :: 0 <= k < |a| ==> SlotOk(m, a[k])) && forall k :: 0 <= k < |b| ==> SlotOk(m, b[k])
    ensures Lines(m, a + b) == Lines(m, a) + Lines(m, b)
  {
  }

  lemma BlocksOk(m: Sources, n: nat)
    requires n <= |m.stored|
    ensures forall k :: 0 <= k < |Blocks(m, n)| ==> SlotOk(m, Blocks(m, n)[k])
  {
    BlocksFacts(m, n);
    forall k | 0 <= k < |Blocks(m, n)| ensures SlotOk(m, Blocks(m, n)[k]) { assert Blocks(m, n)[k] in Blocks(m, n); }
  }

  lemma BlockLines(m: Sources, i: nat)
    requires i < |m.stored|
    ensures forall k :: 0 <= k < |Block(m, i)| ==> SlotOk(m, Block(m, i)[k])
    ensures var js := Candidates(m, |m.live|);
            Lines(m, Block(m, i)) == Pile(m, js, Before(i)) + [MergedItem(m, i)] + Pile(m, js, After(i))
  {
    var js := Candidates(m, |m.live|);
    var before, after := FreshSlots(Placed(m, js, Before(i))), FreshSlots(Placed(m, js, After(i)));
    FreshLines(m, Before(i));
    FreshLines(m, After(i));
    hide Pile, FreshSlots, Candidate, Candidates, Placed;
    LinesJoin(m, before, [Stored(i)]);
    LinesJoin(m, before + [Stored(i)], after);
  }

  /** Nothing is filed at a stored position that has no key. */
  lemma NoPile(m: Sources, i: nat)
    requires i < |m.stored| && KeyAt(m.stored, i).None?
    ensures Pile(m, Candidates(m, |m.live|), Before(i)) == [] && Pile(m, Candidates(m, |m.live|), After(i)) == []
  {
    NonePlaced(m, Candidates(m, |m.live|), Before(i));
    NonePlaced(m, Candidates(m, |m.live|), After(i));
  }

  lemma {:induction false} NonePlaced(m: Sources, js: seq<nat>, place: Place)
    requires forall k :: 0 <= k < |js| ==> js[k] < |m.live| && PlaceOf(m, js[k]) != place
    ensures Placed(m, js, place) == []
  {
    if js != [] { NonePlaced(m, js[..|js| - 1], place); }
  }

  /** The lines of the first `n` snapshot positions and what is filed around them. */
  function Rendered(m: Sources, n: nat): seq<Item>
    requires n <= |m.stored|
  {
    BlocksOk(m, n);
    Lines(m, Blocks(m, n))
  }

  lemma RenderNext(m: Sources, i: nat)
    requires i < |m.stored|
    ensures var js := Candidates(m, |m.live|);
            Rendered(m, i + 1) == Rendered(m, i) + (Pile(m, js, Before(i)) + [MergedItem(m, i)] + Pile(m, js, After(i)))
  {
    BlocksOk(m, i);
    BlocksOk(m, i + 1);
    BlockLines(m, i);
    hide Pile, Candidate, Candidates, Placed, Block;
    LinesJoin(m, Blocks(m, i), Block(m, i));
  }

  lemma RenderedAll(m: Sources)
    ensures Merged(m) == Rendered(m, |m.stored|) + Pile(m, Candidates(m, |m.live|), Tail)
  {
    BlocksOk(m, |m.stored|);
    FreshLines(m, Tail);
    hide Pile, Candidate, Candidates, Placed, Block, Blocks;
    LinesJoin(m, Blocks(m, |m.stored|), FreshSlots(Placed(m, Candidates(m, |m.live|), Tail)));
  }

  lemma RenderedNone(m: Sources)
    ensures Rendered(m, 0) == []
  {
  }

  /** What is filed under the key of a stored position belongs there, and nothing belongs to a position without one. */
  lemma FiledLine(m: Sources, keys: seq<Option<Key>>, before: map<Key, seq<Item>>, after: map<Key, seq<Item>>,
                  item: Item, i: nat)
    requires KeysOf(keys, m.stored) && i < |m.stored| && item == MergedItem(m, i)
    requires var js := Candidates(m, |m.live|); Files(m, js, before, false) && Files(m, js, after, true)
    ensures var js := Candidates(m, |m.live|);
            Pile(m, js, Before(i)) + [MergedItem(m, i)] + Pile(m, js, After(i)) ==
            if keys[i].Some? then Get(before, keys[i].value, []) + [item] + Get(after, keys[i].value, []) else [item]
  {
    ghost var js := Candidates(m, |m.live|);
    if keys[i].None? { NoPile(m, i); Units([item]); }
    else { assert Get(before, keys[i].value, []) == Pile(m, js, Side(false, i)) && Get(after, keys[i].value, []) == Pile(m, js, Side(true, i)); }
    hide Pile, MergedItem, Candidates;
  }

  lemma MergedAt(m: Sources, merged: seq<Item>, i: nat)
    requires MergedUpTo(m, merged, |m.live|) && i < |m.stored|
    ensures |merged| == |m.stored| && merged[i] == MergedItem(m, i)
  {
  }

  /** The `flatMap` over the merged snapshot and the tail. */
  method Assemble(m: Sources, keys: seq<Option<Key>>, merged: seq<Item>, before: map<Key, seq<Item>>,
                  after: map<Key, seq<Item>>, tail: seq<Item>)
    returns (result: seq<Item>)
    requires KeysOf(keys, m.stored) && MergedUpTo(m, merged, |m.live|)
    requires var js := Candidates(m, |m.live|);
             Files(m, js, before, false) && Files(m, js, after, true) && tail == Pile(m, js, Tail)
    ensures result == Merged(m)
  {
    RenderedNone(m);
    RenderedAll(m);
    hide Rendered, Pile, MergedItem, Candidates, Files, MergedUpTo, Merged;
    result := [];
    for i := 0 to |m.stored|
      invariant result == Rendered(m, i)
    {
      RenderNext(m, i);
      MergedAt(m, merged, i);
      FiledLine(m, keys, before, after, merged[i], i);
      if keys[i].Some? { result := result + (Get(before, keys[i].value, []) + [merged[i]] + Get(after, keys[i].value, [])); }
      else { result := result + [merged[i]]; }
    }
    result := result + tail;
  }

  method MergeSnapshotWithLive(snapshot: seq<Item>, baseline: seq<Item>, live: seq<Item>) returns (result: seq<Item>)
    ensures result == Merged(Sources(snapshot, baseline, live))
  {
    var m := Sources(snapshot, baseline, live);
    var snapshotKeys := OccurrenceKeys(snapshot);
    var baselineKeys := OccurrenceKeys(baseline);
    var liveKeys := OccurrenceKeys(live);
    var snapshotIndex := IndexByKey(snapshot, snapshotKeys);
    var baselineByKey := ItemsByKey(m, baselineKeys);
    var previousAnchors := PreviousAnchors(m, liveKeys, snapshotIndex);
    var nextAnchors := NextAnchors(m, liveKeys, snapshotIndex);
    var storedMessages, unmatched := StoredMessages(m, snapshotKeys, baselineByKey);
    var merged, candidates := ReconcileLive(m, liveKeys, snapshotIndex, baselineByKey, previousAnchors, nextAnchors, storedMessages, unmatched);
    var before, after, tail := PlaceCandidates(m, candidates, snapshotKeys, previousAnchors, nextAnchors);
    result := Assemble(m, snapshotKeys, merged, before, after, tail);
  }
}
