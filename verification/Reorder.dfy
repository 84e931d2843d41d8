/** Reordering a session group with compensation (src/lib/session-reorder.ts), under every schedule of write failures. */
module Reorder {
  import opened Options
  import opened Seqs
  import opened Sessions

  /** A write succeeds, fails before it takes effect, or fails after it has. */
  datatype Fate = Ok | FailBefore | FailAfter

  type Orders = map<string, Option<int>>

  function Written(orders: Orders, id: string, order: Option<int>, fate: Fate): Orders {
    if fate.FailBefore? then orders else orders[id := order]
  }

  function IndexOfId(list: seq<Session>, id: string): (i: Option<nat>)
    ensures i.Some? ==> i.value < |list| && list[i.value].id == id && forall k :: 0 <= k < i.value ==> list[k].id != id
    ensures i.None? ==> forall k :: 0 <= k < |list| ==> list[k].id != id
  {
    if list == [] then None
    else if list[0].id == id then Some(0)
    else var i := IndexOfId(list[1..], id); if i.None? then None else Some(i.value + 1)
  }

  predicate Unpinned(s: Session) { !s.pinned }

  /** The two `splice` calls: element `from` is taken out and put in at `to`. */
  function Moved(list: seq<Session>, from: nat, to: nat): seq<Session>
    requires from < |list| && to < |list|
  {
    var rest := list[..from] + list[from + 1..];
    rest[..to] + [list[from]] + rest[to..]
  }

  // ----- The two loops as functions of the failure schedule --------------------------------------

  datatype Saved = Saved(orders: Orders, writes: nat, failed: bool)

  /** The apply loop from element `i` on, with write number `w` next: it stops at the first failure. */
  function Save(orders: Orders, list: seq<Session>, i: nat, fates: nat -> Fate, w: nat): Saved
    requires i <= |list|
    decreases |list| - i
  {
    if i == |list| then Saved(orders, w, false)
    else
      var after := Written(orders, list[i].id, Some(i + 1), fates(w));
      if fates(w).Ok? then Save(after, list, i + 1, fates, w + 1) else Saved(after, w + 1, true)
  }

  datatype RolledBack = RolledBack(orders: Orders, failures: seq<string>)

  /** The rollback loop: every session gets its old order back, failures are collected. */
  function Rollback(orders: Orders, list: seq<Session>, i: nat, fates: nat -> Fate, w: nat): RolledBack
    requires i <= |list|
    decreases |list| - i
  {
    if i == |list| then RolledBack(orders, [])
    else
      var rest := Rollback(Written(orders, list[i].id, list[i].sortOrder, fates(w)), list, i + 1, fates, w + 1);
      if fates(w).Ok? then rest else rest.(failures := [list[i].id] + rest.failures)
  }

  datatype Result = Result(saveError: bool, rollbackFailures: seq<string>)

  lemma RollbackStep(orders: Orders, list: seq<Session>, i: nat, fates: nat -> Fate, w: nat, failures: seq<string>)
    requires i < |list|
    ensures var rest := Rollback(Written(orders, list[i].id, list[i].sortOrder, fates(w)), list, i + 1, fates, w + 1);
            var all := Rollback(orders, list, i, fates, w);
            all.orders == rest.orders &&
            failures + all.failures == (if fates(w).Ok? then failures else failures + [list[i].id]) + rest.failures
  {
    var rest := Rollback(Written(orders, list[i].id, list[i].sortOrder, fates(w)), list, i + 1, fates, w + 1);
    Assoc(failures, [list[i].id], rest.failures);
  }

  lemma RollbackEnd(orders: Orders, list: seq<Session>, fates: nat -> Fate, w: nat)
    ensures Rollback(orders, list, |list|, fates, w) == RolledBack(orders, [])
  {
  }

  /** The server's sort orders. */
  class Store {
    var orders: Orders

    constructor (orders: Orders)
      ensures this.orders == orders
    {
      this.orders := orders;
    }

    method UpdateMeta(id: string, order: Option<int>, fate: Fate) returns (ok: bool)
      modifies this
      ensures orders == Written(old(orders), id, order, fate) && ok == fate.Ok?
    {
      if !fate.FailBefore? { orders := orders[id := order]; }
      ok := fate.Ok?;
    }
  }

  method SaveOrders(store: Store, list: seq<Session>, fates: nat -> Fate) returns (saveError: bool, writes: nat)
    modifies store
    ensures Saved(store.orders, writes, saveError) == Save(old(store.orders), list, 0, fates, 0)
  {
    ghost var goal := Save(store.orders, list, 0, fates, 0);
    writes := 0;
    for index := 0 to |list|
      invariant goal == Save(store.orders, list, index, fates, writes)
    {
      var ok := store.UpdateMeta(list[index].id, Some(index + 1), fates(writes));
      writes := writes + 1;
      if !ok { return true, writes; }
    }
    return false, writes;
  }

  method RollBack(store: Store, list: seq<Session>, fates: nat -> Fate, first: nat) returns (failures: seq<string>)
    modifies store
    ensures RolledBack(store.orders, failures) == Rollback(old(store.orders), list, 0, fates, first)
  {
    failures := [];
    ghost var back := Rollback(store.orders, list, 0, fates, first);
    Units(back.failures);
    hide *;
    for i := 0 to |list|
      invariant Rollback(store.orders, list, i, fates, first + i).orders == back.orders
      invariant failures + Rollback(store.orders, list, i, fates, first + i).failures == back.failures
    {
      RollbackStep(store.orders, list, i, fates, first + i, failures);
      var ok := store.UpdateMeta(list[i].id, list[i].sortOrder, fates(first + i));
      if !ok { failures := failures + [list[i].id]; }
    }
    RollbackEnd(store.orders, list, fates, first + |list|);
    Units(failures);
  }

  /** What a call leaves in the store and returns. */
  function Outcome(orders: Orders, sessions: seq<Session>, sourceId: string, targetId: string,
                   fates: nat -> Fate): (Orders, Option<Result>) {
    var list := Filter(sessions, Unpinned);
    var (from, to) := (IndexOfId(list, sourceId), IndexOfId(list, targetId));
    if from.None? || to.None? || from == to then (orders, None) else
    var moved := Moved(list, from.value, to.value);
    var saved := Save(orders, moved, 0, fates, 0);
    if !saved.failed then (saved.orders, Some(Result(false, []))) else
    var back := Rollback(saved.orders, moved, 0, fates, saved.writes);
    (back.orders, Some(Result(true, back.failures)))
  }

  method ReorderSessionGroup(store: Store, sessions: seq<Session>, sourceId: string, targetId: string,
                             fates: nat -> Fate)
    returns (result: Option<Result>)
    modifies store
    ensures (store.orders, result) == Outcome(old(store.orders), sessions, sourceId, targetId, fates)
  {
    hide Save, Rollback, Moved, Filter;
    var list := Filter(sessions, Unpinned);
    var from, to := IndexOfId(list, sourceId), IndexOfId(list, targetId);
    if from.None? || to.None? || from == to { return None; }
    list := Moved(list, from.value, to.value);
    var saveError, writes := SaveOrders(store, list, fates);
    if !saveError { return Some(Result(false, [])); }
    var rollbackFailures := RollBack(store, list, fates, writes);
    return Some(Result(true, rollbackFailures));
  }

  // ----- After a failure ------------------------------------------------------------------------------

  ghost predicate Keeps(before: Orders, after: Orders, id: string) {
    (id in after <==> id in before) && (id in before ==> after[id] == before[id])
  }

  lemma {:induction false} SaveTouches(orders: Orders, list: seq<Session>, i: nat, fates: nat -> Fate, w: nat,
                                       id: string)
    requires i <= |list| && forall k :: i <= k < |list| ==> list[k].id != id
    ensures Keeps(orders, Save(orders, list, i, fates, w).orders, id)
    decreases |list| - i
  {
    if i < |list| { SaveTouches(Written(orders, list[i].id, Some(i + 1), fates(w)), list, i + 1, fates, w + 1, id); }
  }

  lemma {:induction false} RollbackTouches(orders: Orders, list: seq<Session>, i: nat, fates: nat -> Fate,
                                           w: nat, id: string)
    requires i <= |list| && forall k :: i <= k < |list| ==> list[k].id != id
    ensures Keeps(orders, Rollback(orders, list, i, fates, w).orders, id) && id !in Rollback(orders, list, i, fates, w).failures
    decreases |list| - i
  {
    if i < |list| { RollbackTouches(Written(orders, list[i].id, list[i].sortOrder, fates(w)), list, i + 1, fates, w + 1, id); }
  }

  /** Session `k` ends with its old order, or is listed. */
  lemma {:induction false} RollbackRestores(orders: Orders, list: seq<Session>, i: nat, fates: nat -> Fate,
                                            w: nat, k: nat)
    requires DistinctIds(list) && i <= k < |list|
    ensures var back := Rollback(orders, list, i, fates, w);
            list[k].id in back.failures || (list[k].id in back.orders && back.orders[list[k].id] == list[k].sortOrder)
    decreases |list| - i
  {
    var after := Written(orders, list[i].id, list[i].sortOrder, fates(w));
    if i < k { RollbackRestores(after, list, i + 1, fates, w + 1, k); }
    else { RollbackTouches(after, list, i + 1, fates, w + 1, list[k].id); }
  }

  /** The ids are those of the sessions whose rollback write has failed; write `w` is the one of session `i`. */
  ghost predicate ListedFrom(ids: seq<string>, list: seq<Session>, i: nat, fates: nat -> Fate, w: nat) {
    forall id :: id in ids <==> exists k: nat :: FailsAt(list, i, fates, w, k) && list[k].id == id
  }

  predicate FailsAt(list: seq<Session>, i: nat, fates: nat -> Fate, w: nat, k: nat) {
    i <= k < |list| && !fates(w + k - i).Ok?
  }

  lemma {:induction false} RollbackLists(orders: Orders, list: seq<Session>, i: nat, fates: nat -> Fate, w: nat)
    requires i <= |list|
    ensures ListedFrom(Rollback(orders, list, i, fates, w).failures, list, i, fates, w)
    decreases |list| - i
  {
    if i < |list| {
      var after := Written(orders, list[i].id, list[i].sortOrder, fates(w));
      var rest, all := Rollback(after, list, i + 1, fates, w + 1).failures, Rollback(orders, list, i, fates, w).failures;
      RollbackLists(after, list, i + 1, fates, w + 1);
      assert FailsAt(list, i, fates, w, i) <==> !fates(w).Ok?;
      assert forall k: nat :: k != i ==> (FailsAt(list, i, fates, w, k) <==> FailsAt(list, i + 1, fates, w + 1, k));
      assert forall id :: id in all <==> id in rest || (!fates(w).Ok? && id == list[i].id);
      hide FailsAt, Rollback;
    }
  }

  /** The save loop fails with the first write that does, right behind those that have succeeded. */
  lemma {:induction false} SaveFails(orders: Orders, list: seq<Session>, i: nat, fates: nat -> Fate, w: nat)
    requires i <= |list|
    ensures var saved := Save(orders, list, i, fates, w);
            (saved.failed <==> exists k :: w <= k < w + |list| - i && !fates(k).Ok?) &&
            (saved.failed ==> w < saved.writes <= w + |list| - i && !fates(saved.writes - 1).Ok?) &&
            forall k :: w <= k < saved.writes - 1 ==> fates(k).Ok?
    decreases |list| - i
  {
    if i < |list| {
      SaveFails(Written(orders, list[i].id, Some(i + 1), fates(w)), list, i + 1, fates, w + 1);
    }
  }

  lemma TakeOne(a: seq<Session>, i: nat)
    requires i < |a|
    ensures multiset(a[..i] + a[i + 1..]) + multiset{a[i]} == multiset(a)
  {
    assert a == a[..i] + [a[i]] + a[i + 1..];
  }

  lemma PutOne(rest: seq<Session>, x: Session, i: nat)
    requires i <= |rest|
    ensures var a := rest[..i] + [x] + rest[i..];
            |a| == |rest| + 1 && a[i] == x && a[..i] + a[i + 1..] == rest && multiset(a) == multiset(rest) + multiset{x}
  {
    var a := rest[..i] + [x] + rest[i..];
    assert a[..i] + a[i + 1..] == rest;
    TakeOne(a, i);
  }

  /** The moved session is at its new place, and the others keep their order. */
  lemma MovedFacts(list: seq<Session>, from: nat, to: nat)
    requires from < |list| && to < |list|
    ensures var moved := Moved(list, from, to);
            |moved| == |list| && moved[to] == list[from] && moved[..to] + moved[to + 1..] == list[..from] + list[from + 1..] &&
            multiset(moved) == multiset(list) && forall s :: s in moved <==> s in list
  {
    var moved := Moved(list, from, to);
    TakeOne(list, from);
    PutOne(list[..from] + list[from + 1..], list[from], to);
    forall s ensures s in moved <==> s in list { assert s in multiset(moved) <==> s in multiset(list); }
  }

  lemma {:induction false} UnpinnedDistinct(ss: seq<Session>)
    requires DistinctIds(ss)
    ensures DistinctIds(Filter(ss, Unpinned))
  {
    if ss != [] {
      UnpinnedDistinct(ss[1..]);
      FilterMembers(ss[1..], Unpinned);
      var rest := Filter(ss[1..], Unpinned);
      forall i | 0 <= i < |rest| ensures rest[i].id != ss[0].id { assert rest[i] in rest; }
    }
  }

  lemma MovedDistinct(list: seq<Session>, from: nat, to: nat)
    requires from < |list| && to < |list| && DistinctIds(list)
    ensures DistinctIds(Moved(list, from, to))
  {
    var rest, x := list[..from] + list[from + 1..], list[from];
    assert forall i :: 0 <= i < |rest| ==> rest[i] == list[if i < from then i else i + 1];
    InsertDistinct(rest, x, to);
  }

  lemma InsertDistinct(rest: seq<Session>, x: Session, to: nat)
    requires to <= |rest| && DistinctIds(rest) && forall i :: 0 <= i < |rest| ==> rest[i].id != x.id
    ensures DistinctIds(rest[..to] + [x] + rest[to..])
  {
    var all := rest[..to] + [x] + rest[to..];
    assert forall i :: 0 <= i < |all| ==> all[i] == if i < to then rest[i] else if i == to then x else rest[i - 1];
  }

  ghost predicate StoredAs(orders: Orders, ss: seq<Session>) {
    forall s :: s in ss ==> s.id in orders && orders[s.id] == s.sortOrder
  }

  ghost predicate Moves(sessions: seq<Session>, from: nat, to: nat) {
    from < |Filter(sessions, Unpinned)| && to < |Filter(sessions, Unpinned)|
  }

  /** After a failed save, every session whose stored order is not the old one is listed, and pinned sessions are untouched. */
  lemma CompensationComplete(orders: Orders, sessions: seq<Session>, from: nat, to: nat, fates: nat -> Fate, s: Session)
    requires DistinctIds(sessions) && StoredAs(orders, sessions) && Moves(sessions, from, to) && s in sessions
    requires Save(orders, Moved(Filter(sessions, Unpinned), from, to), 0, fates, 0).failed
    ensures var moved := Moved(Filter(sessions, Unpinned), from, to);
            var saved := Save(orders, moved, 0, fates, 0);
            var back := Rollback(saved.orders, moved, 0, fates, saved.writes);
            s.id in back.orders && (back.orders[s.id] != s.sortOrder ==> s.id in back.failures) &&
            (s.pinned ==> back.orders[s.id] == s.sortOrder && s.id !in back.failures)
  {
    var list := Filter(sessions, Unpinned);
    var moved := Moved(list, from, to);
    var saved := Save(orders, moved, 0, fates, 0);
    FilterMembers(sessions, Unpinned);
    UnpinnedDistinct(sessions);
    MovedFacts(list, from, to);
    MovedDistinct(list, from, to);
    if s.pinned {
      forall k | 0 <= k < |moved| ensures moved[k].id != s.id { OtherId(sessions, s, moved[k]); }
      SaveTouches(orders, moved, 0, fates, 0, s.id);
      RollbackTouches(saved.orders, moved, 0, fates, saved.writes, s.id);
    } else {
      assert s in moved;
      var k :| 0 <= k < |moved| && moved[k] == s;
      RollbackRestores(saved.orders, moved, 0, fates, saved.writes, k);
      SaveKeys(orders, moved, 0, fates, 0, s.id);
      RollbackKeys(saved.orders, moved, 0, fates, saved.writes, s.id);
    }
  }

  lemma OtherId(ss: seq<Session>, a: Session, b: Session)
    requires DistinctIds(ss) && a in ss && b in ss && a != b
    ensures a.id != b.id
  {
    var i :| 0 <= i < |ss| && ss[i] == a;
    var j :| 0 <= j < |ss| && ss[j] == b;
  }

  lemma {:induction false} SaveKeys(orders: Orders, list: seq<Session>, i: nat, fates: nat -> Fate, w: nat, id: string)
    requires i <= |list| && id in orders
    ensures id in Save(orders, list, i, fates, w).orders
    decreases |list| - i
  {
    if i < |list| { SaveKeys(Written(orders, list[i].id, Some(i + 1), fates(w)), list, i + 1, fates, w + 1, id); }
  }

  lemma {:induction false} RollbackKeys(orders: Orders, list: seq<Session>, i: nat, fates: nat -> Fate, w: nat,
                                        id: string)
    requires i <= |list| && id in orders
    ensures id in Rollback(orders, list, i, fates, w).orders
    decreases |list| - i
  {
    if i < |list| { RollbackKeys(Written(orders, list[i].id, list[i].sortOrder, fates(w)), list, i + 1, fates, w + 1, id); }
  }

  // ----- After a success ---------------------------------------------------------------------------------

  lemma {:induction false} SavedOrders(orders: Orders, list: seq<Session>, i: nat, fates: nat -> Fate, w: nat, k: nat)
    requires DistinctIds(list) && i <= k < |list| && !Save(orders, list, i, fates, w).failed
    ensures var saved := Save(orders, list, i, fates, w); list[k].id in saved.orders && saved.orders[list[k].id] == Some(k + 1)
    decreases |list| - i
  {
    var after := Written(orders, list[i].id, Some(i + 1), fates(w));
    if i < k { SavedOrders(after, list, i + 1, fates, w + 1, k); }
    else { SaveTouches(after, list, i + 1, fates, w + 1, list[k].id); }
  }

  /** A session as the next refresh shows it. */
  function Reloaded(orders: Orders): Session -> Session {
    (s: Session) => if s.id in orders then s.(sortOrder := orders[s.id]) else s
  }

  function Map(f: Session -> Session, ss: seq<Session>): (r: seq<Session>)
    ensures |r| == |ss| && forall i :: 0 <= i < |ss| ==> r[i] == f(ss[i])
  {
    if ss == [] then [] else [f(ss[0])] + Map(f, ss[1..])
  }

  lemma {:induction false} MapFilter(f: Session -> Session, ss: seq<Session>, p: Session -> bool, q: Session -> bool)
    requires forall s :: s in ss ==> (p(s) <==> q(f(s)))
    ensures Filter(Map(f, ss), q) == Map(f, Filter(ss, p))
  {
    if ss != [] {
      assert ss[0] in ss;
      MapFilter(f, ss[1..], p, q);
      assert Map(f, ss)[1..] == Map(f, ss[1..]);
      if p(ss[0]) { assert ([ss[0]] + Filter(ss[1..], p))[1..] == Filter(ss[1..], p); }
    }
  }

  lemma MapSplit(f: Session -> Session, a: seq<Session>, b: seq<Session>)
    ensures Map(f, a + b) == Map(f, a) + Map(f, b)
  {
    hide *;
  }

  lemma MapCut(f: Session -> Session, a: seq<Session>, i: nat)
    requires i <= |a|
    ensures Map(f, a[..i]) == Map(f, a)[..i] && Map(f, a[i..]) == Map(f, a)[i..]
  {
    hide *;
    MapSplit(f, a[..i], a[i..]);
    assert a[..i] + a[i..] == a;
  }

  lemma MapOne(f: Session -> Session, x: Session)
    ensures Map(f, [x]) == [f(x)]
  {
  }

  lemma MapWithout(f: Session -> Session, list: seq<Session>, i: nat)
    requires i < |list|
    ensures Map(f, list[..i] + list[i + 1..]) == Map(f, list)[..i] + Map(f, list)[i + 1..]
  {
    hide *;
    MapCut(f, list, i);
    MapCut(f, list, i + 1);
    MapSplit(f, list[..i], list[i + 1..]);
  }

  lemma MapWith(f: Session -> Session, rest: seq<Session>, x: Session, i: nat)
    requires i <= |rest|
    ensures Map(f, rest[..i] + [x] + rest[i..]) == Map(f, rest)[..i] + [f(x)] + Map(f, rest)[i..]
  {
    hide *;
    MapCut(f, rest, i);
    MapSplit(f, rest[..i] + [x], rest[i..]);
    MapSplit(f, rest[..i], [x]);
    MapOne(f, x);
  }

  lemma MapMoved(f: Session -> Session, list: seq<Session>, from: nat, to: nat)
    requires from < |list| && to < |list|
    ensures Map(f, Moved(list, from, to)) == Moved(Map(f, list), from, to)
  {
    assert f(list[from]) == Map(f, list)[from];
    MapWithout(f, list, from);
    MapWith(f, list[..from] + list[from + 1..], list[from], to);
    hide Map;
  }

  /** There is only one way to sort distinct ranks. */
  lemma {:induction false} SortedUnique(a: seq<Session>, b: seq<Session>, rank: Session -> int)
    requires multiset(a) == multiset(b) && Ranked(a, rank) && Strict(b, rank)
    ensures a == b
  {
    assert |a| == |multiset(a)| == |multiset(b)| == |b|;
    if b == [] { return; }
    SameHead(a, b, rank);
    SameTail(a, b);
    assert Ranked(a[1..], rank) && Strict(b[1..], rank);
    hide Ranked, Strict;
    SortedUnique(a[1..], b[1..], rank);
    assert a == [a[0]] + a[1..] && b == [b[0]] + b[1..];
  }

  ghost predicate Strict(b: seq<Session>, rank: Session -> int) {
    forall i, j :: 0 <= i < j < |b| ==> rank(b[i]) < rank(b[j])
  }

  lemma SameTail(a: seq<Session>, b: seq<Session>)
    requires a != [] && b != [] && multiset(a) == multiset(b) && a[0] == b[0]
    ensures multiset(a[1..]) == multiset(b[1..])
  {
    assert a == [a[0]] + a[1..] && b == [b[0]] + b[1..];
    assert multiset(a) - multiset{a[0]} == multiset(a[1..]) && multiset(b) - multiset{b[0]} == multiset(b[1..]);
  }

  lemma SameHead(a: seq<Session>, b: seq<Session>, rank: Session -> int)
    requires a != [] && b != [] && multiset(a) == multiset(b) && Ranked(a, rank) && Strict(b, rank)
    ensures a[0] == b[0]
  {
    assert a[0] in multiset(b) && b[0] in multiset(a);
    var i :| 0 <= i < |b| && b[i] == a[0];
    var j :| 0 <= j < |a| && a[j] == b[0];
    assert rank(a[0]) <= rank(a[j]);
    assert rank(b[0]) <= rank(b[i]);
  }

  /** After a successful save the group shows the pinned sessions as before, then the unpinned ones in the new order. */
  lemma NewOrderShown(orders: Orders, sessions: seq<Session>, from: nat, to: nat, fates: nat -> Fate)
    requires DistinctIds(sessions) && StoredAs(orders, sessions) && Moves(sessions, from, to)
    requires !Save(orders, Moved(Filter(sessions, Unpinned), from, to), 0, fates, 0).failed
    ensures var moved := Moved(Filter(sessions, Unpinned), from, to);
            var f := Reloaded(Save(orders, moved, 0, fates, 0).orders);
            SortGroup(Map(f, sessions)) == StableSort(Filter(sessions, Pinned), Newest) + Map(f, moved)
  {
    var list := Filter(sessions, Unpinned);
    var moved := Moved(list, from, to);
    var f := Reloaded(Save(orders, moved, 0, fates, 0).orders);
    FilterMembers(sessions, Unpinned);
    UnpinnedDistinct(sessions);
    MovedFacts(list, from, to);
    MovedDistinct(list, from, to);
    hide *;
    forall s | s in sessions ensures PinKept(f, s) { ReloadedKeepsPin(orders, sessions, moved, fates, s); }
    forall k | 0 <= k < |moved| ensures Position(f(moved[k])) == k + 1 { ReloadedPosition(orders, moved, fates, k); }
    ShownInOrder(f, sessions, list, from, to, moved);
  }

  lemma ReloadedPosition(orders: Orders, moved: seq<Session>, fates: nat -> Fate, k: nat)
    requires DistinctIds(moved) && k < |moved| && !Save(orders, moved, 0, fates, 0).failed
    ensures Position(Reloaded(Save(orders, moved, 0, fates, 0).orders)(moved[k])) == k + 1
  {
    SavedOrders(orders, moved, 0, fates, 0, k);
    hide Save, DistinctIds;
  }

  lemma ReloadedKeepsPin(orders: Orders, sessions: seq<Session>, moved: seq<Session>, fates: nat -> Fate, s: Session)
    requires DistinctIds(sessions) && StoredAs(orders, sessions) && s in sessions
    requires DistinctIds(moved) && !Save(orders, moved, 0, fates, 0).failed
    requires forall t :: t in moved <==> t in sessions && Unpinned(t)
    ensures PinKept(Reloaded(Save(orders, moved, 0, fates, 0).orders), s)
  {
    if s.pinned {
      forall k | 0 <= k < |moved| ensures moved[k].id != s.id { OtherId(sessions, s, moved[k]); }
      SaveTouches(orders, moved, 0, fates, 0, s.id);
    } else {
      var k :| 0 <= k < |moved| && moved[k] == s;
      SavedOrders(orders, moved, 0, fates, 0, k);
    }
    hide Save, DistinctIds;
  }

  ghost predicate PinKept(f: Session -> Session, s: Session) {
    f(s).pinned == s.pinned && (s.pinned ==> f(s) == s) && (!s.pinned ==> f(s).sortOrder.Some?)
  }

  lemma ShownInOrder(f: Session -> Session, sessions: seq<Session>, list: seq<Session>, from: nat, to: nat,
                     moved: seq<Session>)
    requires KeepsPins(f, sessions)
    requires list == Filter(sessions, Unpinned) && from < |list| && to < |list| && moved == Moved(list, from, to)
    requires forall k :: 0 <= k < |moved| ==> Position(f(moved[k])) == k + 1
    ensures SortGroup(Map(f, sessions)) == StableSort(Filter(sessions, Pinned), Newest) + Map(f, moved)
  {
    Sections(f, sessions);
    SortOne(Map(f, list), Map(f, moved), moved, f, from, to, list);
    hide Filter, StableSort, Map;
    assert SortGroup(Map(f, sessions)) == StableSort(Filter(sessions, Pinned), Newest) + StableSort(Map(f, list), Position) + [];
  }

  ghost predicate KeepsPins(f: Session -> Session, sessions: seq<Session>) {
    forall s :: s in sessions ==> PinKept(f, s)
  }

  lemma PinnedSection(f: Session -> Session, sessions: seq<Session>)
    requires KeepsPins(f, sessions)
    ensures Filter(Map(f, sessions), Pinned) == Filter(sessions, Pinned)
  {
    var pinned := Filter(sessions, Pinned);
    FilterMembers(sessions, Pinned);
    MapFilter(f, sessions, Pinned, Pinned);
    forall i | 0 <= i < |pinned| ensures f(pinned[i]) == pinned[i] { assert pinned[i] in pinned; }
    assert Map(f, pinned) == pinned;
  }

  lemma Sections(f: Session -> Session, sessions: seq<Session>)
    requires KeepsPins(f, sessions)
    ensures Filter(Map(f, sessions), Pinned) == Filter(sessions, Pinned)
    ensures Filter(Map(f, sessions), Ordered) == Map(f, Filter(sessions, Unpinned))
    ensures StableSort(Filter(Map(f, sessions), Others), Newest) == []
  {
    var after := Map(f, sessions);
    PinnedSection(f, sessions);
    MapFilter(f, sessions, Unpinned, Ordered);
    forall s | s in after ensures !Others(s) { var i :| 0 <= i < |after| && after[i] == s; assert sessions[i] in sessions; }
    FilterNone(after, Others);
  }

  lemma SortOne(a: seq<Session>, b: seq<Session>, moved: seq<Session>, f: Session -> Session, from: nat,
                to: nat, list: seq<Session>)
    requires from < |list| && to < |list| && moved == Moved(list, from, to) && a == Map(f, list) && b == Map(f, moved)
    requires forall k :: 0 <= k < |moved| ==> Position(f(moved[k])) == k + 1
    ensures StableSort(a, Position) == b
  {
    MapMoved(f, list, from, to);
    MovedFacts(a, from, to);
    SortSorts(a, Position);
    SortedUnique(StableSort(a, Position), b, Position);
  }

  // ----- What a call comes to --------------------------------------------------------------------------

  function Names(ss: seq<Session>): (ids: seq<string>)
    ensures |ids| == |ss| && forall i :: 0 <= i < |ss| ==> ids[i] == ss[i].id
  {
    seq(|ss|, i requires 0 <= i < |ss| => ss[i].id)
  }

  lemma NamesKept(orders: Orders, ss: seq<Session>)
    ensures Names(Map(Reloaded(orders), ss)) == Names(ss)
  {
  }

  /** The pinned sessions as before, then the unpinned ones with the source at the place of the target and the rest in their old order. */
  ghost predicate ShowsMove(shown: seq<Session>, sessions: seq<Session>, from: nat, to: nat) {
    var pinned, list := StableSort(Filter(sessions, Pinned), Newest), Filter(sessions, Unpinned);
    from < |list| && to < |list| && |shown| == |pinned| + |list| && shown[..|pinned|] == pinned &&
    var rest := shown[|pinned|..];
    rest[to].id == list[from].id && Names(rest[..to] + rest[to + 1..]) == Names(list[..from] + list[from + 1..])
  }

  lemma ShowsMoved(orders: Orders, pinned: seq<Session>, list: seq<Session>, from: nat, to: nat)
    requires from < |list| && to < |list|
    ensures var rest := Map(Reloaded(orders), Moved(list, from, to));
            |rest| == |list| && rest[to].id == list[from].id &&
            Names(rest[..to] + rest[to + 1..]) == Names(list[..from] + list[from + 1..]) &&
            (pinned + rest)[..|pinned|] == pinned && (pinned + rest)[|pinned|..] == rest
  {
    var f, moved := Reloaded(orders), Moved(list, from, to);
    MovedFacts(list, from, to);
    MapWithout(f, moved, to);
    NamesKept(orders, moved[..to] + moved[to + 1..]);
    assert f(list[from]).id == list[from].id;
  }

  lemma MoveShown(orders: Orders, sessions: seq<Session>, from: nat, to: nat, fates: nat -> Fate)
    requires DistinctIds(sessions) && StoredAs(orders, sessions) && Moves(sessions, from, to)
    requires !Save(orders, Moved(Filter(sessions, Unpinned), from, to), 0, fates, 0).failed
    ensures var after := Save(orders, Moved(Filter(sessions, Unpinned), from, to), 0, fates, 0).orders;
            ShowsMove(SortGroup(Map(Reloaded(after), sessions)), sessions, from, to)
  {
    var list := Filter(sessions, Unpinned);
    hide Save, Moved, Filter, SortGroup, StableSort, Map, Reloaded, DistinctIds, StoredAs;
    NewOrderShown(orders, sessions, from, to, fates);
    ShowsMoved(Save(orders, Moved(list, from, to), 0, fates, 0).orders, StableSort(Filter(sessions, Pinned), Newest), list, from, to);
  }

  /** The list with the element at `from` put where the one at `to` was. */
  ghost predicate IsMove(moved: seq<Session>, list: seq<Session>, from: nat, to: nat) {
    from < |list| && to < |list| && |moved| == |list| && moved[to] == list[from] &&
    moved[..to] + moved[to + 1..] == list[..from] + list[from + 1..]
  }

  /** Write `w` is the first that fails; the rollback then writes every session of the moved list once, and the failures
      are the sessions whose write fails too. */
  ghost predicate FailsThere(failures: seq<string>, moved: seq<Session>, fates: nat -> Fate, w: nat) {
    w < |moved| && !fates(w).Ok? && (forall k :: 0 <= k < w ==> fates(k).Ok?) &&
    forall id :: id in failures <==> exists i: nat :: i < |moved| && moved[i].id == id && !fates(w + 1 + i).Ok?
  }

  /** The result names an error exactly when a save write fails, and the sessions whose rollback write failed. */
  lemma FailuresAre(orders: Orders, sessions: seq<Session>, sourceId: string, targetId: string, fates: nat -> Fate)
    requires Outcome(orders, sessions, sourceId, targetId, fates).1.Some?
    ensures var result := Outcome(orders, sessions, sourceId, targetId, fates).1.value;
            var list := Filter(sessions, Unpinned);
            var (from, to) := (IndexOfId(list, sourceId).value, IndexOfId(list, targetId).value);
            (result.saveError <==> exists w: nat :: w < |list| && !fates(w).Ok?) &&
            (result.saveError ==> exists moved, w :: IsMove(moved, list, from, to) && FailsThere(result.rollbackFailures, moved, fates, w))
  {
    hide Save, Rollback, Moved, Filter;
    var list := Filter(sessions, Unpinned);
    var (from, to) := (IndexOfId(list, sourceId).value, IndexOfId(list, targetId).value);
    var moved := Moved(list, from, to);
    MovedFacts(list, from, to);
    SaveFails(orders, moved, 0, fates, 0);
    var saved := Save(orders, moved, 0, fates, 0);
    if saved.failed {
      RollbackLists(saved.orders, moved, 0, fates, saved.writes);
      FailuresThere(Rollback(saved.orders, moved, 0, fates, saved.writes).failures, moved, fates, saved.writes - 1);
      assert IsMove(moved, list, from, to);
    }
  }

  lemma FailuresThere(failures: seq<string>, moved: seq<Session>, fates: nat -> Fate, w: nat)
    requires w < |moved| && !fates(w).Ok? && (forall k :: 0 <= k < w ==> fates(k).Ok?)
    requires ListedFrom(failures, moved, 0, fates, w + 1)
    ensures FailsThere(failures, moved, fates, w)
  {
    forall id ensures id in failures <==> exists i: nat :: i < |moved| && moved[i].id == id && !fates(w + 1 + i).Ok? {
      if id in failures {
        var k: nat :| FailsAt(moved, 0, fates, w + 1, k) && moved[k].id == id;
        assert !fates(w + 1 + k).Ok?;
      }
      if i: nat :| i < |moved| && moved[i].id == id && !fates(w + 1 + i).Ok? { assert FailsAt(moved, 0, fates, w + 1, i); }
    }
  }

  /** Whatever fails and however: without a result nothing is written, after an error every session whose stored order is
      not the old one is listed and none of these is pinned, and without one the group is shown with the source moved. */
  lemma ReorderOutcome(orders: Orders, sessions: seq<Session>, sourceId: string, targetId: string, fates: nat -> Fate)
    requires DistinctIds(sessions) && StoredAs(orders, sessions)
    ensures var (after, result) := Outcome(orders, sessions, sourceId, targetId, fates);
            var list := Filter(sessions, Unpinned);
            var (from, to) := (IndexOfId(list, sourceId), IndexOfId(list, targetId));
            (result.None? <==> from.None? || to.None? || sourceId == targetId) && (result.None? ==> after == orders) &&
            (result.Some? && result.value.saveError ==> forall s :: s in sessions ==>
              s.id in after && (after[s.id] == s.sortOrder || (s.id in result.value.rollbackFailures && !s.pinned))) &&
            (result.Some? && result.value.saveError ==> exists moved, w ::
              IsMove(moved, list, from.value, to.value) && FailsThere(result.value.rollbackFailures, moved, fates, w)) &&
            (result.Some? && !result.value.saveError ==>
              result.value.rollbackFailures == [] && ShowsMove(SortGroup(Map(Reloaded(after), sessions)), sessions, from.value, to.value))
  {
    hide Save, Rollback, Moved, ShowsMove, Filter, SortGroup, StableSort, DistinctIds, StoredAs;
    var list := Filter(sessions, Unpinned);
    var (from, to) := (IndexOfId(list, sourceId), IndexOfId(list, targetId));
    if from.Some? && to.Some? && from != to {
      var moved := Moved(list, from.value, to.value);
      var saved := Save(orders, moved, 0, fates, 0);
      FailuresAre(orders, sessions, sourceId, targetId, fates);
      if saved.failed {
        forall s | s in sessions
          ensures var back := Rollback(saved.orders, moved, 0, fates, saved.writes);
                  s.id in back.orders && (back.orders[s.id] == s.sortOrder || (s.id in back.failures && !s.pinned))
        { CompensationComplete(orders, sessions, from.value, to.value, fates, s); }
      } else {
        MoveShown(orders, sessions, from.value, to.value, fates);
      }
    }
  }
}
