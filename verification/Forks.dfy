/** How the catalog grows and shrinks: sessions that are created, forked (crates/kxen-core/src/core/session/fork.rs)
    and deleted, and what becomes of the branch families. */
module Forks {
  import opened Options
  import opened Sessions
  import opened Branches
  import opened BranchTheorems
  import opened BranchShape
  import opened BranchRoots

  /** The loop of `branch_root_id` in the backend. */
  function ClimbForFork(ss: seq<Session>, current: Session, seen: set<string>): string
    decreases Ids(ss) - seen
  {
    if !Set(current.parentId) || current.parentId.value in seen then current.id
    else
      var next := Lookup(ss, current.parentId.value);
      if next.None? then current.parentId.value
      else
        assert next.value.id in Ids(ss) - seen;
        ClimbForFork(ss, next.value, seen + {next.value.id})
  }

  /** The root a fork of `source` is stored with. */
  function ForkRoot(ss: seq<Session>, source: Session): string {
    if source.branchRootId.Some? then source.branchRootId.value else ClimbForFork(ss, source, {source.id})
  }

  method BranchRootIdForFork(ss: seq<Session>, parent: Session) returns (rootId: string)
    ensures rootId == ForkRoot(ss, parent)
  {
    if parent.branchRootId.Some? { return parent.branchRootId.value; }
    var current, seen := parent, {parent.id};
    while Set(current.parentId)
      invariant ClimbForFork(ss, current, seen) == ForkRoot(ss, parent)
      decreases Ids(ss) - seen
    {
      var parentId := current.parentId.value;
      if parentId in seen { break; }
      seen := seen + {parentId};
      var next := Lookup(ss, parentId);
      if next.None? { return parentId; }
      assert parentId in Ids(ss);
      current := next.value;
    }
    return current.id;
  }

  datatype Change = Create(session: Session) | Fork(session: Session, source: Session) | Delete(session: Session)

  predicate IsNew(ss: seq<Session>, s: Session) {
    s.id != "" && s.id !in Ids(ss)
  }

  predicate Allowed(ss: seq<Session>, c: Change) {
    match c
    case Create(s) => IsNew(ss, s) && s.parentId.None? && s.branchRootId.None?
    case Fork(s, source) =>
      IsNew(ss, s) && source in ss && s.directory == source.directory && s.parentId == Some(source.id) &&
      s.branchRootId == Some(ForkRoot(ss, source))
    case Delete(s) => s in ss
  }

  function Other(id: string): Session -> bool {
    (s: Session) => s.id != id
  }

  function Without(ss: seq<Session>, s: Session): seq<Session> {
    Filter(ss, Other(s.id))
  }

  function Apply(ss: seq<Session>, c: Change): seq<Session> {
    match c
    case Create(s) => ss + [s]
    case Fork(s, _) => ss + [s]
    case Delete(s) => Without(ss, s)
  }

  /** Nobody was forked from a session that is deleted. */
  ghost predicate LeavesNoOrphan(ss: seq<Session>, c: Change) {
    c.Delete? ==> forall t :: t in ss ==> !IsChild(ss, c.session.id, t)
  }

  /** The parent is there, the chain of parents ends, and a stored root is the session it ends at. */
  ghost predicate Placed(ss: seq<Session>, s: Session) {
    s.id != "" && (s.parentId.Some? ==> Parent(ss, s).Some?) && (s.branchRootId.Some? ==> Set(s.branchRootId)) &&
    Acyclic(ss, s) && StoredRight(ss, s)
  }

  ghost predicate Whole(ss: seq<Session>) {
    DistinctIds(ss) && forall s :: s in ss ==> Placed(ss, s)
  }

  // ----- Looking up in a catalog that has changed ------------------------------------------------------

  /** A chain of parents is the same in two catalogs in which every session on it has the same parent. */
  ghost predicate SameParents(ss: seq<Session>, tt: seq<Session>) {
    forall s :: s in ss && s in tt ==> Parent(tt, s) == Parent(ss, s) && (Parent(ss, s).Some? ==> Parent(ss, s).value in tt)
  }

  lemma {:induction false} SameEnd(ss: seq<Session>, tt: seq<Session>, s: Session, n: nat)
    requires SameParents(ss, tt) && s in ss && s in tt
    ensures EndsAt(ss, s, n) <==> EndsAt(tt, s, n)
    ensures EndsAt(ss, s, n) ==> Ancestor(tt, s, n) == Ancestor(ss, s, n)
    decreases n
  {
    if n > 0 && Parent(ss, s).Some? { SameEnd(ss, tt, Parent(ss, s).value, n - 1); }
  }

  lemma StaysPlaced(ss: seq<Session>, tt: seq<Session>, s: Session)
    requires SameParents(ss, tt) && s in ss && s in tt && Placed(ss, s)
    ensures Placed(tt, s)
  {
    var n :| EndsAt(ss, s, n);
    SameEnd(ss, tt, s, n);
    StoredRightAt(ss, s, n);
    StoredRightAt(tt, s, n);
  }

  lemma GrownDistinct(ss: seq<Session>, s: Session)
    requires DistinctIds(ss) && IsNew(ss, s)
    ensures DistinctIds(ss + [s])
  {
    forall i | 0 <= i < |ss| ensures ss[i].id != s.id { assert ss[i].id in Ids(ss); }
  }

  lemma LookupGrown(ss: seq<Session>, s: Session, id: string)
    requires id != s.id
    ensures Lookup(ss + [s], id) == Lookup(ss, id)
  {
    assert (ss + [s])[..|ss|] == ss;
  }

  lemma GrownSameParents(ss: seq<Session>, s: Session)
    requires Whole(ss) && IsNew(ss, s)
    ensures SameParents(ss, ss + [s])
  {
    forall t | t in ss && t in ss + [s]
      ensures Parent(ss + [s], t) == Parent(ss, t) && (Parent(ss, t).Some? ==> Parent(ss, t).value in ss + [s])
    {
      assert Placed(ss, t);
      if Set(t.parentId) { LookupGrown(ss, s, t.parentId.value); }
    }
  }

  /** On the way up nothing has been met that is still ahead, so the backend's loop ends where the chain ends. */
  lemma {:induction false} ClimbForForkEnds(ss: seq<Session>, current: Session, seen: set<string>, n: nat)
    requires Whole(ss) && current in ss && EndsAt(ss, current, n) && Behind(ss, current.directory, seen, n)
    ensures ClimbForFork(ss, current, seen) == Ancestor(ss, current, n).id
    decreases n
  {
    assert Placed(ss, current);
    if n > 0 {
      var p := Parent(ss, current).value;
      NotBehind(ss, current.directory, seen, n, p);
      BehindNext(ss, current.directory, seen, n, p);
      ClimbForForkEnds(ss, p, seen + {p.id}, n - 1);
    }
  }

  lemma ForkRootIs(ss: seq<Session>, source: Session, n: nat)
    requires Whole(ss) && source in ss && EndsAt(ss, source, n)
    ensures ForkRoot(ss, source) == Ancestor(ss, source, n).id
  {
    assert Placed(ss, source);
    if source.branchRootId.None? {
      assert Behind(ss, source.directory, {source.id}, n);
      ClimbForForkEnds(ss, source, {source.id}, n);
    }
  }

  lemma {:induction false} AncestorIn(ss: seq<Session>, s: Session, n: nat)
    requires s in ss && EndsAt(ss, s, n)
    ensures Ancestor(ss, s, n) in ss && Parent(ss, Ancestor(ss, s, n)).None?
    decreases n
  {
    if n > 0 { AncestorIn(ss, Parent(ss, s).value, n - 1); }
  }

  lemma CreatedPlaced(ss: seq<Session>, s: Session)
    requires IsNew(ss, s) && s.parentId.None? && s.branchRootId.None?
    ensures Placed(ss + [s], s)
  {
    assert EndsAt(ss + [s], s, 0);
  }

  /** A fork stands one step behind its source. */
  lemma ForkEnds(ss: seq<Session>, s: Session, source: Session, n: nat)
    requires Whole(ss) && Allowed(ss, Fork(s, source)) && EndsAt(ss, source, n)
    ensures Parent(ss + [s], s) == Some(source)
    ensures EndsAt(ss + [s], s, n + 1) && Ancestor(ss + [s], s, n + 1) == Ancestor(ss, source, n)
  {
    assert Placed(ss, source) && source.id in Ids(ss);
    GrownSameParents(ss, s);
    SameEnd(ss, ss + [s], source, n);
    LookupGrown(ss, s, source.id);
    LookupIs(ss, source);
    hide Whole, Placed, SameParents, Lookup;
  }

  lemma ForkedPlaced(ss: seq<Session>, s: Session, source: Session)
    requires Whole(ss) && Allowed(ss, Fork(s, source))
    ensures Placed(ss + [s], s)
  {
    assert Placed(ss, source);
    var n: nat :| EndsAt(ss, source, n);
    ForkEnds(ss, s, source, n);
    ForkRootIs(ss, source, n);
    AncestorIn(ss, source, n);
    assert Placed(ss, Ancestor(ss, source, n));
    StoredRightAt(ss + [s], s, n + 1);
    hide Whole, ForkRoot, Ancestor, EndsAt, StoredRight, Parent;
  }

  lemma LookupWithout(ss: seq<Session>, s: Session, id: string)
    requires DistinctIds(ss) && s in ss && id != s.id
    ensures Lookup(Without(ss, s), id) == Lookup(ss, id)
  {
    var tt := Without(ss, s);
    FilterMembers(ss, Other(s.id));
    FilterDistinct(ss, Other(s.id));
    assert Ids(tt) <= Ids(ss);
    if Lookup(ss, id).Some? { LookupIs(tt, Lookup(ss, id).value); }
  }

  lemma ShrunkSameParents(ss: seq<Session>, s: Session)
    requires Whole(ss) && s in ss && LeavesNoOrphan(ss, Delete(s))
    ensures SameParents(ss, Without(ss, s))
  {
    var tt := Without(ss, s);
    FilterMembers(ss, Other(s.id));
    forall t | t in ss && t in tt ensures Parent(tt, t) == Parent(ss, t) && (Parent(ss, t).Some? ==> Parent(ss, t).value in tt) {
      assert Placed(ss, t);
      if t.parentId.Some? {
        assert !IsChild(ss, s.id, t);
        LookupWithout(ss, s, t.parentId.value);
      }
    }
  }

  /** Creating, forking and deleting what nobody was forked from keep every session placed. */
  lemma ChangeKeepsWhole(ss: seq<Session>, c: Change)
    requires Whole(ss) && Allowed(ss, c) && LeavesNoOrphan(ss, c)
    ensures Whole(Apply(ss, c))
  {
    var tt := Apply(ss, c);
    match c {
      case Create(s) => { GrownDistinct(ss, s); GrownSameParents(ss, s); CreatedPlaced(ss, s); }
      case Fork(s, source) => { GrownDistinct(ss, s); GrownSameParents(ss, s); ForkedPlaced(ss, s, source); }
      case Delete(s) => { FilterMembers(ss, Other(s.id)); FilterDistinct(ss, Other(s.id)); ShrunkSameParents(ss, s); }
    }
    hide Placed, SameParents, DistinctIds, Filter;
    forall t | t in tt ensures Placed(tt, t) {
      if t in ss { StaysPlaced(ss, tt, t); }
    }
  }

  // ----- Theorems ---------------------------------------------------------------------------------------

  ghost predicate Legal(ss: seq<Session>, changes: seq<Change>)
    decreases changes
  {
    changes != [] ==>
      Allowed(ss, changes[0]) && LeavesNoOrphan(ss, changes[0]) && Legal(Apply(ss, changes[0]), changes[1..])
  }

  function Catalog(ss: seq<Session>, changes: seq<Change>): seq<Session>
    decreases changes
  {
    if changes == [] then ss else Catalog(Apply(ss, changes[0]), changes[1..])
  }

  lemma {:induction false} CatalogWhole(ss: seq<Session>, changes: seq<Change>)
    requires Whole(ss) && Legal(ss, changes)
    ensures Whole(Catalog(ss, changes))
    decreases changes
  {
    if changes != [] {
      ChangeKeepsWhole(ss, changes[0]);
      hide Whole, Allowed, LeavesNoOrphan, Apply;
      CatalogWhole(Apply(ss, changes[0]), changes[1..]);
    }
  }

  lemma WholeAgrees(ss: seq<Session>, directory: string)
    requires Whole(ss)
    ensures WellRooted(ss, directory) && RowsAgree(ss, directory)
  {
    forall c | c in ss && c.directory == directory ensures Acyclic(ss, c) && StoredRight(ss, c) { assert Placed(ss, c); }
    RowsAgreeExactly(ss, directory);
  }

  /** In every catalog made by creating, forking and deleting sessions nobody was forked from, stored roots included, both
      walks agree on every row, and every family is the block of rows of its root. */
  lemma FamiliesAreBlocks(changes: seq<Change>, s: Session, i: nat, j: nat)
    requires Legal([], changes) && s in Catalog([], changes)
    requires RowFor(BranchRows(Catalog([], changes)), i, s) && TreeOf(BranchRows(Catalog([], changes)), i, j)
    ensures var ss := Catalog([], changes);
            RowsAgree(ss, s.directory) &&
            (forall c :: c in BranchFamily(ss, s) <==> exists k: nat :: InBlock(BranchRows(ss), j, k, c)) &&
            |BranchFamily(ss, s)| == BranchRows(ss)[j].descendantCount + 1
  {
    var ss := Catalog([], changes);
    CatalogWhole([], changes);
    WholeAgrees(ss, s.directory);
    FamilyIsBlock(ss, s, i, j);
  }

  /** Deleting a session whose forks all carry a stored root keeps the walks in agreement exactly when it has no fork. */
  lemma DeletionExactly(ss: seq<Session>, s: Session)
    requires Whole(ss) && s in ss && forall c :: c in ss && IsChild(ss, s.id, c) ==> Set(c.branchRootId)
    ensures (forall directory :: RowsAgree(Without(ss, s), directory)) <==> LeavesNoOrphan(ss, Delete(s))
  {
    var tt := Without(ss, s);
    if LeavesNoOrphan(ss, Delete(s)) {
      ChangeKeepsWhole(ss, Delete(s));
      forall directory ensures RowsAgree(tt, directory) { WholeAgrees(tt, directory); }
    } else {
      var c :| c in ss && IsChild(ss, s.id, c);
      OrphanDisagrees(ss, s, c);
    }
  }

  lemma Apart(ss: seq<Session>, a: Session, b: Session)
    requires DistinctIds(ss) && a in ss && b in ss && a != b
    ensures a.id != b.id
  {
    var i :| 0 <= i < |ss| && ss[i] == a;
    var j :| 0 <= j < |ss| && ss[j] == b;
    assert i != j;
  }

  lemma EndsApart(ss: seq<Session>, a: Session, n: nat, b: Session, k: nat)
    requires EndsAt(ss, a, n) && EndsAt(ss, b, k) && n != k
    ensures a != b
  {
    if a == b { EndsOnce(ss, a, n, k); }
  }

  /** What is left of a fork's place when the session it was forked from is deleted. */
  lemma OrphanEnds(ss: seq<Session>, s: Session, c: Session)
    requires Whole(ss) && s in ss && c in ss && IsChild(ss, s.id, c)
    ensures DistinctIds(Without(ss, s)) && c in Without(ss, s) && Parent(Without(ss, s), c).None?
  {
    var tt, p := Without(ss, s), Parent(ss, c).value;
    FilterMembers(ss, Other(s.id));
    FilterDistinct(ss, Other(s.id));
    assert Placed(ss, c);
    var n: nat :| EndsAt(ss, c, n);
    EndsApart(ss, c, n, p, n - 1);
    Apart(ss, c, p);
    assert s.id !in Ids(tt);
  }

  /** A fork of a deleted session is shown at the top under its own id, and its stored root names another. */
  lemma OrphanDisagrees(ss: seq<Session>, s: Session, c: Session)
    requires Whole(ss) && s in ss && c in ss && IsChild(ss, s.id, c) && Set(c.branchRootId)
    ensures !RowsAgree(Without(ss, s), c.directory)
  {
    var tt := Without(ss, s);
    OrphanEnds(ss, s, c);
    assert Placed(ss, c);
    var n: nat :| EndsAt(ss, c, n);
    AncestorIn(ss, c, n);
    StoredRightAt(ss, c, n);
    Apart(ss, Ancestor(ss, c, n), c);
    assert EndsAt(tt, c, 0) && Ancestor(tt, c, 0) == c;
    var k := RowExists(tt, c);
    StoredRootAgrees(tt, c, 0, k);
  }
}
