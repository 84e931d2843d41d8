/** The downward walk and the upward walk agree on the root of every session whose ancestors end. */
module BranchRoots {
  import opened Options
  import opened Seqs
  import opened Sessions
  import opened Branches
  import opened BranchTheorems
  import opened BranchShape

  /** Going up from `s` ends after `n` steps at a session without a parent. */
  predicate EndsAt(ss: seq<Session>, s: Session, n: nat)
    decreases n
  {
    if n == 0 then Parent(ss, s).None? else Parent(ss, s).Some? && EndsAt(ss, Parent(ss, s).value, n - 1)
  }

  ghost predicate Acyclic(ss: seq<Session>, s: Session) {
    exists n :: EndsAt(ss, s, n)
  }

  function Ancestor(ss: seq<Session>, s: Session, n: nat): Session
    requires EndsAt(ss, s, n)
    decreases n
  {
    if n == 0 then s else Ancestor(ss, Parent(ss, s).value, n - 1)
  }

  lemma {:induction false} EndsOnce(ss: seq<Session>, s: Session, n: nat, k: nat)
    requires EndsAt(ss, s, n) && EndsAt(ss, s, k)
    ensures n == k
    decreases n
  {
    if n > 0 && k > 0 { EndsOnce(ss, Parent(ss, s).value, n - 1, k - 1); }
  }

  // ----- The downward walk reaches every such session in its first phase ------------------------------

  /** Everything below a printed session has been visited. */
  ghost predicate ReachesKids(ss: seq<Session>, w: Walk) {
    forall i, c :: 0 <= i < |w.rows| && c in ss && IsChild(ss, w.rows[i].session.id, c) ==> c.id in w.visited
  }

  lemma {:induction false} AppendReaches(ss: seq<Session>, visited: set<string>, s: Session, level: Level)
    requires s in ss
    ensures ReachesKids(ss, Append(ss, visited, s, level))
    decreases Ids(ss) - visited, 0
  {
    if s.id !in visited {
      ChildrenIn(ss, s.id);
      assert s.id in Ids(ss) - visited;
      var kids := SortGroup(Children(ss, s.id));
      AllReach(ss, visited + {s.id}, kids, Below(s, level));
      AllBooks(ss, visited + {s.id}, kids, Below(s, level));
    }
  }

  lemma {:induction false} AllReach(ss: seq<Session>, visited: set<string>, list: seq<Session>, level: Level)
    requires forall s :: s in list ==> s in ss
    ensures ReachesKids(ss, AppendAll(ss, visited, list, level))
    decreases Ids(ss) - visited, |list|
  {
    if list != [] {
      AppendReaches(ss, visited, list[0], level);
      var first := Append(ss, visited, list[0], level);
      assert Ids(ss) - first.visited <= Ids(ss) - visited;
      AllReach(ss, first.visited, list[1..], level);
    }
  }

  lemma {:induction false} EndingReached(ss: seq<Session>, s: Session, n: nat)
    requires s in ss && EndsAt(ss, s, n)
    ensures s.id in RootWalk(ss).visited
    decreases n
  {
    if n == 0 { RowsBooks(ss); }
    else {
      EndingReached(ss, Parent(ss, s).value, n - 1);
      ReachedBelow(ss, s);
    }
  }

  lemma ReachedBelow(ss: seq<Session>, s: Session)
    requires s in ss && Parent(ss, s).Some? && Parent(ss, s).value.id in RootWalk(ss).visited
    ensures s.id in RootWalk(ss).visited
  {
    RootsIn(ss);
    var roots, rows := SortGroup(Roots(ss)), RootWalk(ss).rows;
    AllBooks(ss, {}, roots, Top(false));
    AllReach(ss, {}, roots, Top(false));
    hide SortGroup, Roots, AppendAll, DistinctRows;
    var i :| 0 <= i < |rows| && rows[i].session.id == Parent(ss, s).value.id;
    assert IsChild(ss, rows[i].session.id, s);
  }

  // ----- Roots of rows -----------------------------------------------------------------------------------

  /** The top rows of the first phase are sessions without a parent. */
  lemma {:induction false} TopsAreRoots(ss: seq<Session>, visited: set<string>, list: seq<Session>)
    requires forall s :: s in list ==> s in ss && Parent(ss, s).None?
    ensures forall row :: row in AppendAll(ss, visited, list, Top(false)).rows && row.depth == 0 ==> Parent(ss, row.session).None?
    decreases list
  {
    if list != [] {
      var first := Append(ss, visited, list[0], Top(false));
      TopsAreRoots(ss, first.visited, list[1..]);
      if list[0].id !in visited {
        ChildrenIn(ss, list[0].id);
        var kids := SortGroup(Children(ss, list[0].id));
        DeepRows(ss, visited + {list[0].id}, kids, 1, list[0].id);
      }
    }
  }

  lemma {:induction false} DeepRows(ss: seq<Session>, visited: set<string>, list: seq<Session>, depth: nat,
                                    rootId: string)
    requires (forall s :: s in list ==> s in ss) && depth > 0
    ensures forall row :: row in AppendAll(ss, visited, list, Under(depth, rootId)).rows ==> row.depth >= depth
    decreases Ids(ss) - visited, |list|
  {
    if list != [] {
      var first := Append(ss, visited, list[0], Under(depth, rootId));
      assert Ids(ss) - first.visited <= Ids(ss) - visited;
      DeepRows(ss, first.visited, list[1..], depth, rootId);
      if list[0].id !in visited {
        ChildrenIn(ss, list[0].id);
        assert list[0].id in Ids(ss) - visited;
        DeepRows(ss, visited + {list[0].id}, SortGroup(Children(ss, list[0].id)), depth + 1, rootId);
      }
    }
  }

  predicate RowFor(rows: seq<Row>, i: nat, s: Session) {
    i < |rows| && rows[i].session == s
  }

  /** The row of a session whose ancestors end carries the id of the session they end at. */
  lemma {:induction false} RowRoot(ss: seq<Session>, s: Session, n: nat, i: nat)
    requires DistinctIds(ss) && EndsAt(ss, s, n) && RowFor(BranchRows(ss), i, s)
    ensures BranchRows(ss)[i].rootId == Ancestor(ss, s, n).id
    decreases n
  {
    if BranchRows(ss)[i].depth == 0 {
      if n > 0 { NotTop(ss, s, n, i); }
      RowsTrees(ss);
      TopOwnRoot(BranchRows(ss), i);
    } else {
      var k := AboveRow(ss, s, i);
      RowRoot(ss, BranchRows(ss)[k].session, n - 1, k);
    }
  }

  /** A row below the top stands under the row of its parent, in the same tree. */
  lemma AboveRow(ss: seq<Session>, s: Session, i: nat) returns (k: nat)
    requires DistinctIds(ss) && RowFor(BranchRows(ss), i, s) && BranchRows(ss)[i].depth > 0
    ensures k < i && Parent(ss, s) == Some(BranchRows(ss)[k].session) && BranchRows(ss)[k].rootId == BranchRows(ss)[i].rootId
  {
    var rows := BranchRows(ss);
    RowsBooks(ss);
    Preorder(ss, i);
    var j :| 0 <= j < i && NearestAbove(rows, i, j) && IsParent(rows[i], rows[j]);
    k := j;
    LookupIs(ss, rows[k].session);
  }

  lemma {:induction false} TopOwnRoot(rows: seq<Row>, i: nat)
    requires Trees(rows) && i < |rows| && rows[i].depth == 0
    ensures rows[i].rootId == rows[i].session.id
    decreases |rows|
  {
    if i > 0 {
      Pieces(rows, i);
      ForestDepth(Kids(rows), 1, rows[0].rootId, rows[0].session);
      TopOwnRoot(Rest(rows), i - 1 - rows[0].descendantCount);
    }
  }

  lemma NotTop(ss: seq<Session>, s: Session, n: nat, i: nat)
    requires DistinctIds(ss) && EndsAt(ss, s, n) && n > 0 && RowFor(BranchRows(ss), i, s)
    ensures BranchRows(ss)[i].depth > 0
  {
    var early := RootWalk(ss).rows;
    RowsBooks(ss);
    RootsIn(ss);
    AllBooks(ss, {}, SortGroup(Roots(ss)), Top(false));
    EndingReached(ss, s, n);
    var k :| 0 <= k < |early| && early[k].session.id == s.id;
    assert BranchRows(ss)[k] == early[k];
    assert i == k;
    TopsAreRoots(ss, {}, SortGroup(Roots(ss)));
    assert early[k] in early;
  }

  // ----- The upward walk -------------------------------------------------------------------------------------

  /** Looking a session up among those of one directory is looking it up among all and checking the directory. */
  lemma DirectoryLookup(ss: seq<Session>, s: Session)
    requires DistinctIds(ss)
    ensures var dir := InDirectory(ss, s.directory);
            Parent(ss, s) == if Set(s.parentId) then Lookup(dir, s.parentId.value) else None
  {
    var dir := InDirectory(ss, s.directory);
    FilterMembers(ss, Within(s.directory));
    if Set(s.parentId) {
      var p := Lookup(ss, s.parentId.value);
      if p.Some? && p.value.directory == s.directory {
        assert p.value in dir;
        SameId(ss, Lookup(dir, s.parentId.value).value, p.value);
      } else if Lookup(dir, s.parentId.value).Some? {
        SameId(ss, Lookup(dir, s.parentId.value).value, p.value);
      }
    }
  }

  /** Everything in `seen` is further from the end of the walk than `current`. */
  ghost predicate Behind(ss: seq<Session>, directory: string, seen: set<string>, n: nat) {
    forall id :: id in seen ==> exists t, k :: t in ss && t.id == id && t.directory == directory && k >= n && EndsAt(ss, t, k)
  }

  lemma {:induction false} ClimbEnds(ss: seq<Session>, start: Session, current: Session, seen: set<string>, n: nat)
    requires DistinctIds(ss) && current in ss && EndsAt(ss, current, n) && Behind(ss, current.directory, seen, n)
    ensures Climb(InDirectory(ss, current.directory), start, current, seen) == Ancestor(ss, current, n).id
    decreases n
  {
    DirectoryLookup(ss, current);
    if n == 0 {
      if Set(current.parentId) && current.parentId.value in seen {
        var t, k :| t in ss && t.id == current.parentId.value && t.directory == current.directory && k >= n && EndsAt(ss, t, k);
        LookupIs(ss, t);
      }
    } else {
      var p := Parent(ss, current).value;
      NotBehind(ss, current.directory, seen, n, p);
      BehindNext(ss, current.directory, seen, n, p);
      ClimbEnds(ss, start, p, seen + {p.id}, n - 1);
    }
  }

  lemma NotBehind(ss: seq<Session>, directory: string, seen: set<string>, n: nat, p: Session)
    requires DistinctIds(ss) && n > 0 && Behind(ss, directory, seen, n) && p in ss && EndsAt(ss, p, n - 1)
    ensures p.id !in seen
  {
    if p.id in seen {
      var t, k :| t in ss && t.id == p.id && t.directory == directory && k >= n && EndsAt(ss, t, k);
      SameId(ss, t, p);
      EndsOnce(ss, p, k, n - 1);
    }
  }

  lemma BehindNext(ss: seq<Session>, directory: string, seen: set<string>, n: nat, p: Session)
    requires n > 0 && Behind(ss, directory, seen, n) && p in ss && p.directory == directory && EndsAt(ss, p, n - 1)
    ensures Behind(ss, directory, seen + {p.id}, n - 1)
  {
    forall id | id in seen + {p.id}
      ensures exists t, k :: t in ss && t.id == id && t.directory == directory && k >= n - 1 && EndsAt(ss, t, k)
    {
      if id in seen {
        var t, k :| t in ss && t.id == id && t.directory == directory && k >= n && EndsAt(ss, t, k);
      }
    }
  }

  lemma UpwardRoot(ss: seq<Session>, s: Session, n: nat)
    requires DistinctIds(ss) && s in ss && !Set(s.branchRootId) && EndsAt(ss, s, n)
    ensures BranchRootId(ss, s) == Ancestor(ss, s, n).id
  {
    assert Behind(ss, s.directory, {s.id}, n);
    ClimbEnds(ss, s, s, {s.id}, n);
  }

  /** Both walks find the same root for a session without a stored root whose chain of parents ends. */
  lemma RootsAgree(ss: seq<Session>, s: Session, i: nat)
    requires DistinctIds(ss) && s in ss && s.branchRootId.GetOr("") == "" && Acyclic(ss, s) && RowFor(BranchRows(ss), i, s)
    ensures BranchRows(ss)[i].rootId == BranchRootId(ss, s)
  {
    var n :| EndsAt(ss, s, n);
    RowRoot(ss, s, n, i);
    UpwardRoot(ss, s, n);
  }

  // ----- Families ------------------------------------------------------------------------------------------------

  lemma SameRootInDirectory(ss: seq<Session>, c: Session, directory: string)
    requires c.directory == directory
    ensures BranchRootId(InDirectory(ss, directory), c) == BranchRootId(ss, c)
  {
    FilterTwice(ss, Within(directory), Within(directory));
  }

  /** The rows of a tree are the rows with its root id. */
  lemma TreeBlock(ss: seq<Session>, j: nat, k: nat)
    requires DistinctIds(ss) && j < |BranchRows(ss)| && k < |BranchRows(ss)| && BranchRows(ss)[j].depth == 0
    ensures var rows := BranchRows(ss);
            (j <= k <= j + rows[j].descendantCount <==> rows[k].rootId == rows[j].rootId) &&
            (j <= k <= j + rows[j].descendantCount ==> rows[k].session.directory == rows[j].session.directory)
  {
    var rows := BranchRows(ss);
    RowsBooks(ss);
    RowsTrees(ss);
    Preorder(ss, j);
    Preorder(ss, k);
    TopOwnRoot(rows, j);
    var t :| TreeOf(rows, k, t);
    Preorder(ss, t);
    if j <= k <= j + rows[j].descendantCount || rows[k].rootId == rows[j].rootId { assert t == j; }
  }

  /** In this directory every row carries the root the upward walk names. */
  ghost predicate RowsAgree(ss: seq<Session>, directory: string) {
    forall c, k: nat :: c in ss && c.directory == directory && RowFor(BranchRows(ss), k, c) ==>
      BranchRows(ss)[k].rootId == BranchRootId(ss, c)
  }

  /** A stored root is the session the chain of parents ends at. */
  ghost predicate StoredRight(ss: seq<Session>, c: Session) {
    forall n :: EndsAt(ss, c, n) && c.branchRootId.GetOr("") != "" ==> c.branchRootId.value == Ancestor(ss, c, n).id
  }

  /** Every chain of parents ends, and every stored root is where it ends. */
  ghost predicate WellRooted(ss: seq<Session>, directory: string) {
    forall c :: c in ss && c.directory == directory ==> Acyclic(ss, c) && StoredRight(ss, c)
  }

  /** With a chain of parents that ends, the walks agree exactly when no root is stored or the right one is. */
  lemma StoredRootAgrees(ss: seq<Session>, s: Session, n: nat, i: nat)
    requires DistinctIds(ss) && s in ss && EndsAt(ss, s, n) && RowFor(BranchRows(ss), i, s)
    ensures BranchRows(ss)[i].rootId == BranchRootId(ss, s) <==>
      !Set(s.branchRootId) || s.branchRootId.value == Ancestor(ss, s, n).id
  {
    RowRoot(ss, s, n, i);
    if !Set(s.branchRootId) { UpwardRoot(ss, s, n); }
  }

  lemma StoredRightAt(ss: seq<Session>, c: Session, n: nat)
    requires EndsAt(ss, c, n)
    ensures StoredRight(ss, c) <==> !Set(c.branchRootId) || c.branchRootId.value == Ancestor(ss, c, n).id
  {
    forall k | EndsAt(ss, c, k) ensures k == n { EndsOnce(ss, c, k, n); }
  }

  /** Where every chain of parents ends, the walks agree exactly when every stored root is the session its chain ends at. */
  lemma RowsAgreeExactly(ss: seq<Session>, directory: string)
    requires DistinctIds(ss) && forall c :: c in ss && c.directory == directory ==> Acyclic(ss, c)
    ensures RowsAgree(ss, directory) <==> WellRooted(ss, directory)
  {
    forall c, k: nat | c in ss && c.directory == directory && RowFor(BranchRows(ss), k, c)
      ensures BranchRows(ss)[k].rootId == BranchRootId(ss, c) <==> StoredRight(ss, c)
    {
      var n :| EndsAt(ss, c, n);
      StoredRootAgrees(ss, c, n, k);
      StoredRightAt(ss, c, n);
    }
    forall c | c in ss && c.directory == directory ensures exists k: nat :: RowFor(BranchRows(ss), k, c) {
      var k := RowExists(ss, c);
    }
    hide StoredRight, BranchRows, BranchRootId, Acyclic, DistinctIds;
  }

  predicate InBlock(rows: seq<Row>, j: nat, k: nat, c: Session) {
    j < |rows| && j <= k <= j + rows[j].descendantCount && k < |rows| && rows[k].session == c
  }

  lemma FamilyMembers(ss: seq<Session>, s: Session, c: Session)
    ensures c in BranchFamily(ss, s) <==> c in ss && c.directory == s.directory && BranchRootId(ss, c) == BranchRootId(ss, s)
  {
    var dir := InDirectory(ss, s.directory);
    FilterMembers(ss, Within(s.directory));
    FilterMembers(dir, SharesRoot(dir, BranchRootId(dir, s)));
    SameRootInDirectory(ss, s, s.directory);
    if c.directory == s.directory { SameRootInDirectory(ss, c, s.directory); }
  }

  lemma RowExists(ss: seq<Session>, s: Session) returns (i: nat)
    requires DistinctIds(ss) && s in ss
    ensures RowFor(BranchRows(ss), i, s)
  {
    RowsBooks(ss);
    var rows := BranchRows(ss);
    assert s.id in RowIds(rows);
    var k :| 0 <= k < |rows| && rows[k].session.id == s.id;
    SameId(ss, rows[k].session, s);
    i := k;
  }

  lemma FamilyMember(ss: seq<Session>, s: Session, i: nat, j: nat, c: Session)
    requires DistinctIds(ss) && s in ss && RowsAgree(ss, s.directory) && RowFor(BranchRows(ss), i, s) && TreeOf(BranchRows(ss), i, j)
    ensures c in BranchFamily(ss, s) <==> exists k: nat :: InBlock(BranchRows(ss), j, k, c)
  {
    var rows := BranchRows(ss);
    RowsBooks(ss);
    FamilyMembers(ss, s, c);
    if c in ss && c.directory == s.directory {
      var k := RowExists(ss, c);
      TreeBlock(ss, j, k);
      assert c in BranchFamily(ss, s) ==> InBlock(rows, j, k, c);
    }
    forall k: nat | InBlock(rows, j, k, c) ensures c in BranchFamily(ss, s) {
      TreeBlock(ss, j, k);
    }
  }

  lemma {:induction false} FilterDistinct(ss: seq<Session>, p: Session -> bool)
    requires DistinctIds(ss)
    ensures DistinctIds(Filter(ss, p))
  {
    if ss != [] {
      FilterDistinct(ss[1..], p);
      FilterMembers(ss[1..], p);
      var rest := Filter(ss[1..], p);
      forall i | 0 <= i < |rest| ensures rest[i].id != ss[0].id { assert rest[i] in rest; }
    }
  }

  /** Where the walks agree throughout a directory, a family is exactly the block of rows of its root. */
  lemma FamilyIsBlock(ss: seq<Session>, s: Session, i: nat, j: nat)
    requires DistinctIds(ss) && s in ss && RowsAgree(ss, s.directory) && RowFor(BranchRows(ss), i, s) && TreeOf(BranchRows(ss), i, j)
    ensures forall c :: c in BranchFamily(ss, s) <==> exists k: nat :: InBlock(BranchRows(ss), j, k, c)
    ensures |BranchFamily(ss, s)| == BranchRows(ss)[j].descendantCount + 1
  {
    var rows := BranchRows(ss);
    RowsBooks(ss);
    Preorder(ss, j);
    forall c ensures c in BranchFamily(ss, s) <==> exists k: nat :: InBlock(rows, j, k, c) { FamilyMember(ss, s, i, j, c); }
    var dir := InDirectory(ss, s.directory);
    FilterDistinct(ss, Within(s.directory));
    FilterDistinct(dir, SharesRoot(dir, BranchRootId(dir, s)));
    BlockSize(rows, j, BranchFamily(ss, s));
  }

  /** In particular where every chain of parents ends and every stored root is the session it ends at. */
  lemma WellRootedFamily(ss: seq<Session>, s: Session, i: nat, j: nat)
    requires DistinctIds(ss) && s in ss && WellRooted(ss, s.directory) && RowFor(BranchRows(ss), i, s) && TreeOf(BranchRows(ss), i, j)
    ensures forall c :: c in BranchFamily(ss, s) <==> exists k: nat :: InBlock(BranchRows(ss), j, k, c)
    ensures |BranchFamily(ss, s)| == BranchRows(ss)[j].descendantCount + 1
  {
    RowsAgreeExactly(ss, s.directory);
    FamilyIsBlock(ss, s, i, j);
  }

  lemma BlockSize(rows: seq<Row>, j: nat, family: seq<Session>)
    requires DistinctIds(family) && RunExact(rows, j) && DistinctRows(rows)
    requires forall c :: c in family <==> exists k: nat :: InBlock(rows, j, k, c)
    ensures |family| == rows[j].descendantCount + 1
  {
    var n := rows[j].descendantCount + 1;
    var block := SessionsOf(rows[j..j + n]);
    forall c | c in block ensures c in family { var k :| 0 <= k < |block| && block[k] == c; assert InBlock(rows, j, j + k, c); }
    forall c | c in family ensures c in block { var k: nat :| InBlock(rows, j, k, c); assert block[k - j] == c; }
    SameElements(family, block);
    assert |multiset(family)| == |multiset(block)|;
  }

  // ----- Sessions whose ancestors run in a cycle -------------------------------------------------------------------

  /** Going up a chain that never ends comes back to where it started, and the code falls back to the session itself. */
  lemma {:induction false} ClimbCycles(ss: seq<Session>, start: Session, current: Session, seen: set<string>)
    requires DistinctIds(ss) && !Acyclic(ss, current)
    ensures Climb(InDirectory(ss, current.directory), start, current, seen) == start.id
    decreases Ids(InDirectory(ss, current.directory)) - seen
  {
    var dir := InDirectory(ss, current.directory);
    DirectoryLookup(ss, current);
    assert EndsAt(ss, current, 0) <==> Parent(ss, current).None?;
    var p := Parent(ss, current).value;
    assert forall n: nat :: EndsAt(ss, p, n) ==> EndsAt(ss, current, n + 1);
    if p.id !in seen {
      assert p.id in Ids(dir) - seen;
      ClimbCycles(ss, start, p, seen + {p.id});
    }
  }

  /** Going up `n` steps from `s` leads to `t`. */
  predicate Leads(ss: seq<Session>, s: Session, t: Session, n: nat)
    decreases n
  {
    if n == 0 then s == t else Parent(ss, s).Some? && Leads(ss, Parent(ss, s).value, t, n - 1)
  }

  /** `t` is `s` or an ancestor of it. */
  ghost predicate Above(ss: seq<Session>, t: Session, s: Session) {
    exists n :: Leads(ss, s, t, n)
  }

  lemma {:induction false} LeadsOn(ss: seq<Session>, s: Session, t: Session, n: nat)
    requires Leads(ss, s, t, n) && Parent(ss, t).Some?
    ensures Leads(ss, s, Parent(ss, t).value, n + 1)
    decreases n
  {
    if n > 0 { LeadsOn(ss, Parent(ss, s).value, t, n - 1); }
    else { assert Leads(ss, Parent(ss, s).value, Parent(ss, t).value, 0); }
  }

  lemma {:induction false} LeadsToEnd(ss: seq<Session>, s: Session, t: Session, n: nat)
    requires Leads(ss, s, t, n) && Parent(ss, t).None?
    ensures EndsAt(ss, s, n)
    decreases n
  {
    if n > 0 { LeadsToEnd(ss, Parent(ss, s).value, t, n - 1); }
  }

  lemma AboveParent(ss: seq<Session>, t: Session, s: Session)
    requires Parent(ss, t).Some? && Above(ss, t, s)
    ensures Above(ss, Parent(ss, t).value, s)
  {
    var n :| Leads(ss, s, t, n);
    LeadsOn(ss, s, t, n);
  }

  lemma AboveSelf(ss: seq<Session>, s: Session)
    ensures Above(ss, s, s)
  {
    assert Leads(ss, s, s, 0);
  }

  /** A walk prints nothing but the sessions it is given and what lies below them. */
  lemma {:induction false} AppendBelow(ss: seq<Session>, visited: set<string>, s: Session, level: Level)
    requires DistinctIds(ss) && s in ss
    ensures forall row :: row in Append(ss, visited, s, level).rows ==> Above(ss, s, row.session)
    decreases Ids(ss) - visited, 0
  {
    AboveSelf(ss, s);
    if s.id !in visited {
      ChildFacts(ss, s);
      assert s.id in Ids(ss) - visited;
      var kids := SortGroup(Children(ss, s.id));
      AllBelow(ss, visited + {s.id}, kids, Below(s, level));
      var rows := AppendAll(ss, visited + {s.id}, kids, Below(s, level)).rows;
      assert Append(ss, visited, s, level).rows == [Head(s, level, |rows|)] + rows;
      hide *;
      forall row | row in rows ensures Above(ss, s, row.session) {
        var c :| c in kids && Above(ss, c, row.session);
        AboveParent(ss, c, row.session);
      }
    }
  }

  lemma {:induction false} AllBelow(ss: seq<Session>, visited: set<string>, list: seq<Session>, level: Level)
    requires DistinctIds(ss) && forall s :: s in list ==> s in ss
    ensures forall row :: row in AppendAll(ss, visited, list, level).rows ==> exists s :: s in list && Above(ss, s, row.session)
    decreases Ids(ss) - visited, |list|
  {
    if list != [] {
      AppendBelow(ss, visited, list[0], level);
      var first := Append(ss, visited, list[0], level);
      assert Ids(ss) - first.visited <= Ids(ss) - visited;
      AllBelow(ss, first.visited, list[1..], level);
      assert AppendAll(ss, visited, list, level).rows == first.rows + AppendAll(ss, first.visited, list[1..], level).rows;
      hide *;
      assert list[0] in list && forall s :: s in list[1..] ==> s in list;
    }
  }

  /** Everything below a visited session has been visited. */
  ghost predicate Closed(ss: seq<Session>, visited: set<string>) {
    forall c :: c in ss && Parent(ss, c).Some? && Parent(ss, c).value.id in visited ==> c.id in visited
  }

  lemma ClosedAfter(ss: seq<Session>, visited: set<string>, w: Walk)
    requires Closed(ss, visited) && Books(ss, visited, w) && ReachesKids(ss, w) && visited <= w.visited
    ensures Closed(ss, w.visited)
  {
    forall c | c in ss && Parent(ss, c).Some? && Parent(ss, c).value.id in w.visited ensures c.id in w.visited {
      if Parent(ss, c).value.id !in visited {
        var i :| 0 <= i < |w.rows| && w.rows[i].session.id == Parent(ss, c).value.id;
        assert IsChild(ss, w.rows[i].session.id, c);
      }
    }
  }

  lemma {:induction false} ClosedBelow(ss: seq<Session>, visited: set<string>, t: Session, s: Session, n: nat)
    requires Closed(ss, visited) && s in ss && t.id in visited && Leads(ss, s, t, n)
    ensures s.id in visited
    decreases n
  {
    if n > 0 { ClosedBelow(ss, visited, t, Parent(ss, s).value, n - 1); }
  }

  /** `s` is in the list, and none of its ancestors stands before it. */
  ghost predicate FirstOfLine(ss: seq<Session>, list: seq<Session>, s: Session) {
    exists k :: 0 <= k < |list| && list[k] == s && forall m :: 0 <= m < k ==> !Above(ss, list[m], s)
  }

  lemma FirstOfRest(ss: seq<Session>, list: seq<Session>, s: Session)
    requires list != [] && s != list[0]
    ensures FirstOfLine(ss, list, s) <==> !Above(ss, list[0], s) && FirstOfLine(ss, list[1..], s)
  {
    hide Above;
    if FirstOfLine(ss, list, s) {
      var k :| 0 <= k < |list| && list[k] == s && forall m :: 0 <= m < k ==> !Above(ss, list[m], s);
      assert list[1..][k - 1] == s;
    }
    if !Above(ss, list[0], s) && FirstOfLine(ss, list[1..], s) {
      var k :| 0 <= k < |list[1..]| && list[1..][k] == s && forall m :: 0 <= m < k ==> !Above(ss, list[1..][m], s);
      assert list[k + 1] == s && forall m :: 0 <= m < k + 1 ==> !Above(ss, list[m], s);
    }
  }

  /** The rows of one tree: its root at the top, and the rest below. */
  lemma TreeTop(ss: seq<Session>, visited: set<string>, x: Session, orphans: bool, i: nat)
    requires DistinctIds(ss) && x in ss && x.id !in visited && i < |Append(ss, visited, x, Top(orphans)).rows|
    ensures var row := Append(ss, visited, x, Top(orphans)).rows[i];
            Above(ss, x, row.session) && (row.depth == 0 <==> i == 0) && (i == 0 <==> row.session == x)
  {
    var w, rows := Append(ss, visited, x, Top(orphans)), Append(ss, visited, x, Top(orphans)).rows;
    AppendBelow(ss, visited, x, Top(orphans));
    AppendBooks(ss, visited, x, Top(orphans));
    TreeRows(ss, visited, x, orphans);
    hide *;
    assert rows[i] in rows && DistinctRows(rows) by { assert Books(ss, visited, w); hide *; BooksRows(ss, visited, w); }
    if i > 0 { DistinctHead(rows, i); }
  }

  lemma BooksRows(ss: seq<Session>, visited: set<string>, w: Walk)
    requires Books(ss, visited, w)
    ensures DistinctRows(w.rows)
  {
  }

  lemma DistinctHead(rows: seq<Row>, i: nat)
    requires DistinctRows(rows) && 0 < i < |rows|
    ensures rows[i].session.id != rows[0].session.id
  {
  }

  lemma TreeRows(ss: seq<Session>, visited: set<string>, x: Session, orphans: bool)
    requires x in ss && x.id !in visited
    ensures var rows := Append(ss, visited, x, Top(orphans)).rows;
            rows != [] && rows[0].session == x && rows[0].depth == 0 && forall k :: 0 < k < |rows| ==> rows[k].depth > 0
  {
    ChildrenIn(ss, x.id);
    var kids := SortGroup(Children(ss, x.id));
    DeepRows(ss, visited + {x.id}, kids, 1, x.id);
    var below := AppendAll(ss, visited + {x.id}, kids, Under(1, x.id)).rows;
    assert Append(ss, visited, x, Top(orphans)).rows == [Head(x, Top(orphans), |below|)] + below;
    assert forall k :: 0 <= k < |below| ==> below[k] in below;
    hide Append, AppendAll, SortGroup, Children;
  }

  lemma LaterTree(ss: seq<Session>, visited: set<string>, x: Session, orphans: bool, s: Session)
    requires DistinctIds(ss) && x in ss && s in ss && Closed(ss, visited)
    requires s.id !in Append(ss, visited, x, Top(orphans)).visited
    ensures !Above(ss, x, s) && s != x && Closed(ss, Append(ss, visited, x, Top(orphans)).visited)
  {
    var w := Append(ss, visited, x, Top(orphans));
    AppendBooks(ss, visited, x, Top(orphans));
    AppendReaches(ss, visited, x, Top(orphans));
    ClosedAfter(ss, visited, w);
    forall n | Leads(ss, s, x, n) ensures false { ClosedBelow(ss, w.visited, x, s, n); }
  }

  /** Where a walk puts a session at the top. */
  lemma {:induction false} TopExactly(ss: seq<Session>, visited: set<string>, list: seq<Session>, orphans: bool, s: Session, i: nat)
    requires DistinctIds(ss) && (forall t :: t in list ==> t in ss) && s in ss && Closed(ss, visited)
    requires RowFor(AppendAll(ss, visited, list, Top(orphans)).rows, i, s)
    ensures AppendAll(ss, visited, list, Top(orphans)).rows[i].depth == 0 <==> FirstOfLine(ss, list, s)
    decreases list
  {
    var x := list[0];
    var first := Append(ss, visited, x, Top(orphans));
    var rest := AppendAll(ss, first.visited, list[1..], Top(orphans));
    var rows := AppendAll(ss, visited, list, Top(orphans)).rows;
    assert rows == first.rows + rest.rows && (first.rows != [] ==> x.id !in visited) && rows[i].session == s;
    assert i >= |first.rows| ==> RowFor(rest.rows, i - |first.rows|, s);
    hide *;
    At(first.rows, rest.rows, i);
    if i < |first.rows| {
      TreeTop(ss, visited, x, orphans, i);
      if s == x { FirstIsFirst(ss, list); } else { FirstOfRest(ss, list, s); }
    } else {
      RowNew(ss, first.visited, list[1..], Top(orphans), i - |first.rows|);
      LaterTree(ss, visited, x, orphans, s);
      TopExactly(ss, first.visited, list[1..], orphans, s, i - |first.rows|);
      FirstOfRest(ss, list, s);
    }
  }

  lemma RowNew(ss: seq<Session>, visited: set<string>, list: seq<Session>, level: Level, i: nat)
    requires (forall s :: s in list ==> s in ss) && i < |AppendAll(ss, visited, list, level).rows|
    ensures AppendAll(ss, visited, list, level).rows[i].session.id !in visited
  {
    AllBooks(ss, visited, list, level);
    var w := AppendAll(ss, visited, list, level);
    assert w.rows[i] in w.rows && w.rows[i].session.id in RowIds(w.rows);
    hide AppendAll;
  }

  lemma FirstIsFirst(ss: seq<Session>, list: seq<Session>)
    requires list != []
    ensures FirstOfLine(ss, list, list[0])
  {
  }

  /** The first phase prints exactly the sessions whose ancestors end. */
  lemma LeftoverEndless(ss: seq<Session>, s: Session)
    requires DistinctIds(ss) && s in ss
    ensures s in Leftover(ss) <==> !Acyclic(ss, s)
    ensures s.id in RootWalk(ss).visited <==> Acyclic(ss, s)
  {
    FilterMembers(ss, Outside(RootWalk(ss).visited));
    RootsIn(ss);
    var roots := SortGroup(Roots(ss));
    if Acyclic(ss, s) {
      var n :| EndsAt(ss, s, n);
      EndingReached(ss, s, n);
    }
    if s.id in RootWalk(ss).visited {
      AllBooks(ss, {}, roots, Top(false));
      AllBelow(ss, {}, roots, Top(false));
      var rows := RootWalk(ss).rows;
      hide AppendAll, SortGroup, Roots, RootWalk;
      var row :| row in rows && row.session.id == s.id;
      SameId(ss, row.session, s);
      var t :| t in roots && Above(ss, t, s);
      var n :| Leads(ss, s, t, n);
      LeadsToEnd(ss, s, t, n);
    }
  }

  lemma FirstPhaseClosed(ss: seq<Session>)
    ensures Closed(ss, RootWalk(ss).visited)
  {
    RootsIn(ss);
    AllBooks(ss, {}, SortGroup(Roots(ss)), Top(false));
    AllReach(ss, {}, SortGroup(Roots(ss)), Top(false));
    ClosedAfter(ss, {}, RootWalk(ss));
  }

  /** A session whose ancestors never end is shown at the top exactly when none of them comes before it in the group order. */
  lemma EndlessOnTop(ss: seq<Session>, s: Session, i: nat)
    requires DistinctIds(ss) && s in ss && !Acyclic(ss, s) && RowFor(BranchRows(ss), i, s)
    ensures BranchRows(ss)[i].depth == 0 <==> FirstOfLine(ss, SortGroup(Leftover(ss)), s)
  {
    hide *;
    FirstPhaseClosed(ss);
    SecondPhase(ss);
    SecondPhaseRow(ss, s, i);
    TopExactly(ss, RootWalk(ss).visited, SortGroup(Leftover(ss)), true, s, i - |RootWalk(ss).rows|);
  }

  lemma SecondPhase(ss: seq<Session>)
    ensures forall s :: s in SortGroup(Leftover(ss)) ==> s in ss
    ensures OrphanWalk(ss) == AppendAll(ss, RootWalk(ss).visited, SortGroup(Leftover(ss)), Top(true))
  {
    LeftoverIn(ss);
    hide AppendAll, RootWalk, SortGroup, Leftover;
  }

  lemma SecondPhaseRow(ss: seq<Session>, s: Session, i: nat)
    requires DistinctIds(ss) && !Acyclic(ss, s) && RowFor(BranchRows(ss), i, s)
    ensures var early := |RootWalk(ss).rows|;
            early <= i && RowFor(OrphanWalk(ss).rows, i - early, s) && OrphanWalk(ss).rows[i - early] == BranchRows(ss)[i]
  {
    var early, late := RootWalk(ss).rows, OrphanWalk(ss).rows;
    TwoPhasesOf(ss);
    RowIs(BranchRows(ss), i, s);
    At(early, late, i);
    hide *;
    assert |early| <= i by { if i < |early| { FirstPhaseEnds(ss, i); } }
    RowIs(late, i - |early|, s);
  }

  lemma TwoPhasesOf(ss: seq<Session>)
    ensures BranchRows(ss) == RootWalk(ss).rows + OrphanWalk(ss).rows
  {
  }

  lemma RowIs(rows: seq<Row>, i: nat, s: Session)
    ensures RowFor(rows, i, s) <==> i < |rows| && rows[i].session == s
  {
  }

  lemma FirstPhaseEnds(ss: seq<Session>, i: nat)
    requires DistinctIds(ss) && i < |RootWalk(ss).rows|
    ensures Acyclic(ss, RootWalk(ss).rows[i].session)
  {
    RootsIn(ss);
    AllBooks(ss, {}, SortGroup(Roots(ss)), Top(false));
    var row := RootWalk(ss).rows[i];
    assert row in RootWalk(ss).rows && row.session.id in RowIds(RootWalk(ss).rows);
    LeftoverEndless(ss, row.session);
    hide Acyclic, AppendAll, SortGroup, Roots;
  }

  /** A row carries the id of its own session exactly at the top. */
  lemma OwnRootOnTop(ss: seq<Session>, i: nat)
    requires DistinctIds(ss) && i < |BranchRows(ss)|
    ensures BranchRows(ss)[i].rootId == BranchRows(ss)[i].session.id <==> BranchRows(ss)[i].depth == 0
  {
    RowsBooks(ss);
    RowsTrees(ss);
    Preorder(ss, i);
    var rows := BranchRows(ss);
    assert DistinctRows(rows) && exists j :: TreeOf(rows, i, j);
    hide *;
    var j :| TreeOf(rows, i, j);
    if rows[i].depth == 0 { TopOwnRoot(rows, i); }
    TreeOwn(rows, i, j);
  }

  lemma TreeOwn(rows: seq<Row>, i: nat, j: nat)
    requires DistinctRows(rows) && TreeOf(rows, i, j)
    ensures rows[i].rootId == rows[i].session.id ==> rows[i].depth == 0
  {
  }

  /** Without a stored root the two walks agree exactly on the sessions whose ancestors end, and on those of which no
      ancestor comes before them among the sorted sessions that are left. */
  lemma RootsAgreeExactly(ss: seq<Session>, s: Session, i: nat)
    requires DistinctIds(ss) && s in ss && s.branchRootId.GetOr("") == "" && RowFor(BranchRows(ss), i, s)
    ensures BranchRows(ss)[i].rootId == BranchRootId(ss, s) <==>
      Acyclic(ss, s) || FirstOfLine(ss, SortGroup(Leftover(ss)), s)
  {
    if Acyclic(ss, s) { RootsAgree(ss, s, i); }
    else {
      ClimbCycles(ss, s, s, {s.id});
      assert BranchRootId(ss, s) == s.id;
      hide *;
      EndlessOnTop(ss, s, i);
      OwnRootOnTop(ss, i);
    }
  }
}
