/** What the branch rows are: a permutation of the catalog in preorder, whose roots agree with the upward walk. */
module BranchTheorems {
  import opened Options
  import opened Sessions
  import opened Branches

  // ----- Distinct ids -------------------------------------------------------------------------

  lemma SameId(ss: seq<Session>, a: Session, b: Session)
    requires DistinctIds(ss) && a in ss && b in ss && a.id == b.id
    ensures a == b
  {
    var i :| 0 <= i < |ss| && ss[i] == a;
    var j :| 0 <= j < |ss| && ss[j] == b;
  }

  lemma LookupIs(ss: seq<Session>, s: Session)
    requires DistinctIds(ss) && s in ss
    ensures Lookup(ss, s.id) == Some(s)
  {
    SameId(ss, Lookup(ss, s.id).value, s);
  }

  // ----- The shape of the rows ------------------------------------------------------------------

  /** Rows hanging under `parent`: each with its own subtree right behind it. */
  ghost predicate Forest(rows: seq<Row>, depth: nat, rootId: string, parent: Session)
    decreases |rows|
  {
    rows == [] ||
    (var r, c := rows[0], rows[0].descendantCount;
     r.depth == depth && r.rootId == rootId && !r.parentMissing &&
     Set(r.session.parentId) && r.session.parentId.value == parent.id && r.session.directory == parent.directory &&
     c < |rows| && Forest(rows[1..1 + c], depth + 1, rootId, r.session) && Forest(rows[1 + c..], depth, rootId, parent))
  }

  /** Whole trees, one behind the other. */
  ghost predicate Trees(rows: seq<Row>)
    decreases |rows|
  {
    rows == [] ||
    (var r, c := rows[0], rows[0].descendantCount;
     r.depth == 0 && r.rootId == r.session.id && (r.parentMissing <==> Set(r.session.parentId)) &&
     c < |rows| && Forest(rows[1..1 + c], 1, r.rootId, r.session) && Trees(rows[1 + c..]))
  }

  lemma SliceJoin(a: seq<Row>, b: seq<Row>, c: nat)
    requires c < |a|
    ensures (a + b)[0] == a[0] && (a + b)[1..1 + c] == a[1..1 + c] && (a + b)[1 + c..] == a[1 + c..] + b
  {
  }

  lemma SliceHead(row: Row, rest: seq<Row>)
    ensures ([row] + rest)[0] == row && ([row] + rest)[1..1 + |rest|] == rest && ([row] + rest)[1 + |rest|..] == []
  {
  }

  lemma {:induction false} ForestJoin(a: seq<Row>, b: seq<Row>, depth: nat, rootId: string, parent: Session)
    requires Forest(a, depth, rootId, parent) && Forest(b, depth, rootId, parent)
    ensures Forest(a + b, depth, rootId, parent)
    decreases |a|
  {
    if a == [] { assert a + b == b; }
    else {
      var c := a[0].descendantCount;
      ForestJoin(a[1 + c..], b, depth, rootId, parent);
      SliceJoin(a, b, c);
    }
  }

  lemma {:induction false} TreesJoin(a: seq<Row>, b: seq<Row>)
    requires Trees(a) && Trees(b)
    ensures Trees(a + b)
    decreases |a|
  {
    if a == [] { assert a + b == b; }
    else {
      var c := a[0].descendantCount;
      TreesJoin(a[1 + c..], b);
      SliceJoin(a, b, c);
    }
  }

  lemma ChildFacts(ss: seq<Session>, p: Session)
    requires DistinctIds(ss) && p in ss
    ensures forall s :: s in SortGroup(Children(ss, p.id)) <==> s in ss && Parent(ss, s) == Some(p)
  {
    ChildrenIn(ss, p.id);
    forall s | s in ss && Parent(ss, s).Some? && Parent(ss, s).value.id == p.id ensures Parent(ss, s).value == p {
      SameId(ss, Parent(ss, s).value, p);
    }
  }

  /** A row with the forest of its children is a forest of one tree. */
  lemma ForestTree(row: Row, kids: seq<Row>, depth: nat, rootId: string, parent: Session)
    requires row.depth == depth && row.rootId == rootId && !row.parentMissing && row.descendantCount == |kids|
    requires Set(row.session.parentId) && row.session.parentId.value == parent.id && row.session.directory == parent.directory
    requires Forest(kids, depth + 1, rootId, row.session)
    ensures Forest([row] + kids, depth, rootId, parent)
  {
    SliceHead(row, kids);
  }

  lemma {:induction false} AppendForest(ss: seq<Session>, visited: set<string>, s: Session, depth: nat,
                                        rootId: string, parent: Session)
    requires DistinctIds(ss) && s in ss && Parent(ss, s) == Some(parent)
    ensures Forest(Append(ss, visited, s, Under(depth, rootId)).rows, depth, rootId, parent)
    decreases Ids(ss) - visited, 0
  {
    if s.id !in visited {
      ChildFacts(ss, s);
      assert s.id in Ids(ss) - visited;
      var kids := SortGroup(Children(ss, s.id));
      AllForest(ss, visited + {s.id}, kids, depth + 1, rootId, s);
      var w := AppendAll(ss, visited + {s.id}, kids, Under(depth + 1, rootId));
      assert Append(ss, visited, s, Under(depth, rootId)).rows == [Head(s, Under(depth, rootId), |w.rows|)] + w.rows;
      hide Forest, AppendAll, Append, SortGroup, Children;
      ForestTree(Head(s, Under(depth, rootId), |w.rows|), w.rows, depth, rootId, parent);
    }
  }

  lemma {:induction false} AllForest(ss: seq<Session>, visited: set<string>, list: seq<Session>, depth: nat,
                                     rootId: string, parent: Session)
    requires DistinctIds(ss) && forall s :: s in list ==> s in ss && Parent(ss, s) == Some(parent)
    ensures Forest(AppendAll(ss, visited, list, Under(depth, rootId)).rows, depth, rootId, parent)
    decreases Ids(ss) - visited, |list|
  {
    if list != [] {
      AppendForest(ss, visited, list[0], depth, rootId, parent);
      var first := Append(ss, visited, list[0], Under(depth, rootId));
      assert Ids(ss) - first.visited <= Ids(ss) - visited;
      AllForest(ss, first.visited, list[1..], depth, rootId, parent);
      ForestJoin(first.rows, AppendAll(ss, first.visited, list[1..], Under(depth, rootId)).rows, depth, rootId, parent);
    }
  }

  lemma TopTree(ss: seq<Session>, visited: set<string>, s: Session, orphans: bool)
    requires DistinctIds(ss) && s in ss && (orphans ==> Set(s.parentId))
    ensures Trees(Append(ss, visited, s, Top(orphans)).rows)
  {
    if s.id !in visited {
      ChildFacts(ss, s);
      var kids := SortGroup(Children(ss, s.id));
      AllForest(ss, visited + {s.id}, kids, 1, s.id, s);
      var w := AppendAll(ss, visited + {s.id}, kids, Under(1, s.id));
      SliceHead(Head(s, Top(orphans), |w.rows|), w.rows);
    }
  }

  lemma {:induction false} TopTrees(ss: seq<Session>, visited: set<string>, list: seq<Session>, orphans: bool)
    requires DistinctIds(ss) && forall s :: s in list ==> s in ss && (orphans ==> Set(s.parentId))
    ensures Trees(AppendAll(ss, visited, list, Top(orphans)).rows)
    decreases list
  {
    if list != [] {
      TopTree(ss, visited, list[0], orphans);
      var first := Append(ss, visited, list[0], Top(orphans));
      TopTrees(ss, first.visited, list[1..], orphans);
      TreesJoin(first.rows, AppendAll(ss, first.visited, list[1..], Top(orphans)).rows);
    }
  }

  // ----- Every session is printed once --------------------------------------------------------------

  function RowIds(rows: seq<Row>): set<string> {
    set row | row in rows :: row.session.id
  }

  ghost predicate DistinctRows(rows: seq<Row>) {
    forall i, j :: 0 <= i < j < |rows| ==> rows[i].session.id != rows[j].session.id
  }

  /** The rows are new, distinct, and exactly what the walk adds to the visited set. */
  ghost predicate Books(ss: seq<Session>, visited: set<string>, w: Walk) {
    w.visited == visited + RowIds(w.rows) && RowIds(w.rows) !! visited && DistinctRows(w.rows) &&
    forall i :: 0 <= i < |w.rows| ==> w.rows[i].session in ss
  }

  lemma BooksJoin(ss: seq<Session>, visited: set<string>, a: Walk, b: Walk)
    requires Books(ss, visited, a) && Books(ss, a.visited, b)
    ensures Books(ss, visited, Walk(a.rows + b.rows, b.visited))
  {
    var all := a.rows + b.rows;
    assert RowIds(all) == RowIds(a.rows) + RowIds(b.rows);
    forall i, j | 0 <= i < j < |all| ensures all[i].session.id != all[j].session.id {
      if i < |a.rows| <= j {
        assert all[i] in a.rows && all[j] in b.rows;
        assert all[i].session.id in RowIds(a.rows) && all[j].session.id in RowIds(b.rows);
      }
    }
  }

  lemma BooksHead(ss: seq<Session>, visited: set<string>, row: Row, w: Walk)
    requires row.session in ss && row.session.id !in visited && Books(ss, visited + {row.session.id}, w)
    ensures Books(ss, visited, Walk([row] + w.rows, w.visited))
  {
    assert RowIds([row]) == {row.session.id} by { assert row in [row]; }
    BooksJoin(ss, visited, Walk([row], visited + {row.session.id}), w);
  }

  lemma {:induction false} AppendBooks(ss: seq<Session>, visited: set<string>, s: Session, level: Level)
    requires s in ss
    ensures Books(ss, visited, Append(ss, visited, s, level)) && s.id in Append(ss, visited, s, level).visited
    decreases Ids(ss) - visited, 0
  {
    if s.id !in visited {
      ChildrenIn(ss, s.id);
      assert s.id in Ids(ss) - visited;
      var kids := SortGroup(Children(ss, s.id));
      AllBooks(ss, visited + {s.id}, kids, Below(s, level));
      var w := AppendAll(ss, visited + {s.id}, kids, Below(s, level));
      BooksHead(ss, visited, Head(s, level, |w.rows|), w);
    }
  }

  lemma {:induction false} AllBooks(ss: seq<Session>, visited: set<string>, list: seq<Session>, level: Level)
    requires forall s :: s in list ==> s in ss
    ensures Books(ss, visited, AppendAll(ss, visited, list, level))
    ensures forall s :: s in list ==> s.id in AppendAll(ss, visited, list, level).visited
    decreases Ids(ss) - visited, |list|
  {
    if list != [] {
      AppendBooks(ss, visited, list[0], level);
      var first := Append(ss, visited, list[0], level);
      assert Ids(ss) - first.visited <= Ids(ss) - visited;
      AllBooks(ss, first.visited, list[1..], level);
      BooksJoin(ss, visited, first, AppendAll(ss, first.visited, list[1..], level));
    }
  }

  lemma RowsBooks(ss: seq<Session>)
    ensures Books(ss, {}, Walk(BranchRows(ss), OrphanWalk(ss).visited))
    ensures RowIds(BranchRows(ss)) == Ids(ss)
    ensures forall s :: s in ss && Parent(ss, s).None? ==> s.id in RootWalk(ss).visited
  {
    RootsIn(ss);
    LeftoverIn(ss);
    AllBooks(ss, {}, SortGroup(Roots(ss)), Top(false));
    AllBooks(ss, RootWalk(ss).visited, SortGroup(Leftover(ss)), Top(true));
    BooksJoin(ss, {}, RootWalk(ss), OrphanWalk(ss));
    forall id | id in Ids(ss) ensures id in OrphanWalk(ss).visited { var s :| s in ss && s.id == id; }
  }

  lemma RowsTrees(ss: seq<Session>)
    requires DistinctIds(ss)
    ensures Trees(RootWalk(ss).rows) && Trees(OrphanWalk(ss).rows) && Trees(BranchRows(ss))
  {
    RowsBooks(ss);
    RootsIn(ss);
    LeftoverIn(ss);
    TopTrees(ss, {}, SortGroup(Roots(ss)), false);
    TopTrees(ss, RootWalk(ss).visited, SortGroup(Leftover(ss)), true);
    TreesJoin(RootWalk(ss).rows, OrphanWalk(ss).rows);
  }

  function SessionsOf(rows: seq<Row>): (ss: seq<Session>)
    ensures |ss| == |rows| && forall i :: 0 <= i < |rows| ==> ss[i] == rows[i].session
  {
    seq(|rows|, i requires 0 <= i < |rows| => rows[i].session)
  }

  lemma {:induction false} SameElements<T>(a: seq<T>, b: seq<T>)
    requires (forall i, j :: 0 <= i < j < |a| ==> a[i] != a[j]) && forall i, j :: 0 <= i < j < |b| ==> b[i] != b[j]
    requires forall x :: x in a <==> x in b
    ensures multiset(a) == multiset(b)
  {
    forall x ensures multiset(a)[x] == multiset(b)[x] {
      Once(a, x);
      Once(b, x);
    }
  }

  lemma {:induction false} Once<T>(a: seq<T>, x: T)
    requires forall i, j :: 0 <= i < j < |a| ==> a[i] != a[j]
    ensures multiset(a)[x] == if x in a then 1 else 0
  {
    if a != [] {
      Once(a[1..], x);
      assert a == [a[0]] + a[1..];
    }
  }

  /** No session is lost and none is shown twice, whatever the parent relation. */
  lemma RowsArePermutation(ss: seq<Session>)
    requires DistinctIds(ss)
    ensures multiset(SessionsOf(BranchRows(ss))) == multiset(ss)
    ensures |BranchRows(ss)| == |ss|
  {
    RowsBooks(ss);
    var rows := BranchRows(ss);
    var printed := SessionsOf(rows);
    forall s | s in ss ensures s in printed {
      assert s.id in RowIds(rows);
      var i :| 0 <= i < |rows| && rows[i].session.id == s.id;
      SameId(ss, rows[i].session, s);
    }
    forall s | s in printed ensures s in ss { var i :| 0 <= i < |rows| && printed[i] == s; }
    SameElements(printed, ss);
    assert |multiset(printed)| == |multiset(ss)|;
  }
}
