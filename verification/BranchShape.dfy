/** Row by row: subtree counts, parents, roots, and the collapsed list. */
module BranchShape {
  import opened Sessions
  import opened Branches
  import opened BranchTheorems

  /** `descendantCount` is the length of the maximal following run of deeper rows. */
  ghost predicate RunExact(rows: seq<Row>, i: nat) {
    i < |rows| && var c := rows[i].descendantCount;
    i + c < |rows| && (forall k :: i < k <= i + c ==> rows[k].depth > rows[i].depth) &&
    (i + c + 1 < |rows| ==> rows[i + c + 1].depth <= rows[i].depth)
  }

  /** Row `j` is the nearest earlier row one level above row `i`. */
  ghost predicate NearestAbove(rows: seq<Row>, i: nat, j: nat) {
    j < i < |rows| && rows[j].depth + 1 == rows[i].depth && forall k :: j < k < i ==> rows[k].depth >= rows[i].depth
  }

  predicate IsParent(child: Row, parent: Row) {
    child.session.parentId.Some? && child.session.parentId.value == parent.session.id && parent.session.id != "" &&
    child.session.directory == parent.session.directory && child.rootId == parent.rootId
  }

  ghost predicate UnderParent(rows: seq<Row>, i: nat) {
    i < |rows| && exists j :: 0 <= j < i && NearestAbove(rows, i, j) && IsParent(rows[i], rows[j])
  }

  lemma {:induction false} ForestDepth(rows: seq<Row>, depth: nat, rootId: string, parent: Session)
    requires Forest(rows, depth, rootId, parent)
    ensures forall i :: 0 <= i < |rows| ==> rows[i].depth >= depth && rows[i].rootId == rootId && !rows[i].parentMissing
    decreases |rows|
  {
    if rows != [] {
      var c := rows[0].descendantCount;
      ForestDepth(rows[1..1 + c], depth + 1, rootId, rows[0].session);
      ForestDepth(rows[1 + c..], depth, rootId, parent);
      hide Forest;
      forall i | 0 <= i < |rows| ensures rows[i].depth >= depth && rows[i].rootId == rootId && !rows[i].parentMissing {
        if 0 < i <= c { assert rows[i] == rows[1..1 + c][i - 1]; }
        if c < i { assert rows[i] == rows[1 + c..][i - 1 - c]; }
      }
    }
  }

  /** Facts about a row survive when more rows are put around the stretch it lies in. */
  lemma RunShift(a: seq<Row>, part: seq<Row>, b: seq<Row>, i: nat)
    requires RunExact(part, i) && (b != [] && i + part[i].descendantCount + 1 == |part| ==> b[0].depth <= part[i].depth)
    ensures RunExact(a + part + b, |a| + i)
  {
    var rows, c := a + part + b, part[i].descendantCount;
    forall k | |a| + i < k <= |a| + i + c ensures rows[k].depth > part[i].depth { assert part[k - |a|] == rows[k]; }
    assert i + c + 1 < |part| ==> rows[|a| + i + c + 1] == part[i + c + 1];
  }

  lemma AboveShift(a: seq<Row>, part: seq<Row>, b: seq<Row>, i: nat)
    requires UnderParent(part, i)
    ensures UnderParent(a + part + b, |a| + i)
  {
    var rows := a + part + b;
    var j :| 0 <= j < i && NearestAbove(part, i, j) && IsParent(part[i], part[j]);
    forall k | |a| + j < k < |a| + i ensures rows[k].depth >= part[i].depth { assert part[k - |a|] == rows[k]; }
    assert NearestAbove(rows, |a| + i, |a| + j) && IsParent(rows[|a| + i], rows[|a| + j]);
  }

  ghost predicate Deeper(rows: seq<Row>, depth: nat) {
    forall k :: 0 <= k < |rows| ==> rows[k].depth > depth
  }

  lemma HeadRun(head: Row, kids: seq<Row>, rest: seq<Row>)
    requires head.descendantCount == |kids| && Deeper(kids, head.depth) && (rest != [] ==> rest[0].depth <= head.depth)
    ensures RunExact([head] + kids + rest, 0)
  {
    var rows := [head] + kids + rest;
    forall k | 0 < k <= |kids| ensures rows[k].depth > head.depth { assert rows[k] == kids[k - 1]; }
    assert rest != [] ==> rows[1 + |kids|] == rest[0];
  }

  lemma KidUnder(head: Row, kids: seq<Row>, rest: seq<Row>, i: nat)
    requires Deeper(kids, head.depth) && i < |kids| && kids[i].depth == head.depth + 1 && IsParent(kids[i], head)
    ensures UnderParent([head] + kids + rest, 1 + i)
  {
    var rows := [head] + kids + rest;
    forall k | 0 < k < 1 + i ensures rows[k].depth >= kids[i].depth { assert rows[k] == kids[k - 1]; }
    assert rows[1 + i] == kids[i] && NearestAbove(rows, 1 + i, 0) && IsParent(rows[1 + i], rows[0]);
  }

  function Kids(rows: seq<Row>): seq<Row>
    requires rows != [] && rows[0].descendantCount < |rows|
  {
    rows[1..1 + rows[0].descendantCount]
  }

  function Rest(rows: seq<Row>): seq<Row>
    requires rows != [] && rows[0].descendantCount < |rows|
  {
    rows[1 + rows[0].descendantCount..]
  }

  /** A row of a forest is its head, a row of the head's subtree or a row behind it. */
  lemma Pieces(rows: seq<Row>, i: nat)
    requires rows != [] && rows[0].descendantCount < |rows| && i < |rows|
    ensures var c := rows[0].descendantCount;
            rows == [rows[0]] + Kids(rows) + Rest(rows) && |Kids(rows)| == c && |Rest(rows)| == |rows| - 1 - c &&
            (0 < i <= c ==> rows[i] == Kids(rows)[i - 1]) && (c < i ==> rows[i] == Rest(rows)[i - 1 - c])
  {
  }

  /** A row of the forest hangs under `parent`, or under an earlier row of the forest. */
  ghost predicate Hangs(rows: seq<Row>, i: nat, depth: nat, rootId: string, parent: Session) {
    i < |rows| && RunExact(rows, i) &&
    if rows[i].depth == depth then
      Set(rows[i].session.parentId) && rows[i].session.parentId.value == parent.id && rows[i].session.directory == parent.directory
    else UnderParent(rows, i)
  }

  lemma KidHangs(rows: seq<Row>, i: nat, depth: nat, rootId: string, parent: Session)
    requires rows != [] && rows[0].descendantCount < |rows| && rows[0].depth == depth && rows[0].rootId == rootId
    requires Deeper(Kids(rows), depth) && (Rest(rows) != [] ==> Rest(rows)[0].depth == depth)
    requires 0 < i <= rows[0].descendantCount && Kids(rows)[i - 1].rootId == rootId
    requires Hangs(Kids(rows), i - 1, depth + 1, rootId, rows[0].session)
    ensures Hangs(rows, i, depth, rootId, parent) && UnderParent(rows, i)
  {
    Pieces(rows, i);
    RunShift([rows[0]], Kids(rows), Rest(rows), i - 1);
    hide Kids, Rest, RunExact, NearestAbove;
    if rows[i].depth == depth + 1 { KidUnder(rows[0], Kids(rows), Rest(rows), i - 1); }
    else { AboveShift([rows[0]], Kids(rows), Rest(rows), i - 1); }
  }

  lemma RestHangs(rows: seq<Row>, i: nat, depth: nat, rootId: string, parent: Session)
    requires rows != [] && rows[0].descendantCount < i < |rows|
    requires Hangs(Rest(rows), i - 1 - rows[0].descendantCount, depth, rootId, parent)
    ensures Hangs(rows, i, depth, rootId, parent)
  {
    Pieces(rows, i);
    var front, k := [rows[0]] + Kids(rows), i - 1 - rows[0].descendantCount;
    assert rows == front + Rest(rows) + [];
    RunShift(front, Rest(rows), [], k);
    if rows[i].depth != depth { AboveShift(front, Rest(rows), [], k); }
  }

  lemma {:induction false} ForestRow(rows: seq<Row>, depth: nat, rootId: string, parent: Session, i: nat)
    requires Forest(rows, depth, rootId, parent) && i < |rows|
    ensures Hangs(rows, i, depth, rootId, parent)
    decreases |rows|
  {
    hide *;
    ForestParts(rows, depth, rootId, parent);
    Pieces(rows, i);
    if i == 0 { HeadHangs(rows, depth, rootId, parent); }
    else if i <= rows[0].descendantCount {
      ForestRow(Kids(rows), depth + 1, rootId, rows[0].session, i - 1);
      KidHangs(rows, i, depth, rootId, parent);
    } else {
      ForestRow(Rest(rows), depth, rootId, parent, i - 1 - rows[0].descendantCount);
      RestHangs(rows, i, depth, rootId, parent);
    }
  }

  lemma ForestParts(rows: seq<Row>, depth: nat, rootId: string, parent: Session)
    requires Forest(rows, depth, rootId, parent) && rows != []
    ensures rows[0].descendantCount < |rows| && rows[0].depth == depth && rows[0].rootId == rootId
    ensures Forest(Kids(rows), depth + 1, rootId, rows[0].session) && Forest(Rest(rows), depth, rootId, parent)
    ensures Deeper(Kids(rows), depth) && forall k :: 0 <= k < |Kids(rows)| ==> Kids(rows)[k].rootId == rootId
    ensures Rest(rows) != [] ==> Rest(rows)[0].depth == depth
  {
    ForestDepth(Kids(rows), depth + 1, rootId, rows[0].session);
  }

  lemma HeadHangs(rows: seq<Row>, depth: nat, rootId: string, parent: Session)
    requires Forest(rows, depth, rootId, parent) && rows != []
    ensures Hangs(rows, 0, depth, rootId, parent)
  {
    ForestParts(rows, depth, rootId, parent);
    Pieces(rows, 0);
    HeadRun(rows[0], Kids(rows), Rest(rows));
    hide Kids, Rest, RunExact, Deeper;
  }

  /** Row `j` starts the tree of row `i`. */
  ghost predicate TreeOf(rows: seq<Row>, i: nat, j: nat) {
    j <= i < |rows| && rows[j].depth == 0 && rows[j].session.id == rows[j].rootId == rows[i].rootId &&
    rows[i].session.directory == rows[j].session.directory && i <= j + rows[j].descendantCount
  }

  ghost predicate RowOk(rows: seq<Row>, i: nat) {
    i < |rows| && RunExact(rows, i) && (rows[i].depth > 0 ==> UnderParent(rows, i)) &&
    (rows[i].parentMissing <==> rows[i].depth == 0 && rows[i].session.parentId.GetOr("") != "") && exists j :: TreeOf(rows, i, j)
  }

  lemma {:induction false} ForestDirectory(rows: seq<Row>, depth: nat, rootId: string, parent: Session)
    requires Forest(rows, depth, rootId, parent)
    ensures forall i :: 0 <= i < |rows| ==> rows[i].session.directory == parent.directory
    decreases |rows|
  {
    if rows != [] {
      var c := rows[0].descendantCount;
      ForestDirectory(rows[1..1 + c], depth + 1, rootId, rows[0].session);
      ForestDirectory(rows[1 + c..], depth, rootId, parent);
      assert rows == [rows[0]] + rows[1..1 + c] + rows[1 + c..];
    }
  }

  lemma TreeFacts(rows: seq<Row>)
    requires Trees(rows) && rows != []
    ensures rows[0].depth == 0 && rows[0].rootId == rows[0].session.id && rows[0].descendantCount < |rows|
    ensures rows[0].parentMissing <==> rows[0].session.parentId.GetOr("") != ""
    ensures Forest(Kids(rows), 1, rows[0].rootId, rows[0].session) && (Rest(rows) != [] ==> Rest(rows)[0].depth == 0)
  {
    hide Forest;
  }

  lemma FirstTree(rows: seq<Row>, i: nat)
    requires Trees(rows) && rows != [] && i <= rows[0].descendantCount
    ensures RowOk(rows, i)
  {
    hide Forest, Trees, Kids, Rest;
    var root := rows[0];
    TreeFacts(rows);
    ForestDepth(Kids(rows), 1, root.rootId, root.session);
    ForestDirectory(Kids(rows), 1, root.rootId, root.session);
    Pieces(rows, i);
    assert TreeOf(rows, i, 0);
    if i == 0 { HeadRun(root, Kids(rows), Rest(rows)); }
    else {
      ForestRow(Kids(rows), 1, root.rootId, root.session, i - 1);
      hide RunExact, UnderParent, NearestAbove, TreeOf;
      KidHangs(rows, i, 0, root.rootId, root.session);
    }
  }

  lemma RestOk(rows: seq<Row>, i: nat)
    requires rows != [] && rows[0].descendantCount < i < |rows| && RowOk(Rest(rows), i - 1 - rows[0].descendantCount)
    ensures RowOk(rows, i)
  {
    Pieces(rows, i);
    var front, k := [rows[0]] + Kids(rows), i - 1 - rows[0].descendantCount;
    assert rows == front + Rest(rows) + [];
    RunShift(front, Rest(rows), [], k);
    if rows[i].depth > 0 { AboveShift(front, Rest(rows), [], k); }
    var j :| TreeOf(Rest(rows), k, j);
    assert TreeOf(rows, i, |front| + j);
  }

  lemma {:induction false} TreesRow(rows: seq<Row>, i: nat)
    requires Trees(rows) && i < |rows|
    ensures RowOk(rows, i)
    decreases |rows|
  {
    if i <= rows[0].descendantCount { FirstTree(rows, i); }
    else {
      TreesRow(Rest(rows), i - 1 - rows[0].descendantCount);
      RestOk(rows, i);
    }
  }

  /** The rows are a preorder: counts, parents, missing parents and roots are right at every row. */
  lemma Preorder(ss: seq<Session>, i: nat)
    requires DistinctIds(ss) && i < |BranchRows(ss)|
    ensures RowOk(BranchRows(ss), i)
  {
    RowsTrees(ss);
    TreesRow(BranchRows(ss), i);
  }

  // ----- The collapsed list -------------------------------------------------------------------------

  /** Where the `n`-th whole tree ends. */
  function Cut(rows: seq<Row>, n: nat): (end: nat)
    ensures end <= |rows|
    decreases |rows|
  {
    if rows == [] || n == 0 then 0
    else if rows[0].descendantCount < |rows| then 1 + rows[0].descendantCount + Cut(Rest(rows), n - 1)
    else |rows|
  }

  function FirstTreeRows(rows: seq<Row>): seq<Row>
    requires rows != [] && rows[0].descendantCount < |rows|
  {
    [rows[0]] + Kids(rows)
  }

  lemma TreePieces(rows: seq<Row>)
    requires Trees(rows) && rows != []
    ensures rows[0].descendantCount < |rows| && |Rest(rows)| < |rows|
    ensures rows[0].rootId == rows[0].session.id && Trees(Rest(rows))
    ensures rows == FirstTreeRows(rows) + Rest(rows)
    ensures TopRows(rows) == [rows[0]] + TopRows(Rest(rows)) && TopRows(FirstTreeRows(rows)) == [rows[0]]
    ensures forall row :: row in FirstTreeRows(rows) ==> row.rootId == rows[0].rootId
  {
    var root, kids, rest := rows[0], Kids(rows), Rest(rows);
    ForestDepth(kids, 1, root.rootId, root.session);
    Pieces(rows, 0);
    assert Filter([root], IsTop) == [root];
    hide Forest, Trees, Filter, Kids, Rest;
    FilterAppend([root], kids, IsTop);
    FilterNone(kids, IsTop);
    FilterAppend([root] + kids, rest, IsTop);
  }

  lemma CutPieces(rows: seq<Row>, n: nat)
    requires rows != [] && rows[0].descendantCount < |rows| && n > 0
    ensures rows[..Cut(rows, n)] == FirstTreeRows(rows) + Rest(rows)[..Cut(Rest(rows), n - 1)]
    ensures Cut(rows, n) < |rows| ==> Cut(Rest(rows), n - 1) < |Rest(rows)| && rows[Cut(rows, n)] == Rest(rows)[Cut(Rest(rows), n - 1)]
  {
  }

  lemma CutNone(rows: seq<Row>, n: nat)
    requires Trees(rows) && (rows == [] || n == 0)
    ensures Cut(rows, n) == 0 && rows[..Cut(rows, n)] == [] && TopRows([]) == []
    ensures rows != [] ==> rows[0].depth == 0 && |TopRows(rows)| > 0
  {
    if rows != [] { TreePieces(rows); }
  }

  /** The cut falls between two trees, behind `n` of them. */
  lemma {:induction false} CutFacts(rows: seq<Row>, n: nat)
    requires Trees(rows)
    ensures Cut(rows, n) < |rows| ==> rows[Cut(rows, n)].depth == 0
    ensures |TopRows(rows[..Cut(rows, n)])| == if n < |TopRows(rows)| then n else |TopRows(rows)|
    decreases |rows|
  {
    hide Forest, Filter, FirstTreeRows, Cut, Trees, Kids, Rest;
    if rows == [] || n == 0 { CutNone(rows, n); }
    else {
      TreePieces(rows);
      CutFacts(Rest(rows), n - 1);
      CutPieces(rows, n);
      FilterAppend(FirstTreeRows(rows), Rest(rows)[..Cut(Rest(rows), n - 1)], IsTop);
    }
  }

  lemma {:induction false} FilterAll<T>(xs: seq<T>, p: T -> bool)
    requires forall x :: x in xs ==> p(x)
    ensures Filter(xs, p) == xs
  {
    if xs != [] { assert xs[0] in xs; FilterAll(xs[1..], p); }
  }

  /** The root ids of the first `n` trees pick exactly the rows of these trees. */
  lemma {:induction false} PickTrees(rows: seq<Row>, n: nat, visible: set<string>)
    requires Trees(rows)
    requires forall k :: 0 <= k < |TopRows(rows)| ==> (TopRows(rows)[k].rootId in visible <==> k < n)
    ensures Filter(rows, RootedIn(visible)) == rows[..Cut(rows, n)]
    decreases |rows|
  {
    if rows != [] {
      var tree, rest := FirstTreeRows(rows), Rest(rows);
      TreePieces(rows);
      FilterAppend(tree, rest, RootedIn(visible));
      forall k | 0 <= k < |TopRows(rest)| ensures TopRows(rest)[k].rootId in visible <==> k < n - 1 {
        assert TopRows(rows)[k + 1] == TopRows(rest)[k];
      }
      assert TopRows(rows)[0].rootId in visible <==> 0 < n;
      PickTrees(rest, if n == 0 then 0 else n - 1, visible);
      if n > 0 { FilterAll(tree, RootedIn(visible)); CutPieces(rows, n); } else { FilterNone(tree, RootedIn(visible)); }
    }
  }

  lemma {:induction false} TopIdsDistinct(rows: seq<Row>)
    requires Trees(rows) && DistinctRows(rows)
    ensures forall i, j :: 0 <= i < j < |TopRows(rows)| ==> TopRows(rows)[i].rootId != TopRows(rows)[j].rootId
    ensures forall k :: 0 <= k < |TopRows(rows)| ==> TopRows(rows)[k] in rows && TopRows(rows)[k].rootId == TopRows(rows)[k].session.id
    decreases |rows|
  {
    if rows != [] {
      TreePieces(rows);
      TopIdsDistinct(Rest(rows));
      hide Trees, Rest, TopRows;
    }
  }

  lemma VisibleCut(ss: seq<Session>, maxRoots: int)
    requires DistinctIds(ss)
    ensures var rows := BranchRows(ss); var n := SliceEnd(|TopRows(rows)|, maxRoots);
            VisibleRows(ss, true, maxRoots) == rows && VisibleRows(ss, false, maxRoots) == rows[..Cut(rows, n)] &&
            (Cut(rows, n) < |rows| ==> rows[Cut(rows, n)].depth == 0) && |TopRows(rows[..Cut(rows, n)])| == n
  {
    var rows := BranchRows(ss);
    RowsBooks(ss);
    RowsTrees(ss);
    var tops := TopRows(rows);
    var n := SliceEnd(|tops|, maxRoots);
    var roots := tops[..n];
    var visible := set row | row in roots :: row.rootId;
    TopIdsDistinct(rows);
    forall k | 0 <= k < |tops| ensures tops[k].rootId in visible <==> k < n {
      if k < n { assert roots[k] in roots; }
    }
    PickTrees(rows, n, visible);
    CutFacts(rows, n);
  }

  /** The collapsed list is the prefix of the rows made of the first `maxRoots` whole trees, of all of them when there are
      fewer, and of all but the last `-maxRoots` when that number is negative. */
  lemma VisibleIsPrefix(ss: seq<Session>, maxRoots: int)
    requires DistinctIds(ss)
    ensures var rows, shown := BranchRows(ss), VisibleRows(ss, false, maxRoots);
            VisibleRows(ss, true, maxRoots) == rows && shown <= rows && (|shown| < |rows| ==> rows[|shown|].depth == 0)
    ensures var trees, shown := |TopRows(BranchRows(ss))|, |TopRows(VisibleRows(ss, false, maxRoots))|;
            (0 <= maxRoots <= trees ==> shown == maxRoots) && (trees <= maxRoots ==> shown == trees) &&
            (-trees <= maxRoots < 0 ==> shown == trees + maxRoots) && (maxRoots < -trees ==> shown == 0)
  {
    hide BranchRows, VisibleRows, TopRows, Cut;
    VisibleCut(ss, maxRoots);
  }
}
