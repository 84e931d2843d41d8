/** Siblings are shown in the order of their group. */
module BranchOrder {
  import opened Seqs
  import opened Sessions
  import opened Branches
  import opened BranchTheorems
  import opened BranchShape

  /** The sessions at the top of a forest. */
  function Heads(rows: seq<Row>): set<Session>
    decreases |rows|
  {
    if rows == [] || rows[0].descendantCount >= |rows| then {} else {rows[0].session} + Heads(Rest(rows))
  }

  /** At every level, each head may precede all later ones. */
  ghost predicate Ordered(rows: seq<Row>)
    decreases |rows|
  {
    rows == [] ||
    (rows[0].descendantCount < |rows| && Ordered(Kids(rows)) && Ordered(Rest(rows)) &&
     forall s :: s in Heads(Rest(rows)) ==> MayPrecede(rows[0].session, s))
  }

  ghost predicate InGroupOrder(list: seq<Session>) {
    forall i, j :: 0 <= i < j < |list| ==> MayPrecede(list[i], list[j])
  }

  lemma TreeThen(row: Row, kids: seq<Row>, rest: seq<Row>, list: seq<Session>)
    requires row.descendantCount == |kids| && Ordered(kids) && Ordered(rest) && list != [] && row.session == list[0] && InGroupOrder(list)
    requires forall s :: s in Heads(rest) ==> s in list[1..]
    ensures var rows := [row] + kids + rest; Ordered(rows) && forall s :: s in Heads(rows) ==> s in list
  {
    var rows := [row] + kids + rest;
    assert Kids(rows) == kids && Rest(rows) == rest;
  }

  lemma {:induction false} ListOrdered(ss: seq<Session>, visited: set<string>, list: seq<Session>, level: Level)
    requires (forall s :: s in list ==> s in ss) && InGroupOrder(list)
    ensures var rows := AppendAll(ss, visited, list, level).rows; Ordered(rows) && forall s :: s in Heads(rows) ==> s in list
    decreases Ids(ss) - visited, |list|
  {
    if list != [] {
      var first := Append(ss, visited, list[0], level);
      assert Ids(ss) - first.visited <= Ids(ss) - visited;
      var rest := AppendAll(ss, first.visited, list[1..], level).rows;
      ListOrdered(ss, first.visited, list[1..], level);
      if list[0].id in visited { assert first.rows + rest == rest; }
      else {
        var id, kids := list[0].id, SortGroup(Children(ss, list[0].id));
        ChildrenIn(ss, id);
        SortGroupSorts(Children(ss, id));
        assert id in Ids(ss) - visited;
        var below := AppendAll(ss, visited + {id}, kids, Below(list[0], level)).rows;
        ListOrdered(ss, visited + {id}, kids, Below(list[0], level));
        TreeThen(Head(list[0], level, |below|), below, rest, list);
      }
    }
  }

  /** Rows `i < k` of one level with nothing shallower between them. */
  ghost predicate Siblings(rows: seq<Row>, i: nat, k: nat) {
    i < k < |rows| && rows[i].depth == rows[k].depth && forall m :: i < m < k ==> rows[m].depth >= rows[i].depth
  }

  lemma {:induction false} HeadIn(rows: seq<Row>, depth: nat, rootId: string, parent: Session, i: nat)
    requires Forest(rows, depth, rootId, parent) && i < |rows| && rows[i].depth == depth
    ensures rows[i].session in Heads(rows)
    decreases |rows|
  {
    if i > 0 {
      Pieces(rows, i);
      ForestDepth(Kids(rows), depth + 1, rootId, rows[0].session);
      HeadIn(Rest(rows), depth, rootId, parent, i - 1 - rows[0].descendantCount);
    }
  }

  lemma SiblingsIn(a: seq<Row>, part: seq<Row>, b: seq<Row>, i: nat, k: nat)
    requires |a| <= i && k < |a| + |part| && Siblings(a + part + b, i, k)
    ensures Siblings(part, i - |a|, k - |a|)
  {
    var rows := a + part + b;
    forall m | i - |a| < m < k - |a| ensures part[m].depth >= part[i - |a|].depth { assert part[m] == rows[m + |a|]; }
  }

  /** The sibling of a row below the first head is below it too. */
  lemma StaysInside(rows: seq<Row>, i: nat, k: nat)
    requires rows != [] && rows[0].descendantCount < |rows| && 0 < i <= rows[0].descendantCount && Siblings(rows, i, k)
    requires rows[i].depth > rows[0].depth && (Rest(rows) != [] ==> Rest(rows)[0].depth == rows[0].depth)
    ensures k <= rows[0].descendantCount
  {
    var c := rows[0].descendantCount;
    assert 1 + c < |rows| ==> rows[1 + c] == Rest(rows)[0];
  }

  /** What the head of ordered rows, its subtree and the rows behind it inherit. */
  lemma OrderedPieces(rows: seq<Row>)
    requires Ordered(rows) && rows != []
    ensures rows[0].descendantCount < |rows| && Ordered(Kids(rows)) && Ordered(Rest(rows))
    ensures forall s :: s in Heads(Rest(rows)) ==> MayPrecede(rows[0].session, s)
    ensures |Kids(rows)| < |rows| && |Rest(rows)| < |rows|
    ensures rows == [rows[0]] + Kids(rows) + Rest(rows) + []
  {
    Pieces(rows, 0);
    Units(rows);
  }

  lemma {:induction false} ForestSiblings(rows: seq<Row>, depth: nat, rootId: string, parent: Session, i: nat, k: nat)
    requires Forest(rows, depth, rootId, parent) && Ordered(rows) && Siblings(rows, i, k)
    ensures MayPrecede(rows[i].session, rows[k].session)
    decreases |rows|
  {
    hide Forest, Ordered, MayPrecede, Heads, Kids, Rest;
    ForestParts(rows, depth, rootId, parent);
    var c, kids, rest := rows[0].descendantCount, Kids(rows), Rest(rows);
    OrderedPieces(rows);
    Pieces(rows, i);
    Pieces(rows, k);
    if i == 0 { HeadIn(rest, depth, rootId, parent, k - 1 - c); }
    else if i <= c {
      StaysInside(rows, i, k);
      SiblingsIn([rows[0]], kids, rest, i, k);
      ForestSiblings(kids, depth + 1, rootId, rows[0].session, i - 1, k - 1);
    } else {
      SiblingsIn([rows[0]] + kids, rest, [], i, k);
      ForestSiblings(rest, depth, rootId, parent, i - 1 - c, k - 1 - c);
    }
  }

  lemma TreesPieces(rows: seq<Row>)
    requires Trees(rows) && rows != []
    ensures rows[0].descendantCount < |rows| && rows[0].depth == 0
    ensures Forest(Kids(rows), 1, rows[0].rootId, rows[0].session) && Trees(Rest(rows))
    ensures Rest(rows) != [] ==> Rest(rows)[0].depth == 0
    ensures forall k :: 0 <= k < |Kids(rows)| ==> Kids(rows)[k].depth > 0
  {
    ForestDepth(Kids(rows), 1, rows[0].rootId, rows[0].session);
  }

  lemma {:induction false} TopIn(rows: seq<Row>, i: nat)
    requires Trees(rows) && i < |rows| && rows[i].depth == 0
    ensures rows[i].session in Heads(rows)
    decreases |rows|
  {
    if i > 0 {
      Pieces(rows, i);
      ForestDepth(Kids(rows), 1, rows[0].rootId, rows[0].session);
      TopIn(Rest(rows), i - 1 - rows[0].descendantCount);
    }
  }

  lemma {:induction false} TreesSiblings(rows: seq<Row>, i: nat, k: nat)
    requires Trees(rows) && Ordered(rows) && Siblings(rows, i, k)
    ensures MayPrecede(rows[i].session, rows[k].session)
    decreases |rows|
  {
    hide Trees, Forest, Ordered, MayPrecede, Heads, Kids, Rest;
    TreesPieces(rows);
    var c, kids, rest := rows[0].descendantCount, Kids(rows), Rest(rows);
    OrderedPieces(rows);
    Pieces(rows, i);
    Pieces(rows, k);
    if i == 0 { TopIn(rest, k - 1 - c); }
    else if i <= c {
      StaysInside(rows, i, k);
      SiblingsIn([rows[0]], kids, rest, i, k);
      ForestSiblings(kids, 1, rows[0].rootId, rows[0].session, i - 1, k - 1);
    } else {
      SiblingsIn([rows[0]] + kids, rest, [], i, k);
      TreesSiblings(rest, i - 1 - c, k - 1 - c);
    }
  }

  /** Siblings, and the roots of either phase, come in the order of `sortGroup`; the roots proper come before the leftovers. */
  lemma RowsInGroupOrder(ss: seq<Session>, i: nat, k: nat)
    requires DistinctIds(ss) && Siblings(BranchRows(ss), i, k)
    ensures var early := |RootWalk(ss).rows|;
            (k < early || early <= i || BranchRows(ss)[i].depth > 0) ==> MayPrecede(BranchRows(ss)[i].session, BranchRows(ss)[k].session)
  {
    RowsTrees(ss);
    RootsIn(ss);
    LeftoverIn(ss);
    SortGroupSorts(Roots(ss));
    SortGroupSorts(Leftover(ss));
    ListOrdered(ss, {}, SortGroup(Roots(ss)), Top(false));
    ListOrdered(ss, RootWalk(ss).visited, SortGroup(Leftover(ss)), Top(true));
    var (a, b) := (RootWalk(ss).rows, OrphanWalk(ss).rows);
    TwoPhases(a, b, i, k);
  }

  lemma TwoPhases(a: seq<Row>, b: seq<Row>, i: nat, k: nat)
    requires Trees(a) && Trees(b) && Ordered(a) && Ordered(b) && Siblings(a + b, i, k)
    ensures (k < |a| || |a| <= i || (a + b)[i].depth > 0) ==> MayPrecede((a + b)[i].session, (a + b)[k].session)
  {
    hide Trees, Ordered, MayPrecede;
    At(a, b, i);
    At(a, b, k);
    if k < |a| {
      FrontSiblings(a, b, i, k);
      TreesSiblings(a, i, k);
    } else if |a| <= i {
      BackSiblings(a, b, i, k);
      TreesSiblings(b, i - |a|, k - |a|);
    } else { Straddle(a, b, i, k); }
  }

  /** Siblings in different phases are roots. */
  lemma Straddle(a: seq<Row>, b: seq<Row>, i: nat, k: nat)
    requires Trees(b) && Siblings(a + b, i, k) && i < |a| <= k
    ensures (a + b)[i].depth == 0
  {
    TreeStart(b);
    At(a, b, |a|);
    hide Trees;
  }

  lemma FrontSiblings(a: seq<Row>, b: seq<Row>, i: nat, k: nat)
    requires Siblings(a + b, i, k) && k < |a|
    ensures Siblings(a, i, k)
  {
    forall m | i < m < k ensures a[m].depth >= a[i].depth { assert a[m] == (a + b)[m]; }
  }

  lemma BackSiblings(a: seq<Row>, b: seq<Row>, i: nat, k: nat)
    requires Siblings(a + b, i, k) && |a| <= i
    ensures Siblings(b, i - |a|, k - |a|)
  {
    forall m | i - |a| < m < k - |a| ensures b[m].depth >= b[i - |a|].depth { assert b[m] == (a + b)[m + |a|]; }
  }

  lemma TreeStart(rows: seq<Row>)
    requires Trees(rows)
    ensures rows != [] ==> rows[0].depth == 0
  {
  }
}
