/** The loops of src/lib/session-branches.ts: `buildSessionBranchRows` with its growing lists, and `sessionBranchRootId`. */
module BranchBuilder {
  import opened Seqs
  import opened Sessions
  import opened Branches

  function ChildrenOf(children: map<string, seq<Session>>, id: string): seq<Session> {
    if id in children then children[id] else []
  }

  ghost predicate Grouped(children: map<string, seq<Session>>, ss: seq<Session>) {
    forall id :: ChildrenOf(children, id) == Children(ss, id)
  }

  method GroupSessions(sessions: seq<Session>) returns (roots: seq<Session>, children: map<string, seq<Session>>)
    ensures roots == Roots(sessions) && Grouped(children, sessions)
  {
    roots, children := [], map[];
    for n := 0 to |sessions|
      invariant roots == Filter(sessions[..n], HasNoParent(sessions))
      invariant forall id :: ChildrenOf(children, id) == Filter(sessions[..n], HangsUnder(sessions, id))
    {
      var s := sessions[n];
      FilterNext(sessions, n, HasNoParent(sessions));
      forall id { FilterNext(sessions, n, HangsUnder(sessions, id)); }
      hide Filter, Lookup;
      var parent := Parent(sessions, s);
      if parent.None? { roots := roots + [s]; }
      else { children := children[parent.value.id := ChildrenOf(children, parent.value.id) + [s]]; }
    }
    assert sessions[..|sessions|] == sessions;
  }

  /** Appending the rest of a list is appending its next element and then the rest. */
  lemma ListStep(ss: seq<Session>, visited: set<string>, list: seq<Session>, k: nat, level: Level)
    requires k < |list| && forall s :: s in list ==> s in ss
    ensures var first := Append(ss, visited, list[k], level); var rest := AppendAll(ss, first.visited, list[k + 1..], level);
            AppendAll(ss, visited, list[k..], level) == Walk(first.rows + rest.rows, rest.visited)
  {
    assert list[k..][0] == list[k] && list[k..][1..] == list[k + 1..];
  }

  lemma ListEnd(ss: seq<Session>, visited: set<string>, list: seq<Session>, level: Level)
    ensures AppendAll(ss, visited, list[|list|..], level) == Walk([], visited)
    ensures list[0..] == list
  {
  }

  lemma FillCount(before: seq<Row>, row: Row, rest: seq<Row>)
    ensures var rows := before + [row] + rest;
            rows[|before|] == row &&
            rows[|before| := row.(descendantCount := |rest|)] == before + ([row.(descendantCount := |rest|)] + rest)
  {
  }

  /** What `append` passes down is what the walk does. */
  lemma LevelBelow(s: Session, level: Level, row: Row, n: nat)
    requires Head(s, level, 0) == row
    ensures Below(s, level) == Under(row.depth + 1, row.rootId) && Head(s, level, n) == row.(descendantCount := n)
  {
  }

  /** One unfolding of the walk for a session not visited yet. */
  lemma AppendUnfolds(ss: seq<Session>, visited: set<string>, s: Session, level: Level)
    requires s in ss && s.id !in visited
    ensures forall c :: c in SortGroup(Children(ss, s.id)) ==> c in ss
    ensures Ids(ss) - (visited + {s.id}) < Ids(ss) - visited
    ensures var w := AppendAll(ss, visited + {s.id}, SortGroup(Children(ss, s.id)), Below(s, level));
            Branches.Append(ss, visited, s, level) == Walk([Head(s, level, |w.rows|)] + w.rows, w.visited)
  {
    ChildrenIn(ss, s.id);
    assert s.id in Ids(ss) - visited;
    hide Head, Below, AppendAll, SortGroup, Children, Ids;
  }

  lemma AppendIs(ss: seq<Session>, visited: set<string>, s: Session, level: Level, row: Row)
    requires s in ss && s.id !in visited && Head(s, level, 0) == row
    ensures forall c :: c in SortGroup(Children(ss, s.id)) ==> c in ss
    ensures Ids(ss) - (visited + {s.id}) < Ids(ss) - visited
    ensures var w := AppendAll(ss, visited + {s.id}, SortGroup(Children(ss, s.id)), Under(row.depth + 1, row.rootId));
            Branches.Append(ss, visited, s, level) == Walk([row.(descendantCount := |w.rows|)] + w.rows, w.visited)
  {
    hide *;
    AppendUnfolds(ss, visited, s, level);
    LevelBelow(s, level, row, 0);
    LevelBelow(s, level, row, |AppendAll(ss, visited + {s.id}, SortGroup(Children(ss, s.id)), Below(s, level)).rows|);
  }

  lemma AppendNothing(ss: seq<Session>, visited: set<string>, s: Session, level: Level)
    requires s in ss
    ensures s.id in visited ==> Branches.Append(ss, visited, s, level) == Walk([], visited)
  {
  }

  lemma GroupedAt(children: map<string, seq<Session>>, ss: seq<Session>, id: string)
    requires Grouped(children, ss)
    ensures ChildrenOf(children, id) == Children(ss, id)
  {
  }

  class Builder {
    const sessions: seq<Session>
    const children: map<string, seq<Session>>
    const roots: seq<Session>
    var rows: seq<Row>
    var visited: set<string>

    constructor (sessions: seq<Session>)
      ensures this.sessions == sessions && rows == [] && visited == {}
      ensures roots == Roots(sessions) && Grouped(children, sessions)
    {
      this.sessions := sessions;
      rows, visited := [], {};
      var tops, below := GroupSessions(sessions);
      this.roots, this.children := tops, below;
    }

    /** Appends the row of `s` and, recursively, those of its children; the count is filled in last. */
    method Append(s: Session, depth: nat, rootId: string, parentMissing: bool, ghost level: Level)
      requires Grouped(children, sessions) && s in sessions
      requires Head(s, level, 0) == Row(s, depth, rootId, parentMissing, 0)
      modifies this`rows, this`visited
      ensures rows == old(rows) + Branches.Append(sessions, old(visited), s, level).rows
      ensures visited == Branches.Append(sessions, old(visited), s, level).visited
      decreases Ids(sessions) - visited, 0
    {
      hide *;
      AppendNothing(sessions, visited, s, level);
      Units(rows);
      if s.id in visited { return; }
      var start := |rows|;
      var row := Row(s, depth, rootId, parentMissing, 0);
      AppendIs(sessions, visited, s, level, row);
      GroupedAt(children, sessions, s.id);
      ghost var w := AppendAll(sessions, visited + {s.id}, SortGroup(Children(sessions, s.id)), Under(depth + 1, rootId));
      FillCount(rows, row, w.rows);
      visited := visited + {s.id};
      rows := rows + [row];
      AppendKids(SortGroup(ChildrenOf(children, s.id)), depth + 1, rootId);
      rows := rows[start := rows[start].(descendantCount := |rows| - start - 1)];
    }

    /** The `for` loop over the sorted children. */
    method AppendKids(kids: seq<Session>, depth: nat, rootId: string)
      requires Grouped(children, sessions) && depth > 0 && forall s :: s in kids ==> s in sessions
      modifies this`rows, this`visited
      ensures rows == old(rows) + AppendAll(sessions, old(visited), kids, Under(depth, rootId)).rows
      ensures visited == AppendAll(sessions, old(visited), kids, Under(depth, rootId)).visited
      decreases Ids(sessions) - visited, |kids|
    {
      ghost var level := Under(depth, rootId);
      ghost var w := AppendAll(sessions, visited, kids, level);
      ghost var total := rows + w.rows;
      ListEnd(sessions, visited, kids, level);
      hide AppendAll, Branches.Append, Grouped;
      for k := 0 to |kids|
        invariant old(visited) <= visited
        invariant rows + AppendAll(sessions, visited, kids[k..], level).rows == total
        invariant AppendAll(sessions, visited, kids[k..], level).visited == w.visited
      {
        ghost var first := Branches.Append(sessions, visited, kids[k], level);
        ListStep(sessions, visited, kids, k, level);
        Assoc(rows, first.rows, AppendAll(sessions, first.visited, kids[k + 1..], level).rows);
        assert Ids(sessions) - visited <= Ids(sessions) - old(visited);
        Append(kids[k], depth, rootId, false, level);
      }
      ListEnd(sessions, visited, kids, level);
    }

    method AppendTops(list: seq<Session>, orphans: bool)
      requires Grouped(children, sessions) && forall s :: s in list ==> s in sessions
      modifies this`rows, this`visited
      ensures rows == old(rows) + AppendAll(sessions, old(visited), list, Top(orphans)).rows
      ensures visited == AppendAll(sessions, old(visited), list, Top(orphans)).visited
    {
      ghost var level := Top(orphans);
      ghost var w := AppendAll(sessions, visited, list, level);
      ghost var total := rows + w.rows;
      ListEnd(sessions, visited, list, level);
      hide AppendAll, Branches.Append, Grouped;
      for k := 0 to |list|
        invariant rows + AppendAll(sessions, visited, list[k..], level).rows == total
        invariant AppendAll(sessions, visited, list[k..], level).visited == w.visited
      {
        ghost var first := Branches.Append(sessions, visited, list[k], level);
        ListStep(sessions, visited, list, k, level);
        Assoc(rows, first.rows, AppendAll(sessions, first.visited, list[k + 1..], level).rows);
        Append(list[k], 0, list[k].id, orphans || Set(list[k].parentId), level);
      }
      ListEnd(sessions, visited, list, level);
    }
  }

  method BuildSessionBranchRows(sessions: seq<Session>) returns (rows: seq<Row>)
    ensures rows == BranchRows(sessions)
  {
    var builder := new Builder(sessions);
    RootsIn(sessions);
    LeftoverIn(sessions);
    hide AppendAll, SortGroup, Filter, Parent, Grouped, Roots, HasNoParent;
    builder.AppendTops(SortGroup(builder.roots), false);
    assert builder.rows == RootWalk(sessions).rows && builder.visited == RootWalk(sessions).visited;
    hide RootWalk;
    builder.AppendTops(SortGroup(Filter(sessions, Outside(builder.visited))), true);
    rows := builder.rows;
  }

  method SessionBranchRootId(s: Session, sessions: seq<Session>) returns (rootId: string)
    ensures rootId == BranchRootId(sessions, s)
  {
    if Set(s.branchRootId) { return s.branchRootId.value; }
    var dir := InDirectory(sessions, s.directory);
    var current, seen := s, {s.id};
    while Set(current.parentId)
      invariant Climb(dir, s, current, seen) == Climb(dir, s, s, {s.id})
      decreases Ids(dir) - seen
    {
      if current.parentId.value in seen { return s.id; }
      var parent := Lookup(dir, current.parentId.value);
      if parent.None? { return current.id; }
      assert parent.value.id in Ids(dir) - seen;
      seen := seen + {parent.value.id};
      current := parent.value;
    }
    return current.id;
  }
}
