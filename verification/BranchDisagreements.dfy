/** Catalogs in which the downward and the upward walk disagree. */
module BranchDisagreements {
  import opened Options
  import opened Sessions
  import opened Branches
  import opened BranchTheorems
  import opened BranchShape
  import opened BranchRoots

  function Plain(id: string, parentId: string, rootId: Option<string>): Session {
    Session(id, "d", Some(parentId), rootId, false, None, 0)
  }

  const Cycle := [Plain("a", "b", None), Plain("b", "a", None)]

  /** Two sessions that are each other's parent, and no others. */
  ghost predicate Couple(ss: seq<Session>, s: Session, t: Session) {
    DistinctIds(ss) && s.id != t.id && Parent(ss, s) == Some(t) && Parent(ss, t) == Some(s) &&
    forall x :: x in ss <==> x == s || x == t
  }

  lemma CycleIsCouple()
    ensures Couple(Cycle, Cycle[0], Cycle[1])
  {
    assert DistinctIds(Cycle) && Cycle[0] in Cycle && Cycle[1] in Cycle;
    LookupIs(Cycle, Cycle[0]);
    LookupIs(Cycle, Cycle[1]);
  }

  lemma {:induction false} CoupleEndless(ss: seq<Session>, s: Session, t: Session, n: nat)
    requires Couple(ss, s, t)
    ensures !EndsAt(ss, s, n)
    decreases n
  {
    if n > 0 { CoupleEndless(ss, t, s, n - 1); }
  }

  lemma {:induction false} NothingNew(ss: seq<Session>, visited: set<string>, list: seq<Session>, level: Level)
    requires forall s :: s in list ==> s in ss && s.id in visited
    ensures AppendAll(ss, visited, list, level) == Walk([], visited)
    decreases list
  {
    if list != [] { NothingNew(ss, visited, list[1..], level); }
  }

  lemma FirstWalk(ss: seq<Session>, s: Session)
    requires s in ss
    ensures forall c :: c in SortGroup(Children(ss, s.id)) ==> c in ss
    ensures var w := AppendAll(ss, {s.id}, SortGroup(Children(ss, s.id)), Under(1, s.id));
            Append(ss, {}, s, Top(true)) == Walk([Head(s, Top(true), |w.rows|)] + w.rows, w.visited)
  {
    ChildrenIn(ss, s.id);
    assert {} + {s.id} == {s.id};
    hide SortGroup, Children, AppendAll;
  }

  /** A walk that starts at either of the two prints both, in one tree. */
  lemma CoupleTree(ss: seq<Session>, s: Session, t: Session)
    requires Couple(ss, s, t)
    ensures var w := Append(ss, {}, s, Top(true));
            s.id in w.visited && t.id in w.visited && forall row :: row in w.rows ==> row.rootId == s.id
  {
    hide SortGroup, Children, AppendAll, Append, Forest;
    ChildFacts(ss, s);
    FirstWalk(ss, s);
    var kids := SortGroup(Children(ss, s.id));
    assert t in kids;
    AllBooks(ss, {s.id}, kids, Under(1, s.id));
    AllForest(ss, {s.id}, kids, 1, s.id, s);
    ForestDepth(AppendAll(ss, {s.id}, kids, Under(1, s.id)).rows, 1, s.id, s);
  }

  lemma CoupleLeftover(ss: seq<Session>, s: Session, t: Session)
    requires Couple(ss, s, t)
    ensures RootWalk(ss) == Walk([], {})
    ensures SortGroup(Leftover(ss)) != [] && forall x :: x in SortGroup(Leftover(ss)) <==> x in ss
  {
    FilterNone(ss, HasNoParent(ss));
    SortGroupSorts(Roots(ss));
    LeftoverIn(ss);
    hide SortGroup, Leftover;
    assert RootWalk(ss) == Walk([], {});
    assert s in SortGroup(Leftover(ss));
  }

  lemma CoupleRows(ss: seq<Session>, s: Session, t: Session)
    requires Couple(ss, s, t)
    ensures exists x :: x in ss && forall row :: row in BranchRows(ss) ==> row.rootId == x.id
  {
    CoupleLeftover(ss, s, t);
    var list := SortGroup(Leftover(ss));
    var first := Append(ss, {}, list[0], Top(true));
    assert list[0] in list;
    CoupleTree(ss, list[0], if list[0] == s then t else s);
    assert forall x :: x in list[1..] ==> x in list;
    NothingNew(ss, first.visited, list[1..], Top(true));
    assert OrphanWalk(ss).rows == first.rows + [];
    hide Append, SortGroup, Leftover, RootWalk, OrphanWalk, Couple;
    assert BranchRows(ss) == first.rows;
  }

  lemma CoupleRoot(ss: seq<Session>, s: Session, t: Session)
    requires Couple(ss, s, t) && s.branchRootId.GetOr("") == ""
    ensures BranchRootId(ss, s) == s.id
  {
    forall n ensures !EndsAt(ss, s, n) { CoupleEndless(ss, s, t, n); }
    ClimbCycles(ss, s, s, {s.id});
  }

  /** Two sessions that are each other's parent stand in one tree, and the upward walk names each its own root. */
  lemma CycleDisagrees()
    ensures |BranchRows(Cycle)| == 2 && BranchRows(Cycle)[0].rootId == BranchRows(Cycle)[1].rootId
    ensures BranchRootId(Cycle, Cycle[0]) == "a" && BranchRootId(Cycle, Cycle[1]) == "b"
  {
    CycleIsCouple();
    assert |Cycle| == 2 && DistinctIds(Cycle) && Couple(Cycle, Cycle[1], Cycle[0]);
    hide BranchRows, BranchRootId, Couple, DistinctIds;
    RowsArePermutation(Cycle);
    CoupleRoot(Cycle, Cycle[0], Cycle[1]);
    CoupleRoot(Cycle, Cycle[1], Cycle[0]);
    CoupleRows(Cycle, Cycle[0], Cycle[1]);
  }

  const Orphans := [Plain("a", "gone", Some("root")), Plain("b", "gone", Some("root"))]

  lemma OrphanRoot(ss: seq<Session>, s: Session, i: nat)
    requires DistinctIds(ss) && s in ss && Parent(ss, s).None? && RowFor(BranchRows(ss), i, s)
    ensures BranchRows(ss)[i].rootId == s.id
  {
    assert EndsAt(ss, s, 0);
    RowRoot(ss, s, 0, i);
  }

  lemma OrphanFacts()
    ensures DistinctIds(Orphans) && Orphans[0] in Orphans && Orphans[1] in Orphans
    ensures Parent(Orphans, Orphans[0]).None? && Parent(Orphans, Orphans[1]).None?
    ensures BranchRootId(Orphans, Orphans[0]) == BranchRootId(Orphans, Orphans[1])
  {
  }

  /** Two forks of a deleted session are one family and two trees. */
  lemma OrphansDisagree(i: nat, j: nat)
    requires RowFor(BranchRows(Orphans), i, Orphans[0]) && RowFor(BranchRows(Orphans), j, Orphans[1])
    ensures Orphans[1] in BranchFamily(Orphans, Orphans[0])
    ensures BranchRows(Orphans)[i].rootId == "a" && BranchRows(Orphans)[j].rootId == "b"
  {
    hide BranchRows, BranchFamily;
    OrphanFacts();
    hide Parent, BranchRootId, DistinctIds;
    OrphanRoot(Orphans, Orphans[0], i);
    OrphanRoot(Orphans, Orphans[1], j);
    FamilyMembers(Orphans, Orphans[0], Orphans[1]);
  }
}
