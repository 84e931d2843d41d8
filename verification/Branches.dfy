/** The branch forest of the session list: the downward walk that prints it and the upward walk that names a root
    (src/lib/session-branches.ts). */
module Branches {
  import opened Options
  import opened Sessions

  datatype Row = Row(session: Session, depth: nat, rootId: string, parentMissing: bool, descendantCount: nat)

  // ----- The parent relation -----------------------------------------------------------------

  function Ids(ss: seq<Session>): set<string> {
    set s | s in ss :: s.id
  }

  /** `byDirectory(...).get(id)`: a later entry replaces an earlier one. */
  function Lookup(ss: seq<Session>, id: string): (s: Option<Session>)
    ensures s.Some? ==> s.value in ss && s.value.id == id
    ensures s.None? <==> id !in Ids(ss)
  {
    if ss == [] then None
    else if ss[|ss| - 1].id == id then Some(ss[|ss| - 1])
    else Lookup(ss[..|ss| - 1], id)
  }

  /** The session `s` hangs under in the forest, if any. */
  function Parent(ss: seq<Session>, s: Session): (p: Option<Session>)
    ensures p.Some? ==> p.value in ss && Set(s.parentId) && p.value.id == s.parentId.value && p.value.directory == s.directory
  {
    var p := if Set(s.parentId) then Lookup(ss, s.parentId.value) else None;
    if p.Some? && p.value.directory == s.directory then p else None
  }

  predicate IsChild(ss: seq<Session>, id: string, s: Session) {
    Parent(ss, s).Some? && Parent(ss, s).value.id == id
  }

  function HangsUnder(ss: seq<Session>, id: string): Session -> bool {
    s => IsChild(ss, id, s)
  }

  function HasNoParent(ss: seq<Session>): Session -> bool {
    s => Parent(ss, s).None?
  }

  function Outside(visited: set<string>): Session -> bool {
    (s: Session) => s.id !in visited
  }

  function Children(ss: seq<Session>, id: string): seq<Session> {
    Filter(ss, HangsUnder(ss, id))
  }

  function Roots(ss: seq<Session>): seq<Session> {
    Filter(ss, HasNoParent(ss))
  }

  // ----- The downward walk ----------------------------------------------------------------------

  datatype Level = Top(orphans: bool) | Under(depth: nat, rootId: string)

  function Head(s: Session, level: Level, descendants: nat): Row {
    match level
    case Top(orphans) => Row(s, 0, s.id, orphans || Set(s.parentId), descendants)
    case Under(depth, rootId) => Row(s, depth, rootId, false, descendants)
  }

  function Below(s: Session, level: Level): Level {
    match level
    case Top(_) => Under(1, s.id)
    case Under(depth, rootId) => Under(depth + 1, rootId)
  }

  datatype Walk = Walk(rows: seq<Row>, visited: set<string>)

  lemma ChildrenIn(ss: seq<Session>, id: string)
    ensures forall c :: c in SortGroup(Children(ss, id)) <==> c in ss && IsChild(ss, id, c)
  {
    FilterMembers(ss, HangsUnder(ss, id));
    SortGroupSorts(Children(ss, id));
  }

  lemma RootsIn(ss: seq<Session>)
    ensures forall s :: s in SortGroup(Roots(ss)) <==> s in ss && Parent(ss, s).None?
  {
    FilterMembers(ss, HasNoParent(ss));
    SortGroupSorts(Roots(ss));
  }

  /** The rows `append` adds for one session and everything below it that is not printed yet. */
  function Append(ss: seq<Session>, visited: set<string>, s: Session, level: Level): (w: Walk)
    requires s in ss
    ensures visited <= w.visited
    decreases Ids(ss) - visited, 0
  {
    if s.id in visited then Walk([], visited) else
    ChildrenIn(ss, s.id);
    assert s.id in Ids(ss) - visited;
    var w := AppendAll(ss, visited + {s.id}, SortGroup(Children(ss, s.id)), Below(s, level));
    Walk([Head(s, level, |w.rows|)] + w.rows, w.visited)
  }

  function AppendAll(ss: seq<Session>, visited: set<string>, list: seq<Session>, level: Level): (w: Walk)
    requires forall s :: s in list ==> s in ss
    ensures visited <= w.visited
    decreases Ids(ss) - visited, |list|
  {
    if list == [] then Walk([], visited) else
    var first := Append(ss, visited, list[0], level);
    assert Ids(ss) - first.visited <= Ids(ss) - visited;
    var rest := AppendAll(ss, first.visited, list[1..], level);
    Walk(first.rows + rest.rows, rest.visited)
  }

  function RootWalk(ss: seq<Session>): Walk {
    RootsIn(ss);
    AppendAll(ss, {}, SortGroup(Roots(ss)), Top(false))
  }

  function Leftover(ss: seq<Session>): seq<Session> {
    Filter(ss, Outside(RootWalk(ss).visited))
  }

  lemma LeftoverIn(ss: seq<Session>)
    ensures forall s :: s in SortGroup(Leftover(ss)) <==> s in ss && s.id !in RootWalk(ss).visited
  {
    FilterMembers(ss, Outside(RootWalk(ss).visited));
    SortGroupSorts(Leftover(ss));
  }

  function OrphanWalk(ss: seq<Session>): Walk {
    LeftoverIn(ss);
    AppendAll(ss, RootWalk(ss).visited, SortGroup(Leftover(ss)), Top(true))
  }

  function BranchRows(ss: seq<Session>): seq<Row> {
    RootWalk(ss).rows + OrphanWalk(ss).rows
  }

  // ----- The upward walk --------------------------------------------------------------------------

  function Within(directory: string): Session -> bool {
    (s: Session) => s.directory == directory
  }

  function InDirectory(ss: seq<Session>, directory: string): seq<Session> {
    Filter(ss, Within(directory))
  }

  /** The loop of `sessionBranchRootId`; `dir` holds the sessions of one directory. */
  function Climb(dir: seq<Session>, start: Session, current: Session, seen: set<string>): string
    decreases Ids(dir) - seen
  {
    if !Set(current.parentId) then current.id
    else if current.parentId.value in seen then start.id
    else
      var parent := Lookup(dir, current.parentId.value);
      if parent.None? then current.id
      else
        assert parent.value.id in Ids(dir) - seen;
        Climb(dir, start, parent.value, seen + {parent.value.id})
  }

  function BranchRootId(ss: seq<Session>, s: Session): string {
    if Set(s.branchRootId) then s.branchRootId.value else Climb(InDirectory(ss, s.directory), s, s, {s.id})
  }

  function SharesRoot(dir: seq<Session>, rootId: string): Session -> bool {
    s => BranchRootId(dir, s) == rootId
  }

  function BranchFamily(ss: seq<Session>, s: Session): seq<Session> {
    var dir := InDirectory(ss, s.directory);
    Filter(dir, SharesRoot(dir, BranchRootId(dir, s)))
  }

  // ----- The collapsed list -------------------------------------------------------------------------

  /** `slice(0, max)` of a list of `n`. */
  function SliceEnd(n: nat, max: int): nat {
    if max < 0 then (if n + max < 0 then 0 else n + max) else if max < n then max else n
  }

  predicate IsTop(row: Row) { row.depth == 0 }

  function RootedIn(visible: set<string>): Row -> bool {
    (row: Row) => row.rootId in visible
  }

  function TopRows(rows: seq<Row>): seq<Row> {
    Filter(rows, IsTop)
  }

  function VisibleRows(ss: seq<Session>, expanded: bool, maxRoots: int): seq<Row> {
    var rows := BranchRows(ss);
    if expanded then rows else
    var tops := TopRows(rows);
    var roots := tops[..SliceEnd(|tops|, maxRoots)];
    var visible := set row | row in roots :: row.rootId;
    Filter(rows, RootedIn(visible))
  }
}
