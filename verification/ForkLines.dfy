/** The root a fork is stored with, told by the line of its ancestors, in any catalog
    (crates/kxen-core/src/core/session/fork.rs). */
module ForkLines {
  import opened Sessions
  import opened Branches
  import opened Forks

  /** Each session is followed by the one that its parent id names, and none comes twice. */
  ghost predicate IsLine(ss: seq<Session>, line: seq<Session>) {
    line != [] && (forall i, k :: 0 <= i < k < |line| ==> line[i].id != line[k].id) &&
    forall k :: 0 < k < |line| ==> line[k] in ss && line[k - 1].parentId.GetOr("") == line[k].id != ""
  }

  predicate Holds(line: seq<Session>, id: string) {
    exists k :: 0 <= k < |line| && line[k].id == id
  }

  /** The line ends without a parent or before a session that it holds already, and its root is the last session; or it ends
      before a session that is not in the catalog, and its root is the missing one. */
  ghost predicate EndsWith(ss: seq<Session>, line: seq<Session>, root: string)
    requires line != []
  {
    var last := line[|line| - 1];
    var parent := last.parentId.GetOr("");
    if parent == "" || Holds(line, parent) then root == last.id
    else root == parent && forall s :: s in ss ==> s.id != parent
  }

  lemma {:induction false} ClimbEnds(ss: seq<Session>, line: seq<Session>, seen: set<string>) returns (full: seq<Session>)
    requires IsLine(ss, line) && forall id :: id in seen <==> Holds(line, id)
    ensures IsLine(ss, full) && full[0] == line[0]
    ensures EndsWith(ss, full, ClimbForFork(ss, line[|line| - 1], seen))
    decreases Ids(ss) - seen
  {
    full := line;
    var current := line[|line| - 1];
    if current.parentId.GetOr("") != "" && current.parentId.value !in seen {
      var next := Lookup(ss, current.parentId.value);
      if next.Some? {
        assert next.value.id in Ids(ss) - seen;
        Longer(ss, line, next.value, seen);
        hide IsLine, EndsWith, Holds;
        full := ClimbEnds(ss, line + [next.value], seen + {next.value.id});
      }
    }
  }

  lemma Longer(ss: seq<Session>, line: seq<Session>, next: Session, seen: set<string>)
    requires IsLine(ss, line) && (forall id :: id in seen <==> Holds(line, id))
    requires next in ss && next.id !in seen && line[|line| - 1].parentId.GetOr("") == next.id != ""
    ensures IsLine(ss, line + [next]) && forall id :: id in seen + {next.id} <==> Holds(line + [next], id)
  {
    var all := line + [next];
    assert !Holds(line, next.id);
    forall id ensures id in seen + {next.id} <==> Holds(all, id) {
      assert all[|line|] == next;
      if Holds(line, id) {
        var k :| 0 <= k < |line| && line[k].id == id;
        assert all[k] == line[k];
      }
      if Holds(all, id) {
        var k :| 0 <= k < |all| && all[k].id == id;
        assert k < |line| ==> line[k].id == id;
      }
    }
  }

  /** A fork is stored with the root stored at its source, if there is one, else with the root of the line of its source. */
  lemma ForkRootEnds(ss: seq<Session>, source: Session)
    ensures source.branchRootId.Some? ==> ForkRoot(ss, source) == source.branchRootId.value
    ensures source.branchRootId.None? ==> exists line :: IsLine(ss, line) && line[0] == source && EndsWith(ss, line, ForkRoot(ss, source))
  {
    if source.branchRootId.None? {
      assert forall id :: Holds([source], id) <==> [source][0].id == id;
      var line := ClimbEnds(ss, [source], {source.id});
    }
  }
}
