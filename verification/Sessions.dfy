/** The session catalog and the order of a group of sessions (src/lib/order.ts). */
module Sessions {
  import opened Options
  import opened Seqs

  datatype Session = Session(
    id: string,
    directory: string,
    parentId: Option<string>,
    branchRootId: Option<string>,
    pinned: bool,
    sortOrder: Option<int>,
    updatedAt: int)

  /** JavaScript truthiness of an optional string. */
  predicate Set(s: Option<string>) {
    s.Some? && s.value != ""
  }

  ghost predicate DistinctIds(ss: seq<Session>) {
    forall i, j :: 0 <= i < j < |ss| ==> ss[i].id != ss[j].id
  }

  function Filter<T>(xs: seq<T>, p: T -> bool): seq<T> {
    if xs == [] then [] else (if p(xs[0]) then [xs[0]] else []) + Filter(xs[1..], p)
  }

  /** Inserts `x` behind every element that does not rank above it. */
  function Insert<T>(sorted: seq<T>, x: T, rank: T -> int): seq<T> {
    if sorted == [] || rank(sorted[|sorted| - 1]) <= rank(x) then sorted + [x]
    else Insert(sorted[..|sorted| - 1], x, rank) + [sorted[|sorted| - 1]]
  }

  /** The stable sort of JavaScript arrays, by ascending rank. */
  function StableSort<T>(xs: seq<T>, rank: T -> int): seq<T> {
    if xs == [] then [] else Insert(StableSort(xs[..|xs| - 1], rank), xs[|xs| - 1], rank)
  }

  predicate Pinned(s: Session) { s.pinned }
  predicate Ordered(s: Session) { !s.pinned && s.sortOrder.Some? }
  predicate Others(s: Session) { !s.pinned && s.sortOrder.None? }
  function Newest(s: Session): int { -s.updatedAt }
  function Position(s: Session): int { s.sortOrder.GetOr(0) }

  /** Pinned by age, then the manually ordered, then the rest by age. */
  function SortGroup(ss: seq<Session>): seq<Session> {
    StableSort(Filter(ss, Pinned), Newest) + StableSort(Filter(ss, Ordered), Position) + StableSort(Filter(ss, Others), Newest)
  }

  // ----- What the sort is ----------------------------------------------------------------

  ghost predicate Ranked<T(!new)>(xs: seq<T>, rank: T -> int) {
    forall i, j :: 0 <= i < j < |xs| ==> rank(xs[i]) <= rank(xs[j])
  }

  lemma {:induction false} InsertSorts<T(!new)>(sorted: seq<T>, x: T, rank: T -> int)
    requires Ranked(sorted, rank)
    ensures multiset(Insert(sorted, x, rank)) == multiset(sorted) + multiset{x}
    ensures Ranked(Insert(sorted, x, rank), rank)
    ensures forall y :: y in Insert(sorted, x, rank) <==> y in sorted || y == x
  {
    if sorted == [] || rank(sorted[|sorted| - 1]) <= rank(x) {
    } else {
      var front, last := sorted[..|sorted| - 1], sorted[|sorted| - 1];
      InsertSorts(front, x, rank);
      assert sorted == front + [last];
      var r := Insert(front, x, rank);
      forall k | 0 <= k < |r| ensures rank(r[k]) <= rank(last) { assert r[k] in r; }
    }
  }

  lemma {:induction false} SortSorts<T(!new)>(xs: seq<T>, rank: T -> int)
    ensures multiset(StableSort(xs, rank)) == multiset(xs)
    ensures Ranked(StableSort(xs, rank), rank)
    ensures forall y :: y in StableSort(xs, rank) <==> y in xs
  {
    if xs != [] {
      var front, last := xs[..|xs| - 1], xs[|xs| - 1];
      SortSorts(front, rank);
      InsertSorts(StableSort(front, rank), last, rank);
      assert xs == front + [last];
    }
  }

  lemma {:induction false} FilterAppend<T>(a: seq<T>, b: seq<T>, p: T -> bool)
    ensures Filter(a + b, p) == Filter(a, p) + Filter(b, p)
  {
    if a == [] { assert a + b == b; }
    else {
      var first := if p(a[0]) then [a[0]] else [];
      FilterAppend(a[1..], b, p);
      assert (a + b)[1..] == a[1..] + b && (a + b)[0] == a[0];
      assert Filter(a + b, p) == first + Filter(a[1..] + b, p) && Filter(a, p) == first + Filter(a[1..], p);
      hide *;
      Assoc(first, Filter(a[1..], p), Filter(b, p));
    }
  }

  lemma FilterNext<T>(xs: seq<T>, n: nat, p: T -> bool)
    requires n < |xs|
    ensures Filter(xs[..n + 1], p) == Filter(xs[..n], p) + if p(xs[n]) then [xs[n]] else []
  {
    assert xs[..n + 1] == xs[..n] + [xs[n]];
    FilterAppend(xs[..n], [xs[n]], p);
  }

  lemma {:induction false} FilterMembers<T>(xs: seq<T>, p: T -> bool)
    ensures forall x :: x in Filter(xs, p) <==> x in xs && p(x)
    ensures multiset(Filter(xs, p)) <= multiset(xs)
    ensures |Filter(xs, p)| <= |xs|
  {
    if xs != [] { FilterMembers(xs[1..], p); assert xs == [xs[0]] + xs[1..]; }
  }

  function AtRank<T(!new)>(rank: T -> int, r: int): T -> bool {
    x => rank(x) == r
  }

  lemma {:induction false} InsertStable<T(!new)>(sorted: seq<T>, x: T, rank: T -> int, r: int)
    requires Ranked(sorted, rank)
    ensures Filter(Insert(sorted, x, rank), AtRank(rank, r)) == Filter(sorted + [x], AtRank(rank, r))
  {
    var p := AtRank(rank, r);
    if sorted == [] || rank(sorted[|sorted| - 1]) <= rank(x) {
    } else {
      var front, last := sorted[..|sorted| - 1], sorted[|sorted| - 1];
      InsertStable(front, x, rank, r);
      assert sorted + [x] == front + [last] + [x];
      FilterAppend(Insert(front, x, rank), [last], p);
      FilterAppend(front, [x], p);
      FilterAppend(front + [last], [x], p);
      FilterAppend(front, [last], p);
    }
  }

  /** Elements of equal rank keep their order. */
  lemma {:induction false} SortStable<T(!new)>(xs: seq<T>, rank: T -> int, r: int)
    ensures Filter(StableSort(xs, rank), AtRank(rank, r)) == Filter(xs, AtRank(rank, r))
  {
    if xs != [] {
      var front, last := xs[..|xs| - 1], xs[|xs| - 1];
      SortStable(front, rank, r);
      SortSorts(front, rank);
      InsertStable(StableSort(front, rank), last, rank, r);
      FilterAppend(StableSort(front, rank), [last], AtRank(rank, r));
      FilterAppend(front, [last], AtRank(rank, r));
      assert xs == front + [last];
    }
  }

  function Tier(s: Session): int {
    if s.pinned then 0 else if s.sortOrder.Some? then 1 else 2
  }

  function RankIn(s: Session): int {
    if s.pinned || s.sortOrder.None? then -s.updatedAt else s.sortOrder.value
  }

  /** `a` may stand before `b`. */
  predicate MayPrecede(a: Session, b: Session) {
    Tier(a) < Tier(b) || (Tier(a) == Tier(b) && RankIn(a) <= RankIn(b))
  }

  lemma {:induction false} FilterSplits(ss: seq<Session>)
    ensures multiset(ss) == multiset(Filter(ss, Pinned)) + multiset(Filter(ss, Ordered)) + multiset(Filter(ss, Others))
  {
    if ss != [] { FilterSplits(ss[1..]); assert ss == [ss[0]] + ss[1..]; }
  }

  /** The group is reordered, nothing is lost, and it ends up in the documented three-section order. */
  lemma SortGroupSorts(ss: seq<Session>)
    ensures multiset(SortGroup(ss)) == multiset(ss)
    ensures |SortGroup(ss)| == |ss|
    ensures forall s :: s in SortGroup(ss) <==> s in ss
    ensures forall i, j :: 0 <= i < j < |ss| ==> MayPrecede(SortGroup(ss)[i], SortGroup(ss)[j])
  {
    var (p, o, r) := (Filter(ss, Pinned), Filter(ss, Ordered), Filter(ss, Others));
    SortSorts(p, Newest);
    SortSorts(o, Position);
    SortSorts(r, Newest);
    FilterMembers(ss, Pinned);
    FilterMembers(ss, Ordered);
    FilterMembers(ss, Others);
    FilterSplits(ss);
    var (sp, so, sr) := (StableSort(p, Newest), StableSort(o, Position), StableSort(r, Newest));
    assert |multiset(SortGroup(ss))| == |multiset(ss)|;
    SectionsSorted(sp, so, sr);
  }

  lemma SectionsSorted(p: seq<Session>, o: seq<Session>, r: seq<Session>)
    requires (forall s :: s in p ==> Pinned(s)) && (forall s :: s in o ==> Ordered(s)) && (forall s :: s in r ==> Others(s))
    requires Ranked(p, Newest) && Ranked(o, Position) && Ranked(r, Newest)
    ensures var all := p + o + r; forall i, j :: 0 <= i < j < |all| ==> MayPrecede(all[i], all[j])
  {
    var all := p + o + r;
    forall i | 0 <= i < |all| ensures Tier(all[i]) == if i < |p| then 0 else if i < |p| + |o| then 1 else 2 {
      assert if i < |p| then all[i] in p else if i < |p| + |o| then all[i] in o else all[i] in r;
    }
    forall i, j | 0 <= i < j < |all| ensures MayPrecede(all[i], all[j]) {
      if j < |p| { assert Newest(p[i]) <= Newest(p[j]); }
      else if |p| <= i && j < |p| + |o| { assert Position(o[i - |p|]) <= Position(o[j - |p|]); }
      else if |p| + |o| <= i { assert Newest(r[i - |p| - |o|]) <= Newest(r[j - |p| - |o|]); }
    }
  }

  // ----- Stability of the group order --------------------------------------------------------

  lemma {:induction false} FilterSame<T>(xs: seq<T>, p: T -> bool, q: T -> bool)
    requires forall x :: x in xs ==> (p(x) <==> q(x))
    ensures Filter(xs, p) == Filter(xs, q)
  {
    if xs != [] { assert xs[0] in xs; FilterSame(xs[1..], p, q); }
  }

  lemma {:induction false} FilterNone<T>(xs: seq<T>, p: T -> bool)
    requires forall x :: x in xs ==> !p(x)
    ensures Filter(xs, p) == []
  {
    if xs != [] { assert xs[0] in xs; FilterNone(xs[1..], p); }
  }

  lemma {:induction false} FilterTwice<T>(xs: seq<T>, p: T -> bool, q: T -> bool)
    requires forall x :: x in xs && q(x) ==> p(x)
    ensures Filter(Filter(xs, p), q) == Filter(xs, q)
  {
    if xs != [] {
      assert xs[0] in xs;
      FilterTwice(xs[1..], p, q);
      FilterAppend(if p(xs[0]) then [xs[0]] else [], Filter(xs[1..], p), q);
    }
  }

  function Peers(tier: int, rank: int): Session -> bool {
    s => Tier(s) == tier && RankIn(s) == rank
  }

  lemma SectionStable(ss: seq<Session>, p: Session -> bool, rank: Session -> int, tier: int, r: int)
    requires forall s :: p(s) <==> Tier(s) == tier
    requires forall s :: p(s) ==> rank(s) == RankIn(s)
    ensures Filter(StableSort(Filter(ss, p), rank), Peers(tier, r)) == Filter(ss, Peers(tier, r))
    ensures forall t :: t != tier ==> Filter(StableSort(Filter(ss, p), rank), Peers(t, r)) == []
  {
    var xs := Filter(ss, p);
    FilterMembers(ss, p);
    SortSorts(xs, rank);
    SortStable(xs, rank, r);
    FilterSame(StableSort(xs, rank), AtRank(rank, r), Peers(tier, r));
    FilterSame(xs, AtRank(rank, r), Peers(tier, r));
    FilterTwice(ss, p, Peers(tier, r));
    forall t | t != tier ensures Filter(StableSort(xs, rank), Peers(t, r)) == [] { FilterNone(StableSort(xs, rank), Peers(t, r)); }
  }

  /** Sessions of the same section and rank keep the order they came in. */
  lemma SortGroupStable(ss: seq<Session>, tier: int, r: int)
    ensures Filter(SortGroup(ss), Peers(tier, r)) == Filter(ss, Peers(tier, r))
  {
    SectionStable(ss, Pinned, Newest, 0, r);
    SectionStable(ss, Ordered, Position, 1, r);
    SectionStable(ss, Others, Newest, 2, r);
    var p := StableSort(Filter(ss, Pinned), Newest);
    var o := StableSort(Filter(ss, Ordered), Position);
    var q := StableSort(Filter(ss, Others), Newest);
    FilterAppend(p + o, q, Peers(tier, r));
    FilterAppend(p, o, Peers(tier, r));
    if tier != 0 && tier != 1 && tier != 2 { FilterNone(ss, Peers(tier, r)); }
    assert SortGroup(ss) == p + o + q;
    hide *;
    var fp, fo, fq := Filter(p, Peers(tier, r)), Filter(o, Peers(tier, r)), Filter(q, Peers(tier, r));
    Units(fp);
    Units(fo);
    Units(fq);
  }
}
