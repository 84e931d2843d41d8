/** What the merged timeline keeps of the snapshot, the baseline and the live list. */
module MergeTheorems {
  import opened Options
  import opened Timeline
  import opened MergeSpec

  // ----- The plan is sorted and complete -----------------------------------------------

  /** The block of the result a slot belongs to: before, at or after a stored position, or the tail. */
  function BlockOf(m: Sources, slot: Slot): int
    requires SlotOk(m, slot)
  {
    match slot
    case Stored(i) => i
    case Fresh(j) => if PlaceOf(m, j).Tail? then |m.stored| else PlaceOf(m, j).pos
  }

  function Phase(m: Sources, slot: Slot): int
    requires SlotOk(m, slot)
  {
    if slot.Stored? then 1 else if PlaceOf(m, slot.j).After? then 2 else 0
  }

  predicate Less(m: Sources, a: Slot, b: Slot) {
    SlotOk(m, a) && SlotOk(m, b) &&
    (BlockOf(m, a) < BlockOf(m, b) ||
     (BlockOf(m, a) == BlockOf(m, b) &&
      (Phase(m, a) < Phase(m, b) || (a.Fresh? && b.Fresh? && Phase(m, a) == Phase(m, b) && a.j < b.j))))
  }

  ghost predicate Sorted(m: Sources, slots: seq<Slot>) {
    forall p, q :: 0 <= p < q < |slots| ==> Less(m, slots[p], slots[q])
  }

  predicate Increasing(js: seq<nat>) {
    forall p, q :: 0 <= p < q < |js| ==> js[p] < js[q]
  }

  lemma {:induction false} CandidatesFacts(m: Sources, n: nat)
    requires n <= |m.live|
    ensures Increasing(Candidates(m, n))
    ensures forall j: nat :: j in Candidates(m, n) <==> j < n && Candidate(m, j)
  {
    if n > 0 { CandidatesFacts(m, n - 1); }
  }

  lemma {:induction false} PlacedFacts(m: Sources, js: seq<nat>, place: Place)
    requires Increasing(js) && forall k :: 0 <= k < |js| ==> js[k] < |m.live|
    ensures Increasing(Placed(m, js, place))
    ensures forall j: nat :: j in Placed(m, js, place) <==> j in js && PlaceOf(m, j) == place
  {
    if js != [] {
      var front, last := js[..|js| - 1], js[|js| - 1];
      PlacedFacts(m, front, place);
      assert js == front + [last];
      var placed := Placed(m, front, place);
      forall k | 0 <= k < |placed| ensures placed[k] < last { assert placed[k] in placed; }
    }
  }

  /** The slots of the candidates at one place, in order. */
  ghost predicate AllAt(m: Sources, slots: seq<Slot>, place: Place) {
    Sorted(m, slots) &&
    forall slot :: slot in slots <==> slot.Fresh? && slot.j < |m.live| && Candidate(m, slot.j) && PlaceOf(m, slot.j) == place
  }

  lemma FreshFacts(m: Sources, place: Place)
    ensures AllAt(m, FreshSlots(Placed(m, Candidates(m, |m.live|), place)), place)
  {
    CandidatesFacts(m, |m.live|);
    PlacedFacts(m, Candidates(m, |m.live|), place);
    var js := Placed(m, Candidates(m, |m.live|), place);
    hide Candidate, PlaceOf, Candidates, Placed, FreshSlots;
    FreshMembers(js);
    forall k | 0 <= k < |js| ensures Candidate(m, js[k]) && PlaceOf(m, js[k]) == place { assert js[k] in js; }
    FreshSorted(m, js, place);
  }

  lemma FreshSorted(m: Sources, js: seq<nat>, place: Place)
    requires Increasing(js) && forall k :: 0 <= k < |js| ==> js[k] < |m.live| && Candidate(m, js[k]) && PlaceOf(m, js[k]) == place
    ensures Sorted(m, FreshSlots(js))
  {
    hide Candidate, PlaceOf;
    forall p, q | 0 <= p < q < |js| ensures Less(m, FreshSlots(js)[p], FreshSlots(js)[q]) {
      assert FreshSlots(js)[p] == Fresh(js[p]) && FreshSlots(js)[q] == Fresh(js[q]);
    }
  }

  lemma FreshMembers(js: seq<nat>)
    ensures forall slot :: slot in FreshSlots(js) <==> slot.Fresh? && slot.j in js
  {
    forall k | 0 <= k < |js| ensures Fresh(js[k]) in FreshSlots(js) { assert FreshSlots(js)[k] == Fresh(js[k]); }
    forall slot | slot in FreshSlots(js) ensures slot.Fresh? && slot.j in js {
      var k :| 0 <= k < |js| && FreshSlots(js)[k] == slot;
      assert slot == Fresh(js[k]);
    }
  }

  ghost predicate In(m: Sources, slot: Slot, lo: int, hi: int) {
    SlotOk(m, slot) && lo <= BlockOf(m, slot) < hi
  }

  lemma BlockFacts(m: Sources, i: nat)
    requires i < |m.stored|
    ensures Sorted(m, Block(m, i))
    ensures forall slot :: slot in Block(m, i) <==> In(m, slot, i, i + 1)
  {
    FreshFacts(m, Before(i));
    FreshFacts(m, After(i));
    var js := Candidates(m, |m.live|);
    BlockOrder(m, i, FreshSlots(Placed(m, js, Before(i))), FreshSlots(Placed(m, js, After(i))));
  }

  lemma BlockOrder(m: Sources, i: nat, before: seq<Slot>, after: seq<Slot>)
    requires i < |m.stored| && AllAt(m, before, Before(i)) && AllAt(m, after, After(i))
    ensures var block := before + [Stored(i)] + after; Sorted(m, block) && forall slot :: slot in block <==> In(m, slot, i, i + 1)
  {
    var block, n := before + [Stored(i)] + after, |before|;
    forall slot | slot in before ensures SlotOk(m, slot) && BlockOf(m, slot) == i && Phase(m, slot) == 0 {}
    forall slot | slot in after ensures SlotOk(m, slot) && BlockOf(m, slot) == i && Phase(m, slot) == 2 {}
    forall slot | In(m, slot, i, i + 1) ensures slot in before || slot == Stored(i) || slot in after {}
    forall slot ensures slot in block <==> slot in before || slot == Stored(i) || slot in after {}
    hide Candidate, PlaceOf;
    forall p, q | 0 <= p < q < |block| ensures Less(m, block[p], block[q]) {
      if q < n { assert Less(m, before[p], before[q]); }
      else if n < p { assert Less(m, after[p - n - 1], after[q - n - 1]); }
      else { assert p < n ==> block[p] in before; assert n < q ==> block[q] in after; }
    }
  }

  lemma {:induction false} BlocksFacts(m: Sources, n: nat)
    requires n <= |m.stored|
    ensures Sorted(m, Blocks(m, n))
    ensures forall slot :: slot in Blocks(m, n) <==> In(m, slot, 0, n)
  {
    if n == 0 { return; }
    BlocksFacts(m, n - 1);
    BlockFacts(m, n - 1);
    var front, back := Blocks(m, n - 1), Block(m, n - 1);
    assert Blocks(m, n) == front + back;
    hide Blocks, Block;
    JoinIn(m, front, back, n);
  }

  lemma JoinIn(m: Sources, front: seq<Slot>, back: seq<Slot>, n: nat)
    requires n > 0 && Sorted(m, front) && Sorted(m, back)
    requires (forall slot :: slot in front <==> In(m, slot, 0, n - 1)) && forall slot :: slot in back <==> In(m, slot, n - 1, n)
    ensures Sorted(m, front + back) && forall slot :: slot in front + back <==> In(m, slot, 0, n)
  {
    Join(m, front, back, n - 1);
    hide SlotOk, BlockOf, Sorted;
    forall slot ensures slot in front + back <==> slot in front || slot in back {}
  }

  lemma Join(m: Sources, front: seq<Slot>, back: seq<Slot>, cut: int)
    requires Sorted(m, front) && Sorted(m, back)
    requires forall slot :: slot in front ==> SlotOk(m, slot) && BlockOf(m, slot) < cut
    requires forall slot :: slot in back ==> SlotOk(m, slot) && cut <= BlockOf(m, slot)
    ensures Sorted(m, front + back)
  {
    var all := front + back;
    forall p, q | 0 <= p < q < |all| ensures Less(m, all[p], all[q]) {
      if p < |front| <= q { assert all[p] in front && all[q] in back; }
    }
  }

  /** Every stored position and every candidate has exactly one line in the result, and the lines are sorted. */
  lemma PlanFacts(m: Sources)
    ensures Sorted(m, Plan(m))
    ensures forall slot :: slot in Plan(m) <==> SlotOk(m, slot)
  {
    BlocksFacts(m, |m.stored|);
    FreshFacts(m, Tail);
    Join(m, Blocks(m, |m.stored|), FreshSlots(Placed(m, Candidates(m, |m.live|), Tail)), |m.stored|);
    forall slot | SlotOk(m, slot) ensures slot in Plan(m) { assert In(m, slot, 0, |m.stored|) || slot.Fresh?; }
  }

  lemma SlotOnce(m: Sources, p: nat, q: nat)
    requires p < |Plan(m)| && q < |Plan(m)| && Plan(m)[p] == Plan(m)[q]
    ensures p == q
  {
    PlanFacts(m);
  }

  function Lines(m: Sources, slots: seq<Slot>): (r: seq<Item>)
    requires forall k :: 0 <= k < |slots| ==> SlotOk(m, slots[k])
    ensures |r| == |slots|
  {
    seq(|slots|, k requires 0 <= k < |slots| => SlotItem(m, slots[k]))
  }

  /** The merged timeline. */
  function Merged(m: Sources): seq<Item> {
    PlanFacts(m);
    assert forall k :: 0 <= k < |Plan(m)| ==> Plan(m)[k] in Plan(m);
    Lines(m, Plan(m))
  }

  // ----- Size -----------------------------------------------------------------------------

  function Below(m: Sources, js: seq<nat>, n: nat): nat
    requires forall k :: 0 <= k < |js| ==> js[k] < |m.live|
  {
    if js == [] then 0 else
    var place := PlaceOf(m, js[|js| - 1]);
    Below(m, js[..|js| - 1], n) + if !place.Tail? && place.pos < n then 1 else 0
  }

  lemma {:induction false} BelowSplits(m: Sources, js: seq<nat>, n: nat)
    requires forall k :: 0 <= k < |js| ==> js[k] < |m.live|
    ensures Below(m, js, n + 1) == Below(m, js, n) + |Placed(m, js, Before(n))| + |Placed(m, js, After(n))|
    ensures Below(m, js, 0) == 0
    ensures Below(m, js, |m.stored|) + |Placed(m, js, Tail)| == |js|
  {
    if js != [] { BelowSplits(m, js[..|js| - 1], n); }
  }

  lemma {:induction false} BlocksSize(m: Sources, n: nat)
    requires n <= |m.stored|
    ensures |Blocks(m, n)| == n + Below(m, Candidates(m, |m.live|), n)
  {
    hide *;
    if n == 0 { NoBlocks(m); }
    else {
      BlocksSize(m, n - 1);
      NextBlock(m, n - 1);
    }
  }

  lemma NoBlocks(m: Sources)
    ensures |Blocks(m, 0)| == 0 && Below(m, Candidates(m, |m.live|), 0) == 0
  {
    BelowSplits(m, Candidates(m, |m.live|), 0);
  }

  lemma NextBlock(m: Sources, i: nat)
    requires i < |m.stored|
    ensures |Blocks(m, i + 1)| - |Blocks(m, i)| ==
      1 + Below(m, Candidates(m, |m.live|), i + 1) - Below(m, Candidates(m, |m.live|), i)
  {
    assert |Blocks(m, i + 1)| == |Blocks(m, i)| + |Block(m, i)|;
    BlockSize(m, i);
    BelowSplits(m, Candidates(m, |m.live|), i);
    hide *;
  }

  lemma BlockSize(m: Sources, i: nat)
    requires i < |m.stored|
    ensures |Block(m, i)| ==
      1 + |Placed(m, Candidates(m, |m.live|), Before(i))| + |Placed(m, Candidates(m, |m.live|), After(i))|
  {
    hide Placed, Candidates;
  }

  lemma MergedSize(m: Sources)
    ensures |Merged(m)| == |m.stored| + |Candidates(m, |m.live|)|
  {
    BlocksSize(m, |m.stored|);
    BelowSplits(m, Candidates(m, |m.live|), 0);
  }

  // ----- The three-way merge of keyed items -------------------------------------------------

  predicate HasKey(items: seq<Item>, key: Key) {
    Find(items, key, |items|).Some?
  }

  function ItemOf(items: seq<Item>, key: Key): Item
    requires HasKey(items, key)
  {
    items[Find(items, key, |items|).value]
  }

  /** What a keyed item of the result should be, key by key. */
  function ThreeWay(m: Sources, key: Key): Option<Item> {
    var inStored, inLive := HasKey(m.stored, key), HasKey(m.live, key);
    var changed := HasKey(m.base, key) && inLive && ItemOf(m.base, key) != ItemOf(m.live, key);
    var news := !HasKey(m.base, key);
    if inStored && inLive then
      Some(if changed || (news && ItemOf(m.live, key).Approval?) then ItemOf(m.live, key) else ItemOf(m.stored, key))
    else if inStored then Some(ItemOf(m.stored, key))
    else if inLive && (news || changed) then Some(ItemOf(m.live, key))
    else None
  }

  /** Line `p` of the result carries `key`. */
  predicate Carries(m: Sources, p: nat, key: Key) {
    p < |Plan(m)| && SlotOk(m, Plan(m)[p]) && SlotKey(m, Plan(m)[p]) == Some(key)
  }

  lemma KeyedItem(m: Sources, p: nat, key: Key)
    requires Carries(m, p, key)
    ensures ThreeWay(m, key) == Some(Merged(m)[p])
    ensures StableIdentity(Merged(m)[p]) == Some(key.identity)
  {
    match Plan(m)[p]
    case Stored(i) => FindAt(m.stored, i);
    case Fresh(j) => FindAt(m.live, j);
  }

  lemma KeyedLine(m: Sources, key: Key)
    requires ThreeWay(m, key).Some?
    ensures exists p: nat :: Carries(m, p, key)
  {
    PlanFacts(m);
    var slot := if HasKey(m.stored, key) then Stored(Find(m.stored, key, |m.stored|).value)
                else Fresh(Find(m.live, key, |m.live|).value);
    assert SlotOk(m, slot) && slot in Plan(m);
    var p: nat :| p < |Plan(m)| && Plan(m)[p] == slot;
    assert Carries(m, p, key);
  }

  lemma KeyedOnce(m: Sources, p: nat, q: nat, key: Key)
    requires Carries(m, p, key) && Carries(m, q, key)
    ensures p == q
  {
    SlotsOfKey(m, Plan(m)[p], Plan(m)[q], key);
    SlotOnce(m, p, q);
  }

  lemma SlotsOfKey(m: Sources, a: Slot, b: Slot, key: Key)
    requires SlotOk(m, a) && SlotOk(m, b) && SlotKey(m, a) == Some(key) && SlotKey(m, b) == Some(key)
    ensures a == b
  {
    match (a, b)
    case (Stored(i), Stored(k)) => KeysDistinct(m.stored, i, k);
    case (Fresh(i), Fresh(k)) => KeysDistinct(m.live, i, k);
    case _ =>
  }

  /** On keyed items the merge is the pointwise three-way merge, and no key appears twice. */
  lemma ThreeWayMerge(m: Sources, key: Key)
    ensures ThreeWay(m, key).Some? <==> exists p: nat :: Carries(m, p, key)
    ensures forall p: nat :: Carries(m, p, key) ==> ThreeWay(m, key) == Some(Merged(m)[p])
    ensures forall p: nat, q: nat :: Carries(m, p, key) && Carries(m, q, key) ==> p == q
  {
    if ThreeWay(m, key).Some? { KeyedLine(m, key); }
    forall p: nat | Carries(m, p, key) ensures ThreeWay(m, key) == Some(Merged(m)[p]) { KeyedItem(m, p, key); }
    forall p: nat, q: nat | Carries(m, p, key) && Carries(m, q, key) ensures p == q { KeyedOnce(m, p, q, key); }
  }

  // ----- Items without a key ------------------------------------------------------------------

  lemma {:induction false} CopiesGrow(items: seq<Item>, item: Item, i: nat, j: nat)
    requires i <= j <= |items|
    ensures Copies(items, item, i) <= Copies(items, item, j)
    decreases j
  {
    if i < j { CopiesGrow(items, item, i, j - 1); }
  }

  /** The copy of `item` that has exactly `rank` copies before it. */
  function Copy(items: seq<Item>, item: Item, rank: nat, n: nat): (i: nat)
    requires n <= |items| && rank < Copies(items, item, n)
    ensures i < n && KeyAt(items, i).None? && items[i] == item && Copies(items, item, i) == rank
  {
    if rank < Copies(items, item, n - 1) then Copy(items, item, rank, n - 1) else n - 1
  }

  predicate Missing(m: Sources, j: nat) {
    j < |m.live| && KeyAt(m.live, j).None? && !Candidate(m, j)
  }

  /** The stored item that stands for a live item missing from the result. */
  function Witness(m: Sources, j: nat): nat
    requires Missing(m, j)
  {
    if Matched(m, j) then Copy(m.stored, m.live[j], Copies(m.live, m.live[j], j), |m.stored|) else Takeover(m, j).value
  }

  /** An equal stored item without a key, or a stored message new to the baseline, between the anchors, that subsumes it. */
  predicate AccountsFor(m: Sources, i: nat, j: nat)
    requires j < |m.live|
  {
    i < |m.stored| &&
    ((KeyAt(m.stored, i).None? && m.stored[i] == m.live[j]) ||
     (IsStoredMessage(m, i) && Unknown(m, KeyAt(m.stored, i).value) && Between(m, i, j) && Subsumes(m.stored[i], m.live[j])))
  }

  lemma {:induction false} TakenGrows(m: Sources, j: nat, k: nat)
    requires j <= k <= |m.live|
    ensures Taken(m, j) <= Taken(m, k)
    decreases k
  {
    if j < k { TakenGrows(m, j, k - 1); }
  }

  /** The first copy taken over is never offered again. */
  lemma TakeoverOnce(m: Sources, j: nat, k: nat)
    requires Missing(m, j) && Missing(m, k) && j < k && !Matched(m, j) && !Matched(m, k)
    ensures Witness(m, j) != Witness(m, k)
  {
    TakenGrows(m, j + 1, k);
  }

  lemma CopyOnce(m: Sources, j: nat, k: nat)
    requires Missing(m, j) && Missing(m, k) && j < k && Matched(m, j) && Matched(m, k)
    ensures Witness(m, j) != Witness(m, k)
  {
    if m.live[j] == m.live[k] { CopiesGrow(m.live, m.live[j], j + 1, k); }
  }

  lemma MissingAccounted(m: Sources, j: nat)
    requires Missing(m, j)
    ensures AccountsFor(m, Witness(m, j), j)
    ensures forall k: nat :: Missing(m, k) && k != j ==> Witness(m, k) != Witness(m, j)
  {
    TakenGrows(m, 0, j);
    forall k: nat | Missing(m, k) && k != j ensures Witness(m, k) != Witness(m, j) {
      var lo, hi := if j < k then j else k, if j < k then k else j;
      if Matched(m, lo) && Matched(m, hi) { CopyOnce(m, lo, hi); }
      if !Matched(m, lo) && !Matched(m, hi) { TakeoverOnce(m, lo, hi); }
      if !Matched(m, j) { StoredMessageKey(m, Witness(m, j)); }
      if !Matched(m, k) { StoredMessageKey(m, Witness(m, k)); }
    }
  }

  // ----- Merging a snapshot into itself -----------------------------------------------------------

  lemma NoCandidate(m: Sources, j: nat)
    requires m.live == m.stored && j < |m.live|
    ensures !Candidate(m, j)
  {
    if KeyAt(m.live, j).Some? { FindAt(m.stored, j); } else { CopiesGrow(m.stored, m.live[j], j + 1, |m.stored|); }
  }

  lemma {:induction false} NoCandidates(m: Sources, n: nat)
    requires m.live == m.stored && n <= |m.live|
    ensures Candidates(m, n) == []
  {
    if n > 0 { NoCandidate(m, n - 1); NoCandidates(m, n - 1); }
  }

  lemma {:induction false} PlainBlocks(m: Sources, n: nat)
    requires n <= |m.stored| && Candidates(m, |m.live|) == []
    ensures |Blocks(m, n)| == n && forall i :: 0 <= i < n ==> Blocks(m, n)[i] == Stored(i)
  {
    if n > 0 { PlainBlocks(m, n - 1); assert Block(m, n - 1) == [Stored(n - 1)]; }
  }

  /** Nothing happened while the snapshot was loaded: the result is the snapshot, whatever the baseline. */
  lemma MergeOfItself(m: Sources)
    requires m.live == m.stored
    ensures Merged(m) == m.stored
  {
    NoCandidates(m, |m.live|);
    PlainBlocks(m, |m.stored|);
    forall i | 0 <= i < |m.stored| ensures MergedItem(m, i) == m.stored[i] {
      if LivePos(m, i).Some? { FindAt(m.live, i); }
    }
  }

  // ----- Order ----------------------------------------------------------------------------------------

  /** Every stored position has a line of its own, and these lines keep the order of the snapshot. */
  lemma SnapshotOrder(m: Sources, p: nat, q: nat)
    requires p < q < |Plan(m)| && Plan(m)[p].Stored? && Plan(m)[q].Stored?
    ensures Plan(m)[p].i < Plan(m)[q].i
    ensures forall i: nat :: i < |m.stored| ==> Stored(i) in Plan(m)
  {
    PlanFacts(m);
    assert Less(m, Plan(m)[p], Plan(m)[q]);
    forall i: nat | i < |m.stored| ensures Stored(i) in Plan(m) { assert SlotOk(m, Stored(i)); }
  }

  /** The items both lists have are in the same order in both. */
  ghost predicate Aligned(m: Sources) {
    forall i, k :: 0 <= i < k < |m.stored| && LivePos(m, i).Some? && LivePos(m, k).Some? ==> LivePos(m, i).value < LivePos(m, k).value
  }

  /** The live item a line stands for. */
  function LiveIndex(m: Sources, slot: Slot): (j: Option<nat>)
    requires SlotOk(m, slot)
  {
    match slot
    case Stored(i) => LivePos(m, i)
    case Fresh(j) => Some(j)
  }

  lemma AnchorPos(m: Sources, a: nat)
    requires Anchor(m, a)
    ensures LivePos(m, StoredPos(m, a).value) == Some(a)
  {
    PosInverse(m, StoredPos(m, a).value, a);
  }

  lemma AnchorsAligned(m: Sources, a: nat, c: nat)
    requires Aligned(m) && Anchor(m, a) && Anchor(m, c)
    ensures StoredPos(m, a).value < StoredPos(m, c).value <==> a < c
  {
    AnchorPos(m, a);
    AnchorPos(m, c);
  }

  /** The block of a candidate is fenced by the anchors around it. */
  lemma Fenced(m: Sources, j: nat, a: nat)
    requires Aligned(m) && j < |m.live| && Candidate(m, j) && Anchor(m, a)
    ensures j < a ==> (PlaceOf(m, j).Before? && PlaceOf(m, j).pos <= StoredPos(m, a).value)
    ensures a < j ==> StoredPos(m, a).value < BlockOf(m, Fresh(j)) || (PlaceOf(m, j).After? && StoredPos(m, a).value == PlaceOf(m, j).pos)
  {
    var prev, next := PrevAnchor(m, j), NextAnchor(m, j);
    if next.Some? { AnchorsAligned(m, next.value, a); AnchorsAligned(m, a, next.value); }
    if prev.Some? { AnchorsAligned(m, prev.value, a); AnchorsAligned(m, a, prev.value); }
  }

  lemma CandidatesOrder(m: Sources, j: nat, k: nat)
    requires Aligned(m) && j < |m.live| && k < |m.live| && Candidate(m, j) && Candidate(m, k) && j < k
    ensures Less(m, Fresh(j), Fresh(k))
  {
    var a := NextAnchor(m, j);
    if a.Some? {
      if a.value < k { Fenced(m, k, a.value); Fenced(m, j, a.value); }
      else { assert a.value != k; assert NextAnchor(m, k) == a by { SameNext(m, j, k); } }
    } else { SameLast(m, j, k); }
  }

  lemma {:induction false} SkipToAnchor(m: Sources, j: nat, k: nat)
    requires j <= k <= |m.live| && forall i :: j <= i < k ==> !Anchor(m, i)
    ensures AnchorFrom(m, j) == AnchorFrom(m, k)
    decreases k - j
  {
    if j < k { SkipToAnchor(m, j + 1, k); }
  }

  lemma SameNext(m: Sources, j: nat, k: nat)
    requires j < k < |m.live| && NextAnchor(m, j).Some? && k < NextAnchor(m, j).value
    ensures NextAnchor(m, k) == NextAnchor(m, j)
  {
    SkipToAnchor(m, j + 1, k + 1);
  }

  /** Past the last anchor nothing changes any more. */
  lemma SameLast(m: Sources, j: nat, k: nat)
    requires j < k < |m.live| && NextAnchor(m, j).None? && !Anchor(m, j)
    ensures NextAnchor(m, k).None? && PrevAnchor(m, k) == PrevAnchor(m, j)
  {
    SkipToAnchor(m, j + 1, k + 1);
    SkipBack(m, j, k);
  }

  lemma {:induction false} SkipBack(m: Sources, j: nat, k: nat)
    requires j <= k <= |m.live| && forall i :: j <= i < k ==> !Anchor(m, i)
    ensures PrevAnchor(m, k) == PrevAnchor(m, j)
    decreases k - j
  {
    if j < k { SkipBack(m, j, k - 1); }
  }

  lemma SlotsOrder(m: Sources, a: Slot, b: Slot)
    requires Aligned(m) && SlotOk(m, a) && SlotOk(m, b) && LiveIndex(m, a).Some? && LiveIndex(m, b).Some?
    requires LiveIndex(m, a).value < LiveIndex(m, b).value
    ensures Less(m, a, b)
  {
    match (a, b)
    case (Stored(i), Stored(k)) =>
      PosInverse(m, i, LivePos(m, i).value);
      PosInverse(m, k, LivePos(m, k).value);
      AnchorsAligned(m, LivePos(m, i).value, LivePos(m, k).value);
    case (Stored(i), Fresh(k)) => PosInverse(m, i, LivePos(m, i).value); Fenced(m, k, LivePos(m, i).value);
    case (Fresh(j), Stored(k)) => PosInverse(m, k, LivePos(m, k).value); Fenced(m, j, LivePos(m, k).value);
    case (Fresh(j), Fresh(k)) => CandidatesOrder(m, j, k);
  }

  /** Line `p` of the result stands for a live item. */
  predicate Survives(m: Sources, p: int) {
    0 <= p < |Plan(m)| && SlotOk(m, Plan(m)[p]) && LiveIndex(m, Plan(m)[p]).Some?
  }

  /** With aligned anchors the surviving live items, anchors and candidates, keep the order of the live list. */
  lemma LiveOrder(m: Sources, p: nat, q: nat)
    requires Aligned(m) && p < q && Survives(m, p) && Survives(m, q)
    ensures LiveIndex(m, Plan(m)[p]).value < LiveIndex(m, Plan(m)[q]).value
  {
    PlanFacts(m);
    var a, b := Plan(m)[p], Plan(m)[q];
    assert Less(m, a, b);
    if LiveIndex(m, b).value < LiveIndex(m, a).value { SlotsOrder(m, b, a); }
    if LiveIndex(m, b).value == LiveIndex(m, a).value { SameLive(m, a, b); }
  }

  lemma SameLive(m: Sources, a: Slot, b: Slot)
    requires SlotOk(m, a) && SlotOk(m, b) && LiveIndex(m, a).Some? && LiveIndex(m, a) == LiveIndex(m, b)
    ensures a == b
  {
    var j := LiveIndex(m, a).value;
    if a.Stored? { PosInverse(m, a.i, j); }
    if b.Stored? { PosInverse(m, b.i, j); }
  }

  /** With aligned anchors, a stored message that takes over an optimistic item has no live counterpart of its own. */
  lemma TakeoverIsNew(m: Sources, j: nat)
    requires Aligned(m) && Missing(m, j) && !Matched(m, j)
    ensures LivePos(m, Takeover(m, j).value).None?
  {
    var i := Takeover(m, j).value;
    if LivePos(m, i).Some? {
      var a := LivePos(m, i).value;
      PosInverse(m, i, a);
      if a < j { TakenGrows(m, a + 1, j); }
      else {
        var next := NextAnchor(m, j);
        assert Anchor(m, a) && a != j && Between(m, i, j);
        if next.value < a { AnchorsAligned(m, next.value, a); }
      }
    }
  }

  ghost predicate KeepsLiveOrder(m: Sources) {
    forall p, q :: 0 <= p < q < |Plan(m)| && Survives(m, p) && Survives(m, q) ==>
      LiveIndex(m, Plan(m)[p]).value < LiveIndex(m, Plan(m)[q]).value
  }

  /** The result keeps the order of the live list exactly when the two lists agree on the order of what they share. */
  lemma LiveOrderExactly(m: Sources)
    ensures KeepsLiveOrder(m) <==> Aligned(m)
  {
    if Aligned(m) {
      forall p: nat, q: nat | p < q < |Plan(m)| && Survives(m, p) && Survives(m, q)
        ensures LiveIndex(m, Plan(m)[p]).value < LiveIndex(m, Plan(m)[q]).value
      {
        LiveOrder(m, p, q);
      }
    }
    if KeepsLiveOrder(m) {
      forall i: nat, k: nat | i < k < |m.stored| && LivePos(m, i).Some? && LivePos(m, k).Some?
        ensures LivePos(m, i).value < LivePos(m, k).value
      {
        SharedOrder(m, i, k);
      }
    }
  }

  lemma SharedOrder(m: Sources, i: nat, k: nat)
    requires KeepsLiveOrder(m) && i < k < |m.stored| && LivePos(m, i).Some? && LivePos(m, k).Some?
    ensures LivePos(m, i).value < LivePos(m, k).value
  {
    var p := StoredLine(m, i);
    var q := StoredLine(m, k);
    if q < p { SnapshotOrder(m, q, p); }
  }

  lemma StoredLine(m: Sources, i: nat) returns (p: nat)
    requires i < |m.stored|
    ensures p < |Plan(m)| && Plan(m)[p] == Stored(i)
  {
    PlanFacts(m);
    assert SlotOk(m, Stored(i));
    var k :| 0 <= k < |Plan(m)| && Plan(m)[k] == Stored(i);
    p := k;
  }

  // ----- Where a candidate is shown, and why -----------------------------------------------------------

  lemma SlotsInOrder(m: Sources, p: nat, q: nat)
    requires p < |Plan(m)| && q < |Plan(m)|
    ensures p < q <==> Less(m, Plan(m)[p], Plan(m)[q])
  {
    PlanFacts(m);
    hide Plan, BlockOf, Phase;
  }

  /** In the order of the plan a new item stands beside the stored item it is placed at. */
  lemma BesideAnchor(m: Sources, j: nat, slot: Slot)
    requires j < |m.live| && SlotOk(m, Fresh(j))
    ensures var next, prev := NextAnchor(m, j), PrevAnchor(m, j);
            (next.Some? && slot == Stored(StoredPos(m, next.value).value) ==>
              Less(m, Fresh(j), slot) && forall z :: Less(m, Fresh(j), z) && Less(m, z, slot) ==> z.Fresh?) &&
            (next.None? && prev.Some? && slot == Stored(StoredPos(m, prev.value).value) ==>
              Less(m, slot, Fresh(j)) && forall z :: Less(m, slot, z) && Less(m, z, Fresh(j)) ==> z.Fresh?)
  {
    var at := PlaceOf(m, j);
    assert NextAnchor(m, j).Some? ==> at == Before(StoredPos(m, NextAnchor(m, j).value).value);
    assert NextAnchor(m, j).None? && PrevAnchor(m, j).Some? ==> at == After(StoredPos(m, PrevAnchor(m, j).value).value);
    hide PlaceOf, NextAnchor, PrevAnchor, StoredPos, Candidate;
  }

  /** A candidate stands right before its next anchor, or right after the last one: only other candidates come between. */
  lemma HugsAnchor(m: Sources, p: nat, q: nat, r: nat)
    requires p < |Plan(m)| && q < |Plan(m)| && r < |Plan(m)| && Plan(m)[p].Fresh? && Plan(m)[p].j < |m.live|
    ensures var j := Plan(m)[p].j; var next, prev := NextAnchor(m, j), PrevAnchor(m, j);
            (next.Some? && Plan(m)[q] == Stored(StoredPos(m, next.value).value) ==> p < q && (p < r < q ==> Plan(m)[r].Fresh?)) &&
            (next.None? && prev.Some? && Plan(m)[q] == Stored(StoredPos(m, prev.value).value) ==> q < p && (q < r < p ==> Plan(m)[r].Fresh?))
  {
    hide *;
    PlanFacts(m);
    assert Plan(m)[p] in Plan(m);
    BesideAnchor(m, Plan(m)[p].j, Plan(m)[q]);
    SlotsInOrder(m, p, q);
    SlotsInOrder(m, q, p);
    SlotsInOrder(m, p, r);
    SlotsInOrder(m, r, p);
    SlotsInOrder(m, q, r);
    SlotsInOrder(m, r, q);
  }

  /** When the lists share nothing, new content is shown before the first pending approval, else at the end. */
  lemma BeforeApprovals(m: Sources, p: nat, q: nat)
    requires (forall j :: 0 <= j < |m.live| ==> !Anchor(m, j)) && p < |Plan(m)| && q < |Plan(m)|
    requires Plan(m)[p].Fresh? && Plan(m)[p].j < |m.live| && Plan(m)[q].Stored?
    ensures p < q <==> ApprovalFrom(m, 0).Some? && ApprovalFrom(m, 0).value <= Plan(m)[q].i
  {
    PlanFacts(m);
    if p < q { assert Less(m, Plan(m)[p], Plan(m)[q]); } else { assert Less(m, Plan(m)[q], Plan(m)[p]); }
  }

  /** Stored message `i` has the key of live item `k`. */
  predicate SharedBy(m: Sources, i: nat, k: nat) {
    k < |m.live| && IsStoredMessage(m, i) && StoredPos(m, k) == Some(i)
  }

  /** Stored message `i` took the place of the optimistic live item `k`. */
  predicate TakenOver(m: Sources, i: nat, k: nat) {
    Missing(m, k) && !Matched(m, k) && Takeover(m, k) == Some(i)
  }

  /** The stored messages spoken for: known before, shared with an earlier live item, or taken over by one. */
  lemma {:induction false} TakenIs(m: Sources, n: nat, i: nat)
    requires n <= |m.live|
    ensures i in Taken(m, n) <==>
      i in KnownMessages(m) || (exists k :: 0 <= k < n && SharedBy(m, i, k)) || (exists k :: 0 <= k < n && TakenOver(m, i, k))
  {
    if n == 0 { assert Taken(m, 0) == KnownMessages(m); }
    else {
      TakenNext(m, n - 1, i);
      hide *;
      TakenIs(m, n - 1, i);
    }
  }

  lemma TakenNext(m: Sources, n: nat, i: nat)
    requires n < |m.live|
    ensures i in Taken(m, n + 1) <==> i in Taken(m, n) || SharedBy(m, i, n) || TakenOver(m, i, n)
  {
    hide Matched, IsStoredMessage, KeyAt, Takeover;
  }

  /** An optimistic item is shown only when no stored item is left that would account for it; otherwise the latest one does. */
  lemma ShownOnlyIfUnclaimed(m: Sources, j: nat, i: nat)
    requires j < |m.live| && KeyAt(m.live, j).None? && !Matched(m, j) && m.live[j].Msg? && !Truthy(m.live[j].sendError)
    requires i < |m.stored| && i !in Taken(m, j) && Claims(m, i, j)
    ensures !Candidate(m, j) && i <= Takeover(m, j).value
  {
    LatestClaim(m, j, Taken(m, j), |m.stored|, i);
  }

  lemma {:induction false} LatestClaim(m: Sources, j: nat, taken: set<nat>, n: nat, i: nat)
    requires j < |m.live| && i < n <= |m.stored| && i !in taken && Claims(m, i, j)
    ensures LastClaim(m, j, taken, n).Some? && i <= LastClaim(m, j, taken, n).value
  {
    if i < n - 1 { LatestClaim(m, j, taken, n - 1, i); }
  }

  function Bubble(id: string): Item {
    Msg(User, id, None, None, Some(id), None, None, None, None, None, "")
  }

  /** A snapshot and a live list that show two messages in opposite order. */
  const Crossed := Sources([Bubble("a"), Bubble("b")], [], [Bubble("b"), Bubble("a")])

  lemma TwoKeys(items: seq<Item>, a: string, b: string)
    requires items == [Bubble(a), Bubble(b)] && a != "" && b != "" && a != b
    ensures KeyAt(items, 0) == Some(Key(MessageId(a), 0)) && KeyAt(items, 1) == Some(Key(MessageId(b), 0))
  {
    assert Occurrences(items, MessageId(b), 0) == 0;
  }

  lemma CrossedBreaksOrder()
    ensures !KeepsLiveOrder(Crossed)
  {
    TwoKeys(Crossed.stored, "a", "b");
    TwoKeys(Crossed.live, "b", "a");
    FindAt(Crossed.live, 0);
    FindAt(Crossed.live, 1);
    LiveOrderExactly(Crossed);
    hide KeyAt, Find, KeepsLiveOrder;
    assert LivePos(Crossed, 0) == Some(1) && LivePos(Crossed, 1) == Some(0);
  }
}
