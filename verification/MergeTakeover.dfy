/** Which stored message takes the place of an optimistic bubble, field by field. */
module MergeTakeover {
  import opened Options
  import opened Timeline
  import opened MergeSpec
  import opened MergeTheorems

  // ----- Keys -------------------------------------------------------------------------------

  /** Two messages with one id, or two approvals with one id. */
  predicate SameThing(a: Item, b: Item) {
    (a.Msg? && b.Msg? && a.messageId == b.messageId) || (a.Approval? && b.Approval? && a.approvalId == b.approvalId)
  }

  /** The positions before `n` that hold the same thing as `item`. */
  function Earlier(items: seq<Item>, item: Item, n: nat): set<nat>
    requires n <= |items|
  {
    set k | 0 <= k < n && SameThing(items[k], item)
  }

  lemma {:induction false} EarlierCounts(items: seq<Item>, item: Item, n: nat)
    requires n <= |items| && StableIdentity(item).Some?
    ensures Occurrences(items, StableIdentity(item).value, n) == |Earlier(items, item, n)|
  {
    if n == 0 { assert Earlier(items, item, 0) == {}; }
    else {
      EarlierCounts(items, item, n - 1);
      CountNext(items, item, n - 1);
      EarlierNext(items, item, n - 1);
      hide *;
    }
  }

  lemma CountNext(items: seq<Item>, item: Item, n: nat)
    requires n < |items| && StableIdentity(item).Some?
    ensures var id := StableIdentity(item).value;
            Occurrences(items, id, n + 1) == Occurrences(items, id, n) + if SameThing(items[n], item) then 1 else 0
  {
  }

  lemma EarlierNext(items: seq<Item>, item: Item, n: nat)
    requires n < |items|
    ensures |Earlier(items, item, n + 1)| == |Earlier(items, item, n)| + if SameThing(items[n], item) then 1 else 0
  {
    hide SameThing;
    assert Earlier(items, item, n + 1) == if SameThing(items[n], item) then Earlier(items, item, n) + {n} else Earlier(items, item, n);
  }

  /** Messages and approvals with an id have a key, and nothing else has; keys are equal for the same occurrence of the same thing. */
  lemma KeysAre(a: seq<Item>, i: nat, b: seq<Item>, j: nat)
    requires i < |a| && j < |b|
    ensures KeyAt(a, i).Some? <==>
      (a[i].Msg? && a[i].messageId.Some? && a[i].messageId.value != "") || (a[i].Approval? && a[i].approvalId != "")
    ensures KeyAt(a, i).Some? && KeyAt(b, j).Some? ==>
      (KeyAt(a, i) == KeyAt(b, j) <==> SameThing(a[i], b[j]) && |Earlier(a, a[i], i)| == |Earlier(b, b[j], j)|)
  {
    if KeyAt(a, i).Some? { EarlierCounts(a, a[i], i); }
    if KeyAt(b, j).Some? { EarlierCounts(b, b[j], j); }
    hide Occurrences, Earlier;
  }

  // ----- The gap between the anchors ------------------------------------------------------------

  /** Stored item `i` and live item `k` have one key. */
  predicate Shared(m: Sources, i: nat, k: nat) {
    i < |m.stored| && k < |m.live| && KeyAt(m.stored, i).Some? && KeyAt(m.stored, i) == KeyAt(m.live, k)
  }

  ghost predicate Unshared(m: Sources, k: nat) {
    forall i :: !Shared(m, i, k)
  }

  /** Stored position `i` comes after what the last shared item before live item `j` stands for, and before the next one. */
  ghost predicate InGap(m: Sources, i: nat, j: nat) {
    (forall k: nat, p: nat :: k < j && Shared(m, p, k) && (forall l: nat :: k < l < j ==> Unshared(m, l)) ==> p < i) &&
    (forall k: nat, p: nat :: j < k && Shared(m, p, k) && (forall l: nat :: j < l < k ==> Unshared(m, l)) ==> i < p)
  }

  lemma SharedIs(m: Sources, i: nat, k: nat)
    ensures Shared(m, i, k) <==> k < |m.live| && StoredPos(m, k) == Some(i)
    ensures k < |m.live| ==> (Anchor(m, k) <==> !Unshared(m, k))
  {
    if Shared(m, i, k) { FindAt(m.stored, i); }
    if k < |m.live| && StoredPos(m, k).Some? { assert Shared(m, StoredPos(m, k).value, k); }
    if k < |m.live| && !Unshared(m, k) { var p :| Shared(m, p, k); FindAt(m.stored, p); }
  }

  lemma BeforeIs(m: Sources, i: nat, j: nat)
    requires j < |m.live|
    ensures (forall k: nat, p: nat :: k < j && Shared(m, p, k) && (forall l: nat :: k < l < j ==> Unshared(m, l)) ==> p < i) <==>
      (PrevAnchor(m, j).Some? ==> StoredPos(m, PrevAnchor(m, j).value).value < i)
  {
    var prev := PrevAnchor(m, j);
    forall k: nat, p: nat ensures Shared(m, p, k) <==> k < |m.live| && StoredPos(m, k) == Some(p) { SharedIs(m, p, k); }
    forall k: nat | k < |m.live| ensures Anchor(m, k) <==> !Unshared(m, k) { SharedIs(m, 0, k); }
    hide Shared, Unshared, StoredPos;
    if prev.Some? {
      assert Shared(m, StoredPos(m, prev.value).value, prev.value);
      assert forall l: nat :: prev.value < l < j ==> Unshared(m, l);
      forall k: nat, p: nat | k < j && Shared(m, p, k) && (forall l: nat :: k < l < j ==> Unshared(m, l)) ensures k == prev.value {
        assert Anchor(m, k) && !Unshared(m, prev.value);
      }
    } else {
      forall k: nat, p: nat | k < j ensures !Shared(m, p, k) { assert Shared(m, p, k) ==> Anchor(m, k); }
    }
  }

  lemma BehindIs(m: Sources, i: nat, j: nat)
    requires j < |m.live|
    ensures (forall k: nat, p: nat :: j < k && Shared(m, p, k) && (forall l: nat :: j < l < k ==> Unshared(m, l)) ==> i < p) <==>
      (NextAnchor(m, j).Some? ==> i < StoredPos(m, NextAnchor(m, j).value).value)
  {
    var next := NextAnchor(m, j);
    forall k: nat, p: nat ensures Shared(m, p, k) <==> k < |m.live| && StoredPos(m, k) == Some(p) { SharedIs(m, p, k); }
    forall k: nat | k < |m.live| ensures Anchor(m, k) <==> !Unshared(m, k) { SharedIs(m, 0, k); }
    hide Shared, Unshared, StoredPos;
    if next.Some? {
      assert Shared(m, StoredPos(m, next.value).value, next.value);
      assert forall l: nat :: j < l < next.value ==> Unshared(m, l);
      forall k: nat, p: nat | j < k && Shared(m, p, k) && (forall l: nat :: j < l < k ==> Unshared(m, l)) ensures k == next.value {
        assert Anchor(m, k) && !Unshared(m, next.value);
      }
    } else {
      forall k: nat, p: nat | j < k ensures !Shared(m, p, k) { assert Shared(m, p, k) ==> Anchor(m, k); }
    }
  }

  lemma GapIs(m: Sources, i: nat, j: nat)
    requires j < |m.live|
    ensures Between(m, i, j) <==> InGap(m, i, j)
  {
    BeforeIs(m, i, j);
    BehindIs(m, i, j);
    hide Shared, Unshared, PrevAnchor, NextAnchor, StoredPos;
  }

  // ----- What is shown ---------------------------------------------------------------------------

  /** The live item has a line of its own in the merged timeline, and it shows the item. */
  ghost predicate ShownLive(m: Sources, j: nat) {
    j < |m.live| && |Plan(m)| == |Merged(m)| && exists p :: 0 <= p < |Merged(m)| && Plan(m)[p] == Fresh(j) && Merged(m)[p] == m.live[j]
  }

  lemma ShownIs(m: Sources, j: nat)
    requires j < |m.live|
    ensures ShownLive(m, j) <==> Candidate(m, j)
  {
    PlanFacts(m);
    hide Plan, Candidate;
    assert SlotOk(m, Fresh(j)) <==> Candidate(m, j);
    if Candidate(m, j) {
      var p :| 0 <= p < |Plan(m)| && Plan(m)[p] == Fresh(j);
      assert Merged(m)[p] == SlotItem(m, Plan(m)[p]);
    }
    if ShownLive(m, j) {
      var p :| 0 <= p < |Merged(m)| && Plan(m)[p] == Fresh(j);
      assert Plan(m)[p] in Plan(m);
    }
  }

  /** No key, and the snapshot has no unused copy of it. */
  predicate Optimistic(m: Sources, j: nat) {
    j < |m.live| && KeyAt(m.live, j).None? && !Matched(m, j)
  }

  /** A stored message with an id that nothing has been set against yet, between the anchors of live item `j`. */
  ghost predicate Available(m: Sources, i: nat, j: nat) {
    j < |m.live| && i < |m.stored| && m.stored[i].Msg? && m.stored[i].messageId.Some? && m.stored[i].messageId.value != "" &&
    i !in Taken(m, j) && InGap(m, i, j)
  }

  /** The item is one that a stored message may take over. */
  predicate Replaceable(item: Item) {
    item.Msg? && !Truthy(item.sendError)
  }

  lemma ClaimIs(m: Sources, i: nat, j: nat)
    requires j < |m.live|
    ensures Available(m, i, j) && Subsumes(m.stored[i], m.live[j]) <==> i !in Taken(m, j) && Claims(m, i, j)
  {
    GapIs(m, i, j);
    hide Between, InGap, Taken, Subsumes;
  }

  lemma TakenOverIs(m: Sources, j: nat)
    requires Optimistic(m, j)
    ensures Candidate(m, j) <==>
      !(Replaceable(m.live[j]) && exists i: nat :: Available(m, i, j) && Subsumes(m.stored[i], m.live[j]))
  {
    assert Candidate(m, j) <==> Takeover(m, j).None?;
    assert !Replaceable(m.live[j]) ==> Takeover(m, j).None?;
    hide Available, Subsumes, Claims, Matched, Taken, Candidate;
    if Takeover(m, j).Some? {
      ClaimIs(m, Takeover(m, j).value, j);
    } else if Replaceable(m.live[j]) {
      forall i: nat ensures !(Available(m, i, j) && Subsumes(m.stored[i], m.live[j])) { NotClaimed(m, i, j); }
    }
  }

  lemma NotClaimed(m: Sources, i: nat, j: nat)
    requires j < |m.live| && Replaceable(m.live[j]) && Takeover(m, j).None?
    ensures !(Available(m, i, j) && Subsumes(m.stored[i], m.live[j]))
  {
    ClaimIs(m, i, j);
    hide Available, Subsumes, Claims, Taken, Takeover;
    if i !in Taken(m, j) && Claims(m, i, j) { ClaimedTaken(m, i, j); }
  }

  lemma ClaimedTaken(m: Sources, i: nat, j: nat)
    requires j < |m.live| && Replaceable(m.live[j]) && i !in Taken(m, j) && Claims(m, i, j)
    ensures Takeover(m, j).Some?
  {
    InStored(m, i, j);
    hide Claims, Taken;
    LatestClaim(m, j, Taken(m, j), |m.stored|, i);
  }

  lemma InStored(m: Sources, i: nat, j: nat)
    requires j < |m.live| && Claims(m, i, j)
    ensures i < |m.stored|
  {
  }

  /** The stored assistant message goes on from what the bubble holds. */
  predicate GoesOn(stored: Item, live: Item) {
    stored.Msg? && live.Msg? && stored.role == Assistant && stored.images.GetOr([]) == live.images.GetOr([]) &&
    live.content <= stored.content && live.reasoning.GetOr("") <= stored.reasoning.GetOr("")
  }

  /** A streamed assistant bubble is not shown exactly when a free stored message between its anchors has the same images,
      and its content and reasoning go on from what the bubble holds. */
  lemma AssistantShown(m: Sources, j: nat)
    requires Optimistic(m, j) && m.live[j].Msg? && m.live[j].role == Assistant && !Truthy(m.live[j].sendError)
    requires m.live[j].content != "" || m.live[j].reasoning.GetOr("") != ""
    ensures ShownLive(m, j) <==> !exists i: nat :: Available(m, i, j) && GoesOn(m.stored[i], m.live[j])
  {
    ShownIs(m, j);
    TakenOverIs(m, j);
    hide Available, ShownLive, Candidate, Optimistic;
  }

  /** The stored user message says the same, or the same and then the text of the references that the bubble quotes. */
  predicate Repeats(stored: Item, live: Item) {
    stored.Msg? && live.Msg? && stored.role == User && stored.images.GetOr([]) == live.images.GetOr([]) &&
    stored.reasoning.GetOr("") == live.reasoning.GetOr("") &&
    (stored.content == live.content || (live.context.GetOr([]) != [] && live.content + "\n" <= stored.content))
  }

  /** A sent user bubble is not shown exactly when a free stored message between its anchors repeats it. */
  lemma UserShown(m: Sources, j: nat)
    requires Optimistic(m, j) && m.live[j].Msg? && m.live[j].role == User && !Truthy(m.live[j].sendError)
    ensures ShownLive(m, j) <==> !exists i: nat :: Available(m, i, j) && Repeats(m.stored[i], m.live[j])
  {
    ShownIs(m, j);
    TakenOverIs(m, j);
    hide Available, ShownLive, Candidate, Optimistic;
  }

  /** Cards without an id, failed sends and empty assistant bubbles are always shown. */
  lemma AlwaysShown(m: Sources, j: nat)
    requires Optimistic(m, j)
    requires !m.live[j].Msg? || Truthy(m.live[j].sendError) ||
      (m.live[j].role == Assistant && m.live[j].content == "" && m.live[j].reasoning.GetOr("") == "")
    ensures ShownLive(m, j)
  {
    ShownIs(m, j);
    TakenOverIs(m, j);
    hide Available, ShownLive, Candidate, Optimistic;
  }
}
