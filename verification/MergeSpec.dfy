/** What merging a server snapshot into the live timeline means (src/lib/session-loader.ts). */
module MergeSpec {
  import opened Options
  import opened Timeline

  // ----- Keys ------------------------------------------------------------------------

  datatype Identity = MessageId(id: string) | ApprovalId(id: string)

  /** The `occurrence`-th item, counted from zero, with this identity. */
  datatype Key = Key(identity: Identity, occurrence: nat)

  function StableIdentity(item: Item): Option<Identity> {
    if item.Msg? && Truthy(item.messageId) then Some(MessageId(item.messageId.value))
    else if item.Approval? && item.approvalId != "" then Some(ApprovalId(item.approvalId))
    else None
  }

  function Occurrences(items: seq<Item>, id: Identity, n: nat): nat
    requires n <= |items|
  {
    if n == 0 then 0 else Occurrences(items, id, n - 1) + if StableIdentity(items[n - 1]) == Some(id) then 1 else 0
  }

  function KeyAt(items: seq<Item>, i: nat): Option<Key>
    requires i < |items|
  {
    var id := StableIdentity(items[i]);
    if id.None? then None else Some(Key(id.value, Occurrences(items, id.value, i)))
  }

  lemma {:induction false} OccurrencesGrow(items: seq<Item>, id: Identity, i: nat, j: nat)
    requires i <= j <= |items|
    ensures Occurrences(items, id, i) <= Occurrences(items, id, j)
    decreases j
  {
    if i < j { OccurrencesGrow(items, id, i, j - 1); }
  }

  lemma KeysDistinct(items: seq<Item>, i: nat, j: nat)
    requires i < |items| && j < |items| && KeyAt(items, i).Some? && KeyAt(items, i) == KeyAt(items, j)
    ensures i == j
  {
    var id := KeyAt(items, i).value.identity;
    if i < j { OccurrencesGrow(items, id, i + 1, j); }
    if j < i { OccurrencesGrow(items, id, j + 1, i); }
  }

  /** Where the item with this key is among the first `n`. */
  function Find(items: seq<Item>, key: Key, n: nat): (at: Option<nat>)
    requires n <= |items|
    ensures at.Some? ==> at.value < n && KeyAt(items, at.value) == Some(key)
    ensures at.None? ==> forall i :: 0 <= i < n ==> KeyAt(items, i) != Some(key)
  {
    if n == 0 then None else if KeyAt(items, n - 1) == Some(key) then Some(n - 1) else Find(items, key, n - 1)
  }

  lemma FindAt(items: seq<Item>, i: nat)
    requires i < |items| && KeyAt(items, i).Some?
    ensures Find(items, KeyAt(items, i).value, |items|) == Some(i)
  {
    var at := Find(items, KeyAt(items, i).value, |items|);
    KeysDistinct(items, i, at.value);
  }

  // ----- The three-way decision on keyed items -------------------------------------------

  datatype Sources = Sources(stored: seq<Item>, base: seq<Item>, live: seq<Item>)

  /** The stored item with the key of live item `j`, and the other way round. */
  function StoredPos(m: Sources, j: nat): (at: Option<nat>)
    requires j < |m.live|
    ensures at.Some? ==> at.value < |m.stored| && KeyAt(m.live, j).Some? && KeyAt(m.stored, at.value) == KeyAt(m.live, j)
  {
    var key := KeyAt(m.live, j);
    if key.None? then None else Find(m.stored, key.value, |m.stored|)
  }

  function LivePos(m: Sources, i: nat): (at: Option<nat>)
    requires i < |m.stored|
    ensures at.Some? ==> at.value < |m.live| && KeyAt(m.stored, i).Some? && KeyAt(m.live, at.value) == KeyAt(m.stored, i)
  {
    var key := KeyAt(m.stored, i);
    if key.None? then None else Find(m.live, key.value, |m.live|)
  }

  lemma PosInverse(m: Sources, i: nat, j: nat)
    requires i < |m.stored| && j < |m.live|
    ensures StoredPos(m, j) == Some(i) <==> LivePos(m, i) == Some(j)
  {
    if StoredPos(m, j) == Some(i) { FindAt(m.live, j); }
    if LivePos(m, i) == Some(j) { FindAt(m.stored, i); }
  }

  predicate Unknown(m: Sources, key: Key) {
    Find(m.base, key, |m.base|).None?
  }

  predicate Changed(m: Sources, key: Key, item: Item) {
    var at := Find(m.base, key, |m.base|);
    at.Some? && m.base[at.value] != item
  }

  /** The live item is newer than the stored one. */
  predicate Overlays(m: Sources, j: nat)
    requires j < |m.live|
  {
    var key := KeyAt(m.live, j);
    key.Some? && (Changed(m, key.value, m.live[j]) || (Unknown(m, key.value) && m.live[j].Approval?))
  }

  function MergedItem(m: Sources, i: nat): Item
    requires i < |m.stored|
  {
    var j := LivePos(m, i);
    if j.Some? && Overlays(m, j.value) then m.live[j.value] else m.stored[i]
  }

  // ----- Order anchors ---------------------------------------------------------------------

  predicate Anchor(m: Sources, j: nat) {
    j < |m.live| && StoredPos(m, j).Some?
  }

  function PrevAnchor(m: Sources, j: nat): (a: Option<nat>)
    requires j <= |m.live|
    ensures a.Some? ==> a.value < j && Anchor(m, a.value)
    ensures forall k :: 0 <= k < j && (a.Some? ==> a.value < k) ==> !Anchor(m, k)
  {
    if j == 0 then None else if Anchor(m, j - 1) then Some(j - 1) else PrevAnchor(m, j - 1)
  }

  /** The first anchor at or after `j`. */
  function AnchorFrom(m: Sources, j: nat): (a: Option<nat>)
    requires j <= |m.live|
    ensures a.Some? ==> j <= a.value && Anchor(m, a.value)
    ensures forall k :: j <= k < |m.live| && (a.Some? ==> k < a.value) ==> !Anchor(m, k)
    decreases |m.live| - j
  {
    if j == |m.live| then None else if Anchor(m, j) then Some(j) else AnchorFrom(m, j + 1)
  }

  function NextAnchor(m: Sources, j: nat): (a: Option<nat>)
    requires j < |m.live|
    ensures a.Some? ==> j < a.value && Anchor(m, a.value)
    ensures forall k :: j < k < |m.live| && (a.Some? ==> k < a.value) ==> !Anchor(m, k)
  {
    AnchorFrom(m, j + 1)
  }

  /** Stored position `i` lies strictly between the anchors around live item `j`. */
  predicate Between(m: Sources, i: nat, j: nat)
    requires j < |m.live|
  {
    var prev, next := PrevAnchor(m, j), NextAnchor(m, j);
    (prev.Some? ==> StoredPos(m, prev.value).value < i) && (next.Some? ==> i < StoredPos(m, next.value).value)
  }

  // ----- Items without a key -----------------------------------------------------------------

  /** How many of the first `n` items have no key and equal `item`. */
  function Copies(items: seq<Item>, item: Item, n: nat): nat
    requires n <= |items|
  {
    if n == 0 then 0
    else Copies(items, item, n - 1) + if KeyAt(items, n - 1).None? && items[n - 1] == item then 1 else 0
  }

  /** The snapshot still has an equal item that no earlier live item has used up. */
  predicate Matched(m: Sources, j: nat)
    requires j < |m.live|
  {
    KeyAt(m.live, j).None? && Copies(m.live, m.live[j], j) < Copies(m.stored, m.live[j], |m.stored|)
  }

  predicate HasContext(item: Item) {
    item.Msg? && item.context.Some? && item.context.value != []
  }

  predicate Subsumes(stored: Item, live: Item) {
    stored.Msg? && live.Msg? && stored.role == live.role && stored.images.GetOr([]) == live.images.GetOr([]) &&
    if live.role.User? then
      (stored.content == live.content || (HasContext(live) && live.content + "\n" <= stored.content)) &&
      stored.reasoning.GetOr("") == live.reasoning.GetOr("")
    else
      (live.content != "" || Truthy(live.reasoning)) &&
      live.content <= stored.content && live.reasoning.GetOr("") <= stored.reasoning.GetOr("")
  }

  predicate IsStoredMessage(m: Sources, i: nat) {
    i < |m.stored| && m.stored[i].Msg? && Truthy(m.stored[i].messageId)
  }

  lemma StoredMessageKey(m: Sources, i: nat)
    requires IsStoredMessage(m, i)
    ensures KeyAt(m.stored, i).Some?
  {
  }

  function KnownMessages(m: Sources): set<nat> {
    set i | 0 <= i < |m.stored| && IsStoredMessage(m, i) && !Unknown(m, KeyAt(m.stored, i).value)
  }

  /** Stored message `i` could take over live item `j`. */
  predicate Claims(m: Sources, i: nat, j: nat)
    requires j < |m.live|
  {
    IsStoredMessage(m, i) && Between(m, i, j) && Subsumes(m.stored[i], m.live[j])
  }

  function LastClaim(m: Sources, j: nat, taken: set<nat>, n: nat): (i: Option<nat>)
    requires j < |m.live| && n <= |m.stored|
    ensures i.Some? ==> i.value < n && i.value !in taken && Claims(m, i.value, j)
    ensures i.None? ==> forall k :: 0 <= k < n && k !in taken ==> !Claims(m, k, j)
  {
    if n == 0 then None else if n - 1 !in taken && Claims(m, n - 1, j) then Some(n - 1) else LastClaim(m, j, taken, n - 1)
  }

  /** The stored messages that are spoken for when the loop over the live items reaches item `n`. */
  function Taken(m: Sources, n: nat): set<nat>
    requires n <= |m.live|
    decreases n, 0
  {
    if n == 0 then KnownMessages(m) else
    var at := StoredPos(m, n - 1);
    if KeyAt(m.live, n - 1).Some? then
      if at.Some? && IsStoredMessage(m, at.value) then Taken(m, n - 1) + {at.value} else Taken(m, n - 1)
    else if Matched(m, n - 1) || Takeover(m, n - 1).None? then Taken(m, n - 1)
    else Taken(m, n - 1) + {Takeover(m, n - 1).value}
  }

  /** The stored message that takes the place of the optimistic live item `j`. */
  function Takeover(m: Sources, j: nat): (i: Option<nat>)
    requires j < |m.live|
    ensures i.Some? ==> Claims(m, i.value, j) && i.value !in Taken(m, j)
    decreases j, 1
  {
    if m.live[j].Msg? && !Truthy(m.live[j].sendError) then LastClaim(m, j, Taken(m, j), |m.stored|) else None
  }

  // ----- The result ----------------------------------------------------------------------------

  /** The live item is shown although the snapshot does not have it. */
  predicate Candidate(m: Sources, j: nat)
    requires j < |m.live|
  {
    var key := KeyAt(m.live, j);
    if key.Some? then StoredPos(m, j).None? && (Unknown(m, key.value) || Changed(m, key.value, m.live[j]))
    else !Matched(m, j) && Takeover(m, j).None?
  }

  function Candidates(m: Sources, n: nat): (js: seq<nat>)
    requires n <= |m.live|
    ensures forall k :: 0 <= k < |js| ==> js[k] < n
  {
    if n == 0 then [] else Candidates(m, n - 1) + if Candidate(m, n - 1) then [n - 1] else []
  }

  /** The first approval at or after `i` in the snapshot that has a key. */
  function ApprovalFrom(m: Sources, i: nat): (at: Option<nat>)
    requires i <= |m.stored|
    ensures at.Some? ==> i <= at.value < |m.stored| && KeyAt(m.stored, at.value).Some? && m.stored[at.value].Approval?
    ensures forall k :: i <= k < (if at.Some? then at.value else |m.stored|) ==>
      !(KeyAt(m.stored, k).Some? && m.stored[k].Approval?)
    decreases |m.stored| - i
  {
    if i == |m.stored| then None
    else if KeyAt(m.stored, i).Some? && m.stored[i].Approval? then Some(i) else ApprovalFrom(m, i + 1)
  }

  datatype Place = Before(pos: nat) | After(pos: nat) | Tail

  function PlaceOf(m: Sources, j: nat): (p: Place)
    requires j < |m.live|
    ensures !p.Tail? ==> p.pos < |m.stored| && KeyAt(m.stored, p.pos).Some?
  {
    var prev, next := PrevAnchor(m, j), NextAnchor(m, j);
    var approval := ApprovalFrom(m, 0);
    if next.Some? then Before(StoredPos(m, next.value).value)
    else if prev.Some? then After(StoredPos(m, prev.value).value)
    else if approval.Some? then Before(approval.value)
    else Tail
  }

  function Placed(m: Sources, js: seq<nat>, place: Place): (r: seq<nat>)
    requires forall k :: 0 <= k < |js| ==> js[k] < |m.live|
    ensures forall k :: 0 <= k < |r| ==> r[k] < |m.live|
  {
    if js == [] then []
    else Placed(m, js[..|js| - 1], place) + if PlaceOf(m, js[|js| - 1]) == place then [js[|js| - 1]] else []
  }

  /** A line of the result: a position of the snapshot, or a live item the snapshot does not have. */
  datatype Slot = Stored(i: nat) | Fresh(j: nat)

  function FreshSlots(js: seq<nat>): seq<Slot> {
    seq(|js|, k requires 0 <= k < |js| => Fresh(js[k]))
  }

  function Block(m: Sources, i: nat): seq<Slot>
    requires i < |m.stored|
  {
    var js := Candidates(m, |m.live|);
    FreshSlots(Placed(m, js, Before(i))) + [Stored(i)] + FreshSlots(Placed(m, js, After(i)))
  }

  function Blocks(m: Sources, n: nat): seq<Slot>
    requires n <= |m.stored|
  {
    if n == 0 then [] else Blocks(m, n - 1) + Block(m, n - 1)
  }

  function Plan(m: Sources): seq<Slot> {
    Blocks(m, |m.stored|) + FreshSlots(Placed(m, Candidates(m, |m.live|), Tail))
  }

  predicate SlotOk(m: Sources, slot: Slot) {
    match slot
    case Stored(i) => i < |m.stored|
    case Fresh(j) => j < |m.live| && Candidate(m, j)
  }

  function SlotItem(m: Sources, slot: Slot): Item
    requires SlotOk(m, slot)
  {
    match slot
    case Stored(i) => MergedItem(m, i)
    case Fresh(j) => m.live[j]
  }

  function SlotKey(m: Sources, slot: Slot): Option<Key>
    requires SlotOk(m, slot)
  {
    match slot
    case Stored(i) => KeyAt(m.stored, i)
    case Fresh(j) => KeyAt(m.live, j)
  }
}
