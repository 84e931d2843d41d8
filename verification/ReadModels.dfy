/** The chat timeline and the trajectory, two read models of one message log, agree. */
module ReadModels {
  import opened Options
  import opened Seqs
  import opened Timeline
  import opened Messages
  import opened Records
  import opened Items
  import opened TrajectoryModel

  // ----- Tool calls --------------------------------------------------------------------------

  /** A tool call as both read models show it. */
  datatype Call = Call(name: string, call: string, args: Option<string>, result: Option<string>, messageId: string, partIndex: nat)

  /** The call of one part, as a list. */
  function CallOf(m: Message, k: nat): seq<Call>
    requires k < |m.parts|
  {
    var p := m.parts[k];
    if HasTool(p) then [Call(p.name, p.input, p.args, Present(p.output), m.id, k)] else []
  }

  /** The named tool calls among the first `n` parts of a message that is not a system message. */
  function CallsOf(m: Message, n: nat): seq<Call>
    requires n <= |m.parts|
  {
    if n == 0 || m.speaker.SystemSpeaker? then [] else
    CallsOf(m, n - 1) + CallOf(m, n - 1)
  }

  function Calls(ms: seq<Message>): seq<Call> {
    if ms == [] then [] else var m := ms[|ms| - 1]; Calls(ms[..|ms| - 1]) + CallsOf(m, |m.parts|)
  }

  function ItemCalls(items: seq<Item>): seq<Call> {
    if items == [] then [] else
    var item := items[|items| - 1];
    ItemCalls(items[..|items| - 1]) +
    if item.Tool? && item.messageId.Some? && item.partIndex.Some?
    then [Call(item.name, item.call, item.args, item.result, item.messageId.value, item.partIndex.value)] else []
  }

  lemma {:induction false} ItemCallsJoin(a: seq<Item>, b: seq<Item>)
    ensures ItemCalls(a + b) == ItemCalls(a) + ItemCalls(b)
  {
    if b == [] { assert a + b == a; }
    else {
      ItemCallsJoin(a, b[..|b| - 1]);
      assert (a + b)[..|a + b| - 1] == a + b[..|b| - 1];
    }
  }

  /** Changing a bubble into a bubble changes no tool call. */
  lemma {:induction false} ItemCallsUpdate(items: seq<Item>, i: nat, item: Item)
    requires i < |items| && items[i].Msg? && item.Msg?
    ensures ItemCalls(items[i := item]) == ItemCalls(items)
  {
    var front := items[..|items| - 1];
    if i < |items| - 1 {
      ItemCallsUpdate(front, i, item);
      assert items[i := item][..|items| - 1] == front[i := item];
    } else { assert items[i := item][..|items| - 1] == front; }
  }

  lemma ItemCallsOne(item: Item)
    ensures ItemCalls([item]) == if item.Tool? && item.messageId.Some? && item.partIndex.Some?
      then [Call(item.name, item.call, item.args, item.result, item.messageId.value, item.partIndex.value)] else []
  {
    assert [item][..0] == [];
  }

  lemma CardCalls(items: seq<Item>, m: Message, k: nat)
    requires k < |m.parts|
    ensures ItemCalls(items + Card(m.parts[k], m.id, k)) == ItemCalls(items) + CallOf(m, k)
  {
    var p := m.parts[k];
    ItemCallsJoin(items, Card(p, m.id, k));
    if HasTool(p) || HasApproval(p) { ItemCallsOne(Card(p, m.id, k)[0]); }
  }

  lemma BubbleCalls(items: seq<Item>, bubble: Item)
    requires bubble.Msg?
    ensures ItemCalls(items + [bubble]) == ItemCalls(items)
  {
    ItemCallsJoin(items, [bubble]);
    ItemCallsOne(bubble);
  }

  lemma FlushCalls(items: seq<Item>, turn: Option<TurnAcc>)
    ensures ItemCalls(items + Flush(turn)) == ItemCalls(items)
  {
    if Flush(turn) == [] { assert items + [] == items; } else { BubbleCalls(items, TurnBubble(turn.value)); }
  }

  lemma AbsorbPartCalls(items: seq<Item>, turn: TurnAcc, m: Message, k: nat)
    requires k < |m.parts|
    ensures ItemCalls(AbsorbPart(items, turn, m, k).0) == ItemCalls(items) + CallOf(m, k)
  {
    var after := AbsorbPart(items, turn, m, k).0;
    assert after == items + Card(m.parts[k], m.id, k) || (after == items && CallOf(m, k) == []);
    hide *;
    CardCalls(items, m, k);
    Units(ItemCalls(items));
  }

  lemma {:induction false} AbsorbCalls(items: seq<Item>, turn: TurnAcc, m: Message, n: nat)
    requires n <= |m.parts| && !m.speaker.SystemSpeaker?
    ensures ItemCalls(AbsorbParts(items, turn, m, n).0) == ItemCalls(items) + CallsOf(m, n)
  {
    NoCalls(items, turn, m);
    hide *;
    if n == 0 { return; }
    AbsorbCalls(items, turn, m, n - 1);
    var before := AbsorbParts(items, turn, m, n - 1);
    AbsorbPartCalls(before.0, before.1, m, n - 1);
    Unfold(items, turn, m, n);
    Assoc(ItemCalls(items), CallsOf(m, n - 1), CallOf(m, n - 1));
  }

  lemma NoCalls(items: seq<Item>, turn: TurnAcc, m: Message)
    ensures AbsorbParts(items, turn, m, 0) == (items, turn) && AppendParts(items, m, 0) == items
    ensures ItemCalls(items) == ItemCalls(items) + CallsOf(m, 0)
  {
    assert CallsOf(m, 0) == [];
    Units(ItemCalls(items));
  }

  lemma Unfold(items: seq<Item>, turn: TurnAcc, m: Message, n: nat)
    requires 0 < n <= |m.parts| && !m.speaker.SystemSpeaker?
    ensures CallsOf(m, n) == CallsOf(m, n - 1) + CallOf(m, n - 1)
    ensures var before := AbsorbParts(items, turn, m, n - 1); AbsorbParts(items, turn, m, n) == AbsorbPart(before.0, before.1, m, n - 1)
  {
  }

  lemma AppendTextCalls(items: seq<Item>, m: Message, text: string)
    ensures ItemCalls(AppendText(items, m, text)) == ItemCalls(items)
  {
    var role := RoleOf(m.speaker);
    if OwnLast(items, role, m.id) {
      var last := items[|items| - 1];
      ItemCallsUpdate(items, |items| - 1, last.(content := last.content + "\n" + text));
    } else { BubbleCalls(items, TextBubble(m, text)); }
  }

  lemma AppendSourcesCalls(items: seq<Item>, m: Message, sources: seq<string>)
    ensures ItemCalls(AppendSources(items, m, sources)) == ItemCalls(items)
    ensures ItemCalls(MarkContext(items, m)) == ItemCalls(items)
  {
    if OwnLast(items, User, m.id) {
      var last := items[|items| - 1];
      ItemCallsUpdate(items, |items| - 1, last.(context := Some(last.context.GetOr([]) + sources), contextUnavailable := Some(false)));
      ItemCallsUpdate(items, |items| - 1, last.(contextUnavailable := Some(true)));
    } else { BubbleCalls(items, SourcesBubble(m, sources)); }
  }

  lemma AppendImageCalls(items: seq<Item>, m: Message, image: Image)
    ensures ItemCalls(AppendImage(items, m, image)) == ItemCalls(items)
  {
    var role := RoleOf(m.speaker);
    if OwnLast(items, role, m.id) {
      var last := items[|items| - 1];
      ItemCallsUpdate(items, |items| - 1, last.(images := Some(last.images.GetOr([]) + [image])));
    } else { BubbleCalls(items, ImageBubble(m, image)); }
  }

  lemma PartCalls(items: seq<Item>, m: Message, k: nat)
    requires k < |m.parts| && !m.speaker.SystemSpeaker?
    ensures ItemCalls(AppendPart(items, m, k)) == ItemCalls(items) + CallOf(m, k)
  {
    var p := m.parts[k];
    hide ItemCalls, Card, AppendText, AppendSources, MarkContext, AppendImage;
    assert HasText(p) || HasReasoning(p) || HasSources(p) || p.ContextPart? || HasImage(p) ==> CallOf(m, k) == [];
    hide CallOf;
    Units(ItemCalls(items));
    if HasText(p) { AppendTextCalls(items, m, p.text); }
    else if HasImage(p) { AppendImageCalls(items, m, Image(p.mediaType, p.data.value)); }
    else if p.SourcesPart? || p.ContextPart? { AppendSourcesCalls(items, m, if p.SourcesPart? then p.items else []); CardCalls(items, m, k); }
    else { CardCalls(items, m, k); }
  }

  lemma {:induction false} AppendCalls(items: seq<Item>, m: Message, n: nat)
    requires n <= |m.parts| && !m.speaker.SystemSpeaker?
    ensures ItemCalls(AppendParts(items, m, n)) == ItemCalls(items) + CallsOf(m, n)
  {
    NoCalls(items, TurnAcc("", [], "", [], None, ""), m);
    hide *;
    if n == 0 { return; }
    AppendCalls(items, m, n - 1);
    PartCalls(AppendParts(items, m, n - 1), m, n - 1);
    UnfoldParts(items, m, n);
    Assoc(ItemCalls(items), CallsOf(m, n - 1), CallOf(m, n - 1));
  }

  lemma UnfoldParts(items: seq<Item>, m: Message, n: nat)
    requires 0 < n <= |m.parts| && !m.speaker.SystemSpeaker?
    ensures CallsOf(m, n) == CallsOf(m, n - 1) + CallOf(m, n - 1)
    ensures AppendParts(items, m, n) == AppendPart(AppendParts(items, m, n - 1), m, n - 1)
  {
  }

  lemma {:induction false} AttachCalls(items: seq<Item>, m: Message, reasoning: string, n: nat)
    requires n <= |items|
    ensures ItemCalls(Attach(items, m, reasoning, n)) == ItemCalls(items)
  {
    if n == 0 || !items[n - 1].Msg? || items[n - 1].messageId != Some(m.id) {
      BubbleCalls(items, ThoughtBubble(m, reasoning));
    } else if items[n - 1].role.Assistant? {
      ItemCallsUpdate(items, n - 1, items[n - 1].(reasoning := Some(items[n - 1].reasoning.GetOr("") + reasoning)));
    } else { AttachCalls(items, m, reasoning, n - 1); }
  }

  lemma MessageCalls(items: seq<Item>, m: Message)
    ensures ItemCalls(AppendMessage(items, m)) == ItemCalls(items) + CallsOf(m, |m.parts|)
  {
    if !m.speaker.SystemSpeaker? {
      AppendCalls(items, m, |m.parts|);
      var after := AppendParts(items, m, |m.parts|);
      AttachCalls(after, m, Reasoning(m, |m.parts|), |after|);
    }
  }

  lemma FoldCalls(f: Fold, m: Message)
    ensures ItemCalls(FoldMessage(f, m).items) == ItemCalls(f.items) + CallsOf(m, |m.parts|)
  {
    hide ItemCalls, AppendMessage, AbsorbParts, Flush, Stream;
    FlushCalls(f.items, f.turn);
    MessageCalls(f.items, m);
    MessageCalls(f.items + Flush(f.turn), m);
    if !m.speaker.SystemSpeaker? {
      forall items, turn { AbsorbCalls(items, turn, m, |m.parts|); }
      forall items, turn { FlushCalls(items, turn); }
    }
  }

  lemma {:induction false} ItemsShowCalls(ms: seq<Message>)
    ensures ItemCalls(FoldMessages(ms).items) == Calls(ms) && ItemCalls(ToItems(ms)) == Calls(ms)
  {
    if ms != [] {
      ItemsShowCalls(ms[..|ms| - 1]);
      FoldCalls(FoldMessages(ms[..|ms| - 1]), ms[|ms| - 1]);
    }
    FlushCalls(FoldMessages(ms).items, FoldMessages(ms).turn);
  }

  // ----- Tool records ------------------------------------------------------------------------------

  /** The record was made from a tool call, not from an approval. */
  predicate FromToolPart(ms: seq<Message>, r: Record) {
    r.kind.ToolRecord? && r.tool.Some? &&
    exists m :: m in ms && m.id == r.messageId && r.partIndex < |m.parts| && m.parts[r.partIndex].ToolPart?
  }

  function RecordCall(r: Record): Call
    requires r.tool.Some?
  {
    Call(r.tool.value.name, r.tool.value.call, r.tool.value.args, r.tool.value.result, r.messageId, r.partIndex)
  }

  function RecordCalls(ms: seq<Message>, records: seq<Record>): seq<Call> {
    if records == [] then [] else
    var r := records[|records| - 1];
    RecordCalls(ms, records[..|records| - 1]) + if FromToolPart(ms, r) then [RecordCall(r)] else []
  }

  lemma PushCalls(ms: seq<Message>, records: seq<Record>, draft: Record)
    ensures RecordCalls(ms, Push(records, draft)) == RecordCalls(ms, records) + if FromToolPart(ms, draft) then [RecordCall(draft)] else []
  {
    var r := draft.(index := |records|);
    assert Push(records, draft)[..|records|] == records;
    assert FromToolPart(ms, r) <==> FromToolPart(ms, draft);
  }

  lemma SameMessage(ms: seq<Message>, a: Message, b: Message)
    requires DistinctMessages(ms) && a in ms && b in ms && a.id == b.id
    ensures a == b
  {
    var i :| 0 <= i < |ms| && ms[i] == a;
    var j :| 0 <= j < |ms| && ms[j] == b;
  }

  lemma DraftCalls(ms: seq<Message>, records: seq<Record>, m: Message, k: nat)
    requires DistinctMessages(ms) && m in ms && k < |m.parts|
    ensures RecordCalls(ms, AddParts(records, m, k + 1)) ==
      RecordCalls(ms, AddParts(records, m, k)) + if m.speaker.SystemSpeaker? then [] else CallOf(m, k)
  {
    var before, p := AddParts(records, m, k), m.parts[k];
    var draft := if m.speaker.SystemSpeaker? then SystemDraft(m, k) else PartDraft(m, k, Waiting(m, k));
    if draft.Some? {
      PushCalls(ms, before, draft.value);
      DraftOrigin(ms, m, k);
    }
  }

  /** A draft counts as a tool record exactly when its part is a named tool call, and it shows that call. */
  predicate OriginOf(ms: seq<Message>, draft: Record, m: Message, k: nat)
    requires k < |m.parts|
  {
    (FromToolPart(ms, draft) <==> !m.speaker.SystemSpeaker? && HasTool(m.parts[k])) &&
    (FromToolPart(ms, draft) ==> draft.kind.ToolRecord? && [RecordCall(draft)] == CallOf(m, k))
  }

  lemma DraftOrigin(ms: seq<Message>, m: Message, k: nat)
    requires DistinctMessages(ms) && m in ms && k < |m.parts|
    ensures var draft := if m.speaker.SystemSpeaker? then SystemDraft(m, k) else PartDraft(m, k, Waiting(m, k));
            draft.Some? ==> draft.value.messageId == m.id && draft.value.partIndex == k && OriginOf(ms, draft.value, m, k)
  {
    var draft := if m.speaker.SystemSpeaker? then SystemDraft(m, k) else PartDraft(m, k, Waiting(m, k));
    if draft.Some? && FromToolPart(ms, draft.value) {
      var m' :| m' in ms && m'.id == draft.value.messageId && draft.value.partIndex < |m'.parts| && m'.parts[draft.value.partIndex].ToolPart?;
      SameMessage(ms, m, m');
    }
  }

  lemma {:induction false} PartRecordCalls(ms: seq<Message>, records: seq<Record>, m: Message, n: nat)
    requires DistinctMessages(ms) && m in ms && n <= |m.parts|
    ensures RecordCalls(ms, AddParts(records, m, n)) == RecordCalls(ms, records) + CallsOf(m, n)
  {
    NoDrafts(ms, records, m);
    hide *;
    if n == 0 { return; }
    PartRecordCalls(ms, records, m, n - 1);
    DraftCalls(ms, records, m, n - 1);
    NextCalls(m, n);
    Assoc(RecordCalls(ms, records), CallsOf(m, n - 1), if m.speaker.SystemSpeaker? then [] else CallOf(m, n - 1));
  }

  lemma NoDrafts(ms: seq<Message>, records: seq<Record>, m: Message)
    ensures AddParts(records, m, 0) == records && RecordCalls(ms, records) == RecordCalls(ms, records) + CallsOf(m, 0)
  {
    assert CallsOf(m, 0) == [];
    Units(RecordCalls(ms, records));
  }

  lemma NextCalls(m: Message, n: nat)
    requires 0 < n <= |m.parts|
    ensures CallsOf(m, n) == CallsOf(m, n - 1) + if m.speaker.SystemSpeaker? then [] else CallOf(m, n - 1)
  {
  }

  lemma MessageRecordCalls(ms: seq<Message>, records: seq<Record>, m: Message)
    requires DistinctMessages(ms) && m in ms
    ensures RecordCalls(ms, AddMessage(records, m)) == RecordCalls(ms, records) + CallsOf(m, |m.parts|)
  {
    PartRecordCalls(ms, records, m, |m.parts|);
    if m.speaker.AssistantSpeaker? && m.parts != [] && Waiting(m, |m.parts|) != "" {
      PushCalls(ms, AddParts(records, m, |m.parts|), ThoughtDraft(m, Waiting(m, |m.parts|)));
    }
  }

  lemma {:induction false} RecordsShowCalls(ms: seq<Message>, n: nat)
    requires DistinctMessages(ms) && n <= |ms|
    ensures RecordCalls(ms, ToRecords(ms[..n])) == Calls(ms[..n])
  {
    if n > 0 {
      RecordsShowCalls(ms, n - 1);
      assert ms[..n][..n - 1] == ms[..n - 1];
      MessageRecordCalls(ms, ToRecords(ms[..n - 1]), ms[n - 1]);
    }
  }

  /** The tool cards of the chat and the tool-call records of the trajectory are the same calls in the same order. */
  lemma ToolCallsAgree(ms: seq<Message>)
    requires DistinctMessages(ms)
    ensures ItemCalls(ToItems(ms)) == RecordCalls(ms, ToRecords(ms)) == Calls(ms)
  {
    ItemsShowCalls(ms);
    RecordsShowCalls(ms, |ms|);
    assert ms[..|ms|] == ms;
  }

  // ----- Jumping from a card to its record ---------------------------------------------------------------

  predicate IsAt(r: Record, id: string, k: nat) {
    r.messageId == id && r.partIndex == k
  }

  /** `findIndex` by message id and part index. */
  function FirstRecord(records: seq<Record>, id: string, k: nat): (i: Option<nat>)
    ensures i.Some? ==> i.value < |records| && IsAt(records[i.value], id, k)
    ensures i.None? ==> forall j :: 0 <= j < |records| ==> !IsAt(records[j], id, k)
  {
    if records == [] then None else
    var i := FirstRecord(records[..|records| - 1], id, k);
    if i.Some? then i else if IsAt(records[|records| - 1], id, k) then Some(|records| - 1) else None
  }

  /** The first record at the place of the call is the record of the call. */
  predicate Finds(records: seq<Record>, call: Call) {
    var i := FirstRecord(records, call.messageId, call.partIndex);
    i.Some? && records[i.value].kind.ToolRecord? && records[i.value].tool.Some? && RecordCall(records[i.value]) == call
  }

  lemma PushFinds(records: seq<Record>, draft: Record, call: Call)
    ensures Finds(records, call) ==> Finds(Push(records, draft), call)
    ensures FirstRecord(records, call.messageId, call.partIndex).None? && draft.kind.ToolRecord? && draft.tool.Some? && RecordCall(draft) == call ==>
      Finds(Push(records, draft), call)
  {
    assert Push(records, draft)[..|records|] == records;
  }

  /** Records of message `id` have part indices below `n`. */
  ghost predicate Below(records: seq<Record>, id: string, n: nat) {
    forall i :: 0 <= i < |records| && records[i].messageId == id ==> records[i].partIndex < n
  }

  lemma {:induction false} PartsFound(ms: seq<Message>, records: seq<Record>, m: Message, n: nat)
    requires DistinctMessages(ms) && m in ms && n <= |m.parts| && Below(records, m.id, 0)
    ensures Below(AddParts(records, m, n), m.id, n)
    ensures forall call :: Finds(records, call) || call in CallsOf(m, n) ==> Finds(AddParts(records, m, n), call)
  {
    if n > 0 {
      PartsFound(ms, records, m, n - 1);
      var before := AddParts(records, m, n - 1);
      var draft := if m.speaker.SystemSpeaker? then SystemDraft(m, n - 1) else PartDraft(m, n - 1, Waiting(m, n - 1));
      DraftOrigin(ms, m, n - 1);
      assert AddParts(records, m, n) == AddDraft(before, draft);
      NextCalls(m, n);
      assert !m.speaker.SystemSpeaker? && HasTool(m.parts[n - 1]) ==> draft.Some?;
      hide *;
      PartFound(ms, before, draft, m, n - 1);
    }
  }

  lemma PartFound(ms: seq<Message>, before: seq<Record>, draft: Option<Record>, m: Message, k: nat)
    requires k < |m.parts| && Below(before, m.id, k)
    requires draft.Some? ==> draft.value.messageId == m.id && draft.value.partIndex == k && OriginOf(ms, draft.value, m, k)
    requires !m.speaker.SystemSpeaker? && HasTool(m.parts[k]) ==> draft.Some?
    ensures Below(AddDraft(before, draft), m.id, k + 1)
    ensures forall call :: Finds(before, call) ==> Finds(AddDraft(before, draft), call)
    ensures forall call :: !m.speaker.SystemSpeaker? && call in CallOf(m, k) ==> Finds(AddDraft(before, draft), call)
  {
    if draft.Some? {
      forall call ensures Finds(before, call) ==> Finds(AddDraft(before, draft), call) { PushFinds(before, draft.value, call); }
    }
    forall call | !m.speaker.SystemSpeaker? && call in CallOf(m, k) ensures Finds(AddDraft(before, draft), call) {
      PushFinds(before, draft.value, call);
      hide FirstRecord, AddDraft, Finds;
    }
    hide Finds, CallOf;
  }

  lemma {:induction false} CallsFound(ms: seq<Message>, n: nat)
    requires DistinctMessages(ms) && n <= |ms|
    ensures forall i :: n <= i < |ms| ==> Below(ToRecords(ms[..n]), ms[i].id, 0)
    ensures forall call :: call in Calls(ms[..n]) ==> Finds(ToRecords(ms[..n]), call)
  {
    if n > 0 {
      CallsFound(ms, n - 1);
      var m, before := ms[n - 1], ToRecords(ms[..n - 1]);
      assert ms[..n][..n - 1] == ms[..n - 1];
      PartsFound(ms, before, m, |m.parts|);
      OtherMessages(before, m, |m.parts|);
      hide AddParts, Finds, ToRecords;
      var after := AddParts(before, m, |m.parts|);
      forall call | call in Calls(ms[..n]) ensures Finds(AddMessage(before, m), call) {
        if m.parts != [] { PushFinds(after, ThoughtDraft(m, Waiting(m, |m.parts|)), call); }
      }
    }
  }

  lemma {:induction false} OtherMessages(records: seq<Record>, m: Message, n: nat)
    requires n <= |m.parts|
    ensures forall id :: id != m.id && Below(records, id, 0) ==> Below(AddParts(records, m, n), id, 0)
  {
    if n > 0 { OtherMessages(records, m, n - 1); }
  }

  /** Inspecting a tool card finds its own record first, even where a reasoning record shares the last part's place. */
  lemma CardFindsRecord(ms: seq<Message>, call: Call)
    requires DistinctMessages(ms) && call in ItemCalls(ToItems(ms))
    ensures Finds(ToRecords(ms), call)
  {
    ItemsShowCalls(ms);
    CallsFound(ms, |ms|);
    assert ms[..|ms|] == ms;
  }

  /** Records are numbered by their place, so their indices increase. */
  lemma {:induction false} RecordsNumbered(ms: seq<Message>)
    ensures forall i :: 0 <= i < |ToRecords(ms)| ==> ToRecords(ms)[i].index == i
    ensures Records.Increasing(ToRecords(ms))
  {
    if ms != [] {
      RecordsNumbered(ms[..|ms| - 1]);
      PartsNumbered(ToRecords(ms[..|ms| - 1]), ms[|ms| - 1], |ms[|ms| - 1].parts|);
    }
  }

  lemma {:induction false} PartsNumbered(records: seq<Record>, m: Message, n: nat)
    requires n <= |m.parts| && forall i :: 0 <= i < |records| ==> records[i].index == i
    ensures forall i :: 0 <= i < |AddParts(records, m, n)| ==> AddParts(records, m, n)[i].index == i
  {
    if n > 0 { PartsNumbered(records, m, n - 1); }
  }
}
