/** The trajectory shows every part of the log that is worth a record, once and in order, as what it is. */
module RecordContents {
  import opened Options
  import opened Seqs
  import opened Timeline
  import opened Messages
  import opened Records
  import opened TrajectoryModel
  import opened Collecting
  import Items
  import ThoughtFolding

  // ----- Readings that take no notice of reasoning -----------------------------------------------------

  /** The record of part `k`, if it has one. */
  function DraftOf(m: Message, k: nat): Option<Record>
    requires k < |m.parts|
  {
    if m.speaker.SystemSpeaker? then SystemDraft(m, k) else PartDraft(m, k, Waiting(m, k))
  }

  function OfDraft<T>(read: Record -> seq<T>, draft: Option<Record>): seq<T> {
    if draft.Some? then read(draft.value) else []
  }

  /** `read` finds in the record of a part what `part` finds in the part, and nothing in a lone thought. */
  ghost predicate Tells<T(!new)>(read: Record -> seq<T>, part: (Message, nat) -> seq<T>) {
    (forall r: Record, n: nat :: read(r.(index := n)) == read(r)) &&
    (forall m: Message, k: nat :: k < |m.parts| ==> OfDraft(read, DraftOf(m, k)) == part(m, k)) &&
    forall m: Message, reasoning: string :: m.parts != [] ==> read(ThoughtDraft(m, reasoning)) == []
  }

  lemma PushTold<T(!new)>(read: Record -> seq<T>, records: seq<Record>, draft: Record)
    requires forall r: Record, n: nat :: read(r.(index := n)) == read(r)
    ensures Collect(read, Push(records, draft)) == Collect(read, records) + read(draft)
  {
    CollectPush(read, records, draft.(index := |records|));
  }

  lemma NextPart(records: seq<Record>, m: Message, n: nat)
    requires n <= |m.parts|
    ensures AddParts(records, m, n) == if n == 0 then records else AddDraft(AddParts(records, m, n - 1), DraftOf(m, n - 1))
  {
    hide SystemDraft, PartDraft, Waiting;
  }

  lemma DraftTold<T(!new)>(read: Record -> seq<T>, part: (Message, nat) -> seq<T>, records: seq<Record>, m: Message, k: nat)
    requires Tells(read, part) && k < |m.parts|
    ensures Collect(read, AddDraft(records, DraftOf(m, k))) == Collect(read, records) + part(m, k)
  {
    var draft := DraftOf(m, k);
    assert OfDraft(read, draft) == part(m, k);
    hide Collect, DraftOf, Push;
    if draft.Some? { PushTold(read, records, draft.value); } else { Units(Collect(read, records)); }
  }

  lemma {:induction false} PartsTold<T(!new)>(read: Record -> seq<T>, part: (Message, nat) -> seq<T>, records: seq<Record>, m: Message, n: nat)
    requires Tells(read, part) && n <= |m.parts|
    ensures Collect(read, AddParts(records, m, n)) == Collect(read, records) + OfParts(part, m, n)
  {
    hide *;
    NextPart(records, m, n);
    PartsNext(part, m, n);
    if n == 0 { Units(Collect(read, records)); }
    else {
      PartsTold(read, part, records, m, n - 1);
      DraftTold(read, part, AddParts(records, m, n - 1), m, n - 1);
      Assoc(Collect(read, records), OfParts(part, m, n - 1), part(m, n - 1));
    }
  }

  lemma MessageTold<T(!new)>(read: Record -> seq<T>, part: (Message, nat) -> seq<T>, records: seq<Record>, m: Message)
    requires Tells(read, part)
    ensures Collect(read, AddMessage(records, m)) == Collect(read, records) + OfParts(part, m, |m.parts|)
  {
    PartsTold(read, part, records, m, |m.parts|);
    var after, waiting := AddParts(records, m, |m.parts|), Waiting(m, |m.parts|);
    hide Collect, AddParts, Waiting, Push, OfParts, ThoughtDraft;
    if m.parts != [] {
      assert read(ThoughtDraft(m, waiting)) == [];
      PushTold(read, after, ThoughtDraft(m, waiting));
      Units(Collect(read, after));
    }
  }

  lemma {:induction false} AllTold<T(!new)>(read: Record -> seq<T>, part: (Message, nat) -> seq<T>, ms: seq<Message>)
    requires Tells(read, part)
    ensures Collect(read, ToRecords(ms)) == OfLog(part, ms)
  {
    if ms != [] {
      AllTold(read, part, ms[..|ms| - 1]);
      MessageTold(read, part, ToRecords(ms[..|ms| - 1]), ms[|ms| - 1]);
      hide Tells, AddMessage, OfParts, Collect;
    }
  }

  /** A record without its place in the table and without reasoning. */
  function Bare(r: Record): Record {
    r.(index := 0, reasoning := None)
  }

  // ----- Texts -----------------------------------------------------------------------------------------

  function TextRecords(r: Record): seq<Record> {
    if r.text.Some? then [Bare(r)] else []
  }

  const EmptySummary := "\U{FF08}\U{7A7A}\U{6458}\U{8981}\U{FF09}"

  /** The text behind the mark of a compacted history, without the line break in between. */
  function Behind(text: string): string
    requires "[earlier summary]" <= text
  {
    if |text| > 17 && text[17] == '\n' then text[18..] else text[17..]
  }

  /** A nonempty text, and what is injected as context for a user, is shown by its speaker and mark. */
  function PartTexts(m: Message, k: nat): seq<Record> {
    if k >= |m.parts| then [] else
    var (p, at) := (m.parts[k], m.createdAt);
    if p.TextPart? && p.text != "" then
      match m.speaker
      case SystemSpeaker => [Record(0, SystemRecord, m.id, k, at, FirstLine(p.text), Some(p.text), None, None, None, None, None, None, None)]
      case AssistantSpeaker =>
        [Record(0, MessageRecord, m.id, k, at, FirstLine(p.text), Some(p.text), None, None, m.model, m.stats, None, None, None)]
      case UserSpeaker =>
        if "[earlier summary]" <= p.text then
          var rest := Behind(p.text);
          var title := if FirstLine(rest) == "" then EmptySummary else FirstLine(rest);
          [Record(0, CompactedRecord, m.id, k, at, title, Some(rest), None, None, None, None, None, None, None)]
        else
          [Record(0, UserRecord, m.id, k, at, FirstLine(p.text), Some(p.text), None, None, None, None, UserSource(p.text), None, None)]
    else if p.ContextPart? && p.text != "" && m.speaker.UserSpeaker? then
      [Record(0, ContextRecord, m.id, k, at, FirstLine(p.text), Some(p.text), None, None, None, None, None, None, None)]
    else []
  }

  /** The records with a text are the nonempty texts of the log and the contexts of users, in order. */
  lemma TextsRecorded(ms: seq<Message>)
    ensures Collect(TextRecords, ToRecords(ms)) == OfLog(PartTexts, ms)
  {
    forall m: Message, k: nat | k < |m.parts| ensures OfDraft(TextRecords, DraftOf(m, k)) == PartTexts(m, k) { TextTold(m, k); }
    assert Tells(TextRecords, PartTexts) by { hide FirstLine, UserSource, DraftOf, PartTexts; }
    AllTold(TextRecords, PartTexts, ms);
  }

  lemma BehindIs(text: string)
    requires "[earlier summary]" <= text
    ensures Behind(text) == CompactedText(text)
  {
    assert text[17..] != [] ==> text[17..][0] == text[17];
    assert |text| > 17 ==> text[17..][1..] == text[18..];
    assert "\n" <= text[17..] <==> |text| > 17 && text[17] == '\n';
  }

  lemma TextTold(m: Message, k: nat)
    requires k < |m.parts|
    ensures OfDraft(TextRecords, DraftOf(m, k)) == PartTexts(m, k)
  {
    if "[earlier summary]" <= (if m.parts[k].TextPart? then m.parts[k].text else "") { BehindIs(m.parts[k].text); }
    hide FirstLine, UserSource, Waiting, CompactedText, Behind, Join;
  }

  // ----- What users say: where turns start --------------------------------------------------------------

  function UserRecords(r: Record): seq<Record> {
    if r.kind.UserRecord? then [Bare(r)] else []
  }

  /** A text of a user that is no summary of an earlier history, or an image of a user. */
  function PartOpenings(m: Message, k: nat): seq<Record> {
    if k >= |m.parts| || !m.speaker.UserSpeaker? then [] else
    var (p, at) := (m.parts[k], m.createdAt);
    if p.TextPart? && p.text != "" && !("[earlier summary]" <= p.text) then
      [Record(0, UserRecord, m.id, k, at, FirstLine(p.text), Some(p.text), None, None, None, None, UserSource(p.text), None, None)]
    else if p.ImagePart? && p.mediaType != "" && p.data.Some? then
      [Record(0, UserRecord, m.id, k, at, "[\U{56FE}\U{7247} " + p.mediaType + "]", None, None,
              Some([Image(p.mediaType, p.data.value)]), None, None, None, None, None)]
    else []
  }

  lemma OpeningTold(m: Message, k: nat)
    requires k < |m.parts|
    ensures OfDraft(UserRecords, DraftOf(m, k)) == PartOpenings(m, k)
  {
    hide FirstLine, UserSource, Waiting, CompactedText, Join;
  }

  function HeadRecords(turn: Turn): seq<Record> {
    if turn.headed && turn.records != [] then UserRecords(turn.records[0]) else []
  }

  lemma {:induction false} HeadsAreUsers(records: seq<Record>)
    ensures Collect(HeadRecords, GroupTurns(records)) == Collect(UserRecords, records)
  {
    hide GroupTurns, Collect, TurnOk, Extend, HeadRecords, UserRecords;
    NoHeads();
    if records != [] {
      var front, last := records[..|records| - 1], records[|records| - 1];
      HeadsAreUsers(front);
      LastStep(records);
      TurnsOk(front);
      assert records == front + [last];
      CollectPush(UserRecords, front, last);
      HeadsGrow(GroupTurns(front), last);
    }
  }

  lemma NoHeads()
    ensures Collect(HeadRecords, GroupTurns([])) == [] && Collect(UserRecords, []) == []
  {
  }

  lemma HeadsGrow(turns: seq<Turn>, last: Record)
    requires forall i :: 0 <= i < |turns| ==> TurnOk(turns[i], i == 0)
    ensures var grown := if last.kind.UserRecord? || turns == [] then turns + [Extend(Turn(last.index, [], 0, 0, last.kind.UserRecord?), last)]
                         else turns[..|turns| - 1] + [Extend(turns[|turns| - 1], last)];
            Collect(HeadRecords, grown) == Collect(HeadRecords, turns) + UserRecords(last)
  {
    if last.kind.UserRecord? || turns == [] {
      CollectPush(HeadRecords, turns, Extend(Turn(last.index, [], 0, 0, last.kind.UserRecord?), last));
    } else {
      var front, turn := turns[..|turns| - 1], turns[|turns| - 1];
      assert turns == front + [turn] && TurnOk(turn, |turns| == 1);
      assert HeadRecords(Extend(turn, last)) == HeadRecords(turn) && UserRecords(last) == [];
      hide TurnOk, Extend, HeadRecords, UserRecords;
      CollectPush(HeadRecords, front, turn);
      CollectPush(HeadRecords, front, Extend(turn, last));
      Units(Collect(HeadRecords, turns));
    }
  }

  /** Turns start exactly at what users say or show, in order. */
  lemma TurnsOpened(ms: seq<Message>)
    ensures Collect(UserRecords, ToRecords(ms)) == OfLog(PartOpenings, ms)
    ensures Collect(HeadRecords, GroupTurns(ToRecords(ms))) == OfLog(PartOpenings, ms)
  {
    forall m: Message, k: nat | k < |m.parts| ensures OfDraft(UserRecords, DraftOf(m, k)) == PartOpenings(m, k) { OpeningTold(m, k); }
    assert Tells(UserRecords, PartOpenings) by { hide FirstLine, UserSource, DraftOf, PartOpenings; }
    AllTold(UserRecords, PartOpenings, ms);
    HeadsAreUsers(ToRecords(ms));
  }

  // ----- Images, references, tools and approvals ----------------------------------------------------------

  function ImageRecords(r: Record): seq<Record> {
    if r.images.Some? then [Bare(r)] else []
  }

  function PartImages(m: Message, k: nat): seq<Record> {
    if k >= |m.parts| || m.speaker.SystemSpeaker? || !m.parts[k].ImagePart? || m.parts[k].mediaType == "" || m.parts[k].data.None? then [] else
    var p := m.parts[k];
    [Record(0, if m.speaker.UserSpeaker? then UserRecord else MessageRecord, m.id, k, m.createdAt, "[\U{56FE}\U{7247} " + p.mediaType + "]",
            None, None, Some([Image(p.mediaType, p.data.value)]), if m.speaker.UserSpeaker? then None else m.model, None, None, None, None)]
  }

  function ReferenceRecords(r: Record): seq<Record> {
    if r.contextItems.Some? then [Bare(r)] else []
  }

  function PartReferences(m: Message, k: nat): seq<Record> {
    if k >= |m.parts| || !m.speaker.UserSpeaker? || !m.parts[k].SourcesPart? || m.parts[k].items == [] then [] else
    var list := Join(m.parts[k].items, "\U{FF0C}");
    [Record(0, ContextRecord, m.id, k, m.createdAt, list, None, None, None, None, None, Some(list), Some(m.parts[k].items), None)]
  }

  function ToolRecords(r: Record): seq<Record> {
    if r.tool.Some? then [Bare(r)] else []
  }

  /** A named tool call with its result, or an approval with its decision as its result. */
  function PartTools(m: Message, k: nat): seq<Record> {
    if k >= |m.parts| || m.speaker.SystemSpeaker? then [] else
    var (p, at) := (m.parts[k], m.createdAt);
    if p.ToolPart? && p.name != "" then
      var result := if p.output.Some? && p.output.value != "" then p.output else None;
      var tool := ToolInfo(p.name, p.input, p.args, result, p.callId, p.startedAt, p.finishedAt);
      [Record(0, ToolRecord, m.id, k, at, p.name + " " + p.input, None, None, None, None, None, None, None, Some(tool))]
    else if p.ApprovalPart? && p.command.Some? then
      var tool := ToolInfo("approval", p.command.value, None, p.decision, None, None, None);
      [Record(0, ToolRecord, m.id, k, at, "approval " + p.command.value, None, None, None, None, None, None, None, Some(tool))]
    else []
  }

  lemma ImageTold(m: Message, k: nat)
    requires k < |m.parts|
    ensures OfDraft(ImageRecords, DraftOf(m, k)) == PartImages(m, k)
  {
    hide FirstLine, UserSource, Waiting, CompactedText, Join;
  }

  lemma ReferenceTold(m: Message, k: nat)
    requires k < |m.parts|
    ensures OfDraft(ReferenceRecords, DraftOf(m, k)) == PartReferences(m, k)
  {
    hide FirstLine, UserSource, Waiting, CompactedText, Join;
  }

  lemma ToolTold(m: Message, k: nat)
    requires k < |m.parts|
    ensures OfDraft(ToolRecords, DraftOf(m, k)) == PartTools(m, k)
  {
    hide FirstLine, UserSource, Waiting, CompactedText, Join;
  }

  /** The records with images, with references and with a tool are the image, reference, tool and approval parts, in order. */
  lemma PartsRecorded(ms: seq<Message>)
    ensures Collect(ImageRecords, ToRecords(ms)) == OfLog(PartImages, ms)
    ensures Collect(ReferenceRecords, ToRecords(ms)) == OfLog(PartReferences, ms)
    ensures Collect(ToolRecords, ToRecords(ms)) == OfLog(PartTools, ms)
  {
    ImagesTell();
    ReferencesTell();
    ToolsTell();
    hide Tells, ToRecords, OfLog, Collect;
    AllTold(ImageRecords, PartImages, ms);
    AllTold(ReferenceRecords, PartReferences, ms);
    AllTold(ToolRecords, PartTools, ms);
  }

  lemma ImagesTell()
    ensures Tells(ImageRecords, PartImages)
  {
    forall m: Message, k: nat | k < |m.parts| ensures OfDraft(ImageRecords, DraftOf(m, k)) == PartImages(m, k) { ImageTold(m, k); }
    hide FirstLine, DraftOf, PartImages;
  }

  lemma ReferencesTell()
    ensures Tells(ReferenceRecords, PartReferences)
  {
    forall m: Message, k: nat | k < |m.parts| ensures OfDraft(ReferenceRecords, DraftOf(m, k)) == PartReferences(m, k) { ReferenceTold(m, k); }
    hide FirstLine, DraftOf, PartReferences;
  }

  lemma ToolsTell()
    ensures Tells(ToolRecords, PartTools)
  {
    forall m: Message, k: nat | k < |m.parts| ensures OfDraft(ToolRecords, DraftOf(m, k)) == PartTools(m, k) { ToolTold(m, k); }
    hide FirstLine, DraftOf, PartTools;
  }

  // ----- Reasoning ---------------------------------------------------------------------------------------------

  function RecordThought(r: Record): string {
    if r.kind.MessageRecord? then r.reasoning.GetOr("") else ""
  }

  function PartThought(m: Message, k: nat): string {
    if k < |m.parts| && m.speaker.AssistantSpeaker? && m.parts[k].ReasoningPart? then m.parts[k].text else ""
  }

  lemma ThoughtNext(m: Message, k: nat)
    requires k < |m.parts| && m.speaker.AssistantSpeaker?
    ensures OfDraft(RecordThought, DraftOf(m, k)) + Waiting(m, k + 1) == Waiting(m, k) + PartThought(m, k)
  {
    Units(Waiting(m, k));
    hide FirstLine, UserSource, CompactedText, Join;
  }

  lemma NoThought(m: Message, k: nat)
    requires k < |m.parts| && !m.speaker.AssistantSpeaker?
    ensures OfDraft(RecordThought, DraftOf(m, k)) == ""
  {
    hide FirstLine, UserSource, CompactedText, Join, Waiting;
  }

  lemma ThoughtIndex()
    ensures forall r: Record, n: nat :: RecordThought(r.(index := n)) == RecordThought(r)
  {
  }

  lemma DraftThought(records: seq<Record>, m: Message, k: nat)
    requires k < |m.parts|
    ensures Collect(RecordThought, AddDraft(records, DraftOf(m, k))) == Collect(RecordThought, records) + OfDraft(RecordThought, DraftOf(m, k))
  {
    var draft := DraftOf(m, k);
    ThoughtIndex();
    hide Collect, DraftOf, Push, RecordThought;
    if draft.Some? { PushTold(RecordThought, records, draft.value); } else { Units(Collect(RecordThought, records)); }
  }

  lemma NoneWaits(m: Message)
    ensures Waiting(m, 0) == ""
  {
  }

  /** The reasoning read so far is in the records, or waits for the next text. */
  lemma {:induction false} PartsThought(records: seq<Record>, m: Message, n: nat)
    requires n <= |m.parts| && m.speaker.AssistantSpeaker?
    ensures Collect(RecordThought, AddParts(records, m, n)) + Waiting(m, n) == Collect(RecordThought, records) + OfParts(PartThought, m, n)
  {
    hide *;
    NextPart(records, m, n);
    PartsNext(PartThought, m, n);
    NoneWaits(m);
    if n > 0 {
      var told, before := Collect(RecordThought, records), Collect(RecordThought, AddParts(records, m, n - 1));
      PartsThought(records, m, n - 1);
      DraftThought(AddParts(records, m, n - 1), m, n - 1);
      ThoughtNext(m, n - 1);
      Assoc(before, OfDraft(RecordThought, DraftOf(m, n - 1)), Waiting(m, n));
      Assoc(before, Waiting(m, n - 1), PartThought(m, n - 1));
      Assoc(told, OfParts(PartThought, m, n - 1), PartThought(m, n - 1));
    }
  }

  lemma {:induction false} OthersThought(records: seq<Record>, m: Message, n: nat)
    requires n <= |m.parts| && !m.speaker.AssistantSpeaker?
    ensures Collect(RecordThought, AddParts(records, m, n)) == Collect(RecordThought, records)
  {
    hide *;
    NextPart(records, m, n);
    if n > 0 {
      OthersThought(records, m, n - 1);
      DraftThought(AddParts(records, m, n - 1), m, n - 1);
      NoThought(m, n - 1);
      Units(Collect(RecordThought, records));
    }
  }

  lemma MessageThought(records: seq<Record>, m: Message)
    ensures Collect(RecordThought, AddMessage(records, m)) == Collect(RecordThought, records) + OfParts(PartThought, m, |m.parts|)
  {
    var after, waiting := AddParts(records, m, |m.parts|), Waiting(m, |m.parts|);
    NoneWaits(m);
    if m.speaker.AssistantSpeaker? {
      PartsThought(records, m, |m.parts|);
      ThoughtIndex();
      if m.parts != [] {
        PushTold(RecordThought, after, ThoughtDraft(m, waiting));
        assert RecordThought(ThoughtDraft(m, waiting)) == waiting;
      }
      Units(Collect(RecordThought, after));
    } else {
      OthersThought(records, m, |m.parts|);
      NothingInParts(PartThought, m, |m.parts|);
      Units(Collect(RecordThought, records));
    }
    hide Collect, AddParts, Waiting, Push, OfParts, ThoughtDraft, RecordThought;
  }

  lemma {:induction false} LogThought(ms: seq<Message>)
    ensures Collect(RecordThought, ToRecords(ms)) == OfLog(PartThought, ms)
  {
    if ms != [] {
      LogThought(ms[..|ms| - 1]);
      MessageThought(ToRecords(ms[..|ms| - 1]), ms[|ms| - 1]);
      hide AddMessage, OfParts, Collect;
    }
  }

  lemma {:induction false} SameInMessage(m: Message, n: nat)
    requires n <= |m.parts|
    ensures OfParts(PartThought, m, n) == ThoughtFolding.ThoughtOf(m, n)
  {
    if n > 0 {
      SameInMessage(m, n - 1);
      Units(OfParts(PartThought, m, n - 1));
    }
  }

  lemma {:induction false} SameInLog(ms: seq<Message>)
    ensures OfLog(PartThought, ms) == ThoughtFolding.LogThoughts(ms)
  {
    if ms != [] {
      SameInLog(ms[..|ms| - 1]);
      SameInMessage(ms[|ms| - 1], |ms[|ms| - 1].parts|);
    }
  }

  /** The records of messages show the reasoning of the assistant, all of it and in order: the same as the chat shows. */
  lemma ThoughtsRecorded(ms: seq<Message>)
    ensures Collect(RecordThought, ToRecords(ms)) == OfLog(PartThought, ms)
    ensures Collect(RecordThought, ToRecords(ms)) == ThoughtFolding.Thoughts(Items.ToItems(ms))
  {
    LogThought(ms);
    SameInLog(ms);
    ThoughtFolding.ThoughtsKept(ms);
  }

  // ----- Reasoning that no text follows --------------------------------------------------------------------------

  function LoneRecords(r: Record): seq<Record> {
    if r.text.None? && r.images.None? && r.contextItems.None? && r.tool.None? then [Bare(r).(summary := "")] else []
  }

  /** Some reasoning of the assistant has no text behind it. */
  predicate Trails(m: Message, n: nat)
    requires n <= |m.parts|
  {
    exists i :: 0 <= i < n && m.parts[i].ReasoningPart? && m.parts[i].text != "" &&
      forall j :: i < j < n ==> !(m.parts[j].TextPart? && m.parts[j].text != "")
  }

  lemma {:induction false} TrailsIs(m: Message, n: nat)
    requires n <= |m.parts| && m.speaker.AssistantSpeaker?
    ensures Trails(m, n) <==> Waiting(m, n) != ""
  {
    if n > 0 {
      TrailsIs(m, n - 1);
      var p := m.parts[n - 1];
      if HasReasoning(p) { assert m.parts[n - 1].ReasoningPart?; }
      else if Trails(m, n - 1) && !HasText(p) {
        var i :| 0 <= i < n - 1 && m.parts[i].ReasoningPart? && m.parts[i].text != "" &&
          forall j :: i < j < n - 1 ==> !(m.parts[j].TextPart? && m.parts[j].text != "");
        assert Trails(m, n);
      }
    }
  }

  function LoneOf(m: Message): seq<Record> {
    if m.speaker.AssistantSpeaker? && Trails(m, |m.parts|) && m.parts != [] then
      [Record(0, MessageRecord, m.id, |m.parts| - 1, m.createdAt, "", None, None, None, m.model, m.stats, None, None, None)]
    else []
  }

  function LonesOf(ms: seq<Message>): seq<Record> {
    if ms == [] then [] else LonesOf(ms[..|ms| - 1]) + LoneOf(ms[|ms| - 1])
  }

  lemma LoneIndex()
    ensures forall r: Record, n: nat :: LoneRecords(r.(index := n)) == LoneRecords(r)
  {
  }

  lemma NotLone(m: Message, k: nat)
    requires k < |m.parts|
    ensures OfDraft(LoneRecords, DraftOf(m, k)) == []
  {
    hide FirstLine, UserSource, CompactedText, Join, Waiting;
  }

  lemma {:induction false} PartsNotLone(records: seq<Record>, m: Message, n: nat)
    requires n <= |m.parts|
    ensures Collect(LoneRecords, AddParts(records, m, n)) == Collect(LoneRecords, records)
  {
    NextPart(records, m, n);
    LoneIndex();
    if n > 0 { NotLone(m, n - 1); }
    hide AddParts, DraftOf, Collect, LoneRecords, Push;
    if n > 0 {
      PartsNotLone(records, m, n - 1);
      var draft := DraftOf(m, n - 1);
      Units(Collect(LoneRecords, records));
      if draft.Some? { PushTold(LoneRecords, AddParts(records, m, n - 1), draft.value); }
    }
  }

  lemma LoneDraft(m: Message, reasoning: string)
    requires m.parts != []
    ensures LoneRecords(ThoughtDraft(m, reasoning)) ==
      [Record(0, MessageRecord, m.id, |m.parts| - 1, m.createdAt, "", None, None, None, m.model, m.stats, None, None, None)]
  {
    hide FirstLine;
  }

  lemma AddMessageIs(records: seq<Record>, m: Message)
    ensures var after := AddParts(records, m, |m.parts|);
            AddMessage(records, m) ==
              if m.speaker.AssistantSpeaker? && m.parts != [] && Waiting(m, |m.parts|) != ""
              then Push(after, ThoughtDraft(m, Waiting(m, |m.parts|))) else after
  {
    hide AddParts, Waiting, Push;
  }

  lemma MessageLone(records: seq<Record>, m: Message)
    ensures Collect(LoneRecords, AddMessage(records, m)) == Collect(LoneRecords, records) + LoneOf(m)
  {
    hide Trails, Waiting, Collect, AddParts, AddMessage, Push, LoneRecords, ThoughtDraft;
    PartsNotLone(records, m, |m.parts|);
    LoneIndex();
    AddMessageIs(records, m);
    Units(Collect(LoneRecords, records));
    if m.speaker.AssistantSpeaker? && m.parts != [] {
      var waiting := Waiting(m, |m.parts|);
      TrailsIs(m, |m.parts|);
      PushTold(LoneRecords, AddParts(records, m, |m.parts|), ThoughtDraft(m, waiting));
      LoneDraft(m, waiting);
    }
  }

  /** A record that holds nothing but reasoning stands exactly for an assistant message whose reasoning no text follows;
      every other record is one of those above. */
  lemma {:induction false} LoneThoughts(ms: seq<Message>)
    ensures Collect(LoneRecords, ToRecords(ms)) == LonesOf(ms)
  {
    if ms != [] {
      LoneThoughts(ms[..|ms| - 1]);
      MessageLone(ToRecords(ms[..|ms| - 1]), ms[|ms| - 1]);
      hide AddMessage, LoneOf, Collect;
    }
  }
}
