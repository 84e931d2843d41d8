/** The trajectory read model: stored messages to records (src/lib/trajectory.ts). */
module TrajectoryModel {
  import opened Options
  import opened Timeline
  import opened Messages
  import opened Records

  const COMPACT_MARK := "[earlier summary]"

  /** A record before it gets its place in the table. */
  function Draft(m: Message, k: nat, kind: Kind, summary: string, text: Option<string>): Record {
    Record(0, kind, m.id, k, m.createdAt, summary, text, None, None, None, None, None, None, None)
  }

  function Push(records: seq<Record>, draft: Record): seq<Record> {
    records + [draft.(index := |records|)]
  }

  function SystemDraft(m: Message, k: nat): Option<Record>
    requires k < |m.parts|
  {
    var p := m.parts[k];
    if HasText(p) then Some(Draft(m, k, SystemRecord, FirstLine(p.text), Some(p.text))) else None
  }

  function CompactedText(text: string): string
    requires COMPACT_MARK <= text
  {
    var rest := text[|COMPACT_MARK|..];
    if "\n" <= rest then rest[1..] else rest
  }

  function SpokenKind(m: Message): Kind {
    if m.speaker.UserSpeaker? then UserRecord else MessageRecord
  }

  predicate IsCompacted(m: Message, p: Part) {
    m.speaker.UserSpeaker? && HasText(p) && COMPACT_MARK <= p.text
  }

  function CompactedDraft(m: Message, k: nat, text: string): Record {
    var summary := FirstLine(text);
    Draft(m, k, CompactedRecord, if summary == "" then "\U{FF08}\U{7A7A}\U{6458}\U{8981}\U{FF09}" else summary, Some(text))
  }

  function TextDraft(m: Message, k: nat, text: string, reasoning: string): Record {
    Draft(m, k, SpokenKind(m), FirstLine(text), Some(text)).(
      reasoning := if reasoning != "" then Some(reasoning) else None,
      model := if m.speaker.AssistantSpeaker? then m.model else None,
      stats := if m.speaker.AssistantSpeaker? then m.stats else None,
      source := if m.speaker.UserSpeaker? then UserSource(text) else None)
  }

  function SourcesDraft(m: Message, k: nat, sources: seq<string>): Record {
    var described := Join(sources, "\U{FF0C}");
    Draft(m, k, ContextRecord, described, None).(source := Some(described), contextItems := Some(sources))
  }

  function ImageDraft(m: Message, k: nat, image: Image): Record {
    Draft(m, k, SpokenKind(m), "[\U{56FE}\U{7247} " + image.mediaType + "]", None).(
      images := Some([image]), model := if m.speaker.AssistantSpeaker? then m.model else None)
  }

  function ToolDraft(m: Message, k: nat, p: Part): Record
    requires HasTool(p)
  {
    Draft(m, k, ToolRecord, p.name + " " + p.input, None).(
      tool := Some(ToolInfo(p.name, p.input, p.args, Present(p.output), p.callId, p.startedAt, p.finishedAt)))
  }

  function ApprovalDraft(m: Message, k: nat, p: Part): Record
    requires HasApproval(p)
  {
    Draft(m, k, ToolRecord, "approval " + p.command.value, None).(
      tool := Some(ToolInfo("approval", p.command.value, None, p.decision, None, None, None)))
  }

  /** The record of one part of a user or assistant message, given the reasoning waiting for a text. */
  function PartDraft(m: Message, k: nat, reasoning: string): Option<Record>
    requires k < |m.parts|
  {
    var p := m.parts[k];
    if HasReasoning(p) then None
    else if IsCompacted(m, p) then Some(CompactedDraft(m, k, CompactedText(p.text)))
    else if HasText(p) then Some(TextDraft(m, k, p.text, reasoning))
    else if p.ContextPart? && p.text != "" && m.speaker.UserSpeaker? then Some(Draft(m, k, ContextRecord, FirstLine(p.text), Some(p.text)))
    else if HasSources(p) && m.speaker.UserSpeaker? then Some(SourcesDraft(m, k, p.items))
    else if HasImage(p) then Some(ImageDraft(m, k, Image(p.mediaType, p.data.value)))
    else if HasTool(p) then Some(ToolDraft(m, k, p))
    else if HasApproval(p) then Some(ApprovalDraft(m, k, p))
    else None
  }

  /** Reasoning collected and not yet shown with a text after the first `n` parts. */
  function Waiting(m: Message, n: nat): string
    requires n <= |m.parts|
  {
    if n == 0 then "" else
    var p := m.parts[n - 1];
    if HasReasoning(p) then Waiting(m, n - 1) + p.text
    else if HasText(p) && !IsCompacted(m, p) then ""
    else Waiting(m, n - 1)
  }

  function AddDraft(records: seq<Record>, draft: Option<Record>): seq<Record> {
    if draft.Some? then Push(records, draft.value) else records
  }

  function AddParts(records: seq<Record>, m: Message, n: nat): seq<Record>
    requires n <= |m.parts|
  {
    if n == 0 then records else
    AddDraft(AddParts(records, m, n - 1),
             if m.speaker.SystemSpeaker? then SystemDraft(m, n - 1) else PartDraft(m, n - 1, Waiting(m, n - 1)))
  }

  function ThoughtDraft(m: Message, reasoning: string): Record
    requires m.parts != []
  {
    Draft(m, |m.parts| - 1, MessageRecord, FirstLine(reasoning), None).(reasoning := Some(reasoning), model := m.model, stats := m.stats)
  }

  function AddMessage(records: seq<Record>, m: Message): seq<Record> {
    var after := AddParts(records, m, |m.parts|);
    if m.speaker.AssistantSpeaker? && m.parts != [] && Waiting(m, |m.parts|) != "" then
      Push(after, ThoughtDraft(m, Waiting(m, |m.parts|)))
    else after
  }

  function ToRecords(ms: seq<Message>): seq<Record> {
    if ms == [] then [] else AddMessage(ToRecords(ms[..|ms| - 1]), ms[|ms| - 1])
  }

  method ToTrajectoryRecords(messages: seq<Message>) returns (records: seq<Record>)
    ensures records == ToRecords(messages)
  {
    records := [];
    for n := 0 to |messages|
      invariant records == ToRecords(messages[..n])
    {
      var m := messages[n];
      assert messages[..n + 1][..n] == messages[..n];
      ghost var before := records;
      var reasoning := "";
      for k := 0 to |m.parts|
        invariant records == AddParts(before, m, k)
        invariant !m.speaker.SystemSpeaker? ==> reasoning == Waiting(m, k)
        invariant m.speaker.SystemSpeaker? ==> reasoning == ""
      {
        var p := m.parts[k];
        if m.speaker.SystemSpeaker? {
          records := AddDraft(records, SystemDraft(m, k));
        } else {
          records := AddDraft(records, PartDraft(m, k, reasoning));
          if HasReasoning(p) { reasoning := reasoning + p.text; }
          else if HasText(p) && !IsCompacted(m, p) { reasoning := ""; }
        }
      }
      if reasoning != "" && m.speaker.AssistantSpeaker? { records := Push(records, ThoughtDraft(m, reasoning)); }
    }
    assert messages[..|messages|] == messages;
  }
}
