/** Stored messages (src/lib/chat.ts) and the text helpers both read models share (src/lib/items.ts). */
module Messages {
  import opened Options
  import opened Timeline

  datatype Speaker = UserSpeaker | AssistantSpeaker | SystemSpeaker

  /** Absent and empty texts and names are both falsy for the code, so they are both "" here. */
  datatype Part =
    | TextPart(text: string)
    | ReasoningPart(text: string)
    | ContextPart(text: string)
    | SourcesPart(items: seq<string>)
    | ImagePart(mediaType: string, data: Option<string>)
    | ToolPart(name: string, input: string, args: Option<string>, output: Option<string>, callId: Option<string>,
               startedAt: Option<int>, finishedAt: Option<int>)
    | ApprovalPart(command: Option<string>, reason: Option<string>, decision: Option<string>)
    | UnknownPart

  datatype Message = Message(id: string, speaker: Speaker, parts: seq<Part>, model: Option<Model>, stats: Option<string>, createdAt: int)

  ghost predicate DistinctMessages(ms: seq<Message>) {
    forall i, j :: 0 <= i < j < |ms| ==> ms[i].id != ms[j].id
  }

  /** `x || undefined`. */
  function Present(s: Option<string>): Option<string> {
    if Truthy(s) then s else None
  }

  function Join(texts: seq<string>, separator: string): string {
    if texts == [] then "" else if |texts| == 1 then texts[0] else Join(texts[..|texts| - 1], separator) + separator + texts[|texts| - 1]
  }

  function IndexOfChar(text: string, c: char): (i: nat)
    ensures i <= |text| && c !in text[..i] && (i < |text| ==> text[i] == c)
  {
    if text == "" || text[0] == c then 0 else 1 + IndexOfChar(text[1..], c)
  }

  /** The sender named by a notification prefix. */
  function UserSource(text: string): Option<string> {
    var prefix := "[teammate ";
    if prefix <= text && 0 < IndexOfChar(text[|prefix|..], ']') < |text| - |prefix| then
      Some("teammate " + text[|prefix|..][..IndexOfChar(text[|prefix|..], ']')])
    else if "[task notification]" <= text then Some("task notification")
    else None
  }

  function FirstLine(text: string): string {
    var line := text[..IndexOfChar(text, '\n')];
    if |line| > 120 then line[..120] + "\U{2026}" else line
  }

  predicate HasText(p: Part) { p.TextPart? && p.text != "" }
  predicate HasReasoning(p: Part) { p.ReasoningPart? && p.text != "" }
  predicate HasImage(p: Part) { p.ImagePart? && p.mediaType != "" && p.data.Some? }
  predicate HasTool(p: Part) { p.ToolPart? && p.name != "" }
  predicate HasApproval(p: Part) { p.ApprovalPart? && p.command.Some? }
  predicate HasSources(p: Part) { p.SourcesPart? && p.items != [] }
}
