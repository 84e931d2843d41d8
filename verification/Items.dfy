/** The chat read model: stored messages to timeline items (src/lib/items.ts). */
module Items {
  import opened Options
  import opened Timeline
  import opened Messages

  function ToolItem(p: Part, id: string, k: nat): Option<Item> {
    if HasTool(p) then Some(Tool(p.name, p.input, p.args, Present(p.output), Some(id), Some(k))) else None
  }

  function Resolution(decision: Option<string>): string {
    if decision == Some("allow") then "allowed"
    else if decision == Some("deny") then "denied"
    else if decision == Some("timeout") then "timeout"
    else if decision == Some("cancel") then "cancelled"
    else "expired"
  }

  function ApprovalHistoryItem(p: Part): Option<Item> {
    if HasApproval(p) then Some(Approval("", p.command.value, p.reason.GetOr(""), None, Some(Resolution(p.decision)))) else None
  }

  /** The tool or approval card of a part, as a list. */
  function Card(p: Part, id: string, k: nat): seq<Item> {
    var tool := ToolItem(p, id, k);
    var approval := ApprovalHistoryItem(p);
    if tool.Some? then [tool.value] else if approval.Some? then [approval.value] else []
  }

  function Bubble(role: Role, content: string, id: string, model: Option<Model>): (bubble: Item)
    ensures bubble.Msg?
  {
    Msg(role, content, None, None, Some(id), None, None, model, None, None, "")
  }

  // ----- Turns ---------------------------------------------------------------------------------

  datatype TurnAcc = TurnAcc(stream: string, texts: seq<string>, reasoning: string, images: seq<Image>, model: Option<Model>, lastMessageId: string)

  predicate IdChar(c: char) {
    'A' <= c <= 'Z' || 'a' <= c <= 'z' || '0' <= c <= '9' || c == '_' || c == '-'
  }

  /** The stream of an iteration message, whose id is the stream id, ":t" and a number. */
  function Stream(id: string): Option<string> {
    var i := IndexOfChar(id, ':');
    if 0 < i && i + 2 < |id| && id[i + 1] == 't' && (forall k :: 0 <= k < i ==> IdChar(id[k])) &&
       (forall k :: i + 2 <= k < |id| ==> '0' <= id[k] <= '9')
    then Some(id[..i]) else None
  }

  function TurnBubble(turn: TurnAcc): Item {
    var bubble := Bubble(Assistant, Join(turn.texts, "\n"), turn.lastMessageId, turn.model);
    bubble.(
      reasoning := if turn.reasoning != "" then Some(turn.reasoning) else None,
      images := if turn.images != [] then Some(turn.images) else None)
  }

  function Flush(turn: Option<TurnAcc>): seq<Item> {
    if turn.Some? && (turn.value.texts != [] || turn.value.reasoning != "" || turn.value.images != []) then [TurnBubble(turn.value)] else []
  }

  datatype Fold = Fold(items: seq<Item>, turn: Option<TurnAcc>)

  function AbsorbPart(items: seq<Item>, turn: TurnAcc, m: Message, k: nat): (seq<Item>, TurnAcc)
    requires k < |m.parts|
  {
    var p := m.parts[k];
    if HasText(p) then (items, turn.(texts := turn.texts + [p.text]))
    else if HasReasoning(p) then (items, turn.(reasoning := turn.reasoning + p.text))
    else if HasImage(p) then (items, turn.(images := turn.images + [Image(p.mediaType, p.data.value)]))
    else (items + Card(p, m.id, k), turn)
  }

  function AbsorbParts(items: seq<Item>, turn: TurnAcc, m: Message, n: nat): (seq<Item>, TurnAcc)
    requires n <= |m.parts|
  {
    if n == 0 then (items, turn) else
    var (before, acc) := AbsorbParts(items, turn, m, n - 1);
    AbsorbPart(before, acc, m, n - 1)
  }

  function Absorb(items: seq<Item>, turn: TurnAcc, m: Message): (seq<Item>, TurnAcc) {
    var (after, acc) := AbsorbParts(items, turn, m, |m.parts|);
    (after, acc.(lastMessageId := m.id, model := if m.model.Some? then m.model else acc.model))
  }

  // ----- Single messages -------------------------------------------------------------------------

  function RoleOf(speaker: Speaker): Role {
    if speaker.UserSpeaker? then User else Assistant
  }

  /** The last item is a bubble of this message. */
  predicate OwnLast(items: seq<Item>, role: Role, id: string) {
    items != [] && var last := items[|items| - 1]; last.Msg? && last.role == role && last.messageId == Some(id)
  }

  function SetLast(items: seq<Item>, item: Item): seq<Item>
    requires items != []
  {
    items[|items| - 1 := item]
  }

  function OwnModel(m: Message): Option<Model> {
    if m.speaker.AssistantSpeaker? then m.model else None
  }

  function TextBubble(m: Message, text: string): (bubble: Item)
    ensures bubble.Msg?
  {
    var role := RoleOf(m.speaker);
    var bubble := Bubble(role, text, m.id, OwnModel(m));
    bubble.(source := if role.User? then UserSource(text) else None)
  }

  function SourcesBubble(m: Message, sources: seq<string>): (bubble: Item)
    ensures bubble.Msg?
  {
    var bubble := Bubble(User, "", m.id, None);
    bubble.(context := Some(sources))
  }

  function ImageBubble(m: Message, image: Image): (bubble: Item)
    ensures bubble.Msg?
  {
    var bubble := Bubble(RoleOf(m.speaker), "", m.id, OwnModel(m));
    bubble.(images := Some([image]))
  }

  function ThoughtBubble(m: Message, reasoning: string): (bubble: Item)
    ensures bubble.Msg?
  {
    var bubble := Bubble(Assistant, "", m.id, m.model);
    bubble.(reasoning := Some(reasoning))
  }

  function AppendText(items: seq<Item>, m: Message, text: string): seq<Item> {
    var role := RoleOf(m.speaker);
    if OwnLast(items, role, m.id) then
      var last := items[|items| - 1];
      SetLast(items, last.(content := last.content + "\n" + text))
    else items + [TextBubble(m, text)]
  }

  function AppendSources(items: seq<Item>, m: Message, sources: seq<string>): seq<Item> {
    if OwnLast(items, User, m.id) then
      var last := items[|items| - 1];
      SetLast(items, last.(context := Some(last.context.GetOr([]) + sources), contextUnavailable := Some(false)))
    else items + [SourcesBubble(m, sources)]
  }

  function MarkContext(items: seq<Item>, m: Message): seq<Item> {
    if OwnLast(items, User, m.id) && items[|items| - 1].context.GetOr([]) == [] then
      SetLast(items, items[|items| - 1].(contextUnavailable := Some(true)))
    else items
  }

  function AppendImage(items: seq<Item>, m: Message, image: Image): seq<Item> {
    var role := RoleOf(m.speaker);
    if OwnLast(items, role, m.id) then
      var last := items[|items| - 1];
      SetLast(items, last.(images := Some(last.images.GetOr([]) + [image])))
    else items + [ImageBubble(m, image)]
  }

  function AppendPart(items: seq<Item>, m: Message, k: nat): seq<Item>
    requires k < |m.parts|
  {
    var p := m.parts[k];
    if HasText(p) then AppendText(items, m, p.text)
    else if HasReasoning(p) && m.speaker.AssistantSpeaker? then items
    else if HasSources(p) && m.speaker.UserSpeaker? then AppendSources(items, m, p.items)
    else if p.ContextPart? && m.speaker.UserSpeaker? then MarkContext(items, m)
    else if HasImage(p) then AppendImage(items, m, Image(p.mediaType, p.data.value))
    else items + Card(p, m.id, k)
  }

  function AppendParts(items: seq<Item>, m: Message, n: nat): seq<Item>
    requires n <= |m.parts|
  {
    if n == 0 then items else AppendPart(AppendParts(items, m, n - 1), m, n - 1)
  }

  /** All reasoning of the first `n` parts. */
  function Reasoning(m: Message, n: nat): string
    requires n <= |m.parts|
  {
    if n == 0 then "" else Reasoning(m, n - 1) + if HasReasoning(m.parts[n - 1]) then m.parts[n - 1].text else ""
  }

  /** Hangs the reasoning on the last assistant bubble of the message among the first `n` items, or on a new one. */
  function Attach(items: seq<Item>, m: Message, reasoning: string, n: nat): seq<Item>
    requires n <= |items|
  {
    if n == 0 || !items[n - 1].Msg? || items[n - 1].messageId != Some(m.id) then
      items + [ThoughtBubble(m, reasoning)]
    else if items[n - 1].role.Assistant? then
      items[n - 1 := items[n - 1].(reasoning := Some(items[n - 1].reasoning.GetOr("") + reasoning))]
    else Attach(items, m, reasoning, n - 1)
  }

  function AppendMessage(items: seq<Item>, m: Message): seq<Item> {
    if m.speaker.SystemSpeaker? then items else
    var after := AppendParts(items, m, |m.parts|);
    var reasoning := if m.speaker.AssistantSpeaker? then Reasoning(m, |m.parts|) else "";
    if reasoning == "" then after else Attach(after, m, reasoning, |after|)
  }

  // ----- The whole list ---------------------------------------------------------------------------

  predicate HasToolCall(m: Message) {
    exists k :: 0 <= k < |m.parts| && m.parts[k].ToolPart?
  }

  predicate InlineOnly(m: Message) {
    forall k :: 0 <= k < |m.parts| ==> m.parts[k].ApprovalPart? || m.parts[k].ContextPart?
  }

  /** An iteration message joins the open turn of its stream, or closes the open turn and opens one. */
  function FoldIteration(f: Fold, m: Message, stream: string): Fold {
    var keeps := f.turn.Some? && f.turn.value.stream == stream;
    var items := if keeps then f.items else f.items + Flush(f.turn);
    var (after, acc) := Absorb(items, if keeps then f.turn.value else TurnAcc(stream, [], "", [], None, m.id), m);
    Fold(after, Some(acc))
  }

  function FoldFinal(f: Fold, turn: TurnAcc, m: Message): Fold {
    var (after, acc) := Absorb(f.items, turn, m);
    Fold(after + Flush(Some(acc)), None)
  }

  function FoldMessage(f: Fold, m: Message): Fold {
    if m.speaker.SystemSpeaker? then f
    else if m.speaker.AssistantSpeaker? then
      var stream := Stream(m.id);
      if stream.Some? then FoldIteration(f, m, stream.value)
      else if f.turn.Some? && !HasToolCall(m) && !InlineOnly(m) then FoldFinal(f, f.turn.value, m)
      else if InlineOnly(m) then Fold(AppendMessage(f.items, m), f.turn)
      else Fold(AppendMessage(f.items + Flush(f.turn), m), None)
    else Fold(AppendMessage(f.items + Flush(f.turn), m), None)
  }

  function FoldMessages(ms: seq<Message>): Fold {
    if ms == [] then Fold([], None) else FoldMessage(FoldMessages(ms[..|ms| - 1]), ms[|ms| - 1])
  }

  function ToItems(ms: seq<Message>): seq<Item> {
    var f := FoldMessages(ms);
    f.items + Flush(f.turn)
  }
}
