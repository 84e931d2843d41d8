/** Streaming text into the timeline: immediate append and 50 ms batches
    (src/lib/delta-batch.ts, src/lib/session-events.ts, src/pages/Session.tsx). */
module Deltas {
  import opened Options
  import opened Timeline

  datatype Field = Content | Reasoning

  predicate SameAccount(a: Account, b: Account) {
    a == b || (!a.Account? && !b.Account?)
  }

  /** The same provider, model and account; an absent and a null account are the same. */
  predicate SameModel(a: Option<Model>, b: Option<Model>) {
    if a.None? || b.None? then a == b
    else a.value.provider == b.value.provider && a.value.name == b.value.name && SameAccount(a.value.account, b.value.account)
  }

  /** The last item is an assistant bubble that is still streaming, from this model. */
  predicate Grows(items: seq<Item>, model: Option<Model>) {
    items != [] && var last := items[|items| - 1];
    last.Msg? && last.role.Assistant? && !Truthy(last.messageId) && SameModel(last.model, model)
  }

  function AppendRawItem(items: seq<Item>, field: Field, text: string, model: Option<Model>): seq<Item> {
    if Grows(items, model) then
      var last := items[|items| - 1];
      var kept := if model.Some? then model else last.model;
      items[|items| - 1 :=
        if field.Content? then last.(content := last.content + text, model := kept)
        else last.(reasoning := Some(last.reasoning.GetOr("") + text), model := kept)]
    else
      items + [Msg(Assistant, if field.Content? then text else "", if field.Reasoning? then Some(text) else None,
                   None, None, None, None, model, None, None, "")]
  }

  // ----- Tool events -------------------------------------------------------------------------

  datatype ToolEvent =
    | CallStarted(name: string, summary: Option<string>, args: Option<string>)
    | CallReturned(name: string, summary: Option<string>, output: Option<string>)
    | ApprovalAsked(id: Option<string>, command: Option<string>, reason: Option<string>, sessionId: Option<string>)
    | ApprovalSettled(id: Option<string>, outcome: Option<string>)
    | HistoryCompacted(summary: Option<string>)
    | PhaseReached(name: string, index: Option<int>, total: Option<int>, workflow: Option<string>)

  /** The last call with this name that has no result, among the first `n` items. */
  function OpenCall(items: seq<Item>, name: string, n: nat): (i: Option<nat>)
    requires n <= |items|
    ensures i.Some? ==> i.value < n && items[i.value].Tool? && items[i.value].name == name && items[i.value].result.None?
    ensures forall k :: 0 <= k < n && (i.Some? ==> i.value < k) ==> !(items[k].Tool? && items[k].name == name && items[k].result.None?)
  {
    if n == 0 then None
    else if items[n - 1].Tool? && items[n - 1].name == name && items[n - 1].result.None? then Some(n - 1)
    else OpenCall(items, name, n - 1)
  }

  function Settle(items: seq<Item>, id: string, resolved: string): (r: seq<Item>)
    ensures |r| == |items|
  {
    seq(|items|, i requires 0 <= i < |items| =>
      if items[i].Approval? && items[i].approvalId == id && !Truthy(items[i].resolved)
      then items[i].(resolved := Some(resolved)) else items[i])
  }

  function PhaseItem(e: ToolEvent): Item
    requires e.PhaseReached?
  {
    if e.index.Some? && e.total.Some? then Phase(e.name, e.index, e.total, e.workflow) else Phase("phase: " + e.name, None, None, None)
  }

  predicate HasCard(items: seq<Item>, id: string) {
    exists i :: 0 <= i < |items| && items[i].Approval? && items[i].approvalId == id
  }

  function ApplyStreamEvent(items: seq<Item>, e: ToolEvent): seq<Item> {
    match e
    case CallStarted(name, summary, args) => items + [Tool(name, summary.GetOr(""), args, None, None, None)]
    case CallReturned(name, summary, output) =>
      var i := OpenCall(items, name, |items|);
      if i.None? then items
      else items[i.value := items[i.value].(result := Some(if output.Some? then output.value else summary.GetOr("")))]
    case ApprovalAsked(id, command, reason, sessionId) =>
      if !Truthy(id) || HasCard(items, id.value) then items
      else items + [Approval(id.value, command.GetOr(""), reason.GetOr(""), sessionId, None)]
    case ApprovalSettled(id, outcome) =>
      if !Truthy(id) then items else Settle(items, id.value, if outcome == Some("timeout") then "timeout" else "cancelled")
    case HistoryCompacted(summary) => items + [Compacted(summary.GetOr(""))]
    case PhaseReached(_, _, _, _) =>
      var item := PhaseItem(e);
      if item.index.Some? && items != [] && var last := items[|items| - 1]; last.Phase? && last.index.Some? && last.workflow == item.workflow
      then items[|items| - 1 := item] else items + [item]
  }

  // ----- The page with its batcher -----------------------------------------------------------------

  /** What `onLlmDelta` lets through: texts are never empty. */
  type Chunk = text: string | text != "" witness "a"

  datatype Page = Page(
    session: string,              // activeSessionId(), "" for a draft
    items: seq<Item>,
    content: string,              // buffers
    reasoning: string,
    timer: bool,
    batchSid: string,
    batchModel: Option<Model>,
    liveModel: Option<Model>)

  const Blank := Page("", [], "", "", false, "", None, None)

  /** `appendRaw` of the page: only the session the batch belongs to gets it. */
  function AppendRaw(p: Page, field: Field, text: string): Page {
    if p.batchSid == "" || p.session != p.batchSid then p
    else p.(items := AppendRawItem(p.items, field, text, p.batchModel))
  }

  function Flush(p: Page): Page {
    var q := p.(timer := false, content := "", reasoning := "");
    var c := if p.content != "" then AppendRaw(q, Content, p.content) else q;
    if p.reasoning != "" then AppendRaw(c, Reasoning, p.reasoning) else c
  }

  function FlushNow(p: Page): Page {
    if p.timer then Flush(p) else p
  }

  function Discard(p: Page): Page {
    p.(timer := false, content := "", reasoning := "", batchSid := "", batchModel := None)
  }

  function Push(p: Page, field: Field, text: string): Page {
    p.(content := if field.Content? then p.content + text else p.content,
       reasoning := if field.Reasoning? then p.reasoning + text else p.reasoning,
       timer := true)
  }

  function AppendAssistant(p: Page, field: Field, text: string): Page {
    if p.session == "" then p else
    var a := if p.batchSid != "" && p.batchSid != p.session then Discard(p) else p;
    var b := if a.batchSid == p.session && !SameModel(a.batchModel, p.liveModel) then FlushNow(a) else a;
    Push(b.(batchSid := p.session, batchModel := p.liveModel), field, text)
  }

  datatype Event =
    | Delta(field: Field, text: Chunk)
    | ModelNamed(model: Model)
    | ToolArrived(event: ToolEvent)
    | TimerFired
    | RunDone                  // done, aborted or error
    | Resynced
    | Switched(session: string)
    | StreamReset              // a send starts or stops a stream

  predicate Enabled(p: Page, e: Event) {
    e.TimerFired? ==> p.timer
  }

  function Step(p: Page, e: Event): Page {
    match e
    case Delta(field, text) => AppendAssistant(p, field, text)
    case ModelNamed(model) => p.(liveModel := Some(model))
    case ToolArrived(event) => var q := FlushNow(p); q.(items := ApplyStreamEvent(q.items, event))
    case TimerFired => Flush(p)
    case RunDone => FlushNow(p).(batchSid := "", batchModel := None, liveModel := None)
    case Resynced => FlushNow(p)
    case Switched(session) =>
      if session == p.session then p else Discard(p).(session := session, liveModel := None, items := [])
    case StreamReset => Discard(p).(liveModel := None)
  }

  // ----- The page that appends every delta at once --------------------------------------------------

  datatype Plain = Plain(session: string, items: seq<Item>, liveModel: Option<Model>)

  function PlainStep(q: Plain, e: Event): Plain {
    match e
    case Delta(field, text) => if q.session == "" then q else q.(items := AppendRawItem(q.items, field, text, q.liveModel))
    case ModelNamed(model) => q.(liveModel := Some(model))
    case ToolArrived(event) => q.(items := ApplyStreamEvent(q.items, event))
    case TimerFired => q
    case RunDone => q.(liveModel := None)
    case Resynced => q
    case Switched(session) => if session == q.session then q else Plain(session, [], None)
    case StreamReset => q.(liveModel := None)
  }

  function Run(p: Page, events: seq<Event>): Page
    decreases events
  {
    if events == [] then p else Run(Step(p, events[0]), events[1..])
  }

  function PlainRun(q: Plain, events: seq<Event>): Plain
    decreases events
  {
    if events == [] then q else PlainRun(PlainStep(q, events[0]), events[1..])
  }

  ghost predicate Legal(p: Page, events: seq<Event>)
    decreases events
  {
    events != [] ==> Enabled(p, events[0]) && Legal(Step(p, events[0]), events[1..])
  }
}
