/** What a streamed page shows, told from the list of events alone. */
module DeltaContents {
  import opened Options
  import opened Seqs
  import opened Timeline
  import opened Deltas
  import opened DeltaTheorems

  // ----- What the events say ---------------------------------------------------------------------

  /** The session on screen after the events. */
  function SessionOf(events: seq<Event>): string {
    if events == [] then "" else
    var last := events[|events| - 1];
    if last.Switched? then last.session else SessionOf(events[..|events| - 1])
  }

  /** The model named last, unless a run has ended, a stream has been reset or the session has changed since. */
  function ModelOf(events: seq<Event>): Option<Model> {
    if events == [] then None else
    var before := events[..|events| - 1];
    match events[|events| - 1]
    case ModelNamed(model) => Some(model)
    case RunDone => None
    case StreamReset => None
    case Switched(session) => if session == SessionOf(before) then ModelOf(before) else None
    case _ => ModelOf(before)
  }

  /** One thing that goes on the screen. */
  datatype Token =
    | Text(field: Field, text: string, model: Option<Model>)      // a piece of text with the model that writes it
    | Called(name: string, call: string, args: Option<string>)
    | Asked(id: string, command: string, reason: string, sessionId: Option<string>)
    | Reached(name: string, index: Option<int>, total: Option<int>, workflow: Option<string>)
    | Cut(summary: string)

  predicate WasAsked(shown: seq<Token>, id: string) {
    exists i :: 0 <= i < |shown| && shown[i].Asked? && shown[i].id == id
  }

  /** An approval is asked for once, and only under an id. */
  function TokenOf(e: ToolEvent, shown: seq<Token>): seq<Token> {
    match e
    case CallStarted(name, summary, args) => [Called(name, summary.GetOr(""), args)]
    case CallReturned(_, _, _) => []
    case ApprovalAsked(id, command, reason, sessionId) =>
      if id.None? || id.value == "" || WasAsked(shown, id.value) then []
      else [Asked(id.value, command.GetOr(""), reason.GetOr(""), sessionId)]
    case ApprovalSettled(_, _) => []
    case HistoryCompacted(summary) => [Cut(summary.GetOr(""))]
    case PhaseReached(name, index, total, workflow) => [Reached(name, index, total, workflow)]
  }

  /** What the events put on the screen since the session was entered; nothing is streamed into a draft. */
  function TokensOf(events: seq<Event>): seq<Token> {
    if events == [] then [] else
    var before := events[..|events| - 1];
    match events[|events| - 1]
    case Delta(field, text) => TokensOf(before) + if SessionOf(before) == "" then [] else [Text(field, text, ModelOf(before))]
    case ToolArrived(event) => TokensOf(before) + TokenOf(event, TokensOf(before))
    case Switched(session) => if session == SessionOf(before) then TokensOf(before) else []
    case _ => TokensOf(before)
  }

  // ----- What the items show ------------------------------------------------------------------------

  /** The texts of one field, joined. */
  function Heard(tokens: seq<Token>, field: Field): string {
    if tokens == [] then "" else
    var last := tokens[|tokens| - 1];
    Heard(tokens[..|tokens| - 1], field) + if last.Text? && last.field == field then last.text else ""
  }

  function AccountName(model: Model): Option<string> {
    if model.account.Account? then Some(model.account.name) else None
  }

  /** The same provider, name and account, or none on both sides. */
  predicate OneModel(a: Option<Model>, b: Option<Model>) {
    (a.None? && b.None?) ||
    (a.Some? && b.Some? && a.value.provider == b.value.provider && a.value.name == b.value.name && AccountName(a.value) == AccountName(b.value))
  }

  predicate Counted(token: Token) {
    token.Reached? && token.index.Some? && token.total.Some?
  }

  /** A bubble shows the texts of its segment, all written by one model; a progress bar shows the last of the phases that one
      workflow went through in a row, a phase without numbers is a line of its own, and so is everything else. */
  predicate ItemOk(item: Item, segment: seq<Token>) {
    match item
    case Msg(_, _, _, _, _, _, _, _, _, _, _) =>
      item.role.Assistant? && item.messageId.None? && segment != [] && item.content == Heard(segment, Content) &&
      item.reasoning.GetOr("") == Heard(segment, Reasoning) &&
      (forall i :: 0 <= i < |segment| ==> segment[i].Text? && OneModel(segment[i].model, item.model)) &&
      item.model == segment[|segment| - 1].model
    case Tool(name, call, args, _, _, _) => segment == [Called(name, call, args)]
    case Phase(name, index, total, workflow) =>
      segment != [] && var last := segment[|segment| - 1];
      if Counted(last) then
        item == Phase(last.name, last.index, last.total, last.workflow) &&
        forall i :: 0 <= i < |segment| ==> Counted(segment[i]) && segment[i].workflow == last.workflow
      else |segment| == 1 && last.Reached? && item == Phase("phase: " + last.name, None, None, None)
    case Compacted(summary) => segment == [Cut(summary)]
    case Approval(id, command, reason, sessionId, _) => id != "" && segment == [Asked(id, command, reason, sessionId)]
  }

  ghost predicate Laid(items: seq<Item>, segments: seq<seq<Token>>) {
    |segments| == |items| && forall i :: 0 <= i < |items| ==> ItemOk(items[i], segments[i])
  }

  /** Two bubbles of one model, or two progress bars of one workflow. */
  predicate Alike(a: Item, b: Item) {
    (a.Msg? && b.Msg? && OneModel(a.model, b.model)) ||
    (a.Phase? && b.Phase? && a.index.Some? && b.index.Some? && a.workflow == b.workflow)
  }

  /** No such two stand next to each other. */
  ghost predicate Apart(items: seq<Item>) {
    forall i :: 0 < i < |items| ==> !Alike(items[i - 1], items[i])
  }

  function Flat(segments: seq<seq<Token>>): seq<Token> {
    if segments == [] then [] else Flat(segments[..|segments| - 1]) + segments[|segments| - 1]
  }

  // ----- Small steps ---------------------------------------------------------------------------------

  lemma FlatNext(segments: seq<seq<Token>>, segment: seq<Token>)
    ensures Flat(segments + [segment]) == Flat(segments) + segment
  {
    assert (segments + [segment])[..|segments|] == segments;
  }

  lemma HeardNext(tokens: seq<Token>, token: Token, field: Field)
    ensures Heard(tokens + [token], field) == Heard(tokens, field) + if token.Text? && token.field == field then token.text else ""
  {
    assert (tokens + [token])[..|tokens|] == tokens;
  }

  lemma HeardOne(token: Token, field: Field)
    ensures Heard([token], field) == if token.Text? && token.field == field then token.text else ""
  {
    HeardNext([], token, field);
    assert [] + [token] == [token];
  }

  lemma ModelLaws(a: Option<Model>, b: Option<Model>, c: Option<Model>)
    ensures OneModel(a, a) && (OneModel(a, b) ==> OneModel(b, a)) && (OneModel(a, b) && OneModel(b, c) ==> OneModel(a, c))
    ensures SameModel(a, b) <==> OneModel(a, b)
  {
  }

  lemma AlikeLaws(a: Item, b: Item, c: Item)
    ensures Alike(b, c) ==> (Alike(a, b) <==> Alike(a, c))
  {
    if a.Msg? && b.Msg? && c.Msg? {
      ModelLaws(a.model, b.model, c.model);
      ModelLaws(b.model, c.model, c.model);
      ModelLaws(a.model, c.model, b.model);
    }
    hide OneModel;
  }

  lemma PushLaid(items: seq<Item>, segments: seq<seq<Token>>, item: Item, segment: seq<Token>)
    requires Laid(items, segments) && Apart(items) && ItemOk(item, segment)
    requires items != [] ==> !Alike(items[|items| - 1], item)
    ensures Laid(items + [item], segments + [segment]) && Apart(items + [item]) && Flat(segments + [segment]) == Flat(segments) + segment
  {
    FlatNext(segments, segment);
    hide ItemOk, Alike, Flat;
  }

  /** An item that is no bubble may change in what it does not show of the events. */
  lemma SetLaid(items: seq<Item>, segments: seq<seq<Token>>, i: nat, item: Item)
    requires Laid(items, segments) && Apart(items) && i < |items| && ItemOk(item, segments[i])
    requires items[i].Tool? && item.Tool?
    ensures Laid(items[i := item], segments) && Apart(items[i := item])
  {
    hide ItemOk;
  }

  // ----- A delta ----------------------------------------------------------------------------------------

  lemma NewBubble(field: Field, text: string, model: Option<Model>, bubble: Item)
    requires bubble == Msg(Assistant, if field.Content? then text else "", if field.Reasoning? then Some(text) else None,
                           None, None, None, None, model, None, None, "")
    ensures ItemOk(bubble, [Text(field, text, model)])
  {
    HeardOne(Text(field, text, model), Content);
    HeardOne(Text(field, text, model), Reasoning);
    ModelLaws(model, model, model);
    hide Heard, OneModel;
  }

  lemma GrownBubble(last: Item, segment: seq<Token>, field: Field, text: string, model: Option<Model>, bubble: Item)
    requires last.Msg? && ItemOk(last, segment) && SameModel(last.model, model)
    requires bubble == if field.Content? then last.(content := last.content + text, model := if model.Some? then model else last.model)
                       else last.(reasoning := Some(last.reasoning.GetOr("") + text), model := if model.Some? then model else last.model)
    ensures ItemOk(bubble, segment + [Text(field, text, model)]) && bubble.model == model
  {
    var token := Text(field, text, model);
    HeardNext(segment, token, Content);
    HeardNext(segment, token, Reasoning);
    assert bubble.model == model;
    Units(Heard(segment, Content));
    Units(Heard(segment, Reasoning));
    ModelLaws(model, model, model);
    hide Heard, SameModel;
    forall i | 0 <= i < |segment| ensures OneModel(segment[i].model, model) { ModelLaws(segment[i].model, last.model, model); }
    hide OneModel;
  }

  lemma DeltaLaid(items: seq<Item>, segments: seq<seq<Token>>, field: Field, text: string, model: Option<Model>)
    returns (after: seq<seq<Token>>)
    requires Laid(items, segments) && Apart(items)
    ensures Laid(AppendRawItem(items, field, text, model), after) && Apart(AppendRawItem(items, field, text, model))
    ensures Flat(after) == Flat(segments) + [Text(field, text, model)]
  {
    var token := Text(field, text, model);
    if Grows(items, model) { after := GrowLaid(items, segments, field, text, model); }
    else {
      var bubble := AppendRawItem(items, field, text, model)[|items|];
      NewBubble(field, text, model, bubble);
      if items != [] && items[|items| - 1].Msg? {
        assert ItemOk(items[|items| - 1], segments[|items| - 1]);
        ModelLaws(items[|items| - 1].model, model, model);
      }
      hide Laid, Apart, Flat, OneModel;
      PushLaid(items, segments, bubble, [token]);
      after := segments + [[token]];
    }
  }

  lemma GrowLaid(items: seq<Item>, segments: seq<seq<Token>>, field: Field, text: string, model: Option<Model>)
    returns (after: seq<seq<Token>>)
    requires Laid(items, segments) && Apart(items) && Grows(items, model)
    ensures Laid(AppendRawItem(items, field, text, model), after) && Apart(AppendRawItem(items, field, text, model))
    ensures Flat(after) == Flat(segments) + [Text(field, text, model)]
  {
    var n, token := |items| - 1, Text(field, text, model);
    var front, last := segments[..n], segments[n];
    var bubble := AppendRawItem(items, field, text, model)[n];
    assert segments == front + [last] && ItemOk(items[n], last);
    GrownBubble(items[n], last, field, text, model, bubble);
    ModelLaws(items[n].model, model, model);
    after := front + [last + [token]];
    LastLaid(items, front, last, bubble, [token]);
  }

  /** The last item grows by a token into one of its kind. */
  lemma LastLaid(items: seq<Item>, front: seq<seq<Token>>, last: seq<Token>, item: Item, more: seq<Token>)
    requires items != [] && Laid(items, front + [last]) && Apart(items)
    requires ItemOk(item, last + more) && Alike(items[|items| - 1], item)
    ensures Laid(items[|items| - 1 := item], front + [last + more]) && Apart(items[|items| - 1 := item])
    ensures Flat(front + [last + more]) == Flat(front + [last]) + more
  {
    hide *;
    FlatNext(front, last);
    FlatNext(front, last + more);
    Assoc(Flat(front), last, more);
    LastOk(items, front, last, item, last + more);
    LastApart(items, item);
  }

  lemma LastOk(items: seq<Item>, front: seq<seq<Token>>, last: seq<Token>, item: Item, segment: seq<Token>)
    requires items != [] && Laid(items, front + [last]) && ItemOk(item, segment)
    ensures Laid(items[|items| - 1 := item], front + [segment])
  {
    hide ItemOk;
    forall i | 0 <= i < |items| - 1 ensures ItemOk(items[i], front[i]) { assert (front + [last])[i] == front[i]; }
  }

  lemma LastApart(items: seq<Item>, item: Item)
    requires items != [] && Apart(items) && Alike(items[|items| - 1], item)
    ensures Apart(items[|items| - 1 := item])
  {
    if |items| > 1 { AlikeLaws(items[|items| - 2], items[|items| - 1], item); }
    hide Alike;
  }

  // ----- A tool event -------------------------------------------------------------------------------------

  lemma {:induction false} AskedIs(items: seq<Item>, segments: seq<seq<Token>>, id: string)
    requires Laid(items, segments)
    ensures HasCard(items, id) <==> WasAsked(Flat(segments), id)
  {
    if items != [] {
      var n := |items| - 1;
      AskedIs(items[..n], segments[..n], id);
      assert ItemOk(items[n], segments[n]);
      var front, last := Flat(segments[..n]), segments[n];
      assert WasAsked(last, id) <==> items[n].Approval? && items[n].approvalId == id by {
        if items[n].Approval? { assert last[0].Asked?; }
      }
      hide ItemOk, Flat;
      assert items == items[..n] + [items[n]];
      assert HasCard(items, id) <==> HasCard(items[..n], id) || HasCard([items[n]], id) by { CardJoin(items[..n], items[n], id); }
      AskedJoin(front, last, id);
    }
  }

  lemma CardJoin(a: seq<Item>, b: Item, id: string)
    ensures HasCard(a + [b], id) <==> HasCard(a, id) || HasCard([b], id)
  {
    if HasCard(a, id) {
      var i :| 0 <= i < |a| && a[i].Approval? && a[i].approvalId == id;
      assert (a + [b])[i] == a[i];
    }
    if HasCard([b], id) { assert (a + [b])[|a|] == b; }
  }

  lemma AskedJoin(a: seq<Token>, b: seq<Token>, id: string)
    ensures WasAsked(a + b, id) <==> WasAsked(a, id) || WasAsked(b, id)
  {
    if WasAsked(a, id) {
      var i :| 0 <= i < |a| && a[i].Asked? && a[i].id == id;
      assert (a + b)[i] == a[i];
    }
    if WasAsked(b, id) {
      var i :| 0 <= i < |b| && b[i].Asked? && b[i].id == id;
      assert (a + b)[|a| + i] == b[i];
    }
  }

  lemma ToolLaid(items: seq<Item>, segments: seq<seq<Token>>, e: ToolEvent) returns (after: seq<seq<Token>>)
    requires Laid(items, segments) && Apart(items)
    ensures Laid(ApplyStreamEvent(items, e), after) && Apart(ApplyStreamEvent(items, e))
    ensures Flat(after) == Flat(segments) + TokenOf(e, Flat(segments))
  {
    after := segments;
    Units(Flat(segments));
    match e
    case CallStarted(name, summary, args) =>
      PushLaid(items, segments, Tool(name, summary.GetOr(""), args, None, None, None), TokenOf(e, Flat(segments)));
      after := segments + [TokenOf(e, Flat(segments))];
    case CallReturned(name, summary, output) =>
      var i := OpenCall(items, name, |items|);
      if i.Some? {
        assert ItemOk(items[i.value], segments[i.value]);
        SetLaid(items, segments, i.value, items[i.value].(result := Some(if output.Some? then output.value else summary.GetOr(""))));
      }
    case ApprovalAsked(id, command, reason, sessionId) =>
      if Truthy(id) {
        AskedIs(items, segments, id.value);
        if !HasCard(items, id.value) {
          PushLaid(items, segments, Approval(id.value, command.GetOr(""), reason.GetOr(""), sessionId, None), TokenOf(e, Flat(segments)));
          after := segments + [TokenOf(e, Flat(segments))];
        }
      }
    case ApprovalSettled(id, outcome) =>
      if Truthy(id) { SettleLaid(items, segments, id.value, if outcome == Some("timeout") then "timeout" else "cancelled"); }
    case HistoryCompacted(summary) =>
      PushLaid(items, segments, Compacted(summary.GetOr("")), TokenOf(e, Flat(segments)));
      after := segments + [TokenOf(e, Flat(segments))];
    case PhaseReached(_, _, _, _) =>
      after := PhaseLaid(items, segments, e);
  }

  lemma SettleLaid(items: seq<Item>, segments: seq<seq<Token>>, id: string, resolved: string)
    requires Laid(items, segments) && Apart(items)
    ensures Laid(Settle(items, id, resolved), segments) && Apart(Settle(items, id, resolved))
  {
    var after := Settle(items, id, resolved);
    forall i | 0 <= i < |items| ensures ItemOk(after[i], segments[i]) { assert ItemOk(items[i], segments[i]); }
    hide ItemOk, OneModel;
  }

  lemma PhaseLaid(items: seq<Item>, segments: seq<seq<Token>>, e: ToolEvent) returns (after: seq<seq<Token>>)
    requires Laid(items, segments) && Apart(items) && e.PhaseReached?
    ensures Laid(ApplyStreamEvent(items, e), after) && Apart(ApplyStreamEvent(items, e))
    ensures Flat(after) == Flat(segments) + [Reached(e.name, e.index, e.total, e.workflow)]
  {
    var item, token, n := PhaseItem(e), Reached(e.name, e.index, e.total, e.workflow), |items| - 1;
    if item.index.Some? && items != [] && items[n].Phase? && items[n].index.Some? && items[n].workflow == item.workflow {
      var front, last := segments[..n], segments[n];
      assert segments == front + [last] && ItemOk(items[n], last);
      assert ItemOk(item, last + [token]);
      after := front + [last + [token]];
      LastLaid(items, front, last, item, [token]);
    } else {
      PushLaid(items, segments, item, [token]);
      after := segments + [[token]];
    }
  }

  // ----- Over every run ---------------------------------------------------------------------------------------

  /** The page shows what the events so far have put on the screen. */
  ghost predicate Shows(q: Plain, events: seq<Event>) {
    q.session == SessionOf(events) && q.liveModel == ModelOf(events) && Apart(q.items) &&
    exists segments :: Laid(q.items, segments) && Flat(segments) == TokensOf(events)
  }

  lemma EventsNext(before: seq<Event>, e: Event)
    ensures var events := before + [e];
            SessionOf(events) == (if e.Switched? then e.session else SessionOf(before)) &&
            ModelOf(events) == (if e.ModelNamed? then Some(e.model) else if e.RunDone? || e.StreamReset? then None
                                else if e.Switched? && e.session != SessionOf(before) then None else ModelOf(before)) &&
            TokensOf(events) == (if e.Switched? && e.session != SessionOf(before) then []
                                 else TokensOf(before) + if e.ToolArrived? then TokenOf(e.event, TokensOf(before))
                                                         else if e.Delta? && SessionOf(before) != "" then [Text(e.field, e.text, ModelOf(before))]
                                                         else [])
  {
    assert (before + [e])[..|before|] == before;
    Units(TokensOf(before));
  }

  lemma StepShows(q: Plain, before: seq<Event>, e: Event)
    requires Shows(q, before)
    ensures Shows(PlainStep(q, e), before + [e])
  {
    EventsNext(before, e);
    var segments :| Laid(q.items, segments) && Flat(segments) == TokensOf(before);
    hide SessionOf, ModelOf, TokensOf, AppendRawItem, ApplyStreamEvent, TokenOf, Apart, OneModel;
    var after := segments;
    match e
    case Delta(field, text) =>
      if q.session == "" { Units(TokensOf(before)); } else { after := DeltaLaid(q.items, segments, field, text, q.liveModel); }
    case ToolArrived(event) => after := ToolLaid(q.items, segments, event);
    case Switched(session) => if session != q.session { NothingLaid(); after := []; }
    case _ =>
    assert Laid(PlainStep(q, e).items, after) && Flat(after) == TokensOf(before + [e]);
  }

  lemma NothingLaid()
    ensures Laid([], []) && Apart([]) && Flat([]) == []
  {
  }

  lemma {:induction false} RunNext(q: Plain, before: seq<Event>, e: Event)
    ensures PlainRun(q, before + [e]) == PlainStep(PlainRun(q, before), e)
    decreases before
  {
    hide PlainStep;
    if before == [] { assert [] + [e] == [e] && [e][1..] == []; }
    else {
      assert (before + [e])[0] == before[0] && (before + [e])[1..] == before[1..] + [e];
      RunNext(PlainStep(q, before[0]), before[1..], e);
    }
  }

  lemma {:induction false} RunShows(events: seq<Event>)
    ensures Shows(PlainRun(Plain("", [], None), events), events)
  {
    if events == [] { NothingLaid(); }
    else {
      var before, e := events[..|events| - 1], events[|events| - 1];
      RunShows(before);
      RunNext(Plain("", [], None), before, e);
      assert before + [e] == events;
      hide Shows, PlainStep, PlainRun;
      StepShows(PlainRun(Plain("", [], None), before), before, e);
    }
  }

  /** After a final flush the page shows, in order and nothing else, what the events of the session have put on the screen:
      each bubble is made of texts of one model, and a new one begins where the model changes or something else comes between. */
  lemma DeltasShown(events: seq<Event>)
    requires Legal(Blank, events) && Calm(Blank, events)
    ensures var items := Flush(Run(Blank, events)).items;
            Apart(items) && exists segments :: Laid(items, segments) && Flat(segments) == TokensOf(events)
  {
    BatchingTransparent(events);
    RunShows(events);
    hide Apart, Laid, Flat, TokensOf;
  }

  // ----- The texts, joined ---------------------------------------------------------------------------------------

  function FieldOf(item: Item, field: Field): string {
    if !item.Msg? || !item.role.Assistant? || Truthy(item.messageId) then ""
    else if field.Content? then item.content else item.reasoning.GetOr("")
  }

  /** The contents, or the reasoning, of the streamed assistant bubbles, one after the other. */
  function Streamed(items: seq<Item>, field: Field): string {
    if items == [] then "" else Streamed(items[..|items| - 1], field) + FieldOf(items[|items| - 1], field)
  }

  lemma {:induction false} HeardJoin(a: seq<Token>, b: seq<Token>, field: Field)
    ensures Heard(a + b, field) == Heard(a, field) + Heard(b, field)
  {
    if b == [] { assert a + b == a; }
    else {
      var front, last := b[..|b| - 1], b[|b| - 1];
      HeardJoin(a, front, field);
      assert a + b == a + front + [last] && b == front + [last];
      HeardNext(a + front, last, field);
      HeardNext(front, last, field);
      hide Heard;
      Assoc(Heard(a, field), Heard(front, field), if last.Text? && last.field == field then last.text else "");
    }
  }

  lemma {:induction false} LaidHeard(items: seq<Item>, segments: seq<seq<Token>>, field: Field)
    requires Laid(items, segments)
    ensures Streamed(items, field) == Heard(Flat(segments), field)
  {
    if items != [] {
      var n := |items| - 1;
      LaidHeard(items[..n], segments[..n], field);
      ItemHeard(items[n], segments[n], field);
      HeardJoin(Flat(segments[..n]), segments[n], field);
      hide ItemOk, FieldOf, Heard;
    }
  }

  lemma ItemHeard(item: Item, segment: seq<Token>, field: Field)
    requires ItemOk(item, segment)
    ensures FieldOf(item, field) == Heard(segment, field)
  {
    if !item.Msg? { Silent(segment, field); }
    hide OneModel, Heard;
  }

  lemma {:induction false} Silent(tokens: seq<Token>, field: Field)
    requires forall i :: 0 <= i < |tokens| ==> !tokens[i].Text?
    ensures Heard(tokens, field) == ""
  {
    if tokens != [] { Silent(tokens[..|tokens| - 1], field); }
  }

  /** The streamed bubbles hold, joined, exactly the content deltas of the session in order, and the same for reasoning. */
  lemma DeltasJoined(events: seq<Event>)
    requires Legal(Blank, events) && Calm(Blank, events)
    ensures Streamed(Flush(Run(Blank, events)).items, Content) == Heard(TokensOf(events), Content)
    ensures Streamed(Flush(Run(Blank, events)).items, Reasoning) == Heard(TokensOf(events), Reasoning)
  {
    DeltasShown(events);
    var items := Flush(Run(Blank, events)).items;
    hide Laid, Flat, Streamed, Heard, TokensOf, Apart;
    var segments :| Laid(items, segments) && Flat(segments) == TokensOf(events);
    LaidHeard(items, segments, Content);
    LaidHeard(items, segments, Reasoning);
  }

  // ----- How approvals ended ------------------------------------------------------------------------------------------

  /** How an approval that has been asked for was settled: by the first such event, and it stays. */
  function OutcomeOf(events: seq<Event>, id: string): (r: Option<string>)
    ensures r.Some? ==> r.value == "timeout" || r.value == "cancelled"
  {
    if events == [] then None else
    var before := events[..|events| - 1];
    match events[|events| - 1]
    case ToolArrived(event) =>
      if OutcomeOf(before, id).None? && event.ApprovalSettled? && event.id == Some(id) && WasAsked(TokensOf(before), id)
      then Some(if event.outcome == Some("timeout") then "timeout" else "cancelled") else OutcomeOf(before, id)
    case Switched(session) => if session == SessionOf(before) then OutcomeOf(before, id) else None
    case _ => OutcomeOf(before, id)
  }

  lemma {:induction false} OutcomeAsked(events: seq<Event>, id: string)
    ensures OutcomeOf(events, id).Some? ==> WasAsked(TokensOf(events), id)
  {
    hide WasAsked, TokensOf, SessionOf, ModelOf, TokenOf;
    if events != [] {
      var before, e := events[..|events| - 1], events[|events| - 1];
      OutcomeAsked(before, id);
      EventsNext(before, e);
      assert before + [e] == events;
      if e.ToolArrived? { AskedJoin(TokensOf(before), TokenOf(e.event, TokensOf(before)), id); }
      else if e.Delta? && SessionOf(before) != "" { AskedJoin(TokensOf(before), [Text(e.field, e.text, ModelOf(before))], id); }
      else { Units(TokensOf(before)); }
    }
  }

  ghost predicate Answered(items: seq<Item>, events: seq<Event>) {
    forall i :: 0 <= i < |items| && items[i].Approval? ==> items[i].resolved == OutcomeOf(events, items[i].approvalId)
  }

  /** Every card is an old one, with its outcome, or a new one without. */
  ghost predicate Carried(before: seq<Item>, after: seq<Item>) {
    forall i :: 0 <= i < |after| && after[i].Approval? ==> i < |before| && after[i] == before[i]
  }

  lemma DeltaCarried(items: seq<Item>, field: Field, text: string, model: Option<Model>)
    ensures Carried(items, AppendRawItem(items, field, text, model))
  {
    hide SameModel;
  }

  lemma OutcomeNext(before: seq<Event>, e: Event, id: string)
    requires e.Switched? ==> e.session == SessionOf(before)
    requires !(e.ToolArrived? && e.event.ApprovalSettled?)
    ensures OutcomeOf(before + [e], id) == OutcomeOf(before, id)
  {
    assert (before + [e])[..|before|] == before;
  }

  lemma CarriedAnswered(items: seq<Item>, after: seq<Item>, before: seq<Event>, e: Event)
    requires Answered(items, before) && Carried(items, after) && (e.Switched? ==> e.session == SessionOf(before))
    requires !(e.ToolArrived? && e.event.ApprovalSettled?)
    ensures Answered(after, before + [e])
  {
    forall i | 0 <= i < |after| && after[i].Approval? ensures after[i].resolved == OutcomeOf(before + [e], after[i].approvalId) {
      OutcomeNext(before, e, after[i].approvalId);
    }
    hide OutcomeOf;
  }

  lemma SettleAnswered(items: seq<Item>, segments: seq<seq<Token>>, before: seq<Event>, event: ToolEvent)
    requires Laid(items, segments) && Flat(segments) == TokensOf(before) && Answered(items, before) && event.ApprovalSettled?
    ensures Answered(ApplyStreamEvent(items, event), before + [ToolArrived(event)])
  {
    var after, events := ApplyStreamEvent(items, event), before + [ToolArrived(event)];
    assert events[..|before|] == before;
    forall i | 0 <= i < |after| && after[i].Approval? ensures after[i].resolved == OutcomeOf(events, after[i].approvalId) {
      AskedIs(items, segments, items[i].approvalId);
      assert HasCard(items, items[i].approvalId) && ItemOk(items[i], segments[i]);
      hide Laid, Flat, TokensOf, HasCard, WasAsked;
    }
  }

  lemma ToolAnswered(items: seq<Item>, segments: seq<seq<Token>>, before: seq<Event>, event: ToolEvent)
    requires Laid(items, segments) && Flat(segments) == TokensOf(before) && Answered(items, before)
    ensures Answered(ApplyStreamEvent(items, event), before + [ToolArrived(event)])
  {
    var after := ApplyStreamEvent(items, event);
    if event.ApprovalSettled? { SettleAnswered(items, segments, before, event); }
    else if event.ApprovalAsked? && after != items { AskAnswered(items, segments, before, event); }
    else {
      assert Carried(items, after);
      CarriedAnswered(items, after, before, ToolArrived(event));
    }
  }

  lemma AskAnswered(items: seq<Item>, segments: seq<seq<Token>>, before: seq<Event>, event: ToolEvent)
    requires Laid(items, segments) && Flat(segments) == TokensOf(before) && Answered(items, before)
    requires event.ApprovalAsked? && Truthy(event.id) && !HasCard(items, event.id.value)
    ensures Answered(ApplyStreamEvent(items, event), before + [ToolArrived(event)])
  {
    var after, e, id := ApplyStreamEvent(items, event), ToolArrived(event), event.id.value;
    AskedIs(items, segments, id);
    OutcomeAsked(before, id);
    forall i | 0 <= i < |after| && after[i].Approval? ensures after[i].resolved == OutcomeOf(before + [e], after[i].approvalId) {
      OutcomeNext(before, e, after[i].approvalId);
    }
    hide OutcomeOf;
  }

  lemma StepAnswered(q: Plain, before: seq<Event>, e: Event)
    requires Shows(q, before) && Answered(q.items, before)
    ensures Answered(PlainStep(q, e).items, before + [e])
  {
    var segments :| Laid(q.items, segments) && Flat(segments) == TokensOf(before);
    var after := PlainStep(q, e).items;
    hide ItemOk, Laid, Flat, Apart, TokensOf, ModelOf, OutcomeOf, AppendRawItem, ApplyStreamEvent;
    if e.ToolArrived? { ToolAnswered(q.items, segments, before, e.event); }
    else if e.Switched? && e.session != q.session { assert after == []; }
    else {
      if e.Delta? { DeltaCarried(q.items, e.field, e.text, q.liveModel); }
      assert Carried(q.items, after);
      CarriedAnswered(q.items, after, before, e);
    }
  }

  lemma {:induction false} RunAnswered(events: seq<Event>)
    ensures Answered(PlainRun(Plain("", [], None), events).items, events)
  {
    if events != [] {
      var before, e := events[..|events| - 1], events[|events| - 1];
      RunAnswered(before);
      RunShows(before);
      RunNext(Plain("", [], None), before, e);
      assert before + [e] == events;
      hide Shows, Answered, PlainStep, PlainRun;
      StepAnswered(PlainRun(Plain("", [], None), before), before, e);
    }
  }

  /** The card of an approval shows how the events have settled it. */
  lemma OutcomesShown(events: seq<Event>)
    requires Legal(Blank, events) && Calm(Blank, events)
    ensures var items := Flush(Run(Blank, events)).items;
            forall i :: 0 <= i < |items| && items[i].Approval? ==> items[i].resolved == OutcomeOf(events, items[i].approvalId)
  {
    BatchingTransparent(events);
    RunAnswered(events);
  }

  // ----- What was there before ----------------------------------------------------------------------------------------

  /** A bubble that no stream may touch: a user's, a stored one, or one that something stands behind. */
  predicate Closed(items: seq<Item>, i: nat) {
    i < |items| && items[i].Msg? && (items[i].role.User? || Truthy(items[i].messageId) || i < |items| - 1)
  }

  ghost predicate Keeps(before: seq<Item>, after: seq<Item>) {
    |before| <= |after| && forall i: nat :: Closed(before, i) ==> Closed(after, i) && after[i] == before[i]
  }

  lemma StepClosed(q: Plain, e: Event)
    requires e.Switched? ==> e.session == q.session
    ensures Keeps(q.items, PlainStep(q, e).items) && PlainStep(q, e).session == q.session
  {
    if e.ToolArrived? { ToolClosed(q.items, e.event); }
    hide ApplyStreamEvent, SameModel;
  }

  lemma ToolClosed(items: seq<Item>, e: ToolEvent)
    ensures Keeps(items, ApplyStreamEvent(items, e))
  {
  }

  lemma KeepsThen(a: seq<Item>, b: seq<Item>, c: seq<Item>)
    requires Keeps(a, b) && Keeps(b, c)
    ensures Keeps(a, c)
  {
  }

  lemma {:induction false} RunClosed(q: Plain, events: seq<Event>)
    requires forall i :: 0 <= i < |events| && events[i].Switched? ==> events[i].session == q.session
    ensures Keeps(q.items, PlainRun(q, events).items)
    decreases events
  {
    if events != [] {
      var next := PlainStep(q, events[0]);
      StepClosed(q, events[0]);
      hide Keeps, PlainStep;
      forall i | 0 <= i < |events[1..]| && events[1..][i].Switched? ensures events[1..][i].session == next.session {
        assert events[1..][i] == events[i + 1];
      }
      RunClosed(next, events[1..]);
      KeepsThen(q.items, next.items, PlainRun(next, events[1..]).items);
    } else { assert Keeps(q.items, q.items); }
  }

  /** From any page with empty buffers: while its session stays on screen, streaming changes no bubble of a user, none with
      a message id, and none that something stands behind. */
  lemma EarlierBubblesKept(p: Page, events: seq<Event>, i: nat)
    requires BatchOk(p) && !Buffered(p) && Legal(p, events) && Calm(p, events)
    requires forall k :: 0 <= k < |events| && events[k].Switched? ==> events[k].session == p.session
    requires i < |p.items| && p.items[i].Msg? && (p.items[i].role.User? || Truthy(p.items[i].messageId) || i < |p.items| - 1)
    ensures var items := Flush(Run(p, events)).items; i < |items| && items[i] == p.items[i]
  {
    var q := Plain(p.session, p.items, p.liveModel);
    FlushNothing(p.items, p.batchModel);
    assert Related(p, q);
    hide Legal, Calm, Run, FlushInto;
    RunRelated(p, q, events);
    FlushIs(Run(p, events));
    hide Related, BatchOk, Buffered, Flush, PlainRun;
    RelatedItems(Run(p, events), PlainRun(q, events));
    RunClosed(q, events);
    assert Closed(q.items, i);
  }

  lemma RelatedItems(p: Page, q: Plain)
    requires Related(p, q)
    ensures Flush(p).items == q.items
  {
    FlushIs(p);
  }
}
