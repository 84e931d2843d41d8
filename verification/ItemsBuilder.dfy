/** `toItems` with its growing item list and turn accumulator, as the loops of src/lib/items.ts. */
module ItemsBuilder {
  import opened Options
  import opened Timeline
  import opened Messages
  import opened Items

  class Builder {
    var items: seq<Item>
    var turn: Option<TurnAcc>

    constructor ()
      ensures items == [] && turn == None
    {
      items, turn := [], None;
    }

    method FlushTurn()
      modifies this
      ensures items == old(items) + Flush(old(turn)) && turn == None
    {
      if turn.Some? && (turn.value.texts != [] || turn.value.reasoning != "" || turn.value.images != []) {
        items := items + [TurnBubble(turn.value)];
      }
      turn := None;
    }

    method PushCard(p: Part, id: string, k: nat)
      modifies this`items
      ensures items == old(items) + Card(p, id, k)
    {
      var tool := ToolItem(p, id, k);
      if tool.Some? { items := items + [tool.value]; return; }
      var approval := ApprovalHistoryItem(p);
      if approval.Some? { items := items + [approval.value]; }
    }

    method AbsorbTurnParts(m: Message)
      requires turn.Some?
      modifies this
      ensures (items, turn) == (Absorb(old(items), old(turn).value, m).0, Some(Absorb(old(items), old(turn).value, m).1))
    {
      var acc := turn.value;
      for k := 0 to |m.parts|
        invariant (items, acc) == AbsorbParts(old(items), old(turn).value, m, k)
      {
        var p := m.parts[k];
        if HasText(p) { acc := acc.(texts := acc.texts + [p.text]); }
        else if HasReasoning(p) { acc := acc.(reasoning := acc.reasoning + p.text); }
        else if HasImage(p) { acc := acc.(images := acc.images + [Image(p.mediaType, p.data.value)]); }
        else { PushCard(p, m.id, k); }
      }
      acc := acc.(lastMessageId := m.id);
      if m.model.Some? { acc := acc.(model := m.model); }
      turn := Some(acc);
    }

    method AppendMessagePart(m: Message, k: nat)
      requires k < |m.parts|
      modifies this`items
      ensures items == AppendPart(old(items), m, k)
    {
      var p, n := m.parts[k], |items|;
      if HasText(p) {
        if OwnLast(items, RoleOf(m.speaker), m.id) {
          items := items[n - 1 := items[n - 1].(content := items[n - 1].content + "\n" + p.text)];
        } else { items := items + [TextBubble(m, p.text)]; }
      } else if HasReasoning(p) && m.speaker.AssistantSpeaker? {
      } else if HasSources(p) && m.speaker.UserSpeaker? {
        if OwnLast(items, User, m.id) {
          items := items[n - 1 := items[n - 1].(context := Some(items[n - 1].context.GetOr([]) + p.items), contextUnavailable := Some(false))];
        } else { items := items + [SourcesBubble(m, p.items)]; }
      } else if p.ContextPart? && m.speaker.UserSpeaker? {
        if OwnLast(items, User, m.id) && items[n - 1].context.GetOr([]) == [] {
          items := items[n - 1 := items[n - 1].(contextUnavailable := Some(true))];
        }
      } else if HasImage(p) {
        var image := Image(p.mediaType, p.data.value);
        if OwnLast(items, RoleOf(m.speaker), m.id) {
          items := items[n - 1 := items[n - 1].(images := Some(items[n - 1].images.GetOr([]) + [image]))];
        } else { items := items + [ImageBubble(m, image)]; }
      } else { PushCard(p, m.id, k); }
    }

    /** Scans back over the bubbles of the message for one to hang the reasoning on. */
    method AttachReasoning(m: Message, reasoning: string)
      modifies this`items
      ensures items == Attach(old(items), m, reasoning, |old(items)|)
    {
      var i := |items|;
      while i > 0
        invariant 0 <= i <= |items| && items == old(items)
        invariant Attach(items, m, reasoning, i) == Attach(items, m, reasoning, |items|)
      {
        var it := items[i - 1];
        if !it.Msg? || it.messageId != Some(m.id) { break; }
        if it.role.Assistant? {
          items := items[i - 1 := it.(reasoning := Some(it.reasoning.GetOr("") + reasoning))];
          return;
        }
        i := i - 1;
      }
      items := items + [ThoughtBubble(m, reasoning)];
    }

    method AppendMessageItems(m: Message)
      modifies this`items
      ensures items == AppendMessage(old(items), m)
    {
      if m.speaker.SystemSpeaker? { return; }
      var reasoning := "";
      for k := 0 to |m.parts|
        invariant items == AppendParts(old(items), m, k)
        invariant reasoning == if m.speaker.AssistantSpeaker? then Reasoning(m, k) else ""
      {
        AppendMessagePart(m, k);
        if HasReasoning(m.parts[k]) && m.speaker.AssistantSpeaker? { reasoning := reasoning + m.parts[k].text; }
      }
      if reasoning != "" { AttachReasoning(m, reasoning); }
    }

    method AddMessage(m: Message)
      modifies this
      ensures Fold(items, turn) == FoldMessage(Fold(old(items), old(turn)), m)
    {
      hide Absorb, AppendMessage, Flush, Stream;
      if m.speaker.SystemSpeaker? { return; }
      if m.speaker.AssistantSpeaker? {
        var stream := Stream(m.id);
        if stream.Some? {
          if turn.None? || turn.value.stream != stream.value {
            FlushTurn();
            turn := Some(TurnAcc(stream.value, [], "", [], None, m.id));
          }
          AbsorbTurnParts(m);
          return;
        }
        if turn.Some? && !HasToolCall(m) && !InlineOnly(m) {
          AbsorbTurnParts(m);
          FlushTurn();
          return;
        }
        if !InlineOnly(m) { FlushTurn(); }
        AppendMessageItems(m);
        return;
      }
      FlushTurn();
      AppendMessageItems(m);
    }
  }

  method MessagesToItems(messages: seq<Message>) returns (items: seq<Item>)
    ensures items == ToItems(messages)
  {
    var builder := new Builder();
    for n := 0 to |messages|
      invariant fresh(builder) && Fold(builder.items, builder.turn) == FoldMessages(messages[..n])
    {
      assert messages[..n + 1][..n] == messages[..n];
      builder.AddMessage(messages[n]);
    }
    assert messages[..|messages|] == messages;
    builder.FlushTurn();
    items := builder.items;
  }
}
