/** Folding iterations into turns keeps all reasoning, once and in order. */
module ThoughtFolding {
  import opened Options
  import opened Seqs
  import opened Timeline
  import opened Messages
  import opened Items
  import opened TurnFolding

  function ThoughtOf(m: Message, n: nat): string
    requires n <= |m.parts|
  {
    if m.speaker.AssistantSpeaker? then Reasoning(m, n) else ""
  }

  /** The reasoning of all assistant messages, in order. */
  function LogThoughts(ms: seq<Message>): string {
    if ms == [] then "" else LogThoughts(ms[..|ms| - 1]) + ThoughtOf(ms[|ms| - 1], |ms[|ms| - 1].parts|)
  }

  function Shown(item: Item): string {
    if IsSpeech(item) then item.reasoning.GetOr("") else ""
  }

  function Thoughts(items: seq<Item>): string {
    if items == [] then "" else Thoughts(items[..|items| - 1]) + Shown(items[|items| - 1])
  }

  lemma {:induction false} ThoughtsJoin(a: seq<Item>, b: seq<Item>)
    ensures Thoughts(a + b) == Thoughts(a) + Thoughts(b)
  {
    if b == [] { assert a + b == a; }
    else {
      var front, last := b[..|b| - 1], b[|b| - 1];
      ThoughtsJoin(a, front);
      assert (a + b)[..|a + b| - 1] == a + front && (a + b)[|a + b| - 1] == last;
      assert Thoughts(a + b) == Thoughts(a + front) + Shown(last);
      hide Thoughts;
      assert Thoughts(a) + Thoughts(front) + Shown(last) == Thoughts(a) + (Thoughts(front) + Shown(last));
    }
  }

  lemma OneThought(item: Item)
    ensures Thoughts([item]) == Shown(item)
  {
    assert [item][..0] == [];
  }

  lemma ThoughtAt(items: seq<Item>, i: nat, item: Item)
    requires i < |items|
    ensures Thoughts(items[i := item]) == Thoughts(items[..i]) + Shown(item) + Thoughts(items[i + 1..])
  {
    assert items[i := item] == items[..i] + [item] + items[i + 1..];
    ThoughtsJoin(items[..i] + [item], items[i + 1..]);
    ThoughtsJoin(items[..i], [item]);
    OneThought(item);
  }

  lemma PushThought(items: seq<Item>, item: Item)
    ensures Thoughts(items + [item]) == Thoughts(items) + Shown(item)
  {
    ThoughtsJoin(items, [item]);
    OneThought(item);
  }

  lemma SameThoughts(items: seq<Item>, i: nat, item: Item)
    requires i < |items| && Shown(item) == Shown(items[i])
    ensures Thoughts(items[i := item]) == Thoughts(items)
  {
    ThoughtAt(items, i, item);
    ThoughtAt(items, i, items[i]);
    assert items[i := items[i]] == items;
  }

  lemma PushSilence(items: seq<Item>, item: Item)
    requires Shown(item) == ""
    ensures Thoughts(items + [item]) == Thoughts(items)
  {
    hide Thoughts, Shown;
    PushThought(items, item);
    Units(Thoughts(items));
  }

  lemma CardThoughts(items: seq<Item>, p: Part, id: string, k: nat)
    ensures Thoughts(items + Card(p, id, k)) == Thoughts(items)
  {
    hide Thoughts;
    if Card(p, id, k) == [] { Units(items); } else { PushSilence(items, Card(p, id, k)[0]); }
  }

  lemma PartThoughts(items: seq<Item>, m: Message, k: nat)
    requires k < |m.parts|
    ensures Thoughts(AppendPart(items, m, k)) == Thoughts(items)
  {
    hide Thoughts, AppendText, AppendImage, AppendSources, MarkContext, Card;
    var p := m.parts[k];
    CardThoughts(items, p, m.id, k);
    if HasText(p) { TextThoughts(items, m, p.text); } else if HasImage(p) { ImageThoughts(items, m, Image(p.mediaType, p.data.value)); }
    else { ContextThoughts(items, m, if p.SourcesPart? then p.items else []); }
  }

  lemma TextThoughts(items: seq<Item>, m: Message, text: string)
    ensures Thoughts(AppendText(items, m, text)) == Thoughts(items)
  {
    hide Thoughts;
    if OwnLast(items, RoleOf(m.speaker), m.id) {
      SameThoughts(items, |items| - 1, items[|items| - 1].(content := items[|items| - 1].content + "\n" + text));
    } else { PushSilence(items, TextBubble(m, text)); }
  }

  lemma ImageThoughts(items: seq<Item>, m: Message, image: Image)
    ensures Thoughts(AppendImage(items, m, image)) == Thoughts(items)
  {
    hide Thoughts;
    if OwnLast(items, RoleOf(m.speaker), m.id) {
      SameThoughts(items, |items| - 1, items[|items| - 1].(images := Some(items[|items| - 1].images.GetOr([]) + [image])));
    } else { PushSilence(items, ImageBubble(m, image)); }
  }

  lemma ContextThoughts(items: seq<Item>, m: Message, sources: seq<string>)
    ensures Thoughts(AppendSources(items, m, sources)) == Thoughts(items) && Thoughts(MarkContext(items, m)) == Thoughts(items)
  {
    hide Thoughts;
    if OwnLast(items, User, m.id) {
      var last := items[|items| - 1];
      SameThoughts(items, |items| - 1, last.(context := Some(last.context.GetOr([]) + sources), contextUnavailable := Some(false)));
      SameThoughts(items, |items| - 1, last.(contextUnavailable := Some(true)));
    } else { PushSilence(items, SourcesBubble(m, sources)); }
  }

  lemma {:induction false} PartsThoughts(items: seq<Item>, m: Message, n: nat)
    requires n <= |m.parts|
    ensures Thoughts(AppendParts(items, m, n)) == Thoughts(items)
  {
    hide *;
    if n == 0 { NoParts(items, [], TurnAcc("", [], "", [], None, ""), m); }
    else {
      PartsThoughts(items, m, n - 1);
      PartThoughts(AppendParts(items, m, n - 1), m, n - 1);
      LastPart(items, TurnAcc("", [], "", [], None, ""), m, n);
    }
  }

  lemma AttachHere(items: seq<Item>, reasoning: string, i: nat)
    requires i < |items| && IsSpeech(items[i]) && Thoughts(items[i + 1..]) == ""
    ensures Thoughts(items[i := items[i].(reasoning := Some(items[i].reasoning.GetOr("") + reasoning))]) == Thoughts(items) + reasoning
  {
    var item := items[i].(reasoning := Some(items[i].reasoning.GetOr("") + reasoning));
    ThoughtAt(items, i, item);
    ThoughtAt(items, i, items[i]);
    assert items[i := items[i]] == items && Shown(item) == Shown(items[i]) + reasoning;
    hide *;
    Regroup(Thoughts(items[..i]), Shown(items[i]), reasoning);
  }

  lemma Regroup(a: string, b: string, c: string)
    ensures a + (b + c) + "" == a + b + "" + c
  {
  }

  /** The items behind the one that gets the reasoning show none, so it comes last. */
  lemma {:induction false} AttachThoughts(items: seq<Item>, m: Message, reasoning: string, n: nat)
    requires n <= |items| && Thoughts(items[n..]) == ""
    ensures Thoughts(Attach(items, m, reasoning, n)) == Thoughts(items) + reasoning
  {
    if n == 0 || !items[n - 1].Msg? || items[n - 1].messageId != Some(m.id) {
      PushThought(items, ThoughtBubble(m, reasoning));
    } else if items[n - 1].role.Assistant? {
      AttachHere(items, reasoning, n - 1);
    } else {
      ThoughtsJoin([items[n - 1]], items[n..]);
      OneThought(items[n - 1]);
      assert items[n - 1..] == [items[n - 1]] + items[n..];
      AttachThoughts(items, m, reasoning, n - 1);
    }
  }

  lemma MessageThoughts(items: seq<Item>, m: Message)
    requires !m.speaker.SystemSpeaker?
    ensures Thoughts(AppendMessage(items, m)) == Thoughts(items) + ThoughtOf(m, |m.parts|)
  {
    PartsThoughts(items, m, |m.parts|);
    var after := AppendParts(items, m, |m.parts|);
    assert after[|after|..] == [];
    AttachThoughts(after, m, Reasoning(m, |m.parts|), |after|);
  }

  lemma AbsorbPartThoughts(items: seq<Item>, turn: TurnAcc, m: Message, k: nat)
    requires k < |m.parts|
    ensures var (shown, acc) := AbsorbPart(items, turn, m, k);
            Thoughts(shown) == Thoughts(items) &&
            acc.reasoning == turn.reasoning + OwnReasoning(m.parts[k])
  {
    hide Thoughts, Card;
    CardThoughts(items, m.parts[k], m.id, k);
    Units(turn.reasoning);
  }

  lemma LastReasoning(m: Message, n: nat)
    requires 0 < n <= |m.parts|
    ensures Reasoning(m, n) == Reasoning(m, n - 1) + OwnReasoning(m.parts[n - 1])
  {
  }

  lemma NoReasoning(items: seq<Item>, turn: TurnAcc, m: Message)
    ensures AbsorbParts(items, turn, m, 0) == (items, turn) && turn.reasoning == turn.reasoning + Reasoning(m, 0)
  {
    Units(turn.reasoning);
  }

  function OwnReasoning(p: Part): string {
    if HasReasoning(p) then p.text else ""
  }

  lemma {:induction false} AbsorbThoughts(items: seq<Item>, turn: TurnAcc, m: Message, n: nat)
    requires n <= |m.parts|
    ensures var (shown, acc) := AbsorbParts(items, turn, m, n);
            Thoughts(shown) == Thoughts(items) && acc.reasoning == turn.reasoning + Reasoning(m, n)
  {
    hide *;
    if n == 0 { NoReasoning(items, turn, m); }
    else {
      LastPart(items, turn, m, n);
      LastReasoning(m, n);
      AbsorbThoughts(items, turn, m, n - 1);
      var (shown, acc) := AbsorbParts(items, turn, m, n - 1);
      AbsorbPartThoughts(shown, acc, m, n - 1);
      Assoc(turn.reasoning, Reasoning(m, n - 1), OwnReasoning(m.parts[n - 1]));
    }
  }

  function OpenThought(turn: Option<TurnAcc>): string {
    if turn.Some? then turn.value.reasoning else ""
  }

  lemma FlushThoughts(items: seq<Item>, turn: Option<TurnAcc>)
    ensures Thoughts(items + Flush(turn)) == Thoughts(items) + OpenThought(turn)
  {
    hide Thoughts;
    Units(Thoughts(items));
    if Flush(turn) == [] { Units(items); } else { PushThought(items, TurnBubble(turn.value)); }
  }

  /** All reasoning so far, shown or waiting in the open turn. */
  function Thought(f: Fold): string {
    Thoughts(f.items) + OpenThought(f.turn)
  }

  lemma IterationThoughts(f: Fold, m: Message, stream: string)
    requires m.speaker.AssistantSpeaker?
    ensures Thought(FoldIteration(f, m, stream)) == Thought(f) + ThoughtOf(m, |m.parts|)
  {
    hide Thoughts, AbsorbParts, Flush, Reasoning;
    var own := Reasoning(m, |m.parts|);
    if f.turn.Some? && f.turn.value.stream == stream {
      AbsorbThoughts(f.items, f.turn.value, m, |m.parts|);
      Assoc(Thoughts(f.items), f.turn.value.reasoning, own);
    } else {
      Units(own);
      FlushThoughts(f.items, f.turn);
      AbsorbThoughts(f.items + Flush(f.turn), TurnAcc(stream, [], "", [], None, m.id), m, |m.parts|);
    }
  }

  lemma FinalThoughts(f: Fold, turn: TurnAcc, m: Message)
    requires m.speaker.AssistantSpeaker? && f.turn == Some(turn)
    ensures Thought(FoldFinal(f, turn, m)) == Thought(f) + ThoughtOf(m, |m.parts|)
  {
    hide Thoughts, AbsorbParts, Flush, Reasoning;
    AbsorbThoughts(f.items, turn, m, |m.parts|);
    var (shown, acc) := Absorb(f.items, turn, m);
    FlushThoughts(shown, Some(acc));
  }

  lemma CloseThoughts(f: Fold, m: Message)
    requires !m.speaker.SystemSpeaker?
    ensures Thought(Fold(AppendMessage(f.items + Flush(f.turn), m), None)) == Thought(f) + ThoughtOf(m, |m.parts|)
  {
    hide Thoughts, AppendMessage, Flush, Reasoning;
    FlushThoughts(f.items, f.turn);
    MessageThoughts(f.items + Flush(f.turn), m);
  }

  lemma InlineThoughts(f: Fold, m: Message)
    requires m.speaker.AssistantSpeaker? && InlineOnly(m)
    ensures Thought(Fold(AppendMessage(f.items, m), f.turn)) == Thought(f) + ThoughtOf(m, |m.parts|)
  {
    InlineSilent(m, |m.parts|);
    hide Thoughts, AppendMessage, Reasoning;
    MessageThoughts(f.items, m);
    Units(Thoughts(f.items));
    Units(Thoughts(f.items) + OpenThought(f.turn));
  }

  lemma FoldThoughts(f: Fold, m: Message)
    ensures Thought(FoldMessage(f, m)) == Thought(f) + ThoughtOf(m, |m.parts|)
  {
    hide Thought, FoldIteration, FoldFinal, AppendMessage, Flush, Stream, Reasoning;
    if m.speaker.SystemSpeaker? {}
    else if m.speaker.AssistantSpeaker? && Stream(m.id).Some? { IterationThoughts(f, m, Stream(m.id).value); }
    else if m.speaker.AssistantSpeaker? && f.turn.Some? && !HasToolCall(m) && !InlineOnly(m) { FinalThoughts(f, f.turn.value, m); }
    else if m.speaker.AssistantSpeaker? && InlineOnly(m) { InlineThoughts(f, m); }
    else { CloseThoughts(f, m); }
  }

  lemma {:induction false} FoldsThoughts(ms: seq<Message>)
    ensures Thought(FoldMessages(ms)) == LogThoughts(ms)
  {
    if ms != [] {
      FoldsThoughts(ms[..|ms| - 1]);
      FoldThoughts(FoldMessages(ms[..|ms| - 1]), ms[|ms| - 1]);
    }
  }

  /** The bubbles show exactly the reasoning of the log: none is dropped, shown twice or reordered. */
  lemma ThoughtsKept(ms: seq<Message>)
    ensures Thoughts(ToItems(ms)) == LogThoughts(ms)
  {
    FoldsThoughts(ms);
    FlushThoughts(FoldMessages(ms).items, FoldMessages(ms).turn);
  }
}
