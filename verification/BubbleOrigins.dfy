/** Every bubble of the chat timeline carries the message id and the model of the messages it comes from. */
module BubbleOrigins {
  import opened Options
  import opened Timeline
  import opened Messages
  import opened Items

  /** An assistant message that goes into bubbles: an iteration, or one that holds more than approvals and tool snapshots. */
  predicate Absorbed(m: Message) {
    m.speaker.AssistantSpeaker? &&
    (Stream(m.id).Some? || exists k :: 0 <= k < |m.parts| && !m.parts[k].ApprovalPart? && !m.parts[k].ContextPart?)
  }

  /** The id of the last such message. */
  function OwnerId(span: seq<Message>): string {
    if span == [] then "" else if Absorbed(span[|span| - 1]) then span[|span| - 1].id else OwnerId(span[..|span| - 1])
  }

  /** The last model that such a message names. */
  function NamedModel(span: seq<Message>): Option<Model> {
    if span == [] then None
    else if Absorbed(span[|span| - 1]) && span[|span| - 1].model.Some? then span[|span| - 1].model
    else NamedModel(span[..|span| - 1])
  }

  /** No user interrupts the messages, and what goes into bubbles are iterations of one stream, up to a last message. */
  ghost predicate OneTurn(span: seq<Message>) {
    span != [] && Absorbed(span[0]) && (forall i :: 0 <= i < |span| ==> !span[i].speaker.UserSpeaker?) &&
    forall i :: 0 <= i < |span| && Absorbed(span[i]) && (i < |span| - 1 || Stream(span[i].id).Some?) && |span| > 1 ==>
      Stream(span[i].id).Some? && Stream(span[i].id) == Stream(span[0].id)
  }

  /** A user bubble is of one user message and names no model; an assistant bubble is of the last message of a turn, and
      names the last model named in the turn. */
  ghost predicate From(ms: seq<Message>, role: Role, id: Option<string>, model: Option<Model>) {
    match role
    case User => model.None? && exists b :: 0 <= b < |ms| && ms[b].speaker.UserSpeaker? && id == Some(ms[b].id)
    case Assistant => exists a, e :: 0 <= a < e <= |ms| && TurnAt(ms, a, e, id, model)
  }

  ghost predicate TurnAt(ms: seq<Message>, a: nat, e: nat, id: Option<string>, model: Option<Model>)
    requires a < e <= |ms|
  {
    OneTurn(ms[a..e]) && id == Some(OwnerId(ms[a..e])) && model == NamedModel(ms[a..e])
  }

  predicate IsBubble(item: Item) {
    item.Msg?
  }

  ghost predicate AllFrom(ms: seq<Message>, items: seq<Item>) {
    forall i :: 0 <= i < |items| && IsBubble(items[i]) ==> From(ms, items[i].role, items[i].messageId, items[i].model)
  }

  lemma FromMore(ms: seq<Message>, m: Message, role: Role, id: Option<string>, model: Option<Model>)
    requires From(ms, role, id, model)
    ensures From(ms + [m], role, id, model)
  {
    var all := ms + [m];
    if role.User? {
      var b :| 0 <= b < |ms| && ms[b].speaker.UserSpeaker? && id == Some(ms[b].id);
      assert all[b] == ms[b];
    } else {
      var a, e :| 0 <= a < e <= |ms| && TurnAt(ms, a, e, id, model);
      assert all[a..e] == ms[a..e];
      assert TurnAt(all, a, e, id, model);
    }
  }

  lemma AllMore(ms: seq<Message>, m: Message, items: seq<Item>)
    requires AllFrom(ms, items)
    ensures AllFrom(ms + [m], items)
  {
    hide From;
    forall i | 0 <= i < |items| && IsBubble(items[i]) ensures From(ms + [m], items[i].role, items[i].messageId, items[i].model) {
      FromMore(ms, m, items[i].role, items[i].messageId, items[i].model);
    }
  }

  lemma PushFrom(ms: seq<Message>, items: seq<Item>, item: Item)
    requires AllFrom(ms, items) && (IsBubble(item) ==> From(ms, item.role, item.messageId, item.model))
    ensures AllFrom(ms, items + [item])
  {
    hide From;
  }

  /** A bubble may change in everything but its tag. */
  lemma SetFrom(ms: seq<Message>, items: seq<Item>, i: nat, item: Item)
    requires AllFrom(ms, items) && i < |items| && IsBubble(items[i]) && IsBubble(item)
    requires item.role == items[i].role && item.messageId == items[i].messageId && item.model == items[i].model
    ensures AllFrom(ms, items[i := item])
  {
    hide From;
  }

  lemma CardFrom(ms: seq<Message>, items: seq<Item>, p: Part, id: string, k: nat)
    requires AllFrom(ms, items)
    ensures AllFrom(ms, items + Card(p, id, k))
  {
    if Card(p, id, k) == [] { assert items + [] == items; } else { PushFrom(ms, items, Card(p, id, k)[0]); }
  }

  // ----- One message --------------------------------------------------------------------------------

  lemma PartFrom(ms: seq<Message>, items: seq<Item>, m: Message, k: nat)
    requires AllFrom(ms, items) && From(ms, RoleOf(m.speaker), Some(m.id), OwnModel(m)) && k < |m.parts| && !m.speaker.SystemSpeaker?
    ensures AllFrom(ms, AppendPart(items, m, k))
  {
    hide From, AllFrom, Card, UserSource;
    var p := m.parts[k];
    if HasText(p) { TextFrom(ms, items, m, p.text); }
    else if HasReasoning(p) && m.speaker.AssistantSpeaker? {}
    else if HasSources(p) && m.speaker.UserSpeaker? { SourcesFrom(ms, items, m, p.items); }
    else if p.ContextPart? && m.speaker.UserSpeaker? { SourcesFrom(ms, items, m, []); }
    else if HasImage(p) { ImageFrom(ms, items, m, Image(p.mediaType, p.data.value)); }
    else { CardFrom(ms, items, p, m.id, k); }
  }

  lemma TextFrom(ms: seq<Message>, items: seq<Item>, m: Message, text: string)
    requires AllFrom(ms, items) && From(ms, RoleOf(m.speaker), Some(m.id), OwnModel(m))
    ensures AllFrom(ms, AppendText(items, m, text))
  {
    hide From, AllFrom, UserSource;
    if OwnLast(items, RoleOf(m.speaker), m.id) {
      SetFrom(ms, items, |items| - 1, items[|items| - 1].(content := items[|items| - 1].content + "\n" + text));
    } else { PushFrom(ms, items, TextBubble(m, text)); }
  }

  lemma SourcesFrom(ms: seq<Message>, items: seq<Item>, m: Message, sources: seq<string>)
    requires AllFrom(ms, items) && From(ms, User, Some(m.id), None)
    ensures AllFrom(ms, AppendSources(items, m, sources)) && AllFrom(ms, MarkContext(items, m))
  {
    hide From, AllFrom;
    if OwnLast(items, User, m.id) {
      var last := items[|items| - 1];
      SetFrom(ms, items, |items| - 1, last.(context := Some(last.context.GetOr([]) + sources), contextUnavailable := Some(false)));
      SetFrom(ms, items, |items| - 1, last.(contextUnavailable := Some(true)));
    } else { PushFrom(ms, items, SourcesBubble(m, sources)); }
  }

  lemma ImageFrom(ms: seq<Message>, items: seq<Item>, m: Message, image: Image)
    requires AllFrom(ms, items) && From(ms, RoleOf(m.speaker), Some(m.id), OwnModel(m))
    ensures AllFrom(ms, AppendImage(items, m, image))
  {
    hide From, AllFrom;
    if OwnLast(items, RoleOf(m.speaker), m.id) {
      var last := items[|items| - 1];
      SetFrom(ms, items, |items| - 1, last.(images := Some(last.images.GetOr([]) + [image])));
    } else { PushFrom(ms, items, ImageBubble(m, image)); }
  }

  lemma Unfolded(items: seq<Item>, turn: TurnAcc, m: Message, n: nat)
    requires n <= |m.parts|
    ensures AppendParts(items, m, n) == if n == 0 then items else AppendPart(AppendParts(items, m, n - 1), m, n - 1)
    ensures AbsorbParts(items, turn, m, n) == if n == 0 then (items, turn)
      else AbsorbPart(AbsorbParts(items, turn, m, n - 1).0, AbsorbParts(items, turn, m, n - 1).1, m, n - 1)
  {
    hide AppendPart, AbsorbPart;
  }

  lemma {:induction false} PartsFrom(ms: seq<Message>, items: seq<Item>, m: Message, n: nat)
    requires AllFrom(ms, items) && From(ms, RoleOf(m.speaker), Some(m.id), OwnModel(m)) && n <= |m.parts| && !m.speaker.SystemSpeaker?
    ensures AllFrom(ms, AppendParts(items, m, n))
  {
    hide *;
    Unfolded(items, TurnAcc("", [], "", [], None, ""), m, n);
    if n > 0 {
      PartsFrom(ms, items, m, n - 1);
      PartFrom(ms, AppendParts(items, m, n - 1), m, n - 1);
    }
  }

  lemma {:induction false} AttachFrom(ms: seq<Message>, items: seq<Item>, m: Message, reasoning: string, n: nat)
    requires AllFrom(ms, items) && From(ms, Assistant, Some(m.id), m.model) && n <= |items|
    ensures AllFrom(ms, Attach(items, m, reasoning, n))
  {
    hide From, AllFrom;
    if n == 0 || !items[n - 1].Msg? || items[n - 1].messageId != Some(m.id) { PushFrom(ms, items, ThoughtBubble(m, reasoning)); }
    else if items[n - 1].role.Assistant? {
      SetFrom(ms, items, n - 1, items[n - 1].(reasoning := Some(items[n - 1].reasoning.GetOr("") + reasoning)));
    } else { AttachFrom(ms, items, m, reasoning, n - 1); }
  }

  lemma MessageFrom(ms: seq<Message>, items: seq<Item>, m: Message)
    requires AllFrom(ms, items) && From(ms, RoleOf(m.speaker), Some(m.id), OwnModel(m)) && !m.speaker.SystemSpeaker?
    ensures AllFrom(ms, AppendMessage(items, m))
  {
    hide From, AllFrom, AppendParts, Attach, Reasoning;
    PartsFrom(ms, items, m, |m.parts|);
    var after := AppendParts(items, m, |m.parts|);
    if m.speaker.AssistantSpeaker? { AttachFrom(ms, after, m, Reasoning(m, |m.parts|), |after|); }
  }

  /** Approvals and tool snapshots make no bubble. */
  lemma {:induction false} InlineFrom(ms: seq<Message>, items: seq<Item>, m: Message, n: nat)
    requires AllFrom(ms, items) && InlineOnly(m) && n <= |m.parts| && m.speaker.AssistantSpeaker?
    ensures AllFrom(ms, AppendParts(items, m, n)) && Reasoning(m, n) == ""
  {
    Unfolded(items, TurnAcc("", [], "", [], None, ""), m, n);
    if n > 0 {
      InlineFrom(ms, items, m, n - 1);
      CardFrom(ms, AppendParts(items, m, n - 1), m.parts[n - 1], m.id, n - 1);
    }
    hide From, AllFrom, AppendParts, Card;
  }

  lemma {:induction false} AbsorbFrom(ms: seq<Message>, items: seq<Item>, turn: TurnAcc, m: Message, n: nat)
    requires AllFrom(ms, items) && n <= |m.parts|
    ensures var (shown, acc) := AbsorbParts(items, turn, m, n); AllFrom(ms, shown) && acc.model == turn.model && acc.stream == turn.stream
  {
    Unfolded(items, turn, m, n);
    hide From, AllFrom, AbsorbParts, Card;
    if n > 0 {
      AbsorbFrom(ms, items, turn, m, n - 1);
      CardFrom(ms, AbsorbParts(items, turn, m, n - 1).0, m.parts[n - 1], m.id, n - 1);
    }
  }

  // ----- The open turn --------------------------------------------------------------------------------

  /** The open turn has gathered the messages of `span`, the last of the log. */
  ghost predicate Gathered(span: seq<Message>, turn: TurnAcc) {
    OneTurn(span) && turn.lastMessageId == OwnerId(span) && turn.model == NamedModel(span) &&
    forall i :: 0 <= i < |span| && Absorbed(span[i]) ==> Stream(span[i].id) == Some(turn.stream)
  }

  ghost predicate TurnFrom(ms: seq<Message>, turn: Option<TurnAcc>) {
    turn.Some? ==> exists a :: 0 <= a < |ms| && Gathered(ms[a..], turn.value)
  }

  ghost predicate FoldFrom(ms: seq<Message>, f: Fold) {
    AllFrom(ms, f.items) && TurnFrom(ms, f.turn)
  }

  lemma GatherMore(span: seq<Message>, turn: TurnAcc, m: Message)
    requires Gathered(span, turn) && !m.speaker.UserSpeaker?
    ensures OwnerId(span + [m]) == if Absorbed(m) then m.id else turn.lastMessageId
    ensures NamedModel(span + [m]) == if Absorbed(m) && m.model.Some? then m.model else turn.model
    ensures !Absorbed(m) || Stream(m.id) == Some(turn.stream) || Stream(m.id).None? ==> OneTurn(span + [m])
    ensures !Absorbed(m) ==> Gathered(span + [m], turn)
  {
    assert (span + [m])[..|span|] == span;
    hide Absorbed, Stream;
  }

  lemma OneMessage(m: Message)
    requires Absorbed(m)
    ensures OneTurn([m]) && OwnerId([m]) == m.id && NamedModel([m]) == m.model
  {
    assert [m][..0] == [];
    hide Absorbed, Stream;
  }

  lemma FlushFrom(ms: seq<Message>, items: seq<Item>, turn: Option<TurnAcc>)
    requires AllFrom(ms, items) && TurnFrom(ms, turn)
    ensures AllFrom(ms, items + Flush(turn))
  {
    if Flush(turn) == [] { assert items + [] == items; }
    else {
      var a :| 0 <= a < |ms| && Gathered(ms[a..], turn.value);
      GatheredFrom(ms, a, turn.value);
      PushFrom(ms, items, TurnBubble(turn.value));
    }
    hide AllFrom, From, Gathered;
  }

  lemma GatheredFrom(ms: seq<Message>, a: nat, turn: TurnAcc)
    requires a < |ms| && OneTurn(ms[a..]) && turn.lastMessageId == OwnerId(ms[a..]) && turn.model == NamedModel(ms[a..])
    ensures From(ms, Assistant, Some(turn.lastMessageId), turn.model)
  {
    assert ms[a..|ms|] == ms[a..];
    assert TurnAt(ms, a, |ms|, Some(turn.lastMessageId), turn.model);
  }

  lemma OwnFrom(ms: seq<Message>, m: Message)
    requires m.speaker.UserSpeaker? || (m.speaker.AssistantSpeaker? && Absorbed(m))
    ensures From(ms + [m], RoleOf(m.speaker), Some(m.id), OwnModel(m))
  {
    var all := ms + [m];
    assert all[|ms|] == m;
    if m.speaker.AssistantSpeaker? {
      OneMessage(m);
      assert all[|ms|..] == [m];
      GatheredFrom(all, |ms|, TurnAcc("", [], "", [], m.model, m.id));
    }
    hide Absorbed;
  }

  lemma TurnMore(ms: seq<Message>, m: Message, turn: Option<TurnAcc>)
    requires TurnFrom(ms, turn) && !Absorbed(m) && !m.speaker.UserSpeaker?
    ensures TurnFrom(ms + [m], turn)
  {
    if turn.Some? {
      var a :| 0 <= a < |ms| && Gathered(ms[a..], turn.value);
      GatherMore(ms[a..], turn.value, m);
      assert (ms + [m])[a..] == ms[a..] + [m];
      hide Gathered;
      assert Gathered((ms + [m])[a..], turn.value);
    }
  }

  lemma AbsorbInto(ms: seq<Message>, items: seq<Item>, turn: TurnAcc, m: Message)
    requires AllFrom(ms, items)
    ensures var (shown, acc) := Absorb(items, turn, m);
            AllFrom(ms, shown) && acc.lastMessageId == m.id && acc.stream == turn.stream &&
            acc.model == if m.model.Some? then m.model else turn.model
  {
    AbsorbFrom(ms, items, turn, m, |m.parts|);
    hide AllFrom, AbsorbParts;
  }

  lemma KeepFrom(ms: seq<Message>, f: Fold, m: Message, stream: string)
    requires FoldFrom(ms, f) && m.speaker.AssistantSpeaker? && Stream(m.id) == Some(stream) && f.turn.Some? && f.turn.value.stream == stream
    ensures FoldFrom(ms + [m], FoldIteration(f, m, stream))
  {
    var a :| 0 <= a < |ms| && Gathered(ms[a..], f.turn.value);
    AllMore(ms, m, f.items);
    AbsorbInto(ms + [m], f.items, f.turn.value, m);
    var acc := Absorb(f.items, f.turn.value, m).1;
    GatherAbsorbed(ms[a..], f.turn.value, m, acc);
    assert (ms + [m])[a..] == ms[a..] + [m];
    hide AllFrom, Gathered, Absorb;
    assert Gathered((ms + [m])[a..], acc);
  }

  lemma GatherAbsorbed(span: seq<Message>, turn: TurnAcc, m: Message, acc: TurnAcc)
    requires Gathered(span, turn) && m.speaker.AssistantSpeaker? && Stream(m.id) == Some(turn.stream)
    requires acc.lastMessageId == m.id && acc.stream == turn.stream && acc.model == if m.model.Some? then m.model else turn.model
    ensures Gathered(span + [m], acc)
  {
    GatherMore(span, turn, m);
    assert Absorbed(m);
    hide OneTurn, OwnerId, NamedModel, Absorbed, Stream;
  }

  lemma StartFrom(ms: seq<Message>, f: Fold, m: Message, stream: string)
    requires FoldFrom(ms, f) && m.speaker.AssistantSpeaker? && Stream(m.id) == Some(stream) && !(f.turn.Some? && f.turn.value.stream == stream)
    ensures FoldFrom(ms + [m], FoldIteration(f, m, stream))
  {
    FlushFrom(ms, f.items, f.turn);
    var items, turn := f.items + Flush(f.turn), TurnAcc(stream, [], "", [], None, m.id);
    AllMore(ms, m, items);
    AbsorbInto(ms + [m], items, turn, m);
    OneMessage(m);
    assert (ms + [m])[|ms|..] == [m];
    hide AllFrom, Absorb, Flush, OneTurn, OwnerId, NamedModel;
    assert Gathered((ms + [m])[|ms|..], Absorb(items, turn, m).1);
  }

  lemma FinalFrom(ms: seq<Message>, f: Fold, turn: TurnAcc, m: Message)
    requires FoldFrom(ms, f) && m.speaker.AssistantSpeaker? && Stream(m.id).None? && !InlineOnly(m) && f.turn == Some(turn)
    ensures FoldFrom(ms + [m], FoldFinal(f, turn, m))
  {
    var a :| 0 <= a < |ms| && Gathered(ms[a..], turn);
    AllMore(ms, m, f.items);
    AbsorbInto(ms + [m], f.items, turn, m);
    GatherMore(ms[a..], turn, m);
    assert (ms + [m])[a..] == ms[a..] + [m];
    var (shown, acc) := Absorb(f.items, turn, m);
    GatheredFrom(ms + [m], a, acc);
    hide AllFrom, Absorb, From, OneTurn, OwnerId, NamedModel;
    if Flush(Some(acc)) == [] { assert shown + [] == shown; } else { PushFrom(ms + [m], shown, TurnBubble(acc)); }
  }

  lemma CloseFrom(ms: seq<Message>, f: Fold, m: Message)
    requires FoldFrom(ms, f) && (m.speaker.UserSpeaker? || (m.speaker.AssistantSpeaker? && Absorbed(m)))
    ensures FoldFrom(ms + [m], Fold(AppendMessage(f.items + Flush(f.turn), m), None))
  {
    FlushFrom(ms, f.items, f.turn);
    hide AllFrom, From, Flush, AppendMessage, Absorbed;
    AllMore(ms, m, f.items + Flush(f.turn));
    OwnFrom(ms, m);
    MessageFrom(ms + [m], f.items + Flush(f.turn), m);
  }

  lemma InlineKept(ms: seq<Message>, f: Fold, m: Message)
    requires FoldFrom(ms, f) && m.speaker.AssistantSpeaker? && InlineOnly(m) && Stream(m.id).None?
    ensures FoldFrom(ms + [m], Fold(AppendMessage(f.items, m), f.turn))
  {
    TurnMore(ms, m, f.turn);
    AllMore(ms, m, f.items);
    InlineFrom(ms + [m], f.items, m, |m.parts|);
    hide AllFrom, TurnFrom, AppendParts, Attach;
  }

  lemma MessageFolds(ms: seq<Message>, f: Fold, m: Message)
    requires FoldFrom(ms, f)
    ensures FoldFrom(ms + [m], FoldMessage(f, m))
  {
    if m.speaker.SystemSpeaker? {
      TurnMore(ms, m, f.turn);
      AllMore(ms, m, f.items);
    }
    hide FoldFrom, FoldIteration, FoldFinal, AppendMessage, Flush, Stream;
    if m.speaker.AssistantSpeaker? && Stream(m.id).Some? {
      if f.turn.Some? && f.turn.value.stream == Stream(m.id).value { KeepFrom(ms, f, m, Stream(m.id).value); }
      else { StartFrom(ms, f, m, Stream(m.id).value); }
    } else if m.speaker.AssistantSpeaker? && f.turn.Some? && !HasToolCall(m) && !InlineOnly(m) { FinalFrom(ms, f, f.turn.value, m); }
    else if m.speaker.AssistantSpeaker? && InlineOnly(m) { InlineKept(ms, f, m); }
    else if !m.speaker.SystemSpeaker? { CloseFrom(ms, f, m); }
  }

  lemma {:induction false} LogFolds(ms: seq<Message>)
    ensures FoldFrom(ms, FoldMessages(ms))
  {
    if ms != [] {
      LogFolds(ms[..|ms| - 1]);
      MessageFolds(ms[..|ms| - 1], FoldMessages(ms[..|ms| - 1]), ms[|ms| - 1]);
      assert ms[..|ms| - 1] + [ms[|ms| - 1]] == ms;
      hide FoldFrom, FoldMessage;
    }
  }

  /** Every user bubble belongs to one user message, and every assistant bubble to a turn: its id is that of the last
      message of the turn and its model the last one the turn names. */
  lemma BubblesOwned(ms: seq<Message>)
    ensures forall i :: 0 <= i < |ToItems(ms)| && ToItems(ms)[i].Msg? ==>
      From(ms, ToItems(ms)[i].role, ToItems(ms)[i].messageId, ToItems(ms)[i].model)
  {
    LogFolds(ms);
    FlushFrom(ms, FoldMessages(ms).items, FoldMessages(ms).turn);
    hide From, FoldMessages, Flush, TurnFrom;
  }
}
