/** The bubbles show every text of the log, once and in order; folding iterations into turns loses none. */
module TurnFolding {
  import opened Options
  import opened Seqs
  import opened Timeline
  import opened Messages
  import opened Items

  // ----- What was said -----------------------------------------------------------------------

  /** A text of the log: a user's, with the id of its message, or the assistant's. */
  datatype Said = ByUser(id: string, text: string) | ByAssistant(text: string)

  function TextOf(m: Message, k: nat): seq<Said>
    requires k < |m.parts|
  {
    if !m.parts[k].TextPart? || m.parts[k].text == "" then []
    else match m.speaker
      case UserSpeaker => [ByUser(m.id, m.parts[k].text)]
      case AssistantSpeaker => [ByAssistant(m.parts[k].text)]
      case SystemSpeaker => []
  }

  function TextsOf(m: Message, n: nat): seq<Said>
    requires n <= |m.parts|
  {
    if n == 0 then [] else TextsOf(m, n - 1) + TextOf(m, n - 1)
  }

  /** The texts of users and assistants in the log, in order. */
  function Texts(ms: seq<Message>): seq<Said> {
    if ms == [] then [] else Texts(ms[..|ms| - 1]) + TextsOf(ms[|ms| - 1], |ms[|ms| - 1].parts|)
  }

  function NonEmpty(segment: seq<Said>): seq<Said> {
    if segment == [] then [] else
    NonEmpty(segment[..|segment| - 1]) + if segment[|segment| - 1].text == "" then [] else [segment[|segment| - 1]]
  }

  function Spoken(segments: seq<seq<Said>>): seq<Said> {
    if segments == [] then [] else Spoken(segments[..|segments| - 1]) + NonEmpty(segments[|segments| - 1])
  }

  predicate IsSpeech(item: Item) {
    item.Msg? && item.role.Assistant?
  }

  function Words(segment: seq<Said>): (texts: seq<string>)
    ensures |texts| == |segment| && forall i :: 0 <= i < |segment| ==> texts[i] == segment[i].text
  {
    seq(|segment|, i requires 0 <= i < |segment| => segment[i].text)
  }

  /** The text was said in this bubble's role, and a user's in this bubble's message. */
  predicate FitsIn(item: Item, said: Said)
    requires item.Msg?
  {
    match said
    case ByUser(id, _) => item.role.User? && item.messageId == Some(id)
    case ByAssistant(_) => item.role.Assistant?
  }

  /** A bubble shows its segment line by line; a segment that begins with an empty line was opened by something other than
      a text.  The sender a notification names is read off the text that opens a user bubble. */
  predicate SegmentOk(item: Item, segment: seq<Said>) {
    if item.Msg? then
      segment != [] && item.content == Join(Words(segment), "\n") && (forall i :: 0 <= i < |segment| ==> FitsIn(item, segment[i])) &&
      item.source == if item.role.User? && segment[0].text != "" then UserSource(segment[0].text) else None
    else segment == []
  }

  /** Each bubble shows its segment, line by line, and nothing else. */
  ghost predicate Laid(items: seq<Item>, segments: seq<seq<Said>>) {
    |segments| == |items| && forall i :: 0 <= i < |items| ==> SegmentOk(items[i], segments[i])
  }

  // ----- Small steps ---------------------------------------------------------------------------

  lemma SpokenNext(segments: seq<seq<Said>>, segment: seq<Said>)
    ensures Spoken(segments + [segment]) == Spoken(segments) + NonEmpty(segment)
  {
    assert (segments + [segment])[..|segments|] == segments;
  }

  lemma NonEmptyNext(segment: seq<Said>, said: Said)
    ensures NonEmpty(segment + [said]) == NonEmpty(segment) + if said.text == "" then [] else [said]
  {
    assert (segment + [said])[..|segment|] == segment;
  }

  lemma JoinNext(segment: seq<Said>, said: Said)
    requires segment != []
    ensures Join(Words(segment + [said]), "\n") == Join(Words(segment), "\n") + "\n" + said.text
  {
    var texts := Words(segment);
    assert Words(segment + [said]) == texts + [said.text];
    assert (texts + [said.text])[..|texts|] == texts;
  }

  lemma OneSegment(said: Said)
    ensures NonEmpty([said]) == (if said.text == "" then [] else [said]) && Join(Words([said]), "\n") == said.text
  {
    assert [said][..0] == [];
  }

  /** The texts that wait in a turn, as texts of the assistant. */
  function Tagged(texts: seq<string>): (segment: seq<Said>)
    ensures |segment| == |texts| && forall i :: 0 <= i < |texts| ==> segment[i] == ByAssistant(texts[i])
  {
    seq(|texts|, i requires 0 <= i < |texts| => ByAssistant(texts[i]))
  }

  lemma TaggedNext(texts: seq<string>, text: string)
    ensures Tagged(texts + [text]) == Tagged(texts) + [ByAssistant(text)] && Words(Tagged(texts)) == texts
  {
  }

  lemma NothingTagged()
    ensures Tagged([]) == [] && NonEmpty([]) == []
  {
  }

  lemma LastLacks(texts: seq<string>)
    requires "" !in texts && texts != []
    ensures "" !in texts[..|texts| - 1] && texts[|texts| - 1] != "" && texts == texts[..|texts| - 1] + [texts[|texts| - 1]]
  {
    assert texts[|texts| - 1] in texts;
  }

  lemma {:induction false} AllNonEmpty(texts: seq<string>)
    requires "" !in texts
    ensures NonEmpty(Tagged(texts)) == Tagged(texts)
  {
    hide *;
    NothingTagged();
    if texts != [] {
      var front, last := texts[..|texts| - 1], texts[|texts| - 1];
      LastLacks(texts);
      AllNonEmpty(front);
      TaggedNext(front, last);
      NonEmptyNext(Tagged(front), ByAssistant(last));
    }
  }

  lemma PushItem(items: seq<Item>, segments: seq<seq<Said>>, item: Item, segment: seq<Said>)
    returns (after: seq<seq<Said>>)
    requires Laid(items, segments) && SegmentOk(item, segment)
    ensures Laid(items + [item], after) && Spoken(after) == Spoken(segments) + NonEmpty(segment)
  {
    after := segments + [segment];
    SpokenNext(segments, segment);
  }

  /** An empty line in the role of the bubble. */
  function Silence(item: Item): Said
    requires item.Msg?
  {
    if item.role.User? then ByUser(item.messageId.GetOr(""), "") else ByAssistant("")
  }

  /** A bubble without text, or an item that is none. */
  lemma PushSilent(items: seq<Item>, segments: seq<seq<Said>>, item: Item) returns (after: seq<seq<Said>>)
    requires Laid(items, segments) && (item.Msg? ==> item.content == "" && item.source.None? && item.messageId.Some?)
    ensures Laid(items + [item], after) && Spoken(after) == Spoken(segments)
  {
    if item.Msg? {
      OneSegment(Silence(item));
      after := PushItem(items, segments, item, [Silence(item)]);
    } else { after := PushItem(items, segments, item, []); }
  }

  lemma PushCard(items: seq<Item>, segments: seq<seq<Said>>, p: Part, id: string, k: nat)
    returns (after: seq<seq<Said>>)
    requires Laid(items, segments)
    ensures Laid(items + Card(p, id, k), after) && Spoken(after) == Spoken(segments)
  {
    if Card(p, id, k) == [] {
      assert items + [] == items;
      after := segments;
    } else { after := PushSilent(items, segments, Card(p, id, k)[0]); }
  }

  // ----- Parts of single messages ------------------------------------------------------------------

  function Saying(m: Message, text: string): Said {
    if m.speaker.UserSpeaker? then ByUser(m.id, text) else ByAssistant(text)
  }

  lemma TextLaid(items: seq<Item>, segments: seq<seq<Said>>, m: Message, text: string)
    returns (after: seq<seq<Said>>)
    requires Laid(items, segments) && text != "" && !m.speaker.SystemSpeaker?
    ensures Laid(AppendText(items, m, text), after) && Spoken(after) == Spoken(segments) + [Saying(m, text)]
  {
    if OwnLast(items, RoleOf(m.speaker), m.id) { after := GrowLast(items, segments, Saying(m, text)); }
    else {
      OneSegment(Saying(m, text));
      assert SegmentOk(TextBubble(m, text), [Saying(m, text)]);
      hide Laid, Join, Spoken, SegmentOk;
      after := PushItem(items, segments, TextBubble(m, text), [Saying(m, text)]);
    }
  }

  /** Another line for the bubble at the end. */
  lemma GrowLast(items: seq<Item>, segments: seq<seq<Said>>, said: Said) returns (after: seq<seq<Said>>)
    requires Laid(items, segments) && said.text != "" && items != [] && items[|items| - 1].Msg? && FitsIn(items[|items| - 1], said)
    ensures var last := items[|items| - 1];
            Laid(SetLast(items, last.(content := last.content + "\n" + said.text)), after) && Spoken(after) == Spoken(segments) + [said]
  {
    var n := |items|;
    var front, last := segments[..n - 1], segments[n - 1];
    assert segments == front + [last] && SegmentOk(items[n - 1], last);
    after := front + [last + [said]];
    JoinNext(last, said);
    var item := items[n - 1].(content := items[n - 1].content + "\n" + said.text);
    assert SegmentOk(item, last + [said]) by { hide Join, UserSource; }
    LaidSet(items, front, last, item, last + [said]);
    hide *;
    NonEmptyNext(last, said);
    SpokenNext(front, last);
    SpokenNext(front, last + [said]);
    Assoc(Spoken(front), NonEmpty(last), [said]);
  }

  lemma LaidSet(items: seq<Item>, front: seq<seq<Said>>, last: seq<Said>, item: Item, segment: seq<Said>)
    requires items != [] && Laid(items, front + [last]) && SegmentOk(item, segment)
    ensures Laid(SetLast(items, item), front + [segment])
  {
    hide SegmentOk;
    forall i | 0 <= i < |items| - 1 ensures SegmentOk(items[i], front[i]) { assert (front + [last])[i] == front[i]; }
  }

  lemma SourcesLaid(items: seq<Item>, segments: seq<seq<Said>>, m: Message, sources: seq<string>)
    returns (after: seq<seq<Said>>)
    requires Laid(items, segments)
    ensures Laid(AppendSources(items, m, sources), after) && Spoken(after) == Spoken(segments)
    ensures Laid(MarkContext(items, m), segments)
  {
    if OwnLast(items, User, m.id) {
      var last := items[|items| - 1];
      SameLaid(items, segments, |items| - 1, last.(context := Some(last.context.GetOr([]) + sources), contextUnavailable := Some(false)));
      SameLaid(items, segments, |items| - 1, last.(contextUnavailable := Some(true)));
      after := segments;
    } else { after := PushSilent(items, segments, SourcesBubble(m, sources)); }
  }

  /** A bubble may change in what is no text. */
  lemma SameLaid(items: seq<Item>, segments: seq<seq<Said>>, i: nat, item: Item)
    requires Laid(items, segments) && i < |items| && items[i].Msg? && item.Msg?
    requires item.role == items[i].role && item.content == items[i].content && item.messageId == items[i].messageId && item.source == items[i].source
    ensures Laid(items[i := item], segments)
  {
    assert SegmentOk(items[i], segments[i]);
    assert SegmentOk(item, segments[i]) by { hide Join, UserSource, Words; }
    hide SegmentOk;
  }

  lemma ImageLaid(items: seq<Item>, segments: seq<seq<Said>>, m: Message, image: Image)
    returns (after: seq<seq<Said>>)
    requires Laid(items, segments)
    ensures Laid(AppendImage(items, m, image), after) && Spoken(after) == Spoken(segments)
  {
    if OwnLast(items, RoleOf(m.speaker), m.id) {
      var last := items[|items| - 1];
      SameLaid(items, segments, |items| - 1, last.(images := Some(last.images.GetOr([]) + [image])));
      after := segments;
    } else { after := PushSilent(items, segments, ImageBubble(m, image)); }
  }

  lemma PartLaid(items: seq<Item>, segments: seq<seq<Said>>, m: Message, k: nat) returns (after: seq<seq<Said>>)
    requires Laid(items, segments) && k < |m.parts| && !m.speaker.SystemSpeaker?
    ensures Laid(AppendPart(items, m, k), after) && Spoken(after) == Spoken(segments) + TextOf(m, k)
  {
    hide Laid, Spoken, AppendText, AppendSources, MarkContext, AppendImage, Card;
    var p := m.parts[k];
    after := segments;
    Units(Spoken(segments));
    if HasText(p) { after := TextLaid(items, segments, m, p.text); }
    else if HasReasoning(p) && m.speaker.AssistantSpeaker? {}
    else if HasSources(p) && m.speaker.UserSpeaker? { after := SourcesLaid(items, segments, m, p.items); }
    else if p.ContextPart? && m.speaker.UserSpeaker? { var _ := SourcesLaid(items, segments, m, []); }
    else if HasImage(p) { after := ImageLaid(items, segments, m, Image(p.mediaType, p.data.value)); }
    else { after := PushCard(items, segments, p, m.id, k); }
  }

  lemma NoParts(items: seq<Item>, segments: seq<seq<Said>>, turn: TurnAcc, m: Message)
    ensures AppendParts(items, m, 0) == items && AbsorbParts(items, turn, m, 0) == (items, turn)
    ensures Spoken(segments) == Spoken(segments) + TextsOf(m, 0) && Tagged(turn.texts) == Tagged(turn.texts) + TextsOf(m, 0)
  {
    assert TextsOf(m, 0) == [];
    Units(Spoken(segments));
    Units(Tagged(turn.texts));
  }

  lemma LastPart(items: seq<Item>, turn: TurnAcc, m: Message, n: nat)
    requires 0 < n <= |m.parts|
    ensures TextsOf(m, n) == TextsOf(m, n - 1) + TextOf(m, n - 1)
    ensures AppendParts(items, m, n) == AppendPart(AppendParts(items, m, n - 1), m, n - 1)
    ensures var (shown, acc) := AbsorbParts(items, turn, m, n - 1); AbsorbParts(items, turn, m, n) == AbsorbPart(shown, acc, m, n - 1)
  {
  }

  lemma {:induction false} PartsLaid(items: seq<Item>, segments: seq<seq<Said>>, m: Message, n: nat)
    returns (after: seq<seq<Said>>)
    requires Laid(items, segments) && n <= |m.parts| && !m.speaker.SystemSpeaker?
    ensures Laid(AppendParts(items, m, n), after) && Spoken(after) == Spoken(segments) + TextsOf(m, n)
    decreases n
  {
    after := segments;
    NoParts(items, segments, TurnAcc("", [], "", [], None, ""), m);
    hide *;
    if n == 0 { return; }
    var before := PartsLaid(items, segments, m, n - 1);
    LastPart(items, TurnAcc("", [], "", [], None, ""), m, n);
    after := PartLaid(AppendParts(items, m, n - 1), before, m, n - 1);
    Assoc(Spoken(segments), TextsOf(m, n - 1), TextOf(m, n - 1));
  }

  lemma {:induction false} AttachLaid(items: seq<Item>, segments: seq<seq<Said>>, m: Message,
                                      reasoning: string, n: nat) returns (after: seq<seq<Said>>)
    requires Laid(items, segments) && n <= |items|
    ensures Laid(Attach(items, m, reasoning, n), after) && Spoken(after) == Spoken(segments)
    decreases n
  {
    if n == 0 || !items[n - 1].Msg? || items[n - 1].messageId != Some(m.id) { after := PushSilent(items, segments, ThoughtBubble(m, reasoning)); }
    else if items[n - 1].role.Assistant? {
      SameLaid(items, segments, n - 1, items[n - 1].(reasoning := Some(items[n - 1].reasoning.GetOr("") + reasoning)));
      after := segments;
    }
    else { after := AttachLaid(items, segments, m, reasoning, n - 1); }
  }

  lemma MessageLaid(items: seq<Item>, segments: seq<seq<Said>>, m: Message) returns (after: seq<seq<Said>>)
    requires Laid(items, segments) && !m.speaker.SystemSpeaker?
    ensures Laid(AppendMessage(items, m), after) && Spoken(after) == Spoken(segments) + TextsOf(m, |m.parts|)
  {
    hide Laid, Spoken, AppendParts, Attach, TextsOf;
    after := PartsLaid(items, segments, m, |m.parts|);
    var shown := AppendParts(items, m, |m.parts|);
    if m.speaker.AssistantSpeaker? && Reasoning(m, |m.parts|) != "" {
      after := AttachLaid(shown, after, m, Reasoning(m, |m.parts|), |shown|);
    }
  }

  // ----- Turns ---------------------------------------------------------------------------------------------

  lemma {:induction false} AbsorbLaid(items: seq<Item>, segments: seq<seq<Said>>, turn: TurnAcc, m: Message, n: nat)
    returns (after: seq<seq<Said>>)
    requires Laid(items, segments) && n <= |m.parts| && m.speaker.AssistantSpeaker? && "" !in turn.texts
    ensures var (shown, acc) := AbsorbParts(items, turn, m, n);
            Laid(shown, after) && Spoken(after) == Spoken(segments) && Tagged(acc.texts) == Tagged(turn.texts) + TextsOf(m, n) && "" !in acc.texts
    decreases n
  {
    after := segments;
    NoParts(items, segments, turn, m);
    hide *;
    if n == 0 { return; }
    var before := AbsorbLaid(items, segments, turn, m, n - 1);
    var (shown, acc) := AbsorbParts(items, turn, m, n - 1);
    LastPart(items, turn, m, n);
    after := AbsorbPartLaid(shown, before, acc, m, n - 1);
    Assoc(Tagged(turn.texts), TextsOf(m, n - 1), TextOf(m, n - 1));
  }

  lemma AbsorbPartLaid(items: seq<Item>, segments: seq<seq<Said>>, turn: TurnAcc, m: Message, k: nat)
    returns (after: seq<seq<Said>>)
    requires Laid(items, segments) && k < |m.parts| && m.speaker.AssistantSpeaker? && "" !in turn.texts
    ensures var (shown, acc) := AbsorbPart(items, turn, m, k);
            Laid(shown, after) && Spoken(after) == Spoken(segments) && Tagged(acc.texts) == Tagged(turn.texts) + TextOf(m, k) && "" !in acc.texts
  {
    hide Laid, Spoken, Card;
    var p := m.parts[k];
    after := segments;
    Units(Tagged(turn.texts));
    if HasText(p) { TaggedNext(turn.texts, p.text); }
    if !HasText(p) && !HasReasoning(p) && !HasImage(p) { after := PushCard(items, segments, p, m.id, k); }
  }

  lemma FlushLaid(items: seq<Item>, segments: seq<seq<Said>>, turn: Option<TurnAcc>) returns (after: seq<seq<Said>>)
    requires Laid(items, segments) && (turn.Some? ==> "" !in turn.value.texts)
    ensures Laid(items + Flush(turn), after) && Spoken(after) == Spoken(segments) + if turn.Some? then Tagged(turn.value.texts) else []
  {
    if Flush(turn) == [] { after := FlushNothing(items, segments, turn); }
    else if turn.value.texts == [] {
      assert Tagged(turn.value.texts) == [];
      hide Laid, Spoken, TurnBubble;
      Units(Spoken(segments));
      after := PushTurn(items, segments, turn.value);
    } else {
      hide Laid, Spoken;
      after := PushTexts(items, segments, turn.value);
    }
  }

  lemma FlushNothing(items: seq<Item>, segments: seq<seq<Said>>, turn: Option<TurnAcc>) returns (after: seq<seq<Said>>)
    requires Laid(items, segments) && Flush(turn) == []
    ensures Laid(items + Flush(turn), after) && Spoken(after) == Spoken(segments) + if turn.Some? then Tagged(turn.value.texts) else []
  {
    assert turn.Some? ==> Tagged(turn.value.texts) == [];
    after := segments;
    hide Laid, Spoken;
    Units(items);
    Units(Spoken(segments));
  }

  lemma PushTurn(items: seq<Item>, segments: seq<seq<Said>>, turn: TurnAcc) returns (after: seq<seq<Said>>)
    requires Laid(items, segments) && turn.texts == []
    ensures Laid(items + [TurnBubble(turn)], after) && Spoken(after) == Spoken(segments)
  {
    assert TurnBubble(turn).Msg? && TurnBubble(turn).content == "";
    hide Laid, Spoken;
    after := PushSilent(items, segments, TurnBubble(turn));
  }

  lemma PushTexts(items: seq<Item>, segments: seq<seq<Said>>, turn: TurnAcc) returns (after: seq<seq<Said>>)
    requires Laid(items, segments) && turn.texts != [] && "" !in turn.texts
    ensures Laid(items + [TurnBubble(turn)], after) && Spoken(after) == Spoken(segments) + Tagged(turn.texts)
  {
    TurnSegment(turn);
    AllNonEmpty(turn.texts);
    hide *;
    after := PushItem(items, segments, TurnBubble(turn), Tagged(turn.texts));
  }

  lemma TurnSegment(turn: TurnAcc)
    requires turn.texts != []
    ensures SegmentOk(TurnBubble(turn), Tagged(turn.texts))
  {
    TaggedNext(turn.texts, "");
    hide Join;
  }

  function OpenTexts(f: Fold): seq<string> {
    if f.turn.Some? then f.turn.value.texts else []
  }

  /** Everything said so far is shown in order, or waits in the open turn. */
  ghost predicate Told(f: Fold, segments: seq<seq<Said>>, texts: seq<Said>) {
    Laid(f.items, segments) && Spoken(segments) + Tagged(OpenTexts(f)) == texts && "" !in OpenTexts(f)
  }

  lemma {:induction false} InlineSilent(m: Message, n: nat)
    requires InlineOnly(m) && n <= |m.parts|
    ensures TextsOf(m, n) == [] && Reasoning(m, n) == ""
  {
    if n > 0 { InlineSilent(m, n - 1); }
  }

  lemma IterationTold(f: Fold, segments: seq<seq<Said>>, texts: seq<Said>, m: Message, stream: string)
    returns (after: seq<seq<Said>>)
    requires Told(f, segments, texts) && m.speaker.AssistantSpeaker?
    ensures Told(FoldIteration(f, m, stream), after, texts + TextsOf(m, |m.parts|))
  {
    if f.turn.Some? && f.turn.value.stream == stream {
      IterationIs(f, m, stream);
      assert Told(Fold(f.items, f.turn), segments, texts);
      hide *;
      after := AbsorbTold(f.items, segments, texts, f.turn.value, m);
    } else {
      IterationIs(f, m, stream);
      var flushed := FlushTold(f, segments, texts, stream, m.id);
      hide *;
      after := AbsorbTold(f.items + Flush(f.turn), flushed, texts, TurnAcc(stream, [], "", [], None, m.id), m);
    }
  }

  lemma IterationIs(f: Fold, m: Message, stream: string)
    ensures var keeps := f.turn.Some? && f.turn.value.stream == stream;
            var (items, turn) := if keeps then (f.items, f.turn.value)
                                 else (f.items + Flush(f.turn), TurnAcc(stream, [], "", [], None, m.id));
            FoldIteration(f, m, stream) == Fold(Absorb(items, turn, m).0, Some(Absorb(items, turn, m).1))
  {
    hide Absorb, Flush;
  }

  lemma AbsorbTold(items: seq<Item>, segments: seq<seq<Said>>, texts: seq<Said>, turn: TurnAcc, m: Message)
    returns (after: seq<seq<Said>>)
    requires Told(Fold(items, Some(turn)), segments, texts) && m.speaker.AssistantSpeaker?
    ensures var (shown, acc) := Absorb(items, turn, m); Told(Fold(shown, Some(acc)), after, texts + TextsOf(m, |m.parts|))
  {
    hide Laid, Spoken, AbsorbParts, TextsOf, Tagged;
    after := AbsorbLaid(items, segments, turn, m, |m.parts|);
    Assoc(Spoken(segments), Tagged(turn.texts), TextsOf(m, |m.parts|));
  }

  lemma FlushTold(f: Fold, segments: seq<seq<Said>>, texts: seq<Said>, stream: string, id: string)
    returns (after: seq<seq<Said>>)
    requires Told(f, segments, texts)
    ensures Told(Fold(f.items + Flush(f.turn), Some(TurnAcc(stream, [], "", [], None, id))), after, texts)
  {
    NothingTagged();
    hide Laid, Spoken, Flush, Tagged;
    after := FlushLaid(f.items, segments, f.turn);
    Units(Spoken(after));
  }

  lemma FinalTold(f: Fold, segments: seq<seq<Said>>, texts: seq<Said>, m: Message) returns (after: seq<seq<Said>>)
    requires Told(f, segments, texts) && m.speaker.AssistantSpeaker? && f.turn.Some?
    ensures Told(FoldFinal(f, f.turn.value, m), after, texts + TextsOf(m, |m.parts|))
  {
    assert Told(Fold(f.items, Some(f.turn.value)), segments, texts);
    NothingTagged();
    hide Laid, Spoken, Flush, Absorb, TextsOf, Tagged;
    var absorbed := AbsorbTold(f.items, segments, texts, f.turn.value, m);
    var (shown, acc) := Absorb(f.items, f.turn.value, m);
    after := FlushLaid(shown, absorbed, Some(acc));
    Units(Spoken(after));
  }

  lemma CloseTold(f: Fold, segments: seq<seq<Said>>, texts: seq<Said>, m: Message) returns (after: seq<seq<Said>>)
    requires Told(f, segments, texts) && !m.speaker.SystemSpeaker?
    ensures Told(Fold(AppendMessage(f.items + Flush(f.turn), m), None), after, texts + TextsOf(m, |m.parts|))
  {
    NothingTagged();
    hide Laid, Spoken, Flush, AppendMessage, TextsOf, Tagged;
    var flushed := FlushLaid(f.items, segments, f.turn);
    after := MessageLaid(f.items + Flush(f.turn), flushed, m);
    Units(Spoken(after));
  }

  lemma InlineTold(f: Fold, segments: seq<seq<Said>>, texts: seq<Said>, m: Message)
    returns (after: seq<seq<Said>>)
    requires Told(f, segments, texts) && m.speaker.AssistantSpeaker? && InlineOnly(m)
    ensures Told(Fold(AppendMessage(f.items, m), f.turn), after, texts + TextsOf(m, |m.parts|))
  {
    hide Laid, Spoken, AppendMessage;
    InlineSilent(m, |m.parts|);
    Units(texts);
    after := MessageLaid(f.items, segments, m);
    Units(Spoken(segments));
  }

  lemma {:induction false} NothingSaid(m: Message, n: nat)
    requires n <= |m.parts| && m.speaker.SystemSpeaker?
    ensures TextsOf(m, n) == []
  {
    if n > 0 { NothingSaid(m, n - 1); }
  }

  lemma FoldTold(f: Fold, segments: seq<seq<Said>>, texts: seq<Said>, m: Message) returns (after: seq<seq<Said>>)
    requires Told(f, segments, texts)
    ensures Told(FoldMessage(f, m), after, texts + TextsOf(m, |m.parts|))
  {
    hide Told, FoldIteration, FoldFinal, AppendMessage, Flush, TextsOf, Stream;
    if m.speaker.SystemSpeaker? {
      NothingSaid(m, |m.parts|);
      after := segments;
      assert texts + [] == texts;
    } else if m.speaker.AssistantSpeaker? && Stream(m.id).Some? { after := IterationTold(f, segments, texts, m, Stream(m.id).value); }
    else if m.speaker.AssistantSpeaker? && f.turn.Some? && !HasToolCall(m) && !InlineOnly(m) { after := FinalTold(f, segments, texts, m); }
    else if m.speaker.AssistantSpeaker? && InlineOnly(m) { after := InlineTold(f, segments, texts, m); }
    else { after := CloseTold(f, segments, texts, m); }
  }

  lemma {:induction false} AllTold(ms: seq<Message>) returns (segments: seq<seq<Said>>)
    ensures Told(FoldMessages(ms), segments, Texts(ms))
    decreases ms
  {
    segments := [];
    if ms != [] {
      var before := AllTold(ms[..|ms| - 1]);
      hide Told, FoldMessage;
      segments := FoldTold(FoldMessages(ms[..|ms| - 1]), before, Texts(ms[..|ms| - 1]), ms[|ms| - 1]);
    }
  }

  /** No text of a user or an assistant is dropped, shown twice, reordered or put into a bubble of another role, and a user's
      text is in a bubble of its own message. */
  lemma TextsKept(ms: seq<Message>)
    ensures exists segments :: Laid(ToItems(ms), segments) && Spoken(segments) == Texts(ms)
  {
    var segments := AllTold(ms);
    var f := FoldMessages(ms);
    hide Laid, Spoken;
    var after := FlushLaid(f.items, segments, f.turn);
  }
}
