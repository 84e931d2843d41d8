/** What can be read off the chat timeline: a general law for every kind of content that the fold only moves around. */
module ItemReadings {
  import opened Options
  import opened Seqs
  import opened Timeline
  import opened Messages
  import opened Items
  import opened Collecting

  /** `item` reads an item, `part` a part of the log, and `open` what waits in an open turn. */
  datatype Reading<!T> = Reading(item: Item -> seq<T>, part: (Message, nat) -> seq<T>, open: TurnAcc -> seq<T>)

  function Read<T>(r: Reading<T>, items: seq<Item>): seq<T> {
    Collect(r.item, items)
  }

  function Open<T>(r: Reading<T>, turn: Option<TurnAcc>): seq<T> {
    if turn.Some? then r.open(turn.value) else []
  }

  /** All that has been read so far: in the items, or waiting in the open turn. */
  function Total<T>(r: Reading<T>, f: Fold): seq<T> {
    Read(r, f.items) + Open(r, f.turn)
  }

  // ----- The laws a reading obeys ----------------------------------------------------------------

  /** A part of a single message adds what it holds. */
  ghost predicate Appends<T(!new)>(r: Reading<T>) {
    forall items: seq<Item>, m: Message, k: nat :: k < |m.parts| && !m.speaker.SystemSpeaker? ==>
      Read(r, AppendPart(items, m, k)) == Read(r, items) + r.part(m, k)
  }

  /** Reasoning is not part of it. */
  ghost predicate Attaches<T(!new)>(r: Reading<T>) {
    forall items: seq<Item>, m: Message, reasoning: string, n: nat :: n <= |items| ==>
      Read(r, Attach(items, m, reasoning, n)) == Read(r, items)
  }

  /** A part of a message in a turn adds what it holds, to the items or to the turn. */
  ghost predicate Absorbs<T(!new)>(r: Reading<T>) {
    forall items: seq<Item>, turn: TurnAcc, m: Message, k: nat :: k < |m.parts| && m.speaker.AssistantSpeaker? ==>
      Read(r, AbsorbPart(items, turn, m, k).0) + r.open(AbsorbPart(items, turn, m, k).1) == Read(r, items) + r.open(turn) + r.part(m, k)
  }

  /** The bubble that closes a turn holds what has waited in it. */
  ghost predicate Flushes<T(!new)>(r: Reading<T>) {
    forall items: seq<Item>, turn: TurnAcc :: Read(r, items + Flush(Some(turn))) == Read(r, items) + r.open(turn)
  }

  ghost predicate Opens<T(!new)>(r: Reading<T>) {
    (forall stream: string, id: string :: r.open(TurnAcc(stream, [], "", [], None, id)) == []) &&
    forall turn: TurnAcc, id: string, model: Option<Model> :: r.open(turn.(lastMessageId := id, model := model)) == r.open(turn)
  }

  /** System messages hold nothing, and nothing overtakes what waits in a turn. */
  ghost predicate Keeps<T(!new)>(r: Reading<T>) {
    (forall m: Message, k: nat :: k < |m.parts| && m.speaker.SystemSpeaker? ==> r.part(m, k) == []) &&
    forall m: Message, k: nat, turn: TurnAcc :: k < |m.parts| && (m.parts[k].ApprovalPart? || m.parts[k].ContextPart?) ==>
      r.part(m, k) == [] || r.open(turn) == []
  }

  ghost predicate Lawful<T(!new)>(r: Reading<T>) {
    Appends(r) && Attaches(r) && Absorbs(r) && Flushes(r) && Opens(r) && Keeps(r)
  }

  // ----- What follows ------------------------------------------------------------------------------

  lemma Appended(items: seq<Item>, m: Message, n: nat)
    requires n <= |m.parts|
    ensures AppendParts(items, m, n) == if n == 0 then items else AppendPart(AppendParts(items, m, n - 1), m, n - 1)
  {
  }

  lemma {:induction false} PartsRead<T(!new)>(r: Reading<T>, items: seq<Item>, m: Message, n: nat)
    requires Appends(r) && n <= |m.parts| && !m.speaker.SystemSpeaker?
    ensures Read(r, AppendParts(items, m, n)) == Read(r, items) + OfParts(r.part, m, n)
  {
    hide *;
    Appended(items, m, n);
    PartsNext(r.part, m, n);
    if n == 0 { Units(Read(r, items)); }
    else {
      PartsRead(r, items, m, n - 1);
      PartRead(r, AppendParts(items, m, n - 1), m, n - 1);
      Assoc(Read(r, items), OfParts(r.part, m, n - 1), r.part(m, n - 1));
    }
  }

  lemma PartRead<T(!new)>(r: Reading<T>, items: seq<Item>, m: Message, k: nat)
    requires Appends(r) && k < |m.parts| && !m.speaker.SystemSpeaker?
    ensures Read(r, AppendPart(items, m, k)) == Read(r, items) + r.part(m, k)
  {
    hide Read, AppendPart;
  }

  lemma MessageRead<T(!new)>(r: Reading<T>, items: seq<Item>, m: Message)
    requires Appends(r) && Attaches(r) && !m.speaker.SystemSpeaker?
    ensures Read(r, AppendMessage(items, m)) == Read(r, items) + OfParts(r.part, m, |m.parts|)
  {
    var after := AppendParts(items, m, |m.parts|);
    PartsRead(r, items, m, |m.parts|);
    AttachRead(r, after, m, Reasoning(m, |m.parts|));
    hide Appends, Attaches, Read, AppendParts, Attach, Reasoning, OfParts;
  }

  lemma AttachRead<T(!new)>(r: Reading<T>, items: seq<Item>, m: Message, reasoning: string)
    requires Attaches(r)
    ensures Read(r, Attach(items, m, reasoning, |items|)) == Read(r, items)
  {
    hide Read, Attach;
  }

  lemma AbsorbOne<T(!new)>(r: Reading<T>, items: seq<Item>, turn: TurnAcc, m: Message, k: nat)
    requires Absorbs(r) && k < |m.parts| && m.speaker.AssistantSpeaker?
    ensures var (shown, acc) := AbsorbPart(items, turn, m, k);
            Read(r, shown) + r.open(acc) == Read(r, items) + r.open(turn) + r.part(m, k)
  {
    hide Read, AbsorbPart;
  }

  lemma {:induction false} AbsorbRead<T(!new)>(r: Reading<T>, items: seq<Item>, turn: TurnAcc, m: Message, n: nat)
    requires Absorbs(r) && n <= |m.parts| && m.speaker.AssistantSpeaker?
    ensures var (shown, acc) := AbsorbParts(items, turn, m, n);
            Read(r, shown) + r.open(acc) == Read(r, items) + r.open(turn) + OfParts(r.part, m, n)
  {
    if n == 0 { Units(Read(r, items) + r.open(turn)); }
    else {
      var (shown, acc) := AbsorbParts(items, turn, m, n - 1);
      AbsorbRead(r, items, turn, m, n - 1);
      AbsorbOne(r, shown, acc, m, n - 1);
      Assoc(Read(r, items) + r.open(turn), OfParts(r.part, m, n - 1), r.part(m, n - 1));
      hide Absorbs, Read, AbsorbPart;
    }
  }

  lemma AbsorbAll<T(!new)>(r: Reading<T>, items: seq<Item>, turn: TurnAcc, m: Message)
    requires Absorbs(r) && Opens(r) && m.speaker.AssistantSpeaker?
    ensures var (shown, acc) := Absorb(items, turn, m);
            Read(r, shown) + r.open(acc) == Read(r, items) + r.open(turn) + OfParts(r.part, m, |m.parts|)
  {
    AbsorbRead(r, items, turn, m, |m.parts|);
    hide Absorbs, Read, AbsorbParts, OfParts;
  }

  lemma FlushRead<T(!new)>(r: Reading<T>, items: seq<Item>, turn: Option<TurnAcc>)
    requires Flushes(r)
    ensures Read(r, items + Flush(turn)) == Read(r, items) + Open(r, turn)
  {
    assert turn.None? ==> Flush(turn) == [];
    if turn.None? {
      Units(items);
      Units(Read(r, items));
    }
    hide Read, Flush;
  }

  lemma FreshTurn<T(!new)>(r: Reading<T>, items: seq<Item>, stream: string, id: string)
    requires Opens(r)
    ensures Read(r, items) + r.open(TurnAcc(stream, [], "", [], None, id)) == Read(r, items)
  {
    Units(Read(r, items));
  }

  lemma IterationRead<T(!new)>(r: Reading<T>, f: Fold, m: Message, stream: string)
    requires Lawful(r) && m.speaker.AssistantSpeaker?
    ensures Total(r, FoldIteration(f, m, stream)) == Total(r, f) + OfParts(r.part, m, |m.parts|)
  {
    hide Read, Absorb, Flush, OfParts, Appends, Attaches, Absorbs, Flushes, Opens, Keeps;
    if f.turn.Some? && f.turn.value.stream == stream { AbsorbAll(r, f.items, f.turn.value, m); }
    else {
      var items := f.items + Flush(f.turn);
      FlushRead(r, f.items, f.turn);
      FreshTurn(r, items, stream, m.id);
      AbsorbAll(r, items, TurnAcc(stream, [], "", [], None, m.id), m);
    }
  }

  lemma FinalRead<T(!new)>(r: Reading<T>, f: Fold, turn: TurnAcc, m: Message)
    requires Lawful(r) && m.speaker.AssistantSpeaker? && f.turn == Some(turn)
    ensures Total(r, FoldFinal(f, turn, m)) == Total(r, f) + OfParts(r.part, m, |m.parts|)
  {
    hide Read, Absorb, Flush, OfParts, Appends, Attaches, Absorbs, Flushes, Opens, Keeps;
    var (shown, acc) := Absorb(f.items, turn, m);
    AbsorbAll(r, f.items, turn, m);
    FlushRead(r, shown, Some(acc));
    Units(Read(r, shown + Flush(Some(acc))));
  }

  lemma CloseRead<T(!new)>(r: Reading<T>, f: Fold, m: Message)
    requires Lawful(r) && !m.speaker.SystemSpeaker?
    ensures Total(r, Fold(AppendMessage(f.items + Flush(f.turn), m), None)) == Total(r, f) + OfParts(r.part, m, |m.parts|)
  {
    hide Read, AppendMessage, Flush, OfParts, Appends, Attaches, Absorbs, Flushes, Opens, Keeps;
    FlushRead(r, f.items, f.turn);
    MessageRead(r, f.items + Flush(f.turn), m);
    Units(Read(r, AppendMessage(f.items + Flush(f.turn), m)));
  }

  lemma InlineRead<T(!new)>(r: Reading<T>, f: Fold, m: Message)
    requires Lawful(r) && m.speaker.AssistantSpeaker? && InlineOnly(m)
    ensures Total(r, Fold(AppendMessage(f.items, m), f.turn)) == Total(r, f) + OfParts(r.part, m, |m.parts|)
  {
    var held := OfParts(r.part, m, |m.parts|);
    InlineHeld(r, f.turn, m);
    MessageRead(r, f.items, m);
    hide *;
    Units(Read(r, f.items));
    Units(Read(r, f.items) + held);
    Units(Read(r, f.items) + Open(r, f.turn));
    TotalIs(r, f);
    TotalIs(r, Fold(AppendMessage(f.items, m), f.turn));
  }

  lemma TotalIs<T>(r: Reading<T>, f: Fold)
    ensures Total(r, f) == Read(r, f.items) + Open(r, f.turn)
  {
  }

  lemma InlineHeld<T(!new)>(r: Reading<T>, turn: Option<TurnAcc>, m: Message)
    requires Keeps(r) && InlineOnly(m)
    ensures OfParts(r.part, m, |m.parts|) == [] || Open(r, turn) == []
  {
    if Open(r, turn) != [] {
      forall k: nat | k < |m.parts| ensures r.part(m, k) == [] { assert m.parts[k].ApprovalPart? || m.parts[k].ContextPart?; }
      NothingInParts(r.part, m, |m.parts|);
    }
  }

  lemma SystemRead<T(!new)>(r: Reading<T>, f: Fold, m: Message)
    requires Keeps(r) && m.speaker.SystemSpeaker?
    ensures Total(r, f) == Total(r, f) + OfParts(r.part, m, |m.parts|)
  {
    NothingInParts(r.part, m, |m.parts|);
    Units(Total(r, f));
  }

  lemma MessageFolds<T(!new)>(r: Reading<T>, f: Fold, m: Message)
    requires Lawful(r)
    ensures Total(r, FoldMessage(f, m)) == Total(r, f) + OfParts(r.part, m, |m.parts|)
  {
    assert Keeps(r);
    hide Total, Lawful, Keeps, FoldIteration, FoldFinal, AppendMessage, Flush, Stream, OfParts;
    if m.speaker.SystemSpeaker? { SystemRead(r, f, m); }
    else if m.speaker.AssistantSpeaker? && Stream(m.id).Some? { IterationRead(r, f, m, Stream(m.id).value); }
    else if m.speaker.AssistantSpeaker? && f.turn.Some? && !HasToolCall(m) && !InlineOnly(m) { FinalRead(r, f, f.turn.value, m); }
    else if m.speaker.AssistantSpeaker? && InlineOnly(m) { InlineRead(r, f, m); }
    else { CloseRead(r, f, m); }
  }

  lemma {:induction false} LogFolds<T(!new)>(r: Reading<T>, ms: seq<Message>)
    requires Lawful(r)
    ensures Total(r, FoldMessages(ms)) == OfLog(r.part, ms)
  {
    if ms != [] {
      LogFolds(r, ms[..|ms| - 1]);
      MessageFolds(r, FoldMessages(ms[..|ms| - 1]), ms[|ms| - 1]);
      hide Total, Lawful, FoldMessage, OfParts;
    }
  }

  /** What a lawful reading finds in the timeline is what it finds in the log, in order. */
  lemma AllRead<T(!new)>(r: Reading<T>, ms: seq<Message>)
    requires Lawful(r)
    ensures Collect(r.item, ToItems(ms)) == OfLog(r.part, ms)
  {
    LogFolds(r, ms);
    FlushRead(r, FoldMessages(ms).items, FoldMessages(ms).turn);
    hide Flush, FoldMessages, OfLog, Collect;
  }
}
