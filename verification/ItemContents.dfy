/** The chat timeline shows the images, the quoted references and the approvals of the log, each once and in order. */
module ItemContents {
  import opened Options
  import opened Seqs
  import opened Timeline
  import opened Messages
  import opened Items
  import opened Collecting
  import opened ItemReadings

  // ----- Items that hold nothing ------------------------------------------------------------------

  /** Only bubbles and approval cards hold anything. */
  ghost predicate OnCards<T(!new)>(r: Reading<T>) {
    forall item: Item :: !item.Msg? && !item.Approval? ==> r.item(item) == []
  }

  lemma CardRead<T(!new)>(r: Reading<T>, items: seq<Item>, p: Part, id: string, k: nat)
    requires OnCards(r)
    ensures !HasApproval(p) ==> Read(r, items + Card(p, id, k)) == Read(r, items)
    ensures HasApproval(p) ==> Read(r, items + Card(p, id, k)) == Read(r, items) + r.item(ApprovalHistoryItem(p).value)
  {
    if Card(p, id, k) == [] { Units(items); }
    else if HasApproval(p) { CollectPush(r.item, items, ApprovalHistoryItem(p).value); }
    else { CollectNone(r.item, items, Card(p, id, k)[0]); }
  }

  lemma SetRead<T>(r: Reading<T>, items: seq<Item>, item: Item, more: seq<T>)
    requires items != [] && r.item(item) == r.item(items[|items| - 1]) + more
    ensures Read(r, SetLast(items, item)) == Read(r, items) + more
  {
    CollectGrow(r.item, items, item, more);
  }

  lemma PushRead<T>(r: Reading<T>, items: seq<Item>, item: Item, more: seq<T>)
    requires r.item(item) == more
    ensures Read(r, items + [item]) == Read(r, items) + more
  {
    CollectPush(r.item, items, item);
  }

  // ----- Images ----------------------------------------------------------------------------------

  /** An image, with the id of its message if a user sent it. */
  datatype Picture = Picture(sender: Option<string>, image: Image)

  function Pictures(sender: Option<string>, images: seq<Image>): (r: seq<Picture>)
    ensures |r| == |images|
  {
    seq(|images|, i requires 0 <= i < |images| => Picture(sender, images[i]))
  }

  function ItemPictures(item: Item): seq<Picture> {
    if item.Msg? then Pictures(if item.role.User? then item.messageId else None, item.images.GetOr([])) else []
  }

  /** An image part with a media type and data, in a message of the user or the assistant. */
  function PartPictures(m: Message, k: nat): seq<Picture> {
    if k < |m.parts| && m.parts[k].ImagePart? && m.parts[k].mediaType != "" && m.parts[k].data.Some? && !m.speaker.SystemSpeaker?
    then [Picture(if m.speaker.UserSpeaker? then Some(m.id) else None, Image(m.parts[k].mediaType, m.parts[k].data.value))] else []
  }

  function TurnPictures(turn: TurnAcc): seq<Picture> {
    Pictures(None, turn.images)
  }

  const Imagery := Reading(ItemPictures, PartPictures, TurnPictures)

  lemma MorePictures(sender: Option<string>, images: seq<Image>, image: Image)
    ensures Pictures(sender, images + [image]) == Pictures(sender, images) + [Picture(sender, image)]
    ensures Pictures(sender, []) == [] && Pictures(sender, [image]) == [Picture(sender, image)]
  {
  }

  lemma PictureText(items: seq<Item>, m: Message, text: string)
    ensures Read(Imagery, AppendText(items, m, text)) == Read(Imagery, items) + []
  {
    Units(if items != [] then ItemPictures(items[|items| - 1]) else []);
    if OwnLast(items, RoleOf(m.speaker), m.id) {
      SetRead(Imagery, items, items[|items| - 1].(content := items[|items| - 1].content + "\n" + text), []);
    } else { PushRead(Imagery, items, TextBubble(m, text), []); }
  }

  lemma PictureSources(items: seq<Item>, m: Message, sources: seq<string>)
    ensures Read(Imagery, AppendSources(items, m, sources)) == Read(Imagery, items) + []
    ensures Read(Imagery, MarkContext(items, m)) == Read(Imagery, items) + []
  {
    Units(if items != [] then ItemPictures(items[|items| - 1]) else []);
    Units(Read(Imagery, items));
    if OwnLast(items, User, m.id) {
      var last := items[|items| - 1];
      SetRead(Imagery, items, last.(context := Some(last.context.GetOr([]) + sources), contextUnavailable := Some(false)), []);
      SetRead(Imagery, items, last.(contextUnavailable := Some(true)), []);
    } else { PushRead(Imagery, items, SourcesBubble(m, sources), []); }
  }

  lemma PictureImage(items: seq<Item>, m: Message, image: Image)
    requires !m.speaker.SystemSpeaker?
    ensures Read(Imagery, AppendImage(items, m, image)) ==
      Read(Imagery, items) + [Picture(if m.speaker.UserSpeaker? then Some(m.id) else None, image)]
  {
    var sender := if m.speaker.UserSpeaker? then Some(m.id) else None;
    MorePictures(sender, [], image);
    if OwnLast(items, RoleOf(m.speaker), m.id) {
      var last := items[|items| - 1];
      MorePictures(sender, last.images.GetOr([]), image);
      SetRead(Imagery, items, last.(images := Some(last.images.GetOr([]) + [image])), [Picture(sender, image)]);
    } else { PushRead(Imagery, items, ImageBubble(m, image), [Picture(sender, image)]); }
  }

  lemma PicturePart(items: seq<Item>, m: Message, k: nat)
    requires k < |m.parts| && !m.speaker.SystemSpeaker?
    ensures Read(Imagery, AppendPart(items, m, k)) == Read(Imagery, items) + PartPictures(m, k)
  {
    hide Read, AppendText, AppendSources, MarkContext, AppendImage, Card;
    var p := m.parts[k];
    Units(Read(Imagery, items));
    if HasText(p) { PictureText(items, m, p.text); }
    else if HasReasoning(p) && m.speaker.AssistantSpeaker? {}
    else if HasSources(p) && m.speaker.UserSpeaker? { PictureSources(items, m, p.items); }
    else if p.ContextPart? && m.speaker.UserSpeaker? { PictureSources(items, m, []); }
    else if HasImage(p) { PictureImage(items, m, Image(p.mediaType, p.data.value)); }
    else { CardRead(Imagery, items, p, m.id, k); }
  }

  /** Hanging reasoning on a bubble, or on a new one, does not matter to a reading that takes no notice of it. */
  lemma {:induction false} AttachSame<T(!new)>(r: Reading<T>, items: seq<Item>, m: Message, reasoning: string, n: nat)
    requires n <= |items| && r.item(ThoughtBubble(m, reasoning)) == []
    requires forall item: Item, text: string :: item.Msg? ==> r.item(item.(reasoning := Some(text))) == r.item(item)
    ensures Read(r, Attach(items, m, reasoning, n)) == Read(r, items)
  {
    if n == 0 || !items[n - 1].Msg? || items[n - 1].messageId != Some(m.id) {
      CollectNone(r.item, items, ThoughtBubble(m, reasoning));
    } else if items[n - 1].role.Assistant? {
      CollectSame(r.item, items, n - 1, items[n - 1].(reasoning := Some(items[n - 1].reasoning.GetOr("") + reasoning)));
    } else { AttachSame(r, items, m, reasoning, n - 1); }
  }

  lemma PictureAbsorb(items: seq<Item>, turn: TurnAcc, m: Message, k: nat)
    requires k < |m.parts| && m.speaker.AssistantSpeaker?
    ensures var (shown, acc) := AbsorbPart(items, turn, m, k);
            Read(Imagery, shown) + TurnPictures(acc) == Read(Imagery, items) + TurnPictures(turn) + PartPictures(m, k)
  {
    hide Read, Card;
    var p := m.parts[k];
    Units(Read(Imagery, items) + TurnPictures(turn));
    if HasImage(p) {
      MorePictures(None, turn.images, Image(p.mediaType, p.data.value));
      Assoc(Read(Imagery, items), TurnPictures(turn), PartPictures(m, k));
    } else if !HasText(p) && !HasReasoning(p) {
      CardRead(Imagery, items, p, m.id, k);
      Units(Read(Imagery, items));
    }
  }

  lemma PictureFlush(items: seq<Item>, turn: TurnAcc)
    ensures Read(Imagery, items + Flush(Some(turn))) == Read(Imagery, items) + TurnPictures(turn)
  {
    if Flush(Some(turn)) == [] {
      Units(items);
      Units(Read(Imagery, items));
    } else { PushRead(Imagery, items, TurnBubble(turn), TurnPictures(turn)); }
  }

  lemma ImageryLawful()
    ensures Lawful(Imagery)
  {
    forall items: seq<Item>, m: Message, k: nat | k < |m.parts| && !m.speaker.SystemSpeaker?
      ensures Read(Imagery, AppendPart(items, m, k)) == Read(Imagery, items) + Imagery.part(m, k)
    {
      PicturePart(items, m, k);
    }
    forall items: seq<Item>, m: Message, reasoning: string, n: nat | n <= |items|
      ensures Read(Imagery, Attach(items, m, reasoning, n)) == Read(Imagery, items)
    {
      AttachSame(Imagery, items, m, reasoning, n);
    }
    forall items: seq<Item>, turn: TurnAcc, m: Message, k: nat | k < |m.parts| && m.speaker.AssistantSpeaker?
      ensures Read(Imagery, AbsorbPart(items, turn, m, k).0) + Imagery.open(AbsorbPart(items, turn, m, k).1) ==
        Read(Imagery, items) + Imagery.open(turn) + Imagery.part(m, k)
    {
      PictureAbsorb(items, turn, m, k);
    }
    forall items: seq<Item>, turn: TurnAcc
      ensures Read(Imagery, items + Flush(Some(turn))) == Read(Imagery, items) + Imagery.open(turn)
    {
      PictureFlush(items, turn);
    }
    hide Read, AppendPart, Attach, AbsorbPart, Flush;
  }

  /** The bubbles show exactly the images of the log, in order; those of users in bubbles of their own message. */
  lemma ImagesKept(ms: seq<Message>)
    ensures Collect(ItemPictures, ToItems(ms)) == OfLog(PartPictures, ms)
  {
    ImageryLawful();
    AllRead(Imagery, ms);
  }

  // ----- Readings that never wait for the end of a turn --------------------------------------------

  function NothingWaits<T>(turn: TurnAcc): seq<T> {
    []
  }

  /** What a reading must do with one part, one card and one closing bubble when nothing ever waits in a turn. */
  ghost predicate Direct<T(!new)>(r: Reading<T>) {
    Appends(r) && OnCards(r) && r.open == NothingWaits &&
    (forall turn: TurnAcc :: r.item(TurnBubble(turn)) == []) &&
    (forall m: Message, reasoning: string :: r.item(ThoughtBubble(m, reasoning)) == []) &&
    (forall item: Item, text: string :: item.Msg? ==> r.item(item.(reasoning := Some(text))) == r.item(item)) &&
    (forall m: Message, k: nat :: k < |m.parts| && m.speaker.SystemSpeaker? ==> r.part(m, k) == []) &&
    forall m: Message, k: nat :: k < |m.parts| && m.speaker.AssistantSpeaker? ==>
      r.part(m, k) == if HasApproval(m.parts[k]) then r.item(ApprovalHistoryItem(m.parts[k]).value) else []
  }

  lemma DirectAbsorb<T(!new)>(r: Reading<T>, items: seq<Item>, turn: TurnAcc, m: Message, k: nat)
    requires Direct(r) && k < |m.parts| && m.speaker.AssistantSpeaker?
    ensures Read(r, AbsorbPart(items, turn, m, k).0) == Read(r, items) + r.part(m, k)
  {
    hide Read, Card, Appends, ApprovalHistoryItem;
    var p := m.parts[k];
    Units(Read(r, items));
    if !HasText(p) && !HasReasoning(p) && !HasImage(p) { CardRead(r, items, p, m.id, k); }
  }

  lemma DirectFlush<T(!new)>(r: Reading<T>, items: seq<Item>, turn: TurnAcc)
    requires Direct(r)
    ensures Read(r, items + Flush(Some(turn))) == Read(r, items)
  {
    if Flush(Some(turn)) == [] { Units(items); } else { CollectNone(r.item, items, TurnBubble(turn)); }
  }

  lemma DirectLawful<T(!new)>(r: Reading<T>)
    requires Direct(r)
    ensures Lawful(r)
  {
    forall items: seq<Item>, m: Message, reasoning: string, n: nat | n <= |items|
      ensures Read(r, Attach(items, m, reasoning, n)) == Read(r, items)
    {
      AttachSame(r, items, m, reasoning, n);
    }
    forall items: seq<Item>, turn: TurnAcc, m: Message, k: nat | k < |m.parts| && m.speaker.AssistantSpeaker?
      ensures Read(r, AbsorbPart(items, turn, m, k).0) + r.open(AbsorbPart(items, turn, m, k).1) ==
        Read(r, items) + r.open(turn) + r.part(m, k)
    {
      DirectAbsorb(r, items, turn, m, k);
      Units(Read(r, items) + r.part(m, k));
      Units(Read(r, items));
    }
    forall items: seq<Item>, turn: TurnAcc
      ensures Read(r, items + Flush(Some(turn))) == Read(r, items) + r.open(turn)
    {
      DirectFlush(r, items, turn);
      Units(Read(r, items));
    }
    hide Read, Appends, Attach, AbsorbPart, Flush;
  }

  // ----- Quoted references ---------------------------------------------------------------------------

  /** A reference, with the id of the message that quotes it. */
  datatype Quote = Quote(sender: Option<string>, source: string)

  function Quotes(sender: Option<string>, sources: seq<string>): (r: seq<Quote>)
    ensures |r| == |sources|
  {
    seq(|sources|, i requires 0 <= i < |sources| => Quote(sender, sources[i]))
  }

  function ItemQuotes(item: Item): seq<Quote> {
    if item.Msg? then Quotes(item.messageId, item.context.GetOr([])) else []
  }

  function PartQuotes(m: Message, k: nat): seq<Quote> {
    if k < |m.parts| && m.speaker.UserSpeaker? && m.parts[k].SourcesPart? then Quotes(Some(m.id), m.parts[k].items) else []
  }

  const Quoting := Reading(ItemQuotes, PartQuotes, NothingWaits<Quote>)

  lemma MoreQuotes(sender: Option<string>, a: seq<string>, b: seq<string>)
    ensures Quotes(sender, a + b) == Quotes(sender, a) + Quotes(sender, b) && Quotes(sender, []) == []
  {
  }

  lemma QuoteText(items: seq<Item>, m: Message, text: string)
    ensures Read(Quoting, AppendText(items, m, text)) == Read(Quoting, items) + []
  {
    Units(if items != [] then ItemQuotes(items[|items| - 1]) else []);
    if OwnLast(items, RoleOf(m.speaker), m.id) {
      SetRead(Quoting, items, items[|items| - 1].(content := items[|items| - 1].content + "\n" + text), []);
    } else { PushRead(Quoting, items, TextBubble(m, text), []); }
  }

  lemma QuoteSources(items: seq<Item>, m: Message, sources: seq<string>)
    ensures Read(Quoting, AppendSources(items, m, sources)) == Read(Quoting, items) + Quotes(Some(m.id), sources)
    ensures Read(Quoting, MarkContext(items, m)) == Read(Quoting, items) + []
  {
    Units(if items != [] then ItemQuotes(items[|items| - 1]) else []);
    Units(Read(Quoting, items));
    if OwnLast(items, User, m.id) {
      var last := items[|items| - 1];
      MoreQuotes(Some(m.id), last.context.GetOr([]), sources);
      SetRead(Quoting, items, last.(context := Some(last.context.GetOr([]) + sources), contextUnavailable := Some(false)),
              Quotes(Some(m.id), sources));
      SetRead(Quoting, items, last.(contextUnavailable := Some(true)), []);
    } else { PushRead(Quoting, items, SourcesBubble(m, sources), Quotes(Some(m.id), sources)); }
  }

  lemma QuoteImage(items: seq<Item>, m: Message, image: Image)
    ensures Read(Quoting, AppendImage(items, m, image)) == Read(Quoting, items) + []
  {
    Units(if items != [] then ItemQuotes(items[|items| - 1]) else []);
    if OwnLast(items, RoleOf(m.speaker), m.id) {
      var last := items[|items| - 1];
      SetRead(Quoting, items, last.(images := Some(last.images.GetOr([]) + [image])), []);
    } else { PushRead(Quoting, items, ImageBubble(m, image), []); }
  }

  lemma QuotePart(items: seq<Item>, m: Message, k: nat)
    requires k < |m.parts| && !m.speaker.SystemSpeaker?
    ensures Read(Quoting, AppendPart(items, m, k)) == Read(Quoting, items) + PartQuotes(m, k)
  {
    hide Read, AppendText, AppendSources, MarkContext, AppendImage, Card;
    var p := m.parts[k];
    Units(Read(Quoting, items));
    MoreQuotes(Some(m.id), [], []);
    if HasText(p) { QuoteText(items, m, p.text); }
    else if HasReasoning(p) && m.speaker.AssistantSpeaker? {}
    else if HasSources(p) && m.speaker.UserSpeaker? { QuoteSources(items, m, p.items); }
    else if p.ContextPart? && m.speaker.UserSpeaker? { QuoteSources(items, m, []); }
    else if HasImage(p) { QuoteImage(items, m, Image(p.mediaType, p.data.value)); }
    else { CardRead(Quoting, items, p, m.id, k); }
  }

  /** The bubbles quote exactly the references of the log, in order, and each in a bubble of its own message. */
  lemma SourcesKept(ms: seq<Message>)
    ensures Collect(ItemQuotes, ToItems(ms)) == OfLog(PartQuotes, ms)
  {
    forall items: seq<Item>, m: Message, k: nat | k < |m.parts| && !m.speaker.SystemSpeaker?
      ensures Read(Quoting, AppendPart(items, m, k)) == Read(Quoting, items) + Quoting.part(m, k)
    {
      QuotePart(items, m, k);
    }
    assert Direct(Quoting) by { hide Read, AppendPart; }
    DirectLawful(Quoting);
    AllRead(Quoting, ms);
  }

  // ----- Approvals ---------------------------------------------------------------------------------------

  /** A settled approval as the log records it; a decision the log does not name is none. */
  datatype Ruling = Ruling(command: string, reason: string, decision: Option<string>, live: bool)

  /** What a card in this state says about the decision. */
  function DecisionShown(resolved: Option<string>): Option<string> {
    match resolved
    case Some("allowed") => Some("allow")
    case Some("denied") => Some("deny")
    case Some("timeout") => Some("timeout")
    case Some("cancelled") => Some("cancel")
    case Some("expired") => None
    case _ => Some("?")
  }

  function ItemRulings(item: Item): seq<Ruling> {
    if item.Approval? then
      [Ruling(item.command, item.reason, DecisionShown(item.resolved), item.approvalId != "" || item.sessionId.Some?)]
    else []
  }

  function PartRulings(m: Message, k: nat): seq<Ruling> {
    if k < |m.parts| && !m.speaker.SystemSpeaker? && m.parts[k].ApprovalPart? && m.parts[k].command.Some? then
      var p := m.parts[k];
      var named := p.decision in {Some("allow"), Some("deny"), Some("timeout"), Some("cancel")};
      [Ruling(p.command.value, if p.reason.Some? then p.reason.value else "", if named then p.decision else None, false)]
    else []
  }

  const Judging := Reading(ItemRulings, PartRulings, NothingWaits<Ruling>)

  lemma RulingShown(m: Message, k: nat)
    requires k < |m.parts| && !m.speaker.SystemSpeaker?
    ensures PartRulings(m, k) == if HasApproval(m.parts[k]) then ItemRulings(ApprovalHistoryItem(m.parts[k]).value) else []
  {
  }

  lemma RulingPart(items: seq<Item>, m: Message, k: nat)
    requires k < |m.parts| && !m.speaker.SystemSpeaker?
    ensures Read(Judging, AppendPart(items, m, k)) == Read(Judging, items) + PartRulings(m, k)
  {
    hide Read, Card, AppendText, AppendSources, MarkContext, AppendImage, Resolution, ItemRulings, PartRulings;
    var p := m.parts[k];
    Units(Read(Judging, items));
    RulingShown(m, k);
    RulingSilent(items, m, p);
    if !HasText(p) && !(HasReasoning(p) && m.speaker.AssistantSpeaker?) && !(HasSources(p) && m.speaker.UserSpeaker?) &&
       !(p.ContextPart? && m.speaker.UserSpeaker?) && !HasImage(p)
    {
      RulingCards();
      CardRead(Judging, items, p, m.id, k);
    }
  }

  lemma RulingCards()
    ensures OnCards(Judging) && Judging.item == ItemRulings && Judging.part == PartRulings
  {
  }

  lemma RulingBubble(items: seq<Item>, item: Item)
    requires item.Msg?
    ensures Read(Judging, items + [item]) == Read(Judging, items)
    ensures items != [] && items[|items| - 1].Msg? ==> Read(Judging, SetLast(items, item)) == Read(Judging, items)
  {
    CollectNone(ItemRulings, items, item);
    if items != [] && items[|items| - 1].Msg? { CollectSame(ItemRulings, items, |items| - 1, item); }
  }

  lemma RulingSilent(items: seq<Item>, m: Message, p: Part)
    ensures HasText(p) ==> Read(Judging, AppendText(items, m, p.text)) == Read(Judging, items)
    ensures HasImage(p) ==> Read(Judging, AppendImage(items, m, Image(p.mediaType, p.data.value))) == Read(Judging, items)
    ensures HasSources(p) ==> Read(Judging, AppendSources(items, m, p.items)) == Read(Judging, items)
    ensures Read(Judging, MarkContext(items, m)) == Read(Judging, items)
  {
    hide Read, SetLast;
    if HasText(p) { RulingBubble(items, TextBubble(m, p.text)); }
    if HasImage(p) { RulingBubble(items, ImageBubble(m, Image(p.mediaType, p.data.value))); }
    if HasSources(p) { RulingBubble(items, SourcesBubble(m, p.items)); }
    if items != [] && items[|items| - 1].Msg? {
      var last := items[|items| - 1];
      if HasText(p) { RulingBubble(items, last.(content := last.content + "\n" + p.text)); }
      if HasImage(p) { RulingBubble(items, last.(images := Some(last.images.GetOr([]) + [Image(p.mediaType, p.data.value)]))); }
      if HasSources(p) {
        RulingBubble(items, last.(context := Some(last.context.GetOr([]) + p.items), contextUnavailable := Some(false)));
      }
      RulingBubble(items, last.(contextUnavailable := Some(true)));
    }
  }

  /** Every approval of the log has a settled card with its command, its reason and its decision, in order, and no other
      card is in the timeline: allowed for allow, denied for deny, timeout for timeout, cancelled for cancel, else expired. */
  lemma ApprovalsKept(ms: seq<Message>)
    ensures Collect(ItemRulings, ToItems(ms)) == OfLog(PartRulings, ms)
  {
    forall items: seq<Item>, m: Message, k: nat | k < |m.parts| && !m.speaker.SystemSpeaker?
      ensures Read(Judging, AppendPart(items, m, k)) == Read(Judging, items) + Judging.part(m, k)
    {
      RulingPart(items, m, k);
    }
    forall m: Message, k: nat | k < |m.parts| && m.speaker.AssistantSpeaker?
      ensures Judging.part(m, k) == if HasApproval(m.parts[k]) then Judging.item(ApprovalHistoryItem(m.parts[k]).value) else []
    {
      RulingShown(m, k);
    }
    assert Direct(Judging) by { hide Read, AppendPart, Resolution, DecisionShown; }
    DirectLawful(Judging);
    AllRead(Judging, ms);
  }
}
