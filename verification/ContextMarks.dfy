/** When the bubble of a user message says that its injected context cannot be told by references (src/lib/items.ts). */
module ContextMarks {
  import opened Options
  import opened Seqs
  import opened Timeline
  import opened Messages
  import opened Items
  import opened BubbleOrigins

  /** The part opens a bubble if the message has none yet. */
  predicate Opens(m: Message, k: nat)
    requires k < |m.parts|
  {
    (m.parts[k].TextPart? && m.parts[k].text != "") || (m.parts[k].SourcesPart? && m.parts[k].items != []) ||
    (m.parts[k].ImagePart? && m.parts[k].mediaType != "" && m.parts[k].data.Some?)
  }

  predicate OpensBefore(m: Message, n: nat)
    requires n <= |m.parts|
  {
    exists k :: 0 <= k < n && Opens(m, k)
  }

  predicate Quotes(m: Message, n: nat)
    requires n <= |m.parts|
  {
    exists k :: 0 <= k < n && m.parts[k].SourcesPart? && m.parts[k].items != []
  }

  /** Among the first `n` parts, context is injected behind one that opens the bubble. */
  predicate Injects(m: Message, n: nat)
    requires n <= |m.parts|
  {
    exists k :: 0 <= k < n && m.parts[k].ContextPart? && OpensBefore(m, k)
  }

  /** The first `n` parts have made one bubble, or none. */
  ghost predicate Made(items: seq<Item>, after: seq<Item>, m: Message, n: nat)
    requires n <= |m.parts|
  {
    if !OpensBefore(m, n) then after == items
    else
      |after| == |items| + 1 && after[..|items|] == items && OwnLast(after, User, m.id) &&
      (after[|items|].context.GetOr([]) != [] <==> Quotes(m, n)) &&
      (after[|items|].contextUnavailable == Some(true) <==> Injects(m, n) && !Quotes(m, n))
  }

  lemma NextFacts(m: Message, n: nat)
    requires n < |m.parts|
    ensures OpensBefore(m, n + 1) <==> OpensBefore(m, n) || Opens(m, n)
    ensures Quotes(m, n + 1) <==> Quotes(m, n) || (m.parts[n].SourcesPart? && m.parts[n].items != [])
    ensures Injects(m, n + 1) <==> Injects(m, n) || (m.parts[n].ContextPart? && OpensBefore(m, n))
    ensures Quotes(m, n) || Injects(m, n) ==> OpensBefore(m, n)
  {
    if Quotes(m, n) {
      var k :| 0 <= k < n && m.parts[k].SourcesPart? && m.parts[k].items != [];
      assert Opens(m, k);
    }
  }

  /** The bubble is made, or changes in what this is not about. */
  lemma TextMade(items: seq<Item>, before: seq<Item>, m: Message, n: nat)
    requires m.speaker.UserSpeaker? && n < |m.parts| && (HasText(m.parts[n]) || HasImage(m.parts[n]))
    requires !OwnLast(items, User, m.id) && Made(items, before, m, n)
    ensures Made(items, AppendPart(before, m, n), m, n + 1)
  {
    NextFacts(m, n);
    hide OpensBefore, Quotes, Injects, UserSource;
    var after := AppendPart(before, m, n);
    if OpensBefore(m, n) { assert after[..|items|] == before[..|items|]; }
  }

  lemma SourcesMade(items: seq<Item>, before: seq<Item>, m: Message, n: nat)
    requires m.speaker.UserSpeaker? && n < |m.parts| && HasSources(m.parts[n])
    requires !OwnLast(items, User, m.id) && Made(items, before, m, n)
    ensures Made(items, AppendPart(before, m, n), m, n + 1)
  {
    NextFacts(m, n);
    hide OpensBefore, Quotes, Injects;
    var after := AppendPart(before, m, n);
    if OpensBefore(m, n) { assert after[..|items|] == before[..|items|]; }
  }

  lemma ContextMade(items: seq<Item>, before: seq<Item>, m: Message, n: nat)
    requires m.speaker.UserSpeaker? && n < |m.parts| && m.parts[n].ContextPart?
    requires !OwnLast(items, User, m.id) && Made(items, before, m, n)
    ensures Made(items, AppendPart(before, m, n), m, n + 1)
  {
    NextFacts(m, n);
    hide OpensBefore, Quotes, Injects;
    var after := AppendPart(before, m, n);
    if OpensBefore(m, n) { assert after[..|items|] == before[..|items|]; }
  }

  lemma NothingMade(items: seq<Item>, before: seq<Item>, m: Message, n: nat)
    requires m.speaker.UserSpeaker? && n < |m.parts| && !HasTool(m.parts[n]) && !HasApproval(m.parts[n])
    requires !Opens(m, n) && !m.parts[n].ContextPart? && Made(items, before, m, n)
    ensures Made(items, AppendPart(before, m, n), m, n + 1)
  {
    NextFacts(m, n);
    Units(before);
    hide OpensBefore, Quotes, Injects;
  }

  lemma PartMade(items: seq<Item>, before: seq<Item>, m: Message, n: nat)
    requires m.speaker.UserSpeaker? && n < |m.parts| && !HasTool(m.parts[n]) && !HasApproval(m.parts[n])
    requires !OwnLast(items, User, m.id) && Made(items, before, m, n)
    ensures Made(items, AppendPart(before, m, n), m, n + 1)
  {
    hide Made, AppendPart, OwnLast;
    if HasText(m.parts[n]) || HasImage(m.parts[n]) { TextMade(items, before, m, n); }
    else if HasSources(m.parts[n]) { SourcesMade(items, before, m, n); }
    else if m.parts[n].ContextPart? { ContextMade(items, before, m, n); }
    else { NothingMade(items, before, m, n); }
  }

  lemma NextParts(items: seq<Item>, m: Message, n: nat)
    requires n <= |m.parts|
    ensures AppendParts(items, m, n) == if n == 0 then items else AppendPart(AppendParts(items, m, n - 1), m, n - 1)
    ensures n == 0 ==> Made(items, items, m, n)
  {
    hide AppendPart, Opens;
  }

  lemma {:induction false} PartsMade(items: seq<Item>, m: Message, n: nat)
    requires m.speaker.UserSpeaker? && n <= |m.parts| && !OwnLast(items, User, m.id)
    requires forall k :: 0 <= k < n ==> !HasTool(m.parts[k]) && !HasApproval(m.parts[k])
    ensures Made(items, AppendParts(items, m, n), m, n)
  {
    hide *;
    NextParts(items, m, n);
    if n > 0 {
      PartsMade(items, m, n - 1);
      PartMade(items, AppendParts(items, m, n - 1), m, n - 1);
    }
  }

  lemma AddUser(ms: seq<Message>, m: Message)
    requires m.speaker.UserSpeaker?
    ensures ToItems(ms + [m]) == AppendParts(ToItems(ms), m, |m.parts|)
  {
    assert (ms + [m])[..|ms|] == ms;
    Units(AppendParts(ToItems(ms), m, |m.parts|));
    hide AppendParts;
  }

  /** A new user message without cards gets one bubble, if it has a text, an image or a reference. The bubble is marked exactly
      when context is injected behind what opens it and the message quotes no reference. */
  lemma MarkedExactly(ms: seq<Message>, m: Message)
    requires m.speaker.UserSpeaker? && forall b :: 0 <= b < |ms| ==> ms[b].id != m.id
    requires forall k :: 0 <= k < |m.parts| ==> !HasTool(m.parts[k]) && !HasApproval(m.parts[k])
    ensures Made(ToItems(ms), ToItems(ms + [m]), m, |m.parts|)
  {
    AddUser(ms, m);
    NotOwn(ms, m);
    hide *;
    PartsMade(ToItems(ms), m, |m.parts|);
  }

  lemma LastFrom(ms: seq<Message>, items: seq<Item>, id: string)
    requires AllFrom(ms, items)
    ensures OwnLast(items, User, id) ==> exists b :: 0 <= b < |ms| && ms[b].id == id
  {
    if OwnLast(items, User, id) { assert From(ms, User, Some(id), items[|items| - 1].model); }
  }

  lemma NotOwn(ms: seq<Message>, m: Message)
    requires forall b :: 0 <= b < |ms| ==> ms[b].id != m.id
    ensures !OwnLast(ToItems(ms), User, m.id)
  {
    BubblesOwned(ms);
    LastFrom(ms, ToItems(ms), m.id);
    hide ToItems, OwnLast, From;
  }
}
