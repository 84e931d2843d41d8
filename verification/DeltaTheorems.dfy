/** Batching is transparent: the items after a flush are those of appending every delta at once. */
module DeltaTheorems {
  import opened Options
  import opened Timeline
  import opened Deltas

  /** The buffers written into the items. */
  function FlushInto(items: seq<Item>, content: string, reasoning: string, model: Option<Model>): seq<Item> {
    var c := if content != "" then AppendRawItem(items, Content, content, model) else items;
    if reasoning != "" then AppendRawItem(c, Reasoning, reasoning, model) else c
  }

  lemma SameModelLaws(a: Option<Model>, b: Option<Model>, c: Option<Model>)
    ensures SameModel(a, a)
    ensures SameModel(a, b) ==> SameModel(b, a)
    ensures SameModel(a, b) && SameModel(b, c) ==> SameModel(a, c)
  {
  }

  /** A bubble that has just been written keeps growing. */
  lemma Grown(items: seq<Item>, field: Field, text: string, model: Option<Model>, next: Option<Model>)
    requires SameModel(model, next)
    ensures Grows(AppendRawItem(items, field, text, model), next)
    ensures Grows(items, model) <==> Grows(items, next)
  {
    var was := if items != [] && items[|items| - 1].Msg? then items[|items| - 1].model else None;
    SameModelLaws(was, model, next);
    SameModelLaws(was, next, model);
    SameModelLaws(model, next, model);
    SameModelLaws(next, model, was);
  }

  /** Two pieces of one field are one piece, and the later model counts. */
  lemma AppendTwice(items: seq<Item>, field: Field, a: string, b: string, model: Option<Model>, next: Option<Model>)
    requires SameModel(model, next)
    ensures AppendRawItem(AppendRawItem(items, field, a, model), field, b, next) == AppendRawItem(items, field, a + b, next)
  {
    Grown(items, field, a, model, next);
    if Grows(items, model) {
      var last := items[|items| - 1];
      assert last.content + a + b == last.content + (a + b);
      assert last.reasoning.GetOr("") + a + b == last.reasoning.GetOr("") + (a + b);
    } else { assert a + b == a + b; }
  }

  /** Content and reasoning go to different fields of one bubble, so their order does not matter. */
  lemma AppendSwap(items: seq<Item>, reasoning: string, content: string, model: Option<Model>, next: Option<Model>)
    requires SameModel(model, next)
    ensures AppendRawItem(AppendRawItem(items, Reasoning, reasoning, model), Content, content, next) ==
      AppendRawItem(AppendRawItem(items, Content, content, next), Reasoning, reasoning, next)
  {
    Grown(items, Reasoning, reasoning, model, next);
    Grown(items, Content, content, next, next);
    SameModelLaws(next, next, next);
    if !Grows(items, next) { assert "" + content == content && "" + reasoning == reasoning; }
  }

  /** The model a piece is written with is replaced by that of the piece written after it. */
  lemma LaterModel(items: seq<Item>, fieldA: Field, a: string, fieldB: Field, b: string, model: Option<Model>,
                   next: Option<Model>)
    requires SameModel(model, next)
    ensures AppendRawItem(AppendRawItem(items, fieldA, a, model), fieldB, b, next) ==
      AppendRawItem(AppendRawItem(items, fieldA, a, next), fieldB, b, next)
  {
    Grown(items, fieldA, a, model, next);
    SameModelLaws(next, next, next);
    Grown(items, fieldA, a, next, next);
  }

  /** A delta that joins the buffers has the effect of a delta appended after them. */
  lemma FlushCommutes(items: seq<Item>, content: string, reasoning: string, model: Option<Model>, field: Field,
                      text: string, next: Option<Model>)
    requires text != "" && (content != "" || reasoning != "" ==> SameModel(model, next))
    ensures AppendRawItem(FlushInto(items, content, reasoning, model), field, text, next) ==
      FlushInto(items, if field.Content? then content + text else content, if field.Reasoning? then reasoning + text else reasoning, next)
  {
    hide Grows, SameModel;
    if content == "" && reasoning == "" {
      assert "" + text == text;
    } else if field.Content? {
      if reasoning == "" { AppendTwice(items, Content, content, text, model, next); }
      else {
        var c := if content != "" then AppendRawItem(items, Content, content, model) else items;
        AppendSwap(c, reasoning, text, model, next);
        if content != "" { AppendTwice(items, Content, content, text, model, next); } else { assert "" + text == text; }
      }
    } else {
      var c := if content != "" then AppendRawItem(items, Content, content, model) else items;
      if reasoning != "" { AppendTwice(c, Reasoning, reasoning, text, model, next); } else { assert "" + text == text; }
      if content != "" { LaterModel(items, Content, content, Reasoning, reasoning + text, model, next); }
    }
  }

  // ----- The relation between the two pages -----------------------------------------------------------

  predicate Buffered(p: Page) {
    p.content != "" || p.reasoning != ""
  }

  /** An unset timer means empty buffers, and what is buffered belongs to the session on screen. */
  predicate BatchOk(p: Page) {
    (!p.timer ==> !Buffered(p)) && (Buffered(p) ==> p.batchSid == p.session && p.session != "")
  }

  lemma FlushIs(p: Page)
    requires BatchOk(p)
    ensures Flush(p) == p.(timer := false, content := "", reasoning := "", items := FlushInto(p.items, p.content, p.reasoning, p.batchModel))
    ensures FlushNow(p).items == FlushInto(p.items, p.content, p.reasoning, p.batchModel)
    ensures BatchOk(Flush(p)) && BatchOk(FlushNow(p)) && !Buffered(FlushNow(p)) && !FlushNow(p).timer
    ensures FlushNow(p) == p.(timer := false, content := "", reasoning := "", items := FlushInto(p.items, p.content, p.reasoning, p.batchModel))
  {
  }

  predicate Related(p: Page, q: Plain) {
    BatchOk(p) && p.session == q.session && p.liveModel == q.liveModel &&
    q.items == FlushInto(p.items, p.content, p.reasoning, p.batchModel)
  }

  lemma DeltaRelated(p: Page, q: Plain, field: Field, text: Chunk)
    requires Related(p, q)
    ensures Related(Step(p, Delta(field, text)), PlainStep(q, Delta(field, text)))
  {
    hide FlushInto, AppendRawItem, SameModel;
    if p.session != "" {
      var a := if p.batchSid != "" && p.batchSid != p.session then Discard(p) else p;
      FlushIs(a);
      var b := if a.batchSid == p.session && !SameModel(a.batchModel, p.liveModel) then FlushNow(a) else a;
      FlushNothing(p.items, p.batchModel);
      FlushNothing(a.items, a.batchModel);
      FlushNothing(b.items, b.batchModel);
      FlushCommutes(b.items, b.content, b.reasoning, b.batchModel, field, text, p.liveModel);
    }
  }

  lemma FlushNothing(items: seq<Item>, model: Option<Model>)
    ensures FlushInto(items, "", "", model) == items
  {
  }

  lemma StepRelated(p: Page, q: Plain, e: Event)
    requires Related(p, q) && Enabled(p, e) && (e.StreamReset? ==> !p.timer)
    ensures Related(Step(p, e), PlainStep(q, e))
  {
    hide FlushInto, ApplyStreamEvent;
    FlushIs(p);
    forall items, model { FlushNothing(items, model); }
    if e.Delta? { DeltaRelated(p, q, e.field, e.text); }
  }

  /** No send starts or stops a stream while text is waiting in the buffers. */
  ghost predicate Calm(p: Page, events: seq<Event>)
    decreases events
  {
    events != [] ==> (events[0].StreamReset? ==> !p.timer) && Calm(Step(p, events[0]), events[1..])
  }

  lemma {:induction false} RunRelated(p: Page, q: Plain, events: seq<Event>)
    requires Related(p, q) && Legal(p, events) && Calm(p, events)
    ensures Related(Run(p, events), PlainRun(q, events))
    decreases events
  {
    hide Related, Step, PlainStep;
    if events != [] {
      StepRelated(p, q, events[0]);
      RunRelated(Step(p, events[0]), PlainStep(q, events[0]), events[1..]);
    }
  }

  /** After a final flush the batched page shows what immediate appending shows. */
  lemma BatchingTransparent(events: seq<Event>)
    requires Legal(Blank, events) && Calm(Blank, events)
    ensures Flush(Run(Blank, events)).items == PlainRun(Plain("", [], None), events).items
    ensures !Run(Blank, events).timer ==> Run(Blank, events).content == "" && Run(Blank, events).reasoning == ""
  {
    RunRelated(Blank, Plain("", [], None), events);
    FlushIs(Run(Blank, events));
  }

  lemma AppendGrows(items: seq<Item>, field: Field, text: string, model: Option<Model>)
    requires text != ""
    ensures AppendRawItem(items, field, text, model) != items
  {
    if Grows(items, model) {
      var last := items[|items| - 1];
      var r := AppendRawItem(items, field, text, model);
      assert |last.content + text| > |last.content| && |last.reasoning.GetOr("") + text| > |last.reasoning.GetOr("")|;
      assert r[|items| - 1] != last;
    }
  }

  /** Starting or stopping a stream throws waiting text away: it is transparent exactly when no timer is running. */
  lemma ResetExactly(p: Page, q: Plain)
    requires Related(p, q) && (p.timer ==> Buffered(p))
    ensures Related(Step(p, StreamReset), PlainStep(q, StreamReset)) <==> !p.timer
  {
    FlushIs(p);
    FlushNothing(p.items, None);
    if p.timer {
      FlushChanges(p.items, p.content, p.reasoning, p.batchModel);
    }
  }

  lemma FlushChanges(items: seq<Item>, content: string, reasoning: string, model: Option<Model>)
    requires content != "" || reasoning != ""
    ensures FlushInto(items, content, reasoning, model) != items
  {
    if content != "" {
      AppendGrows(items, Content, content, model);
      if reasoning != "" {
        SameModelLaws(model, model, model);
        Grown(items, Content, content, model, model);
        var c := AppendRawItem(items, Content, content, model);
        assert |AppendRawItem(c, Reasoning, reasoning, model)| == |c|;
        assert AppendRawItem(c, Reasoning, reasoning, model)[|c| - 1].content == c[|c| - 1].content;
        if Grows(items, model) { assert |c[|c| - 1].content| > |items[|items| - 1].content|; }
      }
    } else { AppendGrows(items, Reasoning, reasoning, model); }
  }

  /** A running timer means that text is waiting, in every reachable page. */
  lemma {:induction false} TimerMeansText(p: Page, events: seq<Event>)
    requires (p.timer ==> Buffered(p)) && Legal(p, events)
    ensures Run(p, events).timer ==> Buffered(Run(p, events))
    decreases events
  {
    if events != [] { TimerMeansText(Step(p, events[0]), events[1..]); }
  }

  // ----- Tool results ----------------------------------------------------------------------------------

  /** A result closes the latest open call of that name, and only that item changes. */
  lemma ResultClosesLatest(items: seq<Item>, name: string, summary: Option<string>, output: Option<string>, i: nat)
    requires i < |items| && items[i].Tool? && items[i].name == name && items[i].result.None?
    requires forall k :: i < k < |items| ==> !(items[k].Tool? && items[k].name == name && items[k].result.None?)
    ensures var after := ApplyStreamEvent(items, CallReturned(name, summary, output));
            |after| == |items| && after[i].result.Some? && (forall k :: 0 <= k < |items| && k != i ==> after[k] == items[k]) &&
            after[i] == items[i].(result := after[i].result) && (output.Some? ==> after[i].result == output)
  {
  }

  // ----- Text that a reset loses -------------------------------------------------------------------------

  const Interrupted := [Switched("s"), Delta(Content, "x"), StreamReset]

  /** A run in which a stream is stopped while its text waits in the buffers: the text is never shown. */
  lemma InterruptedRun()
    ensures Legal(Blank, Interrupted) && Step(Step(Blank, Interrupted[0]), Interrupted[1]).timer
    ensures Flush(Run(Blank, Interrupted)).items == []
    ensures |PlainRun(Plain("", [], None), Interrupted).items| == 1
  {
    var p1, q1 := Step(Blank, Switched("s")), PlainStep(Plain("", [], None), Switched("s"));
    var p2, q2 := Step(p1, Delta(Content, "x")), PlainStep(q1, Delta(Content, "x"));
    assert Interrupted[1..] == [Delta(Content, "x"), StreamReset] && Interrupted[1..][1..] == [StreamReset];
    assert p2.timer && p2.items == [] && |q2.items| == 1;
  }
}
