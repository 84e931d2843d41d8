/** The batcher and the page variables it works on, updated in place
    (src/lib/delta-batch.ts, src/lib/session-events.ts, src/pages/Session.tsx). */
module DeltaBatcher {
  import opened Options
  import opened Timeline
  import opened Deltas
  import opened DeltaTheorems

  class SessionPage {
    var session: string
    var items: seq<Item>
    var content: string
    var reasoning: string
    var timer: bool
    var batchSid: string
    var batchModel: Option<Model>
    var liveModel: Option<Model>

    ghost function Abs(): Page
      reads this
    {
      Page(session, items, content, reasoning, timer, batchSid, batchModel, liveModel)
    }

    /** An unset timer means empty buffers. */
    ghost predicate Valid()
      reads this
    {
      BatchOk(Abs())
    }

    constructor ()
      ensures Abs() == Blank && Valid()
    {
      session, items, content, reasoning, timer := "", [], "", "", false;
      batchSid, batchModel, liveModel := "", None, None;
    }

    method AppendRaw(field: Field, text: string)
      modifies this`items
      ensures Abs() == Deltas.AppendRaw(old(Abs()), field, text)
    {
      if batchSid == "" || session != batchSid { return; }
      items := AppendRawItem(items, field, text, batchModel);
    }

    method Flush()
      modifies this`timer, this`content, this`reasoning, this`items
      ensures Abs() == Deltas.Flush(old(Abs()))
    {
      timer := false;
      var c, r := content, reasoning;
      content, reasoning := "", "";
      if c != "" { AppendRaw(Content, c); }
      if r != "" { AppendRaw(Reasoning, r); }
    }

    method FlushNow()
      modifies this`timer, this`content, this`reasoning, this`items
      ensures Abs() == Deltas.FlushNow(old(Abs()))
    {
      if timer { Flush(); }
    }

    method DiscardPendingDelta()
      modifies this
      ensures Abs() == Discard(old(Abs()))
    {
      timer := false;
      content, reasoning := "", "";
      batchSid, batchModel := "", None;
    }

    method Push(field: Field, text: string)
      modifies this`content, this`reasoning, this`timer
      ensures Abs() == Deltas.Push(old(Abs()), field, text)
    {
      match field {
        case Content => content := content + text;
        case Reasoning => reasoning := reasoning + text;
      }
      if !timer { timer := true; }
    }

    method AppendAssistant(field: Field, text: Chunk)
      requires Valid()
      modifies this
      ensures Valid() && Abs() == Step(old(Abs()), Delta(field, text))
    {
      ghost var p := Abs();
      hide Deltas.Flush, SameModel;
      if session == "" { return; }
      if batchSid != "" && batchSid != session { DiscardPendingDelta(); }
      if batchSid == session && !SameModel(batchModel, liveModel) { FlushNow(); }
      batchSid, batchModel := session, liveModel;
      Push(field, text);
      StaysOk(p, Delta(field, text));
    }

    /** The backwards scan of `applyStreamEvent` for the call a result belongs to. */
    method CloseCall(name: string, result: string)
      modifies this`items
      ensures var i := OpenCall(old(items), name, |old(items)|);
              items == if i.None? then old(items) else old(items)[i.value := old(items)[i.value].(result := Some(result))]
    {
      var i := |items|;
      while i > 0
        invariant 0 <= i <= |items| && items == old(items)
        invariant OpenCall(items, name, i) == OpenCall(items, name, |items|)
      {
        i := i - 1;
        var item := items[i];
        if item.Tool? && item.name == name && item.result.None? {
          items := items[i := item.(result := Some(result))];
          return;
        }
      }
    }

    method ToolEventArrived(e: ToolEvent)
      requires Valid()
      modifies this
      ensures Valid() && Abs() == Step(old(Abs()), ToolArrived(e))
    {
      ghost var p := Abs();
      FlushNow();
      match e {
        case CallReturned(name, summary, output) => CloseCall(name, if output.Some? then output.value else summary.GetOr(""));
        case _ => items := ApplyStreamEvent(items, e);
      }
      StaysOk(p, ToolArrived(e));
    }

    method TimerElapsed()
      requires Valid() && timer
      modifies this
      ensures Valid() && Abs() == Step(old(Abs()), TimerFired)
    {
      ghost var p := Abs();
      Flush();
      StaysOk(p, TimerFired);
    }

    method Done()
      requires Valid()
      modifies this
      ensures Valid() && Abs() == Step(old(Abs()), RunDone)
    {
      ghost var p := Abs();
      FlushNow();
      batchSid, batchModel, liveModel := "", None, None;
      StaysOk(p, RunDone);
    }

    method SwitchTo(id: string)
      requires Valid()
      modifies this
      ensures Valid() && Abs() == Step(old(Abs()), Switched(id))
    {
      if session != id {
        session := id;
        DiscardPendingDelta();
        liveModel := None;
        items := [];
      }
    }

    method ResetStream()
      requires Valid()
      modifies this
      ensures Valid() && Abs() == Step(old(Abs()), StreamReset)
    {
      DiscardPendingDelta();
      liveModel := None;
    }
  }

  lemma StaysOk(p: Page, e: Event)
    requires BatchOk(p)
    ensures BatchOk(Step(p, e))
  {
    FlushIs(p);
  }
}
