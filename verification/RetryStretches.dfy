/** Which calls of `run` reach the server, and how long a token is kept. */
module RetryStretches {
  import opened Retry

  // ----- Where stretches end, and which calls execute ---------------------------------------------------

  /** A stretch of `key` ends with a reset, or with a refresh of its run that follows a success or finds the effect applied. */
  lemma StretchEnds(s: State, e: Event, key: Key)
    requires Enabled(s, e)
    ensures Boundary(Step(s, e), key) == Boundary(s, key) +
            (if e.Reset? then 1
             else if e.RefreshSettles? && s.runs[e.run].key == key && (s.runs[e.run].phase == Refreshing(false) || e.confirmed) then 1
             else 0)
  {
  }

  /** `execute` has been called for `key` since its last boundary. */
  predicate Tried(s: State, key: Key) {
    exists i :: 0 <= i < |s.executions| && s.executions[i].key == key && s.executions[i].boundary == Boundary(s, key)
  }

  lemma StepTried(s: State, e: Event, key: Key)
    requires Enabled(s, e) && (key in s.retryTokens ==> Tried(s, key)) && key in Step(s, e).retryTokens
    ensures Tried(Step(s, e), key)
  {
    var t := Step(s, e);
    if key in s.retryTokens {
      var i :| 0 <= i < |s.executions| && s.executions[i].key == key && s.executions[i].boundary == Boundary(s, key);
      assert t.executions[i] == s.executions[i];
    } else { assert t.executions[|s.executions|].key == key; }
  }

  lemma {:induction false} RunTried(s: State, events: seq<Event>, key: Key)
    requires Legal(s, events) && (key in s.retryTokens ==> Tried(s, key))
    ensures key in Run(s, events).retryTokens ==> Tried(Run(s, events), key)
    decreases events
  {
    if events != [] {
      var next := Step(s, events[0]);
      if key in next.retryTokens { StepTried(s, events[0], key); }
      hide Step, Tried;
      RunTried(next, events[1..], key);
    }
  }

  /** A call of `run` executes if and only if no run is under way and it can have a token: a fresh one that `prepare` makes, or
      the one `execute` has already been called with since the last boundary of the key.  Otherwise nothing happens. */
  lemma ExecutesExactly(s: State, key: Key, prepared: bool)
    requires Reachable(s)
    ensures var t := Step(s, Start(key, prepared));
            if !s.pending && (prepared || Tried(s, key)) then
              |t.executions| == |s.executions| + 1 && t.executions[..|s.executions|] == s.executions &&
              t.executions[|s.executions|].key == key && t.executions[|s.executions|].boundary == Boundary(s, key) && t.pending
            else t == s
  {
    ReachableInv(s);
    var events :| Legal(Init, events) && s == Run(Init, events);
    RunTried(Init, events, key);
    if Tried(s, key) {
      var i :| 0 <= i < |s.executions| && s.executions[i].key == key && s.executions[i].boundary == Boundary(s, key);
      assert ExecutionOk(s, i);
    }
    hide Run, Legal, Inv;
  }
}
