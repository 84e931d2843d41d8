/** `createReconciledMutation` with its pending flag and token map, one method per stretch between two waits. */
module RetryController {
  import opened Retry

  datatype Outcome = Busy | Failed | Started | AppliedNow

  function Launched(s: State, key: Key, token: Token): State {
    s.(retryTokens := s.retryTokens[key := token], runs := s.runs[s.nextRun := RunState(key, token, Executing)],
       nextRun := s.nextRun + 1, executions := s.executions + [Execution(key, Boundary(s, key), token)])
  }

  /** Starting a run with a remembered or a fresh token. */
  lemma StartsLaunch(s: State, key: Key)
    requires !s.pending
    ensures key in s.retryTokens ==> Starts(s, key, true) == Starts(s, key, false) == Launched(s.(pending := true), key, s.retryTokens[key])
    ensures key !in s.retryTokens ==>
      Starts(s, key, true) == Launched(s.(pending := true, nextToken := s.nextToken + 1), key, s.nextToken) && Starts(s, key, false) == s
  {
  }

  lemma StartStep(s: State, key: Key, prepared: bool)
    requires Inv(s)
    ensures Enabled(s, Start(key, prepared)) && Step(s, Start(key, prepared)) == Starts(s, key, prepared)
    ensures Inv(Starts(s, key, prepared)) && (s.pending ==> Starts(s, key, prepared) == s)
  {
    StepKeeps(s, Start(key, prepared));
    hide Inv;
  }

  lemma RefreshStep(s: State, r: nat, confirmed: bool)
    requires Inv(s) && Enabled(s, RefreshSettles(r, confirmed))
    ensures r in s.runs && s.runs[r].phase.Refreshing?
    ensures Step(s, RefreshSettles(r, confirmed)) == Concludes(s, r, confirmed) && Inv(Concludes(s, r, confirmed))
  {
    StepKeeps(s, RefreshSettles(r, confirmed));
    hide Inv;
  }

  class Controller {
    var pending: bool
    var retryTokens: map<Key, Token>
    var runs: map<nat, RunState>       // suspended bodies of `run`, kept by the promise runtime
    var nextRun: nat
    var nextToken: nat
    ghost var applied: set<Token>
    ghost var effects: seq<Token>
    ghost var executions: seq<Execution>
    ghost var confirms: map<Key, nat>
    ghost var resets: nat
    ghost var reported: seq<Token>

    ghost function Abs(): State
      reads this
    {
      State(pending, retryTokens, runs, nextRun, nextToken, applied, effects, executions, confirms, resets, reported)
    }

    ghost predicate Valid()
      reads this
    {
      Inv(Abs())
    }

    constructor ()
      ensures Valid() && Abs() == Init
    {
      pending, retryTokens, runs, nextRun, nextToken := false, map[], map[], 0, 0;
      applied, effects, executions, confirms, resets, reported := {}, [], [], map[], 0, [];
    }

    /** `run` up to `await mutation.execute(token)`. */
    method RunStarts(key: Key, prepared: bool) returns (outcome: Outcome)
      requires Valid()
      modifies this
      ensures Valid() && Abs() == Step(old(Abs()), Start(key, prepared))
      ensures outcome == if old(pending) then Busy else if key !in old(retryTokens) && !prepared then Failed else Started
    {
      hide Inv, Launched, Starts, Step, Enabled;
      StartStep(Abs(), key, prepared);
      if !pending { StartsLaunch(Abs(), key); }
      if pending { return Busy; }
      pending := true;
      var token: Token;
      if key in retryTokens { token := retryTokens[key]; }
      else if !prepared { pending := false; return Failed; }
      else { token := nextToken; nextToken := nextToken + 1; }
      Launch(key, token);
      return Started;
    }

    /** The token is remembered, and `execute` is called with it. */
    method Launch(key: Key, token: Token)
      modifies this`retryTokens, this`executions, this`runs, this`nextRun
      ensures Abs() == Launched(old(Abs()), key, token)
    {
      retryTokens := retryTokens[key := token];
      executions := executions + [Execution(key, resets + (if key in confirms then confirms[key] else 0), token)];
      runs := runs[nextRun := RunState(key, token, Executing)];
      nextRun := nextRun + 1;
    }

    method ExecuteSettled(r: nat, ok: bool)
      requires Valid() && Enabled(Abs(), ExecuteSettles(r, ok))
      modifies this
      ensures Valid() && Abs() == Step(old(Abs()), ExecuteSettles(r, ok))
    {
      StepKeeps(Abs(), ExecuteSettles(r, ok));
      hide Inv;
      runs := runs[r := runs[r].(phase := Refreshing(!ok))];
    }

    /** `run` after `await options.refresh()`; `confirmed` is what `mutation.applied` says, false without one. */
    method RefreshSettled(r: nat, confirmed: bool) returns (outcome: Outcome)
      requires Valid() && Enabled(Abs(), RefreshSettles(r, confirmed))
      modifies this
      ensures Valid() && Abs() == Step(old(Abs()), RefreshSettles(r, confirmed))
      ensures outcome == if old(runs)[r].phase.failed && !confirmed then Failed else AppliedNow
    {
      hide Inv, Step, Enabled;
      RefreshStep(Abs(), r, confirmed);
      var run := runs[r];
      runs := runs - {r};
      pending := false;
      if run.phase.failed && !confirmed { return Failed; }
      reported := reported + [run.token];
      confirms := confirms[run.key := (if run.key in confirms then confirms[run.key] else 0) + 1];
      retryTokens := retryTokens - {run.key};
      return AppliedNow;
    }

    method ResetTokens()
      requires Valid()
      modifies this
      ensures Valid() && Abs() == Step(old(Abs()), Reset)
    {
      StepKeeps(Abs(), Reset);
      hide Inv;
      retryTokens := map[];
      resets := resets + 1;
    }
  }
}
