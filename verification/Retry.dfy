/** The durable mutation controller of src/lib/async-guard.ts, against a server that runs each token at most once and may
    fail after the effect, or apply a request late. */
module Retry {
  type Key = string
  type Token = nat        // what `prepare` makes: fresh every time

  datatype Phase = Executing | Refreshing(failed: bool)

  datatype RunState = RunState(key: Key, token: Token, phase: Phase)

  /** One call of `execute`; the boundary counts the confirmations of its key and the resets before it. */
  datatype Execution = Execution(key: Key, boundary: nat, token: Token)

  datatype State = State(
    pending: bool,
    retryTokens: map<Key, Token>,
    runs: map<nat, RunState>,          // bodies of `run` that are past the busy check and not over
    nextRun: nat,
    nextToken: nat,
    applied: set<Token>,               // tokens the server has seen
    effects: seq<Token>,               // what the server has done
    // Ledger:
    executions: seq<Execution>,
    confirms: map<Key, nat>,
    resets: nat,
    reported: seq<Token>)              // tokens of runs reported applied

  const Init := State(false, map[], map[], 0, 0, {}, [], [], map[], 0, [])

  function Confirms(s: State, key: Key): nat {
    if key in s.confirms then s.confirms[key] else 0
  }

  function Boundary(s: State, key: Key): nat {
    s.resets + Confirms(s, key)
  }

  datatype Event =
    | Start(key: Key, prepared: bool)               // run(mutation); `prepare` may throw
    | ServerApplies(token: Token)
    | ExecuteSettles(run: nat, ok: bool)
    | RefreshSettles(run: nat, confirmed: bool)     // refresh is over, and `applied` has been asked
    | Reset

  predicate Enabled(s: State, e: Event) {
    match e
    case Start(_, _) => true
    case ServerApplies(token) => exists i :: 0 <= i < |s.executions| && s.executions[i].token == token
    case ExecuteSettles(r, ok) => r in s.runs && s.runs[r].phase.Executing? && (ok ==> s.runs[r].token in s.applied)
    case RefreshSettles(r, confirmed) =>
      r in s.runs && s.runs[r].phase.Refreshing? && (confirmed ==> s.runs[r].token in s.applied)    // the check is sound
    case Reset => true
  }

  function TokenFor(s: State, key: Key): Token {
    if key in s.retryTokens then s.retryTokens[key] else s.nextToken
  }

  function Starts(s: State, key: Key, prepared: bool): State {
    if s.pending || (key !in s.retryTokens && !prepared) then s else
    var token := TokenFor(s, key);
    s.(pending := true, retryTokens := s.retryTokens[key := token], runs := s.runs[s.nextRun := RunState(key, token, Executing)],
       nextRun := s.nextRun + 1, nextToken := if key in s.retryTokens then s.nextToken else s.nextToken + 1,
       executions := s.executions + [Execution(key, Boundary(s, key), token)])
  }

  function Concludes(s: State, r: nat, confirmed: bool): State
    requires r in s.runs && s.runs[r].phase.Refreshing?
  {
    var (key, token) := (s.runs[r].key, s.runs[r].token);
    if !s.runs[r].phase.failed || confirmed then
      s.(pending := false, runs := s.runs - {r}, retryTokens := s.retryTokens - {key},
         confirms := s.confirms[key := Confirms(s, key) + 1],
         reported := s.reported + [token])
    else s.(pending := false, runs := s.runs - {r})
  }

  function Step(s: State, e: Event): State
    requires Enabled(s, e)
  {
    match e
    case Start(key, prepared) => Starts(s, key, prepared)
    case ServerApplies(token) => if token in s.applied then s else s.(applied := s.applied + {token}, effects := s.effects + [token])
    case ExecuteSettles(r, ok) => s.(runs := s.runs[r := s.runs[r].(phase := Refreshing(!ok))])
    case RefreshSettles(r, confirmed) => Concludes(s, r, confirmed)
    case Reset => s.(retryTokens := map[], resets := s.resets + 1)
  }

  ghost predicate Legal(s: State, events: seq<Event>)
    decreases events
  {
    events != [] ==> Enabled(s, events[0]) && Legal(Step(s, events[0]), events[1..])
  }

  function Run(s: State, events: seq<Event>): State
    requires Legal(s, events)
    decreases events
  {
    if events == [] then s else Run(Step(s, events[0]), events[1..])
  }

  // ----- The invariant ---------------------------------------------------------------------------

  ghost predicate RunsOk(s: State) {
    (forall r :: r in s.runs ==> s.pending && r == s.nextRun - 1) &&
    (forall r :: r in s.runs && s.runs[r].phase == Refreshing(false) ==> s.runs[r].token in s.applied) &&
    (s.pending ==> s.nextRun > 0 && s.nextRun - 1 in s.runs)
  }

  /** The execution belongs to the current stretch of its key, whose token the controller still holds, or to an earlier one. */
  predicate ExecutionOk(s: State, i: nat)
    requires i < |s.executions|
  {
    var x := s.executions[i];
    x.boundary <= Boundary(s, x.key) && x.token < s.nextToken &&
    (x.boundary == Boundary(s, x.key) ==> x.key in s.retryTokens && s.retryTokens[x.key] == x.token)
  }

  /** A token the controller holds has only been used in the current stretch of its key. */
  predicate HolderOk(s: State, i: nat, key: Key)
    requires i < |s.executions| && key in s.retryTokens
  {
    s.retryTokens[key] == s.executions[i].token ==> s.executions[i].key == key && s.executions[i].boundary == Boundary(s, key)
  }

  ghost predicate TokensOk(s: State) {
    (forall i :: 0 <= i < |s.executions| ==> ExecutionOk(s, i)) &&
    (forall key :: key in s.retryTokens ==> s.retryTokens[key] < s.nextToken) &&
    (forall i, key :: 0 <= i < |s.executions| && key in s.retryTokens ==> HolderOk(s, i, key)) &&
    (forall a, b :: a in s.retryTokens && b in s.retryTokens && s.retryTokens[a] == s.retryTokens[b] ==> a == b)
  }

  predicate SameStretch(s: State, i: nat, j: nat)
    requires i < |s.executions| && j < |s.executions|
  {
    s.executions[i].token == s.executions[j].token <==>
      s.executions[i].key == s.executions[j].key && s.executions[i].boundary == s.executions[j].boundary
  }

  /** Equal tokens and equal stretches go together. */
  ghost predicate StretchesOk(s: State) {
    forall i, j :: 0 <= i < |s.executions| && 0 <= j < |s.executions| ==> SameStretch(s, i, j)
  }

  /** `execute` has been called with this token. */
  predicate Executed(s: State, token: Token) {
    exists i :: 0 <= i < |s.executions| && s.executions[i].token == token
  }

  /** Nothing has an effect, runs or is reported but what `execute` has been called with. */
  ghost predicate OriginsOk(s: State) {
    (forall t :: t in s.effects ==> Executed(s, t)) && (forall r :: r in s.runs ==> Executed(s, s.runs[r].token)) &&
    (forall i :: 0 <= i < |s.reported| ==> Executed(s, s.reported[i]))
  }

  ghost predicate EffectsOk(s: State) {
    (forall t :: t in s.applied <==> t in s.effects) &&
    (forall i, j :: 0 <= i < j < |s.effects| ==> s.effects[i] != s.effects[j]) &&
    (forall i :: 0 <= i < |s.reported| ==> s.reported[i] in s.applied)
  }

  ghost predicate Inv(s: State) {
    RunsOk(s) && TokensOk(s) && StretchesOk(s) && EffectsOk(s) && OriginsOk(s)
  }

  lemma StepRuns(s: State, e: Event)
    requires RunsOk(s) && Enabled(s, e)
    ensures RunsOk(Step(s, e))
  {
  }

  lemma StepExecution(s: State, e: Event, i: nat)
    requires TokensOk(s) && Enabled(s, e) && i < |Step(s, e).executions|
    ensures ExecutionOk(Step(s, e), i)
  {
    if i < |s.executions| { assert ExecutionOk(s, i); }
  }

  lemma StepHolder(s: State, e: Event, i: nat, key: Key)
    requires TokensOk(s) && Enabled(s, e) && i < |Step(s, e).executions| && key in Step(s, e).retryTokens
    ensures HolderOk(Step(s, e), i, key)
  {
    if i < |s.executions| {
      assert ExecutionOk(s, i);
      if key in s.retryTokens { assert HolderOk(s, i, key); }
    }
  }

  lemma StepTokens(s: State, e: Event)
    requires Inv(s) && Enabled(s, e)
    ensures TokensOk(Step(s, e))
  {
    var t := Step(s, e);
    assert forall a, b :: a in t.retryTokens && b in t.retryTokens && t.retryTokens[a] == t.retryTokens[b] ==> a == b;
    assert forall key :: key in t.retryTokens ==> t.retryTokens[key] < t.nextToken;
    forall i | 0 <= i < |t.executions| ensures ExecutionOk(t, i) { StepExecution(s, e, i); }
    forall i, key | 0 <= i < |t.executions| && key in t.retryTokens ensures HolderOk(t, i, key) { StepHolder(s, e, i, key); }
    hide ExecutionOk, HolderOk, Step;
  }

  lemma StepStretches(s: State, e: Event)
    requires Inv(s) && Enabled(s, e)
    ensures StretchesOk(Step(s, e))
  {
    var t := Step(s, e);
    if t.executions != s.executions {
      forall i | 0 <= i < |s.executions| ensures SameStretch(t, i, |s.executions|) {
        assert ExecutionOk(s, i);
        if e.key in s.retryTokens { assert HolderOk(s, i, e.key); }
      }
      forall i, j | 0 <= i < |t.executions| && 0 <= j < |t.executions| ensures SameStretch(t, i, j) {
        if i < |s.executions| && j < |s.executions| { assert SameStretch(s, i, j); }
        else if i < |s.executions| { assert SameStretch(t, i, |s.executions|); }
        else if j < |s.executions| { assert SameStretch(t, j, |s.executions|); }
      }
    } else {
      forall i, j | 0 <= i < |t.executions| && 0 <= j < |t.executions| ensures SameStretch(t, i, j) { assert SameStretch(s, i, j); }
    }
  }

  lemma StepEffects(s: State, e: Event)
    requires Inv(s) && Enabled(s, e)
    ensures EffectsOk(Step(s, e))
  {
  }

  lemma ExecutedStays(s: State, e: Event, token: Token)
    requires Enabled(s, e) && Executed(s, token)
    ensures Executed(Step(s, e), token)
  {
    var i :| 0 <= i < |s.executions| && s.executions[i].token == token;
    assert Step(s, e).executions[i] == s.executions[i];
  }

  lemma StepOrigins(s: State, e: Event)
    requires OriginsOk(s) && Enabled(s, e)
    ensures OriginsOk(Step(s, e))
  {
    var t := Step(s, e);
    forall token | Executed(s, token) ensures Executed(t, token) { ExecutedStays(s, e, token); }
    if e.Start? && t.executions != s.executions { assert Executed(t, t.executions[|s.executions|].token); }
    hide Executed;
  }

  lemma StepKeeps(s: State, e: Event)
    requires Inv(s) && Enabled(s, e)
    ensures Inv(Step(s, e))
  {
    StepRuns(s, e);
    StepTokens(s, e);
    StepStretches(s, e);
    StepEffects(s, e);
    StepOrigins(s, e);
  }

  lemma {:induction false} RunKeeps(s: State, events: seq<Event>)
    requires Inv(s) && Legal(s, events)
    ensures Inv(Run(s, events))
    decreases events
  {
    if events != [] {
      StepKeeps(s, events[0]);
      hide Inv;
      RunKeeps(Step(s, events[0]), events[1..]);
    }
  }

  ghost predicate Reachable(s: State) {
    exists events :: Legal(Init, events) && s == Run(Init, events)
  }

  lemma ReachableInv(s: State)
    requires Reachable(s)
    ensures Inv(s)
  {
    var events :| Legal(Init, events) && s == Run(Init, events);
    RunKeeps(Init, events);
  }

  // ----- Theorems -----------------------------------------------------------------------------------

  lemma NoOverlap(s: State, a: nat, b: nat)
    requires Reachable(s) && a in s.runs && b in s.runs
    ensures a == b && s.pending
  {
    ReachableInv(s);
  }

  /** Between two boundaries of a key, a confirmation or a reset, all executions carry one token, used nowhere else. */
  lemma OneToken(s: State, i: nat, j: nat)
    requires Reachable(s) && i < |s.executions| && j < |s.executions|
    ensures s.executions[i].token == s.executions[j].token <==>
      s.executions[i].key == s.executions[j].key && s.executions[i].boundary == s.executions[j].boundary
  {
    ReachableInv(s);
    assert SameStretch(s, i, j);
  }

  /** An execution of `key` with this boundary carried the token. */
  predicate InStretch(s: State, token: Token, key: Key, boundary: nat) {
    exists i :: 0 <= i < |s.executions| && s.executions[i] == Execution(key, boundary, token)
  }

  /** How many of the first `n` effects belong to executions of `key` with this boundary. */
  ghost function EffectsOf(s: State, key: Key, boundary: nat, n: nat): nat
    requires n <= |s.effects|
  {
    if n == 0 then 0 else EffectsOf(s, key, boundary, n - 1) + if InStretch(s, s.effects[n - 1], key, boundary) then 1 else 0
  }

  lemma StretchToken(s: State, a: Token, b: Token, key: Key, boundary: nat)
    requires Reachable(s) && InStretch(s, a, key, boundary) && InStretch(s, b, key, boundary)
    ensures a == b
  {
    var i :| 0 <= i < |s.executions| && s.executions[i] == Execution(key, boundary, a);
    var j :| 0 <= j < |s.executions| && s.executions[j] == Execution(key, boundary, b);
    OneToken(s, i, j);
  }

  lemma {:induction false} EffectsCounted(s: State, key: Key, boundary: nat, n: nat)
    requires Reachable(s) && n <= |s.effects|
    ensures EffectsOf(s, key, boundary, n) == if exists i :: 0 <= i < n && InStretch(s, s.effects[i], key, boundary) then 1 else 0
  {
    if n > 0 {
      EffectsCounted(s, key, boundary, n - 1);
      ReachableInv(s);
      hide Inv, InStretch, Reachable;
      assert EffectsOk(s);
      forall i | 0 <= i < n - 1 && InStretch(s, s.effects[i], key, boundary) ensures !InStretch(s, s.effects[n - 1], key, boundary) {
        DistinctStretch(s, i, n - 1, key, boundary);
      }
    }
  }

  lemma DistinctStretch(s: State, i: nat, j: nat, key: Key, boundary: nat)
    requires Reachable(s) && i < j < |s.effects| && InStretch(s, s.effects[i], key, boundary)
    ensures !InStretch(s, s.effects[j], key, boundary)
  {
    ReachableInv(s);
    if InStretch(s, s.effects[j], key, boundary) { StretchToken(s, s.effects[i], s.effects[j], key, boundary); }
  }

  /** Between two boundaries of a key, a confirmation or a reset, all executions together have at most one effect, and
      exactly one once one of them is reported applied. */
  lemma AtMostOneEffect(s: State, key: Key, boundary: nat)
    requires Reachable(s)
    ensures EffectsOf(s, key, boundary, |s.effects|) <= 1
    ensures (exists t :: t in s.reported && InStretch(s, t, key, boundary)) ==> EffectsOf(s, key, boundary, |s.effects|) == 1
  {
    EffectsCounted(s, key, boundary, |s.effects|);
    ReachableInv(s);
    forall t | t in s.reported && InStretch(s, t, key, boundary)
      ensures exists i :: 0 <= i < |s.effects| && InStretch(s, s.effects[i], key, boundary)
    {
      assert t in s.effects;
    }
  }

  ghost predicate OnlyIn(s: State, t: Token, key: Key, boundary: nat) {
    InStretch(s, t, key, boundary) && forall k: Key, b: nat :: InStretch(s, t, k, b) ==> k == key && b == boundary
  }

  /** Every effect and every report belongs to a call of `execute`, hence to exactly one stretch of one key. */
  lemma OneStretch(s: State, t: Token)
    requires Reachable(s) && (t in s.effects || t in s.reported)
    ensures exists key: Key, boundary: nat :: OnlyIn(s, t, key, boundary)
  {
    ReachableInv(s);
    assert Executed(s, t);
    var i :| 0 <= i < |s.executions| && s.executions[i].token == t;
    var x := s.executions[i];
    forall k: Key, b: nat | InStretch(s, t, k, b) ensures k == x.key && b == x.boundary {
      var j :| 0 <= j < |s.executions| && s.executions[j] == Execution(k, b, t);
      OneToken(s, i, j);
    }
    assert InStretch(s, t, x.key, x.boundary);
    assert OnlyIn(s, t, x.key, x.boundary);
  }
}
