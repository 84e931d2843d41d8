/** `ensure_mcp`: the double-checked first load of a workspace's MCP servers (crates/kxen-core/src/workspace_runtime.rs). */
module McpGate {
  import opened Options

  datatype Pc =
    | Idle                    // before the first check
    | Waiting                 // for the mcp_load lock
    | Rechecking              // holds the lock, before the second check
    | Loading                 // holds the lock, in reload_for_workspace
    | ReloadWaiting           // `reload_mcp`, for the lock
    | Reloading               // `reload_mcp`, holds the lock
    | Finished(ok: bool)

  datatype State = State(
    loaded: bool,
    holder: Option<nat>,
    threads: seq<Pc>,
    loads: nat,               // successful loads by ensure_mcp
    reloads: nat,             // successful loads by reload_mcp
    invalidations: nat,
    began: nat,               // trust changes before the latest load started
    seen: nat)                // trust changes before the load that last set the flag

  const Init := State(false, None, [], 0, 0, 0, 0, 0)

  datatype Event =
    | CallEnsure
    | CallReload
    | FirstCheck(t: nat)
    | Acquire(t: nat)
    | SecondCheck(t: nat)
    | LoadEnds(t: nat, ok: bool)
    | Invalidate              // trust has changed

  predicate Holds(pc: Pc) {
    pc.Rechecking? || pc.Loading? || pc.Reloading?
  }

  predicate Enabled(s: State, e: Event) {
    match e
    case CallEnsure => true
    case CallReload => true
    case FirstCheck(t) => t < |s.threads| && s.threads[t].Idle?
    case Acquire(t) => t < |s.threads| && (s.threads[t].Waiting? || s.threads[t].ReloadWaiting?) && s.holder.None?
    case SecondCheck(t) => t < |s.threads| && s.threads[t].Rechecking?
    case LoadEnds(t, _) => t < |s.threads| && (s.threads[t].Loading? || s.threads[t].Reloading?)
    case Invalidate => true
  }

  function Moves(s: State, t: nat, pc: Pc): State
    requires t < |s.threads|
  {
    s.(threads := s.threads[t := pc])
  }

  function Step(s: State, e: Event): State
    requires Enabled(s, e)
  {
    match e
    case CallEnsure => s.(threads := s.threads + [Idle])
    case CallReload => s.(threads := s.threads + [ReloadWaiting])
    case FirstCheck(t) => Moves(s, t, if s.loaded then Finished(true) else Waiting)
    case Acquire(t) =>
      var first := s.threads[t].Waiting?;
      Moves(s, t, if first then Rechecking else Reloading).(holder := Some(t), began := if first then s.began else s.invalidations)
    case SecondCheck(t) =>
      Moves(s, t, if s.loaded then Finished(true) else Loading).(
        holder := if s.loaded then None else s.holder, began := if s.loaded then s.began else s.invalidations)
    case LoadEnds(t, ok) =>
      var first := s.threads[t].Loading?;
      Moves(s, t, Finished(ok)).(
        holder := None, loaded := s.loaded || ok,
        loads := if ok && first then s.loads + 1 else s.loads,
        reloads := if ok && !first then s.reloads + 1 else s.reloads,
        seen := if ok then s.began else s.seen)
    case Invalidate => s.(loaded := false, invalidations := s.invalidations + 1)
  }

  ghost predicate Legal(s: State, events: seq<Event>)
    decreases events
  {
    events != [] ==> Enabled(s, events[0]) && Legal(Step(s, events[0]), events[1..])
  }

  function Run(s: State, events: seq<Event>): State
    requires Legal(s, events)
    decreases events
  {
    if events == [] then s else Run(Step(s, events[0]), events[1..])
  }

  ghost predicate Inv(s: State) {
    (forall t :: 0 <= t < |s.threads| && Holds(s.threads[t]) ==> s.holder == Some(t)) &&
    (forall t :: 0 <= t < |s.threads| && s.threads[t].Loading? ==> !s.loaded) &&
    (s.loaded ==> s.loads + s.reloads >= 1) &&
    (forall t :: 0 <= t < |s.threads| && s.threads[t] == Finished(true) ==> s.loads + s.reloads >= 1) &&
    s.loads + (if s.loaded then 0 else 1) <= s.invalidations + 1
  }

  lemma StepKeeps(s: State, e: Event)
    requires Inv(s) && Enabled(s, e)
    ensures Inv(Step(s, e))
  {
  }

  lemma {:induction false} RunKeeps(s: State, events: seq<Event>)
    requires Inv(s) && Legal(s, events)
    ensures Inv(Run(s, events))
    decreases events
  {
    if events != [] {
      StepKeeps(s, events[0]);
      hide Inv;
      RunKeeps(Step(s, events[0]), events[1..]);
    }
  }

  ghost predicate Reachable(s: State) {
    exists events :: Legal(Init, events) && s == Run(Init, events)
  }

  lemma ReachableInv(s: State)
    requires Reachable(s)
    ensures Inv(s)
  {
    var events :| Legal(Init, events) && s == Run(Init, events);
    RunKeeps(Init, events);
  }

  /** Calls of ensure_mcp load at most once more often than trust changes; without trust changes at most once. */
  lemma LoadsBounded(s: State)
    requires Reachable(s)
    ensures s.loads <= s.invalidations + 1
  {
    ReachableInv(s);
  }

  /** A call reports success only after a load has succeeded. */
  lemma OkAfterLoad(s: State, t: nat)
    requires Reachable(s) && t < |s.threads| && s.threads[t] == Finished(true)
    ensures s.loads + s.reloads >= 1
  {
    ReachableInv(s);
  }

  /** Two loads never run at the same time. */
  lemma OneLoader(s: State, t: nat, u: nat)
    requires Reachable(s) && t < |s.threads| && u < |s.threads| && Holds(s.threads[t]) && Holds(s.threads[u])
    ensures t == u
  {
    ReachableInv(s);
  }

  /** The flag says loaded, but trust has changed since that load started. */
  predicate Stale(s: State) {
    s.loaded && s.seen < s.invalidations
  }

  predicate InLoad(s: State, t: nat) {
    t < |s.threads| && (s.threads[t].Loading? || s.threads[t].Reloading?)
  }

  predicate Ends(e: Event, t: nat) {
    e.LoadEnds? && e.t == t
  }

  /** Nobody else starts a load while one is under way. */
  lemma LoadStep(s: State, e: Event, t: nat)
    requires Inv(s) && Enabled(s, e) && InLoad(s, t) && !Ends(e, t)
    ensures InLoad(Step(s, e), t) && Step(s, e).began == s.began
    ensures Step(s, e).invalidations == s.invalidations + if e.Invalidate? then 1 else 0
  {
  }

  lemma {:induction false} LoadRun(s: State, events: seq<Event>, t: nat)
    requires Inv(s) && Legal(s, events) && InLoad(s, t) && forall e :: e in events ==> !Ends(e, t)
    ensures InLoad(Run(s, events), t) && Run(s, events).began == s.began
    ensures s.invalidations <= Run(s, events).invalidations
    ensures Run(s, events).invalidations == s.invalidations <==> Invalidate !in events
    decreases events
  {
    if events != [] {
      assert events[0] in events && forall e :: e in events <==> e == events[0] || e in events[1..];
      StepKeeps(s, events[0]);
      LoadStep(s, events[0], t);
      hide Inv, Step, Enabled;
      LoadRun(Step(s, events[0]), events[1..], t);
    }
  }

  /** A load that starts with event `e` leaves a stale flag behind exactly when trust changes before it ends: the change
      clears the flag, and the end of the load sets it again. */
  lemma StaleExactly(s: State, e: Event, t: nat, events: seq<Event>)
    requires Reachable(s) && Enabled(s, e) && ((e == SecondCheck(t) && !s.loaded) || (e == Acquire(t) && s.threads[t].ReloadWaiting?))
    requires Legal(Step(s, e), events) && forall f :: f in events ==> !Ends(f, t)
    ensures var u := Run(Step(s, e), events);
            Enabled(u, LoadEnds(t, true)) && (Stale(Step(u, LoadEnds(t, true))) <==> Invalidate in events)
  {
    ReachableInv(s);
    StepKeeps(s, e);
    LoadRun(Step(s, e), events, t);
  }

  /** Such a run exists. */
  lemma StaleRun()
    ensures var events := [CallEnsure, FirstCheck(0), Acquire(0), SecondCheck(0), Invalidate, LoadEnds(0, true)];
            Legal(Init, events) && Stale(Run(Init, events))
  {
    var s4 := Step(Step(Step(Step(Init, CallEnsure), FirstCheck(0)), Acquire(0)), SecondCheck(0));
    assert s4 == State(false, Some(0), [Loading], 0, 0, 0, 0, 0);
    var s6 := Step(Step(s4, Invalidate), LoadEnds(0, true));
    assert Stale(s6);
  }

  // ----- The gate as an object --------------------------------------------------------------------------

  /** The atomic flag and the async lock; the methods are the atomic actions of the calls that share them. */
  class Gate {
    var loaded: bool
    var holder: Option<nat>
    var threads: seq<Pc>               // suspended calls, kept by the async runtime
    ghost var loads: nat
    ghost var reloads: nat
    ghost var invalidations: nat
    ghost var began: nat
    ghost var seen: nat

    ghost function Abs(): State
      reads this
    {
      State(loaded, holder, threads, loads, reloads, invalidations, began, seen)
    }

    ghost predicate Valid()
      reads this
    {
      Inv(Abs())
    }

    constructor ()
      ensures Valid() && Abs() == Init
    {
      loaded, holder, threads := false, None, [];
      loads, reloads, invalidations, began, seen := 0, 0, 0, 0, 0;
    }

    /** `ensure_mcp` up to the lock. */
    method CheckFirst(t: nat)
      requires Valid() && Enabled(Abs(), FirstCheck(t))
      modifies this
      ensures Valid() && Abs() == Step(old(Abs()), FirstCheck(t))
    {
      StepKeeps(Abs(), FirstCheck(t));
      if loaded { threads := threads[t := Finished(true)]; } else { threads := threads[t := Waiting]; }
    }

    method Lock(t: nat)
      requires Valid() && Enabled(Abs(), Acquire(t))
      modifies this
      ensures Valid() && Abs() == Step(old(Abs()), Acquire(t))
    {
      StepKeeps(Abs(), Acquire(t));
      holder := Some(t);
      if threads[t].ReloadWaiting? { began := invalidations; }
      threads := threads[t := if threads[t].Waiting? then Rechecking else Reloading];
    }

    /** The check under the lock; on success the guard is dropped. */
    method CheckAgain(t: nat)
      requires Valid() && Enabled(Abs(), SecondCheck(t))
      modifies this
      ensures Valid() && Abs() == Step(old(Abs()), SecondCheck(t))
    {
      StepKeeps(Abs(), SecondCheck(t));
      if loaded {
        threads := threads[t := Finished(true)];
        holder := None;
      } else {
        threads := threads[t := Loading];
        began := invalidations;
      }
    }

    /** `reload_for_workspace` returns; the flag is stored only on success, and the guard is dropped either way. */
    method LoadReturns(t: nat, ok: bool)
      requires Valid() && Enabled(Abs(), LoadEnds(t, ok))
      modifies this
      ensures Valid() && Abs() == Step(old(Abs()), LoadEnds(t, ok))
    {
      StepKeeps(Abs(), LoadEnds(t, ok));
      if ok {
        if threads[t].Loading? { loads := loads + 1; } else { reloads := reloads + 1; }
        loaded := true;
        seen := began;
      }
      threads := threads[t := Finished(ok)];
      holder := None;
    }

    method InvalidateAfterTrustChange()
      requires Valid()
      modifies this
      ensures Valid() && Abs() == Step(old(Abs()), Invalidate)
    {
      StepKeeps(Abs(), Invalidate);
      loaded := false;
      invalidations := invalidations + 1;
    }
  }
}
