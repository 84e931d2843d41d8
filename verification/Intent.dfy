/** The session-intent protocol of src/lib/state.ts: which session is wanted, shown and activated on the backend.
    Promise continuations are separate steps, taken in any order the promises allow. */
module Intent {
  import opened Options

  /** A queued activation: `activationTail` lets one `session.activate` run at a time, in call order. */
  datatype Progress = Queued | InFlight(effective: bool) | Settled(ok: bool) | Done(ok: bool)

  datatype Switch = Switch(id: string, intent: nat, progress: Progress)

  /** A call of `ensureActiveSession`. */
  datatype Admission =
    | Checking(existing: string, origin: nat)          // in `await applyDraftModel(existing)`
    | Creating(origin: nat)                            // in `await sessionCreate()`
    | Modelling(origin: nat, id: string)               // in `await applyDraftModel(created.id)`
    | Refreshing(origin: nat, id: string, modelOk: bool)
    | Activating(origin: nat, id: string, switch: nat, modelOk: bool)   // in `await switchSession(created.id)`
    | Admitted(id: string, own: Option<nat>)           // returned, on the existing path or with its own switch
    | Refused

  /** What a call of `setActiveSessionId` or `switchSession` asks for. */
  datatype Ask = SetTo(id: string) | SwitchTo(id: string)

  datatype State = State(
    active: string,
    desired: string,
    revision: nat,
    backend: string,                 // the session of the last activation that took effect
    switches: seq<Switch>,
    admissions: seq<Admission>,
    creating: map<nat, nat>,         // in-flight creations by origin revision, shared by concurrent first sends
    // Ledger:
    asked: seq<Ask>)                 // every intent so far

  const Init := State("", "", 0, "", [], [], map[], [])

  datatype Event =
    | UserSets(id: string)                    // setActiveSessionId; newSession sets ""
    | UserSwitches(id: string)
    | RpcStarts(k: nat)
    | RpcTakesEffect(k: nat)
    | RpcSettles(k: nat, ok: bool)
    | SwitchResumes(k: nat)
    | Ensure
    | DraftModelSettles(e: nat, ok: bool)
    | CreateSettles(e: nat, created: Option<string>)
    | RefreshSettles(e: nat, ok: bool)
    | ActivationAwaited(e: nat)

  predicate Finished(p: Progress) {
    p.Settled? || p.Done?
  }

  /** The activation that the caller of `ensureActiveSession` awaits is over. */
  predicate Returning(s: State, a: nat)
    requires a < |s.admissions|
  {
    s.admissions[a].Activating? && s.admissions[a].switch < |s.switches| && s.switches[s.admissions[a].switch].progress.Done?
  }

  /** The reply to an activation has been taken in, and the continuations it sets off have not all run. */
  predicate Draining(s: State) {
    (exists k :: 0 <= k < |s.switches| && s.switches[k].progress.Settled?) ||
    exists a :: 0 <= a < |s.admissions| && Returning(s, a)
  }

  /** User events and replies are tasks of their own: they wait until the continuations of an activation have run. */
  predicate Enabled(s: State, e: Event) {
    match e
    case UserSets(_) => !Draining(s)
    case UserSwitches(_) => !Draining(s)
    case Ensure => true
    case RpcStarts(k) =>
      k < |s.switches| && s.switches[k].progress.Queued? && forall j :: 0 <= j < k ==> Finished(s.switches[j].progress)
    case RpcTakesEffect(k) => k < |s.switches| && s.switches[k].progress == InFlight(false)
    case RpcSettles(k, ok) =>
      k < |s.switches| && s.switches[k].progress.InFlight? && (ok ==> s.switches[k].progress.effective) && !Draining(s)
    case SwitchResumes(k) => k < |s.switches| && s.switches[k].progress.Settled?
    case DraftModelSettles(a, _) => a < |s.admissions| && (s.admissions[a].Checking? || s.admissions[a].Modelling?)
    case CreateSettles(a, id) => a < |s.admissions| && s.admissions[a].Creating? && (id.Some? ==> id.value != "")
    case RefreshSettles(a, _) => a < |s.admissions| && s.admissions[a].Refreshing?
    case ActivationAwaited(a) => a < |s.admissions| && Returning(s, a)
  }

  function Sets(s: State, id: string): State {
    s.(revision := s.revision + 1, desired := id, active := id, asked := s.asked + [SetTo(id)])
  }

  function Switches(s: State, id: string): State {
    s.(revision := s.revision + 1, desired := id, switches := s.switches + [Switch(id, s.revision + 1, Queued)],
       asked := s.asked + [SwitchTo(id)])
  }

  function Progresses(s: State, k: nat, p: Progress): State
    requires k < |s.switches|
  {
    s.(switches := s.switches[k := s.switches[k].(progress := p)])
  }

  predicate Newest(s: State, k: nat)
    requires k < |s.switches|
  {
    s.desired == s.switches[k].id && s.switches[k].intent == s.revision
  }

  /** What follows `await activation`: the newest intent is committed or withdrawn, any other is ignored. */
  function Resumes(s: State, k: nat): State
    requires k < |s.switches| && s.switches[k].progress.Settled?
  {
    var ok, id := s.switches[k].progress.ok, s.switches[k].id;
    Progresses(s, k, Done(ok)).(
      active := if ok && Newest(s, k) then id else s.active,
      desired := if !ok && Newest(s, k) then s.active else s.desired)
  }

  function Becomes(s: State, a: nat, admission: Admission): State
    requires a < |s.admissions|
  {
    s.(admissions := s.admissions[a := admission])
  }

  function Ensures(s: State): State {
    if s.desired != s.active then s.(admissions := s.admissions + [Refused])
    else if s.active != "" then s.(admissions := s.admissions + [Checking(s.active, s.revision)])
    else if s.revision in s.creating then s          // shares the creation in flight
    else s.(admissions := s.admissions + [Creating(s.revision)], creating := s.creating[s.revision := |s.admissions|])
  }

  /** A creation is over: `finally(() => pending.delete(key))`. */
  function Ends(s: State, a: nat, origin: nat, admission: Admission): State
    requires a < |s.admissions|
  {
    Becomes(s, a, admission).(creating := s.creating - {origin})
  }

  function ModelSettles(s: State, a: nat, ok: bool): State
    requires a < |s.admissions|
  {
    match s.admissions[a]
    case Checking(existing, origin) =>
      Becomes(s, a, if ok && s.revision == origin && s.active == existing then Admitted(existing, None) else Refused)
    case Modelling(origin, id) => Becomes(s, a, Refreshing(origin, id, ok))
    case _ => s
  }

  function Created(s: State, a: nat, id: Option<string>): State
    requires a < |s.admissions|
  {
    match s.admissions[a]
    case Creating(origin) => if id.None? then Ends(s, a, origin, Refused) else Becomes(s, a, Modelling(origin, id.value))
    case _ => s
  }

  /** After the refresh: give up if the draft has been left, else switch to the created session. */
  function Refreshed(s: State, a: nat, ok: bool): State
    requires a < |s.admissions|
  {
    match s.admissions[a]
    case Refreshing(origin, id, modelOk) =>
      if !ok || s.revision != origin || s.active != "" then Ends(s, a, origin, Refused)
      else Switches(Becomes(s, a, Activating(origin, id, |s.switches|, modelOk)), id)
    case _ => s
  }

  function Awaited(s: State, a: nat): State
    requires a < |s.admissions|
  {
    match s.admissions[a]
    case Activating(origin, id, k, modelOk) =>
      Ends(s, a, origin,
        if k < |s.switches| && s.switches[k].progress == Done(true) && s.active == id && modelOk then Admitted(id, Some(k)) else Refused)
    case _ => s
  }

  function Step(s: State, e: Event): State
    requires Enabled(s, e)
  {
    match e
    case UserSets(id) => Sets(s, id)
    case UserSwitches(id) => Switches(s, id)
    case RpcStarts(k) => Progresses(s, k, InFlight(false))
    case RpcTakesEffect(k) => Progresses(s, k, InFlight(true)).(backend := s.switches[k].id)
    case RpcSettles(k, ok) => Progresses(s, k, Settled(ok))
    case SwitchResumes(k) => Resumes(s, k)
    case Ensure => Ensures(s)
    case DraftModelSettles(a, ok) => ModelSettles(s, a, ok)
    case CreateSettles(a, id) => Created(s, a, id)
    case RefreshSettles(a, ok) => Refreshed(s, a, ok)
    case ActivationAwaited(a) => Awaited(s, a)
  }

  ghost predicate Legal(s: State, events: seq<Event>)
    decreases events
  {
    events != [] ==> Enabled(s, events[0]) && Legal(Step(s, events[0]), events[1..])
  }

  function Run(s: State, events: seq<Event>): State
    requires Legal(s, events)
    decreases events
  {
    if events == [] then s else Run(Step(s, events[0]), events[1..])
  }
}
