/** What every run of the session-intent protocol keeps. */
module IntentTheorems {
  import opened Options
  import opened Intent

  predicate Pending(s: State, k: nat) {
    k < |s.switches| && !s.switches[k].progress.Done?
  }

  /** The wanted session is the shown one, or the newest switch aims at it and is still under way. */
  ghost predicate DesiredOk(s: State) {
    s.desired == s.active || exists k: nat :: Pending(s, k) && Newest(s, k)
  }

  ghost predicate Ordered(s: State) {
    (forall j, k :: 0 <= j < k < |s.switches| ==> s.switches[j].intent < s.switches[k].intent) &&
    (forall k :: 0 <= k < |s.switches| ==> s.switches[k].intent <= s.revision) &&
    (forall j, k :: 0 <= j < k < |s.switches| && !s.switches[k].progress.Queued? ==> Finished(s.switches[j].progress))
  }

  predicate Effective(p: Progress) {
    p == InFlight(true) || p == Settled(true) || p == Done(true)
  }

  predicate Unstarted(p: Progress) {
    p.Queued? || p == InFlight(false)
  }

  /** Switch `k` is the last one that took effect. */
  ghost predicate Latest(s: State, k: nat) {
    k < |s.switches| && Effective(s.switches[k].progress) && forall j :: k < j < |s.switches| ==> Unstarted(s.switches[j].progress)
  }

  /** The backend is at the last activation that took effect. */
  ghost predicate BackendOk(s: State) {
    forall k: nat :: Latest(s, k) ==> s.backend == s.switches[k].id
  }

  function Origin(a: Admission): Option<nat> {
    match a
    case Creating(origin) => Some(origin)
    case Modelling(origin, _) => Some(origin)
    case Refreshing(origin, _, _) => Some(origin)
    case Activating(origin, _, _, _) => Some(origin)
    case _ => None
  }

  /** What a suspended call of `ensureActiveSession` can rely on. */
  predicate AdmissionOk(s: State, a: nat)
    requires a < |s.admissions|
  {
    (Origin(s.admissions[a]).Some? ==>
      Origin(s.admissions[a]).value in s.creating && s.creating[Origin(s.admissions[a]).value] == a) &&
    match s.admissions[a]
    case Checking(existing, origin) => origin <= s.revision && (s.revision == origin ==> s.active == s.desired == existing)
    case Activating(origin, id, k, _) => k < |s.switches| && s.switches[k].id == id && s.switches[k].intent == origin + 1
    case _ => true
  }

  ghost predicate AdmissionsOk(s: State) {
    forall a :: 0 <= a < |s.admissions| ==> AdmissionOk(s, a)
  }

  /** `setActiveSessionId(id)` has been called as intent `from` or later, counted from 0. */
  predicate SetSince(s: State, from: nat, id: string) {
    exists i :: from <= i < |s.asked| && s.asked[i] == SetTo(id)
  }

  /** What the newest intent has come to. */
  predicate NewestOk(s: State) {
    if s.asked == [] then s.active == "" && s.desired == "" else
    match s.asked[|s.asked| - 1]
    case SetTo(id) => s.active == s.desired == id
    case SwitchTo(id) =>
      s.switches != [] && var last := s.switches[|s.switches| - 1];
      last.intent == s.revision && last.id == id &&
      match last.progress
      case Done(ok) => s.desired == s.active && (ok ==> s.active == id)
      case _ => s.desired == id
  }

  predicate OnRecord(s: State, k: nat)
    requires k < |s.switches|
  {
    0 < s.switches[k].intent <= |s.asked| && s.asked[s.switches[k].intent - 1] == SwitchTo(s.switches[k].id)
  }

  ghost predicate AskedOk(s: State) {
    |s.asked| == s.revision && NewestOk(s) && forall k :: 0 <= k < |s.switches| ==> OnRecord(s, k)
  }

  /** While a created session waits for its activation, no later activation ends, and the session is shown only because
      of its own commit, or because it has been set directly. */
  predicate ReturnOk(s: State, a: nat)
    requires a < |s.admissions|
  {
    match s.admissions[a]
    case Modelling(_, id) => id != ""
    case Refreshing(_, id, _) => id != ""
    case Activating(origin, id, k, _) =>
      id != "" && k < |s.switches| && (forall j :: k < j < |s.switches| ==> !Finished(s.switches[j].progress)) &&
      (s.active == id ==>
        (SetSince(s, origin + 1, id) ||
         (s.revision == origin + 1 && s.desired == id && s.switches[k].progress == Done(true))))
    case _ => true
  }

  ghost predicate ReturnsOk(s: State) {
    forall a :: 0 <= a < |s.admissions| ==> ReturnOk(s, a)
  }

  ghost predicate Inv(s: State) {
    DesiredOk(s) && Ordered(s) && BackendOk(s) && AdmissionsOk(s) && AskedOk(s) && ReturnsOk(s)
  }

  // ----- Steps keep the invariant --------------------------------------------------------------

  /** The event enters a switch. */
  predicate Enters(s: State, e: Event)
    requires Enabled(s, e)
  {
    |Step(s, e).switches| > |s.switches|
  }

  lemma DesiredNew(s: State, e: Event)
    requires Enabled(s, e) && Enters(s, e)
    ensures Pending(Step(s, e), |s.switches|) && Newest(Step(s, e), |s.switches|)
  {
  }

  /** An intent under way stays so until it is resumed or another one is made. */
  lemma DesiredKept(s: State, e: Event, k: nat)
    requires Enabled(s, e) && !Enters(s, e) && Pending(s, k) && Newest(s, k)
    ensures var t := Step(s, e); t.desired == t.active || (Pending(t, k) && Newest(t, k))
  {
  }

  lemma DesiredSame(s: State, e: Event)
    requires Enabled(s, e) && !Enters(s, e) && s.desired == s.active
    ensures Step(s, e).desired == Step(s, e).active
  {
  }

  lemma StepDesired(s: State, e: Event)
    requires DesiredOk(s) && Enabled(s, e)
    ensures DesiredOk(Step(s, e))
  {
    hide Step, Enabled, Enters, Newest;
    if Enters(s, e) { DesiredNew(s, e); }
    else if s.desired == s.active { DesiredSame(s, e); }
    else {
      var k: nat :| Pending(s, k) && Newest(s, k);
      DesiredKept(s, e, k);
    }
  }

  lemma StepOrdered(s: State, e: Event)
    requires Ordered(s) && Enabled(s, e)
    ensures Ordered(Step(s, e))
  {
    if e.RpcStarts? || e.RpcTakesEffect? || e.RpcSettles? || e.SwitchResumes? { ProgressOrdered(s, e); }
    else { GrowthOrdered(s, e); }
  }

  lemma GrowthOrdered(s: State, e: Event)
    requires Ordered(s) && Enabled(s, e) && !e.RpcStarts? && !e.RpcTakesEffect? && !e.RpcSettles? && !e.SwitchResumes?
    ensures Ordered(Step(s, e))
  {
    var t := Step(s, e);
    assert s.revision <= t.revision;
    var id := if e.UserSwitches? then e.id
              else if e.RefreshSettles? && s.admissions[e.e].Refreshing? then s.admissions[e.e].id else "";
    assert t.switches == s.switches || (t.switches == Switches(s, id).switches && t.revision == s.revision + 1);
    hide Step, Enabled, Finished, Switches;
    SwitchesOrdered(s, id);
  }

  lemma SwitchesOrdered(s: State, id: string)
    requires Ordered(s)
    ensures Ordered(Switches(s, id)) && Switches(s, id).revision == s.revision + 1
  {
    hide Finished;
  }

  lemma ProgressOrdered(s: State, e: Event)
    requires Ordered(s) && Enabled(s, e) && (e.RpcStarts? || e.RpcTakesEffect? || e.RpcSettles? || e.SwitchResumes?)
    ensures Ordered(Step(s, e))
  {
    var p := Step(s, e).switches[e.k].progress;
    assert !p.Queued? && forall j :: 0 <= j < e.k ==> Finished(s.switches[j].progress);
    assert Finished(p) || forall j :: e.k < j < |s.switches| ==> s.switches[j].progress.Queued?;
    assert Step(s, e).switches == Progresses(s, e.k, p).switches && Step(s, e).revision == s.revision;
    hide Enabled, Step, Finished, Progresses;
    ProgressesOrdered(s, e.k, p);
  }

  lemma ProgressesOrdered(s: State, k: nat, p: Progress)
    requires Ordered(s) && k < |s.switches| && !p.Queued? && forall j :: 0 <= j < k ==> Finished(s.switches[j].progress)
    requires Finished(p) || forall j :: k < j < |s.switches| ==> s.switches[j].progress.Queued?
    ensures Ordered(Progresses(s, k, p))
  {
    hide Finished;
  }

  /** Every other switch keeps its id, its effect and its start; a settled or resumed one was effective before. */
  lemma SwitchBefore(s: State, e: Event, j: nat)
    requires Enabled(s, e) && j < |s.switches| && !(e.RpcTakesEffect? && e.k == j)
    ensures j < |Step(s, e).switches| && Step(s, e).switches[j].id == s.switches[j].id
    ensures Effective(Step(s, e).switches[j].progress) ==> Effective(s.switches[j].progress)
    ensures Unstarted(Step(s, e).switches[j].progress) ==> Unstarted(s.switches[j].progress)
  {
    hide Legal, Run;
    if e.RefreshSettles? { RefreshedBefore(s, e.e, e.ok, j); }
  }

  lemma RefreshedBefore(s: State, a: nat, ok: bool, j: nat)
    requires a < |s.admissions| && j < |s.switches|
    ensures j < |Refreshed(s, a, ok).switches| && Refreshed(s, a, ok).switches[j] == s.switches[j]
  {
  }

  /** A new switch starts out queued, and only an activation that takes effect moves the backend. */
  lemma SwitchBorn(s: State, e: Event)
    requires Enabled(s, e)
    ensures forall j :: |s.switches| <= j < |Step(s, e).switches| ==> Step(s, e).switches[j].progress.Queued?
    ensures !e.RpcTakesEffect? ==> Step(s, e).backend == s.backend
  {
  }

  /** The latest effective switch stays the latest until another takes effect. */
  lemma LatestBefore(s: State, e: Event, k: nat)
    requires Ordered(s) && Enabled(s, e) && Latest(Step(s, e), k) && !(e.RpcTakesEffect? && e.k == k)
    ensures Latest(s, k) && Step(s, e).backend == s.backend && Step(s, e).switches[k].id == s.switches[k].id
  {
    var t := Step(s, e);
    SwitchBorn(s, e);
    if k < |s.switches| { SwitchBefore(s, e, k); }
    if e.RpcTakesEffect? { EffectIsLater(s, e.k, k); }
    hide Step, Enabled, Ordered;
    forall j | k < j < |s.switches| ensures Unstarted(s.switches[j].progress) { SwitchBefore(s, e, j); }
  }

  /** An activation that takes effect is later than every effective one, which has ended. */
  lemma EffectIsLater(s: State, k: nat, j: nat)
    requires Ordered(s) && Enabled(s, RpcTakesEffect(k)) && j != k
    ensures !Latest(Step(s, RpcTakesEffect(k)), j)
  {
    var t := Step(s, RpcTakesEffect(k));
    assert t.switches[k].progress == InFlight(true);
    if k < j < |s.switches| { assert s.switches[j].progress.Queued?; }
  }

  lemma StepBackend(s: State, e: Event)
    requires Ordered(s) && BackendOk(s) && Enabled(s, e)
    ensures BackendOk(Step(s, e))
  {
    var t := Step(s, e);
    forall k: nat | Latest(t, k) ensures t.backend == t.switches[k].id {
      if !(e.RpcTakesEffect? && e.k == k) { LatestBefore(s, e, k); }
    }
  }

  lemma StepAdmissions(s: State, e: Event)
    requires AdmissionsOk(s) && Enabled(s, e)
    ensures AdmissionsOk(Step(s, e))
  {
    var t := Step(s, e);
    hide Step, Enabled, AdmissionOk;
    forall a: nat | a < |t.admissions| ensures AdmissionOk(t, a) {
      if a < |s.admissions| { AdmissionKept(s, e, a, Resumed(s, e, a)); } else { AdmissionNew(s, e, a); }
    }
  }

  /** The admission that the event continues, if it is one, else `a`. */
  function Resumed(s: State, e: Event, a: nat): (i: nat)
    requires Enabled(s, e) && a < |s.admissions|
    ensures i < |s.admissions|
  {
    if e.DraftModelSettles? || e.CreateSettles? || e.RefreshSettles? || e.ActivationAwaited? then e.e else a
  }

  lemma AdmissionKept(s: State, e: Event, a: nat, i: nat)
    requires Enabled(s, e) && a < |s.admissions| && AdmissionOk(s, a) && i == Resumed(s, e, a) && AdmissionOk(s, i)
    ensures a < |Step(s, e).admissions| && AdmissionOk(Step(s, e), a)
  {
    if i == a { OwnAdmission(s, e, a); } else { OtherAdmission(s, e, a); }
  }

  lemma OwnAdmission(s: State, e: Event, a: nat)
    requires Enabled(s, e) && a < |s.admissions| && AdmissionOk(s, a) && Resumed(s, e, a) == a
    ensures a < |Step(s, e).admissions| && AdmissionOk(Step(s, e), a)
  {
    hide Draining;
  }

  lemma OtherAdmission(s: State, e: Event, a: nat)
    requires Enabled(s, e) && a < |s.admissions| && AdmissionOk(s, a) && Resumed(s, e, a) != a && AdmissionOk(s, e.e)
    ensures a < |Step(s, e).admissions| && AdmissionOk(Step(s, e), a)
  {
    hide Draining;
  }

  lemma AdmissionNew(s: State, e: Event, a: nat)
    requires Enabled(s, e) && |s.admissions| <= a < |Step(s, e).admissions|
    ensures AdmissionOk(Step(s, e), a)
  {
    hide Draining;
  }

  /** A switch keeps its id and its intent, and a new one is the newest intent. */
  lemma StepRecord(s: State, e: Event, k: nat)
    requires |s.asked| == s.revision && Enabled(s, e) && k < |Step(s, e).switches| && (k < |s.switches| ==> OnRecord(s, k))
    ensures OnRecord(Step(s, e), k)
  {
  }

  lemma StepNewest(s: State, e: Event)
    requires Ordered(s) && AskedOk(s) && Enabled(s, e)
    ensures |Step(s, e).asked| == Step(s, e).revision && NewestOk(Step(s, e))
  {
    if e.SwitchResumes? { ResumeNewest(s, e.k); }
    else if e.RpcStarts? || e.RpcTakesEffect? || e.RpcSettles? { ProgressNewest(s, e); }
    else { IntentNewest(s, e); }
    hide Ordered, OnRecord, NewestOk, Enabled, AskedOk;
  }

  lemma IntentNewest(s: State, e: Event)
    requires |s.asked| == s.revision && NewestOk(s) && Enabled(s, e)
    requires !e.SwitchResumes? && !e.RpcStarts? && !e.RpcTakesEffect? && !e.RpcSettles?
    ensures |Step(s, e).asked| == Step(s, e).revision && NewestOk(Step(s, e))
  {
    if e.RefreshSettles? { RefreshNewest(s, e.e, e.ok); }
    else if e.UserSets? || e.UserSwitches? { AskedNewest(s, e); }
    else { AdmissionNewest(s, e); }
    hide *;
  }

  lemma AskedNewest(s: State, e: Event)
    requires |s.asked| == s.revision && Enabled(s, e) && (e.UserSets? || e.UserSwitches?)
    ensures |Step(s, e).asked| == Step(s, e).revision && NewestOk(Step(s, e))
  {
    hide Draining;
  }

  lemma AdmissionNewest(s: State, e: Event)
    requires |s.asked| == s.revision && NewestOk(s) && Enabled(s, e)
    requires e.Ensure? || e.DraftModelSettles? || e.CreateSettles? || e.ActivationAwaited?
    ensures |Step(s, e).asked| == Step(s, e).revision && NewestOk(Step(s, e))
  {
    hide Draining, Returning;
  }

  lemma RefreshNewest(s: State, a: nat, ok: bool)
    requires |s.asked| == s.revision && NewestOk(s) && a < |s.admissions|
    ensures var t := Refreshed(s, a, ok); |t.asked| == t.revision && NewestOk(t)
  {
  }

  lemma ResumeNewest(s: State, k: nat)
    requires Ordered(s) && AskedOk(s) && Enabled(s, SwitchResumes(k))
    ensures |Resumes(s, k).asked| == Resumes(s, k).revision && NewestOk(Resumes(s, k))
  {
    assert OnRecord(s, k);
    hide Enabled;
  }

  lemma ProgressNewest(s: State, e: Event)
    requires AskedOk(s) && Enabled(s, e) && (e.RpcStarts? || e.RpcTakesEffect? || e.RpcSettles?)
    ensures |Step(s, e).asked| == Step(s, e).revision && NewestOk(Step(s, e))
  {
  }

  lemma StepAsked(s: State, e: Event)
    requires Ordered(s) && AskedOk(s) && Enabled(s, e)
    ensures AskedOk(Step(s, e))
  {
    StepNewest(s, e);
    hide Step, Enabled, Ordered, OnRecord, NewestOk;
    forall k | 0 <= k < |Step(s, e).switches| ensures OnRecord(Step(s, e), k) { StepRecord(s, e, k); }
  }

  /** Every intent so far stays on record. */
  lemma AskedGrows(s: State, e: Event, from: nat, id: string)
    requires Enabled(s, e)
    ensures SetSince(s, from, id) ==> SetSince(Step(s, e), from, id)
    ensures e == UserSets(id) && from <= |s.asked| ==> SetSince(Step(s, e), from, id)
  {
    var t := Step(s, e);
    assert forall i :: 0 <= i < |s.asked| ==> t.asked[i] == s.asked[i];
    if e == UserSets(id) { assert t.asked[|s.asked|] == SetTo(id); }
  }

  /** An activation behind the one a created session waits for does not end before the return. */
  lemma LaterUnfinished(s: State, e: Event, a: nat)
    requires a < |s.admissions| && s.admissions[a].Activating? && Ordered(s) && ReturnOk(s, a) && Enabled(s, e)
    requires !(e.ActivationAwaited? && e.e == a)
    ensures var k := s.admissions[a].switch;
            forall j :: k < j < |Step(s, e).switches| ==> !Finished(Step(s, e).switches[j].progress)
  {
    SwitchBorn(s, e);
    if e.RpcSettles? { assert !Returning(s, a); }
  }

  /** Nothing but its own commit or a direct set makes a created session the shown one before the return. */
  lemma ShownBy(s: State, e: Event, a: nat)
    requires a < |s.admissions| && s.admissions[a].Activating? && !(e.ActivationAwaited? && e.e == a)
    requires Ordered(s) && AskedOk(s) && AdmissionOk(s, a) && ReturnOk(s, a) && Enabled(s, e)
    ensures var (origin, id, k) := (s.admissions[a].origin, s.admissions[a].id, s.admissions[a].switch); var t := Step(s, e);
            t.active == id ==>
              (SetSince(t, origin + 1, id) ||
               (t.revision == origin + 1 && t.desired == id && k < |t.switches| && t.switches[k].progress == Done(true)))
  {
    AskedGrows(s, e, s.admissions[a].origin + 1, s.admissions[a].id);
    hide SetSince;
    if s.active == s.admissions[a].id && s.switches[s.admissions[a].switch].progress == Done(true) { assert Returning(s, a); }
  }

  lemma ReturnKept(s: State, e: Event, a: nat)
    requires Inv(s) && Enabled(s, e) && a < |s.admissions|
    ensures a < |Step(s, e).admissions| && ReturnOk(Step(s, e), a)
  {
    assert ReturnOk(s, a) && AdmissionOk(s, a) && Ordered(s) && AskedOk(s);
    hide *;
    if s.admissions[a].Activating? && !(e.ActivationAwaited? && e.e == a) { ReturnWaits(s, e, a); } else { ReturnBorn(s, e, a); }
  }

  lemma ReturnWaits(s: State, e: Event, a: nat)
    requires a < |s.admissions| && s.admissions[a].Activating? && !(e.ActivationAwaited? && e.e == a)
    requires Ordered(s) && AskedOk(s) && AdmissionOk(s, a) && ReturnOk(s, a) && Enabled(s, e)
    ensures a < |Step(s, e).admissions| && ReturnOk(Step(s, e), a)
  {
    LaterUnfinished(s, e, a);
    ShownBy(s, e, a);
    StaysActivating(s, e, a);
    assert s.admissions[a].id != "";
    hide Step, Enabled, Ordered, AskedOk, AdmissionOk, Finished, SetSince;
  }

  /** Only its own return ends the wait for an activation. */
  lemma StaysActivating(s: State, e: Event, a: nat)
    requires a < |s.admissions| && s.admissions[a].Activating? && !(e.ActivationAwaited? && e.e == a) && Enabled(s, e)
    ensures |s.switches| <= |Step(s, e).switches|
    ensures a < |Step(s, e).admissions| && Step(s, e).admissions[a] == s.admissions[a]
  {
    hide Draining;
  }

  /** A created session starts waiting while the draft is shown, behind every other activation. */
  lemma ReturnBorn(s: State, e: Event, a: nat)
    requires Enabled(s, e) && a < |s.admissions| && ReturnOk(s, a)
    requires s.admissions[a].Activating? ==> e.ActivationAwaited? && e.e == a
    ensures a < |Step(s, e).admissions| && ReturnOk(Step(s, e), a)
  {
    hide SetSince;
  }

  lemma StepReturns(s: State, e: Event)
    requires Inv(s) && Enabled(s, e)
    ensures ReturnsOk(Step(s, e))
  {
    var t := Step(s, e);
    forall a | 0 <= a < |t.admissions| ensures ReturnOk(t, a) {
      if a < |s.admissions| { ReturnKept(s, e, a); }
    }
  }

  lemma StepKeeps(s: State, e: Event)
    requires Inv(s) && Enabled(s, e)
    ensures Inv(Step(s, e))
  {
    StepDesired(s, e);
    StepOrdered(s, e);
    StepBackend(s, e);
    StepAdmissions(s, e);
    StepAsked(s, e);
    StepReturns(s, e);
  }

  lemma {:induction false} RunKeeps(s: State, events: seq<Event>)
    requires Inv(s) && Legal(s, events)
    ensures Inv(Run(s, events))
    decreases events
  {
    if events != [] {
      StepKeeps(s, events[0]);
      hide Inv;
      RunKeeps(Step(s, events[0]), events[1..]);
    }
  }

  ghost predicate Reachable(s: State) {
    exists events :: Legal(Init, events) && s == Run(Init, events)
  }

  lemma ReachableInv(s: State)
    requires Reachable(s)
    ensures Inv(s)
  {
    var events :| Legal(Init, events) && s == Run(Init, events);
    RunKeeps(Init, events);
  }

  // ----- Theorems ----------------------------------------------------------------------------------

  /** The wanted and the shown session differ only while the newest switch, to the wanted one, is under way. */
  lemma IntentAgrees(s: State)
    requires Reachable(s)
    ensures s.desired != s.active ==> exists k: nat :: Pending(s, k) && s.switches[k].id == s.desired && s.switches[k].intent == s.revision
    ensures (forall k :: 0 <= k < |s.switches| ==> s.switches[k].progress.Done?) ==> s.desired == s.active
  {
    ReachableInv(s);
  }

  lemma NewestIsLast(s: State, k: nat)
    requires Ordered(s) && k < |s.switches| && Newest(s, k)
    ensures k == |s.switches| - 1
  {
    assert s.switches[k].intent <= s.switches[|s.switches| - 1].intent;
  }

  /** Only the newest intent moves the shown session, and at that instant it is the backend's latest activation. */
  lemma CommitIsLatest(s: State, e: Event)
    requires Reachable(s) && Enabled(s, e) && Step(s, e).active != s.active
    ensures e.UserSets? || (e.SwitchResumes? && e.k == |s.switches| - 1 && Newest(s, e.k))
    ensures e.SwitchResumes? ==>
      var t := Step(s, e); t.active == t.desired == t.backend == s.switches[e.k].id
  {
    ReachableInv(s);
    if e.SwitchResumes? {
      assert Newest(s, e.k);
      NewestIsLast(s, e.k);
      assert Latest(s, e.k);
    }
  }

  predicate IsSessionIntentCurrent(s: State, revision: nat, id: string) {
    revision == s.revision && s.active == id && s.desired == id
  }

  /** The admission that step `e` turns into a returned session id. */
  predicate Admits(s: State, e: Event, a: nat)
    requires Enabled(s, e)
  {
    a < |s.admissions| && !s.admissions[a].Admitted? && a < |Step(s, e).admissions| && Step(s, e).admissions[a].Admitted?
  }

  /** For an existing session, the id returned is shown and wanted, and no intent has come between. */
  lemma ExistingAdmission(s: State, e: Event, a: nat)
    requires Reachable(s) && Enabled(s, e) && Admits(s, e, a) && s.admissions[a].Checking?
    ensures IsSessionIntentCurrent(Step(s, e), s.admissions[a].origin, Step(s, e).admissions[a].id)
  {
    ReachableInv(s);
    assert AdmissionOk(s, a);
  }

  /** When the model check of an existing session comes back, its id is returned if the check has succeeded and no intent has
      been made since the call; otherwise the call is refused, and nothing else happens. */
  lemma ExistingAdmitted(s: State, a: nat, ok: bool)
    requires Reachable(s) && a < |s.admissions| && s.admissions[a].Checking?
    ensures Enabled(s, DraftModelSettles(a, ok))
    ensures var (existing, origin) := (s.admissions[a].existing, s.admissions[a].origin);
            Step(s, DraftModelSettles(a, ok)) ==
            s.(admissions := s.admissions[a := if ok && |s.asked| == origin then Admitted(existing, None) else Refused])
  {
    ReachableInv(s);
    assert AdmissionOk(s, a);
  }

  /** The newest intent is not a switch to another session. */
  predicate StillAsked(s: State, id: string) {
    s.asked != [] && (s.asked[|s.asked| - 1].SwitchTo? ==> s.asked[|s.asked| - 1].id == id)
  }

  /** For a created session, the id returned is always shown. It is the current intent, the one right after the draft,
      exactly when nobody has set the same id directly while the activation was under way; and after such a set it is
      still wanted exactly when the newest intent is not a switch to another session. */
  lemma CreatedAdmission(s: State, e: Event, a: nat)
    requires Reachable(s) && Enabled(s, e) && Admits(s, e, a) && s.admissions[a].Activating?
    ensures var t := Step(s, e); var (origin, id) := (s.admissions[a].origin, s.admissions[a].id);
            t.admissions[a] == Admitted(id, Some(s.admissions[a].switch)) && t.active == id &&
            (IsSessionIntentCurrent(t, origin + 1, id) <==> !SetSince(s, origin + 1, id)) &&
            (t.desired == id <==> StillAsked(t, id))
  {
    ReachableInv(s);
    assert AdmissionOk(s, a) && ReturnOk(s, a);
    ReturnOnly(s, e, a);
    hide Inv, Step, Enabled, Reachable, AdmissionOk, Admits;
  }

  /** The return of a created session changes nothing but its own admission. */
  lemma ReturnOnly(s: State, e: Event, a: nat)
    requires Enabled(s, e) && Admits(s, e, a) && s.admissions[a].Activating?
    ensures e == ActivationAwaited(a) && s.admissions[a].switch < |s.switches|
    ensures s.switches[s.admissions[a].switch].progress == Done(true) && s.active == s.admissions[a].id
    ensures var t := Step(s, e);
            t == s.(admissions := t.admissions, creating := t.creating) &&
            t.admissions[a] == Admitted(s.admissions[a].id, Some(s.admissions[a].switch))
  {
  }

  /** The application sets a session directly only to leave for a draft: there, the id returned is shown, wanted and current. */
  lemma CreatedInApplication(s: State, e: Event, a: nat)
    requires Reachable(s) && Enabled(s, e) && Admits(s, e, a) && s.admissions[a].Activating?
    requires forall i :: 0 <= i < |s.asked| && s.asked[i].SetTo? ==> s.asked[i].id == ""
    ensures IsSessionIntentCurrent(Step(s, e), s.admissions[a].origin + 1, Step(s, e).admissions[a].id)
  {
    ReachableInv(s);
    assert ReturnOk(s, a);
    CreatedAdmission(s, e, a);
  }

  /** When the activation of a created session is over, its id is returned if the activation and the earlier model write have
      succeeded and the session is shown; otherwise the call is refused.  The creation is no longer shared. */
  lemma CreatedAdmitted(s: State, a: nat)
    requires Reachable(s) && a < |s.admissions| && s.admissions[a].Activating? && Enabled(s, ActivationAwaited(a))
    ensures var (origin, id, k) := (s.admissions[a].origin, s.admissions[a].id, s.admissions[a].switch);
            var succeeds := s.switches[k].progress == Done(true) && s.admissions[a].modelOk && s.active == id;
            Step(s, ActivationAwaited(a)) ==
            s.(admissions := s.admissions[a := if succeeds then Admitted(id, Some(k)) else Refused], creating := s.creating - {origin})
  {
    hide Reachable, Legal, Run;
  }

  /** The model write of call `a` has succeeded. */
  predicate Written(s: State, a: nat) {
    a < |s.admissions| && match s.admissions[a]
      case Refreshing(_, _, modelOk) => modelOk
      case Activating(_, _, _, modelOk) => modelOk
      case Admitted(_, _) => true
      case _ => false
  }

  lemma StepWritten(s: State, e: Event, a: nat)
    requires Enabled(s, e) && Written(Step(s, e), a) && !Written(s, a)
    ensures e == DraftModelSettles(a, true)
  {
    hide Draining;
  }

  lemma {:induction false} RunWritten(s: State, events: seq<Event>, a: nat)
    requires Legal(s, events) && Written(Run(s, events), a) && !Written(s, a)
    ensures DraftModelSettles(a, true) in events
    decreases events
  {
    if events != [] {
      var next := Step(s, events[0]);
      if Written(next, a) { StepWritten(s, events[0], a); }
      hide Step, Enabled, Written;
      if !Written(next, a) { RunWritten(next, events[1..], a); }
    }
  }

  /** Over every legal run, no call returns a session whose model write has not succeeded. */
  lemma ModelWritten(events: seq<Event>, a: nat)
    requires Legal(Init, events) && a < |Run(Init, events).admissions| && Run(Init, events).admissions[a].Admitted?
    ensures DraftModelSettles(a, true) in events
  {
    hide Legal, Run, Step, Enabled;
    RunWritten(Init, events, a);
  }

  const DraftSent := [Ensure, CreateSettles(0, Some("a")), DraftModelSettles(0, true), RefreshSettles(0, true)]

  const Overtaken := [RpcStarts(0), UserSets("a"), UserSwitches("b"), RpcTakesEffect(0), RpcSettles(0, true), SwitchResumes(0),
                      ActivationAwaited(0)]

  const Sent := State("", "a", 1, "", [Switch("a", 1, Queued)], [Activating(0, "a", 0, true)], map[0 := 0], [SwitchTo("a")])

  lemma DraftSentRun()
    ensures Legal(Init, DraftSent) && Run(Init, DraftSent) == Sent
  {
    assert Run(Init, DraftSent) == Sent;
  }

  /** The switch to "a" is in flight, it has been set directly, and a switch to "b" waits behind it. */
  const Midway := State("a", "b", 3, "", [Switch("a", 1, InFlight(false)), Switch("b", 3, Queued)],
                        [Activating(0, "a", 0, true)], map[0 := 0], [SwitchTo("a"), SetTo("a"), SwitchTo("b")])

  lemma ConsRun(s: State, e: Event, rest: seq<Event>)
    requires Enabled(s, e) && Legal(Step(s, e), rest)
    ensures Legal(s, [e] + rest) && Run(s, [e] + rest) == Run(Step(s, e), rest)
  {
    assert ([e] + rest)[1..] == rest;
    hide Enabled, Step;
  }

  lemma OneRun(s: State, e: Event)
    requires Enabled(s, e)
    ensures Legal(s, [e]) && Run(s, [e]) == Step(s, e)
  {
    assert [e][1..] == [];
    hide Enabled, Step;
  }

  lemma MidwayRun()
    ensures Legal(Sent, Overtaken[..3]) && Run(Sent, Overtaken[..3]) == Midway
  {
    var s1 := Sent.(switches := [Switch("a", 1, InFlight(false))]);
    assert Enabled(Sent, RpcStarts(0)) && Step(Sent, RpcStarts(0)) == s1;
    var s2 := s1.(active := "a", revision := 2, asked := [SwitchTo("a"), SetTo("a")]);
    assert Enabled(s1, UserSets("a")) && Step(s1, UserSets("a")) == s2;
    assert Enabled(s2, UserSwitches("b")) && Step(s2, UserSwitches("b")) == Midway;
    hide Enabled, Step;
    OneRun(s2, UserSwitches("b"));
    ConsRun(s1, UserSets("a"), [UserSwitches("b")]);
    ConsRun(Sent, RpcStarts(0), [UserSets("a")] + [UserSwitches("b")]);
    assert Overtaken[..3] == [RpcStarts(0)] + ([UserSets("a")] + [UserSwitches("b")]);
  }

  /** The activation of "a" has been reported as a success. */
  const Landed := Midway.(switches := [Switch("a", 1, Settled(true)), Switch("b", 3, Queued)], backend := "a")

  lemma LandedRun()
    ensures Legal(Midway, Overtaken[3..5]) && Run(Midway, Overtaken[3..5]) == Landed
  {
    var s4 := Midway.(switches := [Switch("a", 1, InFlight(true)), Switch("b", 3, Queued)], backend := "a");
    assert Enabled(Midway, RpcTakesEffect(0)) && Step(Midway, RpcTakesEffect(0)) == s4;
    assert Enabled(s4, RpcSettles(0, true)) && Step(s4, RpcSettles(0, true)) == Landed;
    hide Enabled, Step;
    OneRun(s4, RpcSettles(0, true));
    ConsRun(Midway, RpcTakesEffect(0), [RpcSettles(0, true)]);
    assert Overtaken[3..5] == [RpcTakesEffect(0)] + [RpcSettles(0, true)];
  }

  lemma ReturnRun()
    ensures Legal(Landed, Overtaken[5..])
    ensures var t := Run(Landed, Overtaken[5..]); t.admissions == [Admitted("a", Some(0))] && t.active == "a" && t.desired == "b"
  {
    var s6 := Landed.(switches := [Switch("a", 1, Done(true)), Switch("b", 3, Queued)]);
    assert Enabled(Landed, SwitchResumes(0)) && Step(Landed, SwitchResumes(0)) == s6;
    var s7 := s6.(admissions := [Admitted("a", Some(0))], creating := map[]);
    assert Enabled(s6, ActivationAwaited(0)) && Step(s6, ActivationAwaited(0)) == s7;
    hide Enabled, Step;
    OneRun(s6, ActivationAwaited(0));
    ConsRun(Landed, SwitchResumes(0), [ActivationAwaited(0)]);
    assert Overtaken[5..] == [SwitchResumes(0)] + [ActivationAwaited(0)];
  }

  lemma OvertakenRun()
    ensures Legal(Sent, Overtaken)
    ensures var t := Run(Sent, Overtaken); t.admissions == [Admitted("a", Some(0))] && t.active == "a" && t.desired == "b"
  {
    MidwayRun();
    LandedRun();
    ReturnRun();
    hide Legal, Run;
    RunJoin(Midway, Overtaken[3..5], Overtaken[5..]);
    RunJoin(Sent, Overtaken[..3], Overtaken[3..5] + Overtaken[5..]);
    assert Overtaken == Overtaken[..3] + (Overtaken[3..5] + Overtaken[5..]);
  }

  lemma {:induction false} RunJoin(s: State, a: seq<Event>, b: seq<Event>)
    requires Legal(s, a) && Legal(Run(s, a), b)
    ensures Legal(s, a + b) && Run(s, a + b) == Run(Run(s, a), b)
    decreases a
  {
    if a == [] { assert a + b == b; }
    else {
      assert (a + b)[0] == a[0] && (a + b)[1..] == a[1..] + b;
      RunJoin(Step(s, a[0]), a[1..], b);
    }
  }

  /** A run from the start in which a direct set of the new session and a switch to another one overtake the activation:
      the id returned is shown but no longer wanted. */
  lemma DirectSetRun()
    ensures Legal(Init, DraftSent + Overtaken)
    ensures var t := Run(Init, DraftSent + Overtaken);
            t.admissions == [Admitted("a", Some(0))] && t.active == "a" && t.desired == "b"
  {
    DraftSentRun();
    OvertakenRun();
    RunJoin(Init, DraftSent, Overtaken);
  }

  /** Concurrent first sends of one draft share one creation: two creations under way have different origins. */
  lemma OneCreation(s: State, a: nat, b: nat)
    requires Reachable(s) && a < |s.admissions| && b < |s.admissions| && Origin(s.admissions[a]).Some?
    requires Origin(s.admissions[a]) == Origin(s.admissions[b])
    ensures a == b
  {
    ReachableInv(s);
    assert AdmissionOk(s, a) && AdmissionOk(s, b);
  }
}
