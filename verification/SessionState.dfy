/** The module variables of src/lib/state.ts, updated by the operations that carry session intents. */
module SessionState {
  import opened Options
  import opened Intent
  import opened IntentTheorems

  class Sessions {
    var active: string
    var desired: string
    var revision: nat
    ghost var backend: string
    var switches: seq<Switch>
    var admissions: seq<Admission>
    var creating: map<nat, nat>
    ghost var asked: seq<Ask>

    ghost function Abs(): State
      reads this
    {
      State(active, desired, revision, backend, switches, admissions, creating, asked)
    }

    ghost predicate Valid()
      reads this
    {
      Inv(Abs())
    }

    constructor ()
      ensures Valid() && Abs() == Init
    {
      active, desired, revision, backend := "", "", 0, "";
      switches, admissions, creating, asked := [], [], map[], [];
    }

    method SetActiveSessionId(id: string)
      requires Valid() && Enabled(Abs(), UserSets(id))
      modifies this
      ensures Valid() && Abs() == Step(old(Abs()), UserSets(id))
    {
      StepKeeps(Abs(), UserSets(id));
      hide Inv;
      revision := revision + 1;
      desired := id;
      active := id;
      asked := asked + [SetTo(id)];
    }

    /** `switchSession` up to `await activation`. */
    method SwitchSession(id: string)
      requires Valid() && Enabled(Abs(), UserSwitches(id))
      modifies this
      ensures Valid() && Abs() == Step(old(Abs()), UserSwitches(id))
    {
      StepKeeps(Abs(), UserSwitches(id));
      hide Inv;
      Enqueue(id);
    }

    method Enqueue(id: string)
      modifies this`revision, this`desired, this`switches, this`asked
      ensures Abs() == Switches(old(Abs()), id)
    {
      revision := revision + 1;
      desired := id;
      switches := switches + [Switch(id, revision, Queued)];
      asked := asked + [SwitchTo(id)];
    }

    /** `switchSession` after `await activation`. */
    method SwitchResumed(k: nat)
      requires Valid() && Enabled(Abs(), SwitchResumes(k))
      modifies this
      ensures Valid() && Abs() == Step(old(Abs()), SwitchResumes(k))
    {
      StepKeeps(Abs(), SwitchResumes(k));
      hide Inv;
      var s := switches[k];
      switches := switches[k := s.(progress := Done(s.progress.ok))];
      if !s.progress.ok {
        if desired == s.id && s.intent == revision { desired := active; }
        return;
      }
      if desired != s.id || s.intent != revision { return; }
      active := s.id;
    }

    /** `ensureActiveSession` up to its first wait. */
    method EnsureActiveSession()
      requires Valid()
      modifies this
      ensures Valid() && Abs() == Step(old(Abs()), Ensure)
    {
      StepKeeps(Abs(), Ensure);
      hide Inv;
      var existing, originRevision := active, revision;
      if desired != existing { admissions := admissions + [Refused]; return; }
      if existing != "" { admissions := admissions + [Checking(existing, originRevision)]; return; }
      if originRevision !in creating {
        creating := creating[originRevision := |admissions|];
        admissions := admissions + [Creating(originRevision)];
      }
    }

    method Conclude(a: nat, origin: nat, admission: Admission)
      requires a < |admissions|
      modifies this`admissions, this`creating
      ensures Abs() == Ends(old(Abs()), a, origin, admission)
    {
      admissions := admissions[a := admission];
      creating := creating - {origin};
    }

    method DraftModelSettled(a: nat, ok: bool)
      requires Valid() && Enabled(Abs(), DraftModelSettles(a, ok))
      modifies this
      ensures Valid() && Abs() == Step(old(Abs()), DraftModelSettles(a, ok))
    {
      StepKeeps(Abs(), DraftModelSettles(a, ok));
      hide Inv;
      match admissions[a]
      case Checking(existing, origin) =>
        if ok && revision == origin && active == existing { admissions := admissions[a := Admitted(existing, None)]; }
        else { admissions := admissions[a := Refused]; }
      case Modelling(origin, id) => admissions := admissions[a := Refreshing(origin, id, ok)];
      case _ =>
    }

    method CreateSettled(a: nat, created: Option<string>)
      requires Valid() && Enabled(Abs(), CreateSettles(a, created))
      modifies this
      ensures Valid() && Abs() == Step(old(Abs()), CreateSettles(a, created))
    {
      StepKeeps(Abs(), CreateSettles(a, created));
      hide Inv;
      var origin := admissions[a].origin;
      if created.None? { Conclude(a, origin, Refused); } else { admissions := admissions[a := Modelling(origin, created.value)]; }
    }

    method RefreshSettled(a: nat, ok: bool)
      requires Valid() && Enabled(Abs(), RefreshSettles(a, ok))
      modifies this
      ensures Valid() && Abs() == Step(old(Abs()), RefreshSettles(a, ok))
    {
      StepKeeps(Abs(), RefreshSettles(a, ok));
      hide Inv;
      var admission := admissions[a];
      if !ok || revision != admission.origin || active != "" { Conclude(a, admission.origin, Refused); return; }
      admissions := admissions[a := Activating(admission.origin, admission.id, |switches|, admission.modelOk)];
      Enqueue(admission.id);
    }

    method ActivationReturned(a: nat)
      requires Valid() && Enabled(Abs(), ActivationAwaited(a))
      modifies this
      ensures Valid() && Abs() == Step(old(Abs()), ActivationAwaited(a))
    {
      StepKeeps(Abs(), ActivationAwaited(a));
      hide Inv;
      var admission := admissions[a];
      var admitted := switches[admission.switch].progress == Done(true) && active == admission.id && admission.modelOk;
      Conclude(a, admission.origin, if admitted then Admitted(admission.id, Some(admission.switch)) else Refused);
    }
  }
}
