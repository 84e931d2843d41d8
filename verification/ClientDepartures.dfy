/** Which events take a subscription out of the table for good. */
module ClientDepartures {
  import opened Options
  import opened ClientModel
  import opened ClientInvariant
  import opened ClientSteps
  import opened ClientTheorems

  /** The job owns a promise that the server has refused. */
  predicate Refusal(job: Job) {
    job.Activation? && job.stage.Settled? && job.stage.why.Some? && job.stage.why.value.Refused?
  }

  predicate RefusedJob(s: State, k: nat) {
    k in s.jobs && Refusal(s.jobs[k])
  }

  /** If the job owns a refused promise before or after, it is the same job. */
  predicate Stays(s: State, t: State, k: nat) {
    RefusedJob(s, k) || RefusedJob(t, k) ==> k in s.jobs && k in t.jobs && t.jobs[k] == s.jobs[k]
  }

  /** No subscription but those in `gone` leaves the table, none comes back, and no refusal but those of `moved` changes. */
  ghost predicate Placid(s: State, t: State, gone: set<nat>, moved: set<nat>) {
    s.subSeq <= t.subSeq && (forall y :: y in s.subs && y !in gone ==> y in t.subs) &&
    (forall y :: y in t.subs ==> y in s.subs || s.subSeq <= y) &&
    forall k :: k !in moved ==> Stays(s, t, k)
  }

  lemma PlacidAt(s: State, t: State, gone: set<nat>, moved: set<nat>, k: nat)
    requires Placid(s, t, gone, moved) && k !in moved
    ensures Stays(s, t, k)
  {
  }

  lemma PlacidThen(s: State, t: State, u: State, gone: set<nat>, moved: set<nat>)
    requires Placid(s, t, gone, moved) && Placid(t, u, gone, moved)
    ensures Placid(s, u, gone, moved)
  {
  }

  // ----- What the parts of a step do ---------------------------------------------------------

  lemma SamePlacid(s: State, t: State)
    requires t.jobs == s.jobs && t.subSeq == s.subSeq && t.subs.Keys == s.subs.Keys
    ensures Placid(s, t, {}, {})
  {
  }

  /** One job changes, and no refusal is involved. */
  lemma JobPlacid(s: State, t: State, j: nat)
    requires t.subSeq == s.subSeq && !RefusedJob(s, j) && !RefusedJob(t, j) && t.subs.Keys == s.subs.Keys
    requires t.jobs == s.jobs - {j} || (j in t.jobs && t.jobs == s.jobs[j := t.jobs[j]])
    ensures Placid(s, t, {}, {})
  {
  }

  lemma BereaveStays(jobs: map<nat, Job>, g: nat, limit: nat, k: nat)
    ensures k in jobs && Refusal(jobs[k]) ==> k in BereaveAll(jobs, g, limit)
    ensures k in BereaveAll(jobs, g, limit) && (Refusal(jobs[k]) || Refusal(BereaveAll(jobs, g, limit)[k])) ==>
      BereaveAll(jobs, g, limit)[k] == jobs[k]
  {
  }

  lemma DropStays(s: State, g: nat, k: nat)
    ensures Stays(s, Drop(s, g), k)
  {
    BereaveStays(s.jobs, g, s.callSeq, k);
    assert k in BereaveAll(s.jobs, g, s.callSeq) ==> k in s.jobs;
    hide Losses, Kept, ForgetAll, BereaveAll, Refusal;
  }

  lemma DropPlacid(s: State, g: nat)
    ensures Placid(s, Drop(s, g), {}, {})
  {
    hide Losses, Kept, BereaveAll, Stays;
    forall k ensures Stays(s, Drop(s, g), k) { DropStays(s, g, k); }
  }

  lemma SetPlacid(s: State, j: nat, job: Job)
    requires !RefusedJob(s, j) && !Refusal(job)
    ensures Placid(s, SetJob(s, j, job), {}, {})
  {
    hide Placid;
    JobPlacid(s, SetJob(s, j, job), j);
  }

  lemma SettlePlacid(s: State, j: nat, why: Option<Fault>)
    requires !RefusedJob(s, j) && (why.Some? ==> !why.value.Refused?)
    ensures Placid(s, SettleJob(s, j, why), {}, {})
  {
  }

  lemma LossPlacid(s: State, u: State, p: Pending)
    requires u.jobs == s.jobs && u.subSeq == s.subSeq && u.subs.Keys == s.subs.Keys
    ensures Placid(s, Drop(Misfire(u, p), p.gen), {}, {})
  {
    SamePlacid(s, Misfire(u, p));
    DropPlacid(Misfire(u, p), p.gen);
    hide *;
    PlacidThen(s, Misfire(u, p), Drop(Misfire(u, p), p.gen), {}, {});
  }

  lemma SendPlacid(s: State, g: nat, purpose: Purpose, throws: bool)
    ensures Placid(s, SendCall(s, g, purpose, throws).state, {}, {})
  {
    var p := Pending(g, purpose);
    LossPlacid(s, s, p);
    SamePlacid(s, s);
    SamePlacid(s, Enlist(s, p));
    hide Placid, Drop, Misfire, Enlist;
  }

  lemma FinishPlacid(s: State, j: nat)
    requires !RefusedJob(s, j)
    ensures Placid(s, Finish(s, j), {}, {})
  {
    JobPlacid(s, Finish(s, j), j);
  }

  lemma SpawnPlacid(s: State, job: Job)
    requires JobsOk(s) && !(job.Activation? && job.stage.Settled?)
    ensures Placid(s, Spawn(s, job), {}, {})
  {
    assert s.jobSeq in s.jobs ==> JobOk(s, s.jobSeq);
    JobPlacid(s, Spawn(s, job), s.jobSeq);
  }

  lemma EnsurePlacid(s: State, waiting: Job)
    requires JobsOk(s) && Idle(waiting)
    ensures Placid(s, EnsureConn(s, waiting), {}, {})
  {
    assert s.jobSeq in s.jobs ==> JobOk(s, s.jobSeq);
    JobPlacid(s, EnsureConn(s, waiting), s.jobSeq);
  }

  // ----- Activations ---------------------------------------------------------------------------

  lemma FailurePlacid(s: State, j: nat, x: nat, origin: Origin, g: nat, why: Fault)
    requires !RefusedJob(s, j) && !why.Refused?
    ensures Placid(s, OwnFailure(s, j, x, origin, g, why), {}, {})
  {
    var t := OwnFailure(s, j, x, origin, g, why);
    assert t.subs.Keys == s.subs.Keys;
    hide Placid;
    JobPlacid(s, t, j);
  }

  /** The table and the jobs are those of `s` when the promise fails. */
  lemma OwnLossPlacid(s: State, u: State, j: nat, x: nat, origin: Origin, g: nat, why: Fault)
    requires Placid(s, u, {}, {}) && !RefusedJob(s, j) && !why.Refused?
    ensures Placid(s, OwnFailure(u, j, x, origin, g, why), {}, {})
  {
    PlacidAt(s, u, {}, {}, j);
    assert !RefusedJob(u, j);
    hide *;
    FailurePlacid(u, j, x, origin, g, why);
    PlacidThen(s, u, OwnFailure(u, j, x, origin, g, why), {}, {});
  }

  lemma JoinPlacid(s: State, j: nat, x: nat, origin: Origin, g: nat, throws: bool)
    requires j in s.jobs && s.jobs[j] == Activation(x, origin, Begin(g)) && x in s.subs && !LiveOn(s.subs[x], g) && OpeningOn(s.subs[x], g)
    ensures Placid(s, BeginActivation(s, j, x, origin, g, throws), {}, {})
  {
    var o := s.subs[x].opening.value.job;
    assert !RefusedJob(s, j);
    hide Placid, RefusedJob, Finish, SetJob;
    FinishPlacid(s, j);
    SetPlacid(s, j, Activation(x, origin, Joined(g, o)));
    if o in s.jobs && s.jobs[o].Activation? && s.jobs[o].stage.Settled? && s.jobs[o].stage.why.Some? {
      SetPlacid(s, j, Activation(x, origin, Rejected(s.jobs[o].stage.why.value)));
    }
  }

  lemma OwnPlacid(s: State, j: nat, x: nat, origin: Origin, g: nat)
    requires j in s.jobs && s.jobs[j] == Activation(x, origin, Begin(g)) && x in s.subs
    ensures Placid(s, Own(ClearRetry(s, x), j, x, origin, g), {}, {})
  {
    var t := Own(ClearRetry(s, x), j, x, origin, g);
    assert t.subs.Keys == s.subs.Keys;
    hide Placid;
    JobPlacid(s, t, j);
  }

  lemma UnownedPlacid(s: State, j: nat, x: nat, origin: Origin, g: nat)
    requires j in s.jobs && s.jobs[j] == Activation(x, origin, Begin(g)) && x in s.subs
    ensures Placid(s, OwnFailure(ClearRetry(s, x), j, x, origin, g, ConnectionLost), {}, {})
    ensures var p := Pending(g, Subscribe(j));
            Placid(s, OwnFailure(Drop(Misfire(ClearRetry(s, x), p), g), j, x, origin, g, SendFailed), {}, {})
  {
    var u, p := ClearRetry(s, x), Pending(g, Subscribe(j));
    assert u.subs.Keys == s.subs.Keys && !RefusedJob(s, j);
    SamePlacid(s, u);
    LossPlacid(s, u, p);
    hide *;
    OwnLossPlacid(s, u, j, x, origin, g, ConnectionLost);
    OwnLossPlacid(s, Drop(Misfire(u, p), p.gen), j, x, origin, g, SendFailed);
  }

  lemma BeginPlacid(s: State, j: nat, x: nat, origin: Origin, g: nat, throws: bool)
    requires j in s.jobs && s.jobs[j] == Activation(x, origin, Begin(g))
    ensures Placid(s, BeginActivation(s, j, x, origin, g, throws), {}, {})
  {
    assert !RefusedJob(s, j);
    hide Placid, OwnFailure, Own, Drop, Misfire, ClearRetry, SetJob, Finish, RefusedJob;
    if x !in s.subs || LiveOn(s.subs[x], g) { FinishPlacid(s, j); }
    else if OpeningOn(s.subs[x], g) { JoinPlacid(s, j, x, origin, g, throws); }
    else if s.active != Some(g) || throws { UnownedPlacid(s, j, x, origin, g); }
    else { OwnPlacid(s, j, x, origin, g); }
  }

  lemma HoldPlacid(s: State, j: nat, x: nat, g: nat, c: nat, stream: string)
    requires !RefusedJob(s, j) && x in s.subs
    ensures Placid(s, SettleJob(Hold(s, x, g, c, stream), j, None), {}, {})
  {
    var u := Hold(s, x, g, c, stream);
    assert u.jobs == s.jobs && !RefusedJob(u, j);
    SamePlacid(s, u);
    hide *;
    SettlePlacid(u, j, None);
    PlacidThen(s, u, SettleJob(u, j, None), {}, {});
  }

  lemma ReturnPlacid(s: State, j: nat, g: nat, c: nat, stream: string)
    requires j in s.jobs && s.jobs[j].Activation? && s.jobs[j].stage.Granted?
    ensures Placid(s, Return(s, j, g, c, stream), {}, {})
    ensures Placid(s, SettleJob(Drop(Misfire(s, Pending(g, Cleanup(j, stream))), g), j, None), {}, {})
  {
    var p := Pending(g, Cleanup(j, stream));
    JobPlacid(s, Return(s, j, g, c, stream), j);
    assert !RefusedJob(s, j);
    hide *;
    LossPlacid(s, s, p);
    ReturnLossPlacid(s, Drop(Misfire(s, p), p.gen), j);
  }

  lemma AcceptPlacid(s: State, j: nat, x: nat, g: nat, c: nat, result: Option<string>, throws: bool)
    requires j in s.jobs && s.jobs[j].Activation? && s.jobs[j].stage.Granted?
    ensures Placid(s, AcceptGrant(s, j, x, g, c, result, throws), {}, {})
  {
    assert !RefusedJob(s, j);
    hide Placid, SettleJob, Hold, Drop, Misfire, Return, RefusedJob;
    if s.active != Some(g) { SettlePlacid(s, j, None); }
    else if result.None? { SettlePlacid(s, j, Some(Malformed)); }
    else if x in s.subs { HoldPlacid(s, j, x, g, c, result.value); }
    else { ReturnPlacid(s, j, g, c, result.value); }
  }

  lemma ReturnLossPlacid(s: State, t: State, j: nat)
    requires Placid(s, t, {}, {}) && !RefusedJob(s, j)
    ensures Placid(s, SettleJob(t, j, None), {}, {})
  {
    assert Stays(s, t, j) && !RefusedJob(t, j);
    hide *;
    SettlePlacid(t, j, None);
    PlacidThen(s, t, SettleJob(t, j, None), {}, {});
  }

  /** The end of an activation whose promise was not refused. */
  lemma ClosePlacid(s: State, j: nat, x: nat, origin: Origin, g: nat, why: Option<Fault>)
    requires j in s.jobs && s.jobs[j] == Activation(x, origin, Settled(g, why)) && !RefusedJob(s, j)
    ensures Placid(s, CloseOpening(s, j, x, origin, why), {}, {})
  {
    JobPlacid(s, CloseOpening(s, j, x, origin, why), j);
  }

  lemma RecoilPlacid(s: State, j: nat, x: nat, origin: Origin, why: Fault)
    requires Inv(s) && j in s.jobs && s.jobs[j] == Activation(x, origin, Rejected(why))
    ensures Placid(s, Recoil(s, j, x, origin, why), {}, {})
  {
    OriginFacts(s, j);
    assert !RefusedJob(s, j);
    hide Placid, Finish, ScheduleRetry, ArmReconnect, SetJob, Inv, RefusedJob;
    FinishPlacid(s, j);
    ArmedPlacid(s, j);
    match origin
    case FromStream => if s.active.Some? { RetriedPlacid(s, j, x, s.active.value); }
    case FromRetry(g) => RetriedPlacid(s, j, x, g);
    case FromRecovery(r) =>
      RetriedPlacid(s, j, x, s.jobs[r].phase.gen);
      FailedPlacid(s, j, r, s.jobs[r].phase.gen);
  }

  lemma ArmedPlacid(s: State, j: nat)
    requires !RefusedJob(s, j)
    ensures Placid(s, Finish(ArmReconnect(s), j), {}, {})
  {
    hide Placid;
    JobPlacid(s, Finish(ArmReconnect(s), j), j);
  }

  lemma RetriedPlacid(s: State, j: nat, x: nat, g: nat)
    requires !RefusedJob(s, j)
    ensures Placid(s, Finish(ScheduleRetry(s, x, g), j), {}, {})
  {
    var t := Finish(ScheduleRetry(s, x, g), j);
    assert t.subs.Keys == s.subs.Keys && t.jobs == s.jobs - {j} && t.subSeq == s.subSeq;
    hide *;
    FinishedPlacid(s, t, j);
  }

  lemma FinishedPlacid(s: State, t: State, j: nat)
    requires t.jobs == s.jobs - {j} && t.subs.Keys == s.subs.Keys && t.subSeq == s.subSeq && !RefusedJob(s, j)
    ensures Placid(s, t, {}, {})
  {
    hide Placid;
    JobPlacid(s, t, j);
  }

  lemma FailedPlacid(s: State, j: nat, r: nat, g: nat)
    requires !RefusedJob(s, j) && r in s.jobs && s.jobs[r].Recovery?
    ensures Placid(s, SetJob(Finish(s, j), r, Recovery(Restoring(g, true))), {}, {})
  {
    var t := Finish(s, j);
    FinishPlacid(s, j);
    hide Placid;
    JobPlacid(t, SetJob(t, r, Recovery(Restoring(g, true))), r);
    PlacidThen(s, t, SetJob(t, r, Recovery(Restoring(g, true))), {}, {});
  }

  lemma RestorePlacid(s: State, r: nat, g: nat)
    requires JobsOk(s) && r in s.jobs && s.jobs[r].Recovery?
    ensures Placid(s, Restore(s, r, g), {}, {})
  {
    forall k | k in s.jobs ensures k < s.jobSeq { assert JobOk(s, k); }
    hide JobsOk, Stays;
    forall k ensures Stays(s, Restore(s, r, g), k) { RestoreStays(s, r, g, k); }
  }

  lemma RestoreStays(s: State, r: nat, g: nat, k: nat)
    requires r in s.jobs && s.jobs[r].Recovery? && (k in s.jobs ==> k < s.jobSeq)
    ensures Stays(s, Restore(s, r, g), k)
  {
  }

  lemma ResyncPlacid(s: State, r: nat)
    requires !RefusedJob(s, r)
    ensures Placid(s, Finish(s, r).(resyncs := s.resyncs + 1), {}, {})
  {
    hide Placid;
    JobPlacid(s, Finish(s, r).(resyncs := s.resyncs + 1), r);
  }

  lemma RecoveryPlacid(s: State, r: nat, phase: Phase)
    requires JobsOk(s) && r in s.jobs && s.jobs[r] == Recovery(phase)
    ensures Placid(s, ContinueRecovery(s, r, phase), {}, {})
  {
    assert !RefusedJob(s, r);
    hide Placid, Restore, Finish, ArmReconnect, RefusedJob, JobsOk;
    match phase
    case Dialing => SamePlacid(s, s);
    case Connected(g) => RestorePlacid(s, r, g);
    case Undialed => ArmedPlacid(s, r);
    case Restoring(_, _) =>
      ArmedPlacid(s, r);
      ResyncPlacid(s, r);
  }

  lemma EndPlacid(s: State, j: nat, g: nat, throws: bool)
    requires j in s.jobs && !s.jobs[j].Activation?
    ensures Placid(s, SendCall(Finish(s, j), g, Request, throws).state, {}, {})
    ensures Placid(s, Drop(Finish(s, j), g), {}, {})
  {
    FinishPlacid(s, j);
    hide *;
    SendPlacid(Finish(s, j), g, Request, throws);
    DropPlacid(Finish(s, j), g);
    PlacidThen(s, Finish(s, j), SendCall(Finish(s, j), g, Request, throws).state, {}, {});
    PlacidThen(s, Finish(s, j), Drop(Finish(s, j), g), {}, {});
  }

  lemma MicrotaskPlacid(s: State, j: nat, throws: bool)
    requires Inv(s) && Ready(s, j) && !RefusedJob(s, j)
    ensures Placid(s, RunMicrotask(s, j, throws), {}, {})
  {
    assert JobsOk(s);
    hide Placid, Inv, JobsOk, Drop, SendCall, ContinueRecovery, Recoil, CloseOpening, AcceptGrant, BeginActivation, Finish;
    match s.jobs[j]
    case Activation(x, origin, Begin(g)) => BeginPlacid(s, j, x, origin, g, throws);
    case Activation(x, origin, Granted(g, c, result)) => AcceptPlacid(s, j, x, g, c, result, throws);
    case Activation(x, origin, Settled(g, why)) => ClosePlacid(s, j, x, origin, g, why);
    case Activation(x, origin, Rejected(why)) => RecoilPlacid(s, j, x, origin, why);
    case Rpc(Some(g)) => EndPlacid(s, j, g, throws);
    case Recovery(phase) => RecoveryPlacid(s, j, phase);
    case Beat(g) => EndPlacid(s, j, g, throws);
  }

  // ----- Replies and timers --------------------------------------------------------------------

  /** Nobody who waits for a reply has been refused. */
  lemma Unrefused(s: State, c: nat)
    requires CallOk(s, c)
    ensures s.pending[c].purpose.Subscribe? || s.pending[c].purpose.Cleanup? ==> !RefusedJob(s, s.pending[c].purpose.job)
  {
  }

  lemma RejectPlacid(s: State, c: nat, how: Outcome, why: Fault)
    requires JobsOk(s) && CallOk(s, c) && (s.pending[c].purpose.Subscribe? ==> !why.Refused?)
    ensures Placid(s, Reject(Unpend(s, c, how), s.pending[c], why), {}, {})
  {
    Unrefused(s, c);
    var t, p := Unpend(s, c, how), s.pending[c];
    SamePlacid(s, t);
    hide Placid, RefusedJob, SettleJob, Spawn, JobsOk;
    match p.purpose
    case Subscribe(j) => UnpendedPlacid(s, t, j, Some(why));
    case Cleanup(j, _) => UnpendedPlacid(s, t, j, None);
    case Heartbeat => BeatPlacid(s, t, p.gen);
    case _ =>
  }

  lemma BeatPlacid(s: State, t: State, g: nat)
    requires JobsOk(s) && t == s.(pending := t.pending, log := t.log)
    ensures Placid(s, Spawn(t, Beat(g)), {}, {})
  {
    assert s.jobSeq in s.jobs ==> JobOk(s, s.jobSeq);
    JobPlacid(s, Spawn(t, Beat(g)), s.jobSeq);
  }

  lemma ResolvePlacid(s: State, c: nat, how: Outcome, reply: Reply)
    requires CallOk(s, c) && !reply.Error?
    ensures Placid(s, Resolve(Unpend(s, c, how), c, s.pending[c], reply), {}, {})
  {
    Unrefused(s, c);
    var t, p := Unpend(s, c, how), s.pending[c];
    SamePlacid(s, t);
    hide Placid, RefusedJob;
    match p.purpose
    case Subscribe(j) => GrantPlacid(s, t, c, p, j, reply);
    case Cleanup(j, _) => UnpendedPlacid(s, t, j, None);
    case Heartbeat => SamePlacid(s, t.(beating := false));
    case _ =>
  }

  lemma UnpendedPlacid(s: State, t: State, j: nat, why: Option<Fault>)
    requires t == s.(pending := t.pending, log := t.log) && !RefusedJob(s, j) && (why.Some? ==> !why.value.Refused?)
    ensures Placid(s, SettleJob(t, j, why), {}, {})
  {
    SamePlacid(s, t);
    assert !RefusedJob(t, j);
    hide *;
    SettlePlacid(t, j, why);
    PlacidThen(s, t, SettleJob(t, j, why), {}, {});
  }

  lemma GrantPlacid(s: State, t: State, c: nat, p: Pending, j: nat, reply: Reply)
    requires t == s.(pending := t.pending, log := t.log) && !RefusedJob(s, j) && !reply.Error? && p.purpose == Subscribe(j)
    ensures Placid(s, Resolve(t, c, p, reply), {}, {})
  {
    var u := Resolve(t, c, p, reply);
    SamePlacid(s, t);
    if j in s.jobs && s.jobs[j].Activation? {
      assert u.subs == s.subs && u.jobs == s.jobs[j := u.jobs[j]] && !Refusal(u.jobs[j]) && u.subSeq == s.subSeq;
      hide *;
      ResolvedPlacid(s, u, j);
    }
  }

  lemma ResolvedPlacid(s: State, u: State, j: nat)
    requires u.subs == s.subs && u.subSeq == s.subSeq && j in u.jobs && u.jobs == s.jobs[j := u.jobs[j]]
    requires !RefusedJob(s, j) && !Refusal(u.jobs[j])
    ensures Placid(s, u, {}, {})
  {
    hide Placid;
    JobPlacid(s, u, j);
  }

  /** The frame answers a subscribe call of the active connection with an error. */
  predicate Refusing(s: State, e: Event) {
    e.Frame? && e.reply.Error? && s.active == Some(e.gen) && e.call in s.pending && s.pending[e.call].gen == e.gen &&
    s.pending[e.call].purpose.Subscribe?
  }

  lemma FramePlacid(s: State, g: nat, c: nat, reply: Reply)
    requires Inv(s) && !Refusing(s, Frame(g, c, reply))
    ensures Placid(s, Deliver(s, g, c, reply), {}, {})
  {
    SamePlacid(s, s);
    if s.active == Some(g) && c in s.pending && s.pending[c].gen == g {
      assert JobsOk(s) && CallOk(s, c);
      if reply.Error? { RejectPlacid(s, c, Answered(g), Refused(reply.code)); } else { ResolvePlacid(s, c, Answered(g), reply); }
    }
    hide Placid, Reject, Resolve, Unpend, Inv, CallOk, JobsOk;
  }

  lemma ExpirePlacid(s: State, c: nat)
    requires Inv(s)
    ensures Placid(s, Expire(s, c), {}, {})
  {
    SamePlacid(s, s);
    if c in s.pending {
      assert JobsOk(s) && CallOk(s, c);
      RejectPlacid(s, c, Expired, TimedOut);
    }
    hide Placid, Reject, Unpend, Inv, CallOk, JobsOk;
  }

  lemma TickPlacid(s: State, g: nat, throws: bool)
    ensures Placid(s, HeartbeatTick(s, g, throws), {}, {})
  {
    SamePlacid(s, s);
    SendPlacid(s, g, Heartbeat, throws);
    var t := SendCall(s, g, Heartbeat, throws).state;
    SamePlacid(t, t.(beating := true));
    PlacidThen(s, t, t.(beating := true), {}, {});
    hide Placid, SendCall;
  }

  lemma OpenedPlacid(s: State)
    ensures Placid(s, SocketOpened(s), {}, {}) && Placid(s, DialFails(s), {}, {})
  {
    hide Stays, Wake, Strand;
    forall k ensures Stays(s, SocketOpened(s), k) && Stays(s, DialFails(s), k) { WokenStays(s, k); StrandedStays(s, k); }
  }

  lemma WakeStays(job: Job, g: nat)
    ensures Refusal(job) || Refusal(Wake(job, g)) ==> Wake(job, g) == job
    ensures Refusal(job) || Refusal(Strand(job)) ==> Strand(job) == job
  {
  }

  lemma WokenStays(s: State, k: nat)
    ensures Stays(s, SocketOpened(s), k)
  {
    if k in s.jobs { WakeStays(s.jobs[k], s.generation); }
    hide Wake, Refusal;
  }

  lemma StrandedStays(s: State, k: nat)
    ensures Stays(s, DialFails(s), k)
  {
    var t := DialFails(s).jobs;
    assert k in t <==> k in s.jobs && s.jobs[k] != Rpc(None);
    if k in s.jobs {
      WakeStays(s.jobs[k], 0);
      assert Refusal(s.jobs[k]) ==> s.jobs[k] != Rpc(None);
    }
    assert k in t ==> t[k] == Strand(s.jobs[k]);
    hide Strand, Refusal, DialFails;
  }

  lemma StreamPlacid(s: State)
    requires JobsOk(s)
    ensures Placid(s, OpenStream(s), {}, {})
  {
    assert s.jobSeq in s.jobs ==> JobOk(s, s.jobSeq);
    hide Stays;
    forall k ensures Stays(s, OpenStream(s), k) { StreamStays(s, k); }
  }

  lemma StreamStays(s: State, k: nat)
    requires s.jobSeq !in s.jobs
    ensures Stays(s, OpenStream(s), k)
  {
  }

  lemma RetryPlacid(s: State, x: nat)
    requires JobsOk(s)
    ensures Placid(s, RetryFires(s, x), {}, {})
  {
    hide Placid, Spawn, JobsOk, RefusedJob;
    SamePlacid(s, s);
    if x in s.subs && s.subs[x].retry.Some? {
      var g := s.subs[x].retry.value;
      SpawnSubs(s, Activation(x, FromRetry(g), Begin(g)));
      SpawnPlacid(s, Activation(x, FromRetry(g), Begin(g)));
      ClearedPlacid(s, s, x);
      ClearedPlacid(s, Spawn(s, Activation(x, FromRetry(g), Begin(g))), x);
    }
  }

  lemma SpawnSubs(s: State, job: Job)
    ensures Spawn(s, job).subs == s.subs
  {
  }

  lemma ClearedPlacid(s: State, t: State, x: nat)
    requires Placid(s, t, {}, {}) && t.subs == s.subs && x in t.subs
    ensures Placid(s, ClearRetry(t, x), {}, {})
  {
    assert ClearRetry(t, x).subs.Keys == t.subs.Keys;
    SamePlacid(t, ClearRetry(t, x));
    hide *;
    PlacidThen(s, t, ClearRetry(t, x), {}, {});
  }

  lemma ReconnectPlacid(s: State)
    requires JobsOk(s)
    ensures Placid(s, ReconnectFires(s), {}, {})
  {
    assert s.jobSeq in s.jobs ==> JobOk(s, s.jobSeq);
    JobPlacid(s, ReconnectFires(s), s.jobSeq);
  }

  /** Every other event leaves the table and the refusals alone. */
  lemma StepPlacid(s: State, e: Event)
    requires Inv(s) && Enabled(s, e) && !e.UserClose? && !Refusing(s, e) && !(e.Microtask? && RefusedJob(s, e.job))
    ensures Placid(s, Step(s, e), {}, {})
  {
    assert JobsOk(s);
    hide Placid, Inv, JobsOk, Drop, Deliver, Expire, HeartbeatTick, RunMicrotask, EnsureConn, Refusing, RefusedJob,
      OpenStream, RetryFires, ReconnectFires, SocketOpened, DialFails;
    match e
    case UserStream => StreamPlacid(s);
    case UserCall => EnsurePlacid(s, Rpc(None));
    case Opened => OpenedPlacid(s);
    case DialError => OpenedPlacid(s);
    case Closed(g) => DropPlacid(s, g);
    case Frame(g, c, reply) => FramePlacid(s, g, c, reply);
    case CallTimer(c) => ExpirePlacid(s, c);
    case HeartbeatTimer(g, throws) => TickPlacid(s, g, throws);
    case ReconnectTimer => ReconnectPlacid(s);
    case RetryTimer(x) => RetryPlacid(s, x);
    case Microtask(j, throws) => MicrotaskPlacid(s, j, throws);
    case UserClose(_, _) =>
  }

  // ----- The three events that do not ---------------------------------------------------------------

  lemma ClosedPlacid(s: State, x: nat, throws: bool)
    ensures Placid(s, CloseStream(s, x, throws), {x}, {}) && x !in CloseStream(s, x, throws).subs
  {
    SamePlacid(s, s);
    if x in s.subs {
      if s.active.None? || !LiveOn(s.subs[x], s.active.value) { DiscardPlacid(s, s, x); }
      else {
        var p := Pending(s.active.value, Release(s.subs[x].remote.value.stream));
        LossPlacid(s, s, p);
        DiscardPlacid(s, Drop(Misfire(s, p), p.gen), x);
        HandOverPlacid(s, x, s.active.value, s.subs[x].remote.value.stream);
      }
    } else { LeaveWeaker(s, x); }
    hide Placid, Drop, Misfire, Discard, HandOver;
  }

  lemma LeaveWeaker(s: State, x: nat)
    ensures Placid(s, s, {x}, {})
  {
  }

  lemma DiscardPlacid(s: State, t: State, x: nat)
    requires Placid(s, t, {}, {})
    ensures Placid(s, Discard(t, x), {x}, {}) && x !in Discard(t, x).subs
  {
    hide Stays;
    forall k ensures Stays(s, Discard(t, x), k) { assert Stays(s, t, k); StaysDiscard(s, t, x, k); }
  }

  lemma StaysDiscard(s: State, t: State, x: nat, k: nat)
    requires Stays(s, t, k)
    ensures Stays(s, Discard(t, x), k)
  {
  }

  lemma HandOverPlacid(s: State, x: nat, g: nat, stream: string)
    ensures Placid(s, HandOver(s, x, g, stream), {x}, {}) && x !in HandOver(s, x, g, stream).subs
  {
    hide HandBack;
  }

  /** A refusal settles the promise of the job that asked, and nothing else. */
  lemma RefusalPlacid(s: State, e: Event)
    requires Inv(s) && Refusing(s, e)
    ensures var j := s.pending[e.call].purpose.job; var t := Step(s, e);
            Placid(s, t, {}, {j}) && j in s.jobs && s.jobs[j].Activation? && !RefusedJob(s, j) && RefusedJob(t, j) &&
            t.jobs[j].sub == s.jobs[j].sub && t.jobs[j].stage.why == Some(Refused(e.reply.code))
  {
    assert CallOk(s, e.call);
    var j := s.pending[e.call].purpose.job;
    var t := Unpend(s, e.call, Answered(e.gen));
    assert Step(s, e) == SettleJob(t, j, Some(Refused(e.reply.code)));
    hide Inv, Step, CallOk, Stays;
    forall k | k != j ensures Stays(s, SettleJob(t, j, Some(Refused(e.reply.code))), k) {
      SettleStays(s, t, j, Refused(e.reply.code), k);
    }
  }

  lemma SettleStays(s: State, t: State, j: nat, why: Fault, k: nat)
    requires t == s.(pending := t.pending, log := t.log) && k != j
    ensures Stays(s, SettleJob(t, j, Some(why)), k)
  {
  }

  /** The codes by which the server says that it will never accept the subscription: method not found, invalid params. */
  predicate Final(code: int) {
    code == -32601 || code == -32602
  }

  /** The owner of a refused promise takes its subscription out of the table exactly when the refusal is final. */
  lemma RefusedEnds(s: State, j: nat, throws: bool)
    requires RefusedJob(s, j)
    ensures var t, x := Step(s, Microtask(j, throws)), s.jobs[j].sub;
            Placid(s, t, {x}, {j}) && !RefusedJob(t, j) &&
            (x in t.subs <==> x in s.subs && !Final(s.jobs[j].stage.why.value.code))
  {
    var x, origin, why := s.jobs[j].sub, s.jobs[j].origin, s.jobs[j].stage.why;
    var t := CloseOpening(s, j, x, origin, why);
    assert Step(s, Microtask(j, throws)) == t;
    EndTables(s, j, x, origin, why.value);
    hide Step, Stays, CloseOpening, Refusal, Final;
    forall k | k != j ensures Stays(s, t, k) { EndStays(s, t, j, t.jobs[j], k); }
  }

  lemma DisownTables(u: State, j: nat, x: nat, origin: Origin, why: Fault)
    ensures var t := Disown(u, j, x, origin, Some(why));
            t.subSeq == u.subSeq && t.jobs == u.jobs[j := Activation(x, origin, Rejected(why))] && !RefusedJob(t, j) &&
            t.subs.Keys == u.subs.Keys
  {
  }

  lemma EndTables(s: State, j: nat, x: nat, origin: Origin, why: Fault)
    requires why.Refused?
    ensures var t := CloseOpening(s, j, x, origin, Some(why));
            t.subSeq == s.subSeq && t.jobs == s.jobs[j := Activation(x, origin, Rejected(why))] && !RefusedJob(t, j) &&
            t.subs.Keys == if Final(why.code) then s.subs.Keys - {x} else s.subs.Keys
  {
    assert Permanent(why) <==> Final(why.code);
    hide Permanent, Final, Disown, RefusedJob;
    var u := if x in s.subs && Permanent(why) then Discard(s, x) else s;
    assert u.subs.Keys == if Permanent(why) then s.subs.Keys - {x} else s.subs.Keys;
    DisownTables(u, j, x, origin, why);
  }

  lemma EndStays(s: State, t: State, j: nat, job: Job, k: nat)
    requires k != j && t.jobs == s.jobs[j := job]
    ensures Stays(s, t, k)
  {
  }

  // ----- Over every run --------------------------------------------------------------------------------

  lemma {:induction false} RunSnoc(s: State, events: seq<Event>, e: Event)
    ensures Run(s, events + [e]) == Step(Run(s, events), e)
    ensures Legal(s, events + [e]) <==> Legal(s, events) && Enabled(Run(s, events), e)
    decreases events
  {
    hide Step, Enabled;
    if events == [] {
      assert [] + [e] == [e] && [e][1..] == [];
    } else {
      assert (events + [e])[0] == events[0] && (events + [e])[1..] == events[1..] + [e];
      RunSnoc(Step(s, events[0]), events[1..], e);
    }
  }

  /** The state after the first `n` events. */
  function After(events: seq<Event>, n: nat): State
    requires n <= |events|
  {
    Run(Init, events[..n])
  }

  lemma {:induction false} LegalPrefix(events: seq<Event>, n: nat)
    requires Legal(Init, events) && n <= |events|
    ensures Legal(Init, events[..n])
    decreases |events| - n
  {
    if n == |events| { assert events[..n] == events; }
    else {
      LegalPrefix(events, n + 1);
      assert events[..n + 1] == events[..n] + [events[n]];
      RunSnoc(Init, events[..n], events[n]);
    }
  }

  lemma NextStep(events: seq<Event>, n: nat)
    requires Legal(Init, events) && n < |events|
    ensures Inv(After(events, n)) && Enabled(After(events, n), events[n]) && After(events, n + 1) == Step(After(events, n), events[n])
  {
    hide Inv, Legal, Run, Step, Enabled;
    LegalPrefix(events, n);
    LegalPrefix(events, n + 1);
    assert events[..n + 1] == events[..n] + [events[n]];
    RunSnoc(Init, events[..n], events[n]);
    InitInv();
    RunKeeps(Init, events[..n]);
  }

  predicate ByUser(events: seq<Event>, i: nat, x: nat) {
    i < |events| && events[i].UserClose? && events[i].sub == x
  }

  /** Event `i` answers the subscribe call of `x` with one of the two final codes. */
  predicate ByServer(events: seq<Event>, i: nat, x: nat) {
    i < |events| && var s, e := After(events, i), events[i];
    Refusing(s, e) && (e.reply.code == -32601 || e.reply.code == -32602) &&
    var j := s.pending[e.call].purpose.job; j in s.jobs && s.jobs[j].Activation? && s.jobs[j].sub == x
  }

  /** A refusal on its way to its owner has come in with one of the events so far. */
  lemma {:induction false} RefusalCame(events: seq<Event>, n: nat, j: nat)
    requires Legal(Init, events) && n <= |events| && RefusedJob(After(events, n), j) && Final(After(events, n).jobs[j].stage.why.value.code)
    ensures exists i :: 0 <= i < n && ByServer(events, i, After(events, n).jobs[j].sub)
    decreases n
  {
    if n == 0 { NoJobs(events); }
    else {
      var s, e, t := After(events, n - 1), events[n - 1], After(events, n);
      NextStep(events, n - 1);
      hide Step, Enabled, Inv, After, Refusing, ByServer, Stays, Refusal;
      StepRefusals(s, e, j);
      if RefusedJob(s, j) && t.jobs[j] == s.jobs[j] {
        RefusalCame(events, n - 1, j);
        var i :| 0 <= i < n - 1 && ByServer(events, i, s.jobs[j].sub);
        assert ByServer(events, i, t.jobs[j].sub);
      } else {
        CameNow(events, n - 1, j);
        assert ByServer(events, n - 1, t.jobs[j].sub);
      }
    }
  }

  lemma NoJobs(events: seq<Event>)
    ensures After(events, 0).jobs == map[]
  {
    assert events[..0] == [];
  }

  lemma CameNow(events: seq<Event>, i: nat, j: nat)
    requires i < |events| && RefusedJob(After(events, i + 1), j) && Final(After(events, i + 1).jobs[j].stage.why.value.code)
    requires var s, e, t := After(events, i), events[i], After(events, i + 1);
             Refusing(s, e) && s.pending[e.call].purpose.job == j && j in s.jobs && s.jobs[j].Activation? &&
             s.jobs[j].sub == t.jobs[j].sub && t.jobs[j].stage.why == Some(Refused(e.reply.code))
    ensures ByServer(events, i, After(events, i + 1).jobs[j].sub)
  {
    hide After;
  }

  /** A refused promise was refused before, or the event has refused it. */
  lemma StepRefusals(s: State, e: Event, j: nat)
    requires Inv(s) && Enabled(s, e) && RefusedJob(Step(s, e), j)
    ensures var t := Step(s, e);
            (RefusedJob(s, j) && t.jobs[j] == s.jobs[j]) ||
            (Refusing(s, e) && s.pending[e.call].purpose.job == j && j in s.jobs && s.jobs[j].Activation? &&
             s.jobs[j].sub == t.jobs[j].sub && t.jobs[j].stage.why == Some(Refused(e.reply.code)))
  {
    Moves(s, e);
    if !(Refusing(s, e) && s.pending[e.call].purpose.job == j) { PlacidAt(s, Step(s, e), Gone(s, e), Moved(s, e), j); }
    hide *;
  }

  /** The subscription an event may take out of the table, and the job whose refusal it brings or ends. */
  function Gone(s: State, e: Event): set<nat> {
    if e.UserClose? then {e.sub} else if e.Microtask? && RefusedJob(s, e.job) then {s.jobs[e.job].sub} else {}
  }

  function Moved(s: State, e: Event): set<nat> {
    if Refusing(s, e) then {s.pending[e.call].purpose.job} else if e.Microtask? && RefusedJob(s, e.job) then {e.job} else {}
  }

  lemma Moves(s: State, e: Event)
    requires Inv(s) && Enabled(s, e)
    ensures Placid(s, Step(s, e), Gone(s, e), Moved(s, e))
    ensures e.UserClose? ==> e.sub !in Step(s, e).subs
    ensures Refusing(s, e) ==>
      var j := s.pending[e.call].purpose.job;
      j in s.jobs && s.jobs[j].Activation? && !RefusedJob(s, j) && RefusedJob(Step(s, e), j) &&
      Step(s, e).jobs[j].sub == s.jobs[j].sub && Step(s, e).jobs[j].stage.why == Some(Refused(e.reply.code))
    ensures e.Microtask? && RefusedJob(s, e.job) ==>
      var x := s.jobs[e.job].sub;
      !RefusedJob(Step(s, e), e.job) && (x in Step(s, e).subs <==> x in s.subs && !Final(s.jobs[e.job].stage.why.value.code))
  {
    hide Inv, Enabled, Step, Placid, RefusedJob;
    if e.UserClose? { CloseIs(s, e); ClosedPlacid(s, e.sub, e.throws); }
    else if Refusing(s, e) { RefusalPlacid(s, e); }
    else if e.Microtask? && RefusedJob(s, e.job) { RefusedEnds(s, e.job, e.throws); }
    else { StepPlacid(s, e); }
    hide CloseStream;
  }

  lemma CloseIs(s: State, e: Event)
    requires e.UserClose?
    ensures Step(s, e) == CloseStream(s, e.sub, e.throws)
  {
    hide CloseStream;
  }

  /** In one step `x` leaves only by the user's hand, or because its owner has been told of a final refusal. */
  lemma StepLeaves(s: State, e: Event, x: nat)
    requires Inv(s) && Enabled(s, e) && x in s.subs && x !in Step(s, e).subs
    ensures (e.UserClose? && e.sub == x) ||
      (e.Microtask? && RefusedJob(s, e.job) && s.jobs[e.job].sub == x && Final(s.jobs[e.job].stage.why.value.code))
  {
    Moves(s, e);
    hide Inv, Enabled, Step, Refusing, Stays;
  }

  /** One of the first `n` events is the user closing `x`, not before event `k`, or a final answer to its subscribe call. */
  ghost predicate Explained(events: seq<Event>, k: nat, n: nat, x: nat) {
    exists i :: 0 <= i < n && ((k <= i && ByUser(events, i, x)) || ByServer(events, i, x))
  }

  lemma ExplainedOn(events: seq<Event>, k: nat, n: nat, x: nat)
    requires Explained(events, k, n, x)
    ensures Explained(events, k, n + 1, x)
  {
    hide ByUser, ByServer;
  }

  lemma ExplainedNow(events: seq<Event>, k: nat, n: nat, x: nat)
    requires n < |events| && k <= n && Inv(After(events, n)) && Enabled(After(events, n), events[n])
    requires Legal(Init, events) && x in After(events, n).subs && x !in Step(After(events, n), events[n]).subs
    ensures Explained(events, k, n + 1, x)
  {
    var s, e := After(events, n), events[n];
    hide Step, Enabled, Inv, After, Legal, ByServer, Final;
    StepLeaves(s, e, x);
    if e.UserClose? { assert ByUser(events, n, x); } else { RefusalCame(events, n, e.job); }
  }

  lemma {:induction false} LeavesExplained(events: seq<Event>, k: nat, n: nat, x: nat)
    requires Legal(Init, events) && k <= n <= |events| && x in After(events, k).subs && x !in After(events, n).subs
    ensures Explained(events, k, n, x)
    decreases n
  {
    if k < n {
      NextStep(events, n - 1);
      hide Step, Enabled, Inv, After, Legal, Explained;
      if x !in After(events, n - 1).subs {
        LeavesExplained(events, k, n - 1, x);
        ExplainedOn(events, k, n - 1, x);
      } else { ExplainedNow(events, k, n - 1, x); }
    }
  }

  /** A subscription leaves the table only because the user closes it, or after the server has answered its subscribe
      call with one of the two final codes. */
  lemma LeavesOnly(events: seq<Event>, k: nat, n: nat, x: nat)
    requires Legal(Init, events) && k <= n <= |events| && x in After(events, k).subs && x !in After(events, n).subs
    ensures exists i :: 0 <= i < n && ((k <= i && ByUser(events, i, x)) || ByServer(events, i, x))
  {
    LeavesExplained(events, k, n, x);
  }

  /** Ids are never given out twice, and subscriptions have one. */
  lemma StepStaysOut(s: State, e: Event, x: nat)
    requires Inv(s) && Enabled(s, e) && x < s.subSeq
    ensures x < Step(s, e).subSeq && (x !in s.subs ==> x !in Step(s, e).subs)
  {
    Moves(s, e);
    hide Inv, Enabled, Step, Refusing, Stays;
  }

  /** Once out of the table, a subscription stays out. */
  lemma {:induction false} GoneForGood(events: seq<Event>, k: nat, n: nat, x: nat)
    requires Legal(Init, events) && k <= n <= |events| && x < After(events, k).subSeq && x !in After(events, k).subs
    ensures x < After(events, n).subSeq && x !in After(events, n).subs
    decreases n
  {
    hide *;
    if k < n {
      GoneForGood(events, k, n - 1, x);
      NextStep(events, n - 1);
      StepStaysOut(After(events, n - 1), events[n - 1], x);
    }
  }

  /** The refusal is on its way, or has done its work. */
  ghost predicate Doing(s: State, j: nat, x: nat) {
    x < s.subSeq && (x in s.subs ==> RefusedJob(s, j) && s.jobs[j].sub == x && Final(s.jobs[j].stage.why.value.code))
  }

  lemma StepDoing(s: State, e: Event, j: nat, x: nat)
    requires Inv(s) && Enabled(s, e) && Doing(s, j, x)
    ensures Doing(Step(s, e), j, x)
  {
    StepStaysOut(s, e, x);
    if x in s.subs && x in Step(s, e).subs {
      Moves(s, e);
      assert j !in Moved(s, e);
      PlacidAt(s, Step(s, e), Gone(s, e), Moved(s, e), j);
    }
    hide Inv, Enabled, Step, Refusing, Placid;
  }

  lemma {:induction false} DoingOn(events: seq<Event>, i: nat, n: nat, j: nat, x: nat)
    requires Legal(Init, events) && i <= n <= |events| && Doing(After(events, i), j, x)
    ensures Doing(After(events, n), j, x)
    decreases n
  {
    if i < n {
      hide Inv, Enabled, Step, After, Legal, Doing;
      DoingOn(events, i, n - 1, j, x);
      NextStep(events, n - 1);
      StepDoing(After(events, n - 1), events[n - 1], j, x);
    }
  }

  /** After such an answer it does leave: as soon as nothing is runnable, it is out of the table, and it stays out. */
  lemma RefusalRemoves(events: seq<Event>, i: nat, n: nat, x: nat)
    requires Legal(Init, events) && i < n <= |events| && ByServer(events, i, x) && Quiet(After(events, n))
    ensures x !in After(events, n).subs
  {
    NextStep(events, i);
    var s, e := After(events, i), events[i];
    var j := s.pending[e.call].purpose.job;
    assert JobOk(s, j);
    RefusalPlacid(s, e);
    assert Doing(After(events, i + 1), j, x);
    DoingOn(events, i + 1, n, j, x);
    assert RefusedJob(After(events, n), j) ==> Ready(After(events, n), j);
  }
}
