/** When the client sends a heartbeat, counts a retry and calls the resync handlers. */
module ClientTimers {
  import opened Options
  import opened ClientModel
  import opened ClientInvariant
  import opened ClientSteps
  import opened ClientTheorems

  predicate Heart(s: State, c: nat) {
    c in s.pending && s.pending[c].purpose.Heartbeat?
  }

  predicate Beating(s: State, j: nat, g: nat) {
    j in s.jobs && s.jobs[j] == Beat(g)
  }

  /** An activation of the recovery has failed because its connection was gone. */
  predicate Failed(s: State, j: nat, g: nat) {
    j in s.jobs && s.jobs[j] == Recovery(Restoring(g, true))
  }

  /** The flag is up exactly while one heartbeat waits for its reply, or its failure is about to drop the connection; and a
      recovery that has failed has lost its connection. */
  ghost predicate BeatOk(s: State) {
    (forall c, d :: Heart(s, c) && Heart(s, d) ==> c == d) && (forall c :: Heart(s, c) ==> s.beating) &&
    (s.beating && s.active.Some? ==> (exists c :: Heart(s, c)) || exists j :: Beating(s, j, s.active.value)) &&
    forall j: nat, g: nat :: Failed(s, j, g) ==> s.active != Some(g)
  }

  /** The same heartbeats wait, no failed one is forgotten, and no recovery fails while it has its connection. */
  ghost predicate Beats(s: State, t: State) {
    t.active == s.active && t.beating == s.beating && (forall c :: Heart(t, c) <==> Heart(s, c)) &&
    (forall j, g :: Beating(s, j, g) ==> Beating(t, j, g)) &&
    forall j: nat, g: nat :: Failed(t, j, g) ==> Failed(s, j, g) || s.active != Some(g)
  }

  lemma BeatsOn(s: State, t: State)
    requires BeatOk(s) && Beats(s, t)
    ensures BeatOk(t)
  {
    hide Heart, Beating, Failed;
    if s.beating && s.active.Some? && !exists c :: Heart(s, c) {
      var j :| Beating(s, j, s.active.value);
      assert Beating(t, j, s.active.value);
    }
  }

  /** Without a connection no call waits at all. */
  lemma BeatOff(t: State)
    requires Inv(t) && t.active.None?
    ensures BeatOk(t)
  {
    forall c ensures !Heart(t, c) { assert c in t.pending ==> CallOk(t, c); }
    hide Inv, Heart, Beating, Failed;
  }

  // ----- Steps that have nothing to do with heartbeats ------------------------------------------

  /** Nothing but one job changes, and it is no failed heartbeat. */
  predicate SameBut(s: State, t: State, j: nat) {
    t.active == s.active && t.beating == s.beating && t.pending == s.pending && (j in s.jobs ==> !s.jobs[j].Beat?)
  }

  lemma EndBeats(s: State, t: State, j: nat)
    requires SameBut(s, t, j) && t.jobs == s.jobs - {j}
    ensures Beats(s, t)
  {
  }

  lemma PutBeats(s: State, t: State, j: nat, job: Job)
    requires SameBut(s, t, j) && t.jobs == s.jobs[j := job]
    requires job.Recovery? && job.phase.Restoring? && job.phase.failed ==> s.active != Some(job.phase.gen)
    ensures Beats(s, t)
  {
  }

  /** A call that is no heartbeat enters the table. */
  lemma CallBeats(s: State, t: State, p: Pending)
    requires t.active == s.active && t.beating == s.beating && t.jobs == s.jobs
    requires s.callSeq !in s.pending && !p.purpose.Heartbeat? && t.pending == s.pending[s.callSeq := p]
    ensures Beats(s, t)
  {
  }

  lemma EnlistBeats(s: State, p: Pending)
    requires Inv(s) && !p.purpose.Heartbeat?
    ensures Beats(s, Enlist(s, p))
  {
    FreshIds(s);
    hide Inv, Beats;
    CallBeats(s, Enlist(s, p), p);
  }

  lemma SettleBeats(s: State, j: nat, why: Option<Fault>)
    ensures Beats(s, SettleJob(s, j, why))
  {
  }

  lemma SubsBeats(s: State, t: State)
    requires t.active == s.active && t.beating == s.beating && t.pending == s.pending && t.jobs == s.jobs
    ensures Beats(s, t)
  {
  }

  lemma BeatsThen(s: State, t: State, u: State)
    requires Beats(s, t) && Beats(t, u)
    ensures Beats(s, u)
  {
    hide Heart, Beating, Failed;
  }

  lemma DropIs(s: State, g: nat)
    ensures if s.active == Some(g) then Drop(s, g).active.None? else Drop(s, g) == s
  {
    hide RejectAll, ForgetAll;
    assert s.active == Some(g) ==> Drop(s, g).active.None?;
  }

  lemma FreshIds(s: State)
    requires Inv(s)
    ensures s.callSeq !in s.pending && s.jobSeq !in s.jobs
  {
    assert s.callSeq in s.pending ==> CallOk(s, s.callSeq);
    assert s.jobSeq in s.jobs ==> JobOk(s, s.jobSeq);
  }

  /** The connection is lost, or nothing happens to heartbeats. */
  ghost predicate Silent(s: State, t: State) {
    t.active.None? || Beats(s, t)
  }

  lemma SpawnBeats(s: State, t: State, job: Job)
    requires Inv(s) && t.active == s.active && t.beating == s.beating && t.pending == s.pending && t.jobs == s.jobs[s.jobSeq := job]
    requires !(job.Recovery? && job.phase.Restoring?)
    ensures Beats(s, t)
  {
    FreshIds(s);
    hide Inv, Beats;
    PutBeats(s, t, s.jobSeq, job);
  }

  lemma ReleaseSilent(s: State, x: nat, g: nat, stream: string)
    requires Inv(s) && s.active == Some(g)
    ensures Beats(s, HandOver(s, x, g, stream))
    ensures Discard(Drop(Misfire(s, Pending(g, Release(stream))), g), x).active.None?
  {
    FreshIds(s);
    DropIs(Misfire(s, Pending(g, Release(stream))), g);
    hide Inv, Beats, Drop, HandBack;
    CallBeats(s, HandOver(s, x, g, stream), Pending(g, Release(stream)));
  }

  lemma CloseSilent(s: State, x: nat, throws: bool)
    requires Inv(s)
    ensures Silent(s, CloseStream(s, x, throws))
  {
    SubsBeats(s, s);
    SubsBeats(s, Discard(s, x));
    hide Inv, Beats, HandOver, Drop, Misfire, Discard;
    if x in s.subs && s.active.Some? && LiveOn(s.subs[x], s.active.value) {
      ReleaseSilent(s, x, s.active.value, s.subs[x].remote.value.stream);
    }
  }

  lemma RetrySilent(s: State, x: nat)
    requires Inv(s)
    ensures Silent(s, RetryFires(s, x))
  {
    hide Inv, Beats;
    SubsBeats(s, s);
    if x in s.subs && s.subs[x].retry.Some? {
      SubsBeats(s, ClearRetry(s, x));
      var g := s.subs[x].retry.value;
      SpawnBeats(s, ClearRetry(Spawn(s, Activation(x, FromRetry(g), Begin(g))), x), Activation(x, FromRetry(g), Begin(g)));
    }
  }

  lemma FinishBeats(s: State, j: nat)
    requires j in s.jobs && !s.jobs[j].Beat?
    ensures Beats(s, Finish(s, j))
  {
    hide Beats;
    EndBeats(s, Finish(s, j), j);
  }

  lemma SetBeats(s: State, j: nat, job: Job)
    requires j in s.jobs && !s.jobs[j].Beat? && !job.Recovery?
    ensures Beats(s, SetJob(s, j, job))
  {
    hide Beats;
    PutBeats(s, SetJob(s, j, job), j, job);
  }

  lemma UnsentBeats(s: State, j: nat, x: nat, origin: Origin, g: nat)
    requires x in s.subs && j in s.jobs && !s.jobs[j].Beat?
    ensures Beats(s, OwnFailure(ClearRetry(s, x), j, x, origin, g, ConnectionLost))
  {
    hide Beats;
    PutBeats(s, OwnFailure(ClearRetry(s, x), j, x, origin, g, ConnectionLost), j, Activation(x, origin, Settled(g, Some(ConnectionLost))));
  }

  lemma SentBeats(s: State, j: nat, x: nat, origin: Origin, g: nat)
    requires Inv(s) && x in s.subs && j in s.jobs && !s.jobs[j].Beat?
    ensures Beats(s, Own(ClearRetry(s, x), j, x, origin, g))
  {
    var u := Enlist(s, Pending(g, Subscribe(j)));
    var t := Own(ClearRetry(s, x), j, x, origin, g);
    EnlistBeats(s, Pending(g, Subscribe(j)));
    hide Inv, Beats;
    PutBeats(u, t, j, Activation(x, origin, AwaitGrant(g, s.callSeq)));
    BeatsThen(s, u, t);
  }

  lemma ThrownOff(s: State, j: nat, x: nat, origin: Origin, g: nat)
    requires x in s.subs && s.active == Some(g)
    ensures OwnFailure(Drop(Misfire(ClearRetry(s, x), Pending(g, Subscribe(j))), g), j, x, origin, g, SendFailed).active.None?
  {
    DropIs(Misfire(ClearRetry(s, x), Pending(g, Subscribe(j))), g);
    hide Drop;
  }

  lemma BeginSilent(s: State, j: nat, x: nat, origin: Origin, g: nat, throws: bool)
    requires Inv(s) && j in s.jobs && s.jobs[j] == Activation(x, origin, Begin(g))
    ensures Silent(s, BeginActivation(s, j, x, origin, g, throws))
  {
    hide Inv, Beats, OwnFailure, Own, Drop, Misfire, ClearRetry, SetJob, Finish;
    FinishBeats(s, j);
    if x in s.subs && !LiveOn(s.subs[x], g) {
      if OpeningOn(s.subs[x], g) {
        var o := s.subs[x].opening.value.job;
        SetBeats(s, j, Activation(x, origin, Joined(g, o)));
        if o in s.jobs && s.jobs[o].Activation? && s.jobs[o].stage.Settled? && s.jobs[o].stage.why.Some? {
          SetBeats(s, j, Activation(x, origin, Rejected(s.jobs[o].stage.why.value)));
        }
      } else if s.active != Some(g) { UnsentBeats(s, j, x, origin, g); }
      else if throws { ThrownOff(s, j, x, origin, g); }
      else { SentBeats(s, j, x, origin, g); }
    }
  }

  lemma HeldBeats(s: State, j: nat, x: nat, g: nat, c: nat, stream: string)
    requires x in s.subs
    ensures Beats(s, SettleJob(Hold(s, x, g, c, stream), j, None))
  {
    var u := Hold(s, x, g, c, stream);
    SubsBeats(s, u);
    hide *;
    SettleBeats(u, j, None);
    BeatsThen(s, u, SettleJob(u, j, None));
  }

  lemma ReturnSilent(s: State, j: nat, g: nat, c: nat, stream: string)
    requires Inv(s) && j in s.jobs && s.jobs[j].Activation? && s.active == Some(g)
    ensures Beats(s, Return(s, j, g, c, stream))
    ensures SettleJob(Drop(Misfire(s, Pending(g, Cleanup(j, stream))), g), j, None).active.None?
  {
    var p := Pending(g, Cleanup(j, stream));
    var u, t := Enlist(s, p), Return(s, j, g, c, stream);
    EnlistBeats(s, p);
    DropIs(Misfire(s, p), g);
    hide Inv, Beats, Drop, Settle;
    PutBeats(u, t, j, s.jobs[j].(stage := AwaitCleanup(g, s.callSeq)));
    BeatsThen(s, u, t);
  }

  lemma AcceptSilent(s: State, j: nat, x: nat, origin: Origin, g: nat, c: nat, result: Option<string>, throws: bool)
    requires Inv(s) && j in s.jobs && s.jobs[j] == Activation(x, origin, Granted(g, c, result))
    ensures Silent(s, AcceptGrant(s, j, x, g, c, result, throws))
  {
    hide Inv, Beats, SettleJob, Hold, Drop, Misfire, Return;
    SettleBeats(s, j, None);
    SettleBeats(s, j, Some(Malformed));
    if s.active == Some(g) && result.Some? {
      if x in s.subs { HeldBeats(s, j, x, g, c, result.value); } else { ReturnSilent(s, j, g, c, result.value); }
    }
  }

  lemma RetriedBeats(s: State, j: nat, x: nat, g: nat)
    requires j in s.jobs && !s.jobs[j].Beat?
    ensures Beats(s, Finish(ScheduleRetry(s, x, g), j))
  {
    hide Beats, WantsRetry;
    EndBeats(s, Finish(ScheduleRetry(s, x, g), j), j);
  }

  lemma ArmedBeats(s: State, j: nat)
    requires j in s.jobs && !s.jobs[j].Beat?
    ensures Beats(s, Finish(ArmReconnect(s), j))
  {
    hide Beats;
    EndBeats(s, Finish(ArmReconnect(s), j), j);
  }

  lemma FailedBeats(s: State, j: nat, r: nat, g: nat)
    requires j in s.jobs && !s.jobs[j].Beat? && r in s.jobs && !s.jobs[r].Beat? && s.active != Some(g)
    ensures Beats(s, SetJob(Finish(s, j), r, Recovery(Restoring(g, true))))
  {
    var job := Recovery(Restoring(g, true));
    FinishBeats(s, j);
    PutBeats(Finish(s, j), SetJob(Finish(s, j), r, job), r, job);
    hide *;
    BeatsThen(s, Finish(s, j), SetJob(Finish(s, j), r, job));
  }

  lemma RecoilSilent(s: State, j: nat, x: nat, origin: Origin, why: Fault)
    requires j in s.jobs && s.jobs[j] == Activation(x, origin, Rejected(why))
    ensures Silent(s, Recoil(s, j, x, origin, why))
  {
    hide Beats, Finish, ScheduleRetry, ArmReconnect, SetJob;
    FinishBeats(s, j);
    ArmedBeats(s, j);
    match origin
    case FromStream => RetriedBeats(s, j, x, s.active.GetOr(0));
    case FromRetry(g) => RetriedBeats(s, j, x, g);
    case FromRecovery(r) =>
      if r in s.jobs && s.jobs[r].Recovery? && s.jobs[r].phase.Restoring? {
        RetriedBeats(s, j, x, s.jobs[r].phase.gen);
        if s.active != Some(s.jobs[r].phase.gen) { FailedBeats(s, j, r, s.jobs[r].phase.gen); }
      }
  }

  lemma ResyncBeats(s: State, r: nat)
    requires r in s.jobs && !s.jobs[r].Beat?
    ensures Beats(s, Finish(s, r).(resyncs := s.resyncs + 1))
  {
    hide Beats;
    EndBeats(s, Finish(s, r).(resyncs := s.resyncs + 1), r);
  }

  lemma RecoverySilent(s: State, r: nat, phase: Phase)
    requires Inv(s) && r in s.jobs && s.jobs[r] == Recovery(phase)
    ensures Silent(s, ContinueRecovery(s, r, phase))
  {
    hide Inv, Beats, Restore, Finish, ArmReconnect;
    ArmedBeats(s, r);
    ResyncBeats(s, r);
    SubsBeats(s, s);
    if phase.Connected? { RestoreBeats(s, r, phase.gen); }
  }

  lemma RestoreBeats(s: State, r: nat, g: nat)
    requires Inv(s) && r in s.jobs && s.jobs[r].Recovery?
    ensures Beats(s, Restore(s, r, g))
  {
    var t := Restore(s, r, g);
    forall j, h | Beating(s, j, h) ensures Beating(t, j, h) {
      assert JobOk(s, j);
    }
    hide Inv, Recruits;
  }

  lemma MicrotaskSilent(s: State, j: nat, throws: bool)
    requires Inv(s) && j in s.jobs && !s.jobs[j].Beat?
    ensures Silent(s, RunMicrotask(s, j, throws))
  {
    hide Inv, Beats, BeginActivation, AcceptGrant, Recoil, ContinueRecovery, CloseOpening, SendCall, Finish, Drop;
    SubsBeats(s, s);
    match s.jobs[j]
    case Activation(x, origin, Begin(g)) => BeginSilent(s, j, x, origin, g, throws);
    case Activation(x, origin, Granted(g, c, result)) => AcceptSilent(s, j, x, origin, g, c, result, throws);
    case Activation(x, origin, Settled(g, why)) => ClosedBeats(s, j, x, origin, why);
    case Activation(x, origin, Rejected(why)) => RecoilSilent(s, j, x, origin, why);
    case Rpc(Some(g)) => RequestSilent(s, j, g, throws);
    case Recovery(phase) => RecoverySilent(s, j, phase);
    case _ =>
  }

  lemma ClosedBeats(s: State, j: nat, x: nat, origin: Origin, why: Option<Fault>)
    requires j in s.jobs && !s.jobs[j].Beat?
    ensures Beats(s, CloseOpening(s, j, x, origin, why))
  {
    var t := CloseOpening(s, j, x, origin, why);
    hide Beats, Permanent;
    if why.None? { EndBeats(s, t, j); } else { PutBeats(s, t, j, Activation(x, origin, Rejected(why.value))); }
  }

  lemma RequestSilent(s: State, j: nat, g: nat, throws: bool)
    requires Inv(s) && j in s.jobs && s.jobs[j] == Rpc(Some(g))
    ensures Silent(s, SendCall(Finish(s, j), g, Request, throws).state)
  {
    var u, p := Finish(s, j), Pending(g, Request);
    FreshIds(s);
    FinishBeats(s, j);
    DropIs(Misfire(u, p), g);
    hide Inv, Beats, Drop;
    CallBeats(u, Enlist(u, p), p);
    BeatsThen(s, u, Enlist(u, p));
  }

  // ----- Steps of heartbeats ---------------------------------------------------------------------

  /** A call other than a heartbeat leaves the table. */
  lemma UnpendBeats(s: State, c: nat, how: Outcome)
    requires c in s.pending && !s.pending[c].purpose.Heartbeat?
    ensures Beats(s, Unpend(s, c, how))
  {
  }

  lemma RejectBeats(s: State, p: Pending, why: Fault)
    requires !p.purpose.Heartbeat?
    ensures Beats(s, Reject(s, p, why))
  {
    hide Beats, Settle;
    match p.purpose
    case Subscribe(j) => SettleBeats(s, j, Some(why));
    case Cleanup(j, _) => SettleBeats(s, j, None);
    case _ => SubsBeats(s, s);
  }

  lemma GrantBeats(s: State, c: nat, p: Pending, j: nat, reply: Reply)
    requires p.purpose == Subscribe(j) && !reply.Error? && j in s.jobs && s.jobs[j].Activation?
    ensures Beats(s, Resolve(s, c, p, reply))
  {
    var job := s.jobs[j].(stage := Granted(p.gen, c, if reply.Result? then Some(reply.stream) else None));
    assert SameBut(s, Resolve(s, c, p, reply), j) && Resolve(s, c, p, reply).jobs == s.jobs[j := job];
    hide Beats, Resolve, SameBut;
    PutBeats(s, Resolve(s, c, p, reply), j, job);
  }

  lemma ResolveBeats(s: State, c: nat, p: Pending, reply: Reply)
    requires !p.purpose.Heartbeat? && !reply.Error?
    ensures Beats(s, Resolve(s, c, p, reply))
  {
    hide Beats, SettleJob;
    SubsBeats(s, s);
    match p.purpose
    case Subscribe(j) => if j in s.jobs && s.jobs[j].Activation? { GrantBeats(s, c, p, j, reply); }
    case Cleanup(j, _) => SettleBeats(s, j, None);
    case _ =>
  }

  lemma OtherReply(s: State, c: nat, how: Outcome, reply: Reply)
    requires BeatOk(s) && c in s.pending && !s.pending[c].purpose.Heartbeat?
    ensures BeatOk(Reject(Unpend(s, c, how), s.pending[c], Refused(0)))
    ensures forall why :: BeatOk(Reject(Unpend(s, c, how), s.pending[c], why))
    ensures !reply.Error? ==> BeatOk(Resolve(Unpend(s, c, how), c, s.pending[c], reply))
  {
    var u, p := Unpend(s, c, how), s.pending[c];
    UnpendBeats(s, c, how);
    hide BeatOk, Beats, Reject, Resolve, Unpend;
    BeatsOn(s, u);
    forall why ensures BeatOk(Reject(u, p, why)) { RejectBeats(u, p, why); BeatsOn(u, Reject(u, p, why)); }
    if !reply.Error? { ResolveBeats(u, c, p, reply); BeatsOn(u, Resolve(u, c, p, reply)); }
  }

  /** The heartbeat is answered: the flag comes down with the last waiting one. */
  lemma HeartAnswered(s: State, c: nat, how: Outcome)
    requires BeatOk(s) && Heart(s, c)
    ensures BeatOk(Unpend(s, c, how).(beating := false))
  {
    var t := Unpend(s, c, how).(beating := false);
    assert forall j: nat, g: nat :: Failed(t, j, g) ==> Failed(s, j, g);
    forall d ensures !Heart(t, d) { assert Heart(t, d) ==> Heart(s, d) && d != c; }
  }

  /** The heartbeat fails: its connection is about to be dropped. */
  lemma HeartFails(s: State, c: nat, how: Outcome)
    requires Inv(s) && BeatOk(s) && Heart(s, c)
    ensures BeatOk(Spawn(Unpend(s, c, how), Beat(s.pending[c].gen)))
  {
    FreshIds(s);
    assert CallOk(s, c);
    var t := Spawn(Unpend(s, c, how), Beat(s.pending[c].gen));
    assert Beating(t, s.jobSeq, s.pending[c].gen);
    assert forall j: nat, g: nat :: Failed(t, j, g) ==> Failed(s, j, g);
    forall d ensures !Heart(t, d) { assert Heart(t, d) ==> Heart(s, d) && d != c; }
    hide Inv;
  }

  lemma ReplyBeats(s: State, g: nat, c: nat, reply: Reply)
    requires Inv(s) && BeatOk(s)
    ensures BeatOk(Deliver(s, g, c, reply))
  {
    hide Inv, BeatOk, Unpend, Spawn;
    if s.active == Some(g) && c in s.pending && s.pending[c].gen == g {
      var p := s.pending[c];
      if !p.purpose.Heartbeat? { OtherReply(s, c, Answered(g), reply); }
      else if reply.Error? { HeartFails(s, c, Answered(g)); }
      else { HeartAnswered(s, c, Answered(g)); }
    }
  }

  lemma ExpireBeats(s: State, c: nat)
    requires Inv(s) && BeatOk(s)
    ensures BeatOk(Expire(s, c))
  {
    hide Inv, BeatOk, Unpend, Spawn;
    if c in s.pending {
      if s.pending[c].purpose.Heartbeat? { HeartFails(s, c, Expired); } else { OtherReply(s, c, Expired, NoResult); }
    }
  }

  /** A heartbeat goes out when none waits. */
  lemma Ticked(s: State, g: nat)
    requires BeatOk(s) && !s.beating && s.callSeq !in s.pending
    ensures BeatOk(Enlist(s, Pending(g, Heartbeat)).(beating := true))
  {
    var t := Enlist(s, Pending(g, Heartbeat)).(beating := true);
    assert forall j: nat, h: nat :: Failed(t, j, h) ==> Failed(s, j, h);
    assert Heart(t, s.callSeq);
    forall c | Heart(t, c) ensures c == s.callSeq { assert c != s.callSeq ==> Heart(s, c); }
  }

  lemma TickBeats(s: State, g: nat, throws: bool)
    requires Inv(s) && BeatOk(s) && s.active == Some(g)
    ensures HeartbeatTick(s, g, throws).active.None? || BeatOk(HeartbeatTick(s, g, throws))
  {
    FreshIds(s);
    DropIs(Misfire(s, Pending(g, Heartbeat)), g);
    hide Inv, Drop, BeatOk, Enlist;
    if !s.beating { Ticked(s, g); }
  }

  lemma OpenedBeats(s: State)
    requires Inv(s) && s.connecting
    ensures BeatOk(SocketOpened(s))
  {
    forall c ensures !Heart(SocketOpened(s), c) { assert c in s.pending ==> CallOk(s, c); }
  }

  lemma DialBeats(s: State)
    requires BeatOk(s)
    ensures BeatOk(DialFails(s))
  {
    assert Beats(s, DialFails(s));
    BeatsOn(s, DialFails(s));
  }

  lemma DialSilent(s: State, waiting: Job)
    requires Inv(s) && (waiting.Recovery? ==> waiting.phase.Dialing?)
    ensures Beats(s, EnsureConn(s, waiting))
  {
    hide Inv, Beats;
    SpawnBeats(s, EnsureConn(s, waiting), if s.active.Some? then Wake(waiting, s.active.value) else waiting);
  }

  /** A failed heartbeat drops its connection, if that is still the active one. */
  lemma FailedBeat(s: State, j: nat, g: nat)
    requires BeatOk(s) && Beating(s, j, g)
    ensures Drop(Finish(s, j), g).active.None? || BeatOk(Drop(Finish(s, j), g))
  {
    DropIs(Finish(s, j), g);
    hide Drop;
    var t := Finish(s, j);
    assert forall c :: Heart(t, c) <==> Heart(s, c);
    assert forall k: nat, h: nat :: Failed(t, k, h) ==> Failed(s, k, h);
    if s.active != Some(g) && s.active.Some? && s.beating && !exists c :: Heart(s, c) {
      var k :| Beating(s, k, s.active.value);
      assert Beating(t, k, s.active.value);
    }
  }

  lemma RestSilent(s: State, e: Event)
    requires Inv(s) && (e.UserStream? || e.UserClose? || e.UserCall? || e.ReconnectTimer? || e.RetryTimer?)
    ensures Silent(s, Step(s, e))
  {
    hide Inv, Beats, CloseStream, RetryFires;
    match e
    case UserStream =>
      SpawnBeats(s, OpenStream(s), Activation(s.subSeq, FromStream, if s.active.Some? then Begin(s.active.value) else AwaitConn));
    case UserClose(x, throws) => CloseSilent(s, x, throws);
    case UserCall => DialSilent(s, Rpc(None));
    case ReconnectTimer => SpawnBeats(s, ReconnectFires(s), if s.active.Some? then Recovery(Connected(s.active.value)) else Recovery(Dialing));
    case RetryTimer(x) => RetrySilent(s, x);
  }

  lemma RestBeats(s: State, e: Event)
    requires Inv(s) && BeatOk(s) && (e.UserStream? || e.UserClose? || e.UserCall? || e.ReconnectTimer? || e.RetryTimer? || e.Microtask?)
    ensures Step(s, e).active.None? || BeatOk(Step(s, e))
  {
    hide Inv, BeatOk, Beats, RunMicrotask;
    if !e.Microtask? {
      RestSilent(s, e);
      hide Step;
      if Step(s, e).active.Some? { BeatsOn(s, Step(s, e)); }
    } else if e.job !in s.jobs { assert RunMicrotask(s, e.job, e.throws) == s by { NoJob(s, e.job, e.throws); } }
    else if s.jobs[e.job].Beat? { FailedBeatRuns(s, e.job, e.throws); }
    else {
      MicrotaskSilent(s, e.job, e.throws);
      if Step(s, e).active.Some? { BeatsOn(s, Step(s, e)); }
    }
  }

  lemma NoJob(s: State, j: nat, throws: bool)
    requires j !in s.jobs
    ensures RunMicrotask(s, j, throws) == s
  {
  }

  lemma FailedBeatRuns(s: State, j: nat, throws: bool)
    requires BeatOk(s) && j in s.jobs && s.jobs[j].Beat?
    ensures RunMicrotask(s, j, throws).active.None? || BeatOk(RunMicrotask(s, j, throws))
  {
    FailedBeat(s, j, s.jobs[j].gen);
    hide BeatOk, Drop, Finish;
  }

  lemma EventBeats(s: State, e: Event)
    requires Inv(s) && BeatOk(s) && Enabled(s, e)
    ensures Step(s, e).active.None? || BeatOk(Step(s, e))
  {
    hide Inv, BeatOk, Silent, Beats, RunMicrotask, CloseStream, SocketOpened, DialFails, Drop, Deliver, Expire, HeartbeatTick, RetryFires, EnsureConn;
    hide Quiet;
    match e
    case Opened => OpenedBeats(s);
    case DialError => DialBeats(s);
    case Closed(g) => DropIs(s, g);
    case Frame(g, c, reply) => ReplyBeats(s, g, c, reply);
    case CallTimer(c) => ExpireBeats(s, c);
    case HeartbeatTimer(g, throws) => TickBeats(s, g, throws);
    case _ => RestBeats(s, e);
  }

  lemma StepBeats(s: State, e: Event)
    requires Inv(s) && BeatOk(s) && Enabled(s, e)
    ensures BeatOk(Step(s, e))
  {
    StepKeeps(s, e);
    hide *;
    EventBeats(s, e);
    if Step(s, e).active.None? { BeatOff(Step(s, e)); }
  }

  lemma {:induction false} RunBeats(s: State, events: seq<Event>)
    requires Inv(s) && BeatOk(s) && Legal(s, events)
    ensures BeatOk(Run(s, events))
    decreases events
  {
    if events != [] {
      StepKeeps(s, events[0]);
      StepBeats(s, events[0]);
      hide Inv, BeatOk, Step;
      RunBeats(Step(s, events[0]), events[1..]);
    }
  }

  lemma ReachableBeats(s: State)
    requires Reachable(s)
    ensures Inv(s) && BeatOk(s)
  {
    ReachableInv(s);
    InitInv();
    var events :| Legal(Init, events) && s == Run(Init, events);
    assert BeatOk(Init);
    hide Inv, BeatOk, Run, Legal;
    RunBeats(Init, events);
  }

  // ----- Heartbeats ----------------------------------------------------------------------------------

  ghost predicate HeartbeatWaits(s: State) {
    exists c :: c in s.pending && s.pending[c].purpose.Heartbeat?
  }

  /** In every reachable state at most one heartbeat waits.  When its timer ticks, the active connection sends another if and
      only if none waits; nothing else ever keeps it from doing so. */
  lemma HeartbeatExactly(s: State, g: nat)
    requires Reachable(s) && Enabled(s, HeartbeatTimer(g, false))
    ensures forall c, d :: c in s.pending && d in s.pending && s.pending[c].purpose.Heartbeat? && s.pending[d].purpose.Heartbeat? ==> c == d
    ensures var t := Step(s, HeartbeatTimer(g, false));
            if HeartbeatWaits(s) then t == s
            else s.callSeq !in s.pending && t.pending == s.pending[s.callSeq := Pending(g, Heartbeat)] && t.active == Some(g)
  {
    ReachableBeats(s);
    FreshIds(s);
    Waiting(s, g);
    hide Inv, BeatOk, Drop;
    forall c, d | c in s.pending && d in s.pending && s.pending[c].purpose.Heartbeat? && s.pending[d].purpose.Heartbeat? ensures c == d {
      OneWaits(s, c, d);
    }
  }

  lemma OneWaits(s: State, c: nat, d: nat)
    requires BeatOk(s) && Heart(s, c) && Heart(s, d)
    ensures c == d
  {
  }

  lemma Waiting(s: State, g: nat)
    requires BeatOk(s) && Quiet(s) && s.active == Some(g)
    ensures s.beating <==> HeartbeatWaits(s)
  {
    forall j ensures !Beating(s, j, g) { assert !Ready(s, j); }
    if HeartbeatWaits(s) {
      var c :| c in s.pending && s.pending[c].purpose.Heartbeat?;
      assert Heart(s, c);
    }
  }

  /** A recovery that still has its connection at its end calls the resync handlers. */
  lemma RecoveryResyncs(s: State, j: nat, throws: bool)
    requires Reachable(s) && Enabled(s, Microtask(j, throws)) && j in s.jobs && s.jobs[j].Recovery?
    requires s.jobs[j].phase.Restoring? && s.active == Some(s.jobs[j].phase.gen)
    ensures Step(s, Microtask(j, throws)).resyncs == s.resyncs + 1
  {
    ReachableBeats(s);
    assert !Failed(s, j, s.active.value);
    CountersExact(s, Microtask(j, throws), 0);
    hide Inv, BeatOk, Step, Reachable, Quiet;
  }

  // ----- Retry counters and resyncs ----------------------------------------------------------------------------------

  /** The microtask takes a grant of the active connection for `x`. */
  predicate TakesGrant(s: State, e: Event, x: nat) {
    e.Microtask? && e.job in s.jobs && s.jobs[e.job].Activation? && s.jobs[e.job].sub == x && s.jobs[e.job].stage.Granted? &&
    s.active == Some(s.jobs[e.job].stage.gen) && s.jobs[e.job].stage.result.Some?
  }

  /** The end of a recovery that has restored every subscription it could and still has its connection. */
  predicate Recovers(s: State, e: Event) {
    e.Microtask? && e.job in s.jobs && s.jobs[e.job].Recovery? && s.jobs[e.job].phase.Restoring? &&
    !s.jobs[e.job].phase.failed && s.active == Some(s.jobs[e.job].phase.gen)
  }

  /** The end of a recovery that has failed. */
  predicate FailsToRecover(s: State, e: Event) {
    e.Microtask? && e.job in s.jobs && s.jobs[e.job].Recovery? && !Recovers(s, e) &&
    (s.jobs[e.job].phase.Undialed? || s.jobs[e.job].phase.Restoring?)
  }

  /** What becomes of the retry counter of `x`: a timer that is armed counts, a grant or the loss of the connection starts anew;
      and of the resyncs: one for each recovery that succeeds, while one that fails arms a reconnect. */
  ghost predicate Counted(s: State, e: Event, t: State, x: nat) {
    t.resyncs == s.resyncs + (if Recovers(s, e) then 1 else 0) && (FailsToRecover(s, e) ==> t.reconnectTimer) &&
    (x in t.subs ==>
      if x !in s.subs then t.subs[x].attempts == 0
      else if TakesGrant(s, e, x) || (s.active.Some? && t.active.None?) then t.subs[x].attempts == 0
      else t.subs[x].attempts == s.subs[x].attempts + if s.subs[x].retry.None? && t.subs[x].retry.Some? then 1 else 0)
  }

  /** Nothing enters the table, no timer is armed, and no counter changes. */
  ghost predicate Uncounted(s: State, t: State) {
    t.active == s.active && t.resyncs == s.resyncs &&
    forall x :: x in t.subs ==> x in s.subs && t.subs[x].attempts == s.subs[x].attempts && (t.subs[x].retry.Some? ==> s.subs[x].retry.Some?)
  }

  /** The connection has been lost, and every counter is back to zero. */
  ghost predicate Reset(s: State, t: State) {
    s.active.Some? && t.active.None? && t.resyncs == s.resyncs && forall x :: x in t.subs ==> x in s.subs && t.subs[x].attempts == 0
  }

  lemma SameCounts(s: State, t: State)
    requires t.active == s.active && t.subs == s.subs && t.resyncs == s.resyncs
    ensures Uncounted(s, t)
  {
  }

  lemma DropResets(s: State, u: State, g: nat)
    requires u.active == s.active == Some(g) && u.subs.Keys <= s.subs.Keys && u.resyncs == s.resyncs
    ensures Reset(s, Drop(u, g))
  {
    hide RejectAll;
    SubsKept(u, g);
  }

  lemma SubsKept(u: State, g: nat)
    ensures RejectAll(u, g, u.callSeq).subs == u.subs && RejectAll(u, g, u.callSeq).resyncs == u.resyncs
  {
    hide Kept, Losses, BereaveAll;
  }

  lemma SettleSubs(s: State, j: nat, why: Option<Fault>)
    ensures var t := SettleJob(s, j, why); t.active == s.active && t.subs == s.subs && t.resyncs == s.resyncs
  {
  }

  lemma RejectCounts(s: State, p: Pending, why: Fault)
    ensures var t := Reject(s, p, why); t.active == s.active && t.subs == s.subs && t.resyncs == s.resyncs
  {
    hide SettleJob;
    match p.purpose
    case Subscribe(j) => SettleSubs(s, j, Some(why));
    case Cleanup(j, _) => SettleSubs(s, j, None);
    case _ =>
  }

  lemma GrantSubs(s: State, c: nat, p: Pending, j: nat, reply: Reply)
    requires p.purpose == Subscribe(j) && !reply.Error?
    ensures var t := Resolve(s, c, p, reply); t.active == s.active && t.subs == s.subs && t.resyncs == s.resyncs
  {
  }

  lemma ResolveCounts(s: State, c: nat, p: Pending, reply: Reply)
    requires !reply.Error?
    ensures var t := Resolve(s, c, p, reply); t.active == s.active && t.subs == s.subs && t.resyncs == s.resyncs
  {
    match p.purpose
    case Cleanup(j, _) => SettleSubs(s, j, None); hide SettleJob;
    case Subscribe(j) => GrantSubs(s, c, p, j, reply); hide Resolve;
    case _ => hide SettleJob;
  }

  lemma ReplyCounts(s: State, g: nat, c: nat, reply: Reply)
    ensures Uncounted(s, Deliver(s, g, c, reply)) && Uncounted(s, Expire(s, c))
  {
    hide Resolve, Reject, Uncounted;
    SameCounts(s, s);
    if c in s.pending {
      var p, t, u := s.pending[c], Unpend(s, c, Answered(g)), Unpend(s, c, Expired);
      RejectCounts(u, p, TimedOut);
      SameCounts(s, Expire(s, c));
      if reply.Error? { RejectCounts(t, p, Refused(reply.code)); } else { ResolveCounts(t, c, p, reply); }
      if s.active == Some(g) && p.gen == g { SameCounts(s, Deliver(s, g, c, reply)); }
    }
  }

  /** A retry timer that is armed counts. */
  lemma ScheduleCounts(s: State, x: nat, g: nat, y: nat)
    ensures var t := ScheduleRetry(s, x, g);
            t.active == s.active && t.subs.Keys == s.subs.Keys && t.resyncs == s.resyncs &&
            (y in s.subs ==> t.subs[y].attempts == s.subs[y].attempts + if s.subs[y].retry.None? && t.subs[y].retry.Some? then 1 else 0)
  {
    hide LiveOn, OpeningOn;
    if WantsRetry(s, x, g) { assert ScheduleRetry(s, x, g).subs.Keys == s.subs.Keys; }
  }

  lemma RetriedCounts(s: State, e: Event, x: nat, g: nat, j: nat, y: nat)
    requires e.Microtask? && e.job in s.jobs && s.jobs[e.job].Activation? && s.jobs[e.job].stage.Rejected?
    ensures Counted(s, e, Finish(ScheduleRetry(s, x, g), j), y)
  {
    ScheduleCounts(s, x, g, y);
    hide ScheduleRetry;
  }

  lemma SameCounted(s: State, e: Event, t: State, y: nat)
    requires e.Microtask? && e.job in s.jobs && s.jobs[e.job].Activation? && s.jobs[e.job].stage.Rejected?
    requires t.active == s.active && t.subs == s.subs && t.resyncs == s.resyncs
    ensures Counted(s, e, t, y)
  {
  }

  lemma FinishedCounted(s: State, e: Event, j: nat, r: nat, job: Job, y: nat)
    requires e.Microtask? && e.job in s.jobs && s.jobs[e.job].Activation? && s.jobs[e.job].stage.Rejected?
    ensures Counted(s, e, Finish(s, j), y) && Counted(s, e, Finish(ArmReconnect(s), j), y) && Counted(s, e, SetJob(Finish(s, j), r, job), y)
  {
    hide Counted;
    SameCounted(s, e, Finish(s, j), y);
    SameCounted(s, e, Finish(ArmReconnect(s), j), y);
    SameCounted(s, e, SetJob(Finish(s, j), r, job), y);
  }

  lemma RecoilCounts(s: State, e: Event, j: nat, x: nat, origin: Origin, why: Fault, y: nat)
    requires e.Microtask? && e.job == j && j in s.jobs && s.jobs[j] == Activation(x, origin, Rejected(why))
    ensures Counted(s, e, Recoil(s, j, x, origin, why), y)
  {
    hide ScheduleRetry, Counted, Finish, SetJob, ArmReconnect;
    FinishedCounted(s, e, j, 0, s.jobs[j], y);
    match origin
    case FromStream => RetriedCounts(s, e, x, s.active.GetOr(0), j, y);
    case FromRetry(g) => RetriedCounts(s, e, x, g, j, y);
    case FromRecovery(r) =>
      if r in s.jobs && s.jobs[r].Recovery? && s.jobs[r].phase.Restoring? {
        RetriedCounts(s, e, x, s.jobs[r].phase.gen, j, y);
        FinishedCounted(s, e, j, r, Recovery(Restoring(s.jobs[r].phase.gen, true)), y);
      }
  }

  lemma JobCounts(s: State, j: nat, job: Job)
    ensures Uncounted(s, Finish(s, j)) && Uncounted(s, SetJob(s, j, job))
  {
    hide Uncounted;
    SameCounts(s, Finish(s, j));
    SameCounts(s, SetJob(s, j, job));
  }

  lemma IdleCounts(s: State, j: nat, x: nat, origin: Origin, g: nat, throws: bool)
    requires x !in s.subs || LiveOn(s.subs[x], g) || OpeningOn(s.subs[x], g)
    ensures Uncounted(s, BeginActivation(s, j, x, origin, g, throws))
  {
    hide Uncounted, SetJob, Finish, OwnFailure, Own, Drop, Misfire, ClearRetry, LiveOn;
    var o := if x in s.subs && s.subs[x].opening.Some? then s.subs[x].opening.value.job else 0;
    JobCounts(s, j, Activation(x, origin, Joined(g, o)));
    if o in s.jobs && s.jobs[o].Activation? && s.jobs[o].stage.Settled? && s.jobs[o].stage.why.Some? {
      JobCounts(s, j, Activation(x, origin, Rejected(s.jobs[o].stage.why.value)));
    }
  }

  lemma BeginCounts(s: State, j: nat, x: nat, origin: Origin, g: nat, throws: bool)
    ensures var t := BeginActivation(s, j, x, origin, g, throws); Uncounted(s, t) || Reset(s, t)
  {
    hide Uncounted, Reset, OwnFailure, Own, Drop, Misfire, ClearRetry, SetJob, Finish, LiveOn, OpeningOn;
    if x !in s.subs || LiveOn(s.subs[x], g) || OpeningOn(s.subs[x], g) { IdleCounts(s, j, x, origin, g, throws); }
    else if s.active == Some(g) && throws { ThrowCounts(s, j, x, origin, g); }
    else { BeganCounts(s, j, x, origin, g); }
  }

  lemma ThrowCounts(s: State, j: nat, x: nat, origin: Origin, g: nat)
    requires x in s.subs && s.active == Some(g)
    ensures Reset(s, OwnFailure(Drop(Misfire(ClearRetry(s, x), Pending(g, Subscribe(j))), g), j, x, origin, g, SendFailed))
  {
    var u := Misfire(ClearRetry(s, x), Pending(g, Subscribe(j)));
    assert u.subs.Keys == s.subs.Keys && u.active == s.active;
    hide *;
    DropResets(s, u, g);
    FailureResets(s, Drop(u, g), j, x, origin, g, SendFailed);
  }

  lemma FailureResets(s: State, u: State, j: nat, x: nat, origin: Origin, g: nat, why: Fault)
    requires Reset(s, u)
    ensures Reset(s, OwnFailure(u, j, x, origin, g, why))
  {
  }

  lemma BeganCounts(s: State, j: nat, x: nat, origin: Origin, g: nat)
    requires x in s.subs
    ensures Uncounted(s, OwnFailure(ClearRetry(s, x), j, x, origin, g, ConnectionLost)) && Uncounted(s, Own(ClearRetry(s, x), j, x, origin, g))
  {
  }

  lemma AcceptCounts(s: State, e: Event, j: nat, x: nat, origin: Origin, g: nat, c: nat, result: Option<string>, throws: bool, y: nat)
    requires Inv(s) && e == Microtask(j, throws) && j in s.jobs && s.jobs[j] == Activation(x, origin, Granted(g, c, result))
    ensures Counted(s, e, AcceptGrant(s, j, x, g, c, result, throws), y)
  {
    hide Inv, SettleJob, Hold, Drop, Misfire, Return;
    SettleSubs(s, j, None);
    SettleSubs(s, j, Some(Malformed));
    if s.active == Some(g) && result.Some? {
      if x in s.subs { HeldCounts(s, e, j, x, g, c, result.value, y); }
      else if throws { ReturnResets(s, j, g, c, result.value); }
      else { assert AcceptGrant(s, j, x, g, c, result, throws) == Return(s, j, g, c, result.value); ReturnCounts(s, j, g, c, result.value); }
    }
  }

  lemma HeldCounts(s: State, e: Event, j: nat, x: nat, g: nat, c: nat, stream: string, y: nat)
    requires x in s.subs && TakesGrant(s, e, x) && e.job == j && s.active == Some(g)
    ensures Counted(s, e, SettleJob(Hold(s, x, g, c, stream), j, None), y)
  {
    SettleSubs(Hold(s, x, g, c, stream), j, None);
    hide SettleJob;
  }

  lemma ReturnResets(s: State, j: nat, g: nat, c: nat, stream: string)
    requires s.active == Some(g)
    ensures Reset(s, SettleJob(Drop(Misfire(s, Pending(g, Cleanup(j, stream))), g), j, None))
  {
    var u := Misfire(s, Pending(g, Cleanup(j, stream)));
    assert u.active == s.active && u.subs.Keys == s.subs.Keys;
    hide Drop, SettleJob, Misfire;
    DropResets(s, u, g);
    SettleSubs(Drop(u, g), j, None);
  }

  lemma ReturnCounts(s: State, j: nat, g: nat, c: nat, stream: string)
    requires j in s.jobs && s.jobs[j].Activation?
    ensures var t := Return(s, j, g, c, stream); t.active == s.active && t.subs == s.subs && t.resyncs == s.resyncs
  {
  }

  lemma CountedThen(s: State, e: Event, t: State, y: nat)
    requires (Uncounted(s, t) && !TakesGrant(s, e, y)) || Reset(s, t)
    requires !Recovers(s, e) && !FailsToRecover(s, e)
    ensures Counted(s, e, t, y)
  {
  }

  lemma KeptCounts(s: State, e: Event, t: State, y: nat)
    requires t.subs == s.subs && (s.active.Some? ==> t.active.Some?) && !TakesGrant(s, e, y)
    requires t.resyncs == s.resyncs + (if Recovers(s, e) then 1 else 0) && (FailsToRecover(s, e) ==> t.reconnectTimer)
    ensures Counted(s, e, t, y)
  {
  }

  lemma DropCounts(s: State, u: State, g: nat)
    requires u.active == s.active && u.subs == s.subs && u.resyncs == s.resyncs
    ensures Uncounted(s, Drop(u, g)) || Reset(s, Drop(u, g))
  {
    hide Uncounted, Reset;
    if s.active == Some(g) { DropResets(s, u, g); } else { DropIs(u, g); hide Drop; SameCounts(s, u); }
  }

  lemma SendCounts(s: State, j: nat, g: nat, throws: bool)
    ensures var t := SendCall(Finish(s, j), g, Request, throws).state; Uncounted(s, t) || Reset(s, t)
  {
    hide Uncounted, Reset, Drop;
    SameCounts(s, Finish(s, j));
    SameCounts(s, Enlist(Finish(s, j), Pending(g, Request)));
    DropCounts(s, Misfire(Finish(s, j), Pending(g, Request)), g);
  }

  lemma TickCounts(s: State, g: nat, throws: bool)
    ensures var t := HeartbeatTick(s, g, throws); Uncounted(s, t) || Reset(s, t)
  {
    hide Uncounted, Reset, Drop;
    SameCounts(s, s);
    SameCounts(s, Enlist(s, Pending(g, Heartbeat)).(beating := true));
    DropCounts(s, Misfire(s, Pending(g, Heartbeat)), g);
  }

  lemma CloseCounts(s: State, x: nat, throws: bool)
    ensures var t := CloseStream(s, x, throws); Uncounted(s, t) || Reset(s, t)
  {
    if x in s.subs && s.active.Some? && LiveOn(s.subs[x], s.active.value) && throws {
      var u := Misfire(s, Pending(s.active.value, Release(s.subs[x].remote.value.stream)));
      ClosedResets(s, u, s.active.value, x) by { assert u.subs == s.subs && u.active == s.active && u.resyncs == s.resyncs; }
      hide Uncounted, Drop, LiveOn;
    } else { UnthrownCounts(s, x); }
  }

  lemma ClosedResets(s: State, u: State, g: nat, x: nat)
    requires u.active == s.active == Some(g) && u.subs == s.subs && u.resyncs == s.resyncs
    ensures Reset(s, Discard(Drop(u, g), x))
  {
    DropResets(s, u, g);
    hide Drop;
  }

  lemma UnthrownCounts(s: State, x: nat)
    ensures Uncounted(s, CloseStream(s, x, false))
    ensures x !in s.subs || s.active.None? || !LiveOn(s.subs[x], s.active.value) ==> Uncounted(s, CloseStream(s, x, true))
  {
    hide Drop, HandOver, Uncounted, Discard;
    SameCounts(s, s);
    GoneCounts(s, Discard(s, x), x) by { hide *; DiscardIs(s, x); }
    if x in s.subs && s.active.Some? && s.subs[x].remote.Some? {
      var (g, stream) := (s.active.value, s.subs[x].remote.value.stream);
      GoneCounts(s, HandOver(s, x, g, stream), x) by { HandOverIs(s, x, g, stream); }
    }
  }

  lemma DiscardIs(s: State, x: nat)
    ensures var t := Discard(s, x); t.active == s.active && t.subs == s.subs - {x} && t.resyncs == s.resyncs
  {
  }

  lemma HandOverIs(s: State, x: nat, g: nat, stream: string)
    ensures var t := HandOver(s, x, g, stream); t.active == s.active && t.subs == s.subs - {x} && t.resyncs == s.resyncs
  {
    hide HandBack;
  }

  lemma GoneCounts(s: State, t: State, x: nat)
    requires t.active == s.active && t.subs == s.subs - {x} && t.resyncs == s.resyncs
    ensures Uncounted(s, t)
  {
  }

  /** A subscription that stays loses its timer, or names another opening. */
  lemma SetCounts(s: State, t: State, x: nat, sub: Subscription)
    requires x in s.subs && t.active == s.active && t.subs == s.subs[x := sub] && t.resyncs == s.resyncs
    requires sub.attempts == s.subs[x].attempts && (sub.retry.Some? ==> s.subs[x].retry.Some?)
    ensures Uncounted(s, t)
  {
  }

  lemma RetryCounts(s: State, x: nat)
    ensures Uncounted(s, RetryFires(s, x))
  {
    hide Uncounted;
    SameCounts(s, s);
    if x in s.subs && s.subs[x].retry.Some? {
      var g, sub := s.subs[x].retry.value, s.subs[x].(retry := None);
      SetCounts(s, ClearRetry(s, x), x, sub);
      SetCounts(s, ClearRetry(Spawn(s, Activation(x, FromRetry(g), Begin(g))), x), x, sub);
    }
  }

  lemma DisownCounts(s: State, u: State, j: nat, x: nat, origin: Origin, why: Option<Fault>)
    requires u.active == s.active && (u.subs == s.subs || u.subs == s.subs - {x}) && u.resyncs == s.resyncs
    ensures Uncounted(s, Disown(u, j, x, origin, why))
  {
    var t := Disown(u, j, x, origin, why);
    hide Uncounted;
    if x in u.subs && u.subs[x].opening.Some? && u.subs[x].opening.value.job == j { SetCounts(s, t, x, s.subs[x].(opening := None)); }
    else if u.subs == s.subs { SameCounts(s, t); }
    else { GoneCounts(s, t, x); }
  }

  lemma EndCounts(s: State, j: nat, x: nat, origin: Origin, why: Option<Fault>)
    ensures Uncounted(s, CloseOpening(s, j, x, origin, why))
  {
    hide Uncounted, Disown, Discard, Permanent;
    DiscardIs(s, x);
    DisownCounts(s, s, j, x, origin, why);
    DisownCounts(s, Discard(s, x), j, x, origin, why);
  }

  lemma MicrotaskCounts(s: State, j: nat, throws: bool, y: nat)
    requires Inv(s) && j in s.jobs
    ensures Counted(s, Microtask(j, throws), RunMicrotask(s, j, throws), y)
  {
    hide Inv, Counted, RunMicrotask, Recoil, AcceptGrant;
    var e := Microtask(j, throws);
    if s.jobs[j].Activation? && s.jobs[j].stage.Granted? {
      var (x, origin, g, c, result) := (s.jobs[j].sub, s.jobs[j].origin, s.jobs[j].stage.gen, s.jobs[j].stage.call, s.jobs[j].stage.result);
      AcceptCounts(s, e, j, x, origin, g, c, result, throws, y);
      MicrotaskIs(s, j, throws);
    } else if s.jobs[j].Activation? && s.jobs[j].stage.Rejected? {
      RecoilCounts(s, e, j, s.jobs[j].sub, s.jobs[j].origin, s.jobs[j].stage.fault, y);
      MicrotaskIs(s, j, throws);
    } else if s.jobs[j].Recovery? {
      RecoveryCounts(s, j, s.jobs[j].phase);
      RecoveryIs(s, j, throws);
      hide ContinueRecovery;
      KeptCounts(s, e, RunMicrotask(s, j, throws), y);
    } else {
      OtherCounts(s, j, throws);
      CountedThen(s, e, RunMicrotask(s, j, throws), y);
    }
  }

  lemma MicrotaskIs(s: State, j: nat, throws: bool)
    requires j in s.jobs && s.jobs[j].Activation?
    ensures var (job, stage) := (s.jobs[j], s.jobs[j].stage);
            (stage.Granted? ==> RunMicrotask(s, j, throws) == AcceptGrant(s, j, job.sub, stage.gen, stage.call, stage.result, throws)) &&
            (stage.Rejected? ==> RunMicrotask(s, j, throws) == Recoil(s, j, job.sub, job.origin, stage.fault))
  {
    hide BeginActivation, AcceptGrant, Recoil, ContinueRecovery, CloseOpening, SendCall, Drop, Finish;
  }

  lemma RecoveryIs(s: State, j: nat, throws: bool)
    requires j in s.jobs && s.jobs[j].Recovery?
    ensures RunMicrotask(s, j, throws) == ContinueRecovery(s, j, s.jobs[j].phase)
  {
    hide BeginActivation, AcceptGrant, Recoil, ContinueRecovery, CloseOpening, SendCall, Drop, Finish;
  }

  lemma OtherCounts(s: State, j: nat, throws: bool)
    requires j in s.jobs && !s.jobs[j].Recovery?
    requires !(s.jobs[j].Activation? && (s.jobs[j].stage.Granted? || s.jobs[j].stage.Rejected?))
    ensures var t := RunMicrotask(s, j, throws); Uncounted(s, t) || Reset(s, t)
  {
    hide Uncounted, Reset, BeginActivation, AcceptGrant, Recoil, ContinueRecovery, CloseOpening, SendCall, Drop, Finish;
    SameCounts(s, s);
    match s.jobs[j]
    case Activation(x, origin, Begin(g)) => BeginCounts(s, j, x, origin, g, throws);
    case Activation(x, origin, Settled(g, why)) => EndCounts(s, j, x, origin, why);
    case Rpc(Some(g)) => SendCounts(s, j, g, throws);
    case Beat(g) => FinishIs(s, j); DropCounts(s, Finish(s, j), g);
    case _ =>
  }

  lemma FinishIs(s: State, j: nat)
    ensures var t := Finish(s, j); t.active == s.active && t.subs == s.subs && t.resyncs == s.resyncs
  {
  }

  lemma RestoreCounts(s: State, r: nat, g: nat)
    ensures var t := Restore(s, r, g); t.active == s.active && t.subs == s.subs && t.resyncs == s.resyncs
  {
    hide Recruits;
  }

  lemma FinishedCounts(s: State, r: nat)
    ensures var t := Finish(ArmReconnect(s), r); t.active == s.active && t.subs == s.subs && t.resyncs == s.resyncs && t.reconnectTimer
    ensures var t := Finish(s, r).(resyncs := s.resyncs + 1); t.active == s.active && t.subs == s.subs
  {
  }

  /** Nothing changes but the resyncs, and the timer is armed if it has to be. */
  predicate Recovered(s: State, t: State, resyncs: nat, armed: bool) {
    t.active == s.active && t.subs == s.subs && t.resyncs == resyncs && (armed ==> t.reconnectTimer)
  }

  lemma RecoveryCounts(s: State, r: nat, phase: Phase)
    ensures var fails := phase.Undialed? || (phase.Restoring? && (phase.failed || s.active != Some(phase.gen)));
            Recovered(s, ContinueRecovery(s, r, phase), s.resyncs + (if phase.Restoring? && !fails then 1 else 0), fails)
  {
    hide Restore, Finish, ArmReconnect, Recovered;
    RecoveredOne(s, r);
    if phase.Connected? { RecoveredRestore(s, r, phase.gen); }
  }

  lemma RecoveredOne(s: State, r: nat)
    ensures Recovered(s, Finish(ArmReconnect(s), r), s.resyncs, true) && Recovered(s, s, s.resyncs, false)
    ensures Recovered(s, Finish(s, r).(resyncs := s.resyncs + 1), s.resyncs + 1, false)
  {
    FinishedCounts(s, r);
    hide Finish, ArmReconnect;
  }

  lemma RecoveredRestore(s: State, r: nat, g: nat)
    ensures Recovered(s, Restore(s, r, g), s.resyncs, false)
  {
    RestoreCounts(s, r, g);
    hide Restore;
  }

  /** The retry counter of a subscription counts the timers armed for it since its last grant, the loss of the connection or
      its beginning.  Resync handlers are called once for every recovery that succeeds, and one that fails arms a reconnect. */
  lemma CountersExact(s: State, e: Event, x: nat)
    requires Reachable(s) && Enabled(s, e)
    ensures Counted(s, e, Step(s, e), x)
  {
    ReachableInv(s);
    hide Inv, Reachable, Quiet, Counted, Uncounted, Reset, RunMicrotask, CloseStream, Drop, Deliver, Expire, HeartbeatTick, RetryFires, OpenStream,
      EnsureConn, SocketOpened, DialFails, ReconnectFires;
    var t := Step(s, e);
    match e
    case UserStream => OpenedCounts(s, e, x);
    case UserClose(y, throws) => CloseCounts(s, y, throws); CountedThen(s, e, t, x);
    case Closed(g) => DropCounts(s, s, g); CountedThen(s, e, t, x);
    case Frame(g, c, reply) => ReplyCounts(s, g, c, reply); CountedThen(s, e, t, x);
    case CallTimer(c) => ReplyCounts(s, 0, c, NoResult); CountedThen(s, e, t, x);
    case HeartbeatTimer(g, throws) => TickCounts(s, g, throws); CountedThen(s, e, t, x);
    case RetryTimer(y) => RetryCounts(s, y); CountedThen(s, e, t, x);
    case Microtask(j, throws) => MicrotaskCounts(s, j, throws, x);
    case _ => DialCounts(s, e, x);
  }

  lemma DialCounts(s: State, e: Event, x: nat)
    requires e.UserCall? || e.Opened? || e.DialError? || e.ReconnectTimer?
    ensures Counted(s, e, Step(s, e), x)
  {
    hide Counted, Wake, Strand;
    KeptCounts(s, e, Step(s, e), x);
  }

  lemma OpenedCounts(s: State, e: Event, x: nat)
    requires Inv(s) && e == UserStream
    ensures Counted(s, e, OpenStream(s), x)
  {
    assert s.subSeq in s.subs ==> SubOk(s, s.subSeq);
    hide Inv;
  }
}
