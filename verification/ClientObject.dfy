/** The client as an object whose tables are updated in place, one method per function of src/lib/client.ts. */
module ClientObject {
  import opened Options
  import opened ClientModel
  import opened ClientInvariant
  import opened ClientSteps

  /** The promise of job `k` settles with a call for this purpose. */
  predicate ReportsTo(purpose: Purpose, k: nat) {
    purpose == Subscribe(k) || (purpose.Cleanup? && purpose.job == k)
  }

  /** Call `c` dooms the one job that waits for it. */
  lemma DoomedNext(s: State, g: nat, c: nat, k: nat)
    requires CallOk(s, c) && s.active == Some(g) && (k in s.jobs ==> JobOk(s, k))
    ensures Doomed(s.jobs, g, c + 1, k) <==> Doomed(s.jobs, g, c, k) || ReportsTo(s.pending[c].purpose, k)
    ensures ReportsTo(s.pending[c].purpose, k) ==> Awaits(s.jobs, g, c, k)
    ensures ReportsTo(s.pending[c].purpose, k) ==> (s.jobs[k].stage.AwaitGrant? <==> s.pending[c].purpose.Subscribe?)
  {
  }

  /** Dooming one more job settles its promise. */
  lemma BereaveOne(jobs: map<nat, Job>, g: nat, c: nat, j: nat, k: nat)
    requires Awaits(jobs, g, c, j) && k in jobs && forall m :: Doomed(jobs, g, c + 1, m) <==> Doomed(jobs, g, c, m) || m == j
    ensures var before, after := BereaveAll(jobs, g, c), BereaveAll(jobs, g, c + 1);
            var settled := Settle(before, j, if jobs[j].stage.AwaitGrant? then Some(ConnectionLost) else None);
            (k in after <==> k in settled) && (k in after ==> after[k] == settled[k])
  {
  }

  /** The promise of job `j` waits for call `c` of connection `g`. */
  predicate Awaits(jobs: map<nat, Job>, g: nat, c: nat, j: nat) {
    j in jobs && jobs[j].Activation? && (jobs[j].stage == AwaitGrant(g, c) || jobs[j].stage == AwaitCleanup(g, c))
  }

  lemma BereaveOwner(jobs: map<nat, Job>, g: nat, c: nat, j: nat)
    requires Awaits(jobs, g, c, j) && forall m :: Doomed(jobs, g, c + 1, m) <==> Doomed(jobs, g, c, m) || m == j
    ensures BereaveAll(jobs, g, c + 1) ==
      Settle(BereaveAll(jobs, g, c), j, if jobs[j].stage.AwaitGrant? then Some(ConnectionLost) else None)
  {
    hide Doomed, JoinsCleanup, Bereave, Joins, Owner;
    forall k | k in jobs { BereaveOne(jobs, g, c, j, k); }
  }

  lemma BereaveSame(jobs: map<nat, Job>, g: nat, c: nat)
    requires forall m :: Doomed(jobs, g, c + 1, m) <==> Doomed(jobs, g, c, m)
    ensures BereaveAll(jobs, g, c + 1) == BereaveAll(jobs, g, c)
  {
    hide Doomed;
  }

  /** Rejecting call `c` after all earlier ones is what `BereaveAll` does between `c` and `c + 1`. */
  lemma BereaveNext(s: State, g: nat, c: nat)
    requires Wired(s) && c in s.pending && s.active == Some(g)
    ensures var jobs := BereaveAll(s.jobs, g, c);
            BereaveAll(s.jobs, g, c + 1) ==
              match s.pending[c].purpose
              case Subscribe(j) => Settle(jobs, j, Some(ConnectionLost))
              case Cleanup(j, _) => Settle(jobs, j, None)
              case _ => jobs
  {
    assert CallOk(s, c);
    hide JobOk, CallOk, Doomed, BereaveAll, Settle, Awaits;
    forall k: nat
      ensures Doomed(s.jobs, g, c + 1, k) <==> Doomed(s.jobs, g, c, k) || ReportsTo(s.pending[c].purpose, k)
    {
      DoomedNext(s, g, c, k);
    }
    match s.pending[c].purpose
    case Subscribe(j) =>
      DoomedNext(s, g, c, j);
      BereaveOwner(s.jobs, g, c, j);
    case Cleanup(j, _) =>
      DoomedNext(s, g, c, j);
      BereaveOwner(s.jobs, g, c, j);
    case _ => BereaveSame(s.jobs, g, c);
  }

  /** Nobody waits for a call that is not pending. */
  lemma BereaveSkip(s: State, g: nat, c: nat)
    requires Wired(s) && c !in s.pending
    ensures BereaveAll(s.jobs, g, c + 1) == BereaveAll(s.jobs, g, c)
  {
    forall k | k in s.jobs ensures JobOk(s, k) {}
  }

  /** The tables after the calls below `c` have been rejected, and after one more. */
  lemma KeptNext(s: State, g: nat, c: nat)
    requires Wired(s) && s.active == Some(g)
    ensures c in s.pending <==> c in Kept(s.pending, g, c)
    ensures c in s.pending ==> s.pending[c].gen == g && Kept(s.pending, g, c)[c] == s.pending[c]
    ensures Kept(s.pending, g, c + 1) == Kept(s.pending, g, c) - {c}
    ensures Losses(s.pending, g, c + 1) == if c in s.pending then Losses(s.pending, g, c)[c := Lost] else Losses(s.pending, g, c)
  {
    assert c in s.pending ==> CallOk(s, c);
  }

  lemma LogNext(log: map<nat, Outcome>, losses: map<nat, Outcome>, c: nat)
    ensures (log + losses)[c := Lost] == log + losses[c := Lost]
  {
  }

  lemma KeptNone(s: State, g: nat)
    ensures Kept(s.pending, g, 0) == s.pending && s.log + Losses(s.pending, g, 0) == s.log && BereaveAll(s.jobs, g, 0) == s.jobs
  {
  }

  lemma MisfireWired(s: State, p: Pending)
    requires Wired(s) && LedgerOk(s)
    ensures Wired(Misfire(s, p)) && LedgerOk(Misfire(s, p))
  {
    var t := Misfire(s, p);
    forall j | j in t.jobs ensures JobOk(t, j) && OwnerOk(t, j) { assert JobOk(s, j) && OwnerOk(s, j); }
    forall d | d in t.pending ensures CallOk(t, d) { assert CallOk(s, d); }
    forall y | y in t.subs ensures SubOk(t, y) { assert SubOk(s, y); }
  }

  lemma DiscardWired(s: State, x: nat)
    requires Wired(s)
    ensures Wired(Discard(s, x))
  {
    var t := Discard(s, x);
    forall j | j in t.jobs ensures JobOk(t, j) && OwnerOk(t, j) { assert JobOk(s, j) && OwnerOk(s, j); }
    forall d | d in t.pending ensures CallOk(t, d) { assert CallOk(s, d); }
    forall y | y in t.subs ensures SubOk(t, y) { assert SubOk(s, y); }
  }

  lemma InvParts(s: State)
    requires Inv(s)
    ensures Wired(s) && LedgerOk(s)
  {
  }

  lemma ForgetWithout(subs: map<nat, Subscription>, x: nat, g: nat)
    ensures ForgetAll(subs - {x}, g) == ForgetAll(subs, g) - {x}
  {
  }

  lemma DropLess(s: State, subs: map<nat, Subscription>, g: nat)
    requires s.active == Some(g)
    ensures ClientModel.Drop(s.(subs := subs), g) == ClientModel.Drop(s, g).(subs := ForgetAll(subs, g))
  {
    hide Kept, Losses, BereaveAll, ForgetAll;
  }

  /** Leaving the table before or after the connection is lost comes to the same. */
  lemma DropDiscard(s: State, x: nat, p: Pending)
    requires s.active == Some(p.gen)
    ensures ClientModel.Drop(Misfire(Discard(s, x), p), p.gen) == Discard(ClientModel.Drop(Misfire(s, p), p.gen), x)
  {
    var t := Misfire(s, p);
    assert Misfire(Discard(s, x), p) == t.(subs := t.subs - {x});
    DropLess(t, t.subs - {x}, p.gen);
    DropLess(t, t.subs, p.gen);
    ForgetWithout(t.subs, x, p.gen);
    hide ClientModel.Drop, ForgetAll;
  }

  /** What `drop` does once the pending calls are rejected. */
  function Abandon(s: State, g: nat): State {
    s.(active := None, reconnectTimer := true, grants := map[], subs := ForgetAll(s.subs, g))
  }

  lemma DropParts(s: State, g: nat)
    ensures ClientModel.Drop(s, g) == if s.active != Some(g) then s else Abandon(RejectAll(s, g, s.callSeq), g)
    ensures RejectAll(s, g, s.callSeq).subs == s.subs && RejectAll(s, g, s.callSeq).subSeq == s.subSeq
  {
  }

  lemma SubIds(s: State)
    requires Wired(s)
    ensures forall x :: x in s.subs ==> x < s.subSeq
  {
    forall x | x in s.subs ensures SubOk(s, x) {}
  }

  function Subscribed(s: State): State {
    s.(subSeq := s.subSeq + 1, subs := s.subs[s.subSeq := Fresh])
  }

  lemma SubscribedFirst(s: State)
    ensures OpenStream(s) == EnsureConn(Subscribed(s), Activation(s.subSeq, FromStream, AwaitConn))
  {
  }

  lemma SpawnSubs(s: State, job: Job)
    ensures Spawn(s, job).subs == s.subs
  {
  }

  function Claimed(s: State, j: nat, x: nat, origin: Origin, g: nat, c: nat): State
    requires x in s.subs
  {
    s.(jobs := s.jobs[j := Activation(x, origin, AwaitGrant(g, c))],
       subs := s.subs[x := s.subs[x].(opening := Some(Opening(g, j)))],
       openers := s.openers[x := Opening(g, j)])
  }

  lemma OwnParts(s: State, j: nat, x: nat, origin: Origin, g: nat)
    requires x in s.subs
    ensures x in Enlist(s, Pending(g, Subscribe(j))).subs
    ensures Own(s, j, x, origin, g) == Claimed(Enlist(s, Pending(g, Subscribe(j))), j, x, origin, g, s.callSeq)
  {
  }

  lemma ClearFields(s: State, x: nat)
    requires x in s.subs
    ensures x in ClearRetry(s, x).subs && ClearRetry(s, x).active == s.active
  {
  }

  /** The last branch of `BeginActivation`, once the retry timer is cleared. */
  function SendSubscribe(s: State, j: nat, x: nat, origin: Origin, g: nat, throws: bool): State
    requires x in s.subs
  {
    if s.active != Some(g) then OwnFailure(s, j, x, origin, g, ConnectionLost)
    else if throws then OwnFailure(ClientModel.Drop(Misfire(s, Pending(g, Subscribe(j))), g), j, x, origin, g, SendFailed)
    else Own(s, j, x, origin, g)
  }

  function Join(s: State, j: nat, x: nat, origin: Origin, g: nat, o: nat): State {
    if o in s.jobs && s.jobs[o].Activation? && s.jobs[o].stage.Settled? then
      if s.jobs[o].stage.why.None? then Finish(s, j)
      else SetJob(s, j, Activation(x, origin, Rejected(s.jobs[o].stage.why.value)))
    else SetJob(s, j, Activation(x, origin, Joined(g, o)))
  }

  lemma BeginCases(s: State, j: nat, x: nat, origin: Origin, g: nat, throws: bool)
    ensures x !in s.subs || LiveOn(s.subs[x], g) ==> BeginActivation(s, j, x, origin, g, throws) == Finish(s, j)
    ensures x in s.subs && !LiveOn(s.subs[x], g) && OpeningOn(s.subs[x], g) ==>
      BeginActivation(s, j, x, origin, g, throws) == Join(s, j, x, origin, g, s.subs[x].opening.value.job)
    ensures x in s.subs && !LiveOn(s.subs[x], g) && !OpeningOn(s.subs[x], g) ==>
      x in ClearRetry(s, x).subs && BeginActivation(s, j, x, origin, g, throws) == SendSubscribe(ClearRetry(s, x), j, x, origin, g, throws)
  {
  }

  function GivenBack(s: State, j: nat, g: nat, c: nat, stream: string, u: nat): State
    requires j in s.jobs && s.jobs[j].Activation?
  {
    s.(jobs := s.jobs[j := s.jobs[j].(stage := AwaitCleanup(g, u))],
       grants := if stream != "" && c in s.grants then s.grants[c := s.grants[c].(fate := Released(u))] else s.grants)
  }

  lemma ReturnParts(s: State, j: nat, g: nat, c: nat, stream: string)
    requires j in s.jobs && s.jobs[j].Activation?
    ensures var t := Enlist(s, Pending(g, Cleanup(j, stream)));
            t.jobs == s.jobs && Return(s, j, g, c, stream) == GivenBack(t, j, g, c, stream, s.callSeq)
  {
  }

  lemma FinishActive(s: State, j: nat)
    ensures Finish(s, j).active == s.active
  {
  }

  lemma ReadyJob(s: State, j: nat)
    requires Ready(s, j)
    ensures j in s.jobs
  {
  }

  /** The activations started for the subscriptions with a local id below `n`. */
  function Recruited(s: State, r: nat, g: nat, n: nat): map<nat, Job> {
    map k | s.jobSeq <= k < s.jobSeq + n && Recruits(s, k) :: Activation(k - s.jobSeq, FromRecovery(r), Begin(g))
  }

  lemma NoRecruit(s: State, r: nat, g: nat, base: map<nat, Job>)
    ensures base + Recruited(s, r, g, 0) == base
  {
  }

  lemma NextRecruit(s: State, r: nat, g: nat, base: map<nat, Job>, x: nat)
    ensures base + Recruited(s, r, g, x + 1) ==
      if x in s.subs then (base + Recruited(s, r, g, x))[s.jobSeq + x := Activation(x, FromRecovery(r), Begin(g))]
      else base + Recruited(s, r, g, x)
  {
    var now, next := Recruited(s, r, g, x), Recruited(s, r, g, x + 1);
    forall k ensures k in next <==> k in now || (k == s.jobSeq + x && x in s.subs) {}
    assert next == if x in s.subs then now[s.jobSeq + x := Activation(x, FromRecovery(r), Begin(g))] else now;
  }

  function Enrolled(s: State, recruits: map<nat, Job>): State {
    s.(jobs := s.jobs + recruits, jobSeq := s.jobSeq + s.subSeq)
  }

  function Resynced(s: State, r: nat): State {
    Finish(s, r).(resyncs := s.resyncs + 1)
  }

  lemma RecoveryCases(s: State, r: nat, phase: Phase)
    ensures phase.Dialing? ==> ContinueRecovery(s, r, phase) == s
    ensures phase.Connected? ==> ContinueRecovery(s, r, phase) == Restore(s, r, phase.gen)
    ensures phase.Undialed? ==> ContinueRecovery(s, r, phase) == Finish(ArmReconnect(s), r)
    ensures phase.Restoring? && (phase.failed || s.active != Some(phase.gen)) ==>
      ContinueRecovery(s, r, phase) == Finish(ArmReconnect(s), r)
    ensures phase.Restoring? && !phase.failed && s.active == Some(phase.gen) ==> ContinueRecovery(s, r, phase) == Resynced(s, r)
  {
  }

  function Accepted(s: State): State {
    s.(active := Some(s.generation), generation := s.generation + 1, connecting := false, beating := false)
  }

  function Woken(jobs: map<nat, Job>, g: nat): map<nat, Job> {
    map k | k in jobs :: Wake(jobs[k], g)
  }

  lemma OpenedParts(s: State)
    ensures SocketOpened(s) == Accepted(s).(jobs := Woken(s.jobs, s.generation))
  {
  }

  lemma RestoreParts(s: State, r: nat, g: nat)
    ensures var t := SetJob(s, r, Recovery(Restoring(g, false)));
            t.subs == s.subs && t.jobSeq == s.jobSeq && t.subSeq == s.subSeq &&
            Restore(s, r, g) == Enrolled(t, Recruited(s, r, g, s.subSeq))
  {
  }

  lemma DiscardFields(s: State, x: nat)
    ensures LedgerOk(s) ==> LedgerOk(Discard(s, x))
    ensures Discard(s, x).active == s.active
  {
  }

  /** The unsubscribe is on the wire for a stream whose subscription has left the table. */
  function ReleaseSent(s: State, x: nat, g: nat, stream: string): State {
    Enlist(s, Pending(g, Release(stream))).(grants := HandBack(s.grants, x, s.callSeq))
  }

  /** `closeSubscription` in the order the code does it: leave the table first, then send. */
  lemma CloseCases(s: State, x: nat, throws: bool)
    ensures x !in s.subs ==> CloseStream(s, x, throws) == s
    ensures x in s.subs && (s.active.None? || !LiveOn(s.subs[x], s.active.value)) ==> CloseStream(s, x, throws) == Discard(s, x)
    ensures x in s.subs && s.active.Some? && LiveOn(s.subs[x], s.active.value) ==>
      var g, stream := s.active.value, s.subs[x].remote.value.stream;
      CloseStream(s, x, throws) ==
        if throws then ClientModel.Drop(Misfire(Discard(s, x), Pending(g, Release(stream))), g)
        else ReleaseSent(Discard(s, x), x, g, stream)
  {
    if x in s.subs && s.active.Some? && LiveOn(s.subs[x], s.active.value) {
      DropDiscard(s, x, Pending(s.active.value, Release(s.subs[x].remote.value.stream)));
    }
  }

  class Client {
    var active: Option<nat>
    var connecting: bool
    var reconnectTimer: bool
    var generation: nat
    var callSeq: nat
    var subSeq: nat
    var jobSeq: nat
    var beating: bool
    var resyncs: nat
    var pending: map<nat, Pending>
    var subs: map<nat, Subscription>
    var jobs: map<nat, Job>              // suspended continuations, kept by the promise runtime
    ghost var issued: map<nat, Pending>
    ghost var log: map<nat, Outcome>
    ghost var openers: map<nat, Opening>
    ghost var grants: map<nat, Grant>
    ghost var blank: bool

    ghost function Abs(): State
      reads this
    {
      State(active, connecting, reconnectTimer, generation, callSeq, subSeq, jobSeq, beating, resyncs,
            pending, subs, jobs, issued, log, openers, grants, blank)
    }

    ghost predicate Valid()
      reads this
    {
      Inv(Abs())
    }

    constructor ()
      ensures Valid() && Abs() == Init
    {
      active, connecting, reconnectTimer := None, false, false;
      generation, callSeq, subSeq, jobSeq := 0, 0, 0, 0;
      beating, resyncs := false, 0;
      pending, subs, jobs := map[], map[], map[];
      issued, log, openers, grants, blank := map[], map[], map[], map[], false;
      new;
      InitInv();
    }

    /** `entry.reject` or `entry.resolve` for an unsubscribe: the promise settles, whoever awaits it becomes runnable. */
    method RejectLost(c: nat, purpose: Purpose)
      modifies this`jobs
      ensures jobs == match purpose
        case Subscribe(j) => Settle(old(jobs), j, Some(ConnectionLost))
        case Cleanup(j, _) => Settle(old(jobs), j, None)
        case _ => old(jobs)
    {
      match purpose
      case Subscribe(j) => jobs := Settle(jobs, j, Some(ConnectionLost));
      case Cleanup(j, _) => jobs := Settle(jobs, j, None);
      case _ =>   // A rejected heartbeat would call `drop` again, which returns at once.
    }

    method ScheduleReconnect()
      modifies this`reconnectTimer
      ensures reconnectTimer
    {
      if !reconnectTimer { reconnectTimer := true; }
    }

    /** Takes the pending entries of connection `g` out of the table, oldest first, and rejects them. */
    method RejectPending(g: nat)
      requires Wired(Abs()) && LedgerOk(Abs()) && active == Some(g)
      modifies this`pending, this`jobs, this`log
      ensures Abs() == RejectAll(old(Abs()), g, old(callSeq))
    {
      ghost var s := Abs();
      KeptNone(s, g);
      hide Kept, Losses, BereaveAll, Settle, Wired, LedgerOk;
      for c := 0 to callSeq
        invariant pending == Kept(s.pending, g, c)
        invariant log == s.log + Losses(s.pending, g, c)
        invariant jobs == BereaveAll(s.jobs, g, c)
      {
        KeptNext(s, g, c);
        if c in pending && pending[c].gen == g {
          var purpose := pending[c].purpose;
          pending := pending - {c};
          log := log[c := Lost];
          RejectLost(c, purpose);
          BereaveNext(s, g, c);
          LogNext(s.log, Losses(s.pending, g, c), c);
        } else {
          BereaveSkip(s, g, c);
          assert pending - {c} == pending;
        }
      }
    }

    /** `resetSubscriptionRetry` and the removal of the remote stream, for every subscription in the table. */
    method ForgetStreams(g: nat)
      requires forall x :: x in subs ==> x < subSeq
      modifies this`subs
      ensures subs == ForgetAll(old(subs), g)
    {
      ghost var before := subs;
      for x := 0 to subSeq
        invariant subs == map y | y in before :: if y < x then Forget(before[y], g) else before[y]
      {
        if x in subs { subs := subs[x := Forget(subs[x], g)]; }
      }
    }

    method Disconnect(g: nat)
      requires forall x :: x in subs ==> x < subSeq
      modifies this`active, this`subs, this`grants, this`reconnectTimer
      ensures Abs() == Abandon(old(Abs()), g)
    {
      active := None;
      grants := map[];
      ForgetStreams(g);
      ScheduleReconnect();
    }

    method Drop(g: nat)
      requires Wired(Abs()) && LedgerOk(Abs())
      modifies this
      ensures Abs() == ClientModel.Drop(old(Abs()), g)
    {
      DropParts(Abs(), g);
      SubIds(Abs());
      hide LedgerOk, Wired, RejectAll, Abandon, ClientModel.Drop;
      if active == Some(g) {
        RejectPending(g);
        Disconnect(g);
      }
    }

    /** `sendCall`: the id of the call if it went out. */
    method SendCall(g: nat, purpose: Purpose, throws: bool) returns (sent: Option<nat>)
      requires Wired(Abs()) && LedgerOk(Abs())
      modifies this
      ensures sent == if old(active) == Some(g) && !throws then Some(old(callSeq)) else None
      ensures old(active) != Some(g) ==> Abs() == old(Abs())
      ensures old(active) == Some(g) && throws ==> Abs() == ClientModel.Drop(Misfire(old(Abs()), Pending(g, purpose)), g)
      ensures old(active) == Some(g) && !throws ==> Abs() == Enlist(old(Abs()), Pending(g, purpose))
    {
      hide ClientModel.Drop;
      if active != Some(g) { return None; }
      var id := callSeq;
      ghost var s := Abs();
      var entry := Pending(g, purpose);
      callSeq := callSeq + 1;
      issued := issued[id := entry];
      if throws {
        // The entry is set, `ws.send` throws, and the entry is deleted before anyone else can run.
        log := log[id := Unsent];
        assert Abs() == Misfire(s, entry);
        MisfireWired(s, entry);
        Drop(g);
        return None;
      }
      pending := pending[id := entry];
      return Some(id);
    }

    method ScheduleSubscriptionRetry(x: nat, g: nat)
      modifies this`subs
      ensures Abs() == ScheduleRetry(old(Abs()), x, g)
    {
      if x !in subs || active != Some(g) { return; }
      var subscription := subs[x];
      if subscription.retry.Some? || LiveOn(subscription, g) || OpeningOn(subscription, g) { return; }
      subs := subs[x := subscription.(attempts := subscription.attempts + 1, retry := Some(g))];
    }

    /** A job enters the runtime: it continues at once, or waits for the dial it may have to start. */
    method AwaitConnection(job: Job)
      modifies this`connecting, this`jobs, this`jobSeq
      ensures Abs() == EnsureConn(old(Abs()), job)
    {
      if active.None? && !connecting { connecting := true; }
      jobs := jobs[jobSeq := if active.Some? then Wake(job, active.value) else job];
      jobSeq := jobSeq + 1;
    }

    method NewSubscription() returns (localId: nat)
      modifies this`subs, this`subSeq
      ensures Abs() == Subscribed(old(Abs())) && localId == old(subSeq)
    {
      localId := subSeq;
      subSeq := subSeq + 1;
      subs := subs[localId := Fresh];
    }

    method Stream() returns (localId: nat)
      requires Valid()
      modifies this
      ensures Valid() && Abs() == OpenStream(old(Abs())) && localId == old(subSeq)
    {
      StreamKeeps(Abs());
      SubscribedFirst(Abs());
      hide Inv, EnsureConn, Subscribed, OpenStream;
      localId := NewSubscription();
      AwaitConnection(Activation(localId, FromStream, AwaitConn));
    }

    /** The unsubscribe for a stream whose subscription `x` has just left the table. */
    method SendRelease(x: nat, g: nat, stream: string, throws: bool)
      requires Wired(Abs()) && LedgerOk(Abs()) && active == Some(g)
      modifies this
      ensures throws ==> Abs() == ClientModel.Drop(Misfire(old(Abs()), Pending(g, Release(stream))), g)
      ensures !throws ==> Abs() == ReleaseSent(old(Abs()), x, g, stream)
    {
      hide Wired, LedgerOk, ClientModel.Drop, HandBack;
      var sent := SendCall(g, Release(stream), throws);
      if sent.Some? { grants := HandBack(grants, x, sent.value); }
    }

    method LeaveTable(x: nat)
      modifies this`subs
      ensures Abs() == Discard(old(Abs()), x)
    {
      subs := subs - {x};
    }

    method CloseSubscription(x: nat, throws: bool)
      requires Valid()
      modifies this
      ensures Valid() && Abs() == CloseStream(old(Abs()), x, throws)
    {
      hide Inv, Wired, LedgerOk, ClientModel.Drop, Misfire, CloseStream, ReleaseSent, Discard;
      ghost var s := Abs();
      CloseStreamKeeps(s, x, throws);
      InvParts(s);
      DiscardWired(s, x);
      CloseCases(s, x, throws);
      if x !in subs { return; }
      var subscription := subs[x];
      var connection := active;
      LeaveTable(x);
      if connection.None? || !LiveOn(subscription, connection.value) { return; }
      DiscardFields(s, x);
      SendRelease(x, connection.value, subscription.remote.value.stream, throws);
    }

    // ----- Replies and timeouts ---------------------------------------------------------

    method TakeOut(c: nat, how: Outcome)
      modifies this`pending, this`log
      ensures Abs() == Unpend(old(Abs()), c, how)
    {
      pending := pending - {c};
      log := log[c := how];
    }

    /** `entry.reject`: whoever awaits the promise becomes runnable. */
    method RejectEntry(entry: Pending, why: Fault)
      modifies this`jobs, this`jobSeq
      ensures Abs() == Reject(old(Abs()), entry, why)
    {
      match entry.purpose
      case Heartbeat => jobs, jobSeq := jobs[jobSeq := Beat(entry.gen)], jobSeq + 1;
      case Subscribe(j) => jobs := Settle(jobs, j, Some(why));
      case Cleanup(j, _) => jobs := Settle(jobs, j, None);
      case _ =>
    }

    method TakeGrant(c: nat, g: nat, j: nat, reply: Reply)
      requires !reply.Error? && j in jobs && jobs[j].Activation?
      modifies this`jobs, this`grants, this`blank
      ensures Abs() == Resolve(old(Abs()), c, Pending(g, Subscribe(j)), reply)
    {
      var result := if reply.Result? then Some(reply.stream) else None;
      if result.Some? && result.value != "" { grants := grants[c := Grant(jobs[j].sub, result.value, Arrived(j))]; }
      blank := blank || result == Some("");
      jobs := jobs[j := jobs[j].(stage := Granted(g, c, result))];
    }

    method ResolveEntry(c: nat, entry: Pending, reply: Reply)
      requires !reply.Error?
      modifies this`jobs, this`grants, this`blank, this`beating
      ensures Abs() == Resolve(old(Abs()), c, entry, reply)
    {
      match entry.purpose
      case Heartbeat => beating := false;
      case Cleanup(j, _) => jobs := Settle(jobs, j, None);
      case Subscribe(j) => if j in jobs && jobs[j].Activation? { TakeGrant(c, entry.gen, j, reply); }
      case _ =>
    }

    method HandleMessage(g: nat, c: nat, reply: Reply)
      requires Valid()
      modifies this
      ensures Valid() && Abs() == Deliver(old(Abs()), g, c, reply)
    {
      ReplyKeeps(Abs(), g, c, reply);
      hide Inv, Unpend, Reject, Resolve;
      if active != Some(g) || c !in pending || pending[c].gen != g { return; }
      var entry := pending[c];
      TakeOut(c, Answered(g));
      if reply.Error? { RejectEntry(entry, Refused(reply.code)); } else { ResolveEntry(c, entry, reply); }
    }

    method CallTimeout(c: nat)
      requires Valid()
      modifies this
      ensures Valid() && Abs() == Expire(old(Abs()), c)
    {
      ExpireKeeps(Abs(), c);
      hide Inv, Unpend, Reject;
      if c !in pending { return; }
      var entry := pending[c];
      TakeOut(c, Expired);
      RejectEntry(entry, TimedOut);
    }

    method MarkBeating()
      modifies this`beating
      ensures Abs() == old(Abs()).(beating := true)
    {
      beating := true;
    }

    method BeatHeart(g: nat, throws: bool)
      requires Valid()
      modifies this
      ensures Valid() && Abs() == HeartbeatTick(old(Abs()), g, throws)
    {
      HeartbeatKeeps(Abs(), g, throws);
      InvParts(Abs());
      hide Inv, Wired, LedgerOk, ClientModel.Drop, Misfire, Enlist;
      if active != Some(g) || beating { return; }
      var sent := SendCall(g, Heartbeat, throws);
      if sent.Some? { MarkBeating(); }   // A heartbeat that cannot be sent takes its connection down with it.
    }

    // ----- Dialling ---------------------------------------------------------------------

    method ConnectionOpened()
      requires Valid() && connecting && Quiet(Abs())
      modifies this
      ensures Valid() && Abs() == SocketOpened(old(Abs()))
    {
      OpenedKeeps(Abs());
      OpenedParts(Abs());
      hide Inv, Quiet, Woken, SocketOpened;
      Accept();
      jobs := Woken(jobs, generation - 1);
    }

    method Accept()
      modifies this`active, this`generation, this`connecting, this`beating
      ensures Abs() == Accepted(old(Abs()))
    {
      active, connecting, beating := Some(generation), false, false;
      generation := generation + 1;
    }

    method DialFailed()
      requires Valid() && connecting
      modifies this
      ensures Valid() && Abs() == DialFails(old(Abs()))
    {
      DialFailsKeeps(Abs());
      hide Inv;
      connecting := false;
      jobs := map k | k in jobs && jobs[k] != Rpc(None) :: Strand(jobs[k]);
    }

    method Disarm()
      modifies this`reconnectTimer
      ensures Abs() == old(Abs()).(reconnectTimer := false)
    {
      reconnectTimer := false;
    }

    method ReconnectDue()
      requires Valid() && reconnectTimer && Quiet(Abs())
      modifies this
      ensures Valid() && Abs() == ReconnectFires(old(Abs()))
    {
      ReconnectKeeps(Abs());
      hide Inv, EnsureConn, Quiet;
      Disarm();
      AwaitConnection(Recovery(Dialing));
    }

    method Call()
      requires Valid()
      modifies this
      ensures Valid() && Abs() == EnsureConn(old(Abs()), Rpc(None))
    {
      EnsureKeeps(Abs(), Rpc(None));
      hide Inv, EnsureConn;
      AwaitConnection(Rpc(None));
    }

    // ----- Opening a stream ---------------------------------------------------------------

    method FinishJob(j: nat)
      modifies this`jobs
      ensures Abs() == Finish(old(Abs()), j)
    {
      jobs := jobs - {j};
    }

    method UpdateJob(j: nat, job: Job)
      modifies this`jobs
      ensures Abs() == SetJob(old(Abs()), j, job)
    {
      jobs := jobs[j := job];
    }

    method SpawnJob(job: Job)
      modifies this`jobs, this`jobSeq
      ensures Abs() == Spawn(old(Abs()), job)
    {
      jobs, jobSeq := jobs[jobSeq := job], jobSeq + 1;
    }

    method SettlePromise(j: nat, why: Option<Fault>)
      modifies this`jobs
      ensures Abs() == SettleJob(old(Abs()), j, why)
    {
      jobs := Settle(jobs, j, why);
    }

    method ClearSubscriptionRetry(x: nat)
      requires x in subs
      modifies this`subs
      ensures Abs() == ClearRetry(old(Abs()), x)
    {
      subs := subs[x := subs[x].(retry := None)];
    }

    method RetryDue(x: nat)
      requires Valid()
      modifies this
      ensures Valid() && Abs() == RetryFires(old(Abs()), x)
    {
      RetryTimerKeeps(Abs(), x);
      hide Inv, Spawn, ClearRetry;
      if x !in subs || subs[x].retry.None? { return; }
      var g := subs[x].retry.value;
      if active == Some(g) { SpawnJob(Activation(x, FromRetry(g), Begin(g))); }
      SpawnSubs(old(Abs()), Activation(x, FromRetry(g), Begin(g)));
      ClearSubscriptionRetry(x);
    }

    /** `subscription.opening = { generation, promise }`, the promise waiting for call `c`. */
    method NameOpening(j: nat, x: nat, origin: Origin, g: nat, c: nat)
      requires x in subs
      modifies this`jobs, this`subs, this`openers
      ensures Abs() == Claimed(old(Abs()), j, x, origin, g, c)
    {
      jobs := jobs[j := Activation(x, origin, AwaitGrant(g, c))];
      subs := subs[x := subs[x].(opening := Some(Opening(g, j)))];
      openers := openers[x := Opening(g, j)];
    }

    /** `subscription.opening = { generation, promise }`, the promise already rejected. */
    method NameFailure(j: nat, x: nat, origin: Origin, g: nat, why: Fault)
      modifies this`jobs, this`subs, this`openers
      ensures Abs() == OwnFailure(old(Abs()), j, x, origin, g, why)
    {
      jobs := jobs[j := Activation(x, origin, Settled(g, Some(why)))];
      if x in subs { subs := subs[x := subs[x].(opening := Some(Opening(g, j)))]; }
      openers := openers[x := Opening(g, j)];
    }

    method JoinOpening(j: nat, x: nat, origin: Origin, g: nat, o: nat)
      modifies this`jobs
      ensures Abs() == Join(old(Abs()), j, x, origin, g, o)
    {
      if o in jobs && jobs[o].Activation? && jobs[o].stage.Settled? {
        match jobs[o].stage.why
        case None => FinishJob(j);
        case Some(why) => UpdateJob(j, Activation(x, origin, Rejected(why)));
      } else { UpdateJob(j, Activation(x, origin, Joined(g, o))); }
    }

    method RequestStream(j: nat, x: nat, origin: Origin, g: nat, throws: bool)
      requires Inv(Abs()) && x in subs && Inv(ClearRetry(Abs(), x))
      modifies this
      ensures Abs() == SendSubscribe(ClearRetry(old(Abs()), x), j, x, origin, g, throws)
    {
      InvParts(ClearRetry(Abs(), x));
      ghost var t := ClearRetry(Abs(), x);
      ClearFields(Abs(), x);
      hide Inv, Wired, LedgerOk, ClearRetry, ClientModel.Drop, Misfire, Own, OwnFailure;
      ClearSubscriptionRetry(x);
      var isActive := active == Some(g);
      var sent := SendCall(g, Subscribe(j), throws);
      OwnParts(t, j, x, origin, g);
      if sent.Some? { NameOpening(j, x, origin, g, sent.value); }
      else if isActive { NameFailure(j, x, origin, g, SendFailed); }
      else { NameFailure(j, x, origin, g, ConnectionLost); }
    }

    /** `activateSubscription` from the end of `await ensureConn()` to its next wait. */
    method ActivateSubscription(j: nat, x: nat, origin: Origin, g: nat, throws: bool)
      requires Valid() && j in jobs && jobs[j] == Activation(x, origin, Begin(g))
      modifies this
      ensures Valid() && Abs() == BeginActivation(old(Abs()), j, x, origin, g, throws)
    {
      BeginKeeps(Abs(), j, x, origin, g, throws);
      BeginFacts(Abs(), j, x, origin, g);
      BeginCases(Abs(), j, x, origin, g, throws);
      hide Inv, BeginActivation, Join, SendSubscribe, ClearRetry, Finish;
      if x !in subs || LiveOn(subs[x], g) { FinishJob(j); }
      else if OpeningOn(subs[x], g) { JoinOpening(j, x, origin, g, subs[x].opening.value.job); }
      else { RequestStream(j, x, origin, g, throws); }
    }

    method HoldStream(x: nat, g: nat, c: nat, stream: string)
      requires x in subs
      modifies this`subs, this`grants
      ensures Abs() == Hold(old(Abs()), x, g, c, stream)
    {
      subs := subs[x := subs[x].(remote := Some(Remote(g, stream, c)), attempts := 0)];
      if stream != "" && c in grants { grants := grants[c := grants[c].(fate := Held)]; }
    }

    method AwaitUnsubscribe(j: nat, g: nat, c: nat, stream: string, u: nat)
      requires j in jobs && jobs[j].Activation?
      modifies this`jobs, this`grants
      ensures Abs() == GivenBack(old(Abs()), j, g, c, stream, u)
    {
      jobs := jobs[j := jobs[j].(stage := ClientModel.AwaitCleanup(g, u))];
      if stream != "" && c in grants { grants := grants[c := grants[c].(fate := Released(u))]; }
    }

    /** The subscription has gone while its stream was being granted: give the stream back. */
    method ReturnStream(j: nat, g: nat, c: nat, stream: string, throws: bool)
      requires Inv(Abs()) && active == Some(g) && j in jobs && jobs[j].Activation?
      modifies this
      ensures throws ==> Abs() == SettleJob(ClientModel.Drop(Misfire(old(Abs()), Pending(g, Cleanup(j, stream))), g), j, None)
      ensures !throws ==> Abs() == Return(old(Abs()), j, g, c, stream)
    {
      InvParts(Abs());
      ReturnParts(Abs(), j, g, c, stream);
      hide Inv, Wired, LedgerOk, Return, GivenBack, SettleJob, ClientModel.Drop, Misfire, Enlist;
      var sent := SendCall(g, Cleanup(j, stream), throws);
      if sent.Some? { AwaitUnsubscribe(j, g, c, stream, sent.value); } else { SettlePromise(j, None); }
    }

    /** The promise body after `await sendCall`. */
    method SubscribeReplied(j: nat, x: nat, origin: Origin, g: nat, c: nat, result: Option<string>, throws: bool)
      requires Valid() && j in jobs && jobs[j] == Activation(x, origin, Granted(g, c, result))
      modifies this
      ensures Valid() && Abs() == AcceptGrant(old(Abs()), j, x, g, c, result, throws)
    {
      AcceptKeeps(Abs(), j, x, origin, g, c, result, throws);
      hide Inv, Hold, SettleJob, Return, Misfire, ClientModel.Drop;
      if active != Some(g) { SettlePromise(j, None); }
      else if result.None? { SettlePromise(j, Some(Malformed)); }
      else if x in subs { HoldStream(x, g, c, result.value); SettlePromise(j, None); }
      else { ReturnStream(j, g, c, result.value, throws); }
    }

    method ForgetPromise(j: nat, x: nat, origin: Origin, why: Option<Fault>)
      modifies this`subs, this`jobs
      ensures Abs() == Disown(old(Abs()), j, x, origin, why)
    {
      if x in subs && subs[x].opening.Some? && subs[x].opening.value.job == j { subs := subs[x := subs[x].(opening := None)]; }
      if why.None? { jobs := jobs - {j}; } else { jobs := jobs[j := Activation(x, origin, Rejected(why.value))]; }
    }

    /** The catch and finally blocks around `await promise`. */
    method PromiseSettled(j: nat, x: nat, origin: Origin, g: nat, why: Option<Fault>)
      requires Valid() && j in jobs && jobs[j] == Activation(x, origin, Settled(g, why))
      modifies this
      ensures Valid() && Abs() == CloseOpening(old(Abs()), j, x, origin, why)
    {
      CloseKeeps(Abs(), j, x, origin, g, why);
      hide Inv, Disown, Discard;
      if why.Some? && Permanent(why.value) && x in subs { LeaveTable(x); }
      ForgetPromise(j, x, origin, why);
    }

    // ----- Failures and recovery ------------------------------------------------------------

    method ArmTimer()
      modifies this`reconnectTimer
      ensures Abs() == ArmReconnect(old(Abs()))
    {
      ScheduleReconnect();
    }

    /** The catch handler of whoever called `activateSubscription`. */
    method ActivationFailed(j: nat, x: nat, origin: Origin, why: Fault)
      requires Valid() && j in jobs && jobs[j] == Activation(x, origin, Rejected(why))
      modifies this
      ensures Valid() && Abs() == Recoil(old(Abs()), j, x, origin, why)
    {
      RecoilKeeps(Abs(), j, x, origin, why);
      OriginFacts(Abs(), j);
      hide Inv, ScheduleRetry, Finish, ArmReconnect, SetJob;
      match origin
      case FromStream =>
        if !Permanent(why) {
          if active.Some? { ScheduleSubscriptionRetry(x, active.value); } else { ArmTimer(); }
        }
        FinishJob(j);
      case FromRetry(g) =>
        if active == Some(g) { ScheduleSubscriptionRetry(x, g); } else if active.None? { ArmTimer(); }
        FinishJob(j);
      case FromRecovery(r) =>
        var g := jobs[r].phase.gen;
        if active == Some(g) { ScheduleSubscriptionRetry(x, g); FinishJob(j); }
        else { FinishJob(j); UpdateJob(r, Recovery(Restoring(g, true))); }
    }

    /** `restoreSubscriptions`: one activation is started for every subscription in the table. */
    method RestoreSubscriptions(r: nat, g: nat)
      requires Valid() && r in jobs && jobs[r] == Recovery(Connected(g))
      modifies this
      ensures Valid() && Abs() == Restore(old(Abs()), r, g)
    {
      RestoreKeeps(Abs(), r, g);
      RestoreParts(Abs(), r, g);
      hide Inv, Restore, Recruited, Enrolled, SetJob;
      ghost var s := Abs();
      StartRestore(r, g);
      Recruit(s, r, g);
    }

    method StartRestore(r: nat, g: nat)
      modifies this`jobs
      ensures Abs() == SetJob(old(Abs()), r, Recovery(Restoring(g, false)))
    {
      jobs := jobs[r := Recovery(Restoring(g, false))];
    }

    method Recruit(ghost s: State, r: nat, g: nat)
      requires s.subs == subs && s.jobSeq == jobSeq && s.subSeq == subSeq
      modifies this`jobs, this`jobSeq
      ensures Abs() == Enrolled(old(Abs()), Recruited(s, r, g, old(subSeq)))
    {
      ghost var base := jobs;
      NoRecruit(s, r, g, base);
      hide Recruited;
      for x := 0 to subSeq
        invariant jobSeq == s.jobSeq && jobs == base + Recruited(s, r, g, x)
      {
        NextRecruit(s, r, g, base, x);
        if x in subs { jobs := jobs[jobSeq + x := Activation(x, FromRecovery(r), Begin(g))]; }
      }
      jobSeq := jobSeq + subSeq;
    }

    method FireResync()
      modifies this`resyncs
      ensures Abs() == old(Abs()).(resyncs := old(resyncs) + 1)
    {
      resyncs := resyncs + 1;
    }

    /** `recover` between two of its waits, and the catch handler of its caller. */
    method Recover(r: nat, phase: Phase)
      requires Valid() && Ready(Abs(), r) && jobs[r] == Recovery(phase)
      modifies this
      ensures Valid() && Abs() == ContinueRecovery(old(Abs()), r, phase)
    {
      RecoveryKeeps(Abs(), r, phase);
      RecoveryCases(Abs(), r, phase);
      hide Inv, Ready, Restore, Finish, ArmReconnect, ContinueRecovery, Resynced;
      match phase
      case Dialing =>
      case Connected(g) => RestoreSubscriptions(r, g);
      case Undialed => ArmTimer(); FinishJob(r);
      case Restoring(g, failed) =>
        if failed || active != Some(g) { ArmTimer(); FinishJob(r); } else { FinishThenResync(r); }
    }

    method FinishThenResync(r: nat)
      modifies this`jobs, this`resyncs
      ensures Abs() == Resynced(old(Abs()), r)
    {
      FinishJob(r);
      FireResync();
    }

    /** `call` with its connection: the request goes out. */
    method SendRequest(j: nat, g: nat, throws: bool)
      requires Valid() && j in jobs && jobs[j] == Rpc(Some(g))
      modifies this
      ensures Abs() == ClientModel.SendCall(Finish(old(Abs()), j), g, Request, throws).state
    {
      FinishKeeps(Abs(), j);
      InvParts(Finish(Abs(), j));
      FinishActive(Abs(), j);
      hide Inv, Wired, LedgerOk, Finish, ClientModel.Drop, Misfire, Enlist;
      FinishJob(j);
      var _ := SendCall(g, Request, throws);
    }

    /** The catch handler of a heartbeat. */
    method HeartbeatFailed(j: nat, g: nat)
      requires Valid() && j in jobs && jobs[j] == Beat(g)
      modifies this
      ensures Abs() == ClientModel.Drop(Finish(old(Abs()), j), g)
    {
      FinishKeeps(Abs(), j);
      InvParts(Finish(Abs(), j));
      hide Inv, Wired, LedgerOk, Finish, ClientModel.Drop;
      FinishJob(j);
      Drop(g);
    }

    method RunJob(j: nat, throws: bool)
      requires Valid() && Ready(Abs(), j)
      modifies this
      ensures Valid() && Abs() == RunMicrotask(old(Abs()), j, throws)
    {
      MicrotaskKeeps(Abs(), j, throws);
      ReadyJob(Abs(), j);
      hide Inv, Ready, BeginActivation, AcceptGrant, CloseOpening, Recoil, ContinueRecovery, ClientModel.SendCall, ClientModel.Drop, Finish;
      match jobs[j]
      case Activation(x, origin, Begin(g)) => ActivateSubscription(j, x, origin, g, throws);
      case Activation(x, origin, Granted(g, c, result)) => SubscribeReplied(j, x, origin, g, c, result, throws);
      case Activation(x, origin, Settled(g, why)) => PromiseSettled(j, x, origin, g, why);
      case Activation(x, origin, Rejected(why)) => ActivationFailed(j, x, origin, why);
      case Rpc(Some(g)) => SendRequest(j, g, throws);
      case Recovery(phase) => Recover(j, phase);
      case Beat(g) => HeartbeatFailed(j, g);
      case _ =>
    }

    /** The object refines the machine: every event it handles is that step. */
    method Handle(e: Event)
      requires Valid() && Enabled(Abs(), e)
      modifies this
      ensures Valid() && Abs() == Step(old(Abs()), e)
    {
      StepKeeps(Abs(), e);
      InvParts(Abs());
      hide Inv, Ready, Quiet, Wired, LedgerOk, OpenStream, CloseStream, EnsureConn, SocketOpened, DialFails, ClientModel.Drop, Deliver, Expire,
        HeartbeatTick, ReconnectFires, RetryFires, RunMicrotask;
      match e
      case UserStream => var _ := Stream();
      case UserClose(x, throws) => CloseSubscription(x, throws);
      case UserCall => Call();
      case Opened => ConnectionOpened();
      case DialError => DialFailed();
      case Closed(g) => Drop(g);
      case Frame(g, c, reply) => HandleMessage(g, c, reply);
      case CallTimer(c) => CallTimeout(c);
      case HeartbeatTimer(g, throws) => BeatHeart(g, throws);
      case ReconnectTimer => ReconnectDue();
      case RetryTimer(x) => RetryDue(x);
      case Microtask(j, throws) => RunJob(j, throws);
    }
  }
}
