/** The inductive invariant of the client machine, and that every event keeps it. */
module ClientInvariant {
  import opened Options
  import opened ClientModel

  // ----- The invariant ---------------------------------------------------------------

  /** A continuation holding connection `g` runs before any newer connection exists. */
  predicate Current(s: State, g: nat) {
    g < s.generation && (s.active == Some(g) || (s.active.None? && s.reconnectTimer))
  }

  predicate StageOk(s: State, j: nat, x: nat, stage: Stage) {
    match stage
    case AwaitConn => s.connecting
    case Begin(g) => Current(s, g)
    case AwaitGrant(g, c) => c in s.pending && s.pending[c] == Pending(g, Subscribe(j))
    case Granted(g, c, result) =>
      Current(s, g) && (result == Some("") ==> s.blank) &&
      (s.active == Some(g) && result.Some? && result.value != "" ==>
        c in s.grants && s.grants[c] == Grant(x, result.value, Arrived(j)))
    case AwaitCleanup(g, c) =>
      c in s.pending && s.pending[c].gen == g && s.pending[c].purpose.Cleanup? &&
      s.pending[c].purpose.job == j && x !in s.subs
    case Settled(g, why) =>
      Current(s, g) && (why.None? && x in s.subs && s.active == Some(g) ==> s.subs[x].remote.Some?)
    case Joined(g, o) =>
      Current(s, g) && o in s.jobs && s.jobs[o].Activation? && s.jobs[o].sub == x &&
      Owner(s.jobs[o].stage) && !s.jobs[o].stage.Settled? && s.jobs[o].stage.gen == g
    case Rejected(_) => true
  }

  predicate OriginOk(s: State, origin: Origin, stage: Stage) {
    match origin
    case FromStream => true
    case FromRetry(g) => !stage.AwaitConn? && Current(s, g) && (HasGen(stage) ==> stage.gen == g)
    case FromRecovery(r) =>
      !stage.AwaitConn? && r in s.jobs && s.jobs[r].Recovery? && s.jobs[r].phase.Restoring? &&
      (HasGen(stage) ==> stage.gen == s.jobs[r].phase.gen)
  }

  predicate JobOk(s: State, j: nat)
    requires j in s.jobs
  {
    j < s.jobSeq &&
    match s.jobs[j]
    case Activation(x, origin, stage) => x < s.subSeq && OriginOk(s, origin, stage) && StageOk(s, j, x, stage)
    case Rpc(conn) => if conn.None? then s.connecting else Current(s, conn.value)
    case Recovery(phase) => (phase.Dialing? ==> s.connecting) && (phase.Connected? || phase.Restoring? ==> Current(s, phase.gen))
    case Beat(g) => true
  }

  predicate CallOk(s: State, c: nat) {
    c in s.pending && s.active == Some(s.pending[c].gen) && c in s.issued && s.issued[c] == s.pending[c] &&
    match s.pending[c].purpose
    case Subscribe(j) => j in s.jobs && s.jobs[j].Activation? && s.jobs[j].stage == AwaitGrant(s.pending[c].gen, c)
    case Cleanup(j, _) => j in s.jobs && s.jobs[j].Activation? && s.jobs[j].stage == AwaitCleanup(s.pending[c].gen, c)
    case _ => true
  }

  predicate SubOk(s: State, x: nat)
    requires x in s.subs
  {
    var sub := s.subs[x];
    x < s.subSeq &&
    (sub.remote.Some? ==> s.active == Some(sub.remote.value.gen)) &&
    (sub.remote.Some? && sub.remote.value.stream == "" ==> s.blank) &&
    (sub.remote.Some? && sub.remote.value.stream != "" ==>
      sub.remote.value.call in s.grants && s.grants[sub.remote.value.call] == Grant(x, sub.remote.value.stream, Held)) &&
    (sub.retry.Some? ==> s.active == sub.retry) &&
    (sub.opening.Some? ==> sub.opening.value.job in s.jobs && Opener(s.jobs[sub.opening.value.job], x, sub.opening.value.gen))
  }

  /** The owner of a promise on the active connection is the one its subscription names, and it has no stream yet. */
  predicate OwnerOk(s: State, j: nat)
    requires j in s.jobs
  {
    var job := s.jobs[j];
    job.Activation? && Owner(job.stage) && s.active == Some(job.stage.gen) ==>
      job.sub in s.openers && s.openers[job.sub] == Opening(job.stage.gen, j) &&
      (job.sub in s.subs ==>
        s.subs[job.sub].opening == Some(Opening(job.stage.gen, j)) &&
        (job.stage != Settled(job.stage.gen, None) ==> !LiveOn(s.subs[job.sub], job.stage.gen)))
  }

  /** The job will put its subscription into one of the other covered states before it ends. */
  predicate Promising(job: Job, x: nat) {
    job.Activation? && job.sub == x &&
    !(job.stage.Settled? && job.stage.why.None?) && !(job.stage.Rejected? && Permanent(job.stage.fault))
  }

  ghost predicate Promised(s: State, x: nat) {
    exists j :: j in s.jobs && Promising(s.jobs[j], x)
  }

  ghost predicate Restorable(s: State) {
    exists r :: r in s.jobs && s.jobs[r].Recovery? && !s.jobs[r].phase.Restoring?
  }

  ghost predicate Covered(s: State, x: nat)
    requires x in s.subs
  {
    s.subs[x].remote.Some? || s.subs[x].retry.Some? || s.reconnectTimer || Restorable(s) || Promised(s, x)
  }

  predicate IsUnsubscribe(p: Pending, g: nat, stream: string) {
    p.gen == g && (p.purpose == Release(stream) || (p.purpose.Cleanup? && p.purpose.stream == stream))
  }

  predicate GrantOk(s: State, c: nat) {
    c in s.grants &&
    var grant := s.grants[c];
    s.active.Some? && c in s.log && grant.stream != "" &&
    match grant.fate
    case Arrived(j) => j in s.jobs && s.jobs[j].Activation? && s.jobs[j].sub == grant.sub
                       && s.jobs[j].stage == Granted(s.active.value, c, Some(grant.stream))
    case Held => grant.sub in s.subs && s.subs[grant.sub].remote == Some(Remote(s.active.value, grant.stream, c))
    case Released(u) => u in s.issued && IsUnsubscribe(s.issued[u], s.active.value, grant.stream)
  }

  ghost predicate LedgerOk(s: State) {
    (forall c: nat :: c in s.issued <==> c < s.callSeq) &&
    (forall c :: c in s.issued ==> (c in s.pending <==> c !in s.log)) &&
    (forall c :: c in s.pending ==> c in s.issued) &&
    (forall c :: c in s.log ==> c in s.issued) &&
    (forall c :: c in s.log && s.log[c].Answered? ==> s.log[c].gen == s.issued[c].gen)
  }

  ghost predicate JobsOk(s: State) {
    forall j :: j in s.jobs ==> JobOk(s, j)
  }

  ghost predicate OwnersOk(s: State) {
    forall j :: j in s.jobs ==> OwnerOk(s, j)
  }

  ghost predicate CallsOk(s: State) {
    forall c :: c in s.pending ==> CallOk(s, c)
  }

  ghost predicate SubsOk(s: State) {
    forall x :: x in s.subs ==> SubOk(s, x)
  }

  ghost predicate AllCovered(s: State) {
    forall x :: x in s.subs ==> Covered(s, x)
  }

  ghost predicate GrantsOk(s: State) {
    forall c :: c in s.grants ==> GrantOk(s, c)
  }

  /** The tables and the suspended continuations refer to each other consistently. */
  ghost predicate Wired(s: State) {
    (s.active.Some? ==> s.active.value < s.generation && !s.connecting) &&
    JobsOk(s) && OwnersOk(s) && CallsOk(s) && SubsOk(s)
  }

  ghost predicate Recorded(s: State) {
    LedgerOk(s) && GrantsOk(s)
  }

  ghost predicate Inv(s: State) {
    Wired(s) && Recorded(s) && AllCovered(s)
  }

  lemma InitInv()
    ensures Inv(Init)
  {
  }

  /** Coverage survives a step that keeps the subscription's own fields and every job that covers it. */
  lemma Carry(s: State, t: State, x: nat)
    requires x in s.subs && x in t.subs && Covered(s, x)
    requires s.subs[x].remote.Some? ==> t.subs[x].remote.Some?
    requires s.subs[x].retry.Some? ==> t.subs[x].retry.Some?
    requires s.reconnectTimer ==> t.reconnectTimer
    requires forall j :: j in s.jobs && s.jobs[j].Recovery? && !s.jobs[j].phase.Restoring?
               ==> j in t.jobs && t.jobs[j].Recovery? && !t.jobs[j].phase.Restoring?
    requires forall j :: j in s.jobs && Promising(s.jobs[j], x) ==> j in t.jobs && Promising(t.jobs[j], x)
    ensures Covered(t, x)
  {
  }

  /** No subscription of `t` is new or has lost what covers it, and no job of `s` has broken its promise. */
  ghost predicate Carries(s: State, t: State) {
    (s.reconnectTimer ==> t.reconnectTimer) &&
    (forall x :: x in t.subs ==>
      x in s.subs && (s.subs[x].remote.Some? ==> t.subs[x].remote.Some?) && (s.subs[x].retry.Some? ==> t.subs[x].retry.Some?)) &&
    (forall j :: j in s.jobs && s.jobs[j].Recovery? && !s.jobs[j].phase.Restoring? ==>
      j in t.jobs && t.jobs[j].Recovery? && !t.jobs[j].phase.Restoring?) &&
    (forall j :: j in s.jobs && s.jobs[j].Activation? && s.jobs[j].sub in t.subs && Promising(s.jobs[j], s.jobs[j].sub) ==>
      j in t.jobs && Promising(t.jobs[j], s.jobs[j].sub))
  }

  lemma CarryAll(s: State, t: State)
    requires AllCovered(s) && Carries(s, t)
    ensures AllCovered(t)
  {
    hide Covered, Promising;
    forall x | x in t.subs ensures Covered(t, x) { CarryOne(s, t, x); }
  }

  lemma CarryOne(s: State, t: State, x: nat)
    requires x in s.subs && x in t.subs && Covered(s, x) && Carries(s, t)
    ensures Covered(t, x)
  {
    if Promised(s, x) {
      var j :| j in s.jobs && Promising(s.jobs[j], x);
      assert Promising(t.jobs[j], x);
    }
  }

  // ----- Changes to one job ------------------------------------------------------------

  /** `t` is `s` but for job `j`, which owns no promise before or after. */
  ghost predicate PatchesJob(s: State, t: State, j: nat) {
    s.jobSeq <= t.jobSeq && t == s.(jobs := t.jobs, jobSeq := t.jobSeq) && j < t.jobSeq &&
    (forall k | k != j :: k in s.jobs <==> k in t.jobs) && (forall k | k != j && k in s.jobs :: t.jobs[k] == s.jobs[k]) &&
    (j in s.jobs && s.jobs[j].Activation? ==> !Owner(s.jobs[j].stage)) &&
    (j in s.jobs && s.jobs[j].Recovery? && s.jobs[j].phase.Restoring? ==>
      !Outstanding(s, j) || (j in t.jobs && t.jobs[j].Recovery? && t.jobs[j].phase.Restoring? && t.jobs[j].phase.gen == s.jobs[j].phase.gen))
  }

  ghost predicate NewJobOk(t: State, j: nat) {
    j in t.jobs ==> JobOk(t, j) && (t.jobs[j].Activation? ==> !Owner(t.jobs[j].stage))
  }

  lemma PatchJobWired(s: State, t: State, j: nat)
    requires Wired(s) && PatchesJob(s, t, j) && NewJobOk(t, j)
    ensures Wired(t)
  {
    forall k | k in t.jobs ensures JobOk(t, k) && OwnerOk(t, k) {
      if k != j { assert JobOk(s, k) && OwnerOk(s, k); }
    }
    forall c | c in t.pending ensures CallOk(t, c) { assert CallOk(s, c); }
    forall x | x in t.subs ensures SubOk(t, x) { assert SubOk(s, x); }
  }

  lemma PatchJobRecorded(s: State, t: State, j: nat)
    requires Recorded(s) && PatchesJob(s, t, j)
    ensures Recorded(t)
  {
    forall c | c in t.grants ensures GrantOk(t, c) { assert GrantOk(s, c); }
  }

  lemma PatchJob(s: State, t: State, j: nat)
    requires Inv(s) && PatchesJob(s, t, j) && NewJobOk(t, j)
    requires forall x :: x in s.subs && j in s.jobs && (Promising(s.jobs[j], x) || s.jobs[j].Recovery?) ==> Covered(t, x)
    ensures Inv(t)
  {
    PatchJobWired(s, t, j);
    PatchJobRecorded(s, t, j);
    forall x | x in t.subs ensures Covered(t, x) { assert Covered(s, x); }
  }

  // ----- Changes to one subscription, to timers and to flags ------------------------------

  lemma PatchSubWired(s: State, x: nat, sub: Subscription)
    requires Wired(s) && x in s.subs
    requires sub.remote == s.subs[x].remote && sub.opening == s.subs[x].opening
    requires sub.retry.Some? ==> s.active == sub.retry
    ensures Wired(s.(subs := s.subs[x := sub]))
  {
    var t := s.(subs := s.subs[x := sub]);
    forall c | c in t.pending ensures CallOk(t, c) { assert CallOk(s, c); }
    forall y | y in t.subs ensures SubOk(t, y) { assert SubOk(s, y); }
    hide JobOk, OwnerOk, CallsOk, SubsOk;
    forall j | j in t.jobs ensures JobOk(t, j) && OwnerOk(t, j) { PatchSubJob(s, x, sub, j); }
  }

  lemma PatchSubJob(s: State, x: nat, sub: Subscription, j: nat)
    requires j in s.jobs && JobOk(s, j) && OwnerOk(s, j) && x in s.subs
    requires sub.remote == s.subs[x].remote && sub.opening == s.subs[x].opening
    ensures var t := s.(subs := s.subs[x := sub]); JobOk(t, j) && OwnerOk(t, j)
  {
  }

  lemma PatchSub(s: State, x: nat, sub: Subscription)
    requires Inv(s) && x in s.subs
    requires sub.remote == s.subs[x].remote && sub.opening == s.subs[x].opening
    requires sub.retry.Some? ==> s.active == sub.retry
    requires Covered(s.(subs := s.subs[x := sub]), x)
    ensures Inv(s.(subs := s.subs[x := sub]))
  {
    var t := s.(subs := s.subs[x := sub]);
    PatchSubWired(s, x, sub);
    hide Wired;
    forall y | y in t.subs ensures Covered(t, y) { assert Covered(s, y); }
    forall c | c in t.grants ensures GrantOk(t, c) { assert GrantOk(s, c); }
  }

  lemma RemoveSub(s: State, x: nat)
    requires Inv(s)
    requires forall c :: c in s.grants && s.grants[c].fate.Held? ==> s.grants[c].sub != x
    ensures Inv(Discard(s, x))
  {
    var t := Discard(s, x);
    hide JobOk, OwnerOk, CallOk, SubOk, GrantOk, Covered;
    forall j | j in t.jobs ensures JobOk(t, j) && OwnerOk(t, j) { RemoveSubAt(s, x, j); }
    forall c | c in t.pending ensures CallOk(t, c) { RemoveSubCall(s, x, c); }
    forall y | y in t.subs ensures SubOk(t, y) && Covered(t, y) { RemoveSubOther(s, x, y); }
    forall c | c in t.grants ensures GrantOk(t, c) { RemoveSubGrant(s, x, c); }
  }

  lemma RemoveSubAt(s: State, x: nat, j: nat)
    requires j in s.jobs && JobOk(s, j) && OwnerOk(s, j)
    ensures JobOk(Discard(s, x), j) && OwnerOk(Discard(s, x), j)
  {
  }

  lemma RemoveSubCall(s: State, x: nat, c: nat)
    requires CallOk(s, c)
    ensures CallOk(Discard(s, x), c)
  {
  }

  lemma RemoveSubOther(s: State, x: nat, y: nat)
    requires y in s.subs && y != x && SubOk(s, y) && Covered(s, y)
    ensures SubOk(Discard(s, x), y) && Covered(Discard(s, x), y)
  {
  }

  lemma RemoveSubGrant(s: State, x: nat, c: nat)
    requires GrantOk(s, c) && (s.grants[c].fate.Held? ==> s.grants[c].sub != x)
    ensures GrantOk(Discard(s, x), c)
  {
  }

  /** Setting the reconnect timer, a dial, a flag or a counter never hurts. */
  lemma Arm(s: State, timer: bool, dial: bool, beating: bool, resyncs: nat)
    requires Inv(s) && (s.reconnectTimer ==> timer) && (s.connecting ==> dial) && (dial ==> s.connecting || s.active.None?)
    ensures Inv(s.(reconnectTimer := timer, connecting := dial, beating := beating, resyncs := resyncs))
  {
    var t := s.(reconnectTimer := timer, connecting := dial, beating := beating, resyncs := resyncs);
    forall j | j in t.jobs ensures JobOk(t, j) && OwnerOk(t, j) { assert JobOk(s, j) && OwnerOk(s, j); }
    forall c | c in t.pending ensures CallOk(t, c) { assert CallOk(s, c); }
    forall y | y in t.subs ensures SubOk(t, y) && Covered(t, y) { assert SubOk(s, y) && Covered(s, y); }
    forall c | c in t.grants ensures GrantOk(t, c) { assert GrantOk(s, c); }
  }

  // ----- Calls and connection loss ----------------------------------------------------------

  /** `t` is `s` with more calls on record; no subscribe or cleanup call has left the pending table. */
  ghost predicate OnlyCalls(s: State, t: State) {
    t == s.(callSeq := t.callSeq, issued := t.issued, pending := t.pending, log := t.log) &&
    (forall c :: c in s.pending && (s.pending[c].purpose.Subscribe? || s.pending[c].purpose.Cleanup?) ==>
      c in t.pending && t.pending[c] == s.pending[c]) &&
    (forall c :: c in s.issued ==> c in t.issued && t.issued[c] == s.issued[c]) && (forall c :: c in s.log ==> c in t.log)
  }

  lemma CallsChangeAt(s: State, t: State)
    requires OnlyCalls(s, t)
    ensures forall j :: j in s.jobs && JobOk(s, j) && OwnerOk(s, j) ==> JobOk(t, j) && OwnerOk(t, j)
    ensures forall y :: y in s.subs && SubOk(s, y) ==> SubOk(t, y)
    ensures forall y :: y in s.subs && Covered(s, y) ==> Covered(t, y)
    ensures forall d :: GrantOk(s, d) ==> GrantOk(t, d)
  {
  }

  lemma CallsChange(s: State, t: State)
    requires Inv(s) && OnlyCalls(s, t) && CallsOk(t) && LedgerOk(t)
    ensures Inv(t)
  {
    hide JobOk, OwnerOk, SubOk, Covered, GrantOk, CallsOk, LedgerOk;
    CallsChangeAt(s, t);
  }

  lemma EnlistKeeps(s: State, p: Pending)
    requires Inv(s) && s.active == Some(p.gen) && !p.purpose.Subscribe? && !p.purpose.Cleanup?
    ensures Inv(Enlist(s, p))
  {
    var t := Enlist(s, p);
    assert s.callSeq !in s.issued;
    forall d | d in t.pending ensures CallOk(t, d) { assert d in s.pending ==> CallOk(s, d); }
    hide JobsOk, OwnersOk, SubsOk, GrantsOk, AllCovered, CallOk;
    CallsChange(s, t);
  }

  lemma MisfireKeeps(s: State, p: Pending)
    requires Inv(s) && s.active == Some(p.gen)
    ensures Inv(Misfire(s, p))
  {
    var t := Misfire(s, p);
    assert s.callSeq !in s.issued;
    forall d | d in t.pending ensures CallOk(t, d) { assert CallOk(s, d); }
    hide JobsOk, OwnersOk, SubsOk, GrantsOk, AllCovered, CallOk;
    CallsChange(s, t);
  }

  /** Every call anyone waits for is among those the loss of the connection rejects. */
  lemma AwaitedBelow(s: State, g: nat, k: nat)
    requires Wired(s) && LedgerOk(s) && s.active == Some(g) && k in s.jobs && s.jobs[k].Activation?
    requires s.jobs[k].stage.AwaitGrant? || s.jobs[k].stage.AwaitCleanup?
    ensures Doomed(s.jobs, g, s.callSeq, k)
  {
    assert JobOk(s, k) && CallOk(s, s.jobs[k].stage.call);
  }

  /** What the loss does to a job that waits for nobody else's promise. */
  lemma DropOwnJob(s: State, g: nat, k: nat)
    requires s.active == Some(g) && g < s.generation && k in s.jobs && k in Drop(s, g).jobs && JobOk(s, k)
    requires !(s.jobs[k].Activation? && s.jobs[k].stage.Joined?)
    requires s.jobs[k].Activation? && (s.jobs[k].stage.AwaitGrant? || s.jobs[k].stage.AwaitCleanup?) ==>
      Doomed(s.jobs, g, s.callSeq, k)
    ensures JobOk(Drop(s, g), k)
  {
    hide ForgetAll, Losses, Kept;
  }

  lemma DropJoinedJob(s: State, g: nat, k: nat)
    requires s.active == Some(g) && g < s.generation && k in s.jobs && k in Drop(s, g).jobs && JobOk(s, k)
    requires s.jobs[k].Activation? && s.jobs[k].stage.Joined?
    requires var o := s.jobs[k].stage.opener;
             o in s.jobs && s.jobs[o].Activation? && (s.jobs[o].stage.Granted? || Doomed(s.jobs, g, s.callSeq, o))
    ensures JobOk(Drop(s, g), k)
  {
    hide ForgetAll, Losses, Kept;
  }

  /** The promise a job has joined is still unsettled. */
  lemma JoinedFacts(s: State, k: nat)
    requires k in s.jobs && JobOk(s, k) && s.jobs[k].Activation? && s.jobs[k].stage.Joined?
    ensures var o := s.jobs[k].stage.opener;
            o in s.jobs && s.jobs[o].Activation? &&
            (s.jobs[o].stage.Granted? || s.jobs[o].stage.AwaitGrant? || s.jobs[o].stage.AwaitCleanup?)
  {
  }

  lemma DropJob(s: State, g: nat, k: nat)
    requires Wired(s) && LedgerOk(s) && s.active == Some(g) && k in Drop(s, g).jobs
    ensures JobOk(Drop(s, g), k)
  {
    assert g < s.generation && k in s.jobs && JobOk(s, k);
    hide *;
    if s.jobs[k].Activation? && s.jobs[k].stage.Joined? {
      JoinedFacts(s, k);
      var o := s.jobs[k].stage.opener;
      if !s.jobs[o].stage.Granted? { AwaitedBelow(s, g, o); }
      DropJoinedJob(s, g, k);
    } else {
      if s.jobs[k].Activation? && (s.jobs[k].stage.AwaitGrant? || s.jobs[k].stage.AwaitCleanup?) { AwaitedBelow(s, g, k); }
      DropOwnJob(s, g, k);
    }
  }

  lemma DropJobs(s: State, g: nat)
    requires Wired(s) && LedgerOk(s) && s.active == Some(g)
    ensures JobsOk(Drop(s, g))
  {
    forall k | k in Drop(s, g).jobs ensures JobOk(Drop(s, g), k) { DropJob(s, g, k); }
  }

  lemma DropWired(s: State, g: nat)
    requires Wired(s) && LedgerOk(s) && s.active == Some(g)
    ensures Wired(Drop(s, g))
  {
    var t := Drop(s, g);
    DropJobs(s, g);
    forall c | c in s.pending ensures c !in t.pending { assert CallOk(s, c); }
    forall x | x in t.subs ensures SubOk(t, x) {
      assert SubOk(s, x);
      if s.subs[x].opening.Some? { assert JobOk(s, s.subs[x].opening.value.job); }
    }
  }

  lemma DropRecorded(s: State, g: nat)
    requires CallsOk(s) && LedgerOk(s) && s.active == Some(g)
    ensures Recorded(Drop(s, g))
  {
    forall c | c in s.pending ensures s.pending[c].gen == g && c < s.callSeq { assert CallOk(s, c); }
  }

  lemma DropKeeps(s: State, g: nat)
    requires Inv(s)
    ensures Inv(Drop(s, g))
  {
    if s.active == Some(g) {
      DropWired(s, g);
      DropRecorded(s, g);
    }
  }

  lemma SendKeeps(s: State, g: nat, purpose: Purpose, throws: bool)
    requires Inv(s)
    requires s.active == Some(g) && !throws ==> !purpose.Subscribe? && !purpose.Cleanup?
    ensures Inv(SendCall(s, g, purpose, throws).state)
  {
    var p := Pending(g, purpose);
    if s.active == Some(g) && throws {
      MisfireKeeps(s, p);
      DropKeeps(Misfire(s, p), g);
    } else if s.active == Some(g) {
      EnlistKeeps(s, p);
    }
  }

  // ----- Replies and timeouts ----------------------------------------------------------------

  lemma UnpendKeeps(s: State, c: nat, how: Outcome)
    requires Inv(s) && c in s.pending && !s.pending[c].purpose.Subscribe? && !s.pending[c].purpose.Cleanup?
    requires how.Answered? ==> how.gen == s.pending[c].gen
    ensures Inv(Unpend(s, c, how))
  {
    var t := Unpend(s, c, how);
    assert CallOk(s, c);
    forall d | d in t.pending ensures CallOk(t, d) { assert CallOk(s, d); }
    hide JobsOk, OwnersOk, SubsOk, GrantsOk, AllCovered, CallOk;
    CallsChange(s, t);
  }

  /** What `Settle` does to each job. */
  lemma SettleAt(jobs: map<nat, Job>, j: nat, why: Option<Fault>, k: nat)
    requires k in jobs
    ensures k in Settle(jobs, j, why) <==> !(why.None? && Joins(jobs[k], j))
    ensures k in Settle(jobs, j, why) && !Joins(jobs[k], j) && k != j ==> Settle(jobs, j, why)[k] == jobs[k]
  {
  }

  /** A failed subscribe rejects its owner; an unsubscribe of an unwanted grant only ends it. */
  predicate Concludes(purpose: Purpose, j: nat, why: Option<Fault>) {
    if why.Some? then purpose == Subscribe(j) else purpose.Cleanup? && purpose.job == j
  }

  /** `s` with the call removed and the promise of its owner settled. */
  lemma ConcludeJobs(s: State, c: nat, how: Outcome, j: nat, why: Option<Fault>)
    requires Wired(s) && c in s.pending
    requires Concludes(s.pending[c].purpose, j, why)
    ensures JobsOk(SettleJob(Unpend(s, c, how), j, why))
  {
    var t := SettleJob(Unpend(s, c, how), j, why);
    ConcludedOwner(s, c, j, why);
    hide JobOk, OwnerOk, CallOk, SubOk, Concludes;
    forall k | k in t.jobs ensures JobOk(t, k) {
      if k == j { ConcludeOwn(s, c, how, j, why); } else { ConcludeOther(s, c, how, j, why, k); }
    }
  }

  lemma ConcludeOwn(s: State, c: nat, how: Outcome, j: nat, why: Option<Fault>)
    requires c in s.pending && Concludes(s.pending[c].purpose, j, why) && CallOk(s, c) && s.active.value < s.generation
    requires j in s.jobs && j in SettleJob(Unpend(s, c, how), j, why).jobs && JobOk(s, j)
    ensures JobOk(SettleJob(Unpend(s, c, how), j, why), j)
  {
  }

  lemma ConcludeOther(s: State, c: nat, how: Outcome, j: nat, why: Option<Fault>, k: nat)
    requires c in s.pending && Concludes(s.pending[c].purpose, j, why) && CallOk(s, c)
    requires k != j && k in s.jobs && k in SettleJob(Unpend(s, c, how), j, why).jobs && JobOk(s, k)
    ensures JobOk(SettleJob(Unpend(s, c, how), j, why), k)
  {
  }

  lemma ConcludeWired(s: State, c: nat, how: Outcome, j: nat, why: Option<Fault>)
    requires Wired(s) && c in s.pending
    requires Concludes(s.pending[c].purpose, j, why)
    ensures Wired(SettleJob(Unpend(s, c, how), j, why))
  {
    var t := SettleJob(Unpend(s, c, how), j, why);
    ConcludeJobs(s, c, how, j, why);
    assert CallOk(s, c) && JobOk(s, j);
    forall k | k in t.jobs ensures OwnerOk(t, k) { assert OwnerOk(s, k) && OwnerOk(s, j); }
    forall d | d in t.pending ensures CallOk(t, d) { assert CallOk(s, d); }
    forall y | y in t.subs ensures SubOk(t, y) { assert SubOk(s, y); }
  }

  lemma Conclude(s: State, c: nat, how: Outcome, j: nat, why: Option<Fault>)
    requires Inv(s) && c in s.pending && (how.Answered? ==> how.gen == s.pending[c].gen)
    requires Concludes(s.pending[c].purpose, j, why)
    ensures Inv(SettleJob(Unpend(s, c, how), j, why))
  {
    ConcludeWired(s, c, how, j, why);
    ConcludeRecorded(s, c, how, j, why);
    ConcludeCovered(s, c, how, j, why);
    hide Wired, Recorded, AllCovered;
  }

  /** The owner whose promise is settled; that of a cleanup serves no subscription. */
  lemma ConcludedOwner(s: State, c: nat, j: nat, why: Option<Fault>)
    requires Wired(s) && c in s.pending && Concludes(s.pending[c].purpose, j, why)
    ensures CallOk(s, c) && j in s.jobs && JobOk(s, j) && s.jobs[j].Activation? && Owner(s.jobs[j].stage)
    ensures why.None? ==> s.jobs[j].sub !in s.subs
    ensures s.active.Some? && s.active.value < s.generation
  {
    assert CallOk(s, c) && JobOk(s, j);
  }

  lemma ConcludeCovered(s: State, c: nat, how: Outcome, j: nat, why: Option<Fault>)
    requires Wired(s) && AllCovered(s) && c in s.pending && Concludes(s.pending[c].purpose, j, why)
    ensures AllCovered(SettleJob(Unpend(s, c, how), j, why))
  {
    var t := SettleJob(Unpend(s, c, how), j, why);
    ConcludedOwner(s, c, j, why);
    hide Wired, Covered, JobOk, CallOk, Owner, Concludes;
    forall y | y in t.subs ensures Covered(t, y) { SettleCovers(s, t, j, why, y); }
  }

  lemma ConcludeRecorded(s: State, c: nat, how: Outcome, j: nat, why: Option<Fault>)
    requires Wired(s) && Recorded(s) && c in s.pending && (how.Answered? ==> how.gen == s.pending[c].gen)
    requires Concludes(s.pending[c].purpose, j, why)
    ensures Recorded(SettleJob(Unpend(s, c, how), j, why))
  {
    var t := SettleJob(Unpend(s, c, how), j, why);
    ConcludedOwner(s, c, j, why);
    assert s.issued[c] == s.pending[c];
    hide Wired, JobOk, GrantOk, CallOk, Owner, Concludes;
    forall d | d in t.grants ensures GrantOk(t, d) { ConcludeGrant(s, c, how, j, why, d); }
  }

  lemma ConcludeGrant(s: State, c: nat, how: Outcome, j: nat, why: Option<Fault>, d: nat)
    requires c in s.pending && Concludes(s.pending[c].purpose, j, why) && CallOk(s, c) && GrantOk(s, d)
    ensures GrantOk(SettleJob(Unpend(s, c, how), j, why), d)
  {
  }

  /** Settling a promise keeps every subscription covered: by the owner itself, or by what it has achieved. */
  lemma SettleCovers(s: State, t: State, j: nat, why: Option<Fault>, x: nat)
    requires t == s.(jobs := t.jobs, pending := t.pending, log := t.log) && t.jobs == Settle(s.jobs, j, why)
    requires Wired(s) && j in s.jobs && s.jobs[j].Activation? && Owner(s.jobs[j].stage) && x in s.subs && Covered(s, x)
    requires why.None? && s.jobs[j].sub == x ==> s.subs[x].remote.Some? || s.reconnectTimer
    ensures Covered(t, x)
  {
    if Promised(s, x) {
      var k :| k in s.jobs && Promising(s.jobs[k], x);
      SettleAt(s.jobs, j, why, k);
      assert JobOk(s, k);
      if k != j && !Joins(s.jobs[k], j) { assert Promising(t.jobs[k], x); }
      else { assert s.jobs[j].sub == x; if why.Some? { assert Promising(t.jobs[j], x); } }
    }
    if Restorable(s) {
      var r :| r in s.jobs && s.jobs[r].Recovery? && !s.jobs[r].phase.Restoring?;
      assert t.jobs[r] == s.jobs[r];
    }
  }
}
