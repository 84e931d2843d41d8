/** What holds in every reachable state, and over every run, of the client machine. */
module ClientTheorems {
  import opened Options
  import opened ClientModel
  import opened ClientInvariant
  import opened ClientSteps

  lemma {:induction false} RunKeeps(s: State, events: seq<Event>)
    requires Inv(s) && Legal(s, events)
    ensures Inv(Run(s, events))
    decreases events
  {
    hide Inv, Step;
    if events != [] {
      StepKeeps(s, events[0]);
      RunKeeps(Step(s, events[0]), events[1..]);
    }
  }

  ghost predicate Reachable(s: State) {
    exists events :: Legal(Init, events) && s == Run(Init, events)
  }

  lemma ReachableInv(s: State)
    requires Reachable(s)
    ensures Inv(s)
  {
    InitInv();
    var events :| Legal(Init, events) && s == Run(Init, events);
    RunKeeps(Init, events);
  }

  // ----- Self-healing ------------------------------------------------------------------

  ghost predicate Activating(s: State, x: nat) {
    exists j :: j in s.jobs && s.jobs[j].Activation? && s.jobs[j].sub == x
  }

  ghost predicate Recovering(s: State) {
    exists r :: r in s.jobs && s.jobs[r].Recovery?
  }

  /** In the table, without a stream, and nothing left that would ever ask for one. */
  ghost predicate Stranded(s: State, x: nat) {
    x in s.subs && !Live(s, x) && s.subs[x].retry.None? && !s.reconnectTimer && !Recovering(s) && !Activating(s, x)
  }

  /** The stream id that came back for the subscription is empty or missing. */
  predicate Hollow(s: State, x: nat) {
    x in s.subs && s.subs[x].remote.Some? && s.subs[x].remote.value.stream == ""
  }

  /** Only an empty stream id strands: while no subscribe request has been answered with one, every subscription is live
      or something that will open it is under way. */
  lemma SelfHealing(s: State, x: nat)
    requires Reachable(s) && Stranded(s, x)
    ensures s.blank && Hollow(s, x)
  {
    ReachableInv(s);
    assert SubOk(s, x) && Covered(s, x);
  }

  /** A subscription that waits never waits for the user or for the server's goodwill: a timer, a dial or a microtask is due. */
  lemma NeverStuck(s: State, x: nat)
    requires Reachable(s) && x in s.subs && s.subs[x].remote.None?
    ensures exists e :: Enabled(s, e) && (e.Microtask? || e.ReconnectTimer? || e.RetryTimer? || e.CallTimer? || e.DialError?)
  {
    ReachableInv(s);
    if !Quiet(s) {
      var j :| Ready(s, j);
      assert Enabled(s, Microtask(j, false));
    } else if s.reconnectTimer { assert Enabled(s, ReconnectTimer); }
    else if s.subs[x].retry.Some? { assert Enabled(s, RetryTimer(x)); }
    else {
      assert Covered(s, x);
      if Restorable(s) {
        var r :| r in s.jobs && s.jobs[r].Recovery? && !s.jobs[r].phase.Restoring?;
        assert JobOk(s, r) && !Ready(s, r);
        assert Enabled(s, DialError);
      } else {
        var j :| j in s.jobs && Promising(s.jobs[j], x);
        WaitsForTimer(s, j);
      }
    }
  }

  lemma WaitsForTimer(s: State, j: nat)
    requires Inv(s) && Quiet(s) && j in s.jobs && s.jobs[j].Activation?
    ensures exists e :: Enabled(s, e) && (e.CallTimer? || e.DialError?)
  {
    assert JobOk(s, j) && !Ready(s, j);
    match s.jobs[j].stage
    case AwaitConn => assert Enabled(s, DialError);
    case AwaitGrant(_, c) => assert Enabled(s, CallTimer(c));
    case AwaitCleanup(_, c) => assert Enabled(s, CallTimer(c));
    case Joined(_, o) => assert JobOk(s, o) && !Ready(s, o); assert Enabled(s, CallTimer(s.jobs[o].stage.call));
  }

  /** Nothing is due any more: no timer, no dial, no call and no microtask. */
  ghost predicate AtRest(s: State) {
    Quiet(s) && s.pending == map[] && !s.connecting && !s.reconnectTimer && forall x :: x in s.subs ==> s.subs[x].retry.None?
  }

  /** When everything has come to rest, every subscription is live, unless the server has granted it an empty stream id. */
  lemma AllLiveAtRest(s: State)
    requires Reachable(s) && AtRest(s)
    ensures forall x :: x in s.subs ==> Live(s, x) || Hollow(s, x)
    ensures !s.blank ==> forall x :: x in s.subs ==> Live(s, x)
  {
    ReachableInv(s);
    forall x | x in s.subs ensures Live(s, x) || (Hollow(s, x) && s.blank) { LiveAtRest(s, x); }
  }

  lemma RecoveryMoves(s: State, r: nat)
    requires JobsOk(s) && r in s.jobs && s.jobs[r].Recovery? && !s.jobs[r].phase.Restoring?
    ensures s.connecting || Ready(s, r)
  {
    assert JobOk(s, r);
  }

  lemma ActivationMoves(s: State, j: nat)
    requires JobsOk(s) && j in s.jobs && s.jobs[j].Activation?
    ensures s.connecting || Ready(s, j) || (s.jobs[j].stage.Joined? && Ready(s, s.jobs[j].stage.opener)) || exists c :: c in s.pending
  {
    assert JobOk(s, j);
    if s.jobs[j].stage.Joined? { assert JobOk(s, s.jobs[j].stage.opener); }
  }

  lemma LiveAtRest(s: State, x: nat)
    requires Inv(s) && AtRest(s) && x in s.subs
    ensures Live(s, x) || (Hollow(s, x) && s.blank)
  {
    assert SubOk(s, x) && Covered(s, x);
    forall r | r in s.jobs && s.jobs[r].Recovery? && !s.jobs[r].phase.Restoring? ensures Ready(s, r) { RecoveryMoves(s, r); }
    forall j | j in s.jobs && s.jobs[j].Activation? ensures Ready(s, j) || Ready(s, s.jobs[j].stage.opener) { ActivationMoves(s, j); }
    hide Inv, Ready;
  }

  /** All calls and all streams are those of connection `g`. */
  ghost predicate AllOf(s: State, g: nat) {
    (forall d :: d in s.pending ==> s.pending[d].gen == g && d < s.callSeq) &&
    forall x :: x in s.subs && s.subs[x].remote.Some? ==> s.subs[x].remote.value.gen == g
  }

  /** Nothing is connected any more, no call waits, no stream is held, and a reconnect is due. */
  ghost predicate GivenUp(s: State) {
    s.active.None? && s.reconnectTimer && s.pending == map[] && forall x :: x in s.subs ==> s.subs[x].remote.None?
  }

  lemma ActiveOwnsAll(s: State, g: nat)
    requires Inv(s) && s.active == Some(g)
    ensures AllOf(s, g)
  {
    forall d | d in s.pending ensures s.pending[d].gen == g && d < s.callSeq { assert CallOk(s, d); }
    forall x | x in s.subs && s.subs[x].remote.Some? ensures s.subs[x].remote.value.gen == g { assert SubOk(s, x); }
  }

  lemma DropEmpties(s: State, g: nat)
    requires s.active == Some(g) && AllOf(s, g)
    ensures GivenUp(Drop(s, g))
  {
    hide BereaveAll, Losses;
  }

  lemma BeatSpawned(s: State, c: nat)
    requires c in s.pending && s.pending[c].purpose.Heartbeat?
    ensures var t := Step(s, CallTimer(c));
            t == Spawn(Unpend(s, c, Expired), Beat(s.pending[c].gen)) && Ready(t, s.jobSeq) &&
            Step(t, Microtask(s.jobSeq, false)) == Drop(Finish(t, s.jobSeq), s.pending[c].gen)
  {
    hide Drop;
  }

  /** A connection that lets a heartbeat go unanswered is given up: its calls fail, its streams are forgotten, a reconnect is due. */
  lemma SilenceDetected(s: State, c: nat)
    requires Reachable(s) && c in s.pending && s.pending[c].purpose.Heartbeat?
    ensures Ready(Step(s, CallTimer(c)), s.jobSeq)
    ensures GivenUp(Step(Step(s, CallTimer(c)), Microtask(s.jobSeq, false)))
  {
    ReachableInv(s);
    assert CallOk(s, c);
    var g := s.pending[c].gen;
    ActiveOwnsAll(s, g);
    BeatSpawned(s, c);
    hide Inv, Drop, Step, Ready, GivenUp;
    DropEmpties(Finish(Step(s, CallTimer(c)), s.jobSeq), g);
  }

  /** A stream id is on its way to the only activation of `x`, and nothing else would open `x` again. */
  ghost predicate LoneGrant(s: State, j: nat, x: nat, g: nat, c: nat, stream: string) {
    x in s.subs && s.active == Some(g) && j in s.jobs && Alone(s, j, x) &&
    s.jobs[j] == Activation(x, FromStream, Granted(g, c, Some(stream))) &&
    !s.reconnectTimer && s.subs[x].retry.None? && !Recovering(s)
  }

  lemma GrantHeld(s: State, j: nat, x: nat, g: nat, c: nat, stream: string)
    requires LoneGrant(s, j, x, g, c, stream)
    ensures var t := Step(s, Microtask(j, false));
            x in t.subs && t.active == Some(g) && j in t.jobs && t.jobs[j] == Activation(x, FromStream, Settled(g, None)) &&
            !t.reconnectTimer && t.subs[x].retry.None? && t.subs[x].remote == Some(Remote(g, stream, c)) && Alone(t, j, x) && !Recovering(t)
  {
    var t := SettleJob(Hold(s, x, g, c, stream), j, None);
    assert Step(s, Microtask(j, false)) == t;
  }

  /** A grant that nothing would repeat leaves its subscription stranded, two microtasks later, exactly when its stream id is empty. */
  lemma StrandsExactly(s: State, j: nat, x: nat, g: nat, c: nat, stream: string)
    requires LoneGrant(s, j, x, g, c, stream)
    ensures Ready(s, j) && Ready(Step(s, Microtask(j, false)), j)
    ensures Stranded(Step(Step(s, Microtask(j, false)), Microtask(j, false)), x) <==> stream == ""
  {
    GrantHeld(s, j, x, g, c, stream);
    var t := Step(s, Microtask(j, false));
    hide LoneGrant;
    assert Step(t, Microtask(j, false)) == Disown(t, j, x, FromStream, None);
  }

  function StarvedRun(): State {
    Step(Step(Step(Step(Init, UserStream), Opened), Microtask(0, false)), Frame(0, 0, Result("")))
  }

  /** A run that meets that family: a stream is asked for, the socket opens, and the server grants the empty id. */
  lemma StrandedRun()
    ensures Legal(Init, [UserStream, Opened, Microtask(0, false), Frame(0, 0, Result(""))])
    ensures Run(Init, [UserStream, Opened, Microtask(0, false), Frame(0, 0, Result(""))]) == StarvedRun()
    ensures LoneGrant(StarvedRun(), 0, 0, 0, 0, "")
  {
    FirstStream();
    var s2 := Step(Step(Init, UserStream), Opened);
    var s3 := Step(s2, Microtask(0, false));
    assert s3.jobs == map[0 := Activation(0, FromStream, AwaitGrant(0, 0))];
    assert s3.pending == map[0 := Pending(0, Subscribe(0))] && s3.active == Some(0) && !s3.reconnectTimer;
  }

  lemma FirstStream()
    ensures var s := Step(Step(Init, UserStream), Opened);
            s.jobs == map[0 := Activation(0, FromStream, Begin(0))] && s.subs == map[0 := Fresh] && s.active == Some(0) &&
            Enabled(Step(Init, UserStream), Opened)
  {
    var s1 := Step(Init, UserStream);
    assert s1.jobs == map[0 := Activation(0, FromStream, AwaitConn)] && s1.subs == map[0 := Fresh] && s1.connecting;
  }

  // ----- Stream ownership -----------------------------------------------------------------

  /** A remote stream belongs to the active connection, and a live one is a grant that its subscription holds. */
  predicate RemoteOwned(s: State, x: nat)
    requires x in s.subs && s.subs[x].remote.Some?
  {
    var remote := s.subs[x].remote.value;
    s.active == Some(remote.gen) &&
    (Live(s, x) ==> remote.call in s.grants && s.grants[remote.call] == Grant(x, remote.stream, Held))
  }

  predicate Holds(s: State, x: nat, c: nat) {
    Live(s, x) && s.subs[x].remote.value.call == c
  }

  /** An accepted grant is the stream of exactly one subscription, or has been answered by an unsubscribe, or its continuation is runnable. */
  ghost predicate GrantAccounted(s: State, c: nat)
    requires c in s.grants && s.active.Some?
  {
    match s.grants[c].fate
    case Held => forall x :: Holds(s, x, c) <==> x == s.grants[c].sub
    case Released(u) => u in s.issued && IsUnsubscribe(s.issued[u], s.active.value, s.grants[c].stream)
    case Arrived(j) => Ready(s, j)
  }

  lemma StreamOwnership(s: State)
    requires Reachable(s)
    ensures forall x :: x in s.subs && s.subs[x].remote.Some? ==> RemoteOwned(s, x)
    ensures forall c :: c in s.grants ==> s.active.Some? && GrantAccounted(s, c)
  {
    ReachableInv(s);
    forall x | x in s.subs ensures SubOk(s, x) {}
    forall c | c in s.grants ensures GrantOk(s, c) {}
  }

  /** At most one subscribe request per subscription is in flight, and all of them belong to the active connection. */
  lemma OneRequest(s: State, c: nat, d: nat)
    requires Reachable(s) && c in s.pending && d in s.pending && s.pending[c].purpose.Subscribe? && s.pending[d].purpose.Subscribe?
    ensures s.pending[c].purpose.job in s.jobs && s.jobs[s.pending[c].purpose.job].Activation?
    ensures s.pending[d].purpose.job in s.jobs && s.jobs[s.pending[d].purpose.job].Activation?
    ensures s.jobs[s.pending[c].purpose.job].sub == s.jobs[s.pending[d].purpose.job].sub ==> c == d
    ensures s.active == Some(s.pending[c].gen)
  {
    ReachableInv(s);
    assert CallOk(s, c) && CallOk(s, d);
    assert OwnerOk(s, s.pending[c].purpose.job) && OwnerOk(s, s.pending[d].purpose.job);
  }

  /** A nonempty stream id that answers a subscribe request of the active connection is entered as a grant. */
  lemma GrantRecorded(s: State, c: nat, stream: string)
    requires Reachable(s) && c in s.pending && s.pending[c].purpose.Subscribe? && stream != ""
    ensures var t := Step(s, Frame(s.pending[c].gen, c, Result(stream)));
            var j := s.pending[c].purpose.job;
            j in s.jobs && s.jobs[j].Activation? && c in t.grants && t.grants[c] == Grant(s.jobs[j].sub, stream, Arrived(j))
  {
    ReachableInv(s);
    assert CallOk(s, c);
  }

  // ----- Call conservation ----------------------------------------------------------------

  lemma CallConservation(s: State)
    requires Reachable(s)
    ensures forall c: nat :: c < s.callSeq <==> c in s.issued
    ensures forall c :: c in s.issued ==> (c in s.pending <==> c !in s.log)
    ensures forall c :: c in s.pending ==> c in s.issued && s.issued[c] == s.pending[c] && s.active == Some(s.pending[c].gen)
    ensures forall c :: c in s.log ==> c in s.issued && (s.log[c].Answered? ==> s.log[c].gen == s.issued[c].gen)
  {
    ReachableInv(s);
    forall c | c in s.pending ensures CallOk(s, c) {}
  }

  /** Why call `c` left the pending table in a step from `s` to `t`. */
  predicate Accounted(s: State, e: Event, t: State, c: nat)
    requires c in s.pending
  {
    c in t.log &&
    match t.log[c]
    case Answered(g) => e.Frame? && e.call == c && e.gen == s.pending[c].gen == g
    case Expired => e == CallTimer(c)
    case Lost => t.active.None?
    case Unsent => false
  }

  ghost predicate Advances(s: State, e: Event, t: State) {
    s.callSeq <= t.callSeq <= s.callSeq + 1 &&
    (forall c :: c in s.issued ==> c in t.issued && t.issued[c] == s.issued[c]) &&
    (forall c :: c in s.log ==> c in t.log && t.log[c] == s.log[c]) &&
    (forall c :: c in s.pending && c !in t.pending ==> Accounted(s, e, t, c)) &&
    (forall c :: c in t.pending && c !in s.pending ==> c == s.callSeq)
  }

  ghost predicate SameCalls(s: State, t: State) {
    t.callSeq == s.callSeq && t.issued == s.issued && t.pending == s.pending && t.log == s.log && t.active == s.active
  }

  lemma Transfer(s: State, e: Event, t: State, u: State)
    requires Advances(s, e, t) && SameCalls(t, u)
    ensures Advances(s, e, u)
  {
  }

  lemma LossesLogged(log: map<nat, Outcome>, pending: map<nat, Pending>, g: nat, limit: nat)
    requires forall c :: c in pending ==> c !in log
    ensures forall c :: c in log ==> c in (log + Losses(pending, g, limit)) && (log + Losses(pending, g, limit))[c] == log[c]
    ensures forall c :: c in pending && c !in Kept(pending, g, limit) ==>
              c in (log + Losses(pending, g, limit)) && (log + Losses(pending, g, limit))[c] == Lost
  {
  }

  lemma UnloggedPending(s: State)
    requires LedgerOk(s)
    ensures forall c :: c in s.pending ==> c !in s.log
  {
  }

  lemma DropAdvances(s: State, e: Event, g: nat)
    requires LedgerOk(s)
    ensures Advances(s, e, Drop(s, g))
  {
    SameStill(s, e);
    UnloggedPending(s);
    LossesLogged(s.log, s.pending, g, s.callSeq);
    hide LedgerOk, SameCalls, BereaveAll, ForgetAll, Losses;
  }

  lemma MisfireAdvances(s: State, e: Event, u: State, p: Pending)
    requires LedgerOk(s) && SameCalls(s, u)
    ensures LedgerOk(Misfire(u, p)) && Advances(s, e, Misfire(u, p)) && Misfire(u, p).pending == s.pending
  {
  }

  lemma Compose(s: State, e: Event, t: State, u: State)
    requires Advances(s, e, t) && t.pending == s.pending && Advances(t, e, u) && u.callSeq == t.callSeq && LedgerOk(t)
    requires forall c :: c in u.pending ==> c in t.pending
    ensures Advances(s, e, u)
  {
  }

  lemma DropFields(s: State, g: nat)
    ensures Drop(s, g).callSeq == s.callSeq && forall c :: c in Drop(s, g).pending ==> c in s.pending
  {
  }

  lemma LossAdvances(s: State, e: Event, u: State, p: Pending)
    requires LedgerOk(s) && s.active == Some(p.gen) && SameCalls(s, u)
    ensures Advances(s, e, Drop(Misfire(u, p), p.gen))
  {
    hide *;
    MisfireAdvances(s, e, u, p);
    DropAdvances(Misfire(u, p), e, p.gen);
    DropFields(Misfire(u, p), p.gen);
    Compose(s, e, Misfire(u, p), Drop(Misfire(u, p), p.gen));
  }

  lemma EnlistAdvances(s: State, e: Event, u: State, p: Pending)
    requires LedgerOk(s) && SameCalls(Enlist(s, p), u)
    ensures Advances(s, e, u)
  {
  }

  lemma Still(s: State, e: Event, t: State)
    requires LedgerOk(s) && SameCalls(s, t)
    ensures Advances(s, e, t)
  {
  }

  lemma SendAdvances(s: State, e: Event, u: State, g: nat, purpose: Purpose, throws: bool)
    requires LedgerOk(s) && SameCalls(s, u)
    ensures Advances(s, e, SendCall(u, g, purpose, throws).state)
  {
    var p := Pending(g, purpose);
    if s.active != Some(g) { Still(s, e, u); }
    else if throws { LossAdvances(s, e, u, p); }
    else { EnlistAdvances(s, e, Enlist(u, p), p); }
  }

  lemma BeginAdvances(s: State, e: Event, j: nat, x: nat, origin: Origin, g: nat, throws: bool)
    requires LedgerOk(s)
    ensures Advances(s, e, BeginActivation(s, j, x, origin, g, throws))
  {
    hide Advances, SameCalls, LedgerOk;
    if x !in s.subs || LiveOn(s.subs[x], g) { FinishStill(s, e, j); }
    else if OpeningOn(s.subs[x], g) {
      FinishStill(s, e, j);
      forall job: Job ensures Advances(s, e, SetJob(s, j, job)) { SetStill(s, e, j, job); }
    }
    else { OwnAdvances(s, e, j, x, origin, g); }
  }

  lemma FinishStill(s: State, e: Event, j: nat)
    requires LedgerOk(s)
    ensures Advances(s, e, Finish(s, j))
  {
    Still(s, e, Finish(s, j));
  }

  lemma SetStill(s: State, e: Event, j: nat, job: Job)
    requires LedgerOk(s)
    ensures Advances(s, e, SetJob(s, j, job))
  {
    Still(s, e, SetJob(s, j, job));
  }

  lemma OwnAdvances(s: State, e: Event, j: nat, x: nat, origin: Origin, g: nat)
    requires LedgerOk(s) && x in s.subs
    ensures var t := ClearRetry(s, x); var p := Pending(g, Subscribe(j));
            Advances(s, e, OwnFailure(t, j, x, origin, g, ConnectionLost)) && Advances(s, e, Own(t, j, x, origin, g)) &&
            (s.active == Some(g) ==> Advances(s, e, OwnFailure(Drop(Misfire(t, p), g), j, x, origin, g, SendFailed)))
  {
    var t := ClearRetry(s, x);
    var p := Pending(g, Subscribe(j));
    Still(s, e, OwnFailure(t, j, x, origin, g, ConnectionLost));
    EnlistAdvances(s, e, Own(t, j, x, origin, g), p);
    if s.active == Some(g) {
      LossAdvances(s, e, t, p);
      Transfer(s, e, Drop(Misfire(t, p), g), OwnFailure(Drop(Misfire(t, p), g), j, x, origin, g, SendFailed));
    }
  }

  lemma AcceptAdvances(s: State, e: Event, j: nat, x: nat, g: nat, c: nat, result: Option<string>, throws: bool)
    requires LedgerOk(s) && j in s.jobs && s.jobs[j].Activation?
    ensures Advances(s, e, AcceptGrant(s, j, x, g, c, result, throws))
  {
    hide Advances, SameCalls, LedgerOk;
    if s.active != Some(g) || result.None? { SettleStill(s, e, s, j, None); SettleStill(s, e, s, j, Some(Malformed)); }
    else if x in s.subs { HoldStill(s, e, j, x, g, c, result.value); }
    else { ReturnAdvances(s, e, j, g, c, result.value); }
  }

  lemma SettleStill(s: State, e: Event, t: State, j: nat, why: Option<Fault>)
    requires LedgerOk(s) && SameCalls(s, t)
    ensures Advances(s, e, SettleJob(t, j, why))
  {
    Still(s, e, SettleJob(t, j, why));
  }

  lemma HoldStill(s: State, e: Event, j: nat, x: nat, g: nat, c: nat, stream: string)
    requires LedgerOk(s) && x in s.subs
    ensures Advances(s, e, SettleJob(Hold(s, x, g, c, stream), j, None))
  {
    SettleStill(s, e, Hold(s, x, g, c, stream), j, None);
  }

  lemma ReturnAdvances(s: State, e: Event, j: nat, g: nat, c: nat, stream: string)
    requires LedgerOk(s) && j in s.jobs && s.jobs[j].Activation? && s.active == Some(g)
    ensures Advances(s, e, Return(s, j, g, c, stream))
    ensures Advances(s, e, SettleJob(Drop(Misfire(s, Pending(g, Cleanup(j, stream))), g), j, None))
  {
    var p := Pending(g, Cleanup(j, stream));
    EnlistAdvances(s, e, Return(s, j, g, c, stream), p);
    LossAdvances(s, e, s, p);
    Transfer(s, e, Drop(Misfire(s, p), g), SettleJob(Drop(Misfire(s, p), g), j, None));
  }

  lemma CloseAdvances(s: State, e: Event, x: nat, throws: bool)
    requires LedgerOk(s)
    ensures Advances(s, e, CloseStream(s, x, throws))
  {
    hide Advances, SameCalls, LedgerOk;
    if x !in s.subs { SameStill(s, e); }
    else if s.active.None? || !LiveOn(s.subs[x], s.active.value) { DiscardStill(s, e, x); }
    else { HandOverAdvances(s, e, x, s.active.value, s.subs[x].remote.value.stream); }
  }

  lemma SameStill(s: State, e: Event)
    requires LedgerOk(s)
    ensures Advances(s, e, s)
  {
  }

  lemma DiscardStill(s: State, e: Event, x: nat)
    requires LedgerOk(s)
    ensures Advances(s, e, Discard(s, x))
  {
    Still(s, e, Discard(s, x));
  }

  lemma HandOverAdvances(s: State, e: Event, x: nat, g: nat, stream: string)
    requires LedgerOk(s) && s.active == Some(g)
    ensures Advances(s, e, HandOver(s, x, g, stream))
    ensures Advances(s, e, Discard(Drop(Misfire(s, Pending(g, Release(stream))), g), x))
  {
    var p := Pending(g, Release(stream));
    EnlistAdvances(s, e, HandOver(s, x, g, stream), p);
    LossAdvances(s, e, s, p);
    Transfer(s, e, Drop(Misfire(s, p), g), Discard(Drop(Misfire(s, p), g), x));
  }

  lemma EndAdvances(s: State, e: Event, j: nat, x: nat, origin: Origin, why: Option<Fault>)
    requires LedgerOk(s)
    ensures Advances(s, e, CloseOpening(s, j, x, origin, why))
  {
    hide Advances, SameCalls, LedgerOk, Disown;
    DisownStill(s, e, s, j, x, origin, why);
    DiscardedStill(s, e, j, x, origin, why);
  }

  lemma DisownStill(s: State, e: Event, t: State, j: nat, x: nat, origin: Origin, why: Option<Fault>)
    requires LedgerOk(s) && SameCalls(s, t)
    ensures Advances(s, e, Disown(t, j, x, origin, why))
  {
    Still(s, e, Disown(t, j, x, origin, why));
  }

  lemma DiscardedStill(s: State, e: Event, j: nat, x: nat, origin: Origin, why: Option<Fault>)
    requires LedgerOk(s)
    ensures Advances(s, e, Disown(Discard(s, x), j, x, origin, why))
  {
    DisownStill(s, e, Discard(s, x), j, x, origin, why);
  }

  lemma RecoilAdvances(s: State, e: Event, j: nat, x: nat, origin: Origin, why: Fault)
    requires LedgerOk(s)
    ensures Advances(s, e, Recoil(s, j, x, origin, why))
  {
    hide Advances, SameCalls, LedgerOk, ScheduleRetry;
    FinishStill(s, e, j);
    ArmedStill(s, e, j);
    forall g: nat ensures Advances(s, e, Finish(ScheduleRetry(s, x, g), j)) { RetriedStill(s, e, j, x, g); }
    forall r: nat, job: Job ensures Advances(s, e, SetJob(Finish(s, j), r, job)) { FinishedStill(s, e, j, r, job); }
  }

  lemma ArmedStill(s: State, e: Event, j: nat)
    requires LedgerOk(s)
    ensures Advances(s, e, Finish(ArmReconnect(s), j))
  {
    Still(s, e, Finish(ArmReconnect(s), j));
  }

  lemma RetriedStill(s: State, e: Event, j: nat, x: nat, g: nat)
    requires LedgerOk(s)
    ensures Advances(s, e, Finish(ScheduleRetry(s, x, g), j))
  {
    if WantsRetry(s, x, g) { Still(s, e, Finish(ScheduleRetry(s, x, g), j)); } else { FinishStill(s, e, j); }
  }

  lemma FinishedStill(s: State, e: Event, j: nat, r: nat, job: Job)
    requires LedgerOk(s)
    ensures Advances(s, e, SetJob(Finish(s, j), r, job))
  {
    Still(s, e, SetJob(Finish(s, j), r, job));
  }

  lemma RestoreStill(s: State, e: Event, r: nat, g: nat)
    requires LedgerOk(s)
    ensures Advances(s, e, Restore(s, r, g))
  {
    Still(s, e, Restore(s, r, g));
  }

  lemma ResyncStill(s: State, e: Event, r: nat)
    requires LedgerOk(s)
    ensures Advances(s, e, Finish(s, r).(resyncs := s.resyncs + 1))
  {
    Still(s, e, Finish(s, r).(resyncs := s.resyncs + 1));
  }

  lemma RecoveryAdvances(s: State, e: Event, r: nat, phase: Phase)
    requires LedgerOk(s)
    ensures Advances(s, e, ContinueRecovery(s, r, phase))
  {
    hide Advances, SameCalls, LedgerOk, Restore, Finish, ArmReconnect;
    SameStill(s, e);
    ArmedStill(s, e, r);
    ResyncStill(s, e, r);
    forall g: nat ensures Advances(s, e, Restore(s, r, g)) { RestoreStill(s, e, r, g); }
  }

  lemma FinishSame(s: State, j: nat)
    ensures SameCalls(s, Finish(s, j))
  {
  }

  lemma DropSame(s: State, t: State, g: nat)
    requires SameCalls(s, t)
    ensures SameCalls(Drop(s, g), Drop(t, g))
  {
    hide BereaveAll, ForgetAll;
  }

  lemma FinishAdvances(s: State, e: Event, j: nat, g: nat, throws: bool)
    requires LedgerOk(s)
    ensures Advances(s, e, SendCall(Finish(s, j), g, Request, throws).state)
    ensures Advances(s, e, Drop(Finish(s, j), g))
  {
    hide *;
    FinishSame(s, j);
    SendAdvances(s, e, Finish(s, j), g, Request, throws);
    DropAdvances(s, e, g);
    DropSame(s, Finish(s, j), g);
    Transfer(s, e, Drop(s, g), Drop(Finish(s, j), g));
  }

  lemma MicrotaskAdvances(s: State, j: nat, throws: bool)
    requires LedgerOk(s)
    ensures Advances(s, Microtask(j, throws), RunMicrotask(s, j, throws))
  {
    hide Advances, SameCalls, LedgerOk, Drop, SendCall, ContinueRecovery, Recoil, CloseOpening, AcceptGrant, BeginActivation;
    var e := Microtask(j, throws);
    SameStill(s, e);
    if j in s.jobs {
      match s.jobs[j]
      case Activation(x, origin, Begin(g)) => BeginAdvances(s, e, j, x, origin, g, throws);
      case Activation(x, origin, Granted(g, c, result)) => AcceptAdvances(s, e, j, x, g, c, result, throws);
      case Activation(x, origin, Settled(g, why)) => EndAdvances(s, e, j, x, origin, why);
      case Activation(x, origin, Rejected(why)) => RecoilAdvances(s, e, j, x, origin, why);
      case Rpc(Some(g)) => FinishAdvances(s, e, j, g, throws);
      case Recovery(phase) => RecoveryAdvances(s, e, j, phase);
      case Beat(g) => FinishAdvances(s, e, j, g, throws);
      case _ =>
    }
  }

  lemma UnpendAdvances(s: State, e: Event, c: nat, how: Outcome, t: State)
    requires LedgerOk(s) && c in s.pending && SameCalls(Unpend(s, c, how), t)
    requires if how.Answered? then e.Frame? && e.call == c && e.gen == s.pending[c].gen == how.gen else how == Expired && e == CallTimer(c)
    ensures Advances(s, e, t)
  {
  }

  lemma SettleSame(s: State, j: nat, why: Option<Fault>)
    ensures SameCalls(s, SettleJob(s, j, why))
  {
  }

  lemma SpawnSame(s: State, job: Job)
    ensures SameCalls(s, Spawn(s, job))
  {
  }

  lemma SelfSame(s: State)
    ensures SameCalls(s, s)
  {
  }

  lemma RejectSame(s: State, p: Pending, why: Fault)
    ensures SameCalls(s, Reject(s, p, why))
  {
    hide SameCalls, SettleJob, Spawn;
    match p.purpose
    case Subscribe(j) => SettleSame(s, j, Some(why));
    case Cleanup(j, _) => SettleSame(s, j, None);
    case Heartbeat => SpawnSame(s, Beat(p.gen));
    case _ => SelfSame(s);
  }

  lemma GrantedSame(s: State, c: nat, j: nat, p: Pending, reply: Reply)
    requires !reply.Error? && p.purpose == Subscribe(j)
    ensures SameCalls(s, Resolve(s, c, p, reply))
  {
    if j !in s.jobs || !s.jobs[j].Activation? { SelfSame(s); }
  }

  lemma BeatSame(s: State)
    ensures SameCalls(s, s.(beating := false))
  {
  }

  lemma ResolveSame(s: State, c: nat, p: Pending, reply: Reply)
    requires !reply.Error?
    ensures SameCalls(s, Resolve(s, c, p, reply))
  {
    hide SameCalls, SettleJob;
    match p.purpose
    case Subscribe(j) => GrantedSame(s, c, j, p, reply);
    case Cleanup(j, _) => SettleSame(s, j, None);
    case Heartbeat => BeatSame(s);
    case _ => SelfSame(s);
  }

  lemma ReplyAdvances(s: State, g: nat, c: nat, reply: Reply)
    requires LedgerOk(s)
    ensures Advances(s, Frame(g, c, reply), Deliver(s, g, c, reply))
  {
    hide Advances, SameCalls, LedgerOk, Resolve, Reject;
    var e := Frame(g, c, reply);
    if s.active != Some(g) || c !in s.pending || s.pending[c].gen != g { SameStill(s, e); }
    else {
      var t := Unpend(s, c, Answered(g));
      if reply.Error? { RejectSame(t, s.pending[c], Refused(reply.code)); } else { ResolveSame(t, c, s.pending[c], reply); }
      UnpendAdvances(s, e, c, Answered(g), Deliver(s, g, c, reply));
    }
  }

  lemma ExpireAdvances(s: State, c: nat)
    requires LedgerOk(s)
    ensures Advances(s, CallTimer(c), Expire(s, c))
  {
    hide Advances, SameCalls, LedgerOk, Reject;
    if c !in s.pending { SameStill(s, CallTimer(c)); }
    else {
      RejectSame(Unpend(s, c, Expired), s.pending[c], TimedOut);
      UnpendAdvances(s, CallTimer(c), c, Expired, Expire(s, c));
    }
  }

  lemma TickAdvances(s: State, e: Event, g: nat, throws: bool)
    requires LedgerOk(s)
    ensures Advances(s, e, HeartbeatTick(s, g, throws))
  {
    if s.active != Some(g) || s.beating { SameStill(s, e); }
    else if throws { LossAdvances(s, e, s, Pending(g, Heartbeat)); }
    else { EnlistAdvances(s, e, Enlist(s, Pending(g, Heartbeat)).(beating := true), Pending(g, Heartbeat)); }
  }

  /** A step that opens or fails a dial never meets a pending call. */
  lemma DialAdvances(s: State, e: Event)
    requires Inv(s) && s.connecting
    ensures Advances(s, e, SocketOpened(s)) && Advances(s, e, DialFails(s))
  {
    forall c ensures c !in s.pending { assert c in s.pending ==> CallOk(s, c); }
  }

  lemma OpenAdvances(s: State, e: Event)
    requires LedgerOk(s)
    ensures Advances(s, e, OpenStream(s)) && Advances(s, e, EnsureConn(s, Rpc(None))) && Advances(s, e, ReconnectFires(s))
  {
    Still(s, e, OpenStream(s));
    Still(s, e, EnsureConn(s, Rpc(None)));
    Still(s, e, ReconnectFires(s));
  }

  lemma ClearStill(s: State, e: Event, t: State, x: nat)
    requires LedgerOk(s) && SameCalls(s, t) && x in t.subs
    ensures Advances(s, e, ClearRetry(t, x))
  {
    Still(s, e, ClearRetry(t, x));
  }

  lemma RetryAdvances(s: State, e: Event, x: nat)
    requires LedgerOk(s)
    ensures Advances(s, e, RetryFires(s, x))
  {
    hide Advances, LedgerOk, ClearRetry;
    SameStill(s, e);
    if x in s.subs && s.subs[x].retry.Some? {
      var g := s.subs[x].retry.value;
      SelfSame(s);
      ClearStill(s, e, s, x);
      SpawnSame(s, Activation(x, FromRetry(g), Begin(g)));
      ClearStill(s, e, Spawn(s, Activation(x, FromRetry(g), Begin(g))), x);
    }
  }

  /** Each call settles once, for a reason that is on record, and leaves the table at that moment. */
  lemma StepAdvances(s: State, e: Event)
    requires Reachable(s) && Enabled(s, e)
    ensures Advances(s, e, Step(s, e))
  {
    ReachableInv(s);
    hide *;
    LedgerHolds(s);
    LeafAdvances(s, e);
  }

  lemma LedgerHolds(s: State)
    requires Inv(s)
    ensures LedgerOk(s)
  {
  }

  lemma LeafAdvances(s: State, e: Event)
    requires Inv(s) && LedgerOk(s) && Enabled(s, e)
    ensures Advances(s, e, Step(s, e))
  {
    hide Inv, Advances, SameCalls, LedgerOk, Drop, CloseStream, Deliver, Expire, HeartbeatTick, RunMicrotask, OpenStream, EnsureConn;
    hide ReconnectFires, RetryFires, SocketOpened, DialFails;
    match e
    case UserClose(x, throws) => CloseAdvances(s, e, x, throws);
    case Opened => DialAdvances(s, e);
    case DialError => DialAdvances(s, e);
    case Closed(g) => DropAdvances(s, e, g);
    case Frame(g, c, reply) => ReplyAdvances(s, g, c, reply);
    case CallTimer(c) => ExpireAdvances(s, c);
    case HeartbeatTimer(g, throws) => TickAdvances(s, e, g, throws);
    case Microtask(j, throws) => MicrotaskAdvances(s, j, throws);
    case RetryTimer(x) => RetryAdvances(s, e, x);
    case _ => OpenAdvances(s, e);
  }

  lemma {:induction false} LogGrows(s: State, events: seq<Event>, c: nat)
    requires Inv(s) && Legal(s, events) && c in s.log
    ensures Inv(Run(s, events)) && c in Run(s, events).log && Run(s, events).log[c] == s.log[c]
    decreases events
  {
    if events != [] {
      LedgerHolds(s);
      LeafAdvances(s, events[0]);
      StepKeeps(s, events[0]);
      hide Inv, Step, LedgerOk;
      LogGrows(Step(s, events[0]), events[1..], c);
    }
  }

  /** A settled call never settles again: whatever happens afterwards, its outcome stays and it is not pending. */
  lemma SettledForever(s: State, events: seq<Event>, c: nat)
    requires Reachable(s) && Legal(s, events) && c in s.log
    ensures var t := Run(s, events); c in t.log && t.log[c] == s.log[c] && c !in t.pending
  {
    ReachableInv(s);
    LogGrows(s, events, c);
    UnloggedPending(Run(s, events));
  }

  /** A frame of any other connection, or for a call that is not pending, changes nothing. */
  lemma ForeignFrame(s: State, g: nat, c: nat, reply: Reply)
    requires s.active != Some(g) || c !in s.pending || s.pending[c].gen != g
    ensures Step(s, Frame(g, c, reply)) == s
  {
  }
}
