/**
 The multiplexed RPC client as a state machine over values (src/lib/client.ts).

 One event of the machine is one socket event, one timer, one user call or one
 microtask (a promise continuation that has become runnable).  Timers and socket events
 wait until no microtask is runnable; runnable microtasks may run in any order.
 Whether `ws.send` throws is an input of every event that can send.
 */
module ClientModel {
  import opened Options

  /** The errors a promise of the client can be rejected with. */
  datatype Fault = DialFailed | ConnectionLost | TimedOut | SendFailed | Malformed | Refused(code: int)

  /** Method not found and invalid params: the server will never accept the subscription. */
  predicate Permanent(f: Fault) {
    f.Refused? && (f.code == -32601 || f.code == -32602)
  }

  datatype Remote = Remote(gen: nat, stream: string, call: nat)   // `call` only names the grant, for the ledger
  datatype Opening = Opening(gen: nat, job: nat)
  datatype Subscription = Subscription(
    remote: Option<Remote>,     // remoteId and remoteGeneration, set and deleted together
    opening: Option<Opening>,   // the subscribe promise in flight, named by the job that owns it
    retry: Option<nat>,         // retryTimer, with the generation its closure captured
    attempts: nat)              // retryAttempt

  datatype Purpose = Request | Heartbeat | Subscribe(job: nat) | Cleanup(job: nat, stream: string) | Release(stream: string)
  datatype Pending = Pending(gen: nat, purpose: Purpose)

  /** Who called `activateSubscription`, hence which catch handler sees its failure. */
  datatype Origin = FromStream | FromRetry(gen: nat) | FromRecovery(job: nat)

  /** Where an invocation of `activateSubscription` is suspended or about to continue. */
  datatype Stage =
    | AwaitConn                                      // in `await ensureConn()`
    | Begin(gen: nat)                                // runnable: body, with its connection
    | AwaitGrant(gen: nat, call: nat)                // owner: own subscribe request in flight
    | Granted(gen: nat, call: nat, result: Option<string>)   // runnable: reply in, its `stream_id` if it is an object
    | AwaitCleanup(gen: nat, call: nat)              // owner: unsubscribing a grant nobody wants
    | Settled(gen: nat, why: Option<Fault>)          // runnable: own promise settled, catch and finally next
    | Joined(gen: nat, opener: nat)                  // waits for the promise of another job
    | Rejected(fault: Fault)                         // runnable: the catch handler of the caller

  datatype Phase = Dialing | Connected(gen: nat) | Undialed | Restoring(gen: nat, failed: bool)

  datatype Job =
    | Activation(sub: nat, origin: Origin, stage: Stage)
    | Rpc(conn: Option<nat>)      // `call`: awaiting a connection, or runnable with one
    | Recovery(phase: Phase)      // `recover`
    | Beat(gen: nat)              // runnable: a heartbeat was rejected, its catch drops the connection

  /** How a call left the pending table. */
  datatype Outcome = Answered(gen: nat) | Expired | Unsent | Lost

  datatype Fate = Arrived(job: nat) | Held | Released(call: nat)
  datatype Grant = Grant(sub: nat, stream: string, fate: Fate)

  datatype State = State(
    active: Option<nat>,          // generation of the active connection
    connecting: bool,
    reconnectTimer: bool,
    generation: nat,
    callSeq: nat,                 // next call id
    subSeq: nat,                  // next local subscription id
    jobSeq: nat,                  // next job id
    beating: bool,                // heartbeatPending of the active connection
    resyncs: nat,
    pending: map<nat, Pending>,
    subs: map<nat, Subscription>,
    jobs: map<nat, Job>,
    // Ledger, read by no event:
    issued: map<nat, Pending>,    // every call ever given an id
    log: map<nat, Outcome>,       // every call that has settled
    openers: map<nat, Opening>,   // last opening of every subscription, in the table or not
    grants: map<nat, Grant>,      // stream ids accepted on the active connection, by subscribe call
    blank: bool)                  // a subscribe request has been answered with an empty stream id

  const Init := State(None, false, false, 0, 0, 0, 0, false, 0, map[], map[], map[], map[], map[], map[], map[], false)

  const Fresh := Subscription(None, None, None, 0)

  // ----- Jobs ---------------------------------------------------------------------

  predicate Owner(stage: Stage) {
    stage.AwaitGrant? || stage.Granted? || stage.AwaitCleanup? || stage.Settled?
  }

  predicate HasGen(stage: Stage) {
    Owner(stage) || stage.Begin? || stage.Joined?
  }

  predicate Joins(job: Job, opener: nat) {
    job.Activation? && job.stage.Joined? && job.stage.opener == opener
  }

  predicate Opener(job: Job, x: nat, g: nat) {
    job.Activation? && job.sub == x && Owner(job.stage) && job.stage.gen == g
  }

  ghost predicate Outstanding(s: State, r: nat) {
    exists k :: k in s.jobs && s.jobs[k].Activation? && s.jobs[k].origin == FromRecovery(r)
  }

  /** The job is a microtask: nothing but the scheduler keeps it from continuing. */
  ghost predicate Ready(s: State, j: nat) {
    j in s.jobs &&
    match s.jobs[j]
    case Activation(_, _, stage) => stage.Begin? || stage.Granted? || stage.Settled? || stage.Rejected?
    case Rpc(conn) => conn.Some?
    case Recovery(phase) => phase.Connected? || phase.Undialed? || (phase.Restoring? && !Outstanding(s, j))
    case Beat(_) => true
  }

  ghost predicate Quiet(s: State) {
    forall j :: !Ready(s, j)
  }

  function Spawn(s: State, job: Job): State {
    s.(jobs := s.jobs[s.jobSeq := job], jobSeq := s.jobSeq + 1)
  }

  function Finish(s: State, j: nat): State {
    s.(jobs := s.jobs - {j})
  }

  function SetJob(s: State, j: nat, job: Job): State {
    s.(jobs := s.jobs[j := job])
  }

  function ArmReconnect(s: State): State {
    s.(reconnectTimer := true)
  }

  /** The promise owned by job `j` settles: the owner and everyone who joined it continue. */
  function Settle(jobs: map<nat, Job>, j: nat, why: Option<Fault>): map<nat, Job> {
    map k | k in jobs && !(why.None? && Joins(jobs[k], j)) ::
      if k == j && jobs[k].Activation? && Owner(jobs[k].stage) then jobs[k].(stage := Settled(jobs[k].stage.gen, why))
      else if why.Some? && Joins(jobs[k], j) then jobs[k].(stage := Rejected(why.value))
      else jobs[k]
  }

  function SettleJob(s: State, j: nat, why: Option<Fault>): State {
    s.(jobs := Settle(s.jobs, j, why))
  }

  // ----- Connection loss and timers ------------------------------------------------

  /** Job `k` owns a promise that waits for a call below `limit` of connection `g`. */
  predicate Doomed(jobs: map<nat, Job>, g: nat, limit: nat, k: nat) {
    k in jobs && jobs[k].Activation? && (jobs[k].stage.AwaitGrant? || jobs[k].stage.AwaitCleanup?) &&
    jobs[k].stage.gen == g && jobs[k].stage.call < limit
  }

  predicate JoinsCleanup(jobs: map<nat, Job>, g: nat, limit: nat, job: Job) {
    job.Activation? && job.stage.Joined? && Doomed(jobs, g, limit, job.stage.opener)
    && jobs[job.stage.opener].stage.AwaitCleanup?
  }

  /** What rejecting the calls below `limit` of connection `g` does to one job. */
  function Bereave(jobs: map<nat, Job>, g: nat, limit: nat, k: nat): Job
    requires k in jobs
  {
    var job := jobs[k];
    if Doomed(jobs, g, limit, k) then
      job.(stage := Settled(g, if job.stage.AwaitGrant? then Some(ConnectionLost) else None))
    else if job.Activation? && job.stage.Joined? && Doomed(jobs, g, limit, job.stage.opener)
            && jobs[job.stage.opener].stage.AwaitGrant? then
      job.(stage := Rejected(ConnectionLost))
    else job
  }

  function BereaveAll(jobs: map<nat, Job>, g: nat, limit: nat): map<nat, Job> {
    map k | k in jobs && !JoinsCleanup(jobs, g, limit, jobs[k]) :: Bereave(jobs, g, limit, k)
  }

  function Kept(pending: map<nat, Pending>, g: nat, limit: nat): map<nat, Pending> {
    map c | c in pending && !(pending[c].gen == g && c < limit) :: pending[c]
  }

  function Losses(pending: map<nat, Pending>, g: nat, limit: nat): map<nat, Outcome> {
    map c | c in pending && pending[c].gen == g && c < limit :: Lost
  }

  /** Every pending call of connection `g` with an id below `limit` is rejected. */
  function RejectAll(s: State, g: nat, limit: nat): State {
    s.(pending := Kept(s.pending, g, limit),
       log := s.log + Losses(s.pending, g, limit),
       jobs := BereaveAll(s.jobs, g, limit))
  }

  function Forget(sub: Subscription, g: nat): Subscription {
    sub.(retry := None, attempts := 0,
         remote := if sub.remote.Some? && sub.remote.value.gen == g then None else sub.remote)
  }

  function ForgetAll(subs: map<nat, Subscription>, g: nat): map<nat, Subscription> {
    map x | x in subs :: Forget(subs[x], g)
  }

  /** The connection is gone: its calls are rejected, its streams forgotten, a reconnect is due. */
  function Drop(s: State, g: nat): State {
    if s.active != Some(g) then s else
    RejectAll(s, g, s.callSeq).(active := None, reconnectTimer := true, grants := map[], subs := ForgetAll(s.subs, g))
  }

  predicate Live(s: State, x: nat) {
    x in s.subs && s.active.Some? && s.subs[x].remote.Some? &&
    s.subs[x].remote.value.gen == s.active.value && s.subs[x].remote.value.stream != ""
  }

  predicate LiveOn(sub: Subscription, g: nat) {
    sub.remote.Some? && sub.remote.value.gen == g && sub.remote.value.stream != ""
  }

  predicate OpeningOn(sub: Subscription, g: nat) {
    sub.opening.Some? && sub.opening.value.gen == g
  }

  predicate WantsRetry(s: State, x: nat, g: nat) {
    x in s.subs && s.active == Some(g) && s.subs[x].retry.None? && !LiveOn(s.subs[x], g) && !OpeningOn(s.subs[x], g)
  }

  function ScheduleRetry(s: State, x: nat, g: nat): State {
    if !WantsRetry(s, x, g) then s
    else s.(subs := s.subs[x := s.subs[x].(retry := Some(g), attempts := s.subs[x].attempts + 1)])
  }

  // ----- Calls ---------------------------------------------------------------------

  datatype Sent = Sent(state: State, call: nat) | NotSent(state: State, fault: Fault)

  /** The call gets an id and waits in the pending table. */
  function Enlist(s: State, p: Pending): State {
    s.(callSeq := s.callSeq + 1, issued := s.issued[s.callSeq := p], pending := s.pending[s.callSeq := p])
  }

  /** The call gets an id, but `ws.send` throws and it is taken out of the table again. */
  function Misfire(s: State, p: Pending): State {
    s.(callSeq := s.callSeq + 1, issued := s.issued[s.callSeq := p], log := s.log[s.callSeq := Unsent])
  }

  function SendCall(s: State, g: nat, purpose: Purpose, throws: bool): Sent {
    if s.active != Some(g) then NotSent(s, ConnectionLost)
    else if throws then NotSent(Drop(Misfire(s, Pending(g, purpose)), g), SendFailed)
    else Sent(Enlist(s, Pending(g, purpose)), s.callSeq)
  }

  /** The call leaves the pending table, and its outcome is on record. */
  function Unpend(s: State, c: nat, how: Outcome): State {
    s.(pending := s.pending - {c}, log := s.log[c := how])
  }

  /** The promise of a call that has left the pending table is rejected. */
  function Reject(s: State, p: Pending, why: Fault): State {
    match p.purpose
    case Request => s
    case Release(_) => s
    case Heartbeat => Spawn(s, Beat(p.gen))
    case Subscribe(j) => SettleJob(s, j, Some(why))
    case Cleanup(j, _) => SettleJob(s, j, None)
  }

  /** A reply frame: an error, a result that is no object, or a result whose `stream_id` is `stream`. */
  datatype Reply = Error(code: int) | NoResult | Result(stream: string)

  function Resolve(s: State, c: nat, p: Pending, reply: Reply): State
    requires !reply.Error?
  {
    match p.purpose
    case Request => s
    case Release(_) => s
    case Heartbeat => s.(beating := false)
    case Cleanup(j, _) => SettleJob(s, j, None)
    case Subscribe(j) =>
      if j in s.jobs && s.jobs[j].Activation? then
        var result := if reply.Result? then Some(reply.stream) else None;
        s.(jobs := s.jobs[j := s.jobs[j].(stage := Granted(p.gen, c, result))],
           grants := if result.None? || result.value == "" then s.grants
                     else s.grants[c := Grant(s.jobs[j].sub, result.value, Arrived(j))],
           blank := s.blank || result == Some(""))
      else s
  }

  function Deliver(s: State, g: nat, c: nat, reply: Reply): State {
    if s.active != Some(g) || c !in s.pending || s.pending[c].gen != g then s else
    var p := s.pending[c];
    var t := Unpend(s, c, Answered(g));
    if reply.Error? then Reject(t, p, Refused(reply.code)) else Resolve(t, c, p, reply)
  }

  function Expire(s: State, c: nat): State {
    if c !in s.pending then s else
    Reject(Unpend(s, c, Expired), s.pending[c], TimedOut)
  }

  function HeartbeatTick(s: State, g: nat, throws: bool): State {
    if s.active != Some(g) || s.beating then s else
    var r := SendCall(s, g, Heartbeat, throws);
    if r.Sent? then r.state.(beating := true) else r.state
  }

  // ----- Dialling ------------------------------------------------------------------

  /** What a job awaiting a connection becomes when it gets connection `g`. */
  function Wake(job: Job, g: nat): Job {
    match job
    case Activation(x, o, AwaitConn) => Activation(x, o, Begin(g))
    case Rpc(None) => Rpc(Some(g))
    case Recovery(Dialing) => Recovery(Connected(g))
    case _ => job
  }

  /** A job calls `ensureConn`: it continues at once, or waits for the dial it may have to start. */
  function EnsureConn(s: State, waiting: Job): State {
    Spawn(s.(connecting := s.connecting || s.active.None?),
      if s.active.Some? then Wake(waiting, s.active.value) else waiting)
  }

  /** The connection becomes active and wakes whoever awaited it.  The dial's caller, first in the queue of its promise,
      clears `connecting` before any other continuation runs, so both are one step. */
  function SocketOpened(s: State): State {
    var g := s.generation;
    s.(active := Some(g), generation := g + 1, connecting := false, beating := false,
       jobs := map k | k in s.jobs :: Wake(s.jobs[k], g))
  }

  function Strand(job: Job): Job {
    match job
    case Activation(x, o, AwaitConn) => Activation(x, o, Rejected(DialFailed))
    case Recovery(Dialing) => Recovery(Undialed)
    case _ => job
  }

  function DialFails(s: State): State {
    s.(connecting := false,
       jobs := map k | k in s.jobs && s.jobs[k] != Rpc(None) :: Strand(s.jobs[k]))
  }

  // ----- Subscriptions -------------------------------------------------------------

  function Enroll(s: State, x: nat): State {
    s.(subs := s.subs[x := Fresh])
  }

  function Discard(s: State, x: nat): State {
    s.(subs := s.subs - {x})
  }

  function OpenStream(s: State): State {
    Enroll(EnsureConn(s.(subSeq := s.subSeq + 1), Activation(s.subSeq, FromStream, AwaitConn)), s.subSeq)
  }

  /** The grants subscription `x` holds have been handed back by call `u`. */
  function HandBack(grants: map<nat, Grant>, x: nat, u: nat): map<nat, Grant> {
    map c | c in grants ::
      if grants[c].sub == x && grants[c].fate.Held? then grants[c].(fate := Released(u)) else grants[c]
  }

  /** The unsubscribe for the stream `x` holds is on the wire, and `x` has left the table. */
  function HandOver(s: State, x: nat, g: nat, stream: string): State {
    var t := Enlist(s, Pending(g, Release(stream)));
    t.(subs := t.subs - {x}, grants := HandBack(t.grants, x, s.callSeq))
  }

  function CloseStream(s: State, x: nat, throws: bool): State {
    if x !in s.subs then s
    else if s.active.None? || !LiveOn(s.subs[x], s.active.value) then Discard(s, x)
    else
      var g, stream := s.active.value, s.subs[x].remote.value.stream;
      if throws then Discard(Drop(Misfire(s, Pending(g, Release(stream))), g), x) else HandOver(s, x, g, stream)
  }

  /** The subscribe request is on the wire: the job owns the promise its subscription names. */
  function Own(s: State, j: nat, x: nat, origin: Origin, g: nat): State
    requires x in s.subs
  {
    Enlist(s, Pending(g, Subscribe(j))).(
      jobs := s.jobs[j := Activation(x, origin, AwaitGrant(g, s.callSeq))],
      subs := s.subs[x := s.subs[x].(opening := Some(Opening(g, j)))],
      openers := s.openers[x := Opening(g, j)])
  }

  /** The subscribe request could not be sent: the job owns a promise that is already rejected. */
  function OwnFailure(s: State, j: nat, x: nat, origin: Origin, g: nat, why: Fault): State {
    s.(jobs := s.jobs[j := Activation(x, origin, Settled(g, Some(why)))],
       subs := if x in s.subs then s.subs[x := s.subs[x].(opening := Some(Opening(g, j)))] else s.subs,
       openers := s.openers[x := Opening(g, j)])
  }

  function ClearRetry(s: State, x: nat): State
    requires x in s.subs
  {
    s.(subs := s.subs[x := s.subs[x].(retry := None)])
  }

  /** The body of `activateSubscription` up to its first wait. */
  function BeginActivation(s: State, j: nat, x: nat, origin: Origin, g: nat, throws: bool): State {
    if x !in s.subs || LiveOn(s.subs[x], g) then Finish(s, j)
    else if OpeningOn(s.subs[x], g) then
      var o := s.subs[x].opening.value.job;
      if o in s.jobs && s.jobs[o].Activation? && s.jobs[o].stage.Settled? then
        if s.jobs[o].stage.why.None? then Finish(s, j)
        else SetJob(s, j, Activation(x, origin, Rejected(s.jobs[o].stage.why.value)))
      else SetJob(s, j, Activation(x, origin, Joined(g, o)))
    else if s.active != Some(g) then OwnFailure(ClearRetry(s, x), j, x, origin, g, ConnectionLost)
    else if throws then
      OwnFailure(Drop(Misfire(ClearRetry(s, x), Pending(g, Subscribe(j))), g), j, x, origin, g, SendFailed)
    else Own(ClearRetry(s, x), j, x, origin, g)
  }

  /** The grant becomes the remote stream of the subscription. */
  function Hold(s: State, x: nat, g: nat, c: nat, stream: string): State
    requires x in s.subs
  {
    s.(subs := s.subs[x := s.subs[x].(remote := Some(Remote(g, stream, c)), attempts := 0)],
       grants := if stream != "" && c in s.grants then s.grants[c := s.grants[c].(fate := Held)] else s.grants)
  }

  /** The unsubscribe for a grant whose subscription has gone is on the wire. */
  function Return(s: State, j: nat, g: nat, c: nat, stream: string): State
    requires j in s.jobs && s.jobs[j].Activation?
  {
    Enlist(s, Pending(g, Cleanup(j, stream))).(
      jobs := s.jobs[j := s.jobs[j].(stage := AwaitCleanup(g, s.callSeq))],
      grants := if stream != "" && c in s.grants then s.grants[c := s.grants[c].(fate := Released(s.callSeq))] else s.grants)
  }

  /** The promise body after `await sendCall`: keep the stream, give it back, or let it go with the connection. */
  function AcceptGrant(s: State, j: nat, x: nat, g: nat, c: nat, result: Option<string>, throws: bool): State {
    if s.active != Some(g) then SettleJob(s, j, None)
    else if result.None? then SettleJob(s, j, Some(Malformed))
    else if x in s.subs then SettleJob(Hold(s, x, g, c, result.value), j, None)
    else if j !in s.jobs || !s.jobs[j].Activation? then s
    else if throws then SettleJob(Drop(Misfire(s, Pending(g, Cleanup(j, result.value))), g), j, None)
    else Return(s, j, g, c, result.value)
  }

  /** The owner forgets its promise; a failure goes on to the catch handler of whoever started it. */
  function Disown(s: State, j: nat, x: nat, origin: Origin, why: Option<Fault>): State {
    s.(subs := if x in s.subs && s.subs[x].opening.Some? && s.subs[x].opening.value.job == j
               then s.subs[x := s.subs[x].(opening := None)] else s.subs,
       jobs := if why.None? then s.jobs - {j} else s.jobs[j := Activation(x, origin, Rejected(why.value))])
  }

  /** The catch and finally blocks around the owner's `await promise`. */
  function CloseOpening(s: State, j: nat, x: nat, origin: Origin, why: Option<Fault>): State {
    Disown(if x in s.subs && why.Some? && Permanent(why.value) then Discard(s, x) else s, j, x, origin, why)
  }

  /** The catch handler of whoever started the activation, and the end of its job. */
  function Recoil(s: State, j: nat, x: nat, origin: Origin, why: Fault): State {
    match origin
    case FromStream =>
      if Permanent(why) then Finish(s, j)
      else if s.active.Some? then Finish(ScheduleRetry(s, x, s.active.value), j)
      else Finish(ArmReconnect(s), j)
    case FromRetry(g) =>
      if s.active == Some(g) then Finish(ScheduleRetry(s, x, g), j)
      else if s.active.None? then Finish(ArmReconnect(s), j)
      else Finish(s, j)
    case FromRecovery(r) =>
      if r in s.jobs && s.jobs[r].Recovery? && s.jobs[r].phase.Restoring? then
        var g := s.jobs[r].phase.gen;
        if s.active == Some(g) then Finish(ScheduleRetry(s, x, g), j)
        else SetJob(Finish(s, j), r, Recovery(Restoring(g, true)))
      else Finish(s, j)
  }

  // ----- Recovery ------------------------------------------------------------------

  predicate Recruits(s: State, k: nat) {
    s.jobSeq <= k && (k - s.jobSeq) in s.subs
  }

  /** One activation per subscription in the table when the restore starts. */
  function Restore(s: State, r: nat, g: nat): State {
    s.(jobSeq := s.jobSeq + s.subSeq,
       jobs := s.jobs[r := Recovery(Restoring(g, false))] +
         map k | s.jobSeq <= k < s.jobSeq + s.subSeq && Recruits(s, k)
               :: Activation(k - s.jobSeq, FromRecovery(r), Begin(g)))
  }

  function ContinueRecovery(s: State, r: nat, phase: Phase): State {
    match phase
    case Dialing => s
    case Connected(g) => Restore(s, r, g)
    case Undialed => Finish(ArmReconnect(s), r)
    case Restoring(g, failed) =>
      if failed || s.active != Some(g) then Finish(ArmReconnect(s), r)
      else Finish(s, r).(resyncs := s.resyncs + 1)
  }

  function ReconnectFires(s: State): State {
    EnsureConn(s.(reconnectTimer := false), Recovery(Dialing))
  }

  function RetryFires(s: State, x: nat): State {
    if x !in s.subs || s.subs[x].retry.None? then s
    else if s.active != s.subs[x].retry then ClearRetry(s, x)
    else ClearRetry(Spawn(s, Activation(x, FromRetry(s.subs[x].retry.value), Begin(s.subs[x].retry.value))), x)
  }

  function RunMicrotask(s: State, j: nat, throws: bool): State {
    if j !in s.jobs then s else
    match s.jobs[j]
    case Activation(x, origin, Begin(g)) => BeginActivation(s, j, x, origin, g, throws)
    case Activation(x, origin, Granted(g, c, result)) => AcceptGrant(s, j, x, g, c, result, throws)
    case Activation(x, origin, Settled(g, why)) => CloseOpening(s, j, x, origin, why)
    case Activation(x, origin, Rejected(why)) => Recoil(s, j, x, origin, why)
    case Activation(_, _, _) => s
    case Rpc(None) => s
    case Rpc(Some(g)) => SendCall(Finish(s, j), g, Request, throws).state
    case Recovery(phase) => ContinueRecovery(s, j, phase)
    case Beat(g) => Drop(Finish(s, j), g)
  }

  // ----- Runs ----------------------------------------------------------------------

  datatype Event =
    | UserStream
    | UserClose(sub: nat, throws: bool)
    | UserCall
    | Opened
    | DialError
    | Closed(gen: nat)
    | Frame(gen: nat, call: nat, reply: Reply)
    | CallTimer(call: nat)
    | HeartbeatTimer(gen: nat, throws: bool)
    | ReconnectTimer
    | RetryTimer(sub: nat)
    | Microtask(job: nat, throws: bool)

  ghost predicate Enabled(s: State, e: Event) {
    match e
    case UserStream => true
    case UserClose(_, _) => true
    case UserCall => true
    case Opened => s.connecting && Quiet(s)
    case DialError => s.connecting
    case Closed(_) => Quiet(s)
    case Frame(_, _, _) => Quiet(s)
    case CallTimer(c) => c in s.pending && Quiet(s)
    case HeartbeatTimer(g, _) => s.active == Some(g) && Quiet(s)
    case ReconnectTimer => s.reconnectTimer && Quiet(s)
    case RetryTimer(x) => x in s.subs && s.subs[x].retry.Some? && Quiet(s)
    case Microtask(j, _) => Ready(s, j)
  }

  function Step(s: State, e: Event): State {
    match e
    case UserStream => OpenStream(s)
    case UserClose(x, throws) => CloseStream(s, x, throws)
    case UserCall => EnsureConn(s, Rpc(None))
    case Opened => SocketOpened(s)
    case DialError => DialFails(s)
    case Closed(g) => Drop(s, g)
    case Frame(g, c, reply) => Deliver(s, g, c, reply)
    case CallTimer(c) => Expire(s, c)
    case HeartbeatTimer(g, throws) => HeartbeatTick(s, g, throws)
    case ReconnectTimer => ReconnectFires(s)
    case RetryTimer(x) => RetryFires(s, x)
    case Microtask(j, throws) => RunMicrotask(s, j, throws)
  }

  function Run(s: State, events: seq<Event>): State
    decreases events
  {
    if events == [] then s else Run(Step(s, events[0]), events[1..])
  }

  /** Every event of the list is one the browser could deliver at that moment. */
  ghost predicate Legal(s: State, events: seq<Event>)
    decreases events
  {
    events != [] ==> Enabled(s, events[0]) && Legal(Step(s, events[0]), events[1..])
  }
}
