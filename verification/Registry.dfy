/** The workspace runtime registry under concurrent calls (crates/kxen-core/src/workspace_runtime.rs).
    One event is one critical section or one call into the file system, of one thread. */
module Registry {
  import opened Options

  type Path = string
  type Identity = nat     // device and inode

  datatype Runtime = Runtime(root: Path, identity: Identity)

  /** Where a call of `runtime(root)` is. */
  datatype Pc =
    | Probing(root: Path)                        // before the first look into the registry
    | Normalizing(root: Path)
    | Checking(canonical: Path)                  // before the second look
    | Building(canonical: Path)                  // in WorkspaceRuntime::new
    | Publishing(canonical: Path, runtime: nat)  // before the registry is locked to insert
    | Returned(canonical: Path, runtime: nat)
    | Failed

  datatype State = State(
    identities: map<Path, Identity>,     // what the directories are now; absent: no directory
    runtimes: map<Path, nat>,            // the registry: canonical root to runtime number
    built: seq<Runtime>,                 // every runtime ever constructed
    generation: nat,
    threads: seq<Pc>,
    inserts: seq<Path>)                  // ledger: the root of every insertion

  datatype Event =
    | Call(root: Path)
    | Probe(t: nat)
    | Normalize(t: nat, canonical: Option<Path>)   // canonicalize and prepare_project, which may fail
    | Check(t: nat)
    | Build(t: nat, ok: bool)
    | Publish(t: nat)
    | Replace(path: Path, identity: Option<Identity>)   // the directory is deleted or replaced by another

  function IdentityOf(s: State, path: Path): Option<Identity> {
    if path in s.identities then Some(s.identities[path]) else None
  }

  /** The runtime registered under this path, if it was built for the directory that is there now. */
  function Hit(runtimes: map<Path, nat>, built: seq<Runtime>, path: Path, identity: Identity): Option<nat> {
    if path in runtimes && runtimes[path] < |built| && built[runtimes[path]].identity == identity then Some(runtimes[path]) else None
  }

  /** Canonical paths are registered under their own name; an alias names the same directory. */
  predicate Enabled(canon: Path -> Path, s: State, e: Event) {
    match e
    case Call(_) => true
    case Probe(t) => t < |s.threads| && s.threads[t].Probing?
    case Normalize(t, c) => t < |s.threads| && s.threads[t].Normalizing? && (c.Some? ==> c.value == canon(s.threads[t].root))
    case Check(t) => t < |s.threads| && s.threads[t].Checking?
    case Build(t, _) => t < |s.threads| && s.threads[t].Building?
    case Publish(t) => t < |s.threads| && s.threads[t].Publishing? && s.threads[t].runtime < |s.built|
    case Replace(_, _) => true
  }

  function Moves(s: State, t: nat, pc: Pc): State
    requires t < |s.threads|
  {
    s.(threads := s.threads[t := pc])
  }

  function Probes(s: State, t: nat, root: Path): State
    requires t < |s.threads|
  {
    var identity := IdentityOf(s, root);
    if identity.None? then Moves(s, t, Failed) else
    var hit := Hit(s.runtimes, s.built, root, identity.value);
    Moves(s, t, if hit.Some? then Returned(root, hit.value) else Normalizing(root))
  }

  function Checks(s: State, t: nat, canonical: Path): State
    requires t < |s.threads|
  {
    var identity := IdentityOf(s, canonical);
    if identity.None? then Moves(s, t, Failed) else
    var hit := Hit(s.runtimes, s.built, canonical, identity.value);
    Moves(s, t, if hit.Some? then Returned(canonical, hit.value) else Building(canonical))
  }

  function Builds(s: State, t: nat, canonical: Path, ok: bool): State
    requires t < |s.threads|
  {
    var identity := IdentityOf(s, canonical);
    if !ok || identity.None? then Moves(s, t, Failed)
    else Moves(s, t, Publishing(canonical, |s.built|)).(built := s.built + [Runtime(canonical, identity.value)])
  }

  /** The last critical section: somebody else's runtime for the same directory wins, else the new one is inserted. */
  function Publishes(s: State, t: nat, canonical: Path, runtime: nat): State
    requires t < |s.threads| && runtime < |s.built|
  {
    var hit := Hit(s.runtimes, s.built, canonical, s.built[runtime].identity);
    if hit.Some? then Moves(s, t, Returned(canonical, hit.value))
    else Moves(s, t, Returned(canonical, runtime)).(
      runtimes := s.runtimes[canonical := runtime], generation := s.generation + 1, inserts := s.inserts + [canonical])
  }

  function Step(canon: Path -> Path, s: State, e: Event): State
    requires Enabled(canon, s, e)
  {
    match e
    case Call(root) => s.(threads := s.threads + [Probing(root)])
    case Probe(t) => Probes(s, t, s.threads[t].root)
    case Normalize(t, c) => Moves(s, t, if c.Some? then Checking(c.value) else Failed)
    case Check(t) => Checks(s, t, s.threads[t].canonical)
    case Build(t, ok) => Builds(s, t, s.threads[t].canonical, ok)
    case Publish(t) => Publishes(s, t, s.threads[t].canonical, s.threads[t].runtime)
    case Replace(path, identity) =>
      s.(identities := if identity.Some? then s.identities[path := identity.value] else s.identities - {path})
  }

  ghost predicate Legal(canon: Path -> Path, s: State, events: seq<Event>)
    decreases events
  {
    events != [] ==> Enabled(canon, s, events[0]) && Legal(canon, Step(canon, s, events[0]), events[1..])
  }

  function Run(canon: Path -> Path, s: State, events: seq<Event>): State
    requires Legal(canon, s, events)
    decreases events
  {
    if events == [] then s else Run(canon, Step(canon, s, events[0]), events[1..])
  }

  /** Nothing happens to the directory at `c`, nor to any alias of it. */
  ghost predicate Unchanged(canon: Path -> Path, c: Path, events: seq<Event>) {
    forall i :: 0 <= i < |events| && events[i].Replace? ==> canon(events[i].path) != c
  }

  // ----- One directory ---------------------------------------------------------------------------

  function Count(paths: seq<Path>, c: Path): nat {
    if paths == [] then 0 else Count(paths[..|paths| - 1], c) + if paths[|paths| - 1] == c then 1 else 0
  }

  /** Keys of the registry are canonical, and runtimes are numbered in the order they were built. */
  ghost predicate Wellformed(canon: Path -> Path, s: State) {
    (forall p :: canon(canon(p)) == canon(p)) &&
    (forall p :: p in s.runtimes ==> canon(p) == p && s.runtimes[p] < |s.built|) &&
    (forall t :: 0 <= t < |s.threads| ==> ThreadOk(canon, s, t)) &&
    s.generation == |s.inserts|
  }

  predicate ThreadOk(canon: Path -> Path, s: State, t: nat)
    requires t < |s.threads|
  {
    match s.threads[t]
    case Checking(p) => canon(p) == p
    case Building(p) => canon(p) == p
    case Publishing(p, r) => canon(p) == p && r < |s.built|
    case Returned(p, r) => canon(p) == p && r < |s.built|
    case _ => true
  }

  /** While the directory at `c` stays what it is: one runtime, registered once, for everybody. */
  ghost predicate One(canon: Path -> Path, s: State, c: Path) {
    (c in s.runtimes ==> c in s.identities && s.runtimes[c] < |s.built| && s.built[s.runtimes[c]].identity == s.identities[c]) &&
    Count(s.inserts, c) == (if c in s.runtimes then 1 else 0) &&
    forall t :: 0 <= t < |s.threads| ==> OneThread(s, t, c)
  }

  predicate OneThread(s: State, t: nat, c: Path)
    requires t < |s.threads|
  {
    match s.threads[t]
    case Publishing(p, r) => p == c ==> r < |s.built| && c in s.identities && s.built[r].identity == s.identities[c]
    case Returned(p, r) => p == c ==> c in s.runtimes && s.runtimes[c] == r
    case _ => true
  }

  lemma CountNext(paths: seq<Path>, p: Path, c: Path)
    ensures Count(paths + [p], c) == Count(paths, c) + if p == c then 1 else 0
  {
    assert (paths + [p])[..|paths|] == paths;
  }

  lemma StepWellformed(canon: Path -> Path, s: State, e: Event)
    requires Wellformed(canon, s) && Enabled(canon, s, e)
    ensures Wellformed(canon, Step(canon, s, e))
  {
    var t := Step(canon, s, e);
    if !e.Call? && !e.Replace? { assert ThreadOk(canon, s, e.t); }
    forall i | 0 <= i < |t.threads| ensures ThreadOk(canon, t, i) { if i < |s.threads| { assert ThreadOk(canon, s, i); } }
  }

  predicate Moving(e: Event, i: nat) {
    !e.Call? && !e.Replace? && e.t == i
  }

  /** The registered runtime was built for the directory at `c`. */
  predicate Fits(s: State, c: Path) {
    c in s.runtimes ==> c in s.identities && s.runtimes[c] < |s.built| && s.built[s.runtimes[c]].identity == s.identities[c]
  }

  lemma OtherThread(canon: Path -> Path, s: State, e: Event, c: Path, i: nat)
    requires Enabled(canon, s, e) && i < |s.threads| && !Moving(e, i) && OneThread(s, i, c)
    requires Fits(s, c) && (e.Replace? ==> e.path != c) && (e.Publish? ==> OneThread(s, e.t, c))
    ensures OneThread(Step(canon, s, e), i, c)
  {
  }

  lemma OwnThread(canon: Path -> Path, s: State, e: Event, c: Path, i: nat)
    requires Enabled(canon, s, e) && Moving(e, i) && OneThread(s, i, c) && Fits(s, c)
    ensures OneThread(Step(canon, s, e), i, c)
  {
  }

  lemma StepThread(canon: Path -> Path, s: State, e: Event, c: Path, i: nat)
    requires One(canon, s, c) && canon(c) == c && Enabled(canon, s, e) && (e.Replace? ==> canon(e.path) != c)
    requires i < |Step(canon, s, e).threads|
    ensures OneThread(Step(canon, s, e), i, c)
  {
    if i < |s.threads| {
      assert OneThread(s, i, c) && Fits(s, c) && (e.Publish? ==> OneThread(s, e.t, c));
      hide *;
      if Moving(e, i) { OwnThread(canon, s, e, c, i); } else { OtherThread(canon, s, e, c, i); }
    }
  }

  lemma StepOne(canon: Path -> Path, s: State, e: Event, c: Path)
    requires Wellformed(canon, s) && One(canon, s, c) && canon(c) == c && Enabled(canon, s, e) && (e.Replace? ==> canon(e.path) != c)
    ensures One(canon, Step(canon, s, e), c)
  {
    var t := Step(canon, s, e);
    forall i | 0 <= i < |t.threads| ensures OneThread(t, i, c) { StepThread(canon, s, e, c, i); }
    if e.Publish? {
      CountNext(s.inserts, s.threads[e.t].canonical, c);
      assert ThreadOk(canon, s, e.t) && OneThread(s, e.t, c);
    }
    hide OneThread;
  }

  lemma {:induction false} RunOne(canon: Path -> Path, s: State, events: seq<Event>, c: Path)
    requires Wellformed(canon, s) && One(canon, s, c) && canon(c) == c && Legal(canon, s, events) && Unchanged(canon, c, events)
    ensures Wellformed(canon, Run(canon, s, events)) && One(canon, Run(canon, s, events), c)
    decreases events
  {
    if events != [] {
      StepWellformed(canon, s, events[0]);
      StepOne(canon, s, events[0], c);
      hide Wellformed, One;
      forall i | 0 <= i < |events[1..]| && events[1..][i].Replace? ensures canon(events[1..][i].path) != c { assert events[1..][i] == events[i + 1]; }
      RunOne(canon, Step(canon, s, events[0]), events[1..], c);
    }
  }

  function Init(identities: map<Path, Identity>): State {
    State(identities, map[], [], 0, [], [])
  }

  predicate ReturnedFor(s: State, i: int, c: Path) {
    0 <= i < |s.threads| && s.threads[i].Returned? && s.threads[i].canonical == c
  }

  /** In every interleaving in which the directory stays the same, all successful calls return one runtime, it is inserted
      at most once, and the generation counts the insertions. */
  lemma RuntimeUnique(canon: Path -> Path, identities: map<Path, Identity>, events: seq<Event>, c: Path)
    requires (forall p :: canon(canon(p)) == canon(p)) && canon(c) == c
    requires Legal(canon, Init(identities), events) && Unchanged(canon, c, events)
    ensures var s := Run(canon, Init(identities), events);
            (forall i, j :: ReturnedFor(s, i, c) && ReturnedFor(s, j, c) ==> s.threads[i].runtime == s.threads[j].runtime) &&
            Count(s.inserts, c) <= 1 && s.generation == |s.inserts|
  {
    RunOne(canon, Init(identities), events, c);
    var s := Run(canon, Init(identities), events);
    forall i | ReturnedFor(s, i, c) ensures c in s.runtimes && s.threads[i].runtime == s.runtimes[c] { assert OneThread(s, i, c); }
  }

  /** A returned runtime was built for the directory that is there. */
  lemma RuntimeMatches(canon: Path -> Path, identities: map<Path, Identity>, events: seq<Event>, c: Path, t: nat)
    requires (forall p :: canon(canon(p)) == canon(p)) && canon(c) == c
    requires Legal(canon, Init(identities), events) && Unchanged(canon, c, events)
    requires t < |Run(canon, Init(identities), events).threads| && Run(canon, Init(identities), events).threads[t].Returned?
    requires Run(canon, Init(identities), events).threads[t].canonical == c
    ensures var s := Run(canon, Init(identities), events);
            s.threads[t].runtime < |s.built| && c in s.identities && s.built[s.threads[t].runtime].identity == s.identities[c]
  {
    RunOne(canon, Init(identities), events, c);
    assert OneThread(Run(canon, Init(identities), events), t, c);
  }

  // ----- Calls for one directory only ------------------------------------------------------------------

  /** Where a call is going to register, or has. */
  function Target(canon: Path -> Path, pc: Pc): Option<Path> {
    match pc
    case Probing(root) => Some(canon(root))
    case Normalizing(root) => Some(canon(root))
    case Checking(p) => Some(p)
    case Building(p) => Some(p)
    case Publishing(p, _) => Some(p)
    case Returned(p, _) => Some(p)
    case Failed => None
  }

  ghost predicate OnlyFor(canon: Path -> Path, s: State, c: Path) {
    (forall t :: 0 <= t < |s.threads| ==> Target(canon, s.threads[t]).GetOr(c) == c) && forall i :: 0 <= i < |s.inserts| ==> s.inserts[i] == c
  }

  lemma TargetKept(canon: Path -> Path, s: State, e: Event, i: nat)
    requires Enabled(canon, s, e) && i < |s.threads| && Moving(e, i)
    requires forall p :: p in s.runtimes ==> canon(p) == p
    ensures Target(canon, Step(canon, s, e).threads[i]).Some? ==>
      Target(canon, Step(canon, s, e).threads[i]) == Target(canon, s.threads[i])
  {
  }

  lemma ThreadKept(canon: Path -> Path, s: State, e: Event, i: nat)
    requires Enabled(canon, s, e) && i < |s.threads| && !Moving(e, i)
    ensures Step(canon, s, e).threads[i] == s.threads[i]
  {
  }

  lemma ThreadNew(canon: Path -> Path, s: State, e: Event, i: nat)
    requires Enabled(canon, s, e) && |s.threads| <= i < |Step(canon, s, e).threads|
    ensures e.Call? && Target(canon, Step(canon, s, e).threads[i]) == Some(canon(e.root))
  {
  }

  lemma InsertsOnly(canon: Path -> Path, s: State, e: Event, c: Path)
    requires Enabled(canon, s, e) && (e.Publish? ==> Target(canon, s.threads[e.t]).GetOr(c) == c)
    requires forall i :: 0 <= i < |s.inserts| ==> s.inserts[i] == c
    ensures forall i :: 0 <= i < |Step(canon, s, e).inserts| ==> Step(canon, s, e).inserts[i] == c
  {
  }

  lemma StepOnlyFor(canon: Path -> Path, s: State, e: Event, c: Path)
    requires Wellformed(canon, s) && OnlyFor(canon, s, c) && Enabled(canon, s, e) && (e.Call? ==> canon(e.root) == c)
    ensures OnlyFor(canon, Step(canon, s, e), c)
  {
    var t := Step(canon, s, e);
    InsertsOnly(canon, s, e, c);
    hide Step, Enabled, Target, Moving;
    forall i: nat | i < |t.threads| ensures Target(canon, t.threads[i]).GetOr(c) == c {
      if i >= |s.threads| { ThreadNew(canon, s, e, i); }
      else if Moving(e, i) { TargetKept(canon, s, e, i); }
      else { ThreadKept(canon, s, e, i); }
    }
  }

  ghost predicate CallsOnly(canon: Path -> Path, c: Path, events: seq<Event>) {
    forall i :: 0 <= i < |events| && events[i].Call? ==> canon(events[i].root) == c
  }

  lemma {:induction false} RunOnlyFor(canon: Path -> Path, s: State, events: seq<Event>, c: Path)
    requires Wellformed(canon, s) && OnlyFor(canon, s, c) && Legal(canon, s, events) && CallsOnly(canon, c, events)
    ensures OnlyFor(canon, Run(canon, s, events), c)
    decreases events
  {
    if events != [] {
      StepWellformed(canon, s, events[0]);
      StepOnlyFor(canon, s, events[0], c);
      hide Wellformed, OnlyFor;
      forall i | 0 <= i < |events[1..]| && events[1..][i].Call? ensures canon(events[1..][i].root) == c { assert events[1..][i] == events[i + 1]; }
      RunOnlyFor(canon, Step(canon, s, events[0]), events[1..], c);
    }
  }

  lemma {:induction false} CountAll(paths: seq<Path>, c: Path)
    requires forall i :: 0 <= i < |paths| ==> paths[i] == c
    ensures Count(paths, c) == |paths|
  {
    if paths != [] { CountAll(paths[..|paths| - 1], c); }
  }

  /** However many calls race for one unchanged directory, under any of its names, the generation rises at most once. */
  lemma GenerationOnce(canon: Path -> Path, identities: map<Path, Identity>, events: seq<Event>, c: Path)
    requires (forall p :: canon(canon(p)) == canon(p)) && canon(c) == c
    requires Legal(canon, Init(identities), events) && Unchanged(canon, c, events) && CallsOnly(canon, c, events)
    ensures Run(canon, Init(identities), events).generation <= 1
  {
    RunOne(canon, Init(identities), events, c);
    RunOnlyFor(canon, Init(identities), events, c);
    CountAll(Run(canon, Init(identities), events).inserts, c);
  }

  // ----- The registry as an object ------------------------------------------------------------------------

  /** The mutex-guarded map and the atomic generation; each method is one critical section. */
  class RuntimeRegistry {
    var runtimes: map<Path, nat>
    var built: seq<Runtime>
    var generation: nat

    constructor ()
      ensures runtimes == map[] && built == [] && generation == 0
    {
      runtimes, built, generation := map[], [], 0;
    }

    /** A look under the lock, as the first and the second check do. */
    method Lookup(path: Path, identity: Identity) returns (runtime: Option<nat>)
      ensures runtime == Hit(runtimes, built, path, identity)
    {
      if path !in runtimes { return None; }
      var found := runtimes[path];
      if found < |built| && built[found].identity == identity { return Some(found); }
      return None;
    }

    method Construct(canonical: Path, identity: Identity) returns (runtime: nat)
      modifies this`built
      ensures runtime == |old(built)| && built == old(built) + [Runtime(canonical, identity)]
    {
      runtime := |built|;
      built := built + [Runtime(canonical, identity)];
    }

    /** The double check and the insertion, under one lock. */
    method InsertOrGet(canonical: Path, runtime: nat) returns (result: nat)
      requires runtime < |built|
      modifies this`runtimes, this`generation
      ensures var hit := Hit(old(runtimes), built, canonical, built[runtime].identity);
              result == hit.GetOr(runtime) &&
              runtimes == (if hit.Some? then old(runtimes) else old(runtimes)[canonical := runtime]) &&
              generation == old(generation) + if hit.Some? then 0 else 1
    {
      var existing := Lookup(canonical, built[runtime].identity);
      if existing.Some? { return existing.value; }
      runtimes := runtimes[canonical := runtime];
      generation := generation + 1;
      return runtime;
    }
  }
}
