/** Every event of the client machine keeps the invariant. */
module ClientSteps {
  import opened Options
  import opened ClientModel
  import opened ClientInvariant

  // ----- A subscribe request and its reply ------------------------------------------------

  ghost predicate CanOwn(s: State, j: nat, x: nat, origin: Origin, g: nat) {
    Inv(s) && j in s.jobs && s.jobs[j] == Activation(x, origin, Begin(g)) && s.active == Some(g) &&
    x in s.subs && !LiveOn(s.subs[x], g) && !OpeningOn(s.subs[x], g)
  }

  lemma OwnJobs(s: State, j: nat, x: nat, origin: Origin, g: nat)
    requires CanOwn(s, j, x, origin, g)
    ensures JobsOk(Own(s, j, x, origin, g)) && OwnersOk(Own(s, j, x, origin, g))
  {
    var t := Own(s, j, x, origin, g);
    NewCall(s);
    assert JobOk(s, j);
    hide JobOk, OwnerOk, CallOk, SubOk, GrantOk, Covered;
    forall k | k in t.jobs ensures JobOk(t, k) && OwnerOk(t, k) { OwnJob(s, j, x, origin, g, k); }
  }

  lemma NewCall(s: State)
    requires Inv(s)
    ensures s.callSeq !in s.issued && s.callSeq !in s.pending && s.callSeq !in s.log
  {
  }

  lemma OwnJob(s: State, j: nat, x: nat, origin: Origin, g: nat, k: nat)
    requires j in s.jobs && s.jobs[j] == Activation(x, origin, Begin(g)) && s.active == Some(g)
    requires x in s.subs && !LiveOn(s.subs[x], g) && !OpeningOn(s.subs[x], g)
    requires k in s.jobs && JobOk(s, j) && JobOk(s, k) && OwnerOk(s, k) && s.callSeq !in s.pending
    ensures JobOk(Own(s, j, x, origin, g), k) && OwnerOk(Own(s, j, x, origin, g), k)
  {
  }

  lemma OwnSub(s: State, j: nat, x: nat, origin: Origin, g: nat, y: nat)
    requires j in s.jobs && s.jobs[j] == Activation(x, origin, Begin(g)) && x in s.subs
    requires y in s.subs && SubOk(s, y)
    ensures SubOk(Own(s, j, x, origin, g), y)
  {
  }

  lemma OwnCall(s: State, j: nat, x: nat, origin: Origin, g: nat, c: nat)
    requires j in s.jobs && s.jobs[j] == Activation(x, origin, Begin(g)) && s.active == Some(g) && x in s.subs
    requires c in Own(s, j, x, origin, g).pending && (c != s.callSeq ==> CallOk(s, c))
    ensures CallOk(Own(s, j, x, origin, g), c)
  {
  }

  lemma OwnGrant(s: State, j: nat, x: nat, origin: Origin, g: nat, d: nat)
    requires j in s.jobs && s.jobs[j] == Activation(x, origin, Begin(g)) && x in s.subs
    requires s.callSeq !in s.issued && GrantOk(s, d)
    ensures GrantOk(Own(s, j, x, origin, g), d)
  {
  }

  lemma OwnWired(s: State, j: nat, x: nat, origin: Origin, g: nat)
    requires CanOwn(s, j, x, origin, g)
    ensures Wired(Own(s, j, x, origin, g))
  {
    var t := Own(s, j, x, origin, g);
    OwnJobs(s, j, x, origin, g);
    NewCall(s);
    hide JobOk, OwnerOk, CallOk, SubOk, GrantOk, Covered, JobsOk, OwnersOk;
    forall c | c in t.pending ensures CallOk(t, c) { OwnCall(s, j, x, origin, g, c); }
    forall y | y in t.subs ensures SubOk(t, y) { OwnSub(s, j, x, origin, g, y); }
  }

  lemma OwnKeeps(s: State, j: nat, x: nat, origin: Origin, g: nat)
    requires CanOwn(s, j, x, origin, g)
    ensures Inv(Own(s, j, x, origin, g))
  {
    OwnWired(s, j, x, origin, g);
    OwnRecorded(s, j, x, origin, g);
    OwnCarries(s, j, x, origin, g);
    hide Wired, Recorded, AllCovered, Carries, Own;
    CarryAll(s, Own(s, j, x, origin, g));
  }

  lemma OwnRecorded(s: State, j: nat, x: nat, origin: Origin, g: nat)
    requires CanOwn(s, j, x, origin, g)
    ensures Recorded(Own(s, j, x, origin, g))
  {
    var t := Own(s, j, x, origin, g);
    NewCall(s);
    hide GrantOk, Wired, AllCovered, LiveOn, OpeningOn;
    forall d | d in t.grants ensures GrantOk(t, d) { OwnGrant(s, j, x, origin, g, d); }
  }

  lemma OwnCarries(s: State, j: nat, x: nat, origin: Origin, g: nat)
    requires j in s.jobs && s.jobs[j] == Activation(x, origin, Begin(g)) && x in s.subs
    ensures Carries(s, Own(s, j, x, origin, g))
  {
  }

  lemma OwnFailureKeeps(s: State, j: nat, x: nat, origin: Origin, g: nat, why: Fault)
    requires Inv(s) && j in s.jobs && s.jobs[j] == Activation(x, origin, Begin(g)) && s.active.None?
    ensures Inv(OwnFailure(s, j, x, origin, g, why))
  {
    var t := OwnFailure(s, j, x, origin, g, why);
    assert JobOk(s, j);
    hide JobOk, OwnerOk, CallOk, SubOk, GrantOk, Covered;
    forall c ensures c !in s.pending && c !in s.grants { NothingOpen(s, c); }
    forall k | k in t.jobs ensures JobOk(t, k) && OwnerOk(t, k) { OwnFailureJob(s, j, x, origin, g, why, k); }
    forall y | y in t.subs ensures SubOk(t, y) && Covered(t, y) { OwnFailureSub(s, j, x, origin, g, why, y); }
  }

  /** Without a connection no call is pending and no grant is recorded. */
  lemma NothingOpen(s: State, c: nat)
    requires (c in s.pending ==> CallOk(s, c)) && (c in s.grants ==> GrantOk(s, c)) && s.active.None?
    ensures c !in s.pending && c !in s.grants
  {
  }

  lemma OwnFailureJob(s: State, j: nat, x: nat, origin: Origin, g: nat, why: Fault, k: nat)
    requires j in s.jobs && s.jobs[j] == Activation(x, origin, Begin(g)) && s.active.None? && JobOk(s, j)
    requires k in s.jobs && JobOk(s, k) && OwnerOk(s, k)
    ensures JobOk(OwnFailure(s, j, x, origin, g, why), k) && OwnerOk(OwnFailure(s, j, x, origin, g, why), k)
  {
  }

  lemma OwnFailureSub(s: State, j: nat, x: nat, origin: Origin, g: nat, why: Fault, y: nat)
    requires j in s.jobs && s.jobs[j] == Activation(x, origin, Begin(g)) && s.active.None? && JobOk(s, j)
    requires y in s.subs && SubOk(s, y)
    ensures SubOk(OwnFailure(s, j, x, origin, g, why), y) && Covered(OwnFailure(s, j, x, origin, g, why), y)
  {
  }

  /** The reply to a subscribe request has made its owner runnable again. */
  function Arrive(s: State, c: nat, g: nat, j: nat, result: Option<string>): State
    requires j in s.jobs && s.jobs[j].Activation?
  {
    Unpend(s, c, Answered(g)).(
      jobs := s.jobs[j := s.jobs[j].(stage := Granted(g, c, result))],
      grants := if result.None? || result.value == "" then s.grants
                else s.grants[c := Grant(s.jobs[j].sub, result.value, Arrived(j))],
      blank := s.blank || result == Some(""))
  }

  ghost predicate CanArrive(s: State, c: nat, g: nat, j: nat) {
    Inv(s) && c in s.pending && s.pending[c] == Pending(g, Subscribe(j)) && j in s.jobs && s.jobs[j].Activation?
  }

  lemma ArriveJobs(s: State, c: nat, g: nat, j: nat, result: Option<string>)
    requires CanArrive(s, c, g, j)
    ensures JobsOk(Arrive(s, c, g, j, result)) && OwnersOk(Arrive(s, c, g, j, result))
  {
    var t := Arrive(s, c, g, j, result);
    assert CallOk(s, c) && s.active.value < s.generation;
    assert c !in s.grants by { assert c in s.grants ==> GrantOk(s, c); }
    hide JobOk, OwnerOk, CallOk, SubOk, GrantOk, Covered;
    forall k | k in t.jobs ensures JobOk(t, k) && OwnerOk(t, k) { ArriveJob(s, c, g, j, result, k); }
  }

  lemma ArriveJob(s: State, c: nat, g: nat, j: nat, result: Option<string>, k: nat)
    requires c in s.pending && s.pending[c] == Pending(g, Subscribe(j)) && CallOk(s, c) && s.active.value < s.generation
    requires j in s.jobs && s.jobs[j].Activation? && JobOk(s, j) && OwnerOk(s, j) && c !in s.grants
    requires k in s.jobs && JobOk(s, k) && OwnerOk(s, k)
    ensures JobOk(Arrive(s, c, g, j, result), k) && OwnerOk(Arrive(s, c, g, j, result), k)
  {
  }

  lemma ArriveGrant(s: State, c: nat, g: nat, j: nat, result: Option<string>, d: nat)
    requires c in s.pending && s.pending[c] == Pending(g, Subscribe(j)) && CallOk(s, c)
    requires j in s.jobs && s.jobs[j].Activation? && d in Arrive(s, c, g, j, result).grants && (d != c ==> GrantOk(s, d)) && c !in s.grants
    ensures GrantOk(Arrive(s, c, g, j, result), d)
  {
  }

  lemma ArriveWired(s: State, c: nat, g: nat, j: nat, result: Option<string>)
    requires CanArrive(s, c, g, j)
    ensures Wired(Arrive(s, c, g, j, result))
  {
    var t := Arrive(s, c, g, j, result);
    ArriveJobs(s, c, g, j, result);
    assert CallOk(s, c) && JobOk(s, j);
    assert c !in s.grants by { assert c in s.grants ==> GrantOk(s, c); }
    forall d | d in t.pending ensures CallOk(t, d) { assert CallOk(s, d); }
    forall y | y in t.subs ensures SubOk(t, y) { assert SubOk(s, y); }
  }

  lemma ArriveKeeps(s: State, c: nat, g: nat, j: nat, result: Option<string>)
    requires CanArrive(s, c, g, j)
    ensures Inv(Arrive(s, c, g, j, result))
  {
    ArriveWired(s, c, g, j, result);
    ArriveRecorded(s, c, g, j, result);
    ArriveCarries(s, c, g, j, result);
    hide Wired, Recorded, AllCovered, Carries, Arrive;
    CarryAll(s, Arrive(s, c, g, j, result));
  }

  lemma ArriveRecorded(s: State, c: nat, g: nat, j: nat, result: Option<string>)
    requires CanArrive(s, c, g, j)
    ensures Recorded(Arrive(s, c, g, j, result))
  {
    var t := Arrive(s, c, g, j, result);
    assert CallOk(s, c);
    assert c !in s.grants by { assert c in s.grants ==> GrantOk(s, c); }
    assert s.issued[c] == s.pending[c];
    hide GrantOk, CallOk, Wired, AllCovered;
    forall d | d in t.grants ensures GrantOk(t, d) { ArriveGrant(s, c, g, j, result, d); }
  }

  lemma ArriveCarries(s: State, c: nat, g: nat, j: nat, result: Option<string>)
    requires c in s.pending && s.pending[c] == Pending(g, Subscribe(j)) && CallOk(s, c)
    requires j in s.jobs && s.jobs[j].Activation?
    ensures Carries(s, Arrive(s, c, g, j, result))
  {
  }

  lemma SettleJobs(s: State, j: nat, why: Option<Fault>)
    requires Wired(s) && j in s.jobs && s.jobs[j].Activation? && s.jobs[j].stage.Granted?
    requires why.None? ==> s.active != Some(s.jobs[j].stage.gen)
    ensures JobsOk(SettleJob(s, j, why))
  {
    var t := SettleJob(s, j, why);
    hide JobOk, OwnerOk, CallOk, SubOk;
    forall k | k in t.jobs ensures JobOk(t, k) { SettleOne(s, j, why, k); }
  }

  lemma SettleOne(s: State, j: nat, why: Option<Fault>, k: nat)
    requires j in s.jobs && s.jobs[j].Activation? && s.jobs[j].stage.Granted? && JobOk(s, j)
    requires why.None? ==> s.active != Some(s.jobs[j].stage.gen)
    requires k in s.jobs && k in SettleJob(s, j, why).jobs && JobOk(s, k)
    ensures JobOk(SettleJob(s, j, why), k)
  {
  }

  lemma SettleWired(s: State, j: nat, why: Option<Fault>)
    requires Wired(s) && j in s.jobs && s.jobs[j].Activation? && s.jobs[j].stage.Granted?
    requires why.None? ==> s.active != Some(s.jobs[j].stage.gen)
    ensures Wired(SettleJob(s, j, why))
  {
    var t := SettleJob(s, j, why);
    SettleJobs(s, j, why);
    assert JobOk(s, j) && OwnerOk(s, j);
    forall k | k in t.jobs ensures OwnerOk(t, k) { assert OwnerOk(s, k); }
    forall d | d in t.pending ensures CallOk(t, d) { assert CallOk(s, d); }
    forall y | y in t.subs ensures SubOk(t, y) { assert SubOk(s, y); }
  }

  /** The owner of an answered request settles without touching anything else. */
  lemma SettleKeeps(s: State, j: nat, why: Option<Fault>)
    requires Inv(s) && j in s.jobs && s.jobs[j].Activation? && s.jobs[j].stage.Granted?
    requires s.active != Some(s.jobs[j].stage.gen) || !s.jobs[j].stage.result.Some?
    requires why.None? ==> s.active != Some(s.jobs[j].stage.gen)
    ensures Inv(SettleJob(s, j, why))
  {
    var t := SettleJob(s, j, why);
    SettleWired(s, j, why);
    assert JobOk(s, j);
    forall y | y in t.subs ensures Covered(t, y) { SettleCovers(s, t, j, why, y); }
    forall d | d in t.grants ensures GrantOk(t, d) { assert GrantOk(s, d); }
  }

  // ----- Holding or handing back a grant -----------------------------------------------------

  ghost predicate HasGrant(s: State, j: nat, x: nat, g: nat, c: nat, stream: string) {
    Inv(s) && s.active == Some(g) && j in s.jobs && s.jobs[j].Activation? && s.jobs[j].sub == x &&
    s.jobs[j].stage == Granted(g, c, Some(stream))
  }

  lemma HoldJobs(s: State, j: nat, x: nat, g: nat, c: nat, stream: string)
    requires HasGrant(s, j, x, g, c, stream) && x in s.subs
    ensures var t := SettleJob(Hold(s, x, g, c, stream), j, None); JobsOk(t) && OwnersOk(t)
  {
    var t := SettleJob(Hold(s, x, g, c, stream), j, None);
    assert JobOk(s, j) && OwnerOk(s, j);
    hide JobOk, OwnerOk, CallOk, SubOk, GrantOk, Covered;
    forall k | k in t.jobs ensures JobOk(t, k) && OwnerOk(t, k) { HoldJob(s, j, x, g, c, stream, k); }
  }

  /** `HasGrant` without the invariant. */
  ghost predicate GrantAt(s: State, j: nat, x: nat, g: nat, c: nat, stream: string) {
    s.active == Some(g) && j in s.jobs && s.jobs[j].Activation? && s.jobs[j].sub == x &&
    s.jobs[j].stage == Granted(g, c, Some(stream)) && JobOk(s, j)
  }

  lemma HoldJob(s: State, j: nat, x: nat, g: nat, c: nat, stream: string, k: nat)
    requires GrantAt(s, j, x, g, c, stream) && OwnerOk(s, j) && x in s.subs
    requires var t := SettleJob(Hold(s, x, g, c, stream), j, None);
             k in s.jobs && k in t.jobs && JobOk(s, k) && OwnerOk(s, k)
    ensures var t := SettleJob(Hold(s, x, g, c, stream), j, None); JobOk(t, k) && OwnerOk(t, k)
  {
  }

  lemma HoldCall(s: State, j: nat, x: nat, g: nat, c: nat, stream: string, d: nat)
    requires GrantAt(s, j, x, g, c, stream) && x in s.subs && CallOk(s, d)
    ensures CallOk(SettleJob(Hold(s, x, g, c, stream), j, None), d)
  {
  }

  lemma HoldGrant(s: State, j: nat, x: nat, g: nat, c: nat, stream: string, d: nat)
    requires GrantAt(s, j, x, g, c, stream) && OwnerOk(s, j) && x in s.subs && GrantOk(s, d)
    ensures GrantOk(SettleJob(Hold(s, x, g, c, stream), j, None), d)
  {
  }

  lemma HoldSub(s: State, j: nat, x: nat, g: nat, c: nat, stream: string, y: nat)
    requires GrantAt(s, j, x, g, c, stream) && OwnerOk(s, j) && x in s.subs && y in s.subs && SubOk(s, y)
    ensures SubOk(SettleJob(Hold(s, x, g, c, stream), j, None), y)
  {
  }

  lemma HoldCovered(s: State, j: nat, x: nat, g: nat, c: nat, stream: string)
    requires HasGrant(s, j, x, g, c, stream) && x in s.subs
    ensures AllCovered(SettleJob(Hold(s, x, g, c, stream), j, None))
  {
    var t := SettleJob(Hold(s, x, g, c, stream), j, None);
    assert Covered(t, x);
    hide Wired, Recorded, Covered, JobsOk;
    forall y | y in t.subs ensures Covered(t, y) { if y != x { OthersCovered(s, t, j, y); } }
  }

  lemma HoldTables(s: State, j: nat, x: nat, g: nat, c: nat, stream: string)
    requires GrantAt(s, j, x, g, c, stream) && OwnerOk(s, j) && x in s.subs && CallsOk(s) && SubsOk(s) && GrantsOk(s)
    ensures var t := SettleJob(Hold(s, x, g, c, stream), j, None); CallsOk(t) && SubsOk(t) && GrantsOk(t)
  {
    var t := SettleJob(Hold(s, x, g, c, stream), j, None);
    hide GrantAt, OwnerOk, CallOk, SubOk, GrantOk;
    forall d | d in t.pending ensures CallOk(t, d) { HoldCall(s, j, x, g, c, stream, d); }
    forall y | y in t.subs ensures SubOk(t, y) { HoldSub(s, j, x, g, c, stream, y); }
    forall d | d in t.grants ensures GrantOk(t, d) { assert d in s.grants; HoldGrant(s, j, x, g, c, stream, d); }
  }

  lemma HoldKeeps(s: State, j: nat, x: nat, g: nat, c: nat, stream: string)
    requires HasGrant(s, j, x, g, c, stream) && x in s.subs
    ensures Inv(SettleJob(Hold(s, x, g, c, stream), j, None))
  {
    HoldJobs(s, j, x, g, c, stream);
    HoldCovered(s, j, x, g, c, stream);
    hide JobOk, OwnerOk;
    assert GrantAt(s, j, x, g, c, stream) && OwnerOk(s, j);
    hide JobsOk, OwnersOk, AllCovered, GrantAt, CallsOk, SubsOk, GrantsOk;
    HoldTables(s, j, x, g, c, stream);
  }

  /** Settling the promise of `j` leaves the other subscriptions covered. */
  lemma OthersCovered(s: State, t: State, j: nat, y: nat)
    requires Wired(s) && j in s.jobs && s.jobs[j].Activation? && y in s.subs && Covered(s, y) && y != s.jobs[j].sub
    requires y in t.subs && t.subs[y] == s.subs[y] && t.reconnectTimer == s.reconnectTimer && t.jobs == Settle(s.jobs, j, None)
    ensures Covered(t, y)
  {
    if Promised(s, y) {
      var k :| k in s.jobs && Promising(s.jobs[k], y);
      assert JobOk(s, k);
      assert k in t.jobs && t.jobs[k] == s.jobs[k];
    }
    if Restorable(s) {
      var r :| r in s.jobs && s.jobs[r].Recovery? && !s.jobs[r].phase.Restoring?;
      assert t.jobs[r] == s.jobs[r];
    }
  }

  lemma ReturnWired(s: State, j: nat, x: nat, g: nat, c: nat, stream: string)
    requires HasGrant(s, j, x, g, c, stream) && x !in s.subs
    ensures Wired(Return(s, j, g, c, stream))
  {
    var t := Return(s, j, g, c, stream);
    NewCall(s);
    hide JobOk, OwnerOk, CallOk, SubOk, GrantOk, Covered;
    assert GrantAt(s, j, x, g, c, stream);
    hide GrantAt;
    forall k | k in t.jobs ensures JobOk(t, k) && OwnerOk(t, k) { ReturnJob(s, j, x, g, c, stream, k); }
    forall d | d in t.pending ensures CallOk(t, d) { ReturnCall(s, j, x, g, c, stream, d); }
    forall y | y in t.subs ensures SubOk(t, y) { ReturnSub(s, j, x, g, c, stream, y); }
  }

  lemma ReturnJob(s: State, j: nat, x: nat, g: nat, c: nat, stream: string, k: nat)
    requires GrantAt(s, j, x, g, c, stream) && x !in s.subs && s.callSeq !in s.pending
    requires k in s.jobs && JobOk(s, k) && OwnerOk(s, k)
    ensures JobOk(Return(s, j, g, c, stream), k) && OwnerOk(Return(s, j, g, c, stream), k)
  {
  }

  lemma ReturnCall(s: State, j: nat, x: nat, g: nat, c: nat, stream: string, d: nat)
    requires GrantAt(s, j, x, g, c, stream) && x !in s.subs
    requires d in Return(s, j, g, c, stream).pending && (d != s.callSeq ==> CallOk(s, d))
    ensures CallOk(Return(s, j, g, c, stream), d)
  {
  }

  lemma ReturnSub(s: State, j: nat, x: nat, g: nat, c: nat, stream: string, y: nat)
    requires GrantAt(s, j, x, g, c, stream) && x !in s.subs && y in s.subs && SubOk(s, y)
    ensures SubOk(Return(s, j, g, c, stream), y)
  {
  }

  lemma ReturnGrant(s: State, j: nat, x: nat, g: nat, c: nat, stream: string, d: nat)
    requires GrantAt(s, j, x, g, c, stream) && x !in s.subs && s.callSeq !in s.issued && GrantOk(s, d)
    ensures GrantOk(Return(s, j, g, c, stream), d)
  {
  }

  lemma ReturnKeeps(s: State, j: nat, x: nat, g: nat, c: nat, stream: string)
    requires HasGrant(s, j, x, g, c, stream) && x !in s.subs
    ensures Inv(Return(s, j, g, c, stream))
  {
    ReturnWired(s, j, x, g, c, stream);
    ReturnRecorded(s, j, x, g, c, stream);
    ReturnCarries(s, j, x, g, c, stream);
    hide Wired, Recorded, AllCovered, Carries, Return;
    CarryAll(s, Return(s, j, g, c, stream));
  }

  lemma ReturnRecorded(s: State, j: nat, x: nat, g: nat, c: nat, stream: string)
    requires HasGrant(s, j, x, g, c, stream) && x !in s.subs
    ensures Recorded(Return(s, j, g, c, stream))
  {
    var t := Return(s, j, g, c, stream);
    NewCall(s);
    assert GrantAt(s, j, x, g, c, stream);
    hide GrantOk, Wired, AllCovered, GrantAt;
    forall d | d in t.grants ensures GrantOk(t, d) { ReturnGrant(s, j, x, g, c, stream, d); }
  }

  lemma ReturnCarries(s: State, j: nat, x: nat, g: nat, c: nat, stream: string)
    requires j in s.jobs && s.jobs[j].Activation? && s.jobs[j].sub == x && s.jobs[j].stage == Granted(g, c, Some(stream))
    ensures Carries(s, Return(s, j, g, c, stream))
  {
  }

  lemma AcceptKeeps(s: State, j: nat, x: nat, origin: Origin, g: nat, c: nat, result: Option<string>, throws: bool)
    requires Inv(s) && j in s.jobs && s.jobs[j] == Activation(x, origin, Granted(g, c, result))
    ensures Inv(AcceptGrant(s, j, x, g, c, result, throws))
  {
    if s.active != Some(g) { SettleKeeps(s, j, None); }
    else if result.None? { SettleKeeps(s, j, Some(Malformed)); }
    else if x in s.subs {
      HoldKeeps(s, j, x, g, c, result.value);
    } else if !throws {
      ReturnKeeps(s, j, x, g, c, result.value);
    } else {
      SendKeeps(s, g, Cleanup(j, result.value), throws);
      SettleKeeps(Drop(Misfire(s, Pending(g, Cleanup(j, result.value))), g), j, None);
    }
  }

  /** The job a pending call reports to is waiting for exactly that call. */
  lemma AwaitedBy(s: State, c: nat)
    requires Inv(s) && c in s.pending
    ensures CallOk(s, c)
  {
  }

  lemma RejectKeeps(s: State, c: nat, how: Outcome, why: Fault)
    requires Inv(s) && c in s.pending && (how.Answered? ==> how.gen == s.pending[c].gen)
    ensures Inv(Reject(Unpend(s, c, how), s.pending[c], why))
  {
    hide Inv, Spawn, SettleJob, Unpend;
    match s.pending[c].purpose
    case Subscribe(j) => Conclude(s, c, how, j, Some(why));
    case Cleanup(j, _) => Conclude(s, c, how, j, None);
    case Heartbeat => UnpendKeeps(s, c, how); AddBeat(Unpend(s, c, how), s.pending[c].gen);
    case _ => UnpendKeeps(s, c, how);
  }

  lemma AddBeat(s: State, g: nat)
    requires Inv(s)
    ensures Inv(Spawn(s, Beat(g)))
  {
    assert NewJobOk(Spawn(s, Beat(g)), s.jobSeq);
    hide Inv, NewJobOk;
    AddJob(s, Beat(g));
  }

  lemma ResolveKeeps(s: State, c: nat, reply: Reply)
    requires Inv(s) && c in s.pending && !reply.Error?
    ensures Inv(Resolve(Unpend(s, c, Answered(s.pending[c].gen)), c, s.pending[c], reply))
  {
    hide Inv;
    AwaitedBy(s, c);
    var g := s.pending[c].gen;
    var t := Unpend(s, c, Answered(g));
    match s.pending[c].purpose
    case Subscribe(j) => ArriveKeeps(s, c, g, j, if reply.Result? then Some(reply.stream) else None);
    case Cleanup(j, _) => Conclude(s, c, Answered(g), j, None);
    case Heartbeat => UnpendKeeps(s, c, Answered(g)); Arm(t, t.reconnectTimer, t.connecting, false, t.resyncs);
    case _ => UnpendKeeps(s, c, Answered(g));
  }

  lemma ReplyKeeps(s: State, g: nat, c: nat, reply: Reply)
    requires Inv(s)
    ensures Inv(Deliver(s, g, c, reply))
  {
    hide Inv;
    if s.active == Some(g) && c in s.pending && s.pending[c].gen == g {
      if reply.Error? { RejectKeeps(s, c, Answered(g), Refused(reply.code)); } else { ResolveKeeps(s, c, reply); }
    }
  }

  lemma ExpireKeeps(s: State, c: nat)
    requires Inv(s)
    ensures Inv(Expire(s, c))
  {
    hide Inv;
    if c in s.pending { RejectKeeps(s, c, Expired, TimedOut); }
  }

  // ----- New jobs ----------------------------------------------------------------------------

  lemma AddJob(s: State, job: Job)
    requires Inv(s) && NewJobOk(Spawn(s, job), s.jobSeq)
    ensures Inv(Spawn(s, job))
  {
    assert s.jobSeq !in s.jobs by { assert s.jobSeq in s.jobs ==> JobOk(s, s.jobSeq); }
    PatchJob(s, Spawn(s, job), s.jobSeq);
  }

  /** `ensureConn` on behalf of a job that may wait and may hold the current connection. */
  lemma EnsureKeeps(s: State, waiting: Job)
    requires Inv(s) && Idle(waiting) && (waiting.Activation? ==> waiting.sub < s.subSeq)
    ensures Inv(EnsureConn(s, waiting))
  {
    var t := s.(connecting := s.connecting || s.active.None?);
    Arm(s, s.reconnectTimer, t.connecting, s.beating, s.resyncs);
    AddJob(t, if s.active.Some? then Wake(waiting, s.active.value) else waiting);
  }

  predicate Idle(job: Job) {
    (job.Activation? && job.origin.FromStream? && job.stage.AwaitConn?) || job == Rpc(None) || job == Recovery(Dialing)
  }

  ghost predicate Alone(s: State, j: nat, x: nat) {
    forall k :: k in s.jobs && s.jobs[k].Activation? && s.jobs[k].sub == x ==> k == j
  }

  /** The next local id is new, and the job that opens it is the only one to mention it. */
  lemma NextIds(s: State)
    requires Inv(s)
    ensures s.subSeq !in s.subs
    ensures var t := EnsureConn(s.(subSeq := s.subSeq + 1), Activation(s.subSeq, FromStream, AwaitConn));
            Alone(t, s.jobSeq, s.subSeq)
  {
    assert s.subSeq in s.subs ==> SubOk(s, s.subSeq);
    forall k | k in s.jobs ensures s.jobs[k].Activation? ==> s.jobs[k].sub != s.subSeq { assert JobOk(s, k); }
  }

  /** The job that `ensureConn` leaves for a new subscription. */
  lemma StreamJob(s: State, x: nat)
    requires x !in s.subs && x < s.subSeq
    ensures var t := EnsureConn(s, Activation(x, FromStream, AwaitConn));
            x !in t.subs && x < t.subSeq && s.jobSeq in t.jobs && Promising(t.jobs[s.jobSeq], x) && !Owner(t.jobs[s.jobSeq].stage)
  {
  }

  lemma StreamKeeps(s: State)
    requires Inv(s)
    ensures Inv(OpenStream(s))
  {
    hide Inv, EnsureConn, Alone, Promising, Owner;
    NextIds(s);
    WidenKeeps(s);
    EnsureStream(s);
    StreamJob(s.(subSeq := s.subSeq + 1), s.subSeq);
    AddSub(EnsureConn(s.(subSeq := s.subSeq + 1), Activation(s.subSeq, FromStream, AwaitConn)), s.subSeq, s.jobSeq);
  }

  lemma EnsureStream(s: State)
    requires Inv(s.(subSeq := s.subSeq + 1))
    ensures Inv(EnsureConn(s.(subSeq := s.subSeq + 1), Activation(s.subSeq, FromStream, AwaitConn)))
  {
    EnsureKeeps(s.(subSeq := s.subSeq + 1), Activation(s.subSeq, FromStream, AwaitConn));
  }

  lemma WidenKeeps(s: State)
    requires Inv(s)
    ensures Inv(s.(subSeq := s.subSeq + 1))
  {
    var u := s.(subSeq := s.subSeq + 1);
    forall j | j in u.jobs ensures JobOk(u, j) && OwnerOk(u, j) { assert JobOk(s, j) && OwnerOk(s, j); }
    forall c | c in u.pending ensures CallOk(u, c) { assert CallOk(s, c); }
    forall y | y in u.subs ensures SubOk(u, y) && Covered(u, y) { assert SubOk(s, y) && Covered(s, y); }
    forall c | c in u.grants ensures GrantOk(u, c) { assert GrantOk(s, c); }
  }

  /** A fresh subscription enters the table, covered by the activation that opens it. */
  lemma AddSub(s: State, x: nat, j: nat)
    requires Inv(s) && x !in s.subs && x < s.subSeq && j in s.jobs && Promising(s.jobs[j], x) && !Owner(s.jobs[j].stage)
    requires Alone(s, j, x)
    ensures Inv(Enroll(s, x))
  {
    var t := Enroll(s, x);
    assert Promising(t.jobs[j], x);
    hide JobOk, OwnerOk, CallOk, SubOk, GrantOk, Covered, Promising;
    forall k | k in t.jobs ensures JobOk(t, k) && OwnerOk(t, k) { AddSubJob(s, x, j, k); }
    forall c | c in t.pending ensures CallOk(t, c) { AddSubTables(s, x, c); }
    forall c | c in t.grants ensures GrantOk(t, c) { AddSubTables(s, x, c); }
    forall y | y in t.subs ensures SubOk(t, y) && Covered(t, y) {
      if y == x { AddSubNew(s, x, j); } else { AddSubOther(s, x, y); }
    }
  }

  lemma AddSubJob(s: State, x: nat, j: nat, k: nat)
    requires x !in s.subs && j in s.jobs && s.jobs[j].Activation? && !Owner(s.jobs[j].stage) && Alone(s, j, x)
    requires k in s.jobs && JobOk(s, k) && OwnerOk(s, k)
    ensures JobOk(Enroll(s, x), k) && OwnerOk(Enroll(s, x), k)
  {
  }

  lemma AddSubTables(s: State, x: nat, c: nat)
    requires x !in s.subs
    ensures CallOk(s, c) ==> CallOk(Enroll(s, x), c)
    ensures GrantOk(s, c) ==> GrantOk(Enroll(s, x), c)
  {
  }

  lemma AddSubNew(s: State, x: nat, j: nat)
    requires x < s.subSeq && j in s.jobs && Promising(s.jobs[j], x)
    ensures SubOk(Enroll(s, x), x) && Covered(Enroll(s, x), x)
  {
    assert Promising(Enroll(s, x).jobs[j], x);
  }

  lemma AddSubOther(s: State, x: nat, y: nat)
    requires y in s.subs && y != x && SubOk(s, y) && Covered(s, y)
    ensures SubOk(Enroll(s, x), y) && Covered(Enroll(s, x), y)
  {
    Carry(s, Enroll(s, x), y);
  }

  // ----- The end of an activation ---------------------------------------------------------------

  ghost predicate CanDisown(s: State, j: nat, x: nat, origin: Origin, g: nat, why: Option<Fault>) {
    Inv(s) && j in s.jobs && s.jobs[j] == Activation(x, origin, Settled(g, why)) &&
    (why.Some? && Permanent(why.value) ==> x !in s.subs)
  }

  lemma DisownOwners(s: State, j: nat, x: nat, origin: Origin, g: nat, why: Option<Fault>)
    requires CanDisown(s, j, x, origin, g, why)
    ensures OwnersOk(Disown(s, j, x, origin, why))
  {
    var t := Disown(s, j, x, origin, why);
    forall k | k in t.jobs ensures OwnerOk(t, k) { assert OwnerOk(s, k); }
  }

  lemma DisownJobs(s: State, j: nat, x: nat, origin: Origin, g: nat, why: Option<Fault>)
    requires CanDisown(s, j, x, origin, g, why)
    ensures JobsOk(Disown(s, j, x, origin, why)) && OwnersOk(Disown(s, j, x, origin, why))
  {
    var t := Disown(s, j, x, origin, why);
    DisownOwners(s, j, x, origin, g, why);
    assert JobOk(s, j);
    forall k | k in t.jobs ensures k in s.jobs && JobOk(s, k) {}
    hide Disown, OwnersOk, CanDisown, JobOk;
    forall k | k in t.jobs ensures JobOk(t, k) { DisownJob(s, j, x, origin, g, why, k); }
  }

  lemma DisownJob(s: State, j: nat, x: nat, origin: Origin, g: nat, why: Option<Fault>, k: nat)
    requires j in s.jobs && s.jobs[j] == Activation(x, origin, Settled(g, why)) && JobOk(s, j)
    requires k in s.jobs && k in Disown(s, j, x, origin, why).jobs && JobOk(s, k)
    ensures JobOk(Disown(s, j, x, origin, why), k)
  {
  }

  lemma DisownKeeps(s: State, j: nat, x: nat, origin: Origin, g: nat, why: Option<Fault>)
    requires CanDisown(s, j, x, origin, g, why)
    ensures Inv(Disown(s, j, x, origin, why))
  {
    DisownJobs(s, j, x, origin, g, why);
    DisownTables(s, j, x, origin, g, why);
    assert JobOk(s, j);
    DisownCarries(s, j, x, origin, g, why);
    hide JobsOk, OwnersOk, SubsOk, CallsOk, GrantsOk, AllCovered, Carries;
    CarryAll(s, Disown(s, j, x, origin, why));
  }

  lemma DisownCarries(s: State, j: nat, x: nat, origin: Origin, g: nat, why: Option<Fault>)
    requires j in s.jobs && s.jobs[j] == Activation(x, origin, Settled(g, why))
    requires why.Some? && Permanent(why.value) ==> x !in s.subs
    ensures Carries(s, Disown(s, j, x, origin, why))
  {
  }

  lemma DisownTables(s: State, j: nat, x: nat, origin: Origin, g: nat, why: Option<Fault>)
    requires CanDisown(s, j, x, origin, g, why)
    ensures var t := Disown(s, j, x, origin, why); CallsOk(t) && GrantsOk(t) && SubsOk(t)
  {
    var t := Disown(s, j, x, origin, why);
    hide JobOk, OwnerOk, CallOk, SubOk, GrantOk, Covered;
    forall c | c in t.pending ensures CallOk(t, c) { DisownCall(s, j, x, origin, g, why, c); }
    forall c | c in t.grants ensures GrantOk(t, c) { DisownGrant(s, j, x, origin, g, why, c); }
    forall y | y in t.subs ensures SubOk(t, y) { DisownSub(s, j, x, origin, g, why, y); }
  }

  lemma DisownCall(s: State, j: nat, x: nat, origin: Origin, g: nat, why: Option<Fault>, c: nat)
    requires j in s.jobs && s.jobs[j] == Activation(x, origin, Settled(g, why)) && CallOk(s, c)
    ensures CallOk(Disown(s, j, x, origin, why), c)
  {
  }

  lemma DisownGrant(s: State, j: nat, x: nat, origin: Origin, g: nat, why: Option<Fault>, c: nat)
    requires j in s.jobs && s.jobs[j] == Activation(x, origin, Settled(g, why)) && GrantOk(s, c)
    ensures GrantOk(Disown(s, j, x, origin, why), c)
  {
  }

  lemma DisownSub(s: State, j: nat, x: nat, origin: Origin, g: nat, why: Option<Fault>, y: nat)
    requires j in s.jobs && s.jobs[j] == Activation(x, origin, Settled(g, why)) && y in s.subs && SubOk(s, y)
    ensures SubOk(Disown(s, j, x, origin, why), y)
  {
  }

  /** A subscription whose own subscribe request failed holds no stream. */
  lemma FailedIsDark(s: State, j: nat, x: nat, origin: Origin, g: nat, why: Option<Fault>)
    requires Inv(s) && j in s.jobs && s.jobs[j] == Activation(x, origin, Settled(g, why)) && why.Some? && x in s.subs
    ensures s.active.None? || !LiveOn(s.subs[x], s.active.value)
  {
    assert JobOk(s, j) && OwnerOk(s, j);
  }

  lemma CloseKeeps(s: State, j: nat, x: nat, origin: Origin, g: nat, why: Option<Fault>)
    requires Inv(s) && j in s.jobs && s.jobs[j] == Activation(x, origin, Settled(g, why))
    ensures Inv(CloseOpening(s, j, x, origin, why))
  {
    hide Inv, Disown;
    if x in s.subs && why.Some? && Permanent(why.value) {
      FailedIsDark(s, j, x, origin, g, why);
      DiscardKeeps(s, x);
      MakeCanDisown(Discard(s, x), j, x, origin, g, why);
      DisownKeeps(Discard(s, x), j, x, origin, g, why);
    } else {
      MakeCanDisown(s, j, x, origin, g, why);
      DisownKeeps(s, j, x, origin, g, why);
    }
  }

  lemma MakeCanDisown(s: State, j: nat, x: nat, origin: Origin, g: nat, why: Option<Fault>)
    requires Inv(s) && j in s.jobs && s.jobs[j] == Activation(x, origin, Settled(g, why))
    requires why.Some? && Permanent(why.value) ==> x !in s.subs
    ensures CanDisown(s, j, x, origin, g, why)
  {
  }

  /** After a retry has been asked for, the subscription no longer needs the job that failed. */
  lemma RetryKeeps(s: State, x: nat, g: nat, j: nat)
    requires Inv(s) && s.active == Some(g) && j in s.jobs && s.jobs[j].Activation? && s.jobs[j].stage.Rejected?
    ensures Inv(ScheduleRetry(s, x, g)) && ScheduleRetry(s, x, g).jobs == s.jobs
    ensures x in ScheduleRetry(s, x, g).subs ==> Covered(Finish(ScheduleRetry(s, x, g), j), x)
  {
    hide Inv;
    if WantsRetry(s, x, g) { RetrySetKeeps(s, x, g); } else if x in s.subs { RetryNotNeeded(s, x, g, j); }
  }

  lemma RetrySetKeeps(s: State, x: nat, g: nat)
    requires Inv(s) && WantsRetry(s, x, g)
    ensures Inv(ScheduleRetry(s, x, g))
  {
    var sub := s.subs[x].(retry := Some(g), attempts := s.subs[x].attempts + 1);
    assert ScheduleRetry(s, x, g) == s.(subs := s.subs[x := sub]);
    PatchSub(s, x, sub);
  }

  lemma RetryNotNeeded(s: State, x: nat, g: nat, j: nat)
    requires Inv(s) && s.active == Some(g) && !WantsRetry(s, x, g) && x in s.subs && j in s.jobs && s.jobs[j].Activation? && s.jobs[j].stage.Rejected?
    ensures Covered(Finish(s, j), x)
  {
    if OpeningOn(s.subs[x], g) && s.subs[x].remote.None? {
      assert SubOk(s, x);
      var o := s.subs[x].opening.value.job;
      assert JobOk(s, o);
      assert Promising(Finish(s, j).jobs[o], x);
    }
  }

  /** The job may end: a subscription it was to serve is covered without it. */
  ghost predicate Relieved(s: State, j: nat)
    requires j in s.jobs
  {
    var job := s.jobs[j];
    job.Activation? && job.sub in s.subs && Promising(job, job.sub) ==> Covered(Finish(s, j), job.sub)
  }

  lemma FinishCovers(s: State, r: nat, y: nat)
    requires JobsOk(s) && y in s.subs && Covered(s, y) && r in s.jobs && s.jobs[r].Recovery? && (s.reconnectTimer || s.jobs[r].phase.Restoring?)
    ensures Covered(Finish(s, r), y)
  {
    if !s.reconnectTimer { Carry(s, Finish(s, r), y); }
  }

  lemma FinishKeeps(s: State, j: nat)
    requires Inv(s) && j in s.jobs && (s.jobs[j].Activation? ==> !Owner(s.jobs[j].stage))
    requires s.jobs[j].Recovery? ==> if s.jobs[j].phase.Restoring? then !Outstanding(s, j) else s.reconnectTimer
    requires Relieved(s, j)
    ensures Inv(Finish(s, j))
  {
    var t := Finish(s, j);
    assert JobOk(s, j);
    if s.jobs[j].Recovery? {
      forall y | y in s.subs ensures Covered(t, y) { FinishCovers(s, j, y); }
    }
    PatchJob(s, t, j);
  }

  lemma RecoilKeeps(s: State, j: nat, x: nat, origin: Origin, why: Fault)
    requires Inv(s) && j in s.jobs && s.jobs[j] == Activation(x, origin, Rejected(why))
    ensures Inv(Recoil(s, j, x, origin, why))
  {
    hide Inv;
    OriginFacts(s, j);
    match origin
    case FromStream =>
      if Permanent(why) { RefusedKeeps(s, j, x, why); }
      else if s.active.Some? { RetryThenFinish(s, x, s.active.value, j); }
      else { ArmThenFinish(s, j); }
    case FromRetry(g) =>
      if s.active == Some(g) { RetryThenFinish(s, x, g, j); } else { ArmThenFinish(s, j); }
    case FromRecovery(r) =>
      if s.active == Some(s.jobs[r].phase.gen) { RetryThenFinish(s, x, s.jobs[r].phase.gen, j); }
      else { AggregateKeeps(s, j, x, r, why); }
  }

  /** A failed activation started by a retry timer or a recovery still belongs to a current connection. */
  lemma OriginFacts(s: State, j: nat)
    requires Inv(s) && j in s.jobs && s.jobs[j].Activation?
    ensures s.jobs[j].origin.FromRetry? ==> s.active == Some(s.jobs[j].origin.gen) || s.active.None?
    ensures s.jobs[j].origin.FromRecovery? ==>
              var r := s.jobs[j].origin.job; r in s.jobs && s.jobs[r].Recovery? && s.jobs[r].phase.Restoring?
  {
    assert JobOk(s, j);
  }

  lemma RefusedKeeps(s: State, j: nat, x: nat, why: Fault)
    requires Inv(s) && j in s.jobs && s.jobs[j] == Activation(x, FromStream, Rejected(why)) && Permanent(why)
    ensures Inv(Finish(s, j))
  {
    FinishKeeps(s, j);
  }

  lemma LostFinishKeeps(s: State, j: nat, x: nat, r: nat, why: Fault)
    requires Inv(s) && j in s.jobs && s.jobs[j] == Activation(x, FromRecovery(r), Rejected(why))
    requires r in s.jobs && s.jobs[r].Recovery? && s.jobs[r].phase.Restoring? && s.active != Some(s.jobs[r].phase.gen)
    ensures Inv(Finish(s, j))
  {
    assert JobOk(s, r);
    FinishKeeps(s, j);
  }

  lemma MarkFailed(s: State, r: nat)
    requires Inv(s) && r in s.jobs && s.jobs[r].Recovery? && s.jobs[r].phase.Restoring?
    ensures Inv(SetJob(s, r, Recovery(Restoring(s.jobs[r].phase.gen, true))))
  {
    var t := SetJob(s, r, Recovery(Restoring(s.jobs[r].phase.gen, true)));
    assert JobOk(s, r);
    forall y | y in t.subs ensures Covered(t, y) { Carry(s, t, y); }
    PatchJob(s, t, r);
  }

  /** The connection of the recovery is gone: the failure is kept for the end of the restore. */
  lemma AggregateKeeps(s: State, j: nat, x: nat, r: nat, why: Fault)
    requires Inv(s) && j in s.jobs && s.jobs[j] == Activation(x, FromRecovery(r), Rejected(why))
    requires r in s.jobs && s.jobs[r].Recovery? && s.jobs[r].phase.Restoring? && s.active != Some(s.jobs[r].phase.gen)
    ensures Inv(SetJob(Finish(s, j), r, Recovery(Restoring(s.jobs[r].phase.gen, true))))
  {
    hide Inv;
    LostFinishKeeps(s, j, x, r, why);
    MarkFailed(Finish(s, j), r);
  }

  lemma RetryThenFinish(s: State, x: nat, g: nat, j: nat)
    requires Inv(s) && s.active == Some(g) && j in s.jobs && s.jobs[j].Activation? && s.jobs[j].stage.Rejected? && s.jobs[j].sub == x
    ensures Inv(Finish(ScheduleRetry(s, x, g), j))
  {
    RetryKeeps(s, x, g, j);
    hide *;
    FinishRejected(ScheduleRetry(s, x, g), j, x);
  }

  lemma FinishRejected(s: State, j: nat, x: nat)
    requires Inv(s) && j in s.jobs && s.jobs[j].Activation? && s.jobs[j].stage.Rejected? && s.jobs[j].sub == x
    requires x in s.subs ==> Covered(Finish(s, j), x)
    ensures Inv(Finish(s, j))
  {
    FinishKeeps(s, j);
  }

  lemma ArmThenFinish(s: State, j: nat)
    requires Inv(s) && j in s.jobs && (s.jobs[j].Activation? ==> !Owner(s.jobs[j].stage))
    requires s.jobs[j].Recovery? && s.jobs[j].phase.Restoring? ==> !Outstanding(s, j)
    ensures Inv(Finish(ArmReconnect(s), j))
  {
    Arm(s, true, s.connecting, s.beating, s.resyncs);
    FinishKeeps(ArmReconnect(s), j);
  }

  // ----- The body of an activation ---------------------------------------------------------------

  /** What an activation about to begin may rely on. */
  lemma BeginFacts(s: State, j: nat, x: nat, origin: Origin, g: nat)
    requires Inv(s) && j in s.jobs && s.jobs[j] == Activation(x, origin, Begin(g))
    ensures s.active == Some(g) || s.active.None?
    ensures x in s.subs ==> Inv(ClearRetry(s, x))
  {
    assert JobOk(s, j);
    if x in s.subs {
      assert Promising(ClearRetry(s, x).jobs[j], x);
      PatchSub(s, x, s.subs[x].(retry := None));
    }
  }

  lemma BeginKeeps(s: State, j: nat, x: nat, origin: Origin, g: nat, throws: bool)
    requires Inv(s) && j in s.jobs && s.jobs[j] == Activation(x, origin, Begin(g))
    ensures Inv(BeginActivation(s, j, x, origin, g, throws))
  {
    hide Inv;
    BeginFacts(s, j, x, origin, g);
    if x !in s.subs || LiveOn(s.subs[x], g) { SkipKeeps(s, j, x, origin, g); }
    else if OpeningOn(s.subs[x], g) { JoinKeeps(s, j, x, origin, g, throws); }
    else if s.active != Some(g) { OwnFailureKeeps(ClearRetry(s, x), j, x, origin, g, ConnectionLost); }
    else if throws { OwnLossKeeps(ClearRetry(s, x), j, x, origin, g); }
    else { OwnKeeps(ClearRetry(s, x), j, x, origin, g); }
  }

  lemma OwnLossKeeps(s: State, j: nat, x: nat, origin: Origin, g: nat)
    requires Inv(s) && j in s.jobs && s.jobs[j] == Activation(x, origin, Begin(g)) && s.active == Some(g)
    ensures Inv(OwnFailure(Drop(Misfire(s, Pending(g, Subscribe(j))), g), j, x, origin, g, SendFailed))
  {
    hide Inv;
    MisfireKeeps(s, Pending(g, Subscribe(j)));
    DropKeeps(Misfire(s, Pending(g, Subscribe(j))), g);
    OwnFailureKeeps(Drop(Misfire(s, Pending(g, Subscribe(j))), g), j, x, origin, g, SendFailed);
  }

  /** Closed meanwhile, or live already: nothing to do. */
  lemma SkipKeeps(s: State, j: nat, x: nat, origin: Origin, g: nat)
    requires Inv(s) && j in s.jobs && s.jobs[j] == Activation(x, origin, Begin(g))
    requires x !in s.subs || LiveOn(s.subs[x], g)
    ensures Inv(Finish(s, j))
  {
    FinishKeeps(s, j);
  }

  /** Somebody else is already opening the subscription on this connection. */
  lemma JoinKeeps(s: State, j: nat, x: nat, origin: Origin, g: nat, throws: bool)
    requires Inv(s) && j in s.jobs && s.jobs[j] == Activation(x, origin, Begin(g))
    requires x in s.subs && !LiveOn(s.subs[x], g) && OpeningOn(s.subs[x], g)
    ensures Inv(BeginActivation(s, j, x, origin, g, throws))
  {
    var o := s.subs[x].opening.value.job;
    assert SubOk(s, x) && JobOk(s, o) && JobOk(s, j);
    if s.jobs[o].stage == Settled(g, None) { FinishKeeps(s, j); }
    else {
      var stage := if s.jobs[o].stage.Settled? then Rejected(s.jobs[o].stage.why.value) else Joined(g, o);
      var t := SetJob(s, j, Activation(x, origin, stage));
      JoinPatches(s, j, x, origin, g, o, stage);
      hide Inv, PatchesJob, NewJobOk, Covered, JobOk, SubOk;
      PatchJob(s, t, j);
    }
  }

  lemma JoinPatches(s: State, j: nat, x: nat, origin: Origin, g: nat, o: nat, stage: Stage)
    requires j in s.jobs && s.jobs[j] == Activation(x, origin, Begin(g)) && x in s.subs && JobOk(s, j)
    requires o in s.jobs && o != j && s.jobs[o].Activation? && s.jobs[o].sub == x && Owner(s.jobs[o].stage) && s.jobs[o].stage.gen == g
    requires s.jobs[o].stage != Settled(g, None)
    requires stage == if s.jobs[o].stage.Settled? then Rejected(s.jobs[o].stage.why.value) else Joined(g, o)
    ensures var t := SetJob(s, j, Activation(x, origin, stage)); PatchesJob(s, t, j) && NewJobOk(t, j) && Covered(t, x)
  {
    assert Promising(SetJob(s, j, Activation(x, origin, stage)).jobs[o], x);
  }

  // ----- Closing a subscription --------------------------------------------------------------------

  /** The unsubscribe is sent, the grant is handed back, and the subscription leaves the table. */
  lemma HandOverKeeps(s: State, x: nat, g: nat, stream: string)
    requires Inv(s) && s.active == Some(g) && x in s.subs
    requires LiveOn(s.subs[x], g) && s.subs[x].remote.value.stream == stream
    ensures Inv(HandOver(s, x, g, stream))
  {
    EnlistKeeps(s, Pending(g, Release(stream)));
    HandBackKeeps(Enlist(s, Pending(g, Release(stream))), x, s.callSeq, g, stream);
  }

  lemma HandBackKeeps(s: State, x: nat, u: nat, g: nat, stream: string)
    requires Inv(s) && s.active == Some(g) && x in s.subs && LiveOn(s.subs[x], g) && s.subs[x].remote.value.stream == stream
    requires u in s.issued && s.issued[u] == Pending(g, Release(stream))
    ensures Inv(s.(subs := s.subs - {x}, grants := HandBack(s.grants, x, u)))
  {
    var t := s.(subs := s.subs - {x}, grants := HandBack(s.grants, x, u));
    HandBackWired(s, x, u);
    HandBackGrants(s, x, u, g, stream);
    assert Carries(s, t);
    hide Wired, GrantsOk, AllCovered, Carries;
    CarryAll(s, t);
  }

  lemma HandBackWired(s: State, x: nat, u: nat)
    requires Wired(s)
    ensures Wired(s.(subs := s.subs - {x}, grants := HandBack(s.grants, x, u)))
  {
    var t := s.(subs := s.subs - {x}, grants := HandBack(s.grants, x, u));
    hide JobOk, OwnerOk, CallOk, SubOk;
    forall j | j in t.jobs ensures JobOk(t, j) && OwnerOk(t, j) { HandBackJob(s, x, u, j); }
    forall c | c in t.pending ensures CallOk(t, c) { HandBackCall(s, x, u, c); }
    forall y | y in t.subs ensures SubOk(t, y) { HandBackSub(s, x, u, y); }
  }

  lemma HandBackGrants(s: State, x: nat, u: nat, g: nat, stream: string)
    requires GrantsOk(s) && s.active == Some(g) && x in s.subs && LiveOn(s.subs[x], g) && s.subs[x].remote.value.stream == stream
    requires u in s.issued && s.issued[u] == Pending(g, Release(stream))
    ensures GrantsOk(s.(subs := s.subs - {x}, grants := HandBack(s.grants, x, u)))
  {
    var t := s.(subs := s.subs - {x}, grants := HandBack(s.grants, x, u));
    hide GrantOk;
    forall c | c in t.grants ensures GrantOk(t, c) { HandBackGrant(s, x, u, g, stream, c); }
  }

  lemma HandBackJob(s: State, x: nat, u: nat, j: nat)
    requires j in s.jobs && JobOk(s, j) && OwnerOk(s, j)
    ensures var t := s.(subs := s.subs - {x}, grants := HandBack(s.grants, x, u)); JobOk(t, j) && OwnerOk(t, j)
  {
  }

  lemma HandBackCall(s: State, x: nat, u: nat, c: nat)
    requires CallOk(s, c)
    ensures CallOk(s.(subs := s.subs - {x}, grants := HandBack(s.grants, x, u)), c)
  {
  }

  lemma HandBackSub(s: State, x: nat, u: nat, y: nat)
    requires y in s.subs && y != x && SubOk(s, y)
    ensures SubOk(s.(subs := s.subs - {x}, grants := HandBack(s.grants, x, u)), y)
  {
  }

  lemma HandBackGrant(s: State, x: nat, u: nat, g: nat, stream: string, c: nat)
    requires s.active == Some(g) && x in s.subs && LiveOn(s.subs[x], g) && s.subs[x].remote.value.stream == stream
    requires u in s.issued && s.issued[u] == Pending(g, Release(stream)) && GrantOk(s, c)
    ensures GrantOk(s.(subs := s.subs - {x}, grants := HandBack(s.grants, x, u)), c)
  {
  }

  /** The unsubscribe cannot be sent, so the connection is dropped. */
  lemma LoseKeeps(s: State, x: nat, p: Pending)
    requires Inv(s) && s.active == Some(p.gen)
    ensures Inv(Discard(Drop(Misfire(s, p), p.gen), x))
  {
    hide Inv;
    MisfireKeeps(s, p);
    DropKeeps(Misfire(s, p), p.gen);
    RemoveSub(Drop(Misfire(s, p), p.gen), x);
  }

  /** A subscription without a stream holds no grant. */
  lemma DiscardKeeps(s: State, x: nat)
    requires Inv(s) && x in s.subs && (s.active.None? || !LiveOn(s.subs[x], s.active.value))
    ensures Inv(Discard(s, x))
  {
    forall c | c in s.grants && s.grants[c].fate.Held? ensures s.grants[c].sub != x { assert GrantOk(s, c); }
    RemoveSub(s, x);
  }

  lemma CloseStreamKeeps(s: State, x: nat, throws: bool)
    requires Inv(s)
    ensures Inv(CloseStream(s, x, throws))
  {
    hide Inv;
    if x in s.subs {
      if s.active.None? || !LiveOn(s.subs[x], s.active.value) { DiscardKeeps(s, x); }
      else if throws { LoseKeeps(s, x, Pending(s.active.value, Release(s.subs[x].remote.value.stream))); }
      else { HandOverKeeps(s, x, s.active.value, s.subs[x].remote.value.stream); }
    }
  }

  // ----- Recovery -----------------------------------------------------------------------------------

  lemma RestoreOwners(s: State, r: nat, g: nat)
    requires Inv(s) && r in s.jobs && s.jobs[r] == Recovery(Connected(g))
    ensures OwnersOk(Restore(s, r, g))
  {
    forall k | k in s.jobs ensures JobOk(s, k) && OwnerOk(s, k) {}
  }

  lemma RestoreJob(s: State, r: nat, g: nat, k: nat)
    requires JobsOk(s) && SubsOk(s) && r in s.jobs && s.jobs[r] == Recovery(Connected(g)) && k in Restore(s, r, g).jobs
    ensures JobOk(Restore(s, r, g), k)
  {
    assert JobOk(s, r);
    if k in s.jobs {
      assert JobOk(s, k);
      if s.jobs[k].Activation? && s.jobs[k].stage.Joined? { assert JobOk(s, s.jobs[k].stage.opener); }
    }
    else { assert Recruits(s, k) && SubOk(s, k - s.jobSeq); }
  }

  lemma RestoreOld(s: State, r: nat, g: nat, k: nat)
    requires JobsOk(s) && k in s.jobs
    ensures k < s.jobSeq && k in Restore(s, r, g).jobs && (k != r ==> Restore(s, r, g).jobs[k] == s.jobs[k])
  {
    assert JobOk(s, k);
  }

  lemma RestoreJobs(s: State, r: nat, g: nat)
    requires Inv(s) && r in s.jobs && s.jobs[r] == Recovery(Connected(g))
    ensures JobsOk(Restore(s, r, g)) && OwnersOk(Restore(s, r, g))
    ensures forall k :: k in s.jobs ==> k < s.jobSeq && k in Restore(s, r, g).jobs && (k != r ==> Restore(s, r, g).jobs[k] == s.jobs[k])
  {
    RestoreOwners(s, r, g);
    forall k | k in s.jobs ensures k < s.jobSeq && k in Restore(s, r, g).jobs && (k != r ==> Restore(s, r, g).jobs[k] == s.jobs[k]) {
      RestoreOld(s, r, g, k);
    }
    hide OwnersOk, JobOk, Restore;
    forall k | k in Restore(s, r, g).jobs ensures JobOk(Restore(s, r, g), k) { RestoreJob(s, r, g, k); }
  }

  lemma RestoreKeeps(s: State, r: nat, g: nat)
    requires Inv(s) && r in s.jobs && s.jobs[r] == Recovery(Connected(g))
    ensures Inv(Restore(s, r, g))
  {
    var t := Restore(s, r, g);
    RestoreJobs(s, r, g);
    RestoreOnlyJobs(s, r, g);
    assert KeepsJobs(s, t, r);
    hide JobsOk, OwnersOk, KeepsJobs, SubsOk, AllCovered, CallsOk, GrantsOk;
    RestoreTables(s, t, r);
    RestoreAllCovered(s, r, g);
  }

  lemma RestoreTables(s: State, t: State, r: nat)
    requires CallsOk(s) && GrantsOk(s) && SubsOk(s) && KeepsJobs(s, t, r)
    ensures CallsOk(t) && GrantsOk(t) && SubsOk(t)
  {
    assert t == s.(jobs := t.jobs, jobSeq := t.jobSeq);
    hide CallOk, GrantOk, SubOk, KeepsJobs;
    forall c | c in t.pending ensures CallOk(t, c) { RestoreCall(s, t, r, c); }
    forall c | c in t.grants ensures GrantOk(t, c) { RestoreGrant(s, t, r, c); }
    forall y | y in t.subs ensures SubOk(t, y) { RestoreSub(s, t, r, y); }
  }

  lemma RestoreAllCovered(s: State, r: nat, g: nat)
    requires SubsOk(s)
    ensures AllCovered(Restore(s, r, g))
  {
    RestoreOnlyJobs(s, r, g);
    hide SubOk, Covered, Restore;
    forall y | y in s.subs ensures Covered(Restore(s, r, g), y) { RestoreCovers(s, r, g, y); }
  }

  lemma RestoreOnlyJobs(s: State, r: nat, g: nat)
    ensures var t := Restore(s, r, g); t == s.(jobs := t.jobs, jobSeq := t.jobSeq)
  {
  }

  /** `t` has all jobs of `s` but for recovery `r`, and otherwise differs in nothing but jobs. */
  ghost predicate KeepsJobs(s: State, t: State, r: nat) {
    t == s.(jobs := t.jobs, jobSeq := t.jobSeq) && r in s.jobs && s.jobs[r].Recovery? &&
    forall k :: k in s.jobs && k != r ==> k in t.jobs && t.jobs[k] == s.jobs[k]
  }

  lemma RestoreCall(s: State, t: State, r: nat, c: nat)
    requires KeepsJobs(s, t, r) && CallOk(s, c)
    ensures CallOk(t, c)
  {
  }

  lemma RestoreGrant(s: State, t: State, r: nat, c: nat)
    requires KeepsJobs(s, t, r) && GrantOk(s, c)
    ensures GrantOk(t, c)
  {
  }

  lemma RestoreSub(s: State, t: State, r: nat, y: nat)
    requires KeepsJobs(s, t, r) && y in s.subs && SubOk(s, y)
    ensures SubOk(t, y)
  {
  }

  lemma RestoreCovers(s: State, r: nat, g: nat, y: nat)
    requires y in s.subs && SubOk(s, y)
    ensures Covered(Restore(s, r, g), y)
  {
    assert Recruits(s, s.jobSeq + y) && Promising(Restore(s, r, g).jobs[s.jobSeq + y], y);
  }

  lemma RecoveryKeeps(s: State, r: nat, phase: Phase)
    requires Inv(s) && Ready(s, r) && s.jobs[r] == Recovery(phase)
    ensures Inv(ContinueRecovery(s, r, phase))
  {
    hide Inv;
    match phase
    case Connected(g) => RestoreKeeps(s, r, g);
    case Undialed => ArmThenFinish(s, r);
    case Restoring(g, failed) => if failed || s.active != Some(g) { ArmThenFinish(s, r); } else { ResyncKeeps(s, r); }
  }

  lemma ResyncKeeps(s: State, r: nat)
    requires Inv(s) && Ready(s, r) && s.jobs[r].Recovery? && s.jobs[r].phase.Restoring?
    ensures Inv(Finish(s, r).(resyncs := s.resyncs + 1))
  {
    FinishKeeps(s, r);
    var t := Finish(s, r);
    Arm(t, t.reconnectTimer, t.connecting, t.beating, s.resyncs + 1);
  }

  // ----- Dialling -------------------------------------------------------------------------------------

  /** With no connection and nothing runnable, every job waits for the dial: no old continuation is left. */
  lemma QuietIdle(s: State, j: nat)
    requires Wired(s) && Quiet(s) && s.active.None? && j in s.jobs
    ensures Idle(s.jobs[j])
  {
    assert !Ready(s, j) && JobOk(s, j);
    match s.jobs[j]
    case Activation(_, origin, stage) => ActivationIdle(s, j);
    case Recovery(phase) =>
      if phase.Restoring? {
        var k :| k in s.jobs && s.jobs[k].Activation? && s.jobs[k].origin == FromRecovery(j);
        assert JobOk(s, k) && !Ready(s, k);
        ActivationIdle(s, k);
      }
    case _ =>
  }

  lemma ActivationIdle(s: State, j: nat)
    requires Wired(s) && Quiet(s) && s.active.None? && j in s.jobs && s.jobs[j].Activation?
    ensures Idle(s.jobs[j])
  {
    forall c ensures c !in s.pending { assert c in s.pending ==> CallOk(s, c); }
    forall k | k in s.jobs && s.jobs[k].Activation? ensures !Owner(s.jobs[k].stage) { assert !Ready(s, k) && JobOk(s, k); }
    assert !Ready(s, j) && JobOk(s, j);
  }

  lemma OpenedKeeps(s: State)
    requires Inv(s) && s.connecting && Quiet(s)
    ensures Inv(SocketOpened(s))
  {
    var t := SocketOpened(s);
    assert s.active.None?;
    forall j | j in s.jobs ensures Idle(s.jobs[j]) { QuietIdle(s, j); }
    hide JobOk, OwnerOk, CallOk, SubOk, GrantOk, Idle;
    forall j | j in t.jobs ensures JobOk(t, j) && OwnerOk(t, j) { OpenedJob(s, j); }
    forall c ensures c !in s.pending && c !in s.grants { NothingOpen(s, c); }
    forall y | y in t.subs ensures SubOk(t, y) { OpenedSub(s, y); }
    OpenedCarries(s);
    hide AllCovered, Carries;
    CarryAll(s, t);
  }

  lemma OpenedJob(s: State, j: nat)
    requires j in s.jobs && JobOk(s, j) && Idle(s.jobs[j])
    ensures JobOk(SocketOpened(s), j) && OwnerOk(SocketOpened(s), j)
  {
  }

  lemma OpenedSub(s: State, y: nat)
    requires y in s.subs && SubOk(s, y) && s.active.None? && forall j :: j in s.jobs ==> Idle(s.jobs[j])
    ensures SubOk(SocketOpened(s), y)
  {
  }

  lemma OpenedCarries(s: State)
    ensures Carries(s, SocketOpened(s))
  {
  }

  lemma DialFailsKeeps(s: State)
    requires Inv(s) && s.connecting
    ensures Inv(DialFails(s))
  {
    var t := DialFails(s);
    assert s.active.None?;
    hide JobOk, OwnerOk, CallOk, SubOk, GrantOk;
    forall j | j in t.jobs ensures JobOk(t, j) && OwnerOk(t, j) { DialFailsJob(s, j); }
    forall c ensures c !in s.pending && c !in s.grants { NothingOpen(s, c); }
    forall y | y in t.subs ensures SubOk(t, y) { DialFailsSub(s, y); }
    DialFailsCarries(s);
    hide AllCovered, Carries;
    CarryAll(s, t);
  }

  lemma DialFailsJob(s: State, j: nat)
    requires j in s.jobs && j in DialFails(s).jobs && JobOk(s, j) && OwnerOk(s, j) && s.active.None?
    ensures JobOk(DialFails(s), j) && OwnerOk(DialFails(s), j)
  {
  }

  lemma DialFailsSub(s: State, y: nat)
    requires y in s.subs && SubOk(s, y)
    ensures SubOk(DialFails(s), y)
  {
  }

  lemma DialFailsCarries(s: State)
    ensures Carries(s, DialFails(s))
  {
  }

  // ----- Timers ------------------------------------------------------------------------------------------

  /** The reconnect timer may be spent once a recovery is under way and no continuation relies on it. */
  lemma Disarm(s: State)
    requires Inv(s) && Restorable(s) && (s.active.None? ==> forall j :: j in s.jobs ==> Idle(s.jobs[j]))
    ensures Inv(s.(reconnectTimer := false))
  {
    var t := s.(reconnectTimer := false);
    assert Restorable(t);
    forall j | j in t.jobs ensures JobOk(t, j) && OwnerOk(t, j) { assert JobOk(s, j) && OwnerOk(s, j); }
    forall c | c in t.pending ensures CallOk(t, c) { assert CallOk(s, c); }
    forall c | c in t.grants ensures GrantOk(t, c) { assert GrantOk(s, c); }
    forall y | y in t.subs ensures SubOk(t, y) { assert SubOk(s, y); }
  }

  lemma AllIdle(s: State)
    requires Inv(s) && Quiet(s) && s.active.None?
    ensures forall j :: j in s.jobs ==> Idle(s.jobs[j])
  {
    forall j | j in s.jobs ensures Idle(s.jobs[j]) { QuietIdle(s, j); }
  }

  lemma ReconnectKeeps(s: State)
    requires Inv(s) && s.reconnectTimer && Quiet(s)
    ensures Inv(ReconnectFires(s))
  {
    hide Inv;
    if s.active.None? { AllIdle(s); }
    EnsureKeeps(s, Recovery(Dialing));
    var t := EnsureConn(s, Recovery(Dialing));
    assert t.jobs[s.jobSeq].Recovery?;
    Disarm(t);
  }

  lemma RetryTimerKeeps(s: State, x: nat)
    requires Inv(s)
    ensures Inv(RetryFires(s, x))
  {
    if x in s.subs && s.subs[x].retry.Some? {
      assert SubOk(s, x);
      var g := s.subs[x].retry.value;
      var t := Spawn(s, Activation(x, FromRetry(g), Begin(g)));
      AddJob(s, Activation(x, FromRetry(g), Begin(g)));
      assert Promising(ClearRetry(t, x).jobs[s.jobSeq], x);
      PatchSub(t, x, t.subs[x].(retry := None));
    }
  }

  lemma HeartbeatKeeps(s: State, g: nat, throws: bool)
    requires Inv(s)
    ensures Inv(HeartbeatTick(s, g, throws))
  {
    hide Inv;
    if s.active == Some(g) && !s.beating {
      SendKeeps(s, g, Heartbeat, throws);
      BeatingKeeps(SendCall(s, g, Heartbeat, throws).state);
    }
  }

  lemma BeatingKeeps(t: State)
    requires Inv(t)
    ensures Inv(t.(beating := true))
  {
    Arm(t, t.reconnectTimer, t.connecting, true, t.resyncs);
  }

  // ----- All events -----------------------------------------------------------------------------------------

  lemma MicrotaskKeeps(s: State, j: nat, throws: bool)
    requires Inv(s) && Ready(s, j)
    ensures Inv(RunMicrotask(s, j, throws))
  {
    match s.jobs[j]
    case Activation(x, origin, Begin(g)) => BeginKeeps(s, j, x, origin, g, throws);
    case Activation(x, origin, Granted(g, c, result)) => AcceptKeeps(s, j, x, origin, g, c, result, throws);
    case Activation(x, origin, Settled(g, why)) => CloseKeeps(s, j, x, origin, g, why);
    case Activation(x, origin, Rejected(why)) => RecoilKeeps(s, j, x, origin, why);
    case Rpc(Some(g)) => FinishKeeps(s, j); SendKeeps(Finish(s, j), g, Request, throws);
    case Recovery(phase) => RecoveryKeeps(s, j, phase);
    case Beat(g) => FinishKeeps(s, j); DropKeeps(Finish(s, j), g);
  }

  lemma StepKeeps(s: State, e: Event)
    requires Inv(s) && Enabled(s, e)
    ensures Inv(Step(s, e))
  {
    match e
    case UserStream => StreamKeeps(s);
    case UserClose(x, throws) => CloseStreamKeeps(s, x, throws);
    case UserCall => EnsureKeeps(s, Rpc(None));
    case Opened => OpenedKeeps(s);
    case DialError => DialFailsKeeps(s);
    case Closed(g) => DropKeeps(s, g);
    case Frame(g, c, reply) => ReplyKeeps(s, g, c, reply);
    case CallTimer(c) => ExpireKeeps(s, c);
    case HeartbeatTimer(g, throws) => HeartbeatKeeps(s, g, throws);
    case ReconnectTimer => ReconnectKeeps(s);
    case RetryTimer(x) => RetryTimerKeeps(s, x);
    case Microtask(j, throws) => MicrotaskKeeps(s, j, throws);
  }
}
