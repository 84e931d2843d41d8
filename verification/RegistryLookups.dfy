/** What a call finds when the runtime it asks for is there. */
module RegistryLookups {
  import opened Options
  import opened Registry

  /** The runtime with this number is registered for the directory that is at `path` now. */
  predicate Registered(s: State, path: Path, runtime: nat) {
    path in s.identities && path in s.runtimes && s.runtimes[path] == runtime &&
    runtime < |s.built| && s.built[runtime].identity == s.identities[path]
  }

  /** The state with one more call. */
  function Plus(s: State, pc: Pc): State {
    s.(threads := s.threads + [pc])
  }

  lemma PlusMoves(s: State, was: Pc, pc: Pc)
    ensures Moves(Plus(s, was), |s.threads|, pc) == Plus(s, pc)
  {
    assert (s.threads + [was])[|s.threads| := pc] == s.threads + [pc];
  }

  lemma RunTwo(canon: Path -> Path, s: State, a: Event, b: Event)
    requires Enabled(canon, s, a) && Enabled(canon, Step(canon, s, a), b)
    ensures Legal(canon, s, [a, b]) && Run(canon, s, [a, b]) == Step(canon, Step(canon, s, a), b)
  {
    hide Step, Enabled;
    var t := Step(canon, s, a);
    assert [a, b][1..] == [b] && [b][1..] == [];
    assert Legal(canon, Step(canon, t, b), []) && Legal(canon, t, [b]) && Run(canon, t, [b]) == Step(canon, t, b);
  }

  lemma FirstLook(canon: Path -> Path, s: State, root: Path)
    requires root in s.identities
    ensures var hit := Hit(s.runtimes, s.built, root, s.identities[root]);
            Enabled(canon, Plus(s, Probing(root)), Probe(|s.threads|)) &&
            Step(canon, Plus(s, Probing(root)), Probe(|s.threads|)) == Plus(s, if hit.Some? then Returned(root, hit.value) else Normalizing(root))
  {
    var hit := Hit(s.runtimes, s.built, root, s.identities[root]);
    PlusMoves(s, Probing(root), if hit.Some? then Returned(root, hit.value) else Normalizing(root));
    hide Moves, Hit;
  }

  lemma SecondLook(canon: Path -> Path, s: State, c: Path)
    requires c in s.identities
    ensures var hit := Hit(s.runtimes, s.built, c, s.identities[c]);
            Enabled(canon, Plus(s, Checking(c)), Check(|s.threads|)) &&
            Step(canon, Plus(s, Checking(c)), Check(|s.threads|)) == Plus(s, if hit.Some? then Returned(c, hit.value) else Building(c))
  {
    var hit := Hit(s.runtimes, s.built, c, s.identities[c]);
    PlusMoves(s, Checking(c), if hit.Some? then Returned(c, hit.value) else Building(c));
    hide Moves, Hit;
  }

  /** A call for a registered root returns its runtime at the first look: nothing is built, and the registry stays as it is. */
  lemma KnownRoot(canon: Path -> Path, s: State, root: Path, runtime: nat)
    requires Registered(s, root, runtime)
    ensures var events := [Call(root), Probe(|s.threads|)];
            Legal(canon, s, events) && Run(canon, s, events) == s.(threads := s.threads + [Returned(root, runtime)])
  {
    FirstLook(canon, s, root);
    assert Step(canon, s, Call(root)) == Plus(s, Probing(root));
    hide Step, Legal, Run;
    RunTwo(canon, s, Call(root), Probe(|s.threads|));
  }

  lemma Named(canon: Path -> Path, s: State, alias: Path)
    ensures var e := Normalize(|s.threads|, Some(canon(alias)));
            Enabled(canon, Plus(s, Normalizing(alias)), e) && Step(canon, Plus(s, Normalizing(alias)), e) == Plus(s, Checking(canon(alias)))
  {
    PlusMoves(s, Normalizing(alias), Checking(canon(alias)));
    hide Moves;
  }

  /** A call for a registered directory under another name does so at the second look. */
  lemma KnownAlias(canon: Path -> Path, s: State, alias: Path, runtime: nat)
    requires alias in s.identities && alias !in s.runtimes && Registered(s, canon(alias), runtime)
    ensures var (t, c) := (|s.threads|, canon(alias));
            var (first, second) := ([Call(alias), Probe(t)], [Normalize(t, Some(c)), Check(t)]);
            Legal(canon, s, first) && Legal(canon, Run(canon, s, first), second) &&
            Run(canon, Run(canon, s, first), second) == s.(threads := s.threads + [Returned(c, runtime)])
  {
    var t, c := |s.threads|, canon(alias);
    FirstLook(canon, s, alias);
    SecondLook(canon, s, c);
    Named(canon, s, alias);
    assert Step(canon, s, Call(alias)) == Plus(s, Probing(alias));
    hide Step, Legal, Run;
    RunTwo(canon, s, Call(alias), Probe(t));
    RunTwo(canon, Plus(s, Normalizing(alias)), Normalize(t, Some(c)), Check(t));
  }
}
