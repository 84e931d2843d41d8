/** Reading off a list what its elements hold, and off a message log what its parts hold, in order. */
module Collecting {
  import opened Seqs
  import opened Messages

  function Collect<A, T>(read: A -> seq<T>, xs: seq<A>): seq<T> {
    if xs == [] then [] else Collect(read, xs[..|xs| - 1]) + read(xs[|xs| - 1])
  }

  /** What the first `n` parts of a message hold. */
  function OfParts<T>(read: (Message, nat) -> seq<T>, m: Message, n: nat): seq<T> {
    if n == 0 then [] else OfParts(read, m, n - 1) + read(m, n - 1)
  }

  function OfLog<T>(read: (Message, nat) -> seq<T>, ms: seq<Message>): seq<T> {
    if ms == [] then [] else var m := ms[|ms| - 1]; OfLog(read, ms[..|ms| - 1]) + OfParts(read, m, |m.parts|)
  }

  lemma {:induction false} CollectJoin<A, T>(read: A -> seq<T>, a: seq<A>, b: seq<A>)
    ensures Collect(read, a + b) == Collect(read, a) + Collect(read, b)
  {
    if b == [] { assert a + b == a; }
    else {
      var front, last := b[..|b| - 1], b[|b| - 1];
      CollectJoin(read, a, front);
      assert (a + b)[..|a + b| - 1] == a + front && (a + b)[|a + b| - 1] == last;
      assert Collect(read, a + b) == Collect(read, a + front) + read(last);
      hide *;
      CollectPush(read, front, last);
      assert front + [last] == b;
      Assoc(Collect(read, a), Collect(read, front), read(last));
    }
  }

  lemma CollectPush<A, T>(read: A -> seq<T>, xs: seq<A>, x: A)
    ensures Collect(read, xs + [x]) == Collect(read, xs) + read(x)
  {
    assert (xs + [x])[..|xs|] == xs;
  }

  lemma CollectNone<A, T>(read: A -> seq<T>, xs: seq<A>, x: A)
    requires read(x) == []
    ensures Collect(read, xs + [x]) == Collect(read, xs)
  {
    CollectPush(read, xs, x);
    Units(Collect(read, xs));
  }

  lemma CollectAt<A, T>(read: A -> seq<T>, xs: seq<A>, i: nat, x: A)
    requires i < |xs|
    ensures Collect(read, xs[i := x]) == Collect(read, xs[..i]) + read(x) + Collect(read, xs[i + 1..])
  {
    assert xs[i := x] == xs[..i] + [x] + xs[i + 1..];
    CollectJoin(read, xs[..i] + [x], xs[i + 1..]);
    CollectPush(read, xs[..i], x);
  }

  /** An element that holds the same may take the place of another. */
  lemma CollectSame<A, T>(read: A -> seq<T>, xs: seq<A>, i: nat, x: A)
    requires i < |xs| && read(x) == read(xs[i])
    ensures Collect(read, xs[i := x]) == Collect(read, xs)
  {
    CollectAt(read, xs, i, x);
    CollectAt(read, xs, i, xs[i]);
    assert xs[i := xs[i]] == xs;
  }

  /** The last element may grow. */
  lemma CollectGrow<A, T>(read: A -> seq<T>, xs: seq<A>, x: A, more: seq<T>)
    requires xs != [] && read(x) == read(xs[|xs| - 1]) + more
    ensures Collect(read, xs[|xs| - 1 := x]) == Collect(read, xs) + more
  {
    var front, last := xs[..|xs| - 1], xs[|xs| - 1];
    assert xs[|xs| - 1 := x] == front + [x] && xs == front + [last];
    CollectPush(read, front, x);
    CollectPush(read, front, last);
    Assoc(Collect(read, front), read(last), more);
  }

  lemma PartsNext<T>(read: (Message, nat) -> seq<T>, m: Message, n: nat)
    ensures OfParts(read, m, n) == if n == 0 then [] else OfParts(read, m, n - 1) + read(m, n - 1)
  {
  }

  lemma {:induction false} NothingInParts<T>(read: (Message, nat) -> seq<T>, m: Message, n: nat)
    requires forall k: nat :: k < n ==> read(m, k) == []
    ensures OfParts(read, m, n) == []
  {
    if n > 0 { NothingInParts(read, m, n - 1); }
  }
}
