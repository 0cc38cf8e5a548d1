/** Specification functions for the list builder: what a run of push_back
    calls leaves behind, what a stateful nullary generator produces when it
    is called again and again, what a push-style adapter holds after one push
    per element, and what a fixed-capacity array holds after conversion. */
module ListSpec {

  /** The elements that `n` successive push_back calls of the same value `u` append. */
  function Repeated<T>(u: T, n: nat): (r: seq<T>)
    ensures |r| == n
    ensures forall i :: 0 <= i < n ==> r[i] == u
  {
    if n == 0 then [] else Repeated(u, n - 1) + [u]
  }

  /** Repeating `m` times and then `n` times appends what repeating `m + n` times does. */
  lemma RepeatedAdd<T>(u: T, m: nat, n: nat)
    ensures Repeated(u, m) + Repeated(u, n) == Repeated(u, m + n)
  {
    // Both sides have length m + n and hold `u` everywhere.
  }

  /** A nullary generator with internal state: `next(s)` is the value that one
      call returns, paired with the generator's state after that call.
      `Run(next, s, n)` is what `n` successive calls starting in state `s`
      return, in call order, paired with the state they leave. */
  function Run<S, T>(next: S -> (T, S), s: S, n: nat): (r: (seq<T>, S))
    ensures |r.0| == n
  {
    if n == 0 then ([], s)
    else
      var (vs, s') := Run(next, s, n - 1);
      var (v, s'') := next(s');
      (vs + [v], s'')
  }

  /** Slot `i` holds the value of the (i+1)-th call, made in the state that the
      first `i` calls left: the generator is called anew for every slot. */
  lemma {:induction false} RunAt<S, T>(next: S -> (T, S), s: S, n: nat, i: nat)
    requires i < n
    ensures Run(next, s, n).0[i] == next(Run(next, s, i).1).0
  {
    if i < n - 1 {
      RunAt(next, s, n - 1, i);
    }
  }

  /** Fewer calls produce a prefix of what more calls produce. */
  lemma {:induction false} RunPrefix<S, T>(next: S -> (T, S), s: S, m: nat, n: nat)
    requires m <= n
    ensures Run(next, s, m).0 == Run(next, s, n).0[..m]
  {
    if m < n {
      RunPrefix(next, s, m, n - 1);
      assert Run(next, s, n).0[..n - 1] == Run(next, s, n - 1).0;
    }
  }

  /** A generator whose state never changes produces `n` copies of its one value,
      exactly as repeating that value would. */
  lemma {:induction false} RunStateless<S, T>(next: S -> (T, S), s: S, n: nat)
    requires forall st :: next(st).1 == st
    ensures Run(next, s, n) == (Repeated(next(s).0, n), s)
  {
    if n > 0 {
      RunStateless(next, s, n - 1);
    }
  }

  /** A generator that returns its counter and then increments it. */
  function Counter(c: int): (r: (int, int))
  {
    (c, c + 1)
  }

  /** Called `n` times from `c`, the counter yields c, c+1, ..., c+n-1 and ends at c+n. */
  lemma {:induction false} CounterRun(c: int, n: nat)
    ensures Run(Counter, c, n).1 == c + n
    ensures forall i :: 0 <= i < n ==> Run(Counter, c, n).0[i] == c + i
  {
    if n > 0 {
      CounterRun(c, n - 1);
    }
  }

  /** The adapter obtained from `a` by calling `push` once per element of `s`,
      first element first. */
  function PushAll<A, T>(push: (A, T) -> A, a: A, s: seq<T>): (r: A)
    decreases |s|
  {
    if s == [] then a else push(PushAll(push, a, s[..|s| - 1]), s[|s| - 1])
  }

  /** Pushing `s + t` is pushing `s` and then pushing `t`. */
  lemma {:induction false} PushAllAppend<A, T>(push: (A, T) -> A, a: A, s: seq<T>, t: seq<T>)
    ensures PushAll(push, a, s + t) == PushAll(push, PushAll(push, a, s), t)
    decreases |t|
  {
    if t == [] {
      assert s + t == s;
    } else {
      var t', x := t[..|t| - 1], t[|t| - 1];
      assert (s + t)[..|s + t| - 1] == s + t';
      PushAllAppend(push, a, s, t');
    }
  }

  /** The push of a back-inserting adapter (a stack or a queue over a sequence). */
  function PushBack<T>(q: seq<T>, x: T): (r: seq<T>)
  {
    q + [x]
  }

  /** A back-inserting adapter receives exactly the elements, in order. */
  lemma {:induction false} PushAllRecords<T>(q: seq<T>, s: seq<T>)
    ensures PushAll(PushBack, q, s) == q + s
    decreases |s|
  {
    if s != [] {
      PushAllRecords(q, s[..|s| - 1]);
      assert q + s == (q + s[..|s| - 1]) + [s[|s| - 1]];
    }
  }

  /** The push of an adapter that only counts how often it is pushed to. */
  function Tally<T>(n: nat, x: T): (r: nat)
  {
    n + 1
  }

  /** Push is called exactly once per element. */
  lemma {:induction false} PushAllTally<T>(n: nat, s: seq<T>)
    ensures PushAll(Tally, n, s) == n + |s|
    decreases |s|
  {
    if s != [] {
      PushAllTally(n, s[..|s| - 1]);
    }
  }

  /** The contents of a fixed-capacity array after conversion: the elements in
      the leading slots, `blank` in every slot after them. */
  function Padded<T>(s: seq<T>, capacity: nat, blank: T): (r: seq<T>)
    requires |s| <= capacity
    ensures |r| == capacity
    ensures r[..|s|] == s
    ensures forall i :: |s| <= i < capacity ==> r[i] == blank
  {
    s + seq(capacity - |s|, _ => blank)
  }
}
