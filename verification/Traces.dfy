/** Sequences of calls that all succeed, whatever the calls and states are. */
module Traces {
  import opened Basics

  /** The state after the calls, up to the first that is refused. */
  function Exec<S, C>(step: (S, C) -> Option<S>, s: S, calls: seq<C>): S
    decreases |calls|
  {
    if calls == [] || step(s, calls[0]).None? then s else Exec(step, step(s, calls[0]).value, calls[1..])
  }

  /** Every call succeeds, from one state to the next, and every state is good. */
  ghost predicate Linked<S, C>(step: (S, C) -> Option<S>, good: S -> bool, states: seq<S>, calls: seq<C>) {
    && |states| == |calls| + 1 && (forall i :: 0 <= i < |states| ==> good(states[i]))
    && forall i :: 0 <= i < |calls| ==> step(states[i], calls[i]) == Some(states[i + 1])
  }

  /** There is such a sequence of states from `s` to `t`. */
  ghost predicate Leads<S(!new), C>(step: (S, C) -> Option<S>, good: S -> bool, s: S, calls: seq<C>, t: S) {
    exists states :: Linked(step, good, states, calls) && states[0] == s && states[|calls|] == t
  }

  lemma {:induction false} Stay<S(!new), C>(step: (S, C) -> Option<S>, good: S -> bool, s: S)
    requires good(s)
    ensures Leads(step, good, s, [], s)
  {
    assert Linked(step, good, [s], []);
  }

  lemma {:induction false} Go<S(!new), C>(step: (S, C) -> Option<S>, good: S -> bool, s: S, call: C, t: S, rest: seq<C>,
      u: S)
    requires good(s) && step(s, call) == Some(t) && Leads(step, good, t, rest, u)
    ensures Leads(step, good, s, [call] + rest, u)
  {
    var states :| Linked(step, good, states, rest) && states[0] == t && states[|rest|] == u;
    var more, calls := [s] + states, [call] + rest;
    forall i | 0 <= i < |calls| ensures step(more[i], calls[i]) == Some(more[i + 1]) {
      if i > 0 {
        assert calls[i] == rest[i - 1] && more[i] == states[i - 1];
      }
    }
    assert Linked(step, good, more, calls);
  }

  lemma {:induction false} Tail<S, C>(step: (S, C) -> Option<S>, good: S -> bool, states: seq<S>, calls: seq<C>)
    requires Linked(step, good, states, calls) && calls != []
    ensures good(states[0]) && step(states[0], calls[0]) == Some(states[1])
    ensures Linked(step, good, states[1..], calls[1..])
  {
    var rest, more := states[1..], calls[1..];
    forall i | 0 <= i < |more| ensures step(rest[i], more[i]) == Some(rest[i + 1]) {
      assert more[i] == calls[i + 1] && rest[i] == states[i + 1];
    }
  }

  lemma {:induction false} First<S(!new), C>(step: (S, C) -> Option<S>, good: S -> bool, s: S, calls: seq<C>,
      t: S) returns (next: S)
    requires Leads(step, good, s, calls, t) && calls != []
    ensures good(s) && step(s, calls[0]) == Some(next) && Leads(step, good, next, calls[1..], t)
  {
    var states :| Linked(step, good, states, calls) && states[0] == s && states[|calls|] == t;
    Tail(step, good, states, calls);
    next := states[1];
  }

  lemma {:induction false} Join<S(!new), C>(step: (S, C) -> Option<S>, good: S -> bool, s: S, a: seq<C>, t: S,
      b: seq<C>, u: S)
    requires Leads(step, good, s, a, t) && Leads(step, good, t, b, u)
    ensures Leads(step, good, s, a + b, u)
    decreases |a|
  {
    if a == [] {
      assert a + b == b;
    } else {
      var next := First(step, good, s, a, t);
      Join(step, good, next, a[1..], t, b, u);
      Go(step, good, s, a[0], next, a[1..] + b, u);
      assert a + b == [a[0]] + (a[1..] + b);
    }
  }

  lemma {:induction false} ExecIs<S, C>(step: (S, C) -> Option<S>, good: S -> bool, states: seq<S>, calls: seq<C>,
      n: nat)
    requires Linked(step, good, states, calls) && n <= |calls|
    ensures Exec(step, states[0], calls[..n]) == states[n]
    decreases n
  {
    if n > 0 {
      Tail(step, good, states, calls);
      ExecIs(step, good, states[1..], calls[1..], n - 1);
      assert calls[..n][0] == calls[0] && calls[..n][1..] == calls[1..][..n - 1];
    }
  }

  /** A prefix of the calls leaves a good state, and all of them the last one. */
  lemma {:induction false} LeadsPrefix<S(!new), C>(step: (S, C) -> Option<S>, good: S -> bool, s: S, calls: seq<C>,
      t: S, n: nat)
    requires Leads(step, good, s, calls, t) && n <= |calls|
    ensures good(Exec(step, s, calls[..n])) && (n == |calls| ==> Exec(step, s, calls[..n]) == t)
  {
    var states :| Linked(step, good, states, calls) && states[0] == s && states[|calls|] == t;
    ExecIs(step, good, states, calls, n);
  }

  lemma {:induction false} EndIsGood<S(!new), C>(step: (S, C) -> Option<S>, good: S -> bool, s: S, calls: seq<C>, t: S)
    ensures Leads(step, good, s, calls, t) ==> good(t)
  {
  }

  /** The states between may be required to be less. */
  lemma {:induction false} Weaken<S(!new), C>(step: (S, C) -> Option<S>, good: S -> bool, fair: S -> bool, s: S,
      calls: seq<C>, t: S)
    requires Leads(step, good, s, calls, t) && forall x :: good(x) ==> fair(x)
    ensures Leads(step, fair, s, calls, t)
  {
    var states :| Linked(step, good, states, calls) && states[0] == s && states[|calls|] == t;
    assert Linked(step, fair, states, calls);
  }

  function Cut<C>(calls: seq<C>, n: nat): seq<C> { if n <= |calls| then calls[..n] else calls }

  lemma {:induction false} ExecJoin<S(!new), C>(step: (S, C) -> Option<S>, good: S -> bool, s: S, a: seq<C>, t: S,
      b: seq<C>)
    requires Leads(step, good, s, a, t)
    ensures Exec(step, s, a + b) == Exec(step, t, b)
    decreases |a|
  {
    if a == [] {
      assert a + b == b;
    } else {
      var next := First(step, good, s, a, t);
      ExecJoin(step, good, next, a[1..], t, b);
      assert (a + b)[0] == a[0] && (a + b)[1..] == a[1..] + b;
    }
  }

  lemma {:induction false} CutJoin<S(!new), C>(step: (S, C) -> Option<S>, good: S -> bool, s: S, a: seq<C>, t: S,
      b: seq<C>, n: nat)
    requires Leads(step, good, s, a, t)
    ensures Exec(step, s, Cut(a + b, n)) ==
      if n <= |a| then Exec(step, s, Cut(a, n)) else Exec(step, t, Cut(b, n - |a|))
  {
    if n <= |a| {
      assert Cut(a + b, n) == Cut(a, n);
    } else {
      assert Cut(a + b, n) == a + Cut(b, n - |a|);
      ExecJoin(step, good, s, a, t, Cut(b, n - |a|));
    }
  }

  /** One call after the other, as far as the count allows. */
  method Perform<S(!new), C>(step: (S, C) -> Option<S>, ghost good: S -> bool, s: S, calls: seq<C>, left: nat,
      ghost end: S) returns (t: S)
    requires Leads(step, good, s, calls, end)
    ensures t == Exec(step, s, Cut(calls, left)) && (left >= |calls| ==> t == end)
  {
    ghost var states :| Linked(step, good, states, calls) && states[0] == s && states[|calls|] == end;
    t := s;
    var n := 0;
    while n < |calls| && n < left
      invariant n <= |calls| && n <= left && t == states[n]
    {
      assert step(states[n], calls[n]) == Some(states[n + 1]);
      t, n := step(t, calls[n]).value, n + 1;
    }
    ExecIs(step, good, states, calls, n);
    assert Cut(calls, left) == calls[..n];
  }
}
