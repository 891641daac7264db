/**
 * A JavaScript promise as the client uses it: an executor or a callback calls
 * `resolve` and `reject` any number of times, and only the first of those calls
 * decides the promise. The client relies on this, since it never returns after
 * calling `reject` (client/src/app.ts lines 22, 26, 44 and 52) and always goes on
 * to a call of `resolve` or to code that throws.
 */
module Promises {

  datatype PromiseState<T, E> = Pending | Fulfilled(value: T) | Rejected(reason: E)
  {
    predicate Settled() {
      !Pending?
    }

    /** The state after `resolve(v)`. */
    function Resolve(v: T): PromiseState<T, E> {
      if Pending? then Fulfilled(v) else this
    }

    /** The state after `reject(e)`. */
    function Reject(e: E): PromiseState<T, E> {
      if Pending? then Rejected(e) else this
    }
  }

  /** One call of a promise's settling functions. */
  datatype Call<T, E> = ResolveWith(value: T) | RejectWith(reason: E)

  function Step<T, E>(s: PromiseState<T, E>, c: Call<T, E>): PromiseState<T, E> {
    match c
    case ResolveWith(v) => s.Resolve(v)
    case RejectWith(e) => s.Reject(e)
  }

  /** The state reached from `s` by the calls `calls`, made in order. */
  function Apply<T, E>(s: PromiseState<T, E>, calls: seq<Call<T, E>>): PromiseState<T, E>
    decreases |calls|
  {
    if calls == [] then s else Apply(Step(s, calls[0]), calls[1..])
  }

  /** What the first call alone would make of a pending promise. */
  function Settlement<T, E>(c: Call<T, E>): PromiseState<T, E> {
    match c
    case ResolveWith(v) => Fulfilled(v)
    case RejectWith(e) => Rejected(e)
  }

  /** A settled promise ignores every later call. */
  lemma {:induction false} SettledIsFinal<T, E>(s: PromiseState<T, E>, calls: seq<Call<T, E>>)
    requires s.Settled()
    ensures Apply(s, calls) == s
    decreases |calls|
  {
    if calls != [] {
      assert Step(s, calls[0]) == s;
      SettledIsFinal(s, calls[1..]);
    }
  }

  /** The first call decides the promise, whatever the calls after it are. */
  lemma {:induction false} FirstCallWins<T, E>(calls: seq<Call<T, E>>)
    requires calls != []
    ensures Apply(Pending, calls) == Settlement(calls[0])
  {
    SettledIsFinal(Step(Pending, calls[0]), calls[1..]);
  }

  /** Without any call a promise stays pending; `await` on it never resumes. */
  lemma {:induction false} NoCallLeavesPending<T, E>(calls: seq<Call<T, E>>)
    ensures Apply(Pending, calls).Pending? <==> calls == []
  {
    if calls != [] {
      FirstCallWins(calls);
    }
  }

  /** Calls made one after another compose. */
  lemma {:induction false} ApplyAppend<T, E>(s: PromiseState<T, E>, calls: seq<Call<T, E>>, c: Call<T, E>)
    ensures Apply(s, calls + [c]) == Step(Apply(s, calls), c)
    decreases |calls|
  {
    if calls == [] {
      assert calls + [c] == [c];
    } else {
      assert (calls + [c])[1..] == calls[1..] + [c];
      ApplyAppend(Step(s, calls[0]), calls[1..], c);
    }
  }

  /**
   * The promise object. `calls` records every `resolve`/`reject` made on it, and
   * the state is always what those calls, in order, make of a pending promise.
   */
  class Promise<T, E> {
    var state: PromiseState<T, E>
    ghost var calls: seq<Call<T, E>>

    ghost predicate Valid()
      reads this
    {
      state == Apply(Pending, calls)
    }

    constructor ()
      ensures Valid() && calls == [] && state == Pending
    {
      state := Pending;
      calls := [];
    }

    method Resolve(v: T)
      requires Valid()
      modifies this
      ensures Valid() && calls == old(calls) + [ResolveWith(v)]
      ensures state == old(state).Resolve(v)
    {
      ApplyAppend(Pending, calls, ResolveWith(v));
      state := state.Resolve(v);
      calls := calls + [ResolveWith(v)];
    }

    method Reject(e: E)
      requires Valid()
      modifies this
      ensures Valid() && calls == old(calls) + [RejectWith(e)]
      ensures state == old(state).Reject(e)
    {
      ApplyAppend(Pending, calls, RejectWith(e));
      state := state.Reject(e);
      calls := calls + [RejectWith(e)];
    }
  }
}
