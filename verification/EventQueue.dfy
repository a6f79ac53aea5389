/** The executor's event stream: a queue between callbacks and an asynchronous iterator, and the
    socket callbacks that feed and close it (packages/comfy-client/src/index.ts). */
module EventQueue {
  import opened Wrappers

  /** What a call of next() comes to. */
  datatype Outcome<T, E> = Value(value: T) | End | Error(error: E)

  /** A queue that takes values until it is closed, with an error or without. */
  datatype History<T, E> = History(accepted: seq<T>, closing: Option<Option<E>>)

  /** The k-th call of next(), counting from 0, gets the k-th accepted value; past those it ends the
      way the queue was closed, and waits as long as it was not. */
  function OutcomeOf<T, E>(h: History<T, E>, k: nat): Option<Outcome<T, E>> {
    if k < |h.accepted| then Some(Value(h.accepted[k]))
    else if h.closing.None? then None
    else if h.closing.value.Some? then Some(Error(h.closing.value.value))
    else Some(End)
  }

  function Pushed<T, E>(h: History<T, E>, value: T): History<T, E> {
    if h.closing.Some? then h else h.(accepted := h.accepted + [value])
  }

  function Closed<T, E>(h: History<T, E>, error: Option<E>): History<T, E> {
    if h.closing.Some? then h else h.(closing := Some(error))
  }

  class AsyncEventQueue<T, E> {
    var values: seq<T>
    // the numbers of the calls of next() that are waiting
    var waiters: seq<nat>
    var closed: bool
    var closeError: Option<E>
    var calls: nat
    var outcomes: map<nat, Outcome<T, E>>
    ghost var accepted: seq<T>

    ghost function Heard(): History<T, E>
      reads this
    {
      History(accepted, if closed then Some(closeError) else None)
    }

    /** There are never both buffered values and waiting calls. */
    predicate OneSided()
      reads this
    {
      values == [] || waiters == []
    }

    /** Buffered are the accepted values nobody asked for, waiting are the calls there is no value for,
        and every call has its outcome as soon as there is one. */
    ghost predicate Valid()
      reads this
    {
      && values == (if calls <= |accepted| then accepted[calls..] else [])
      && (closed || calls <= |accepted| ==> waiters == [])
      && (!closed && calls > |accepted| ==>
            |waiters| == calls - |accepted| && forall n :: 0 <= n < |waiters| ==> waiters[n] == |accepted| + n)
      && (forall k :: k in outcomes ==> k < calls)
      && (forall k: nat :: k < calls ==>
            (k in outcomes <==> OutcomeOf(Heard(), k).Some?)
              && (k in outcomes ==> Some(outcomes[k]) == OutcomeOf(Heard(), k)))
    }

    constructor ()
      ensures Valid() && Heard() == History([], None) && calls == 0
    {
      values, waiters, closed, closeError := [], [], false, None;
      calls, outcomes, accepted := 0, map[], [];
    }

    method Push(value: T)
      requires Valid()
      modifies this
      ensures Valid() && OneSided() && Heard() == Pushed(old(Heard()), value) && calls == old(calls)
    {
      if closed { return; }
      accepted := accepted + [value];
      if |waiters| > 0 {
        var waiter := waiters[0];
        waiters := waiters[1..];
        outcomes := outcomes[waiter := Value(value)];
        return;
      }
      values := values + [value];
    }

    method Close(error: Option<E>)
      requires Valid()
      modifies this
      ensures Valid() && OneSided() && Heard() == Closed(old(Heard()), error) && calls == old(calls)
    {
      if closed { return; }
      closed := true;
      closeError := error;
      var last: Outcome<T, E> := if error.Some? then Error(error.value) else End;
      ghost var all := waiters;
      ghost var done: nat := 0;
      while |waiters| > 0
        invariant closed && closeError == error && calls == old(calls) && accepted == old(accepted)
                  && values == old(values)
        invariant done <= |all| && waiters == all[done..]
        invariant forall k :: k in outcomes ==> k < calls
        invariant forall k: nat :: k < calls ==> (k in outcomes <==> k < |accepted| + done)
        invariant forall k :: k in outcomes ==> outcomes[k] == if k < |accepted| then Value(accepted[k]) else last
      {
        var waiter := waiters[0];
        assert waiter == |accepted| + done;
        waiters := waiters[1..];
        outcomes := outcomes[waiter := last];
        done := done + 1;
      }
    }

    /** Returns the number of this call; its outcome is there at once or comes later. */
    method Next() returns (call: nat)
      requires Valid()
      modifies this
      ensures Valid() && OneSided() && Heard() == old(Heard()) && call == old(calls) && calls == call + 1
    {
      call := calls;
      calls := calls + 1;
      if |values| > 0 {
        outcomes := outcomes[call := Value(values[0])];
        values := values[1..];
      } else if closed {
        outcomes := outcomes[call := if closeError.Some? then Error(closeError.value) else End];
      } else {
        waiters := waiters + [call];
      }
    }
  }
}
