/** The socket callbacks behind HttpWsComfyClient.events (packages/comfy-client/src/index.ts). */
module EventStream {
  import opened Wrappers
  import opened EventQueue

  type PromptId = nat

  /** A parsed message of the executor. */
  datatype Message = Message(prompt: Option<PromptId>, terminal: bool, body: nat)

  datatype StreamError = Disconnected | OpenTimedOut | ProtocolError | AbortReason(reason: nat)

  /** What a socket message carries: not a text, not JSON, JSON that is no message, or a message. */
  datatype Payload = NotText | NotJson | NoMessage | Parsed(message: Message)

  /** A callback. `sync` tells whether closing the socket calls its onclose before it returns. */
  datatype Callback =
    | TimerFires(sync: bool) | Aborts(reason: Option<StreamError>, sync: bool)
    | Opens | Receives(payload: Payload) | Fails | Closes | ConsumerReturns(sync: bool)

  predicate Matching(message: Message, filter: Option<PromptId>) {
    filter.None? || message.prompt == filter
  }

  // ------------------------------------------------------------------------- specification

  /** The stream as it should be: the messages of the prompt, until one callback ends it. */
  datatype Spec = Spec(heard: History<Message, StreamError>, connected: bool)

  const START := Spec(History([], None), false)

  /** Whether a callback ends an open stream, and how. */
  function Ending(c: Callback, connected: bool, filter: Option<PromptId>): Option<Option<StreamError>> {
    match c
    case TimerFires(sync) => if connected then None else Some(Some(if sync then Disconnected else OpenTimedOut))
    case Aborts(reason, _) => Some(reason)
    case Opens => None
    case Receives(payload) =>
      if payload.NotJson? then Some(Some(ProtocolError))
      else if payload.Parsed? && Matching(payload.message, filter) && payload.message.terminal then Some(None)
      else None
    case Fails => Some(Some(Disconnected))
    case Closes => Some(Some(Disconnected))
    case ConsumerReturns(_) => Some(None)
  }

  /** The message a callback delivers, if any. */
  function Delivers(c: Callback, filter: Option<PromptId>): seq<Message> {
    if c.Receives? && c.payload.Parsed? && Matching(c.payload.message, filter) then [c.payload.message] else []
  }

  /** Nothing counts after the first ending callback. */
  function After(before: Spec, c: Callback, filter: Option<PromptId>): Spec {
    if before.heard.closing.Some? then before
    else Spec(History(before.heard.accepted + Delivers(c, filter), Ending(c, before.connected, filter)),
              before.connected || c.Opens?)
  }

  function Told(callbacks: seq<Callback>, filter: Option<PromptId>): Spec {
    if callbacks == [] then START
    else After(Told(callbacks[..|callbacks| - 1], filter), callbacks[|callbacks| - 1], filter)
  }

  /** An ended stream has delivered every matching message up to the callback that ended it, and in
      it nothing after a terminal message; no later callback changes its outcome. */
  lemma {:induction false} FirstEndingDecides(callbacks: seq<Callback>, later: seq<Callback>, filter: Option<PromptId>)
    ensures Told(callbacks, filter).heard.closing.Some? ==> Told(callbacks + later, filter) == Told(callbacks, filter)
    ensures Told(callbacks, filter).heard.accepted <= Told(callbacks + later, filter).heard.accepted
  {
    if later == [] {
      assert callbacks + later == callbacks;
    } else {
      assert (callbacks + later)[..|callbacks + later| - 1] == callbacks + later[..|later| - 1];
      FirstEndingDecides(callbacks, later[..|later| - 1], filter);
    }
  }

  /** Only the last delivered message can be terminal, and it is exactly when the stream has ended
      cleanly by it. */
  lemma {:induction false} TerminalEndsCleanly(callbacks: seq<Callback>, filter: Option<PromptId>, n: nat)
    requires n < |Told(callbacks, filter).heard.accepted| && Told(callbacks, filter).heard.accepted[n].terminal
    ensures n == |Told(callbacks, filter).heard.accepted| - 1 && Told(callbacks, filter).heard.closing == Some(None)
    ensures Matching(Told(callbacks, filter).heard.accepted[n], filter)
  {
    var before := callbacks[..|callbacks| - 1];
    if n < |Told(before, filter).heard.accepted| {
      TerminalEndsCleanly(before, filter, n);
    }
  }

  /** All messages of the prompt that the callbacks carry, in order. */
  function AllDelivered(callbacks: seq<Callback>, filter: Option<PromptId>): seq<Message> {
    if callbacks == [] then []
    else
      var earlier := AllDelivered(callbacks[..|callbacks| - 1], filter);
      match callbacks[|callbacks| - 1]
      case Receives(Parsed(message)) =>
        if filter.None? || message.prompt == filter then earlier + [message] else earlier
      case _ => earlier
  }

  /** A stream that has not ended has delivered every matching message it was sent. */
  lemma {:induction false} OpenStreamLosesNothing(callbacks: seq<Callback>, filter: Option<PromptId>)
    ensures Told(callbacks, filter).heard.closing.None? ==>
            Told(callbacks, filter).heard.accepted == AllDelivered(callbacks, filter)
    ensures Told(callbacks, filter).heard.accepted <= AllDelivered(callbacks, filter)
  {
    if callbacks != [] { OpenStreamLosesNothing(callbacks[..|callbacks| - 1], filter); }
  }

  /** Whether the n-th callback ends a stream that is still open: the timer only before an opening, a
      message only if it is of the prompt and terminal, or cannot be read. */
  predicate Ends(callbacks: seq<Callback>, filter: Option<PromptId>, n: nat)
    requires n < |callbacks|
  {
    match callbacks[n]
    case TimerFires(_) => Opens !in callbacks[..n]
    case Opens => false
    case Receives(NotJson) => true
    case Receives(Parsed(message)) => message.terminal && (filter.None? || message.prompt == filter)
    case Receives(NotText) => false
    case Receives(NoMessage) => false
    case Aborts(_, _) => true
    case Fails => true
    case Closes => true
    case ConsumerReturns(_) => true
  }

  predicate EndsFirst(callbacks: seq<Callback>, filter: Option<PromptId>, n: nat) {
    n < |callbacks| && Ends(callbacks, filter, n) && forall m :: 0 <= m < n ==> !Ends(callbacks, filter, m)
  }

  lemma {:induction false} ConnectedByOpening(callbacks: seq<Callback>, filter: Option<PromptId>)
    requires Told(callbacks, filter).heard.closing.None?
    ensures Told(callbacks, filter).connected <==> Opens in callbacks
  {
    if callbacks != [] {
      var before := callbacks[..|callbacks| - 1];
      ConnectedByOpening(before, filter);
      assert callbacks == before + [callbacks[|callbacks| - 1]];
    }
  }

  lemma {:induction false} OpenBeforeEnding(callbacks: seq<Callback>, filter: Option<PromptId>)
    requires forall m :: 0 <= m < |callbacks| ==> !Ends(callbacks, filter, m)
    ensures Told(callbacks, filter).heard.closing.None?
  {
    if callbacks != [] {
      var last := |callbacks| - 1;
      var before := callbacks[..last];
      forall m | 0 <= m < |before| ensures !Ends(before, filter, m) {
        assert !Ends(callbacks, filter, m) && before[..m] == callbacks[..m];
      }
      OpenBeforeEnding(before, filter);
      ConnectedByOpening(before, filter);
      assert !Ends(callbacks, filter, last);
    }
  }

  /** What each kind of first ending callback makes of the stream: a clean end by a terminal message of the
      prompt, by its consumer's return or by an abort without a reason; else the reason of the abort, a
      protocol error for what is not JSON, a disconnection for onclose and onerror, and a timeout for the
      open timer, unless closing the socket tells of the disconnection first. */
  predicate EndsBy(ending: Option<Option<StreamError>>, c: Callback) {
    match c
    case Receives(payload) => ending == Some(if payload.NotJson? then Some(ProtocolError) else None)
    case ConsumerReturns(_) => ending == Some(None)
    case Aborts(reason, _) => ending == Some(reason)
    case Closes => ending == Some(Some(Disconnected))
    case Fails => ending == Some(Some(Disconnected))
    case TimerFires(sync) => ending == Some(Some(if sync then Disconnected else OpenTimedOut))
    case Opens => false
  }

  lemma EndsAsLast(before: seq<Callback>, c: Callback, filter: Option<PromptId>)
    requires Told(before, filter).heard.closing.None? && Ends(before + [c], filter, |before|)
    ensures EndsBy(Told(before + [c], filter).heard.closing, c)
    ensures Told(before + [c], filter).heard.accepted == Told(before, filter).heard.accepted + Delivers(c, filter)
  {
    ConnectedByOpening(before, filter);
    assert (before + [c])[..|before|] == before;
  }

  lemma OpenUpTo(callbacks: seq<Callback>, filter: Option<PromptId>, n: nat)
    requires EndsFirst(callbacks, filter, n)
    ensures Told(callbacks[..n], filter).heard.closing.None?
  {
    forall m | 0 <= m < n ensures !Ends(callbacks[..n], filter, m) {
      assert !Ends(callbacks, filter, m) && callbacks[..n][..m] == callbacks[..m];
    }
    OpenBeforeEnding(callbacks[..n], filter);
  }

  /** A stream ends the way its first ending callback says, with every matching message up to it delivered. */
  lemma EndsAsFirstEnding(callbacks: seq<Callback>, filter: Option<PromptId>, n: nat)
    requires EndsFirst(callbacks, filter, n)
    ensures EndsBy(Told(callbacks, filter).heard.closing, callbacks[n])
    ensures Told(callbacks, filter).heard.accepted == AllDelivered(callbacks[..n + 1], filter)
  {
    var before, until := callbacks[..n], callbacks[..n + 1];
    OpenUpTo(callbacks, filter, n);
    assert until == before + [callbacks[n]] && until[..n] == before;
    EndsAsLast(before, callbacks[n], filter);
    OpenStreamLosesNothing(before, filter);
    DeliveredLast(before, callbacks[n], until, filter);
    FirstEndingDecides(until, callbacks[n + 1..], filter);
    assert until + callbacks[n + 1..] == callbacks;
  }

  lemma DeliveredLast(before: seq<Callback>, c: Callback, until: seq<Callback>, filter: Option<PromptId>)
    requires until == before + [c]
    ensures AllDelivered(until, filter) == AllDelivered(before, filter) + Delivers(c, filter)
  {
    assert until[..|until| - 1] == before;
  }

  lemma {:induction false} FirstEnding(callbacks: seq<Callback>, filter: Option<PromptId>, n: nat) returns (first: nat)
    requires n < |callbacks| && Ends(callbacks, filter, n)
    ensures EndsFirst(callbacks, filter, first)
  {
    first := 0;
    while !Ends(callbacks, filter, first)
      invariant first <= n && forall m :: 0 <= m < first ==> !Ends(callbacks, filter, m)
      decreases n - first
    {
      first := first + 1;
    }
  }

  /** A stream has ended exactly when some callback was an ending one. */
  lemma EndedExactly(callbacks: seq<Callback>, filter: Option<PromptId>)
    ensures Told(callbacks, filter).heard.closing.Some? <==> exists n :: EndsFirst(callbacks, filter, n)
  {
    if forall n :: 0 <= n < |callbacks| ==> !Ends(callbacks, filter, n) {
      OpenBeforeEnding(callbacks, filter);
    } else {
      var n :| 0 <= n < |callbacks| && Ends(callbacks, filter, n);
      var first := FirstEnding(callbacks, filter, n);
      EndsAsFirstEnding(callbacks, filter, first);
    }
  }

  /** What a call of next() once came to is final, whatever callbacks follow. */
  lemma OutcomesAreFinal(callbacks: seq<Callback>, later: seq<Callback>, filter: Option<PromptId>, k: nat)
    requires OutcomeOf(Told(callbacks, filter).heard, k).Some?
    ensures OutcomeOf(Told(callbacks + later, filter).heard, k) == OutcomeOf(Told(callbacks, filter).heard, k)
  {
    FirstEndingDecides(callbacks, later, filter);
  }

  // ------------------------------------------------------------------------- the callbacks

  class EventStream {
    const queue: AsyncEventQueue<Message, StreamError>
    const filter: Option<PromptId>
    var closedByConsumer: bool
    var terminalObserved: bool
    var openTimer: bool
    var listening: bool
    ghost var callbacks: seq<Callback>
    ghost var told: Spec

    ghost predicate Valid()
      reads this, queue
    {
      && told == Told(callbacks, filter) && queue.Valid() && queue.Heard() == told.heard
      && (closedByConsumer || terminalObserved ==> queue.closed)
      && (!queue.closed ==> listening && (openTimer <==> !told.connected))
    }

    constructor (filter: Option<PromptId>)
      ensures Valid() && fresh(queue) && this.filter == filter && callbacks == []
    {
      var q := new AsyncEventQueue<Message, StreamError>();
      queue := q;
      this.filter := filter;
      closedByConsumer, terminalObserved, openTimer, listening := false, false, true, true;
      callbacks, told := [], START;
    }

    method Cleanup()
      modifies this`openTimer, this`listening
      ensures !openTimer && !listening
    {
      openTimer, listening := false, false;
    }

    /** The body of onclose and of onerror. */
    method Disconnect()
      requires queue.Valid()
      modifies this`openTimer, this`listening, queue
      ensures queue.Valid() && !openTimer && !listening && queue.calls == old(queue.calls)
      ensures queue.Heard() == if closedByConsumer || terminalObserved then old(queue.Heard())
                               else Closed(old(queue.Heard()), Some(Disconnected))
    {
      Cleanup();
      if !closedByConsumer && !terminalObserved { queue.Close(Some(Disconnected)); }
    }

    /** socket.close(), which may call onclose before it returns. */
    method CloseSocket(sync: bool)
      requires queue.Valid()
      modifies this`openTimer, this`listening, queue
      ensures queue.Valid() && (sync ==> !openTimer && !listening) && queue.calls == old(queue.calls)
      ensures !sync ==> openTimer == old(openTimer) && listening == old(listening)
      ensures queue.Heard() == if !sync || closedByConsumer || terminalObserved then old(queue.Heard())
                               else Closed(old(queue.Heard()), Some(Disconnected))
    {
      if sync { Disconnect(); }
    }

    ghost method Note(c: Callback)
      requires told == Told(callbacks, filter)
      modifies this`callbacks, this`told
      ensures callbacks == old(callbacks) + [c] && told == After(old(told), c, filter)
              && told == Told(callbacks, filter)
    {
      callbacks := callbacks + [c];
      told := After(told, c, filter);
      assert callbacks[..|callbacks| - 1] == old(callbacks);
    }

    /** A cleared timer does not fire. */
    method OnTimer(sync: bool)
      requires Valid()
      modifies this, queue
      ensures Valid() && callbacks == old(callbacks) + [TimerFires(sync)]
    {
      Note(TimerFires(sync));
      if !openTimer || terminalObserved || closedByConsumer { return; }
      CloseSocket(sync);
      queue.Close(Some(OpenTimedOut));
    }

    /** A removed listener is not called. */
    method OnAbort(reason: Option<StreamError>, sync: bool)
      requires Valid()
      modifies this, queue
      ensures Valid() && callbacks == old(callbacks) + [Aborts(reason, sync)]
    {
      Note(Aborts(reason, sync));
      if !listening { return; }
      closedByConsumer := true;
      Cleanup();
      CloseSocket(sync);
      queue.Close(reason);
      assert queue.Heard() == Closed(old(queue.Heard()), reason) == told.heard;
    }

    method OnOpen()
      requires Valid()
      modifies this
      ensures Valid() && callbacks == old(callbacks) + [Opens]
    {
      Note(Opens);
      openTimer := false;
    }

    method OnMessage(payload: Payload)
      requires Valid()
      modifies this, queue
      ensures Valid() && callbacks == old(callbacks) + [Receives(payload)]
    {
      Note(Receives(payload));
      match payload {
        case NotText =>
        case NotJson => queue.Close(Some(ProtocolError));
        case NoMessage =>
        case Parsed(message) =>
          if !Matching(message, filter) { return; }
          queue.Push(message);
          if message.terminal {
            terminalObserved := true;
            Cleanup();
            queue.Close(None);
          }
      }
    }

    method OnError()
      requires Valid()
      modifies this, queue
      ensures Valid() && callbacks == old(callbacks) + [Fails]
    {
      Note(Fails);
      Disconnect();
    }

    method OnClose()
      requires Valid()
      modifies this, queue
      ensures Valid() && callbacks == old(callbacks) + [Closes]
    {
      Note(Closes);
      Disconnect();
    }

    method Next() returns (call: nat)
      requires Valid()
      modifies queue
      ensures Valid() && callbacks == old(callbacks) && call == old(queue.calls) && queue.calls == call + 1
    {
      call := queue.Next();
    }

    method Return(sync: bool)
      requires Valid()
      modifies this, queue
      ensures Valid() && callbacks == old(callbacks) + [ConsumerReturns(sync)]
    {
      Note(ConsumerReturns(sync));
      closedByConsumer := true;
      Cleanup();
      CloseSocket(sync);
      queue.Close(None);
      assert queue.Heard() == Closed(old(queue.Heard()), None) == told.heard;
    }

    /** So whatever callbacks came, in whatever order and however next() was called between them, each
        call of next() gets exactly what the first ending callback leaves for it. */
    lemma CallsGetWhatWasTold(k: nat)
      requires Valid() && k < queue.calls
      ensures var expected := OutcomeOf(Told(callbacks, filter).heard, k);
              (k in queue.outcomes <==> expected.Some?) && (k in queue.outcomes ==> Some(queue.outcomes[k]) == expected)
    {
      assert queue.Heard() == told.heard;
    }

    /** In plain terms: once the n-th callback was the first ending one, the calls of next() get the matching
        messages up to it, one each, and every further call ends as that callback says. */
    lemma CallsGetMessagesThenEnd(k: nat, n: nat)
      requires Valid() && k < queue.calls && EndsFirst(callbacks, filter, n)
      ensures var messages := AllDelivered(callbacks[..n + 1], filter);
              k in queue.outcomes
              && if k < |messages| then queue.outcomes[k] == Value(messages[k])
                 else
                   var error := if queue.outcomes[k].Error? then Some(queue.outcomes[k].error) else None;
                   !queue.outcomes[k].Value? && EndsBy(Some(error), callbacks[n])
    {
      EndsAsFirstEnding(callbacks, filter, n);
      CallsGetWhatWasTold(k);
    }
  }
}
