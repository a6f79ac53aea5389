/** Requests that share an idempotency key: reserve, work, then complete or release
    (apps/api/src/app.ts, apps/api/src/workflow.ts, packages/db/src/index.ts). */
module Idempotency {
  import opened Wrappers

  type Key = nat

  /** The operation and the hash of the body are what two uses of a key are compared by. */
  datatype Request = Request(key: Key, operation: nat, hash: nat)

  /** A response whose body may be null. */
  datatype Response = Response(status: nat, body: Option<nat>)

  datatype Record = Record(operation: nat, hash: nat, response: Option<Response>)

  type Table = map<Key, Record>

  datatype Reservation = Reserved | Conflict | Replay(response: Response) | InProgress

  datatype Reply = Answered(response: Response) | KeyReused | StillInProgress | Failed

  predicate Matches(record: Record, q: Request) {
    record.operation == q.operation && record.hash == q.hash
  }

  function Reserve(t: Table, q: Request): (Table, Reservation) {
    if q.key !in t then (t[q.key := Record(q.operation, q.hash, None)], Reserved)
    else
      var record := t[q.key];
      if !Matches(record, q) then (t, Conflict)
      else if record.response.Some? && record.response.value.body.Some? then (t, Replay(record.response.value))
      else (t, InProgress)
  }

  /** Only a record without a response can be completed. */
  function Complete(t: Table, key: Key, response: Response): Result<Table, ()> {
    if key in t && t[key].response.None? then Success(t[key := t[key].(response := Some(response))]) else Failure(())
  }

  function Release(t: Table, key: Key): Table {
    if key in t && t[key].response.None? then t - {key} else t
  }

  /** The reply of a request that got no reservation. */
  function Unreserved(reservation: Reservation): Reply
    requires !reservation.Reserved?
  {
    match reservation
    case Conflict => KeyReused
    case InProgress => StillInProgress
    case Replay(response) => Answered(response)
  }

  /** executeIdempotent: reservation, mutation and completion commit or roll back together. */
  function Transactional(t: Table, q: Request, mutation: Option<Response>): (Table, Reply) {
    var (reserved, reservation) := Reserve(t, q);
    if !reservation.Reserved? then (reserved, Unreserved(reservation))
    else if mutation.None? then (t, Failed)
    else (reserved[q.key := reserved[q.key].(response := mutation)], Answered(mutation.value))
  }

  /** Creating a draft or a revision reserves keys of its own within the transaction of its request: one in
      the application and under it one in the repository, `levels` from the outside in. `work` is the
      resource the innermost insert made, if it did not fail, and `stored` are the resources that exist:
      a replay stands for the resource it once answered. */
  function Mutated(t: Table, levels: seq<Request>, work: Option<nat>, stored: set<nat>): (Table, Option<nat>)
    decreases |levels|
  {
    if levels == [] then (t, work)
    else
      var (reserved, reservation) := Reserve(t, levels[0]);
      match reservation
      case Conflict => (t, None)
      case InProgress => (t, None)
      case Replay(response) => (t, if response.body.Some? && response.body.value in stored then response.body else None)
      case Reserved =>
        var (made, resource) := Mutated(reserved, levels[1..], work, stored);
        if resource.None? then (Release(made, levels[0].key), None)
        else
          var done := Complete(made, levels[0].key, Response(200, resource));
          if done.Failure? then (Release(made, levels[0].key), None) else (done.value, resource)
  }

  /** executeIdempotent around such a mutation. */
  function Nested(t: Table, q: Request, levels: seq<Request>, work: Option<nat>, stored: set<nat>): (Table, Reply) {
    var (reserved, reservation) := Reserve(t, q);
    if !reservation.Reserved? then (reserved, Unreserved(reservation))
    else
      var (made, resource) := Mutated(reserved, levels, work, stored);
      if resource.None? then (t, Failed)
      else (made[q.key := Record(q.operation, q.hash, Some(Response(200, resource)))],
            Answered(Response(200, resource)))
  }

  /** The levels that are consulted: down to the first whose key is taken. */
  function Consulted(t: Table, levels: seq<Request>): (n: nat)
    ensures n <= |levels|
    decreases |levels|
  {
    if levels == [] then 0
    else if levels[0].key in t then 1
    else 1 + Consulted(Reserve(t, levels[0]).0, levels[1..])
  }

  predicate AnsweredWith(t: Table, q: Request, resource: Option<nat>) {
    q.key in t && Matches(t[q.key], q) && t[q.key].response.Some? && t[q.key].response.value.body == resource
  }

  /** A failed mutation leaves no reservation behind, even where nothing rolls it back. */
  lemma {:induction false} FailedLeavesNothing(t: Table, levels: seq<Request>, work: Option<nat>, stored: set<nat>)
    ensures var (t', resource) := Mutated(t, levels, work, stored);
            && (resource.None? ==> t' == t)
            && (resource.Some? ==> forall key :: key in t ==> key in t' && t'[key] == t[key])
    decreases |levels|
  {
    if levels != [] && levels[0].key !in t {
      FailedLeavesNothing(Reserve(t, levels[0]).0, levels[1..], work, stored);
    }
  }

  /** A successful one answers every key it consulted with one resource. */
  lemma {:induction false} MutatedTogether(t: Table, levels: seq<Request>, work: Option<nat>, stored: set<nat>)
    requires Mutated(t, levels, work, stored).1.Some?
    ensures var (t', resource) := Mutated(t, levels, work, stored);
            forall n :: 0 <= n < Consulted(t, levels) ==> AnsweredWith(t', levels[n], resource)
    decreases |levels|
  {
    if levels != [] && levels[0].key !in t {
      var reserved := Reserve(t, levels[0]).0;
      MutatedTogether(reserved, levels[1..], work, stored);
      FailedLeavesNothing(reserved, levels[1..], work, stored);
      ConsultedFrom(t, levels);
    }
  }

  lemma ConsultedFrom(t: Table, levels: seq<Request>)
    requires levels != [] && levels[0].key !in t
    ensures Consulted(t, levels) == 1 + Consulted(Reserve(t, levels[0]).0, levels[1..])
    ensures forall n :: 0 < n < |levels| ==> levels[n] == levels[1..][n - 1]
  {
  }

  ghost predicate WasAnswered(t: Table, levels: seq<Request>, resource: Option<nat>) {
    exists n :: 0 <= n < |levels| && AnsweredWith(t, levels[n], resource)
  }

  /** That resource is what the innermost insert made, or what a key had been answered with before. */
  lemma {:induction false} MadeOrReplayed(t: Table, levels: seq<Request>, work: Option<nat>, stored: set<nat>)
    ensures var resource := Mutated(t, levels, work, stored).1;
            resource.Some? ==> resource == work || (WasAnswered(t, levels, resource) && resource.value in stored)
    decreases |levels|
  {
    var resource := Mutated(t, levels, work, stored).1;
    if levels == [] || resource.None? {
    } else if levels[0].key in t {
      assert AnsweredWith(t, levels[0], resource);
    } else {
      var reserved := Reserve(t, levels[0]).0;
      MadeOrReplayed(reserved, levels[1..], work, stored);
      if WasAnswered(reserved, levels[1..], resource) {
        var n :| 0 <= n < |levels[1..]| && AnsweredWith(reserved, levels[1..][n], resource);
        assert AnsweredWith(t, levels[n + 1], resource);
      }
    }
  }

  /** All keys are answered with one resource, made by this request or an earlier one, or nothing at all is
      stored. */
  lemma NestedTogether(t: Table, q: Request, levels: seq<Request>, work: Option<nat>, stored: set<nat>)
    ensures var (t', reply) := Nested(t, q, levels, work, stored);
            if q.key !in t && reply.Answered? then
              && t'[q.key] == Record(q.operation, q.hash, Some(reply.response))
              && (reply.response.body == work || WasAnswered(t, levels, reply.response.body))
              && forall n :: 0 <= n < Consulted(Reserve(t, q).0, levels) ==>
                   levels[n].key != q.key && AnsweredWith(t', levels[n], reply.response.body)
            else t' == t
  {
    if q.key !in t && Nested(t, q, levels, work, stored).1.Answered? {
      var reserved := Reserve(t, q).0;
      MutatedTogether(reserved, levels, work, stored);
      FailedLeavesNothing(reserved, levels, work, stored);
      MadeOrReplayed(reserved, levels, work, stored);
      AnsweredBefore(t, q, levels, Nested(t, q, levels, work, stored).1.response.body);
    }
  }

  lemma AnsweredBefore(t: Table, q: Request, levels: seq<Request>, resource: Option<nat>)
    requires q.key !in t
    ensures WasAnswered(Reserve(t, q).0, levels, resource) ==> WasAnswered(t, levels, resource)
  {
    if WasAnswered(Reserve(t, q).0, levels, resource) {
      var n :| 0 <= n < |levels| && AnsweredWith(Reserve(t, q).0, levels[n], resource);
      assert AnsweredWith(t, levels[n], resource);
    }
  }

  /** A level that replays a stored resource when its key is taken. */
  predicate Replays(t: Table, q: Request, stored: set<nat>)
    requires q.key in t
  {
    var record := t[q.key];
    record.operation == q.operation && record.hash == q.hash && record.response.Some?
    && record.response.value.body.Some? && record.response.value.body.value in stored
  }

  /** The levels above the first whose key a record holds. */
  function Untaken(t: Table, levels: seq<Request>): (n: nat)
    ensures n <= |levels| && (n < |levels| ==> levels[n].key in t)
    ensures forall m :: 0 <= m < n ==> levels[m].key !in t
    decreases |levels|
  {
    if levels == [] || levels[0].key in t then 0 else 1 + Untaken(t, levels[1..])
  }

  /** None of the first n levels reserves a key that one above it has reserved. */
  ghost predicate NoRepeat(levels: seq<Request>, n: nat)
    requires n <= |levels|
  {
    forall j, m :: 0 <= j < m < n ==> levels[j].key != levels[m].key
  }

  /** What the levels come to: what the insert made if none of their keys is taken, else what the first taken
      one replays, and nothing if a level repeats a key. */
  function Resolved(t: Table, levels: seq<Request>, work: Option<nat>, stored: set<nat>): Option<nat> {
    var n := Untaken(t, levels);
    if n == |levels| then work
    else if Replays(t, levels[n], stored) then t[levels[n].key].response.value.body
    else None
  }

  lemma {:induction false} UntakenUnder(t: Table, reserved: Table, key: Key, levels: seq<Request>)
    requires reserved.Keys == t.Keys + {key}
    ensures var n, m := Untaken(t, levels), Untaken(reserved, levels);
            m <= n && (m < n ==> levels[m].key == key) && (m == n ==> forall j :: 0 <= j < n ==> levels[j].key != key)
    decreases |levels|
  {
    if levels != [] && levels[0].key !in t && levels[0].key != key {
      UntakenUnder(t, reserved, key, levels[1..]);
    }
  }

  lemma MutatedReserving(t: Table, levels: seq<Request>, work: Option<nat>, stored: set<nat>)
    requires levels != [] && levels[0].key !in t
    ensures Mutated(t, levels, work, stored).1
            == Mutated(Reserve(t, levels[0]).0, levels[1..], work, stored).1
  {
    FailedLeavesNothing(Reserve(t, levels[0]).0, levels[1..], work, stored);
  }

  /** A mutation succeeds exactly when no level repeats a key and the innermost insert, or the first taken
      level's replay, gives a resource; that resource is its result. */
  lemma {:induction false} MutatedExactly(t: Table, levels: seq<Request>, work: Option<nat>, stored: set<nat>)
    ensures Mutated(t, levels, work, stored).1
            == if NoRepeat(levels, Untaken(t, levels)) then Resolved(t, levels, work, stored) else None
    decreases |levels|
  {
    if levels != [] && levels[0].key !in t {
      var reserved, rest := Reserve(t, levels[0]).0, levels[1..];
      MutatedReserving(t, levels, work, stored);
      MutatedExactly(reserved, rest, work, stored);
      UntakenUnder(t, reserved, levels[0].key, rest);
      NoRepeatRest(levels, Untaken(t, rest));
    }
  }

  lemma NoRepeatRest(levels: seq<Request>, n: nat)
    requires n < |levels|
    ensures NoRepeat(levels, n + 1) <==>
            NoRepeat(levels[1..], n) && forall j :: 0 <= j < n ==> levels[1..][j].key != levels[0].key
  {
    var rest := levels[1..];
    assert forall j :: 0 <= j < n ==> rest[j] == levels[j + 1];
    if NoRepeat(rest, n) && forall j :: 0 <= j < n ==> rest[j].key != levels[0].key {
      forall j, k | 0 <= j < k < n + 1 ensures levels[j].key != levels[k].key {
        assert levels[k] == rest[k - 1] && (j > 0 ==> levels[j] == rest[j - 1]);
      }
    }
  }

  /** A request around such a mutation is answered with a resource of its own work exactly when no record
      holds its key, none of the levels it consults repeats a key reserved above it, its own included, and
      either no level's key is taken and the insert made the resource, or the first taken level replays it. */
  lemma NestedExactly(t: Table, q: Request, levels: seq<Request>, work: Option<nat>, stored: set<nat>)
    ensures var reply := Nested(t, q, levels, work, stored).1;
            if q.key !in t then
              var n := Untaken(t, levels);
              var resource := Resolved(t, levels, work, stored);
              if resource.Some? && NoRepeat(levels, n) && forall m :: 0 <= m < n ==> levels[m].key != q.key
              then reply == Answered(Response(200, resource)) else reply == Failed
            else
              var record := t[q.key];
              if record.operation != q.operation || record.hash != q.hash then reply == KeyReused
              else if record.response.Some? && record.response.value.body.Some? then
                reply == Answered(record.response.value)
              else reply == StillInProgress
  {
    if q.key !in t {
      var reserved := Reserve(t, q).0;
      MutatedExactly(reserved, levels, work, stored);
      UntakenUnder(t, reserved, q.key, levels);
    }
  }

  /** Without levels: answered with what the mutation made under a free key, or with the recorded response;
      a mutation that fails leaves the table as it was. */
  lemma TransactionalExactly(t: Table, q: Request, mutation: Option<Response>)
    ensures var (t', reply) := Transactional(t, q, mutation);
            if q.key in t then
              var record := t[q.key];
              && t' == t
              && (reply == KeyReused <==> record.operation != q.operation || record.hash != q.hash)
              && (forall response :: reply == Answered(response) <==>
                    record == Record(q.operation, q.hash, Some(response)) && response.body.Some?)
              && (reply == KeyReused || reply == StillInProgress || reply.Answered?)
            else if mutation.Some? then
              reply == Answered(mutation.value) && t' == t[q.key := Record(q.operation, q.hash, mutation)]
            else reply == Failed && t' == t
  {
  }

  class IdempotencyRecords {
    var records: Table

    constructor ()
      ensures records == map[]
    {
      records := map[];
    }

    method ReserveKey(q: Request) returns (reservation: Reservation)
      modifies this
      ensures (records, reservation) == Reserve(old(records), q)
    {
      if q.key !in records {
        records := records[q.key := Record(q.operation, q.hash, None)];
        return Reserved;
      }
      var existing := records[q.key];
      if existing.operation != q.operation || existing.hash != q.hash { return Conflict; }
      if existing.response.Some? && existing.response.value.body.Some? { return Replay(existing.response.value); }
      return InProgress;
    }

    method CompleteKey(key: Key, response: Response) returns (ok: bool)
      modifies this
      ensures var done := Complete(old(records), key, response);
              ok == done.Success? && records == (if ok then done.value else old(records))
    {
      if key !in records || records[key].response.Some? { return false; }
      records := records[key := records[key].(response := Some(response))];
      return true;
    }

    method ReleaseKey(key: Key)
      modifies this
      ensures records == Release(old(records), key)
    {
      if key in records && records[key].response.None? { records := records - {key}; }
    }

    /** A transaction that throws restores the table it found. */
    method ExecuteIdempotent(q: Request, mutation: Option<Response>) returns (reply: Reply)
      modifies this
      ensures (records, reply) == Transactional(old(records), q, mutation)
    {
      var before := records;
      var reservation := ReserveKey(q);
      match reservation {
        case Conflict => return KeyReused;
        case InProgress => return StillInProgress;
        case Replay(response) => return Answered(response);
        case Reserved =>
      }
      if mutation.None? {
        records := before;
        return Failed;
      }
      var _ := CompleteKey(q.key, mutation.value);
      return Answered(mutation.value);
    }

    /** Each level releases its own reservation before it passes an error on. */
    method Mutate(levels: seq<Request>, work: Option<nat>, stored: set<nat>) returns (resource: Option<nat>)
      modifies this
      ensures (records, resource) == Mutated(old(records), levels, work, stored)
      decreases |levels|
    {
      if levels == [] { return work; }
      var reservation := ReserveKey(levels[0]);
      match reservation {
        case Conflict => return None;
        case InProgress => return None;
        case Replay(response) =>
          return if response.body.Some? && response.body.value in stored then response.body else None;
        case Reserved =>
      }
      resource := Mutate(levels[1..], work, stored);
      if resource.Some? {
        var completed := CompleteKey(levels[0].key, Response(200, resource));
        if completed { return; }
      }
      ReleaseKey(levels[0].key);
      return None;
    }

    /** The transaction of a request whose mutation fails is undone. */
    method ExecuteNested(q: Request, levels: seq<Request>, work: Option<nat>, stored: set<nat>) returns (reply: Reply)
      modifies this
      ensures (records, reply) == Nested(old(records), q, levels, work, stored)
    {
      var before := records;
      var reservation := ReserveKey(q);
      if !reservation.Reserved? { return Unreserved(reservation); }
      ghost var reserved := records;
      var resource := Mutate(levels, work, stored);
      if resource.None? {
        records := before;
        return Failed;
      }
      FailedLeavesNothing(reserved, levels, work, stored);
      var _ := CompleteKey(q.key, Response(200, resource));
      return Answered(Response(200, resource));
    }

    /** executeIdempotentDeferred, with other requests running to their end while the work is away:
        they leave its reservation alone, so its own completion is never refused. */
    method ExecuteIdempotentDeferred(q: Request, others: seq<(Request, Option<Response>)>, work: Option<Response>,
                                     releases: bool)
      returns (reply: Reply)
      modifies this
      ensures var reservation := Reserve(old(records), q).1;
              && (!reservation.Reserved? ==> reply == Unreserved(reservation) && records == old(records))
              && (reservation.Reserved? && work.Some? ==>
                    reply == Answered(work.value) && q.key in records
                    && records[q.key] == Record(q.operation, q.hash, work))
              && (reservation.Reserved? && work.None? ==>
                    reply == Failed && (q.key in records <==> !releases)
                    && (!releases ==> records[q.key] == Record(q.operation, q.hash, None)))
    {
      var reservation := ReserveKey(q);
      if !reservation.Reserved? { return Unreserved(reservation); }
      var n := 0;
      while n < |others|
        invariant n <= |others|
        invariant q.key in records && records[q.key] == Record(q.operation, q.hash, None)
      {
        var _ := ExecuteIdempotent(others[n].0, others[n].1);
        n := n + 1;
      }
      if work.None? {
        // a release that fails is swallowed, and the reservation stays
        if releases { ReleaseKey(q.key); }
        return Failed;
      }
      var completed := CompleteKey(q.key, work.value);
      assert completed;
      return Answered(work.value);
    }
  }

  // ------------------------------------------------------------------- concurrent requests

  /** Where a request is. One that got its reservation works, then finishes or undoes it. */
  datatype Phase = Waiting | Working | Finishing(response: Response) | Undoing | Ended(reply: Reply)

  /** The table, the requests that were ever sent, and every response ever recorded. */
  datatype System = System(table: Table, requests: seq<Request>, phases: seq<Phase>, recorded: seq<(Key, Response)>)

  ghost predicate Sound(sys: System) { |sys.phases| == |sys.requests| }

  datatype Move =
    | Send(request: Request)
    | Whole(r: nat, mutation: Option<Response>)
    | Arrive(r: nat)
    | Return(r: nat, response: Response)
    | Throw(r: nat)
    | Finish(r: nat)
    | Undo(r: nat)
    | Stop(r: nat)

  function Put(sys: System, r: nat, phase: Phase): System
    requires r < |sys.phases|
  {
    sys.(phases := sys.phases[r := phase])
  }

  /** One transaction or one step of the work. `Stop` is a crash, or a completing or releasing
      transaction that fails. */
  function Do(sys: System, move: Move): System
    requires Sound(sys)
  {
    if move.Send? then sys.(requests := sys.requests + [move.request], phases := sys.phases + [Waiting])
    else if move.r >= |sys.phases| then sys
    else
      var r := move.r;
      var q, phase := sys.requests[r], sys.phases[r];
      match move
      case Whole(_, mutation) =>
        if phase != Waiting then sys
        else
          var (table, reply) := Transactional(sys.table, q, mutation);
          Put(sys, r, Ended(reply)).(
            table := table,
            recorded := if q.key !in sys.table && mutation.Some? then sys.recorded + [(q.key, mutation.value)]
                        else sys.recorded)
      case Arrive(_) =>
        if phase != Waiting then sys
        else
          var (table, reservation) := Reserve(sys.table, q);
          Put(sys, r, if reservation.Reserved? then Working else Ended(Unreserved(reservation))).(table := table)
      case Return(_, response) => if phase == Working then Put(sys, r, Finishing(response)) else sys
      case Throw(_) => if phase == Working then Put(sys, r, Undoing) else sys
      case Finish(_) =>
        if !phase.Finishing? then sys
        else
          var done := Complete(sys.table, q.key, phase.response);
          if done.Failure? then Put(sys, r, Ended(Failed))
          else
            Put(sys, r, Ended(Answered(phase.response))).(
              table := done.value, recorded := sys.recorded + [(q.key, phase.response)])
      case Undo(_) => if phase == Undoing then Put(sys, r, Ended(Failed)).(table := Release(sys.table, q.key)) else sys
      case Stop(_) => if phase.Ended? then sys else Put(sys, r, Ended(Failed))
  }

  predicate Holds(phase: Phase) { phase.Working? || phase.Finishing? || phase.Undoing? }

  ghost predicate HoldsKey(sys: System, r: nat, key: Key)
    requires Sound(sys) && r < |sys.phases|
  {
    Holds(sys.phases[r]) && sys.requests[r].key == key
  }

  /** Whoever works holds the unanswered record of its key, alone. */
  ghost predicate HoldersFit(sys: System) {
    && Sound(sys)
    && (forall r :: 0 <= r < |sys.phases| && Holds(sys.phases[r]) ==>
          var q := sys.requests[r];
          q.key in sys.table && sys.table[q.key] == Record(q.operation, q.hash, None))
    && (forall r, r', key ::
          0 <= r < |sys.phases| && 0 <= r' < |sys.phases| && HoldsKey(sys, r, key) && HoldsKey(sys, r', key) ==>
            r == r')
  }

  /** The recorded responses are those of the table, one a key. */
  ghost predicate RecordsFit(sys: System) {
    && (forall m, n :: 0 <= m < n < |sys.recorded| ==> sys.recorded[m].0 != sys.recorded[n].0)
    && (forall n :: 0 <= n < |sys.recorded| ==>
          sys.recorded[n].0 in sys.table && sys.table[sys.recorded[n].0].response == Some(sys.recorded[n].1))
    && (forall key :: key in sys.table && sys.table[key].response.Some? ==>
        (key, sys.table[key].response.value) in sys.recorded)
  }

  /** Every answer is the recorded one, given to a matching request. */
  ghost predicate AnswersFit(sys: System) {
    && Sound(sys)
    && forall r :: 0 <= r < |sys.phases| && sys.phases[r].Ended? && sys.phases[r].reply.Answered? ==>
         var q := sys.requests[r];
         q.key in sys.table && Matches(sys.table[q.key], q)
         && sys.table[q.key].response == Some(sys.phases[r].reply.response)
  }

  ghost predicate Inv(sys: System) { HoldersFit(sys) && RecordsFit(sys) && AnswersFit(sys) }

  /** What one move of request r may do: rewrite the record of its key while nobody else holds it,
      record a first response for it, and move on. */
  ghost predicate Advances(sys: System, r: nat, sys': System)
    requires Sound(sys) && r < |sys.phases|
  {
    var q := sys.requests[r];
    && sys'.requests == sys.requests && |sys'.phases| == |sys.phases|
    && (forall k :: 0 <= k < |sys.phases| && k != r ==> sys'.phases[k] == sys.phases[k])
    && (forall key :: key != q.key ==> (key in sys'.table <==> key in sys.table))
    && (forall key :: key != q.key && key in sys.table ==> sys'.table[key] == sys.table[key])
    // the record changes only if nobody had it, or this request held it
    && (q.key in sys.table && !Holds(sys.phases[r]) ==> q.key in sys'.table && sys'.table[q.key] == sys.table[q.key])
    && (Holds(sys'.phases[r]) ==>
          (q.key !in sys.table || Holds(sys.phases[r])) && q.key in sys'.table
            && sys'.table[q.key] == Record(q.operation, q.hash, None))
    && (sys'.phases[r].Ended? && sys'.phases[r].reply.Answered? && sys'.phases[r] != sys.phases[r] ==>
          q.key in sys'.table && Matches(sys'.table[q.key], q)
            && sys'.table[q.key].response == Some(sys'.phases[r].reply.response))
    && (sys.phases[r].Ended? ==> sys'.phases[r] == sys.phases[r])
    && (if q.key in sys'.table && sys'.table[q.key].response.Some?
        && (q.key !in sys.table || sys.table[q.key].response.None?)
        then sys'.recorded == sys.recorded + [(q.key, sys'.table[q.key].response.value)]
        else sys'.recorded == sys.recorded)
  }

  lemma AdvanceKeepsHolders(sys: System, r: nat, sys': System)
    requires HoldersFit(sys) && r < |sys.phases| && Advances(sys, r, sys')
    ensures HoldersFit(sys')
  {
    var key := sys.requests[r].key;
    forall k | 0 <= k < |sys.phases| && k != r && Holds(sys.phases[k]) && sys.requests[k].key == key
      ensures key in sys.table && !Holds(sys.phases[r])
    {
      if Holds(sys.phases[r]) { assert HoldsKey(sys, r, key) && HoldsKey(sys, k, key); }
    }
    forall m, n, key | 0 <= m < |sys'.phases| && 0 <= n < |sys'.phases| && HoldsKey(sys', m, key)
      && HoldsKey(sys', n, key)
      ensures m == n
    {
      if m != r && n != r { assert HoldsKey(sys, m, key) && HoldsKey(sys, n, key); }
    }
  }

  lemma AdvanceKeepsRecords(sys: System, r: nat, sys': System)
    requires HoldersFit(sys) && RecordsFit(sys) && r < |sys.phases| && Advances(sys, r, sys')
    ensures RecordsFit(sys')
  {
    var key := sys.requests[r].key;
    forall n | 0 <= n < |sys.recorded| && sys.recorded[n].0 == key
      ensures key in sys'.table && sys'.table[key].response == Some(sys.recorded[n].1) && sys'.recorded == sys.recorded
    {
    }
    forall k | k in sys'.table && sys'.table[k].response.Some?
      ensures (k, sys'.table[k].response.value) in sys'.recorded
    {
      if k in sys.table && sys.table[k].response.Some? { assert (k, sys.table[k].response.value) in sys.recorded; }
    }
  }

  lemma AdvanceKeepsAnswers(sys: System, r: nat, sys': System)
    requires HoldersFit(sys) && AnswersFit(sys) && r < |sys.phases| && Advances(sys, r, sys')
    ensures AnswersFit(sys')
  {
  }

  lemma DoAdvances(sys: System, move: Move)
    requires HoldersFit(sys) && !move.Send? && move.r < |sys.phases|
    ensures Advances(sys, move.r, Do(sys, move)) || Do(sys, move) == sys
  {
  }

  lemma DoKeeps(sys: System, move: Move)
    requires Inv(sys)
    ensures Inv(Do(sys, move))
  {
    if move.Send? {
      SendKeeps(sys, move.request);
    } else if move.r < |sys.phases| {
      DoAdvances(sys, move);
      if Do(sys, move) != sys {
        AdvanceKeepsHolders(sys, move.r, Do(sys, move));
        AdvanceKeepsRecords(sys, move.r, Do(sys, move));
        AdvanceKeepsAnswers(sys, move.r, Do(sys, move));
      }
    }
  }

  lemma SendKeeps(sys: System, request: Request)
    requires Inv(sys)
    ensures Inv(Do(sys, Send(request)))
  {
    var sys' := Do(sys, Send(request));
    forall r, r', key | 0 <= r < |sys'.phases| && 0 <= r' < |sys'.phases| && HoldsKey(sys', r, key)
      && HoldsKey(sys', r', key)
      ensures r == r'
    {
      assert HoldsKey(sys, r, key) && HoldsKey(sys, r', key);
    }
  }

  // ---------------------------------------------------------------------------- whole runs

  ghost predicate Moves(sys: System, sys': System) {
    Sound(sys) && exists move :: sys' == Do(sys, move)
  }

  ghost predicate IsRun(trace: seq<System>) {
    trace != [] && forall n :: 0 <= n < |trace| - 1 ==> Moves(trace[n], trace[n + 1])
  }

  ghost predicate Leads(sys: System, sys': System) {
    exists trace :: IsRun(trace) && trace[0] == sys && trace[|trace| - 1] == sys'
  }

  const START := System(map[], [], [], [])

  /** What no move takes back: recorded responses, given answers, and who asked what. */
  ghost predicate Grows(sys: System, sys': System) {
    && Sound(sys) && Sound(sys') && sys.recorded <= sys'.recorded && sys.requests <= sys'.requests
    && (forall key :: key in sys.table && sys.table[key].response.Some? ==>
        key in sys'.table && sys'.table[key] == sys.table[key])
    && (forall r :: 0 <= r < |sys.phases| && sys.phases[r].Ended? ==> sys'.phases[r] == sys.phases[r])
  }

  lemma DoGrows(sys: System, move: Move)
    requires Inv(sys)
    ensures Grows(sys, Do(sys, move))
  {
    if !move.Send? && move.r < |sys.phases| { DoAdvances(sys, move); }
  }

  lemma {:induction false} RunKeeps(trace: seq<System>)
    requires IsRun(trace) && Inv(trace[0])
    ensures Inv(trace[|trace| - 1]) && Grows(trace[0], trace[|trace| - 1])
    decreases |trace|
  {
    if |trace| > 1 {
      assert Moves(trace[0], trace[1]);
      var move :| trace[1] == Do(trace[0], move);
      DoKeeps(trace[0], move);
      DoGrows(trace[0], move);
      RunKeeps(trace[1..]);
    }
  }

  lemma ReachableHolds(sys: System)
    requires Leads(START, sys)
    ensures Inv(sys)
  {
    var trace :| IsRun(trace) && trace[0] == START && trace[|trace| - 1] == sys;
    RunKeeps(trace);
  }

  /** At most one request at a time is between its reservation and its completion or release. */
  lemma OneWorker(sys: System, r: nat, r': nat)
    requires Leads(START, sys) && Sound(sys) && r < |sys.phases| && r' < |sys.phases|
    requires Holds(sys.phases[r]) && Holds(sys.phases[r']) && sys.requests[r].key == sys.requests[r'].key
    ensures r == r'
  {
    ReachableHolds(sys);
    assert HoldsKey(sys, r, sys.requests[r].key) && HoldsKey(sys, r', sys.requests[r].key);
  }

  /** At most one response is ever recorded for a key, and everyone who was answered was answered
      with it, for one and the same operation and body. */
  lemma OneResponse(sys: System, r: nat, r': nat)
    requires Leads(START, sys) && Sound(sys) && r < |sys.phases| && r' < |sys.phases|
    requires sys.phases[r].Ended? && sys.phases[r].reply.Answered? && sys.phases[r'].Ended?
             && sys.phases[r'].reply.Answered?
    requires sys.requests[r].key == sys.requests[r'].key
    ensures sys.requests[r] == sys.requests[r'] && sys.phases[r] == sys.phases[r']
    ensures forall m, n :: 0 <= m < n < |sys.recorded| ==> sys.recorded[m].0 != sys.recorded[n].0
  {
    ReachableHolds(sys);
  }

  /** Once a response is recorded, every later request with the key, however it is run, is answered
      with it when it is equal and the body is not null, waits in vain when it is equal and the body
      is null, and conflicts when it differs. */
  lemma LaterRequests(sys: System, sys': System, n: nat, r: nat)
    requires Leads(START, sys) && Leads(sys, sys') && n < |sys.recorded|
    requires Sound(sys') && r < |sys'.phases| && sys'.phases[r] == Waiting && sys'.requests[r].key == sys.recorded[n].0
    requires sys.recorded[n].0 in sys.table
    ensures var q, response := sys'.requests[r], sys.recorded[n].1;
            var record := sys.table[sys.recorded[n].0];
            var reply := if !Matches(record, q) then KeyReused
                         else if response.body.Some? then Answered(response) else StillInProgress;
            && Do(sys', Arrive(r)).phases[r] == Ended(reply)
            && (forall mutation :: Do(sys', Whole(r, mutation)).phases[r] == Ended(reply))
  {
    ReachableHolds(sys);
    var trace :| IsRun(trace) && trace[0] == sys && trace[|trace| - 1] == sys';
    RunKeeps(trace);
  }

  /** A request starts working exactly when no record holds its key; so after a release that commits
      the key is usable again, and while a record without a response stands it is not. */
  lemma WorksExactly(sys: System, r: nat)
    requires Sound(sys) && r < |sys.phases| && sys.phases[r] == Waiting
    ensures Do(sys, Arrive(r)).phases[r] == Working <==> sys.requests[r].key !in sys.table
  {
  }

  /** A request whose work came back is answered with it, and the response recorded. */
  lemma FinishAnswers(sys: System, r: nat)
    requires Leads(START, sys) && Sound(sys) && r < |sys.phases| && sys.phases[r].Finishing?
    ensures var q, response := sys.requests[r], sys.phases[r].response;
            var sys' := Do(sys, Finish(r));
            && sys'.phases[r] == Ended(Answered(response))
            && sys'.table == sys.table[q.key := Record(q.operation, q.hash, Some(response))]
            && sys'.recorded == sys.recorded + [(q.key, response)]
  {
    ReachableHolds(sys);
  }

  lemma ReleaseFreesKey(sys: System, r: nat)
    requires Leads(START, sys) && Sound(sys) && r < |sys.phases| && sys.phases[r] == Undoing
    ensures sys.requests[r].key !in Do(sys, Undo(r)).table
  {
    ReachableHolds(sys);
  }

  /** A record that nobody holds and nobody answered. */
  ghost predicate Stranded(sys: System, key: Key) {
    && Sound(sys) && key in sys.table && sys.table[key].response.None?
    && (forall r :: 0 <= r < |sys.phases| ==> !HoldsKey(sys, r, key))
  }

  /** Of all moves, exactly a crash of the request that holds a key, or a completion or release of it that
      fails, strands the key. */
  lemma StrandsExactly(sys: System, r: nat, move: Move)
    requires HoldersFit(sys) && r < |sys.phases| && Holds(sys.phases[r])
    ensures Stranded(Do(sys, move), sys.requests[r].key) <==> move == Stop(r)
  {
    var key := sys.requests[r].key;
    var sys' := Do(sys, move);
    assert HoldsKey(sys, r, key);
    if move == Stop(r) {
      forall k | 0 <= k < |sys'.phases| ensures !HoldsKey(sys', k, key) {
        if k != r && HoldsKey(sys', k, key) { assert HoldsKey(sys, k, key); }
      }
    } else if Sound(sys') && r < |sys'.phases| && Holds(sys'.phases[r]) {
      assert HoldsKey(sys', r, key);
    }
  }

  lemma StrandedStays(sys: System, move: Move, key: Key)
    requires Inv(sys) && Stranded(sys, key)
    ensures Stranded(Do(sys, move), key)
  {
    var sys' := Do(sys, move);
    if !move.Send? && move.r < |sys.phases| {
      DoAdvances(sys, move);
      assert !HoldsKey(sys, move.r, key);
      assert key in sys'.table && sys'.table[key] == sys.table[key];
    }
    forall k | 0 <= k < |sys'.phases| ensures !HoldsKey(sys', k, key) {
      if k < |sys.phases| { assert !HoldsKey(sys, k, key); }
    }
  }

  lemma {:induction false} StrandedAlong(trace: seq<System>, key: Key)
    requires IsRun(trace) && Inv(trace[0]) && Stranded(trace[0], key)
    ensures Stranded(trace[|trace| - 1], key)
    decreases |trace|
  {
    if |trace| > 1 {
      assert Moves(trace[0], trace[1]);
      var move :| trace[1] == Do(trace[0], move);
      DoKeeps(trace[0], move);
      StrandedStays(trace[0], move, key);
      StrandedAlong(trace[1..], key);
    }
  }

  /** A stranded key is never worked on nor answered again, whatever happens. */
  lemma StrandedForEver(sys: System, key: Key, sys': System, r: nat)
    requires Leads(START, sys) && Stranded(sys, key) && Leads(sys, sys')
    requires Sound(sys') && r < |sys'.phases| && sys'.phases[r] == Waiting && sys'.requests[r].key == key
    ensures Stranded(sys', key)
    ensures Do(sys', Arrive(r)).phases[r] == Ended(KeyReused) || Do(sys', Arrive(r)).phases[r] == Ended(StillInProgress)
  {
    ReachableHolds(sys);
    var trace :| IsRun(trace) && trace[0] == sys && trace[|trace| - 1] == sys';
    StrandedAlong(trace, key);
  }
}
