/** One recommendation for each trigger event, however often it is delivered and however many
    deferred runs race for it (apps/api/src/operator.ts). The recommendation code is a function of the
    event, so trigger and code are one key. */
module OperatorRuns {
  import opened Wrappers

  type EventId = nat

  datatype RunStatus = RunRunning | RunSucceeded | RunFailed

  datatype AgentRun = AgentRun(status: RunStatus, version: nat)

  /** The agent runs by trigger event, the trigger of every recommendation, and the trigger of every
      recommendation.created event in the log. */
  datatype State = State(runs: map<EventId, AgentRun>, recommendations: seq<EventId>, created: seq<EventId>)

  const EMPTY := State(map[], [], [])

  datatype Failure = VersionConflict | UniqueViolation | Thrown

  predicate TerminalRun(run: AgentRun) { run.status != RunRunning }

  /** How far persistOutcome gets before the program throws, if it does. */
  datatype Trouble = NoTrouble | AfterUpdate | AfterCreate

  /** What persistOutcome has written when it returns or throws. A unique violation comes from the
      database and aborts the transaction, so nothing it wrote matters then. */
  function Persisted(s: State, e: EventId, version: nat, succeeds: bool, trouble: Trouble): (State, Option<Failure>) {
    if e !in s.runs || s.runs[e].version != version then (s, Some(VersionConflict))
    else
      var ended := s.(runs := s.runs[e := AgentRun(if succeeds then RunSucceeded else RunFailed, version + 1)]);
      if trouble == AfterUpdate then (ended, Some(Thrown))
      else if e in s.recommendations then (ended, Some(UniqueViolation))
      else
        var found := ended.(recommendations := s.recommendations + [e]);
        if trouble == AfterCreate then (found, Some(Thrown)) else (found.(created := s.created + [e]), None)
  }

  /** The claim: a delivered trigger with a recommendation is a duplicate; otherwise its run is created
      and, for the inline provider, completed at once. */
  function Claimed(s: State, e: EventId, resolved: bool, inline: bool, succeeds: bool, trouble: Trouble)
    : (State, Option<Failure>)
  {
    if e in s.recommendations || !resolved then (s, None)
    else
      var running := if e in s.runs then s else s.(runs := s.runs[e := AgentRun(RunRunning, 1)]);
      if inline then Persisted(running, e, running.runs[e].version, succeeds, trouble) else (running, None)
  }

  /** The dispatcher's transaction around the claim: a database error undoes it, but an exception of
      the program is caught inside it, and what was written so far is committed with the failed mark. */
  function Dispatched(s: State, e: EventId, resolved: bool, inline: bool, succeeds: bool, trouble: Trouble): State {
    var (s', failure) := Claimed(s, e, resolved, inline, succeeds, trouble);
    if failure.Some? && failure.value != Thrown then s else s'
  }

  /** The first phase of a deferred run: the version of a run still running, if there is work to do. */
  function Prepared(s: State, e: EventId, resolved: bool): Option<nat> {
    if e in s.recommendations || e !in s.runs || TerminalRun(s.runs[e]) || !resolved then None
    else Some(s.runs[e].version)
  }

  /** The last phase, in a transaction of its own that any exception undoes. */
  function Deferred(s: State, e: EventId, version: nat, succeeds: bool, trouble: Trouble): State {
    var (s', failure) := Persisted(s, e, version, succeeds, trouble);
    if failure.Some? then s else s'
  }

  // ----------------------------------------------------------------------------- invariant

  function Count(xs: seq<EventId>, e: EventId): nat {
    if xs == [] then 0 else Count(xs[..|xs| - 1], e) + (if xs[|xs| - 1] == e then 1 else 0)
  }

  lemma CountAppend(xs: seq<EventId>, x: EventId, e: EventId)
    ensures Count(xs + [x], e) == Count(xs, e) + (if x == e then 1 else 0)
  {
    assert (xs + [x])[..|xs|] == xs;
  }

  lemma {:induction false} CountsMembers(xs: seq<EventId>, e: EventId)
    ensures Count(xs, e) > 0 <==> e in xs
  {
    if xs != [] {
      CountsMembers(xs[..|xs| - 1], e);
      assert xs == xs[..|xs| - 1] + [xs[|xs| - 1]];
    }
  }

  /** Each trigger has at most one recommendation, as many created events as recommendations, and a
      terminal run exactly when it has its recommendation. */
  ghost predicate Good(s: State) {
    forall e :: GoodFor(s, e)
  }

  predicate GoodFor(s: State, e: EventId) {
    && Count(s.recommendations, e) <= 1
    && Count(s.created, e) == Count(s.recommendations, e)
    && (e in s.runs && TerminalRun(s.runs[e]) <==> e in s.recommendations)
  }

  lemma PersistedGood(s: State, e: EventId, version: nat, succeeds: bool)
    requires Good(s) && Persisted(s, e, version, succeeds, NoTrouble).1.None?
    ensures Good(Persisted(s, e, version, succeeds, NoTrouble).0)
  {
    var s' := Persisted(s, e, version, succeeds, NoTrouble).0;
    forall x ensures GoodFor(s', x) {
      assert GoodFor(s, x);
      PersistedGoodFor(s, e, version, succeeds, x);
    }
  }

  lemma PersistedGoodFor(s: State, e: EventId, version: nat, succeeds: bool, x: EventId)
    requires GoodFor(s, x) && Persisted(s, e, version, succeeds, NoTrouble).1.None?
    ensures GoodFor(Persisted(s, e, version, succeeds, NoTrouble).0, x)
  {
    CountAppend(s.recommendations, e, x);
    CountAppend(s.created, e, x);
    CountsMembers(s.recommendations, x);
  }

  /** A deferred run keeps the state good, whatever happens to it and whenever it lost a race. */
  lemma DeferredGood(s: State, e: EventId, version: nat, succeeds: bool, trouble: Trouble)
    requires Good(s)
    ensures Good(Deferred(s, e, version, succeeds, trouble))
  {
    if Persisted(s, e, version, succeeds, trouble).1.None? { PersistedGood(s, e, version, succeeds); }
  }

  lemma RunningGood(s: State, e: EventId)
    requires Good(s) && e !in s.runs
    ensures Good(s.(runs := s.runs[e := AgentRun(RunRunning, 1)]))
  {
    var s' := s.(runs := s.runs[e := AgentRun(RunRunning, 1)]);
    forall x ensures GoodFor(s', x) {
      assert GoodFor(s, x) && GoodFor(s, e);
    }
  }

  /** Whether the dispatcher commits only part of what persistOutcome writes. */
  predicate CutShort(s: State, e: EventId, resolved: bool, inline: bool, trouble: Trouble) {
    inline && resolved && e !in s.recommendations && trouble != NoTrouble
  }

  /** A dispatched claim keeps the state good exactly when no exception of the program cuts the inline
      run short between its writes. */
  lemma DispatchedGood(s: State, e: EventId, resolved: bool, inline: bool, succeeds: bool, trouble: Trouble)
    requires Good(s)
    ensures Good(Dispatched(s, e, resolved, inline, succeeds, trouble)) <==> !CutShort(s, e, resolved, inline, trouble)
  {
    if e in s.recommendations || !resolved {
    } else {
      var running := if e in s.runs then s else s.(runs := s.runs[e := AgentRun(RunRunning, 1)]);
      if e !in s.runs { RunningGood(s, e); }
      if inline {
        var s' := Dispatched(s, e, resolved, inline, succeeds, trouble);
        match trouble {
          case NoTrouble => PersistedGood(running, e, running.runs[e].version, succeeds);
          case AfterUpdate => assert !GoodFor(s', e);
          case AfterCreate =>
            assert GoodFor(s, e);
            CountAppend(s.recommendations, e, e);
            assert !GoodFor(s', e);
        }
      }
    }
  }

  lemma EmptyGood()
    ensures Good(EMPTY)
  {
  }

  /** The first delivery of a trigger whose identifier generator throws once the run is updated: the run is
      committed as ended, without a recommendation. */
  lemma ThrowAfterUpdateBreaks()
    ensures Good(EMPTY) && !Good(Dispatched(EMPTY, 0, true, true, true, AfterUpdate))
  {
    EmptyGood();
    DispatchedGood(EMPTY, 0, true, true, true, AfterUpdate);
  }

  // ---------------------------------------------------------------------------- whole runs

  /** A deferred run between its phases; a crash leaves it where it is for ever. */
  datatype Phase = Calling(e: EventId, version: nat) | Done

  datatype System = System(db: State, deferred: seq<Phase>)

  datatype Move =
    | Dispatch(e: EventId, resolved: bool, inline: bool, succeeds: bool, trouble: Trouble)
    | Prepare(e: EventId, resolved: bool)
    | Persist(n: nat, succeeds: bool, trouble: Trouble)

  function Do(sys: System, move: Move): System {
    match move
    case Dispatch(e, resolved, inline, succeeds, trouble) =>
      sys.(db := Dispatched(sys.db, e, resolved, inline, succeeds, trouble))
    case Prepare(e, resolved) =>
      var version := Prepared(sys.db, e, resolved);
      if version.None? then sys else sys.(deferred := sys.deferred + [Calling(e, version.value)])
    case Persist(n, succeeds, trouble) =>
      if n >= |sys.deferred| || sys.deferred[n].Done? then sys
      else
        var Calling(e, version) := sys.deferred[n];
        System(Deferred(sys.db, e, version, succeeds, trouble), sys.deferred[n := Done])
  }

  predicate Cuts(sys: System, move: Move) {
    move.Dispatch? && CutShort(sys.db, move.e, move.resolved, move.inline, move.trouble)
  }

  ghost predicate Moves(sys: System, sys': System) {
    exists move :: !Cuts(sys, move) && sys' == Do(sys, move)
  }

  /** A run of the system in which no exception of the program cuts an inline run short. */
  ghost predicate IsRun(trace: seq<System>) {
    trace != [] && trace[0] == System(EMPTY, []) && forall n :: 0 <= n < |trace| - 1 ==> Moves(trace[n], trace[n + 1])
  }

  lemma DoGood(sys: System, move: Move)
    requires Good(sys.db) && !Cuts(sys, move)
    ensures Good(Do(sys, move).db)
  {
    match move {
      case Dispatch(e, resolved, inline, succeeds, trouble) =>
        DispatchedGood(sys.db, e, resolved, inline, succeeds, trouble);
      case Prepare(_, _) =>
      case Persist(n, succeeds, trouble) =>
        if n < |sys.deferred| && sys.deferred[n].Calling? {
          DeferredGood(sys.db, sys.deferred[n].e, sys.deferred[n].version, succeeds, trouble);
        }
    }
  }

  lemma {:induction false} RunGood(trace: seq<System>, n: nat)
    requires IsRun(trace) && n < |trace|
    ensures Good(trace[n].db)
  {
    if n == 0 {
      EmptyGood();
    } else {
      RunGood(trace, n - 1);
      assert Moves(trace[n - 1], trace[n - 1 + 1]);
      var move :| !Cuts(trace[n - 1], move) && trace[n] == Do(trace[n - 1], move);
      DoGood(trace[n - 1], move);
    }
  }

  /** Under any interleaving of deliveries, redeliveries, crashes and concurrent deferred runs. */
  lemma OneRecommendationEach(trace: seq<System>, n: nat, e: EventId)
    requires IsRun(trace) && n < |trace|
    ensures var s := trace[n].db;
            && Count(s.recommendations, e) <= 1
            && Count(s.created, e) == Count(s.recommendations, e)
            && (e in s.recommendations <==> e in s.runs && TerminalRun(s.runs[e]))
  {
    RunGood(trace, n);
    assert GoodFor(trace[n].db, e);
  }

  /** A move that commits the outcome of a call for a trigger: an inline delivery that gets through, or the
      last phase of a deferred run that still finds the version it read; either only while the trigger has
      no recommendation. */
  predicate Concludes(sys: System, move: Move, e: EventId) {
    && e !in sys.db.recommendations
    && match move
       case Dispatch(x, resolved, inline, _, trouble) => x == e && resolved && inline && trouble == NoTrouble
       case Prepare(_, _) => false
       case Persist(n, _, trouble) =>
         && n < |sys.deferred| && sys.deferred[n].Calling? && sys.deferred[n].e == e && trouble == NoTrouble
         && e in sys.db.runs && sys.db.runs[e].version == sys.deferred[n].version
  }

  /** The run of a trigger ends, succeeded or failed as the call did, with one recommendation that is announced
      once; or neither its end nor its recommendation is touched. */
  predicate EndsRun(s: State, s': State, e: EventId, ends: bool, succeeds: bool) {
    if ends then
      && e in s'.runs && s'.runs[e].status == (if succeeds then RunSucceeded else RunFailed)
      && s'.recommendations == s.recommendations + [e] && s'.created == s.created + [e]
    else
      && (e in s'.recommendations <==> e in s.recommendations)
      && (e in s'.runs && s'.runs[e].status != RunRunning ==> e in s.runs && s'.runs[e] == s.runs[e])
  }

  lemma PersistEnds(s: State, x: EventId, version: nat, succeeds: bool, trouble: Trouble, e: EventId)
    requires GoodFor(s, e)
    ensures var ends := x == e && trouble == NoTrouble && e !in s.recommendations && e in s.runs
                        && s.runs[e].version == version;
            EndsRun(s, Deferred(s, x, version, succeeds, trouble), e, ends, succeeds)
  {
  }

  lemma DispatchEnds(
      s: State, x: EventId, resolved: bool, inline: bool, succeeds: bool, trouble: Trouble, e: EventId)
    requires GoodFor(s, e) && !CutShort(s, x, resolved, inline, trouble)
    ensures var ends := x == e && resolved && inline && e !in s.recommendations;
            EndsRun(s, Dispatched(s, x, resolved, inline, succeeds, trouble), e, ends, succeeds)
  {
  }

  /** The run of a trigger ends with such a move and by no other, succeeded or failed as the call did. */
  lemma EndsWithItsCall(sys: System, move: Move, e: EventId)
    requires Good(sys.db) && !Cuts(sys, move)
    ensures EndsRun(sys.db, Do(sys, move).db, e, Concludes(sys, move, e), !move.Prepare? && move.succeeds)
  {
    assert GoodFor(sys.db, e);
    match move {
      case Dispatch(x, resolved, inline, succeeds, trouble) =>
        DispatchEnds(sys.db, x, resolved, inline, succeeds, trouble, e);
      case Prepare(_, _) =>
      case Persist(n, succeeds, trouble) =>
        if n < |sys.deferred| && sys.deferred[n].Calling? {
          PersistEnds(sys.db, sys.deferred[n].e, sys.deferred[n].version, succeeds, trouble, e);
        }
    }
  }

  ghost predicate EndedBy(sys: System, sys': System, e: EventId, succeeds: bool) {
    exists move :: !Cuts(sys, move) && sys' == Do(sys, move) && Concludes(sys, move, e) && move.succeeds == succeeds
  }

  /** So over whole runs a run that has ended tells the result of the call whose outcome was committed. */
  lemma {:induction false} EndedRunTellsResult(trace: seq<System>, n: nat, e: EventId) returns (m: nat)
    requires IsRun(trace) && n < |trace| && e in trace[n].db.runs && trace[n].db.runs[e].status != RunRunning
    ensures m < n && EndedBy(trace[m], trace[m + 1], e, trace[n].db.runs[e].status == RunSucceeded)
  {
    var last := trace[n - 1];
    RunGood(trace, n - 1);
    assert Moves(last, trace[n - 1 + 1]);
    var move :| !Cuts(last, move) && trace[n] == Do(last, move);
    EndsWithItsCall(last, move, e);
    if Concludes(last, move, e) { m := n - 1; } else { m := EndedRunTellsResult(trace, n - 1, e); }
  }

  /** A delivery whose event resolves leaves its trigger with one recommendation when it runs inline and nothing
      throws, and with a run for a deferred run to prepare when it does not, unless a recommendation stands. */
  lemma DeliveryLeavesWork(s: State, e: EventId, inline: bool, succeeds: bool)
    requires Good(s)
    ensures var s' := Dispatched(s, e, true, inline, succeeds, NoTrouble);
            if inline then Count(s'.recommendations, e) == 1
            else s'.recommendations == s.recommendations && (Prepared(s', e, true).Some? <==> e !in s.recommendations)
  {
    assert GoodFor(s, e);
    if inline {
      var s' := Dispatched(s, e, true, true, succeeds, NoTrouble);
      DispatchedGood(s, e, true, true, succeeds, NoTrouble);
      assert GoodFor(s', e);
      CountsMembers(s'.recommendations, e);
    }
  }

  /** Of several deferred runs that prepared for one trigger, the first to persist wins and the
      others change nothing: the version they read is gone. */
  lemma LateDeferredChangesNothing(s: State, e: EventId, version: nat, first: bool, second: bool)
    requires Prepared(s, e, true) == Some(version)
    ensures var s' := Deferred(s, e, version, first, NoTrouble);
            s'.recommendations == s.recommendations + [e] && Deferred(s', e, version, second, NoTrouble) == s'
  {
  }

  // ------------------------------------------------------------------- the operator service

  /** What a prepared deferred run can still find: its run as it read it, or the recommendation of
      whoever was faster. */
  ghost predicate Pending(s: State, e: EventId, version: nat) {
    e in s.recommendations || (e in s.runs && s.runs[e] == AgentRun(RunRunning, version))
  }

  lemma PersistedPending(s: State, e: EventId, version: nat, x: EventId, v: nat, succeeds: bool, trouble: Trouble)
    requires Good(s) && Pending(s, e, version)
    ensures Persisted(s, x, v, succeeds, trouble).1.None? ==>
            Pending(Persisted(s, x, v, succeeds, trouble).0, e, version)
  {
  }

  lemma DispatchedPending(s: State, e: EventId, version: nat, x: EventId, resolved: bool, inline: bool, succeeds: bool)
    requires Good(s) && Pending(s, e, version)
    ensures Pending(Dispatched(s, x, resolved, inline, succeeds, NoTrouble), e, version)
  {
    var running := if x in s.runs then s else s.(runs := s.runs[x := AgentRun(RunRunning, 1)]);
    if x !in s.runs { RunningGood(s, x); }
    PersistedPending(running, e, version, x, running.runs[x].version, succeeds, NoTrouble);
  }

  /** What others commit while the model is called. */
  datatype Other = OtherDispatch(e: EventId, resolved: bool, inline: bool, succeeds: bool)
    | OtherPersist(e: EventId, version: nat, succeeds: bool)

  function ByOther(s: State, other: Other): State {
    match other
    case OtherDispatch(e, resolved, inline, succeeds) => Dispatched(s, e, resolved, inline, succeeds, NoTrouble)
    case OtherPersist(e, version, succeeds) => Deferred(s, e, version, succeeds, NoTrouble)
  }

  lemma ByOtherPending(s: State, other: Other, e: EventId, version: nat)
    requires Good(s) && Pending(s, e, version)
    ensures Good(ByOther(s, other)) && Pending(ByOther(s, other), e, version)
  {
    match other {
      case OtherDispatch(x, resolved, inline, succeeds) =>
        DispatchedGood(s, x, resolved, inline, succeeds, NoTrouble);
        DispatchedPending(s, e, version, x, resolved, inline, succeeds);
      case OtherPersist(x, v, succeeds) =>
        DeferredGood(s, x, v, succeeds, NoTrouble);
        PersistedPending(s, e, version, x, v, succeeds, NoTrouble);
    }
  }

  class OperatorService {
    var runs: map<EventId, AgentRun>
    var recommendations: seq<EventId>
    var created: seq<EventId>

    constructor ()
      ensures Stored() == EMPTY
    {
      runs, recommendations, created := map[], [], [];
    }

    function Stored(): State
      reads this
    {
      State(runs, recommendations, created)
    }

    method Restore(s: State)
      modifies this
      ensures Stored() == s
    {
      runs, recommendations, created := s.runs, s.recommendations, s.created;
    }

    method PersistOutcome(e: EventId, version: nat, succeeds: bool, trouble: Trouble) returns (failure: Option<Failure>)
      modifies this
      ensures var p := Persisted(old(Stored()), e, version, succeeds, trouble);
              failure == p.1 && (failure != Some(UniqueViolation) ==> Stored() == p.0)
    {
      if e !in runs || runs[e].version != version { return Some(VersionConflict); }
      runs := runs[e := AgentRun(if succeeds then RunSucceeded else RunFailed, version + 1)];
      if trouble == AfterUpdate { return Some(Thrown); }
      if e in recommendations { return Some(UniqueViolation); }
      recommendations := recommendations + [e];
      if trouble == AfterCreate { return Some(Thrown); }
      created := created + [e];
      return None;
    }

    method ProcessEvent(e: EventId, resolved: bool, inline: bool, succeeds: bool, trouble: Trouble)
      returns (failure: Option<Failure>)
      modifies this
      ensures var c := Claimed(old(Stored()), e, resolved, inline, succeeds, trouble);
              failure == c.1 && (failure != Some(UniqueViolation) ==> Stored() == c.0)
    {
      if e in recommendations { return None; }
      if !resolved { return None; }
      if e !in runs { runs := runs[e := AgentRun(RunRunning, 1)]; }
      if !inline { return None; }
      failure := PersistOutcome(e, runs[e].version, succeeds, trouble);
    }

    /** The dispatcher's poll of one message. */
    method PollOnce(e: EventId, resolved: bool, inline: bool, succeeds: bool, trouble: Trouble)
      modifies this
      ensures Stored() == Dispatched(old(Stored()), e, resolved, inline, succeeds, trouble)
    {
      var before := Stored();
      var failure := ProcessEvent(e, resolved, inline, succeeds, trouble);
      if failure.Some? && failure.value != Thrown { Restore(before); }
    }

    /** Prepare, call the model with no transaction open while others commit, persist. Unless it
        crashes, a run that found work to do leaves its trigger with a recommendation, its own or that of
        whoever was faster. */
    method RunDeferred(e: EventId, resolved: bool, others: seq<Other>, succeeds: bool)
      requires Good(Stored())
      modifies this
      ensures Good(Stored())
      ensures Prepared(old(Stored()), e, resolved).Some? ==> e in recommendations && Count(recommendations, e) == 1
    {
      var prepared := Prepared(Stored(), e, resolved);
      if prepared.None? { return; }
      var version := prepared.value;
      var n := 0;
      while n < |others|
        invariant n <= |others| && Good(Stored()) && Pending(Stored(), e, version)
      {
        ByOtherPending(Stored(), others[n], e, version);
        var s := ByOther(Stored(), others[n]);
        Restore(s);
        n := n + 1;
      }
      ghost var last := Stored();
      var before := Stored();
      var failure := PersistOutcome(e, version, succeeds, NoTrouble);
      if failure.Some? { Restore(before); }
      DeferredGood(last, e, version, succeeds, NoTrouble);
      assert Stored() == Deferred(last, e, version, succeeds, NoTrouble);
      CountsMembers(recommendations, e);
      assert GoodFor(Stored(), e);
    }
  }
}
