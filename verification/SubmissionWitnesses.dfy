/** Concrete runs of several workers whose submissions were not announced by the worker that made them
    (GenerationWorker in apps/api/src/generation.ts). */
module SubmissionWitnesses {
  import opened Wrappers
  import opened Domain
  import opened ControlPlane
  import opened Lifecycle
  import opened Submission
  import opened SubmissionRuns
  import opened Resubmission
  import Runs
  import SampleRuns

  lemma Continue(sys: System, move: Move) returns (sys': System)
    requires Possible(3, sys) && Linked(sys.db)
    ensures sys' == Do(sys, move) && Possible(3, sys') && Linked(sys'.db)
  {
    sys' := Do(sys, move);
    PossibleNext(3, sys, move);
    PossibleFits(3, sys');
  }

  lemma EmptySystem() returns (sys: System)
    ensures Possible(3, sys) && Linked(sys.db) && sys == Start(3)
  {
    sys := Start(3);
    assert IsRun([sys]);
    assert Possible(3, sys);
  }

  lemma ReadySteps()
    ensures var s1 := Apply(Empty(3), StepCreateProject(true, None));
            Linked(s1) && SampleRuns.Ready(Apply(s1, StepCreateShot(0)), None, 1)
  {
  }

  lemma ReadySystem() returns (sys: System)
    ensures Possible(3, sys) && Linked(sys.db) && sys.workers == map[] && sys.sent == []
    ensures SampleRuns.Ready(sys.db, None, 1) && sys.db.maxAttempts == 3
  {
    ReadySteps();
    var sys0 := EmptySystem();
    var sys1 := Continue(sys0, ByOthers(StepCreateProject(true, None)));
    sys := Continue(sys1, ByOthers(StepCreateShot(0)));
  }

  lemma QueuedSystem() returns (sys: System)
    ensures Possible(3, sys) && Linked(sys.db) && sys.workers == map[] && sys.sent == [] && OneRow(sys.db, Queued, None)
  {
    var sys2 := ReadySystem();
    SampleRuns.CreateCommits(sys2.db, 0, 100000, 0);
    SampleRuns.CreateApplies(sys2.db, 0, 100000, 0);
    sys := Continue(sys2, ByOthers(StepCreateAttempt(0, RevisionValidated, 100000, 0)));
  }

  // -------------------------------------------------------------- the moves of the runs below

  /** The only attempt, which no prompt was recorded for. */
  predicate OneRow(db: State, status: AttemptStatus, expires: Option<int>) {
    && |db.attempts| == 1 && db.attempts[0].status == status
    && db.attempts[0].prompt == None && db.attempts[0].leaseExpires == expires
  }

  lemma ClaimRow(db: State, w: WorkerId, now: int, expires: int)
    requires Linked(db) && OneRow(db, Queued, None)
    ensures OneRow(Apply(db, StepClaimNext(0, w, now, expires)), Claimed, Some(expires))
  {
    Runs.ApplyStores(db, StepClaimNext(0, w, now, expires));
  }

  lemma StaleRow(db: State, expires: int, now: int)
    requires Linked(db) && OneRow(db, Claimed, Some(expires)) && expires < now
    ensures OneRow(Apply(db, StepRecoverStale(now)), Queued, None)
  {
  }

  lemma IntendRow(db: State, w: WorkerId, expires: int, was: Option<int>)
    requires Linked(db) && OneRow(db, Claimed, was)
    ensures Transact(db, StepSubmitIntent(0, w, expires)).Success?
    ensures OneRow(Apply(db, StepSubmitIntent(0, w, expires)), Submitting, Some(expires))
  {
    Runs.ApplyStores(db, StepSubmitIntent(0, w, expires));
  }

  lemma RecoverRow(db: State, w: WorkerId, was: int, now: int, expires: int)
    requires Linked(db) && OneRow(db, Submitting, Some(was)) && was < now && was != expires
    ensures OneRow(Apply(db, StepClaimForRecovery(0, w, now, expires)), Submitting, Some(expires))
  {
    Runs.ApplyStores(db, StepClaimForRecovery(0, w, now, expires));
  }

  /** Worker w claims the queued row. */
  lemma Claims(sys: System, w: WorkerId, now: int, expires: int) returns (sys': System)
    requires Possible(3, sys) && Linked(sys.db) && PhaseOf(sys, w) == Idle && OneRow(sys.db, Queued, None)
    ensures Possible(3, sys') && Linked(sys'.db) && OneRow(sys'.db, Claimed, Some(expires))
    ensures sys'.workers == sys.workers[w := Holding(0, Claimed)] && sys'.sent == sys.sent
  {
    ClaimRow(sys.db, w, now, expires);
    sys' := Continue(sys, Claim(w, 0, now, expires, false));
  }

  lemma Loads(sys: System, w: WorkerId, claimed: AttemptStatus, status: AttemptStatus, expires: Option<int>)
    returns (sys': System)
    requires Possible(3, sys) && Linked(sys.db) && PhaseOf(sys, w) == Holding(0, claimed)
    requires OneRow(sys.db, status, expires) && !Terminal(status)
    ensures Possible(3, sys') && Linked(sys'.db) && sys'.db == sys.db && sys'.sent == sys.sent
    ensures sys'.workers == sys.workers[w := Deciding(0, claimed, status, None)]
  {
    sys' := Continue(sys, Load(w));
  }

  lemma Stales(sys: System, expires: int, now: int) returns (sys': System)
    requires Possible(3, sys) && Linked(sys.db) && OneRow(sys.db, Claimed, Some(expires)) && expires < now
    ensures Possible(3, sys') && Linked(sys'.db) && OneRow(sys'.db, Queued, None)
    ensures sys'.workers == sys.workers && sys'.sent == sys.sent
  {
    StaleRow(sys.db, expires, now);
    sys' := Continue(sys, ByOthers(StepRecoverStale(now)));
  }

  lemma Announce(sys: System, w: WorkerId, was: int, expires: int) returns (sys': System)
    requires Possible(3, sys) && Linked(sys.db) && OneRow(sys.db, Claimed, Some(was))
    requires PhaseOf(sys, w) == Deciding(0, Claimed, Claimed, None)
    ensures Possible(3, sys') && Linked(sys'.db) && OneRow(sys'.db, Submitting, Some(expires))
    ensures sys'.workers == sys.workers[w := Looking(0, Claimed, Submitting, None, Announced)] && sys'.sent == sys.sent
  {
    IntendRow(sys.db, w, expires, Some(was));
    IntendDoes(sys, w, expires);
    sys' := Continue(sys, Intend(w, expires));
  }

  lemma Proceeds(sys: System, w: WorkerId, claimed: AttemptStatus, status: AttemptStatus) returns (sys': System)
    requires Possible(3, sys) && Linked(sys.db) && PhaseOf(sys, w) == Deciding(0, claimed, status, None)
    requires status != Claimed
    ensures Possible(3, sys') && Linked(sys'.db) && sys'.db == sys.db && sys'.sent == sys.sent
    ensures sys'.workers == sys.workers[w := Looking(0, claimed, status, None, Bypassed)]
  {
    sys' := Continue(sys, Proceed(w));
  }

  lemma Misses(sys: System, w: WorkerId, seen: AttemptStatus, way: Way) returns (sys': System)
    requires Possible(3, sys) && Linked(sys.db) && |sys.db.attempts| == 1 && !Terminal(sys.db.attempts[0].status)
    requires PhaseOf(sys, w) == Looking(0, Claimed, seen, None, way)
    ensures Possible(3, sys') && Linked(sys'.db) && sys'.db == sys.db
    ensures sys'.sent == sys.sent + [Submission(0, way, false)]
    ensures sys'.workers == sys.workers[w := Sending(0, Claimed, seen, way)]
  {
    sys' := Continue(sys, MissHistory(w));
  }

  lemma Recovers(sys: System, w: WorkerId, was: int, now: int, expires: int) returns (sys': System)
    requires Possible(3, sys) && Linked(sys.db) && OneRow(sys.db, Submitting, Some(was)) && was < now && was != expires
    requires PhaseOf(sys, w) == Idle
    ensures Possible(3, sys') && Linked(sys'.db) && OneRow(sys'.db, Submitting, Some(expires))
    ensures sys'.workers == sys.workers[w := Holding(0, Submitting)] && sys'.sent == sys.sent
  {
    RecoverRow(sys.db, w, was, now, expires);
    sys' := Continue(sys, Claim(w, 0, now, expires, true));
  }

  /** What the only attempt's status says of its intents. */
  lemma StatusFixesIntents(sys: System)
    requires Possible(3, sys) && |sys.db.attempts| == 1
    ensures sys.db.attempts[0].status == Queued ==> Intents(sys.db.events, 0) == 0
    ensures sys.db.attempts[0].status == Submitting ==> Intents(sys.db.events, 0) == 1
  {
    PossibleFits(3, sys);
    assert Fits(sys.db.attempts[0], Intents(sys.db.events, 0));
  }

  // ------------------------------------------------------------------------- the runs

  /** A worker that stalls past its lease before loading its attempt finds it queued again, skips the
      announcement and submits: a submission in progress with no intent in the log. */
  lemma UnannouncedSubmission() returns (sys: System)
    ensures Possible(3, sys) && PhaseOf(sys, 0) == Sending(0, Claimed, Queued, Bypassed)
    ensures |sys.db.attempts| == 1 && sys.db.attempts[0].status == Queued && Intents(sys.db.events, 0) == 0
  {
    var sys0 := QueuedSystem();
    var sys1 := Claims(sys0, 0, 0, 60);
    var sys2 := Stales(sys1, 60, 61);
    var sys3 := Loads(sys2, 0, Claimed, Queued, None);
    var sys4 := Proceeds(sys3, 0, Claimed, Queued);
    sys := Misses(sys4, 0, Queued, Bypassed);
    StatusFixesIntents(sys);
  }

  /** Worker 0 loads its claimed row and stalls; its lease runs out and worker 1 claims the row. */
  lemma ClaimedTwice() returns (sys: System)
    ensures Possible(3, sys) && Linked(sys.db) && OneRow(sys.db, Claimed, Some(130)) && sys.sent == []
    ensures sys.workers == map[0 := Deciding(0, Claimed, Claimed, None), 1 := Holding(0, Claimed)]
  {
    var sys0 := QueuedSystem();
    var sys1 := Claims(sys0, 0, 0, 60);
    var sys2 := Loads(sys1, 0, Claimed, Claimed, Some(60));
    var sys3 := Stales(sys2, 60, 61);
    sys := Claims(sys3, 1, 62, 130);
  }

  /** Two workers are about to submit one attempt. */
  predicate Racing(sys: System) {
    && OneRow(sys.db, Submitting, Some(130)) && sys.sent == [] && PhaseOf(sys, 2) == Idle
    && PhaseOf(sys, 0) == Looking(0, Claimed, Submitting, None, Announced)
    && PhaseOf(sys, 1) == Looking(0, Claimed, Submitting, None, Bypassed)
  }

  /** Worker 0 announces the attempt worker 1 has claimed, and worker 1 then loads a row that is no
      longer claimed. */
  lemma Races() returns (sys: System)
    ensures Possible(3, sys) && Linked(sys.db) && Racing(sys)
  {
    var sys0 := ClaimedTwice();
    var sys1 := Announce(sys0, 0, 130, 130);
    var sys2 := Loads(sys1, 1, Claimed, Submitting, Some(130));
    sys := Proceeds(sys2, 1, Claimed, Submitting);
  }

  lemma TwoSends(first: Submission, second: Submission)
    requires first.i == second.i == 0
    ensures Sends([] + [first] + [second], 0) == 2
  {
    var sent := [] + [first] + [second];
    assert sent[..|sent| - 1] == [first];
    assert [first][..|[first]| - 1] == [];
    assert Sends([first], 0) == 1;
  }

  /** Both submit: two workers have sent an attempt that was announced once. */
  lemma TwoSubmitters() returns (sys: System)
    ensures Possible(3, sys) && |sys.db.attempts| == 1 && sys.db.attempts[0].status == Submitting
    ensures Intents(sys.db.events, 0) == 1 && Sends(sys.sent, 0) == 2
    ensures PhaseOf(sys, 0) == Sending(0, Claimed, Submitting, Announced)
    ensures PhaseOf(sys, 1) == Sending(0, Claimed, Submitting, Bypassed)
  {
    var sys0 := Races();
    var sys1 := Misses(sys0, 1, Submitting, Bypassed);
    sys := Misses(sys1, 0, Submitting, Announced);
    TwoSends(Submission(0, Bypassed, false), Submission(0, Announced, false));
    StatusFixesIntents(sys);
  }

  /** Worker 2 recovers the attempt, submitted once, while worker 1 is still about to submit it. */
  lemma RecoveredAndPending() returns (sys: System)
    ensures Possible(3, sys) && |sys.db.attempts| == 1 && sys.db.attempts[0].status == Submitting
    ensures sys.sent == [Submission(0, Announced, false)]
    ensures PhaseOf(sys, 2) == Looking(0, Submitting, Submitting, None, Bypassed)
    ensures PhaseOf(sys, 1) == Looking(0, Claimed, Submitting, None, Bypassed)
  {
    var sys0 := Races();
    var sys1 := Misses(sys0, 0, Submitting, Announced);
    var sys2 := Recovers(sys1, 2, 130, 200, 260);
    var sys3 := Loads(sys2, 2, Submitting, Submitting, Some(260));
    sys := Proceeds(sys3, 2, Submitting, Submitting);
  }

  /** So an attempt recovered in flight, without history, can be submitted once more. */
  lemma RecoveredIsResubmitted() returns (sys: System)
    ensures Possible(3, sys) && |sys.db.attempts| == 1 && InFlight(sys.db.attempts[0].status)
    ensures PhaseOf(sys, 2).Looking? && PhaseOf(sys, 2).i == 0 && InFlight(PhaseOf(sys, 2).claimed)
    ensures Sends(sys.sent, 0) == 1 && SubmittedLater(sys, 0)
  {
    sys := RecoveredAndPending();
    assert sys.sent[..0] == [];
    assert Pending(PhaseOf(sys, 1), 0);
    ResubmittedExactly(3, sys, 0);
  }

  /** The recovering worker fails the attempt while worker 1 is still about to submit it. */
  lemma RecoveredAndEnded() returns (sys: System)
    ensures Possible(3, sys) && 0 < |sys.db.attempts| && Terminal(sys.db.attempts[0].status)
    ensures sys.sent == [Submission(0, Announced, false)]
    ensures PhaseOf(sys, 1) == Looking(0, Claimed, Submitting, None, Bypassed)
  {
    var sys0 := RecoveredAndPending();
    FitsHolds(sys0);
    RecoveryFails(sys0, 2, 0);
    sys := Continue(sys0, MissHistory(2));
  }

  lemma FitsHolds(sys: System)
    requires Possible(3, sys)
    ensures Inv(sys.db)
  {
    PossibleFits(3, sys);
  }

  /** So an attempt can be submitted after it has ended. */
  lemma EndedIsSubmitted() returns (sys: System)
    ensures Possible(3, sys) && 0 < |sys.db.attempts| && Terminal(sys.db.attempts[0].status)
    ensures Sends(sys.sent, 0) == 1 && SubmittedLater(sys, 0)
  {
    sys := RecoveredAndEnded();
    assert sys.sent[..0] == [];
    assert Pending(PhaseOf(sys, 1), 0) && !PhaseOf(sys, 1).Holding?;
    EndedSubmittedExactly(3, sys, 0);
  }
}
