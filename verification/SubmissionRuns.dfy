/** What the submissions of several workers come to, over whole runs
    (GenerationWorker in apps/api/src/generation.ts). */
module SubmissionRuns {
  import opened Wrappers
  import opened Domain
  import opened ControlPlane
  import opened Lifecycle
  import opened Submission
  import Runs

  // ---------------------------------------------------------------------------- whole runs

  ghost predicate Moves(sys: System, sys': System) {
    Linked(sys.db) && exists move :: sys' == Do(sys, move)
  }

  ghost predicate IsRun(trace: seq<System>) {
    trace != [] && forall n :: 0 <= n < |trace| - 1 ==> Moves(trace[n], trace[n + 1])
  }

  ghost predicate Leads(sys: System, sys': System) {
    exists trace :: IsRun(trace) && trace[0] == sys && trace[|trace| - 1] == sys'
  }

  function Start(maxAttempts: nat): System { System(Empty(maxAttempts), map[], []) }

  /** Some interleaving of workers, crashes, recoveries and API calls leads from an empty store to sys. */
  ghost predicate Possible(maxAttempts: nat, sys: System) {
    Leads(Start(maxAttempts), sys)
  }

  lemma {:induction false} RunFits(trace: seq<System>)
    requires IsRun(trace) && SystemFits(trace[0])
    ensures SystemFits(trace[|trace| - 1])
    decreases |trace|
  {
    if |trace| > 1 {
      assert Moves(trace[0], trace[1]);
      var move :| trace[1] == Do(trace[0], move);
      DoFits(trace[0], move);
      RunFits(trace[1..]);
    }
  }

  lemma PossibleFits(maxAttempts: nat, sys: System)
    requires Possible(maxAttempts, sys)
    ensures SystemFits(sys)
  {
    var trace :| IsRun(trace) && trace[0] == Start(maxAttempts) && trace[|trace| - 1] == sys;
    StartFits(maxAttempts);
    RunFits(trace);
  }

  lemma StartFits(maxAttempts: nat)
    ensures SystemFits(Start(maxAttempts))
  {
    Runs.EmptyHolds(maxAttempts);
  }

  lemma PossibleNext(maxAttempts: nat, sys: System, move: Move)
    requires Possible(maxAttempts, sys) && Linked(sys.db)
    ensures Possible(maxAttempts, Do(sys, move))
  {
    var trace :| IsRun(trace) && trace[0] == Start(maxAttempts) && trace[|trace| - 1] == sys;
    var longer := trace + [Do(sys, move)];
    assert Moves(sys, Do(sys, move));
    assert IsRun(longer) && longer[0] == trace[0] && longer[|longer| - 1] == Do(sys, move);
  }

  /** Whatever the workers do, at most one of them ever commits an attempt's move to submitting. */
  lemma OneIntentEver(maxAttempts: nat, sys: System, i: nat)
    requires Possible(maxAttempts, sys)
    ensures Intents(sys.db.events, i) <= 1
  {
    PossibleFits(maxAttempts, sys);
    if i < |sys.db.attempts| { assert Fits(sys.db.attempts[i], Intents(sys.db.events, i)); }
  }

  /** A submission for an attempt in progress follows the intent exactly when the stored row has left
      the queue, which it always has when the worker loaded any row but a queued one. */
  lemma SubmissionFollowsIntent(maxAttempts: nat, sys: System, w: WorkerId)
    requires Possible(maxAttempts, sys) && PhaseOf(sys, w).Sending?
    ensures var phase := PhaseOf(sys, w);
            && phase.i < |sys.db.attempts|
            && var status := sys.db.attempts[phase.i].status;
            && (!Terminal(status) ==> (Intents(sys.db.events, phase.i) == 1 <==> status != Queued && status != Claimed))
            && (!Terminal(status) && phase.seen != Queued ==> Intents(sys.db.events, phase.i) == 1)
  {
    PossibleFits(maxAttempts, sys);
    var phase := PhaseOf(sys, w);
    assert PhaseFits(sys.db, phase);
    assert !Transient(sys.db.attempts[phase.i].status);
    assert Fits(sys.db.attempts[phase.i], Intents(sys.db.events, phase.i));
  }

  /** A worker that recovered an attempt in flight never submits it. */
  lemma RecoveredIsNotResubmitted(maxAttempts: nat, sys: System, w: WorkerId)
    requires Possible(maxAttempts, sys) && PhaseOf(sys, w).Sending?
    ensures PhaseOf(sys, w).claimed == Claimed
  {
    PossibleFits(maxAttempts, sys);
    assert PhaseFits(sys.db, PhaseOf(sys, w));
  }

  lemma FailedRow(db: State, i: nat, code: FailureCode)
    requires Inv(db) && i < |db.attempts| && InFlight(db.attempts[i].status)
    ensures i < |Apply(db, StepFailAttempt(i, EndFailed, code)).attempts|
    ensures var a := Apply(db, StepFailAttempt(i, EndFailed, code)).attempts[i];
            a.status == Failed && a.failure == Some(code)
  {
    ViewIsConsistent(db, i);
    FailureCommits(ViewOf(db, i), code);
    Runs.ApplyStores(db, StepFailAttempt(i, EndFailed, code));
  }

  lemma FailureCommits(v: View, code: FailureCode)
    requires Consistent(v) && InFlight(v.attempt.status)
    ensures var r := FailAttempt(v.attempt, v.shot, v.project, EndFailed, code);
            r.Success? && r.value.attempt.status == Failed && r.value.attempt.failure == Some(code)
  {
  }

  lemma RecoveredIsAnnounced(sys: System, w: WorkerId)
    requires SystemFits(sys) && PhaseOf(sys, w).Looking? && PhaseOf(sys, w).claimed != Claimed
    ensures var i := PhaseOf(sys, w).i;
            i < |sys.db.attempts| && (Intents(sys.db.events, i) == 1 || Terminal(sys.db.attempts[i].status))
  {
    var i := PhaseOf(sys, w).i;
    assert PhaseFits(sys.db, PhaseOf(sys, w));
    assert Fits(sys.db.attempts[i], Intents(sys.db.events, i));
  }

  lemma MissRecovered(sys: System, w: WorkerId)
    requires Linked(sys.db) && PhaseOf(sys, w).Looking? && PhaseOf(sys, w).claimed != Claimed
    requires PhaseOf(sys, w).i < |sys.db.attempts|
    ensures var i := PhaseOf(sys, w).i;
            Do(sys, MissHistory(w)).db == Apply(sys.db, StepFailAttempt(i, EndFailed, ComfySubmissionUncertain))
    ensures PhaseOf(Do(sys, MissHistory(w)), w) == Idle
  {
  }

  /** When it finds no history, the attempt was announced, and if still in flight it ends failed as
      uncertain. */
  lemma RecoveredEndsUncertain(maxAttempts: nat, sys: System, w: WorkerId)
    requires Possible(maxAttempts, sys) && Linked(sys.db) && PhaseOf(sys, w).Looking?
             && PhaseOf(sys, w).claimed != Claimed
    ensures var i := PhaseOf(sys, w).i;
            var db' := Do(sys, MissHistory(w)).db;
            && i < |sys.db.attempts| && (Intents(sys.db.events, i) == 1 || Terminal(sys.db.attempts[i].status))
            && PhaseOf(Do(sys, MissHistory(w)), w) == Idle
            && (InFlight(sys.db.attempts[i].status) ==>
                  i < |db'.attempts| && db'.attempts[i].status == Failed
                    && db'.attempts[i].failure == Some(ComfySubmissionUncertain))
  {
    PossibleFits(maxAttempts, sys);
    RecoveredIsAnnounced(sys, w);
    MissRecovered(sys, w);
    var i := PhaseOf(sys, w).i;
    if InFlight(sys.db.attempts[i].status) { FailedRow(sys.db, i, ComfySubmissionUncertain); }
  }

  /** What such a submission returns cannot be recorded while the row waits in the queue. */
  lemma UnannouncedIsNotRecorded(db: State, i: nat, prompt: PromptId)
    requires Linked(db) && IntentsFit(db) && i < |db.attempts|
    requires db.attempts[i].status == Queued || db.attempts[i].status == Claimed
    ensures Transact(db, StepPersistSubmitted(i, prompt)).Failure?
  {
    assert Fits(db.attempts[i], Intents(db.events, i));
    Runs.CommitsWithEffect(db, StepPersistSubmitted(i, prompt));
  }

  // ------------------------------------------------------------- one submission an attempt?

  /** Of all submissions of an attempt at most one was announced, and every other one for an attempt
      still in progress was made by a worker that went on from a loaded row that was not claimed. */
  lemma OneAnnouncedSubmission(maxAttempts: nat, sys: System, m: nat, n: nat)
    requires Possible(maxAttempts, sys) && m < n < |sys.sent| && sys.sent[m].i == sys.sent[n].i
    requires !sys.sent[m].ended && !sys.sent[n].ended
    ensures sys.sent[m].way == Bypassed || sys.sent[n].way == Bypassed
  {
    PossibleFits(maxAttempts, sys);
  }
}
