/** When an attempt is submitted again: for every system that workers, crashes, recoveries and API calls
    can lead to, and every attempt in it (GenerationWorker in apps/api/src/generation.ts). */
module Resubmission {
  import opened Wrappers
  import opened Domain
  import opened ControlPlane
  import opened Lifecycle
  import opened Submission
  import opened SubmissionRuns
  import Completion
  import LifecycleSteps
  import Runs

  /** How often an attempt was submitted. */
  function Sends(sent: seq<Submission>, i: nat): nat {
    if sent == [] then 0 else Sends(sent[..|sent| - 1], i) + (if sent[|sent| - 1].i == i then 1 else 0)
  }

  /** A worker that claimed attempt i from the queue and has not yet decided whether to submit it. */
  predicate Pending(phase: Phase, i: nat) {
    match phase
    case Holding(j, claimed) => j == i && claimed == Claimed
    case Deciding(j, claimed, _, _) => j == i && claimed == Claimed
    case Looking(j, claimed, _, _, _) => j == i && claimed == Claimed
    case _ => false
  }

  ghost predicate SomePending(sys: System, i: nat) {
    exists w :: Pending(PhaseOf(sys, w), i)
  }

  /** The attempt has left the queue for good. */
  ghost predicate LeftQueue(db: State, i: nat) {
    i < |db.attempts| && (Intents(db.events, i) >= 1 || Terminal(db.attempts[i].status))
  }

  /** In the queue, or claimed from it: no intent was committed and the attempt has not ended. */
  predicate Waits(status: AttemptStatus) { status == Queued || status == Claimed }

  lemma LeavesQueue(db: State, i: nat)
    requires Inv(db) && IntentsFit(db) && i < |db.attempts|
    ensures LeftQueue(db, i) <==> !Waits(db.attempts[i].status)
  {
    assert !Transient(db.attempts[i].status);
    assert Fits(db.attempts[i], Intents(db.events, i));
  }

  /** An attempt in review whose shot is not: no verdict can end it any more. */
  ghost predicate Unreviewable(db: State, i: nat)
    requires Linked(db)
  {
    i < |db.attempts| && db.attempts[i].status == AwaitingReview && ShotOf(db, i).status != ShotInReview
  }

  /** A pending worker that can still get to submit: one that has yet to load the row finds it in progress,
      and one that loaded a claimed row is not refused its announcement for ever. */
  ghost predicate Able(db: State, phase: Phase, i: nat)
    requires Linked(db) && i < |db.attempts|
  {
    && Pending(phase, i)
    && (phase.Holding? ==> !Terminal(db.attempts[i].status))
    && (phase.Deciding? && phase.loaded == Claimed ==> !Unreviewable(db, i))
  }

  ghost predicate SomeAble(sys: System, i: nat)
    requires Linked(sys.db) && i < |sys.db.attempts|
  {
    exists w :: Able(sys.db, PhaseOf(sys, w), i)
  }

  // -------------------------------------------------------------- nobody can submit it any more

  lemma StoreLeavesUnreviewable(s: State, i: nat, r: Rows, j: nat)
    requires Linked(s) && OneLiveAttempt(s) && i < |s.attempts| && Coherent(ViewOf(s, i), r) && Linked(Store(s, i, r))
    requires Unreviewable(s, j)
    ensures Unreviewable(Store(s, i, r), j)
  {
    if j != i && s.attempts[j].shot == s.attempts[i].shot && Live(s.attempts[i]) {
      LiveIsUnique(s, i, j);
    }
  }

  lemma CreateLeavesUnreviewable(s: State, k: nat, workflow: Workflow, cost: nat, key: nat, source: Option<nat>, j: nat)
    requires Linked(s) && CreateAttempt(s, k, workflow, cost, key, source).Success? && Unreviewable(s, j)
    ensures var s' := CreateAttempt(s, k, workflow, cost, key, source).value; Linked(s') ==> Unreviewable(s', j)
  {
  }

  lemma ElsewhereLeavesUnreviewable(s: State, step: Step, j: nat)
    requires Linked(s) && !OnAttempt(step) && TransactElsewhere(s, step).Success? && Unreviewable(s, j)
    requires Linked(TransactElsewhere(s, step).value)
    ensures Unreviewable(TransactElsewhere(s, step).value, j)
  {
    match step {
      case StepCreateAttempt(k, workflow, cost, key) => CreateLeavesUnreviewable(s, k, workflow, cost, key, None, j);
      case StepRetry(i, workflow, cost, key, resolve) =>
        CreateLeavesUnreviewable(s, s.attempts[i].shot, workflow, cost, key, Some(i), j);
      case StepRecoverStale(now) => LifecycleSteps.RecoverStaleShape(s, now);
      case _ =>
    }
  }

  lemma UnreviewableStays(s: State, step: Step, j: nat)
    requires Inv(s) && Unreviewable(s, j)
    ensures Linked(Apply(s, step)) && Unreviewable(Apply(s, step), j)
  {
    LifecycleSteps.StepKeeps(s, step);
    Completion.Outcome(s, step);
    if Apply(s, step) != s {
      if OnAttempt(step) {
        ViewIsConsistent(s, step.i);
        LifecycleSteps.EffectIsCoherent(s, step);
        Runs.ApplyStores(s, step);
        StoreLeavesUnreviewable(s, step.i, Effect(s, step).value, j);
      } else {
        ElsewhereLeavesUnreviewable(s, step, j);
      }
    }
  }

  lemma MoveAdvances(sys: System, move: Move)
    requires SystemFits(sys)
    ensures Advances(sys.db, Do(sys, move).db)
  {
    SameAdvances(sys.db);
    if Do(sys, move).db != sys.db {
      var step := MoveStep(sys, move);
      StepAdvances(sys.db, step);
    }
  }

  /** The transaction a move commits, if it commits one. */
  lemma MoveStep(sys: System, move: Move) returns (step: Step)
    requires Linked(sys.db)
    ensures Do(sys, move).db == sys.db || Do(sys, move).db == Apply(sys.db, step)
  {
    match move {
      case ByOthers(s) => step := s;
      case Claim(w, i, now, expires, recovery) =>
        step := if recovery then StepClaimForRecovery(i, w, now, expires) else StepClaimNext(i, w, now, expires);
      case Intend(w, expires) =>
        var phase := PhaseOf(sys, w);
        step := StepSubmitIntent(if phase.Deciding? then phase.i else 0, w, expires);
      case FindHistory(w, prompt) =>
        var phase := PhaseOf(sys, w);
        step := StepPersistSubmitted(if phase.Looking? then phase.i else 0, prompt);
      case RecordPrompt(w, prompt) =>
        var phase := PhaseOf(sys, w);
        step := StepPersistSubmitted(if phase.Sending? then phase.i else 0, prompt);
      case MissHistory(w) =>
        var phase := PhaseOf(sys, w);
        step := StepFailAttempt(if phase.Looking? then phase.i else 0, EndFailed, ComfySubmissionUncertain);
      case Observe(_, s) => step := s;
      case GiveUp(w, ending, code) =>
        var phase := PhaseOf(sys, w);
        step := StepFailAttempt(if phase.Idle? then 0 else phase.i, ending, code);
      case _ => step := StepRecoverStale(0);
    }
  }

  /** The attempt has left the queue and nobody is able to submit it. */
  ghost predicate Quiet(sys: System, i: nat) {
    SystemFits(sys) && LeftQueue(sys.db, i) && !SomeAble(sys, i)
  }

  /** What becomes of the attempt's row, whoever moves. */
  ghost predicate RowStays(db: State, db': State, i: nat)
    requires Linked(db) && i < |db.attempts|
  {
    && Linked(db') && i < |db'.attempts|
    && (Terminal(db.attempts[i].status) ==> Terminal(db'.attempts[i].status))
    && (Unreviewable(db, i) ==> Unreviewable(db', i))
  }

  lemma MoveKeepsRow(sys: System, move: Move, i: nat)
    requires SystemFits(sys) && i < |sys.db.attempts|
    ensures RowStays(sys.db, Do(sys, move).db, i)
  {
    if Do(sys, move).db != sys.db {
      var step := MoveStep(sys, move);
      StepAdvances(sys.db, step);
      LifecycleSteps.StepKeeps(sys.db, step);
      if Unreviewable(sys.db, i) { UnreviewableStays(sys.db, step, i); }
    }
  }

  lemma NotClaimed(db: State, step: Step, i: nat)
    requires Inv(db) && IntentsFit(db) && LeftQueue(db, i) && !PastSubmission(step)
    ensures i < |Apply(db, step).attempts| && Apply(db, step).attempts[i].status != Claimed
  {
    StepFits(db, step);
    StepAdvances(db, step);
    var db' := Apply(db, step);
    assert Fits(db'.attempts[i], Intents(db'.events, i));
  }

  lemma ClaimKeepsQuiet(sys: System, move: Move, i: nat)
    requires SystemFits(sys) && LeftQueue(sys.db, i) && move.Claim?
    ensures Do(sys, move) == sys || !Pending(PhaseOf(Do(sys, move), move.w), i)
  {
    var step := ClaimStep(move.w, move.i, move.now, move.expires, move.recovery);
    if move.i < |sys.db.attempts| && PhaseOf(sys, move.w) == Idle {
      CommitOutcome(sys.db, step, move.i);
      if move.i == i { NotClaimed(sys.db, step, i); }
    }
  }

  lemma OthersStay(sys: System, move: Move, w: WorkerId)
    requires Linked(sys.db) && (move.ByOthers? || move.w != w)
    ensures PhaseOf(Do(sys, move), w) == PhaseOf(sys, w)
  {
  }

  lemma UnableStays(db: State, db': State, phase: Phase, i: nat)
    requires Linked(db) && i < |db.attempts| && RowStays(db, db', i) && !Able(db, phase, i)
    ensures !Able(db', phase, i)
  {
  }

  /** A worker whose announcement is refused lets go of the attempt. */
  lemma RefusedIntent(db: State, i: nat, w: WorkerId, expires: int)
    requires Linked(db) && i < |db.attempts| && db.attempts[i].status == AwaitingReview
    ensures Transact(db, StepSubmitIntent(i, w, expires)).Failure?
  {
    Runs.CommitsWithEffect(db, StepSubmitIntent(i, w, expires));
  }

  lemma MoverStaysUnable(sys: System, move: Move, i: nat)
    requires Linked(sys.db) && i < |sys.db.attempts| && !move.ByOthers? && !move.Claim?
    requires !Able(sys.db, PhaseOf(sys, move.w), i)
    ensures PhaseOf(Do(sys, move), move.w) == PhaseOf(sys, move.w) || !Pending(PhaseOf(Do(sys, move), move.w), i)
  {
    var phase := PhaseOf(sys, move.w);
    if move.Intend? && phase.Deciding? && Pending(phase, i) { RefusedIntent(sys.db, i, move.w, move.expires); }
  }

  lemma QuietPhases(sys: System, move: Move, i: nat)
    requires Quiet(sys, i) && RowStays(sys.db, Do(sys, move).db, i)
    ensures !SomeAble(Do(sys, move), i)
  {
    var sys' := Do(sys, move);
    forall w ensures !Able(sys'.db, PhaseOf(sys', w), i) {
      assert !Able(sys.db, PhaseOf(sys, w), i);
      if move.ByOthers? || move.w != w {
        OthersStay(sys, move, w);
      } else if move.Claim? {
        ClaimKeepsQuiet(sys, move, i);
      } else {
        MoverStaysUnable(sys, move, i);
      }
      if PhaseOf(sys', w) == PhaseOf(sys, w) { UnableStays(sys.db, sys'.db, PhaseOf(sys, w), i); }
    }
  }

  lemma QuietSends(sys: System, move: Move, i: nat)
    requires Linked(sys.db) && i < |sys.db.attempts| && !SomeAble(sys, i)
    ensures Sends(Do(sys, move).sent, i) == Sends(sys.sent, i)
  {
    var sent, sent' := sys.sent, Do(sys, move).sent;
    if sent' != sent {
      assert move.MissHistory? && sent'[..|sent'| - 1] == sent;
      assert !Able(sys.db, PhaseOf(sys, move.w), i);
    }
  }

  lemma QuietNext(sys: System, sys': System, i: nat)
    requires Quiet(sys, i) && Moves(sys, sys')
    ensures Quiet(sys', i) && Sends(sys'.sent, i) == Sends(sys.sent, i)
  {
    var move :| sys' == Do(sys, move);
    DoFits(sys, move);
    MoveAdvances(sys, move);
    MoveKeepsRow(sys, move, i);
    QuietPhases(sys, move, i);
    QuietSends(sys, move, i);
  }

  /** Once nobody is able to submit an attempt that left the queue, it is never submitted again. */
  lemma {:induction false} QuietRun(trace: seq<System>, i: nat)
    requires IsRun(trace) && Quiet(trace[0], i)
    ensures Sends(trace[|trace| - 1].sent, i) == Sends(trace[0].sent, i)
    decreases |trace|
  {
    if |trace| > 1 {
      QuietNext(trace[0], trace[1], i);
      QuietRun(trace[1..], i);
    }
  }

  // --------------------------------------------------------- somebody can still submit it

  lemma LeadsNext(sys: System, sys1: System, move: Move)
    requires Leads(sys, sys1) && Linked(sys1.db)
    ensures Leads(sys, Do(sys1, move))
  {
    var trace :| IsRun(trace) && trace[0] == sys && trace[|trace| - 1] == sys1;
    var longer := trace + [Do(sys1, move)];
    assert Moves(sys1, Do(sys1, move));
    assert IsRun(longer) && longer[0] == sys && longer[|longer| - 1] == Do(sys1, move);
  }

  lemma LeadsItself(sys: System)
    ensures Leads(sys, sys)
  {
    assert IsRun([sys]);
  }

  /** Some later system has submitted the attempt once more. */
  ghost predicate SubmittedLater(sys: System, i: nat) {
    exists sys' :: Leads(sys, sys') && Sends(sys'.sent, i) > Sends(sys.sent, i)
  }

  lemma Submits(sys: System, sys1: System, w: WorkerId, i: nat)
    requires Leads(sys, sys1) && Linked(sys1.db) && i < |sys1.db.attempts| && sys1.sent == sys.sent
    requires PhaseOf(sys1, w).Looking? && PhaseOf(sys1, w).i == i && PhaseOf(sys1, w).claimed == Claimed
    ensures SubmittedLater(sys, i)
  {
    var sys2 := Do(sys1, MissHistory(w));
    LeadsNext(sys, sys1, MissHistory(w));
    assert sys2.sent[..|sys2.sent| - 1] == sys1.sent;
    assert Sends(sys2.sent, i) == Sends(sys.sent, i) + 1;
  }

  /** A worker that decides on a row other than a claimed one goes on to submit. */
  lemma BypasserSubmits(sys: System, sys1: System, w: WorkerId, i: nat)
    requires Leads(sys, sys1) && Linked(sys1.db) && i < |sys1.db.attempts| && sys1.sent == sys.sent
    requires PhaseOf(sys1, w).Deciding? && PhaseOf(sys1, w).i == i && PhaseOf(sys1, w).claimed == Claimed
    requires PhaseOf(sys1, w).loaded != Claimed
    ensures SubmittedLater(sys, i)
  {
    LeadsNext(sys, sys1, Proceed(w));
    Submits(sys, Do(sys1, Proceed(w)), w, i);
  }

  /** A worker that has yet to load the row of an attempt in progress goes on to submit, unless it loads a
      claimed one. */
  lemma HolderSubmits(sys: System, sys1: System, w: WorkerId, i: nat)
    requires Leads(sys, sys1) && Linked(sys1.db) && i < |sys1.db.attempts| && sys1.sent == sys.sent
    requires !Terminal(sys1.db.attempts[i].status) && sys1.db.attempts[i].status != Claimed
    requires PhaseOf(sys1, w) == Holding(i, Claimed)
    ensures SubmittedLater(sys, i)
  {
    LeadsNext(sys, sys1, Load(w));
    BypasserSubmits(sys, Do(sys1, Load(w)), w, i);
  }

  lemma EndedIntent(sys: System, w: WorkerId, i: nat)
    requires Linked(sys.db) && i < |sys.db.attempts| && Terminal(sys.db.attempts[i].status)
    requires PhaseOf(sys, w).Deciding? && PhaseOf(sys, w).i == i && PhaseOf(sys, w).loaded == Claimed
    ensures var sys' := Do(sys, Intend(w, 0));
            && |sys'.db.attempts| == |sys.db.attempts| && sys'.sent == sys.sent
            && PhaseOf(sys', w).Looking? && PhaseOf(sys', w).i == i
               && PhaseOf(sys', w).claimed == PhaseOf(sys, w).claimed
  {
    Runs.ApplyStores(sys.db, StepSubmitIntent(i, w, 0));
  }

  lemma EndedStaysLinked(sys: System, w: WorkerId, i: nat)
    requires Linked(sys.db) && i < |sys.db.attempts| && Terminal(sys.db.attempts[i].status)
    requires PhaseOf(sys, w).Deciding? && PhaseOf(sys, w).i == i && PhaseOf(sys, w).loaded == Claimed
    ensures Linked(Do(sys, Intend(w, 0)).db)
  {
    Runs.ApplyStores(sys.db, StepSubmitIntent(i, w, 0));
  }

  /** A worker about to announce that finds the attempt ended goes on to submit it all the same. */
  lemma LateAnnouncerSubmits(sys: System, sys1: System, w: WorkerId, i: nat)
    requires Leads(sys, sys1) && Linked(sys1.db) && i < |sys1.db.attempts| && sys1.sent == sys.sent
    requires Terminal(sys1.db.attempts[i].status)
    requires PhaseOf(sys1, w).Deciding? && PhaseOf(sys1, w).i == i && PhaseOf(sys1, w).loaded == Claimed
    requires PhaseOf(sys1, w).claimed == Claimed
    ensures SubmittedLater(sys, i)
  {
    LeadsNext(sys, sys1, Intend(w, 0));
    EndedIntent(sys1, w, i);
    EndedStaysLinked(sys1, w, i);
    Submits(sys, Do(sys1, Intend(w, 0)), w, i);
  }

  /** The worker that recovered the attempt fails it and leaves everyone else where they are. */
  lemma RecoveryFails(sys: System, v: WorkerId, i: nat)
    requires Inv(sys.db) && i < |sys.db.attempts| && InFlight(sys.db.attempts[i].status)
    requires PhaseOf(sys, v).Looking? && PhaseOf(sys, v).i == i && PhaseOf(sys, v).claimed != Claimed
    ensures var sys1 := Do(sys, MissHistory(v));
            && i < |sys1.db.attempts| && Terminal(sys1.db.attempts[i].status) && sys1.sent == sys.sent
            && forall w | w != v :: PhaseOf(sys1, w) == PhaseOf(sys, w)
  {
    MissRecovered(sys, v);
    MissLeavesOthers(sys, v);
    FailedRow(sys.db, i, ComfySubmissionUncertain);
  }

  lemma MissLeavesOthers(sys: System, v: WorkerId)
    requires Linked(sys.db) && PhaseOf(sys, v).Looking? && PhaseOf(sys, v).claimed != Claimed
    ensures var sys1 := Do(sys, MissHistory(v));
            sys1.sent == sys.sent && forall w | w != v :: PhaseOf(sys1, w) == PhaseOf(sys, w)
  {
  }

  // ------------------------------------------------------------- a worker that recovers it

  /** A time past every lease. */
  ghost predicate PastLeases(attempts: seq<Attempt>, now: int) {
    forall i :: 0 <= i < |attempts| && attempts[i].leaseExpires.Some? ==> attempts[i].leaseExpires.value < now
  }

  lemma {:induction false} LeasesRunOut(attempts: seq<Attempt>) returns (now: int)
    ensures PastLeases(attempts, now)
  {
    now := 0;
    if attempts != [] {
      var last := attempts[|attempts| - 1];
      now := LeasesRunOut(attempts[..|attempts| - 1]);
      if last.leaseExpires.Some? && last.leaseExpires.value >= now { now := last.leaseExpires.value + 1; }
    }
  }

  lemma RecoveredRow(db: State, v: WorkerId, i: nat, now: int)
    requires Linked(db) && i < |db.attempts| && InFlight(db.attempts[i].status) && PastLeases(db.attempts, now)
    ensures var db' := Apply(db, StepClaimForRecovery(i, v, now, now + 1));
            && i < |db'.attempts| && db'.attempts[i] != db.attempts[i]
            && db'.attempts[i].status == db.attempts[i].status
  {
    Runs.ApplyStores(db, StepClaimForRecovery(i, v, now, now + 1));
  }

  /** Two systems that look alike to worker w. */
  ghost predicate AlikeFor(sys: System, sys': System, w: WorkerId) {
    PhaseOf(sys', w) == PhaseOf(sys, w) && sys'.sent == sys.sent
  }

  lemma Next(sys: System, sys1: System, move: Move) returns (sys2: System)
    requires Leads(sys, sys1) && SystemFits(sys1)
    ensures sys2 == Do(sys1, move) && Leads(sys, sys2) && SystemFits(sys2)
  {
    sys2 := Do(sys1, move);
    LeadsNext(sys, sys1, move);
    DoFits(sys1, move);
  }

  lemma LeaveDoes(sys: System, v: WorkerId)
    requires Linked(sys.db)
    ensures var sys' := Do(sys, Leave(v)); sys'.db == sys.db && sys'.sent == sys.sent && PhaseOf(sys', v) == Idle
  {
  }

  lemma RecoveryDoes(sys: System, v: WorkerId, i: nat, now: int)
    requires Linked(sys.db) && i < |sys.db.attempts| && InFlight(sys.db.attempts[i].status)
    requires PhaseOf(sys, v) == Idle && PastLeases(sys.db.attempts, now)
    ensures var sys' := Do(sys, Claim(v, i, now, now + 1, true));
            && sys'.sent == sys.sent && i < |sys'.db.attempts|
            && sys'.db.attempts[i].status == sys.db.attempts[i].status
            && PhaseOf(sys', v) == Holding(i, sys'.db.attempts[i].status)
  {
    RecoveredRow(sys.db, v, i, now);
  }

  /** Some other worker crashes and comes back to the attempt in flight once all leases have run out. */
  lemma RecoveryClaims(sys: System, v: WorkerId, w: WorkerId, i: nat) returns (sys': System)
    requires SystemFits(sys) && i < |sys.db.attempts| && InFlight(sys.db.attempts[i].status) && v != w
    ensures Leads(sys, sys') && SystemFits(sys') && AlikeFor(sys, sys', w) && i < |sys'.db.attempts|
    ensures InFlight(sys'.db.attempts[i].status) && PhaseOf(sys', v) == Holding(i, sys'.db.attempts[i].status)
  {
    LeadsItself(sys);
    LeaveDoes(sys, v);
    OthersStay(sys, Leave(v), w);
    var sys1 := Next(sys, sys, Leave(v));
    var now := LeasesRunOut(sys1.db.attempts);
    RecoveryDoes(sys1, v, i, now);
    OthersStay(sys1, Claim(v, i, now, now + 1, true), w);
    sys' := Next(sys, sys1, Claim(v, i, now, now + 1, true));
  }

  lemma LooksDoes(sys: System, v: WorkerId, i: nat)
    requires Linked(sys.db) && i < |sys.db.attempts| && InFlight(sys.db.attempts[i].status)
    requires PhaseOf(sys, v) == Holding(i, sys.db.attempts[i].status)
    ensures var sys1 := Do(sys, Load(v));
            && sys1.db == sys.db && sys1.sent == sys.sent
            && var sys2 := Do(sys1, Proceed(v));
            && sys2.db == sys.db && sys2.sent == sys.sent
            && PhaseOf(sys2, v).Looking? && PhaseOf(sys2, v).i == i && PhaseOf(sys2, v).claimed != Claimed
  {
  }

  lemma RecoveryLooks(sys: System, v: WorkerId, w: WorkerId, i: nat) returns (sys': System)
    requires SystemFits(sys) && i < |sys.db.attempts| && InFlight(sys.db.attempts[i].status) && v != w
    ensures Leads(sys, sys') && SystemFits(sys') && AlikeFor(sys, sys', w) && i < |sys'.db.attempts|
    ensures InFlight(sys'.db.attempts[i].status)
    ensures PhaseOf(sys', v).Looking? && PhaseOf(sys', v).i == i && PhaseOf(sys', v).claimed != Claimed
  {
    var sys1 := RecoveryClaims(sys, v, w, i);
    LooksDoes(sys1, v, i);
    OthersStay(sys1, Load(v), w);
    var sys2 := Next(sys, sys1, Load(v));
    OthersStay(sys2, Proceed(v), w);
    sys' := Next(sys, sys2, Proceed(v));
  }

  /** It finds no history and fails the attempt. */
  lemma RecoveryEnds(sys: System, v: WorkerId, w: WorkerId, i: nat) returns (sys': System)
    requires SystemFits(sys) && i < |sys.db.attempts| && InFlight(sys.db.attempts[i].status) && v != w
    ensures Leads(sys, sys') && SystemFits(sys') && AlikeFor(sys, sys', w) && i < |sys'.db.attempts|
    ensures Terminal(sys'.db.attempts[i].status)
  {
    var sys1 := RecoveryLooks(sys, v, w, i);
    RecoveryFails(sys1, v, i);
    sys' := Next(sys, sys1, MissHistory(v));
  }

  lemma RejectedRow(db: State, i: nat)
    requires Inv(db) && i < |db.attempts| && db.attempts[i].status == AwaitingReview && !Unreviewable(db, i)
    ensures i < |Apply(db, StepReject(i)).attempts| && Terminal(Apply(db, StepReject(i)).attempts[i].status)
  {
    Runs.RejectCommitsExactly(db, i);
    Runs.CommitsWithEffect(db, StepReject(i));
    Runs.ApplyStores(db, StepReject(i));
  }

  lemma RejectEnds(sys: System, w: WorkerId, i: nat) returns (sys': System)
    requires SystemFits(sys) && i < |sys.db.attempts| && sys.db.attempts[i].status == AwaitingReview
    requires !Unreviewable(sys.db, i)
    ensures Leads(sys, sys') && SystemFits(sys') && AlikeFor(sys, sys', w) && i < |sys'.db.attempts|
    ensures Terminal(sys'.db.attempts[i].status)
  {
    LeadsItself(sys);
    RejectedRow(sys.db, i);
    OthersStay(sys, ByOthers(StepReject(i)), w);
    sys' := Next(sys, sys, ByOthers(StepReject(i)));
  }

  /** An attempt that left the queue and can still be reviewed, or is in flight, can end before a worker
      announces it. */
  lemma CanEnd(sys: System, w: WorkerId, i: nat) returns (sys': System)
    requires SystemFits(sys) && i < |sys.db.attempts| && LeftQueue(sys.db, i) && !Unreviewable(sys.db, i)
    ensures Leads(sys, sys') && SystemFits(sys') && AlikeFor(sys, sys', w) && i < |sys'.db.attempts|
    ensures Terminal(sys'.db.attempts[i].status)
  {
    LeavesQueue(sys.db, i);
    if Terminal(sys.db.attempts[i].status) {
      LeadsItself(sys);
      sys' := sys;
    } else if sys.db.attempts[i].status == AwaitingReview {
      sys' := RejectEnds(sys, w, i);
    } else {
      sys' := RecoveryEnds(sys, w + 1, w, i);
    }
  }

  lemma AbleSubmits(sys: System, w: WorkerId, i: nat)
    requires SystemFits(sys) && i < |sys.db.attempts| && LeftQueue(sys.db, i) && Able(sys.db, PhaseOf(sys, w), i)
    ensures SubmittedLater(sys, i)
  {
    var phase := PhaseOf(sys, w);
    LeadsItself(sys);
    LeavesQueue(sys.db, i);
    if phase.Looking? {
      Submits(sys, sys, w, i);
    } else if phase.Holding? {
      HolderSubmits(sys, sys, w, i);
    } else if phase.loaded != Claimed {
      BypasserSubmits(sys, sys, w, i);
    } else {
      var sys1 := CanEnd(sys, w, i);
      LateAnnouncerSubmits(sys, sys1, w, i);
    }
  }

  // ------------------------------------------------------------------ an attempt that waits

  predicate ClaimLeased(a: Attempt) { a.status == Claimed ==> a.leaseExpires.Some? }

  /** A claimed row has a lease, which can run out. */
  ghost predicate ClaimsLeased(attempts: seq<Attempt>) {
    forall i :: 0 <= i < |attempts| ==> ClaimLeased(attempts[i])
  }

  lemma EffectLeased(s: State, step: Step)
    requires Linked(s) && OnAttempt(step) && step.i < |s.attempts| && Effect(s, step).Success?
    requires ClaimLeased(s.attempts[step.i])
    ensures ClaimLeased(Effect(s, step).value.attempt)
  {
    var v := ViewOf(s, step.i);
    match step {
      case StepFinishSuccess(_, artifact, evaluation, verdict) => FinishLeased(v, artifact, evaluation, verdict);
      case StepFailAttempt(_, ending, code) => FailureLeased(v, ending, code);
      case _ =>
    }
  }

  lemma FinishLeased(v: View, sawArtifact: bool, sawEvaluation: Option<Verdict>, verdict: Verdict)
    requires ClaimLeased(v.attempt)
    ensures var r := FinishSuccess(v.attempt, v.shot, v.project, v.artifact, v.evaluation, sawArtifact, sawEvaluation,
                                   verdict);
            r.Success? ==> ClaimLeased(r.value.attempt)
  {
    if ToEvaluating(v.attempt).Success? { LifecycleSteps.ToEvaluatingShape(v.attempt); }
  }

  lemma FailureLeased(v: View, ending: Ending, code: FailureCode)
    requires ClaimLeased(v.attempt)
    ensures var r := FailAttempt(v.attempt, v.shot, v.project, ending, code);
            r.Success? ==> ClaimLeased(r.value.attempt)
  {
  }

  lemma ElsewhereLeased(s: State, step: Step)
    requires Linked(s) && !OnAttempt(step) && TransactElsewhere(s, step).Success? && ClaimsLeased(s.attempts)
    ensures ClaimsLeased(TransactElsewhere(s, step).value.attempts)
  {
  }

  lemma StepLeased(s: State, step: Step)
    requires Linked(s) && ClaimsLeased(s.attempts)
    ensures ClaimsLeased(Apply(s, step).attempts)
  {
    Completion.Outcome(s, step);
    if Apply(s, step) != s {
      if OnAttempt(step) {
        Runs.ApplyStores(s, step);
        EffectLeased(s, step);
      } else {
        ElsewhereLeased(s, step);
      }
    }
  }

  lemma MoveLeased(sys: System, sys': System)
    requires Moves(sys, sys') && ClaimsLeased(sys.db.attempts)
    ensures ClaimsLeased(sys'.db.attempts)
  {
    var move :| sys' == Do(sys, move);
    var step := MoveStep(sys, move);
    StepLeased(sys.db, step);
  }

  lemma {:induction false} RunLeased(trace: seq<System>)
    requires IsRun(trace) && ClaimsLeased(trace[0].db.attempts)
    ensures ClaimsLeased(trace[|trace| - 1].db.attempts)
    decreases |trace|
  {
    if |trace| > 1 {
      MoveLeased(trace[0], trace[1]);
      RunLeased(trace[1..]);
    }
  }

  /** A claim that ran out goes back to the queue. */
  lemma StaleRow(db: State, i: nat, now: int)
    requires Linked(db) && i < |db.attempts| && Waits(db.attempts[i].status) && ClaimLeased(db.attempts[i])
    requires PastLeases(db.attempts, now)
    ensures var db' := Apply(db, StepRecoverStale(now)); i < |db'.attempts| && db'.attempts[i].status == Queued
    ensures PastLeases(Apply(db, StepRecoverStale(now)).attempts, now)
  {
  }

  lemma QueuedRow(db: State, v: WorkerId, i: nat, now: int)
    requires Linked(db) && i < |db.attempts| && db.attempts[i].status == Queued && PastLeases(db.attempts, now)
    ensures var db' := Apply(db, StepClaimNext(i, v, now, now + 1));
            && i < |db'.attempts| && db'.attempts[i].status == Claimed && ClaimLeased(db'.attempts[i])
            && PastLeases(db'.attempts, now + 2)
  {
    Runs.ApplyStores(db, StepClaimNext(i, v, now, now + 1));
  }

  lemma QueueDoes(sys: System, i: nat, now: int)
    requires Linked(sys.db) && i < |sys.db.attempts| && sys.db.attempts[i].status == Queued
    requires PhaseOf(sys, 0) == Idle && PastLeases(sys.db.attempts, now)
    ensures var sys' := Do(sys, Claim(0, i, now, now + 1, false));
            && sys'.sent == sys.sent && i < |sys'.db.attempts| && PhaseOf(sys', 0) == Holding(i, Claimed)
            && sys'.db.attempts[i].status == Claimed && ClaimLeased(sys'.db.attempts[i])
            && PastLeases(sys'.db.attempts, now + 2)
  {
    QueuedRow(sys.db, 0, i, now);
  }

  lemma StaleDoes(sys: System, i: nat, now: int)
    requires Linked(sys.db) && i < |sys.db.attempts| && Waits(sys.db.attempts[i].status)
    requires ClaimLeased(sys.db.attempts[i]) && PastLeases(sys.db.attempts, now)
    ensures var sys' := Do(sys, ByOthers(StepRecoverStale(now)));
            && sys'.sent == sys.sent && sys'.workers == sys.workers && i < |sys'.db.attempts|
            && sys'.db.attempts[i].status == Queued && PastLeases(sys'.db.attempts, now)
  {
    StaleRow(sys.db, i, now);
  }

  lemma WaitingIsQueued(sys: System, i: nat) returns (sys': System, now: int)
    requires SystemFits(sys) && i < |sys.db.attempts| && Waits(sys.db.attempts[i].status)
    requires ClaimsLeased(sys.db.attempts)
    ensures Leads(sys, sys') && SystemFits(sys') && sys'.sent == sys.sent && i < |sys'.db.attempts|
    ensures sys'.db.attempts[i].status == Queued && PhaseOf(sys', 0) == Idle && PastLeases(sys'.db.attempts, now)
  {
    LeadsItself(sys);
    now := LeasesRunOut(sys.db.attempts);
    LeaveDoes(sys, 0);
    var sys1 := Next(sys, sys, Leave(0));
    StaleDoes(sys1, i, now);
    sys' := Next(sys, sys1, ByOthers(StepRecoverStale(now)));
  }

  /** Whoever had it, the attempt is claimed, and that claim runs out before its worker loads the row. */
  lemma WaitingIsClaimed(sys: System, i: nat) returns (sys': System)
    requires SystemFits(sys) && i < |sys.db.attempts| && Waits(sys.db.attempts[i].status)
    requires ClaimsLeased(sys.db.attempts)
    ensures Leads(sys, sys') && SystemFits(sys') && sys'.sent == sys.sent && i < |sys'.db.attempts|
    ensures sys'.db.attempts[i].status == Queued && PhaseOf(sys', 0) == Holding(i, Claimed)
  {
    var sys1, now := WaitingIsQueued(sys, i);
    QueueDoes(sys1, i, now);
    var sys2 := Next(sys, sys1, Claim(0, i, now, now + 1, false));
    StaleDoes(sys2, i, now + 2);
    sys' := Next(sys, sys2, ByOthers(StepRecoverStale(now + 2)));
  }

  lemma WaitingSubmits(sys: System, i: nat)
    requires SystemFits(sys) && i < |sys.db.attempts| && Waits(sys.db.attempts[i].status)
    requires ClaimsLeased(sys.db.attempts)
    ensures SubmittedLater(sys, i)
  {
    var sys1 := WaitingIsClaimed(sys, i);
    HolderSubmits(sys, sys1, 0, i);
  }

  // --------------------------------------------------------------------- exactly when

  lemma QuietForEver(sys: System, i: nat)
    requires Quiet(sys, i)
    ensures !SubmittedLater(sys, i)
  {
    if SubmittedLater(sys, i) {
      var sys' :| Leads(sys, sys') && Sends(sys'.sent, i) > Sends(sys.sent, i);
      var trace :| IsRun(trace) && trace[0] == sys && trace[|trace| - 1] == sys';
      QuietRun(trace, i);
    }
  }

  lemma PossibleLeased(maxAttempts: nat, sys: System)
    requires Possible(maxAttempts, sys)
    ensures ClaimsLeased(sys.db.attempts)
  {
    var trace :| IsRun(trace) && trace[0] == Start(maxAttempts) && trace[|trace| - 1] == sys;
    RunLeased(trace);
  }

  /** Whatever its status and however often it was submitted, an attempt may be submitted (once more) exactly
      when it is waiting in or claimed from the queue, or some worker that once claimed it is able to. */
  lemma SubmittedLaterExactly(maxAttempts: nat, sys: System, i: nat)
    requires Possible(maxAttempts, sys) && i < |sys.db.attempts|
    ensures Linked(sys.db)
    ensures SubmittedLater(sys, i) <==> Waits(sys.db.attempts[i].status) || SomeAble(sys, i)
  {
    PossibleFits(maxAttempts, sys);
    LeavesQueue(sys.db, i);
    if Waits(sys.db.attempts[i].status) {
      PossibleLeased(maxAttempts, sys);
      WaitingSubmits(sys, i);
    } else if SomeAble(sys, i) {
      var w :| Able(sys.db, PhaseOf(sys, w), i);
      AbleSubmits(sys, w, i);
    } else {
      QuietForEver(sys, i);
    }
  }

  /** So an attempt in flight may be submitted again exactly when some worker that once claimed it from the
      queue has not yet decided. */
  lemma ResubmittedExactly(maxAttempts: nat, sys: System, i: nat)
    requires Possible(maxAttempts, sys) && i < |sys.db.attempts| && InFlight(sys.db.attempts[i].status)
    ensures SubmittedLater(sys, i) <==> SomePending(sys, i)
  {
    SubmittedLaterExactly(maxAttempts, sys, i);
    assert forall w :: Able(sys.db, PhaseOf(sys, w), i) <==> Pending(PhaseOf(sys, w), i);
  }

  /** And one that has ended exactly when such a worker has already loaded its row. */
  lemma EndedSubmittedExactly(maxAttempts: nat, sys: System, i: nat)
    requires Possible(maxAttempts, sys) && i < |sys.db.attempts| && Terminal(sys.db.attempts[i].status)
    ensures SubmittedLater(sys, i) <==> exists w :: Pending(PhaseOf(sys, w), i) && !PhaseOf(sys, w).Holding?
  {
    SubmittedLaterExactly(maxAttempts, sys, i);
    assert forall w :: Able(sys.db, PhaseOf(sys, w), i) <==>
                         Pending(PhaseOf(sys, w), i) && !PhaseOf(sys, w).Holding?;
  }
}
