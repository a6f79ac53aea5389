/** When a completed project has all of its shots accepted, and what a submitted run does to one that
    has (apps/api/src/app.ts, apps/api/src/generation.ts, apps/api/src/application.ts). */
module Completion {
  import opened Wrappers
  import opened Domain
  import opened ControlPlane
  import opened Lifecycle
  import opened Runs
  import LifecycleSteps
  import SampleRuns

  ghost predicate AllAccepted(s: State, q: nat) {
    forall k :: 0 <= k < |s.shots| && s.shots[k].project == q ==> s.shots[k].accepted.Some?
  }

  ghost predicate IsCompleted(s: State, q: nat) {
    q < |s.projects| && s.projects[q].status == Completed
  }

  // ----------------------------------------------------------- projects with nothing to do

  /** No attempt of the project is in progress and none can be created. */
  ghost predicate Settled(s: State, q: nat) {
    && q < |s.projects| && AllTerminal(s.attempts, q)
    && (s.projects[q].status == Completed || (s.projects[q].status == AwaitingFinalReview && AllAccepted(s, q)))
  }

  /** The project's row and its old shots are left alone, and nothing of it gets into progress. */
  ghost predicate Undisturbed(s: State, s': State, q: nat) {
    && q < |s.projects| <= |s'.projects| && s'.projects[q] == s.projects[q] && AllTerminal(s'.attempts, q)
    && |s'.shots| == |s.shots|
    && (forall k :: 0 <= k < |s.shots| ==> s'.shots[k].project == s.shots[k].project)
    && (forall k :: 0 <= k < |s.shots| && s.shots[k].project == q ==> s'.shots[k].accepted == s.shots[k].accepted)
  }

  lemma ReviewOfTerminal(v: View, r: Rows)
    requires Terminal(v.attempt.status)
    requires || Pin(v.id, v.attempt, v.shot, v.project) == Success(r)
             || Unpin(v.id, v.attempt, v.shot, v.project) == Success(r)
             || Review(v.attempt, v.shot, v.project) == Success(r) || Reject(v.attempt, v.shot, v.project) == Success(r)
             || Accept(v.id, v.attempt, v.shot, v.project, v.evaluation, v.othersAccepted) == Success(r)
    ensures r.attempt.status == v.attempt.status && r.shot.accepted == v.shot.accepted && r.project == v.project
  {
  }

  lemma WorkOnTerminal(v: View, w: WorkerId, expires: int, prompt: PromptId, taken: bool, r: Rows)
    requires Terminal(v.attempt.status)
    requires || SubmitIntent(v.attempt, v.shot, v.project, w, expires) == Success(r)
             || PersistSubmitted(v.attempt, v.shot, v.project, prompt, taken) == Success(r)
             || MarkRunning(v.attempt, v.shot, v.project) == Success(r)
             || MarkProgress(v.attempt, v.shot, v.project) == Success(r)
    ensures r.attempt.status == v.attempt.status && r.shot.accepted == v.shot.accepted && r.project == v.project
  {
  }

  /** A transaction on a finished attempt moves neither its status nor its project. */
  lemma TerminalEffect(s: State, step: Step)
    requires Linked(s) && OnAttempt(step) && step.i < |s.attempts| && Terminal(s.attempts[step.i].status)
    requires Effect(s, step).Success?
    ensures var r := Effect(s, step).value;
            && r.attempt.status == s.attempts[step.i].status && r.shot.accepted == ShotOf(s, step.i).accepted
            && r.project == ProjectOf(s, step.i)
  {
    var v, r := ViewOf(s, step.i), Effect(s, step).value;
    match step {
      case StepSubmitIntent(_, w, expires) => WorkOnTerminal(v, w, expires, 0, false, r);
      case StepPersistSubmitted(_, prompt) => WorkOnTerminal(v, 0, 0, prompt, PromptTaken(s, step.i, prompt), r);
      case StepMarkRunning(_) => WorkOnTerminal(v, 0, 0, 0, false, r);
      case StepMarkProgress(_) => WorkOnTerminal(v, 0, 0, 0, false, r);
      case StepPin(_) => ReviewOfTerminal(v, r);
      case StepUnpin(_) => ReviewOfTerminal(v, r);
      case StepReview(_) => ReviewOfTerminal(v, r);
      case StepAccept(_) => ReviewOfTerminal(v, r);
      case StepReject(_) => ReviewOfTerminal(v, r);
      case _ =>
    }
  }

  lemma StoreUndisturbed(s: State, i: nat, r: Rows, q: nat)
    requires Linked(s) && i < |s.attempts| && SameIdentity(ViewOf(s, i), r)
    requires q < |s.projects| && AllTerminal(s.attempts, q)
    requires s.attempts[i].project == q ==>
               && r.attempt.status == s.attempts[i].status && r.shot.accepted == ShotOf(s, i).accepted
               && r.project == ProjectOf(s, i)
    ensures Undisturbed(s, Store(s, i, r), q)
  {
  }

  lemma AttemptStepSettled(s: State, step: Step, q: nat)
    requires Inv(s) && Settled(s, q) && OnAttempt(step) && step.i < |s.attempts| && Effect(s, step).Success?
    ensures Undisturbed(s, Apply(s, step), q)
  {
    var r := Effect(s, step).value;
    ViewIsConsistent(s, step.i);
    LifecycleSteps.EffectIsCoherent(s, step);
    if s.attempts[step.i].project == q { TerminalEffect(s, step); }
    StoreUndisturbed(s, step.i, r, q);
    ApplyStores(s, step);
  }

  lemma CreateElsewhere(s: State, k: nat, workflow: Workflow, cost: nat, key: nat, source: Option<nat>, q: nat)
    requires Linked(s) && Acceptance(s) && Settled(s, q) && CreateAttempt(s, k, workflow, cost, key, source).Success?
    ensures Undisturbed(s, CreateAttempt(s, k, workflow, cost, key, source).value, q)
  {
    assert s.shots[k].project != q;
  }

  lemma GrowsUndisturbed(s: State, s': State, q: nat)
    requires Settled(s, q) && s'.shots == s.shots && s'.attempts == s.attempts
    requires |s.projects| <= |s'.projects| && s'.projects[q] == s.projects[q]
    ensures Undisturbed(s, s', q)
  {
  }

  lemma StaleUndisturbed(s: State, now: int, q: nat)
    requires Settled(s, q)
    ensures Undisturbed(s, RecoverStale(s, now), q)
  {
    LifecycleSteps.RecoverStaleShape(s, now);
  }

  lemma OtherStepSettled(s: State, step: Step, q: nat)
    requires Linked(s) && Acceptance(s) && Settled(s, q) && !OnAttempt(step) && !step.StepCreateShot?
             && TransactElsewhere(s, step).Success?
    ensures Undisturbed(s, TransactElsewhere(s, step).value, q)
  {
    match step {
      case StepCreateAttempt(k, workflow, cost, key) => CreateElsewhere(s, k, workflow, cost, key, None, q);
      case StepRetry(i, workflow, cost, key, resolve) =>
        CreateElsewhere(s, s.attempts[i].shot, workflow, cost, key, Some(i), q);
      case StepRecoverStale(now) => StaleUndisturbed(s, now, q);
      case StepCreateProject(ready, budget) => GrowsUndisturbed(s, TransactElsewhere(s, step).value, q);
      case StepPrepareDirectRun(r) => GrowsUndisturbed(s, TransactElsewhere(s, step).value, q);
      case StepNote(event) => GrowsUndisturbed(s, TransactElsewhere(s, step).value, q);
    }
  }

  lemma UndisturbedKeeps(s: State, s': State, q: nat)
    requires Undisturbed(s, s', q)
    ensures AllAccepted(s', q) <==> AllAccepted(s, q)
  {
  }

  lemma ShotSettled(s: State, q: nat, r: nat)
    requires Linked(s) && Settled(s, q)
    ensures var s' := Apply(s, StepCreateShot(r));
            && q < |s'.projects| && s'.projects[q] == s.projects[q] && AllTerminal(s'.attempts, q)
            && (AllAccepted(s', q) <==> AllAccepted(s, q) && r != q)
  {
    var s' := Apply(s, StepCreateShot(r));
    assert forall k :: 0 <= k < |s.shots| ==> s'.shots[k] == s.shots[k];
    if r == q { assert s'.shots[|s.shots|].project == q; }
  }

  /** What a transaction that is tried comes to. */
  lemma Outcome(s: State, step: Step)
    requires Linked(s)
    ensures var s' := Apply(s, step);
            || s' == s
            || (!OnAttempt(step) && TransactElsewhere(s, step) == Success(s'))
            || (OnAttempt(step) && step.i < |s.attempts| && Effect(s, step).Success?)
  {
  }

  lemma StepUndisturbed(s: State, step: Step, q: nat)
    requires Inv(s) && Settled(s, q) && !step.StepCreateShot?
    ensures Undisturbed(s, Apply(s, step), q)
  {
    Outcome(s, step);
    if Apply(s, step) == s {
      GrowsUndisturbed(s, s, q);
    } else if OnAttempt(step) {
      AttemptStepSettled(s, step, q);
    } else {
      OtherStepSettled(s, step, q);
    }
  }

  /** Whatever is done to a settled project, its row stays, and its shots stay accepted unless one is added. */
  lemma SettledStep(s: State, step: Step, q: nat)
    requires Inv(s) && Settled(s, q)
    ensures var s' := Apply(s, step);
            && q < |s'.projects| && s'.projects[q] == s.projects[q] && AllTerminal(s'.attempts, q)
            && (AllAccepted(s', q) <==> AllAccepted(s, q) && step != StepCreateShot(q))
  {
    if step.StepCreateShot? {
      ShotSettled(s, q, step.q);
    } else {
      StepUndisturbed(s, step, q);
      UndisturbedKeeps(s, Apply(s, step), q);
    }
  }

  // -------------------------------------------------------------------- completed projects

  lemma CompletedIsSettled(s: State, q: nat)
    requires Inv(s) && IsCompleted(s, q)
    ensures Settled(s, q)
  {
    assert ProjectJustified(s, q);
    NoneLive(s.attempts, q);
  }

  lemma StoreCompletesAll(s: State, i: nat, r: Rows, q: nat)
    requires Linked(s) && Acceptance(s) && i < |s.attempts| && Coherent(ViewOf(s, i), r)
    requires !IsCompleted(s, q) && IsCompleted(Store(s, i, r), q)
    ensures AllAccepted(Store(s, i, r), q)
  {
  }

  lemma AttemptStepCompletesAll(s: State, step: Step, q: nat)
    requires Inv(s) && OnAttempt(step) && step.i < |s.attempts| && Effect(s, step).Success?
    requires !IsCompleted(s, q) && IsCompleted(Apply(s, step), q)
    ensures AllAccepted(Apply(s, step), q)
  {
    ViewIsConsistent(s, step.i);
    LifecycleSteps.EffectIsCoherent(s, step);
    ApplyStores(s, step);
    StoreCompletesAll(s, step.i, Effect(s, step).value, q);
  }

  lemma OtherStepCompletesNothing(s: State, step: Step, q: nat)
    requires Linked(s) && !OnAttempt(step) && TransactElsewhere(s, step).Success? && !IsCompleted(s, q)
    ensures !IsCompleted(TransactElsewhere(s, step).value, q)
  {
  }

  /** A project completes with all of its shots accepted. */
  lemma CompletesAll(s: State, step: Step, q: nat)
    requires Inv(s) && !IsCompleted(s, q) && IsCompleted(Apply(s, step), q)
    ensures AllAccepted(Apply(s, step), q)
  {
    Outcome(s, step);
    if OnAttempt(step) {
      AttemptStepCompletesAll(s, step, q);
    } else {
      OtherStepCompletesNothing(s, step, q);
    }
  }

  /** A run together with the transactions that were tried. */
  ghost predicate Performs(trace: seq<State>, steps: seq<Step>) {
    |trace| == |steps| + 1 && forall n :: 0 <= n < |steps| ==>
      Linked(trace[n]) && trace[n + 1] == Apply(trace[n], steps[n])
  }

  /** The n-th transaction adds a shot to a project that had completed. */
  ghost predicate AddsLate(trace: seq<State>, steps: seq<Step>, q: nat, n: nat)
    requires n < |steps| < |trace|
  {
    steps[n] == StepCreateShot(q) && IsCompleted(trace[n], q)
  }

  ghost predicate NeverLate(trace: seq<State>, steps: seq<Step>, q: nat, m: nat)
    requires m <= |steps| < |trace|
  {
    forall n :: 0 <= n < m ==> !AddsLate(trace, steps, q, n)
  }

  ghost predicate Accounts(s: State, q: nat, neverLate: bool) {
    if IsCompleted(s, q) then AllAccepted(s, q) <==> neverLate else neverLate
  }

  lemma StepAccounts(s: State, step: Step, q: nat, neverLate: bool)
    requires Inv(s) && Accounts(s, q, neverLate)
    ensures Accounts(Apply(s, step), q, neverLate && !(step == StepCreateShot(q) && IsCompleted(s, q)))
  {
    if IsCompleted(s, q) {
      CompletedIsSettled(s, q);
      SettledStep(s, step, q);
    } else if IsCompleted(Apply(s, step), q) {
      CompletesAll(s, step, q);
    }
  }

  lemma {:induction false} PrefixAccounts(maxAttempts: nat, trace: seq<State>, steps: seq<Step>, q: nat,
                                          m: nat)
    requires Performs(trace, steps) && trace[0] == Empty(maxAttempts) && m <= |steps|
    ensures Inv(trace[m]) && Accounts(trace[m], q, NeverLate(trace, steps, q, m))
  {
    if m == 0 {
      EmptyHolds(maxAttempts);
    } else {
      PrefixAccounts(maxAttempts, trace, steps, q, m - 1);
      LifecycleSteps.StepKeeps(trace[m - 1], steps[m - 1]);
      StepAccounts(trace[m - 1], steps[m - 1], q, NeverLate(trace, steps, q, m - 1));
      NeverLateNext(trace, steps, q, m);
    }
  }

  lemma NeverLateNext(trace: seq<State>, steps: seq<Step>, q: nat, m: nat)
    requires 0 < m <= |steps| < |trace|
    ensures NeverLate(trace, steps, q, m)
            <==> NeverLate(trace, steps, q, m - 1)
                 && !(steps[m - 1] == StepCreateShot(q) && IsCompleted(trace[m - 1], q))
  {
    assert NeverLate(trace, steps, q, m) <==> NeverLate(trace, steps, q, m - 1) && !AddsLate(trace, steps, q, m - 1);
  }

  /** Over any run, a completed project has all of its shots accepted exactly if none was added to it
      after it had completed. */
  lemma CompletedAcceptedExactly(maxAttempts: nat, trace: seq<State>, steps: seq<Step>, q: nat)
    requires Performs(trace, steps) && trace[0] == Empty(maxAttempts) && IsCompleted(trace[|steps|], q)
    ensures AllAccepted(trace[|steps|], q) <==> NeverLate(trace, steps, q, |steps|)
  {
    PrefixAccounts(maxAttempts, trace, steps, q, |steps|);
  }

  /** A project with all its shots accepted and nothing in progress. */
  ghost predicate Finished(s: State, q: nat, p: Project) {
    Inv(s) && Settled(s, q) && AllAccepted(s, q) && s.projects[q] == p
  }

  lemma FinishedStays(s: State, step: Step, s': State, q: nat, p: Project)
    requires Finished(s, q, p) && step != StepCreateShot(q) && s' == Apply(s, step)
    ensures Finished(s', q, p)
  {
    LifecycleSteps.StepKeeps(s, step);
    SettledStep(s, step, q);
  }

  lemma {:induction false} HoldsToEnd(trace: seq<State>, holds: State -> bool, m: nat)
    requires m < |trace| && holds(trace[0])
    requires forall n :: 0 <= n < |trace| - 1 && holds(trace[n]) ==> holds(trace[n + 1])
    ensures holds(trace[m])
  {
    if m > 0 { HoldsToEnd(trace, holds, m - 1); }
  }

  /** It stays as it is for as long as no shot is added to it. */
  lemma FinishedRun(trace: seq<State>, steps: seq<Step>, q: nat, p: Project)
    requires Performs(trace, steps) && Finished(trace[0], q, p)
    requires forall n :: 0 <= n < |steps| ==> steps[n] != StepCreateShot(q)
    ensures Finished(trace[|steps|], q, p)
  {
    forall n | 0 <= n < |trace| - 1 && Finished(trace[n], q, p) ensures Finished(trace[n + 1], q, p) {
      FinishedStays(trace[n], steps[n], trace[n + 1], q, p);
    }
    HoldsToEnd(trace, s => Finished(s, q, p), |steps|);
  }

  // ------------------------------------------------------------------------ submitted runs

  lemma ProjectPart(s: State, q: nat)
    requires Linked(s)
    ensures CreateProject(s, ReadyForGeneration, None) == Success(Apply(s, StepCreateProject(true, None)))
    ensures PrepareDirectRun(s, q).Success? ==> PrepareDirectRun(s, q).value == Apply(s, StepPrepareDirectRun(q))
    ensures CreateShot(s, q).Success? ==> CreateShot(s, q).value == Apply(s, StepCreateShot(q))
  {
  }

  lemma AttemptPart(s: State, k: nat, workflow: Workflow, cost: nat, key: nat, created: Event)
    requires Linked(s)
    ensures var r := CreateAttempt(s, k, workflow, cost, key, None);
            r.Success? ==> r.value == Apply(s, StepCreateAttempt(k, workflow, cost, key))
    ensures created.kind == RunCreated ==> Append(s, [created]) == Apply(s, StepNote(created))
  {
  }

  lemma ProjectIsReachable(maxAttempts: nat, s: State, project: Option<nat>) returns (s': State)
    requires Reachable(maxAttempts, s) && Linked(s)
    ensures Reachable(maxAttempts, s') && Linked(s')
    ensures s' == if project.Some? then s else CreateProject(s, ReadyForGeneration, None).value
  {
    s' := s;
    if project.None? {
      s' := SampleRuns.Step(maxAttempts, s, StepCreateProject(true, None));
      ProjectPart(s, 0);
    }
  }

  lemma ShotIsReachable(maxAttempts: nat, s: State, q: nat) returns (s': State)
    requires Reachable(maxAttempts, s) && Linked(s) && q < |s.projects|
    ensures Reachable(maxAttempts, s') && Linked(s') && CreateShot(PrepareDirectRun(s, q).value, q) == Success(s')
  {
    var s1 := SampleRuns.Step(maxAttempts, s, StepPrepareDirectRun(q));
    ProjectPart(s, q);
    s' := SampleRuns.Step(maxAttempts, s1, StepCreateShot(q));
    ProjectPart(s1, q);
  }

  lemma AttemptIsReachable(maxAttempts: nat, s: State, k: nat, workflow: Workflow, cost: nat, key: nat, created: Event)
    requires Reachable(maxAttempts, s) && Linked(s) && CreateAttempt(s, k, workflow, cost, key, None).Success?
    requires created.kind == RunCreated
    ensures Reachable(maxAttempts, Append(CreateAttempt(s, k, workflow, cost, key, None).value, [created]))
  {
    var s1 := SampleRuns.Step(maxAttempts, s, StepCreateAttempt(k, workflow, cost, key));
    AttemptPart(s, k, workflow, cost, key, created);
    var s2 := SampleRuns.Step(maxAttempts, s1, StepNote(created));
    AttemptPart(s1, k, workflow, cost, key, created);
  }

  /** Submitting a run is one transaction; what it commits, its parts commit one after the other. */
  lemma SubmitRunIsReachable(maxAttempts: nat, s: State, project: Option<nat>, valid: bool, workflow: Workflow,
                             cost: nat, key: nat)
    requires Reachable(maxAttempts, s) && Linked(s) && SubmitRun(s, project, valid, workflow, cost, key).Success?
    ensures Reachable(maxAttempts, SubmitRun(s, project, valid, workflow, cost, key).value)
  {
    var q := if project.Some? then project.value else |s.projects|;
    var s1 := ProjectIsReachable(maxAttempts, s, project);
    var s3 := ShotIsReachable(maxAttempts, s1, q);
    if valid {
      var created := Event(RunCreated, Some(q), Some(|s.shots|), Some(|s.attempts|));
      AttemptIsReachable(maxAttempts, s3, |s.shots|, workflow, cost, key, created);
    }
  }

  /** A run submitted to a completed project commits exactly when its revision is invalid, and then
      leaves the project completed with a shot that is not accepted. */
  lemma RunOnCompleted(s: State, q: nat, valid: bool, workflow: Workflow, cost: nat, key: nat)
    requires Linked(s) && IsCompleted(s, q)
    ensures var r := SubmitRun(s, Some(q), valid, workflow, cost, key);
            && (r.Success? <==> !valid)
            && (r.Success? ==> r == CreateShot(s, q) && IsCompleted(r.value, q) && !AllAccepted(r.value, q))
  {
    var s' := CreateShot(s, q).value;
    assert s'.shots[|s.shots|].project == q && s'.shots[|s.shots|].accepted.None?;
    CompletedTakesNoAttempts(s', |s.shots|, workflow, cost, key);
  }

  /** A project whose only shot is accepted. */
  lemma CompletedRun() returns (s: State)
    ensures Reachable(3, s) && Linked(s) && IsCompleted(s, 0) && AllAccepted(s, 0)
  {
    var s0 := SampleRuns.ReadyProject(3, None, 1);
    var s1 := SampleRuns.FirstAttempt(3, s0, None, 1, 100000);
    var s2 := SampleRuns.ToReview(3, s1, 0, 0, 0);
    s := SampleRuns.AcceptsLast(3, s2, 0);
  }

  /** A completed project, all of its shots accepted, to which a run with an invalid revision is then submitted. */
  lemma CompletedWithOpenShot() returns (s: State, s': State)
    ensures Reachable(3, s) && Linked(s) && IsCompleted(s, 0) && AllAccepted(s, 0)
    ensures SubmitRun(s, Some(0), false, RevisionValidated, 0, 1) == Success(s')
    ensures Reachable(3, s') && IsCompleted(s', 0) && !AllAccepted(s', 0)
  {
    s := CompletedRun();
    RunOnCompleted(s, 0, false, RevisionValidated, 0, 1);
    s' := SubmitRun(s, Some(0), false, RevisionValidated, 0, 1).value;
    SubmitRunIsReachable(3, s, Some(0), false, RevisionValidated, 0, 1);
  }
}
