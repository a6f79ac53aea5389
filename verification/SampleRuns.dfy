/** Building blocks of concrete runs: a project with its first shots, and one attempt taken all the
    way from the queue to its review (apps/api/src/generation.ts). */
module SampleRuns {
  import opened Wrappers
  import opened Domain
  import opened ControlPlane
  import opened Lifecycle
  import opened Runs
  import LifecycleSteps

  /** Only attempt i, its shot and its project may differ. */
  ghost predicate Touches(s: State, s': State, i: nat) {
    && Linked(s) && Linked(s') && i < |s.attempts| == |s'.attempts|
    && |s'.shots| == |s.shots| && |s'.projects| == |s.projects| && s'.maxAttempts == s.maxAttempts
    && s'.attempts[i].shot == s.attempts[i].shot && s'.attempts[i].project == s.attempts[i].project
    && s'.attempts[i].key == s.attempts[i].key
    && ProjectOf(s', i).spent == ProjectOf(s, i).spent && ProjectOf(s', i).budget == ProjectOf(s, i).budget
    && (forall j :: 0 <= j < |s.attempts| && j != i ==> s'.attempts[j] == s.attempts[j])
    && (forall k :: 0 <= k < |s.shots| && k != s.attempts[i].shot ==> s'.shots[k] == s.shots[k])
    && (forall q :: 0 <= q < |s.projects| && q != s.attempts[i].project ==> s'.projects[q] == s.projects[q])
  }

  lemma Step(maxAttempts: nat, s: State, step: Step) returns (s': State)
    requires Reachable(maxAttempts, s) && Linked(s)
    ensures s' == Apply(s, step) && Reachable(maxAttempts, s') && Linked(s') && s'.maxAttempts == maxAttempts
  {
    s' := Apply(s, step);
    ReachesNext(maxAttempts, s, step);
    ReachableHolds(maxAttempts, s');
  }

  lemma StoreTouches(s: State, i: nat, r: Rows)
    requires Linked(s) && i < |s.attempts| && SameIdentity(ViewOf(s, i), r)
    ensures Touches(s, Store(s, i, r), i)
  {
  }

  lemma EffectStored(s: State, step: Step)
    requires Inv(s) && OnAttempt(step) && step.i < |s.attempts| && Effect(s, step).Success?
    ensures var r, s' := Effect(s, step).value, Apply(s, step);
            && Touches(s, s', step.i)
            && s'.attempts[step.i] == r.attempt && ShotOf(s', step.i) == r.shot && ProjectOf(s', step.i) == r.project
  {
    ViewIsConsistent(s, step.i);
    LifecycleSteps.EffectIsCoherent(s, step);
    ApplyStores(s, step);
    RowsStored(s, step.i, Effect(s, step).value);
  }

  lemma RowsStored(s: State, i: nat, r: Rows)
    requires Linked(s) && i < |s.attempts| && SameIdentity(ViewOf(s, i), r)
    ensures var s' := Store(s, i, r);
            && Touches(s, s', i)
            && s'.attempts[i] == r.attempt && ShotOf(s', i) == r.shot && ProjectOf(s', i) == r.project
  {
    StoreTouches(s, i, r);
  }

  /** A transaction on attempt i that commits leaves the rows of its effect. */
  lemma Works(maxAttempts: nat, s: State, step: Step) returns (s': State)
    requires Reachable(maxAttempts, s) && Linked(s) && OnAttempt(step) && step.i < |s.attempts|
    requires Effect(s, step).Success?
    ensures Reachable(maxAttempts, s') && Touches(s, s', step.i)
    ensures var r := Effect(s, step).value;
            && s'.attempts[step.i] == r.attempt && ShotOf(s', step.i) == r.shot && ProjectOf(s', step.i) == r.project
  {
    ReachableHolds(maxAttempts, s);
    EffectStored(s, step);
    s' := Step(maxAttempts, s, step);
  }

  /** Worker w holds nothing and no attempt has the prompt. */
  predicate Unused(s: State, w: WorkerId, prompt: PromptId) {
    forall j :: 0 <= j < |s.attempts| ==> s.attempts[j].leaseOwner != Some(w) && s.attempts[j].prompt != Some(prompt)
  }

  predicate Waiting(a: Attempt, status: AttemptStatus) {
    a.status == status && a.prompt == None
  }

  lemma Claim(maxAttempts: nat, s: State, i: nat, w: WorkerId) returns (s': State)
    requires Reachable(maxAttempts, s) && Linked(s) && i < |s.attempts| && Waiting(s.attempts[i], Queued)
    requires s.attempts[i].leaseExpires == None && !HoldsLease(s, w, 0)
    ensures Reachable(maxAttempts, s') && Touches(s, s', i) && Waiting(s'.attempts[i], Claimed)
    ensures ShotOf(s', i) == ShotOf(s, i) && ProjectOf(s', i) == ProjectOf(s, i)
  {
    s' := Works(maxAttempts, s, StepClaimNext(i, w, 0, 60));
  }

  lemma Announce(maxAttempts: nat, s: State, i: nat, w: WorkerId) returns (s': State)
    requires Reachable(maxAttempts, s) && Linked(s) && i < |s.attempts| && Waiting(s.attempts[i], Claimed)
    ensures Reachable(maxAttempts, s') && Touches(s, s', i) && Waiting(s'.attempts[i], Submitting)
    ensures ShotOf(s', i) == ShotOf(s, i) && ProjectOf(s', i) == ProjectOf(s, i)
  {
    s' := Works(maxAttempts, s, StepSubmitIntent(i, w, 60));
  }

  lemma Record(maxAttempts: nat, s: State, i: nat, prompt: PromptId) returns (s': State)
    requires Reachable(maxAttempts, s) && Linked(s) && i < |s.attempts| && Waiting(s.attempts[i], Submitting)
    requires !PromptTaken(s, i, prompt)
    ensures Reachable(maxAttempts, s') && Touches(s, s', i)
    ensures s'.attempts[i].status == Submitted && s'.attempts[i].prompt == Some(prompt)
    ensures ShotOf(s', i) == ShotOf(s, i) && ProjectOf(s', i) == ProjectOf(s, i)
  {
    s' := Works(maxAttempts, s, StepPersistSubmitted(i, prompt));
  }

  lemma SubmittedStarts(v: View)
    requires Consistent(v) && v.attempt.status == Submitted
    ensures var r := MarkRunning(v.attempt, v.shot, v.project);
            && r.Success? && r.value.attempt.status == Running && r.value.attempt.prompt == v.attempt.prompt
            && r.value.project == v.project
  {
  }

  lemma Start(maxAttempts: nat, s: State, i: nat) returns (s': State)
    requires Reachable(maxAttempts, s) && Linked(s) && i < |s.attempts| && s.attempts[i].status == Submitted
    ensures Reachable(maxAttempts, s') && Touches(s, s', i)
    ensures s'.attempts[i].status == Running && s'.attempts[i].prompt == s.attempts[i].prompt
    ensures ProjectOf(s', i) == ProjectOf(s, i)
  {
    ReachableHolds(maxAttempts, s);
    ViewIsConsistent(s, i);
    SubmittedStarts(ViewOf(s, i));
    assert Effect(s, StepMarkRunning(i)) == MarkRunning(s.attempts[i], ShotOf(s, i), ProjectOf(s, i));
    s' := Works(maxAttempts, s, StepMarkRunning(i));
  }

  lemma RunningFinishes(v: View)
    requires Consistent(v) && v.attempt.status == Running
    ensures var r := FinishSuccess(v.attempt, v.shot, v.project, v.artifact, v.evaluation, false, None, Passed);
            && r.Success? && r.value.attempt.status == AwaitingReview && r.value.shot.status == ShotInReview
            && r.value.attempt.leaseOwner == None && r.value.attempt.prompt == v.attempt.prompt
            && (v.project.status == ProjectGenerating ==> r.value.project.status == AwaitingFinalReview)
  {
  }

  lemma Finish(maxAttempts: nat, s: State, i: nat) returns (s': State)
    requires Reachable(maxAttempts, s) && Linked(s) && i < |s.attempts| && s.attempts[i].status == Running
    ensures Reachable(maxAttempts, s') && Touches(s, s', i) && InReview(s', i)
    ensures s'.attempts[i].leaseOwner == None && s'.attempts[i].prompt == s.attempts[i].prompt
    ensures ProjectOf(s, i).status == ProjectGenerating ==> ProjectOf(s', i).status == AwaitingFinalReview
  {
    ReachableHolds(maxAttempts, s);
    ViewIsConsistent(s, i);
    RunningFinishes(ViewOf(s, i));
    s' := Works(maxAttempts, s, StepFinishSuccess(i, false, None, Passed));
  }

  ghost predicate InReview(s: State, i: nat)
    requires Linked(s)
  {
    i < |s.attempts| && s.attempts[i].status == AwaitingReview && ShotOf(s, i).status == ShotInReview
  }

  lemma TouchesItself(s: State, i: nat)
    requires Linked(s) && i < |s.attempts|
    ensures Touches(s, s, i)
  {
  }

  lemma TouchesTransitive(s1: State, s2: State, s3: State, i: nat)
    requires Touches(s1, s2, i) && Touches(s2, s3, i)
    ensures Touches(s1, s3, i)
  {
  }

  lemma UnusedIsFree(s: State, s': State, i: nat, w: WorkerId, prompt: PromptId)
    requires Unused(s, w, prompt) && Touches(s, s', i)
    ensures !HoldsLease(s, w, 0) && !PromptTaken(s', i, prompt)
  {
  }

  lemma ToSubmitted(maxAttempts: nat, s: State, i: nat, w: WorkerId, prompt: PromptId) returns (s': State)
    requires Reachable(maxAttempts, s) && Linked(s) && i < |s.attempts| && Waiting(s.attempts[i], Queued)
    requires s.attempts[i].leaseExpires == None && Unused(s, w, prompt)
    ensures Reachable(maxAttempts, s') && Touches(s, s', i) && ProjectOf(s', i) == ProjectOf(s, i)
    ensures s'.attempts[i].status == Submitted && s'.attempts[i].prompt == Some(prompt)
  {
    TouchesItself(s, i);
    UnusedIsFree(s, s, i, w, prompt);
    var s1 := Claim(maxAttempts, s, i, w);
    var s2 := Announce(maxAttempts, s1, i, w);
    TouchesTransitive(s, s1, s2, i);
    UnusedIsFree(s, s2, i, w, prompt);
    s' := Record(maxAttempts, s2, i, prompt);
    TouchesTransitive(s, s2, s', i);
  }

  /** A finished submission is never refused. */
  lemma SubmittedFinishes(v: View)
    requires Consistent(v) && v.attempt.status == Submitted
    ensures FinishSuccess(v.attempt, v.shot, v.project, v.artifact, v.evaluation, false, None, Passed).Success?
  {
  }

  lemma SubmittedCommits(s: State, i: nat)
    requires Linked(s) && i < |s.attempts| && Consistent(ViewOf(s, i)) && s.attempts[i].status == Submitted
    ensures Effect(s, StepFinishSuccess(i, false, None, Passed)).Success?
  {
    SubmittedFinishes(ViewOf(s, i));
  }

  lemma SilentFinish(s: State, i: nat)
    requires Linked(s) && i < |s.attempts| && Consistent(ViewOf(s, i)) && s.attempts[i].status == Submitted
    ensures Linked(Apply(s, StepFinishSuccess(i, false, None, Passed)))
    ensures Stranded(Apply(s, StepFinishSuccess(i, false, None, Passed)), i)
  {
    SubmittedCommits(s, i);
    ReviewNeedsRunning(s, i);
  }

  /** A prompt that succeeds without ever reporting that it started leaves its attempt stranded. */
  lemma SilentRunStrands() returns (s: State)
    ensures Reachable(3, s) && Linked(s) && Stranded(s, 0)
  {
    var s0 := ReadyProject(3, None, 1);
    var s1 := FirstAttempt(3, s0, None, 1, 100000);
    var s2 := ToSubmitted(3, s1, 0, 0, 0);
    ReachableHolds(3, s2);
    ViewIsConsistent(s2, 0);
    SilentFinish(s2, 0);
    s := Step(3, s2, StepFinishSuccess(0, false, None, Passed));
  }

  /** A queued attempt of a generating project goes through its whole life up to the review. */
  lemma ToReview(maxAttempts: nat, s: State, i: nat, w: WorkerId, prompt: PromptId) returns (s': State)
    requires Reachable(maxAttempts, s) && Linked(s) && i < |s.attempts| && Waiting(s.attempts[i], Queued)
    requires s.attempts[i].leaseExpires == None && Unused(s, w, prompt) && ProjectOf(s, i).status == ProjectGenerating
    ensures Reachable(maxAttempts, s') && Touches(s, s', i) && InReview(s', i)
    ensures ProjectOf(s', i).status == AwaitingFinalReview
    ensures s'.attempts[i].leaseOwner == None && s'.attempts[i].prompt == Some(prompt)
  {
    var s1 := ToSubmitted(maxAttempts, s, i, w, prompt);
    var s2 := Start(maxAttempts, s1, i);
    s' := Finish(maxAttempts, s2, i);
    TouchesTransitive(s, s1, s2, i);
    TouchesTransitive(s, s2, s', i);
  }

  /** A ready project with n approved shots. */
  predicate Ready(s: State, budget: Option<nat>, n: nat) {
    && s.projects == [Project(ReadyForGeneration, budget, 0, 1)] && s.attempts == []
    && |s.shots| == n && forall k :: 0 <= k < n ==> s.shots[k] == Shot(0, ApprovedForGeneration, None, None, 1)
  }

  lemma {:induction false} ReadyProject(maxAttempts: nat, budget: Option<nat>, n: nat) returns (s: State)
    requires budget.Some? ==> budget.value <= MAX_SAFE_INTEGER
    ensures Reachable(maxAttempts, s) && Linked(s) && Ready(s, budget, n) && s.maxAttempts == maxAttempts
  {
    if n == 0 {
      LeadsNowhere(Empty(maxAttempts));
      s := Step(maxAttempts, Empty(maxAttempts), StepCreateProject(true, budget));
    } else {
      var s0 := ReadyProject(maxAttempts, budget, n - 1);
      s := Step(maxAttempts, s0, StepCreateShot(0));
    }
  }

  lemma CreateApplies(s: State, k: nat, cost: nat, key: nat)
    requires Linked(s) && CreateAttempt(s, k, RevisionValidated, cost, key, None).Success?
    ensures Apply(s, StepCreateAttempt(k, RevisionValidated, cost, key))
            == CreateAttempt(s, k, RevisionValidated, cost, key, None).value
  {
  }

  lemma Creates(maxAttempts: nat, s: State, k: nat, cost: nat, key: nat) returns (s': State)
    requires Reachable(maxAttempts, s) && Linked(s) && CreateAttempt(s, k, RevisionValidated, cost, key, None).Success?
    ensures s' == CreateAttempt(s, k, RevisionValidated, cost, key, None).value
    ensures Reachable(maxAttempts, s') && Linked(s')
  {
    CreateApplies(s, k, cost, key);
    s' := Step(maxAttempts, s, StepCreateAttempt(k, RevisionValidated, cost, key));
  }

  /** What stands in the way of a new attempt besides its workflow. */
  ghost predicate Affordable(s: State, k: nat, cost: nat, key: nat)
    requires Linked(s) && k < |s.shots|
  {
    var p := s.projects[s.shots[k].project];
    && Startable(s.shots[k].status) && s.shots[k].accepted == None
    && Sum(AnyInShot(k), s.attempts) < s.maxAttempts
    && p.spent + cost <= MAX_SAFE_INTEGER && (p.budget.Some? ==> p.spent + cost <= p.budget.value)
    && (p.status == ReadyForGeneration || p.status == AwaitingFinalReview || p.status == ProjectGenerating)
    && !KeyTaken(s, key)
  }

  lemma CreateCommits(s: State, k: nat, cost: nat, key: nat)
    requires Linked(s) && k < |s.shots| && Affordable(s, k, cost, key)
    ensures var r := CreateAttempt(s, k, RevisionValidated, cost, key, None);
            var q := s.shots[k].project;
            && r.Success? && |r.value.projects| == |s.projects|
            && r.value.attempts == s.attempts +
               [Attempt(q, k, key, cost, None, Queued, None, None, None, None, false, 1)]
            && r.value.shots == s.shots[k := s.shots[k].(status := ShotQueued, version := s.shots[k].version + 1)]
            && r.value.projects[q].status == ProjectGenerating && r.value.maxAttempts == s.maxAttempts
            && r.value.projects[q].spent == s.projects[q].spent + cost
               && r.value.projects[q].budget == s.projects[q].budget
  {
    AttemptsOfShotIsSum(s.attempts, k);
  }

  /** The first attempt of a ready project, for its first shot. */
  lemma FirstAttempt(maxAttempts: nat, s: State, budget: Option<nat>, n: nat, cost: nat) returns (s': State)
    requires Reachable(maxAttempts, s) && Linked(s) && Ready(s, budget, n) && s.maxAttempts == maxAttempts
    requires maxAttempts > 0 && n > 0 && cost <= MAX_SAFE_INTEGER && (budget.Some? ==> cost <= budget.value)
    ensures Reachable(maxAttempts, s') && Linked(s') && s'.maxAttempts == maxAttempts
    ensures s'.attempts == [Attempt(0, 0, 0, cost, None, Queued, None, None, None, None, false, 1)]
    ensures s'.shots == s.shots[0 := Shot(0, ShotQueued, None, None, 2)]
    ensures |s'.projects| == 1 && s'.projects[0].status == ProjectGenerating
    ensures s'.projects[0].spent == cost && s'.projects[0].budget == budget
  {
    CreateCommits(s, 0, cost, 0);
    s' := Creates(maxAttempts, s, 0, cost, 0);
  }

  lemma AcceptTouches(s: State, i: nat)
    requires Inv(s) && i < |s.attempts| && Transact(s, StepAccept(i)).Success?
    ensures Touches(s, Apply(s, StepAccept(i)), i)
  {
    EffectStored(s, StepAccept(i));
  }

  lemma AcceptsLast(maxAttempts: nat, s: State, i: nat) returns (s': State)
    requires Reachable(maxAttempts, s) && Linked(s) && InReview(s, i) && OthersAccepted(s, i)
    ensures s' == Apply(s, StepAccept(i)) && Reachable(maxAttempts, s') && Linked(s')
    ensures Touches(s, s', i) && ProjectOf(s', i).status == Completed
    ensures forall k :: 0 <= k < |s'.shots| && s'.shots[k].project == s.attempts[i].project ==>
            s'.shots[k].accepted.Some?
  {
    ReachableHolds(maxAttempts, s);
    LastAcceptanceCompletes(s, i);
    AcceptTouches(s, i);
    s' := Step(maxAttempts, s, StepAccept(i));
  }
}
