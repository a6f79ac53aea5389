/** Facts about whole runs: every reachable store, and what no later transaction changes. */
module Runs {
  import opened Wrappers
  import opened Domain
  import opened ControlPlane
  import opened Lifecycle
  import LifecycleSteps
  import EventLog

  /** One transaction was tried: it committed, or was refused and left no trace. */
  ghost predicate Next(s: State, s': State) {
    Linked(s) && exists step :: s' == Apply(s, step)
  }

  ghost predicate IsRun(trace: seq<State>) {
    trace != [] && forall n :: 0 <= n < |trace| - 1 ==> Next(trace[n], trace[n + 1])
  }

  /** Some sequence of transactions, in any order and by anyone, takes s to s'. */
  ghost predicate Leads(s: State, s': State) {
    exists trace :: IsRun(trace) && trace[0] == s && trace[|trace| - 1] == s'
  }

  ghost predicate Reachable(maxAttempts: nat, s: State) {
    Leads(Empty(maxAttempts), s)
  }

  lemma LeadsFurther(s: State, s1: State, s2: State)
    requires Leads(s, s1) && Next(s1, s2)
    ensures Leads(s, s2)
  {
    var trace :| IsRun(trace) && trace[0] == s && trace[|trace| - 1] == s1;
    var longer := trace + [s2];
    assert IsRun(longer) && longer[0] == s && longer[|longer| - 1] == s2;
  }

  lemma LeadsNowhere(s: State)
    ensures Leads(s, s)
  {
    assert IsRun([s]);
  }

  lemma NextKeeps(s: State, s': State)
    requires Inv(s) && Next(s, s')
    ensures Inv(s') && Follows(s, s') && (EventLog.LogMatches(s) ==> EventLog.LogMatches(s'))
  {
    var step :| s' == Apply(s, step);
    StepFollows(s, step);
    if EventLog.LogMatches(s) { EventLog.StepLogs(s, step); }
  }

  lemma {:induction false} RunKeeps(trace: seq<State>)
    requires IsRun(trace) && Inv(trace[0])
    ensures var s' := trace[|trace| - 1];
            Inv(s') && Follows(trace[0], s') && (EventLog.LogMatches(trace[0]) ==> EventLog.LogMatches(s'))
    decreases |trace|
  {
    if |trace| > 1 {
      var s1 := trace[1];
      NextKeeps(trace[0], s1);
      RunKeeps(trace[1..]);
      FollowsTransitive(trace[0], s1, trace[|trace| - 1]);
    }
  }

  lemma LaterKeeps(s: State, s': State)
    requires Inv(s) && Leads(s, s')
    ensures Inv(s') && Follows(s, s')
  {
    var trace :| IsRun(trace) && trace[0] == s && trace[|trace| - 1] == s';
    RunKeeps(trace);
  }

  lemma EmptyHolds(maxAttempts: nat)
    ensures Inv(Empty(maxAttempts)) && EventLog.LogMatches(Empty(maxAttempts))
  {
  }

  /** The invariant holds of every store that any run can reach. */
  lemma ReachableHolds(maxAttempts: nat, s: State)
    requires Reachable(maxAttempts, s)
    ensures Inv(s) && EventLog.LogMatches(s) && s.maxAttempts == maxAttempts
  {
    EmptyHolds(maxAttempts);
    var trace :| IsRun(trace) && trace[0] == Empty(maxAttempts) && trace[|trace| - 1] == s;
    RunKeeps(trace);
  }

  // ------------------------------------------------------------- cross-entity invariants

  /** A queued, generating or in-review shot has exactly one attempt in progress; any other has none. */
  lemma ExactlyOneLiveAttempt(maxAttempts: nat, s: State, k: nat)
    requires Reachable(maxAttempts, s) && k < |s.shots|
    ensures && (Occupied(s.shots[k].status) <==>
                  exists i :: 0 <= i < |s.attempts| && s.attempts[i].shot == k && !Terminal(s.attempts[i].status))
            && (forall i, j | 0 <= i < |s.attempts| && 0 <= j < |s.attempts|
                              && s.attempts[i].shot == k && s.attempts[j].shot == k
                              && !Terminal(s.attempts[i].status) && !Terminal(s.attempts[j].status) :: i == j)
  {
    ReachableHolds(maxAttempts, s);
    if Occupied(s.shots[k].status) {
      var i := SumWitness(LiveInShot(k), s.attempts);
      assert s.attempts[i].shot == k && !Terminal(s.attempts[i].status);
    }
    forall i, j | 0 <= i < |s.attempts| && 0 <= j < |s.attempts|
                  && s.attempts[i].shot == k && s.attempts[j].shot == k
                  && !Terminal(s.attempts[i].status) && !Terminal(s.attempts[j].status)
      ensures i == j && Occupied(s.shots[k].status)
    {
      LiveIsUnique(s, i, j);
    }
    forall i | 0 <= i < |s.attempts| && s.attempts[i].shot == k && !Terminal(s.attempts[i].status)
      ensures Occupied(s.shots[k].status)
    {
      LiveIsUnique(s, i, i);
    }
  }

  /** Some attempt of project q is still before its review. */
  ghost predicate SomePreReview(attempts: seq<Attempt>, q: nat) {
    exists i :: 0 <= i < |attempts| && attempts[i].project == q && PreReview(attempts[i])
  }

  ghost predicate AllTerminal(attempts: seq<Attempt>, q: nat) {
    forall i :: 0 <= i < |attempts| && attempts[i].project == q ==> Terminal(attempts[i].status)
  }

  lemma PreReviewExists(attempts: seq<Attempt>, q: nat)
    requires Sum(BeforeReview(q), attempts) >= 1
    ensures SomePreReview(attempts, q)
  {
    var i := SumWitness(BeforeReview(q), attempts);
    assert attempts[i].project == q && PreReview(attempts[i]);
  }

  lemma NoneLive(attempts: seq<Attempt>, q: nat)
    requires Sum(LiveInProject(q), attempts) == 0
    ensures AllTerminal(attempts, q)
  {
    forall i | 0 <= i < |attempts| && attempts[i].project == q ensures Terminal(attempts[i].status) {
      SumCovers(LiveInProject(q), attempts, i);
    }
  }

  /** Each project status is justified by an attempt or by one of its shots. */
  lemma ProjectStatusJustified(maxAttempts: nat, s: State, q: nat)
    requires Reachable(maxAttempts, s) && q < |s.projects|
    ensures var status := s.projects[q].status;
            && (status == ProjectGenerating ==> SomePreReview(s.attempts, q))
            && (status == NeedsAttention ==> SomeShot(s.shots, q, Retryable))
            && (status == ProjectFailed ==> SomeShot(s.shots, q, ShotFailed))
            && (status == ProjectCancelled ==> SomeShot(s.shots, q, ShotCancelled))
            && (status == Completed ==> AllTerminal(s.attempts, q))
  {
    ReachableHolds(maxAttempts, s);
    assert ProjectJustified(s, q);
    if s.projects[q].status == ProjectGenerating { PreReviewExists(s.attempts, q); }
    if s.projects[q].status == Completed { NoneLive(s.attempts, q); }
  }

  /** Spend is exactly the cost of the attempts and within the budget, so a worker that checks the
      budget of an existing project before submitting never finds it exceeded. */
  lemma SpendIsConserved(maxAttempts: nat, s: State, q: nat)
    requires Reachable(maxAttempts, s) && q < |s.projects|
    ensures var p := s.projects[q];
            && p.spent == Sum(CostIn(q), s.attempts)
            && !(p.budget.Some? && p.spent > p.budget.value)
  {
    ReachableHolds(maxAttempts, s);
  }

  lemma AttemptLimitHolds(maxAttempts: nat, s: State, k: nat)
    requires Reachable(maxAttempts, s) && k < |s.shots|
    ensures AttemptsOfShot(s.attempts, k) <= maxAttempts
  {
    ReachableHolds(maxAttempts, s);
    AttemptsOfShotIsSum(s.attempts, k);
  }

  /** A chain of source attempts: each element names the next one as its source. */
  ghost predicate SourceChain(s: State, chain: seq<nat>) {
    && (forall n :: 0 <= n < |chain| ==> chain[n] < |s.attempts|)
    && (forall n :: 0 <= n < |chain| - 1 ==> s.attempts[chain[n]].source == Some(chain[n + 1]))
  }

  /** Chains of sources never revisit an attempt and never leave their shot. */
  lemma {:induction false} SourceChainsAreAcyclic(maxAttempts: nat, s: State, chain: seq<nat>, m: nat, n: nat)
    requires Reachable(maxAttempts, s) && SourceChain(s, chain) && m < n < |chain|
    ensures chain[m] > chain[n]
    ensures s.attempts[chain[m]].shot == s.attempts[chain[n]].shot
    decreases n - m
  {
    ReachableHolds(maxAttempts, s);
    assert s.attempts[chain[m]].source == Some(chain[m + 1]);
    if m + 1 < n { SourceChainsAreAcyclic(maxAttempts, s, chain, m + 1, n); }
  }

  // ---------------------------------------------------------------------- the event log

  /** At every commit, replaying one attempt's events from nothing gives its stored status, a claim
      reading as queued; no attempt rests between generation and evaluation; and the outbox holds
      exactly the logged events. */
  lemma LogReplaysToStatus(maxAttempts: nat, s: State, i: nat)
    requires Reachable(maxAttempts, s) && i < |s.attempts|
    ensures && EventLog.Replay(s.events, i, None) == Some(EventLog.AsLogged(s.attempts[i].status))
            && s.attempts[i].status != Generated && s.attempts[i].status != Evaluating
            && s.outbox == s.events
  {
    ReachableHolds(maxAttempts, s);
  }

  // ------------------------------------------------------------- what a later store keeps

  predicate AttemptFollows(a: Attempt, a': Attempt) {
    && a'.shot == a.shot && a'.project == a.project && a'.source == a.source && a'.cost == a.cost
    && (Terminal(a.status) ==> a'.status == a.status)
    && (a.status == AwaitingReview ==>
          a'.status == AwaitingReview || a'.status == Accepted || a'.status == Rejected)
  }

  /** What every transaction, and so every run, leaves in place. */
  ghost predicate Follows(s: State, s': State)
    requires Linked(s) && Linked(s')
  {
    && s'.maxAttempts == s.maxAttempts
    && |s.attempts| <= |s'.attempts| && |s.shots| <= |s'.shots| && |s.projects| <= |s'.projects|
    && (forall i :: 0 <= i < |s.attempts| ==> AttemptFollows(s.attempts[i], s'.attempts[i]))
    && (forall k :: 0 <= k < |s.shots| && s.shots[k].accepted.Some? ==> s'.shots[k].accepted == s.shots[k].accepted)
    && (forall i :: 0 <= i < |s.attempts| && Stranded(s, i) ==> Stranded(s', i))
  }

  /** An attempt in review whose shot never reached review. */
  ghost predicate Stranded(s: State, i: nat)
    requires Linked(s)
  {
    i < |s.attempts| && s.attempts[i].status == AwaitingReview && ShotOf(s, i).status == ShotQueued
  }

  /** A transaction on an attempt commits exactly when its rows can be written. */
  lemma CommitsWithEffect(s: State, step: Step)
    requires Linked(s) && OnAttempt(step) && step.i < |s.attempts|
    ensures Transact(s, step).Success? <==> Effect(s, step).Success?
  {
  }

  lemma ApplyStores(s: State, step: Step)
    requires Linked(s) && OnAttempt(step) && step.i < |s.attempts| && Effect(s, step).Success?
    ensures Apply(s, step) == Store(s, step.i, Effect(s, step).value)
  {
  }

  lemma StoreFollows(s: State, i: nat, r: Rows)
    requires Inv(s) && i < |s.attempts| && Coherent(ViewOf(s, i), r) && Linked(Store(s, i, r))
    ensures Follows(s, Store(s, i, r))
  {
    var s' := Store(s, i, r);
    forall j | 0 <= j < |s.attempts| && Stranded(s, j) ensures Stranded(s', j) {
      StoreLeavesStranded(s, i, r, j);
    }
  }

  lemma StoreLeavesStranded(s: State, i: nat, r: Rows, j: nat)
    requires Linked(s) && OneLiveAttempt(s) && i < |s.attempts| && Coherent(ViewOf(s, i), r) && Linked(Store(s, i, r))
    requires Stranded(s, j)
    ensures Stranded(Store(s, i, r), j)
  {
    if j != i && s.attempts[j].shot == s.attempts[i].shot && Live(s.attempts[i]) {
      LiveIsUnique(s, i, j);
    }
  }

  lemma GrowFollows(s: State, s': State)
    requires Linked(s) && Linked(s') && s'.attempts == s.attempts && s.shots <= s'.shots
    requires |s.projects| <= |s'.projects| && s'.maxAttempts == s.maxAttempts
    ensures Follows(s, s')
  {
    assert forall k :: 0 <= k < |s.shots| ==> s'.shots[k] == s.shots[k];
  }

  lemma QueueFollows(s: State, s': State)
    requires Linked(s) && Linked(s') && LifecycleSteps.SameButQueue(s, s')
    ensures Follows(s, s')
  {
  }

  lemma OtherStepFollows(s: State, step: Step)
    requires Linked(s) && !OnAttempt(step) && TransactElsewhere(s, step).Success?
             && Linked(TransactElsewhere(s, step).value)
    ensures Follows(s, TransactElsewhere(s, step).value)
  {
    var s' := TransactElsewhere(s, step).value;
    match step {
      case StepCreateAttempt(k, workflow, cost, key) => CreateFollows(s, k, workflow, cost, key, None);
      case StepRetry(i, workflow, cost, key, resolve) =>
        CreateFollows(s, s.attempts[i].shot, workflow, cost, key, Some(i));
      case StepRecoverStale(now) => LifecycleSteps.RecoverStaleShape(s, now); QueueFollows(s, s');
      case StepCreateProject(_, _) => GrowFollows(s, s');
      case StepPrepareDirectRun(_) => GrowFollows(s, s');
      case StepCreateShot(_) => GrowFollows(s, s');
      case StepNote(_) => GrowFollows(s, s');
    }
  }

  lemma CreateFollows(s: State, k: nat, workflow: Workflow, cost: nat, key: nat, source: Option<nat>)
    requires Linked(s) && CreateAttempt(s, k, workflow, cost, key, source).Success?
    requires source.Some? ==> source.value < |s.attempts| && s.attempts[source.value].shot == k
    requires Linked(CreateAttempt(s, k, workflow, cost, key, source).value)
    ensures Follows(s, CreateAttempt(s, k, workflow, cost, key, source).value)
  {
    LifecycleSteps.CreateAttemptShape(s, k, workflow, cost, key, source);
  }

  lemma AttemptStepFollows(s: State, step: Step)
    requires Inv(s) && OnAttempt(step) && TransactOnAttempt(s, step).Success?
             && Linked(TransactOnAttempt(s, step).value)
    ensures Follows(s, TransactOnAttempt(s, step).value)
  {
    if step.i < |s.attempts| {
      ViewIsConsistent(s, step.i);
      LifecycleSteps.EffectIsCoherent(s, step);
      StoreFollows(s, step.i, Effect(s, step).value);
    }
  }

  lemma StepFollows(s: State, step: Step)
    requires Inv(s)
    ensures Inv(Apply(s, step)) && Follows(s, Apply(s, step))
  {
    LifecycleSteps.StepKeeps(s, step);
    if Transact(s, step).Success? {
      if OnAttempt(step) { AttemptStepFollows(s, step); } else { OtherStepFollows(s, step); }
    }
  }

  lemma FollowsItself(s: State)
    requires Linked(s)
    ensures Follows(s, s)
  {
  }

  lemma FollowsTransitive(s1: State, s2: State, s3: State)
    requires Linked(s1) && Linked(s2) && Linked(s3) && Follows(s1, s2) && Follows(s2, s3)
    ensures Follows(s1, s3)
  {
  }

  // -------------------------------------------------------------------------- acceptance

  /** Where every other shot is accepted, an attempt in review is the last one in progress. */
  lemma NobodyElseWaits(s: State, i: nat, j: nat)
    requires Linked(s) && OneLiveAttempt(s) && Acceptance(s) && i < |s.attempts| && OthersAccepted(s, i)
    requires s.attempts[i].status == AwaitingReview
    requires j < |s.attempts| && s.attempts[j].project == s.attempts[i].project
    ensures !PreReview(s.attempts[j])
  {
    if PreReview(s.attempts[j]) {
      if s.attempts[j].shot == s.attempts[i].shot { LiveIsUnique(s, i, j); } else { LiveIsUnique(s, j, j); }
    }
  }

  /** When every other shot of the project is accepted and this one is in review with its attempt,
      the project is awaiting its final review. */
  lemma LastReviewFindsFinalReview(s: State, i: nat)
    requires Inv(s) && i < |s.attempts| && OthersAccepted(s, i)
    requires s.attempts[i].status == AwaitingReview && ShotOf(s, i).status == ShotInReview
    ensures ProjectOf(s, i).status == AwaitingFinalReview
  {
    var q := s.attempts[i].project;
    ViewIsConsistent(s, i);
    assert ProjectJustified(s, q);
    if s.projects[q].status == ProjectGenerating {
      var j := SumWitness(BeforeReview(q), s.attempts);
      NobodyElseWaits(s, i, j);
    }
  }

  lemma AcceptSucceeds(v: View)
    requires Consistent(v)
    requires v.attempt.status == AwaitingReview && v.shot.status == ShotInReview && v.othersAccepted
             ==> v.project.status == AwaitingFinalReview
    ensures Accept(v.id, v.attempt, v.shot, v.project, v.evaluation, v.othersAccepted).Success?
            <==> v.attempt.status == AwaitingReview && v.shot.status == ShotInReview
  {
  }

  /** In a reachable store, accepting commits exactly for an attempt in review whose shot is in
      review too: the evaluation and project checks can then no longer refuse it. */
  lemma AcceptCommitsExactly(s: State, i: nat)
    requires Inv(s) && i < |s.attempts|
    ensures Transact(s, StepAccept(i)).Success?
            <==> s.attempts[i].status == AwaitingReview && ShotOf(s, i).status == ShotInReview
  {
    ViewIsConsistent(s, i);
    if s.attempts[i].status == AwaitingReview && ShotOf(s, i).status == ShotInReview && OthersAccepted(s, i) {
      LastReviewFindsFinalReview(s, i);
    }
    AcceptSucceeds(ViewOf(s, i));
    CommitsWithEffect(s, StepAccept(i));
  }

  /** So the last acceptance of a project completes it. */
  lemma LastAcceptanceCompletes(s: State, i: nat)
    requires Inv(s) && i < |s.attempts|
    requires s.attempts[i].status == AwaitingReview && ShotOf(s, i).status == ShotInReview && OthersAccepted(s, i)
    ensures var r := Transact(s, StepAccept(i));
            r.Success? && Linked(r.value) && i < |r.value.attempts|
            && ProjectOf(r.value, i).status == Completed && ShotOf(r.value, i).accepted == Some(i)
    ensures var s' := Apply(s, StepAccept(i));
            forall k :: 0 <= k < |s'.shots| && s'.shots[k].project == s.attempts[i].project ==>
              s'.shots[k].accepted.Some?
  {
    AcceptCommitsExactly(s, i);
    ViewIsConsistent(s, i);
    LastAcceptedRows(s, i);
  }

  lemma LastAcceptedRows(s: State, i: nat)
    requires Linked(s) && i < |s.attempts| && Consistent(ViewOf(s, i)) && OthersAccepted(s, i)
    requires Effect(s, StepAccept(i)).Success?
    ensures var s' := Apply(s, StepAccept(i));
            && Transact(s, StepAccept(i)) == Success(s') && Linked(s') && i < |s'.attempts|
            && ProjectOf(s', i).status == Completed && ShotOf(s', i).accepted == Some(i)
            && (forall k :: 0 <= k < |s'.shots| && s'.shots[k].project == s.attempts[i].project ==>
                  s'.shots[k].accepted.Some?)
  {
    var r := Effect(s, StepAccept(i)).value;
    LifecycleSteps.AcceptShape(ViewOf(s, i));
    StoredRows(s, i, r);
    ApplyStores(s, StepAccept(i));
  }

  /** No attempt can be created for a shot of a completed project. */
  lemma CompletedTakesNoAttempts(s: State, k: nat, workflow: Workflow, cost: nat, key: nat)
    requires Linked(s) && k < |s.shots| && s.projects[s.shots[k].project].status == Completed
    ensures Transact(s, StepCreateAttempt(k, workflow, cost, key)).Failure?
  {
  }

  lemma RejectSucceeds(v: View)
    requires Consistent(v)
    ensures Reject(v.attempt, v.shot, v.project).Success?
            <==> v.attempt.status == AwaitingReview && v.shot.status == ShotInReview
  {
  }

  lemma RejectCommitsExactly(s: State, i: nat)
    requires Inv(s) && i < |s.attempts|
    ensures Transact(s, StepReject(i)).Success?
            <==> s.attempts[i].status == AwaitingReview && ShotOf(s, i).status == ShotInReview
  {
    ViewIsConsistent(s, i);
    RejectSucceeds(ViewOf(s, i));
  }

  /** An accepted shot keeps its accepted attempt for ever, pinned or not, and that attempt passed
      its evaluation. */
  lemma AcceptedForEver(maxAttempts: nat, s: State, s': State, k: nat)
    requires Reachable(maxAttempts, s) && Leads(s, s') && k < |s.shots| && s.shots[k].accepted.Some?
    ensures var i := s.shots[k].accepted.value;
            && k < |s'.shots| && s'.shots[k].accepted == Some(i) && s'.shots[k].status == ShotAccepted
            && i < |s'.attempts| && s'.attempts[i].status == Accepted && s'.attempts[i].shot == k
            && i in s'.evaluations && s'.evaluations[i] == Passed
  {
    ReachableHolds(maxAttempts, s);
    LaterKeeps(s, s');
  }

  /** Terminal attempts never change status. */
  lemma TerminalForEver(maxAttempts: nat, s: State, s': State, i: nat)
    requires Reachable(maxAttempts, s) && Leads(s, s') && i < |s.attempts| && Terminal(s.attempts[i].status)
    ensures i < |s'.attempts| && s'.attempts[i].status == s.attempts[i].status
  {
    ReachableHolds(maxAttempts, s);
    LaterKeeps(s, s');
  }

  // ---------------------------------------------------------------- attempts stuck in review

  lemma StoredRows(s: State, i: nat, r: Rows)
    requires Linked(s) && i < |s.attempts| && SameIdentity(ViewOf(s, i), r)
    ensures var s' := Store(s, i, r);
            Linked(s') && i < |s'.attempts| && s'.attempts[i] == r.attempt && ShotOf(s', i) == r.shot
  {
  }

  /** A passing finish takes the shot into review with its attempt exactly when the running
      transaction had committed before it; otherwise the attempt is stranded. */
  lemma ReviewNeedsRunning(s: State, i: nat)
    requires Linked(s) && i < |s.attempts| && Consistent(ViewOf(s, i)) && PreReview(s.attempts[i])
    requires Effect(s, StepFinishSuccess(i, false, None, Passed)).Success?
    ensures var s' := Apply(s, StepFinishSuccess(i, false, None, Passed));
            && Linked(s') && i < |s'.attempts| && s'.attempts[i].status == AwaitingReview
            && (s.attempts[i].status == Running ==> ShotOf(s', i).status == ShotInReview)
            && (s.attempts[i].status != Running ==> Stranded(s', i))
  {
    var step := StepFinishSuccess(i, false, None, Passed);
    LifecycleSteps.JudgedShape(ViewOf(s, i), false, None, Passed);
    StoredRows(s, i, Effect(s, step).value);
    ApplyStores(s, step);
  }

  lemma ReachesNext(maxAttempts: nat, s: State, step: Step)
    requires Reachable(maxAttempts, s) && Linked(s)
    ensures Reachable(maxAttempts, Apply(s, step))
  {
    assert Next(s, Apply(s, step));
    LeadsFurther(Empty(maxAttempts), s, Apply(s, step));
  }

  /** Whatever happens next, an attempt whose shot missed its review can never be accepted or rejected. */
  lemma StrandedForEver(s: State, i: nat, s': State)
    requires Inv(s) && Stranded(s, i) && Leads(s, s')
    ensures && Inv(s') && Stranded(s', i)
            && Transact(s', StepAccept(i)).Failure? && Transact(s', StepReject(i)).Failure?
  {
    LaterKeeps(s, s');
    AcceptCommitsExactly(s', i);
    RejectCommitsExactly(s', i);
  }
}
