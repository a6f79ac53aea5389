/** Every transaction keeps the lifecycle invariant, whenever and by whomever it is run. */
module LifecycleSteps {
  import opened Wrappers
  import opened Domain
  import opened ControlPlane
  import opened Lifecycle

  lemma AppendKeeps(s: State, evs: seq<Event>)
    requires Inv(s)
    ensures Inv(Append(s, evs))
  {
  }

  // --------------------------------------------------------------------- API transactions

  lemma NoAttemptYet(s: State, t: Tally)
    requires Linked(s)
    requires t in {AnyInProject(|s.projects|), LiveInProject(|s.projects|), BeforeReview(|s.projects|),
                   CostIn(|s.projects|), LiveInShot(|s.shots|), AnyInShot(|s.shots|)}
    ensures Sum(t, s.attempts) == 0
  {
    if Sum(t, s.attempts) > 0 {
      var i := SumWitness(t, s.attempts);
      assert false;
    }
  }

  lemma MoreShotsJustify(status: ProjectStatus, shots: seq<Shot>, sh: Shot, attempts: seq<Attempt>, q: nat)
    requires Justified(status, shots, attempts, q)
    ensures Justified(status, shots + [sh], attempts, q)
  {
    forall want | SomeShot(shots, q, want) ensures SomeShot(shots + [sh], q, want) {
      var k :| 0 <= k < |shots| && shots[k].project == q && shots[k].status == want;
      assert (shots + [sh])[k] == shots[k];
    }
  }

  /** New projects and shots come after the old rows and have no attempt. */
  ghost predicate Grows(s: State, s': State) {
    && s.projects <= s'.projects && s.shots <= s'.shots && s'.attempts == s.attempts
    && s'.artifacts == s.artifacts && s'.evaluations == s.evaluations && s'.maxAttempts == s.maxAttempts
    && (forall k :: |s.shots| <= k < |s'.shots| ==>
          s'.shots[k].project < |s'.projects| && s'.shots[k].status == ApprovedForGeneration
            && s'.shots[k].accepted.None?)
  }

  lemma GrowKeepsRecords(s: State, s': State)
    requires Linked(s) && ReviewFollowsAttempt(s) && Acceptance(s) && Evaluated(s) && SourcesOlder(s) && Grows(s, s')
    ensures Linked(s') && ReviewFollowsAttempt(s') && Acceptance(s') && Evaluated(s') && SourcesOlder(s')
  {
    forall i | 0 <= i < |s.attempts| ensures s'.shots[s.attempts[i].shot] == s.shots[s.attempts[i].shot] {
    }
  }

  lemma CreateProjectKeepsCounts(s: State, s': State)
    requires Linked(s) && OneLiveAttempt(s) && ProjectsJustified(s) && Accounted(s)
    requires Grows(s, s') && s'.shots == s.shots && |s'.projects| == |s.projects| + 1
    requires var p := s'.projects[|s.projects|];
             NeedsNoReason(p.status) && p.spent == 0
    ensures OneLiveAttempt(s') && ProjectsJustified(s') && Accounted(s')
  {
    NoAttemptYet(s, AnyInProject(|s.projects|));
    NoAttemptYet(s, LiveInProject(|s.projects|));
    NoAttemptYet(s, CostIn(|s.projects|));
    assert forall q :: 0 <= q < |s.projects| ==> s'.projects[q] == s.projects[q];
  }

  /** A status that neither an attempt nor a shot of the project has to account for. */
  predicate NeedsNoReason(status: ProjectStatus) {
    NotStarted(status) || status == AwaitingFinalReview || status == Completed
  }

  lemma CreateProjectKeeps(s: State, status: ProjectStatus, budget: Option<nat>)
    requires Inv(s) && CreateProject(s, status, budget).Success? && NeedsNoReason(status)
    ensures Inv(CreateProject(s, status, budget).value)
  {
    var s' := CreateProject(s, status, budget).value;
    GrowKeepsRecords(s, s');
    CreateProjectKeepsCounts(s, s');
  }

  lemma NewProjectHasNoReason(s: State, status: ProjectStatus)
    requires Linked(s) && Justified(status, s.shots, s.attempts, |s.projects|)
    ensures NeedsNoReason(status)
  {
    NoAttemptYet(s, BeforeReview(|s.projects|));
  }

  /** A project created in a given status agrees with the invariant exactly when nothing of the project
      has to account for the status. */
  lemma CreationKeepsExactly(s: State, status: ProjectStatus, budget: Option<nat>)
    requires Inv(s) && CreateProject(s, status, budget).Success?
    ensures Inv(CreateProject(s, status, budget).value) <==> NeedsNoReason(status)
  {
    var s' := CreateProject(s, status, budget).value;
    if NeedsNoReason(status) {
      CreateProjectKeeps(s, status, budget);
    } else if Inv(s') {
      assert ProjectJustified(s', |s.projects|);
      NewProjectHasNoReason(s, status);
    }
  }

  lemma PrepareKeepsAccounts(s: State, q: nat)
    requires Linked(s) && Accounted(s) && PrepareDirectRun(s, q).Success?
    ensures Linked(PrepareDirectRun(s, q).value) && Accounted(PrepareDirectRun(s, q).value)
  {
  }

  lemma PrepareKeepsReasons(s: State, q: nat)
    requires ProjectsJustified(s) && PrepareDirectRun(s, q).Success?
    ensures ProjectsJustified(PrepareDirectRun(s, q).value)
  {
    var s' := PrepareDirectRun(s, q).value;
    forall r | 0 <= r < |s'.projects| ensures Justified(s'.projects[r].status, s'.shots, s'.attempts, r) {
      assert Justified(s.projects[r].status, s.shots, s.attempts, r);
    }
  }

  lemma OnlyProjectsChange(s: State, s': State)
    requires s'.shots == s.shots && s'.attempts == s.attempts && Linked(s) && Linked(s')
    requires OneLiveAttempt(s) && ReviewFollowsAttempt(s) && SourcesOlder(s)
    ensures OneLiveAttempt(s') && ReviewFollowsAttempt(s') && SourcesOlder(s')
  {
  }

  lemma OnlyProjectsChangeRecords(s: State, s': State)
    requires s'.shots == s.shots && s'.attempts == s.attempts && Linked(s) && Linked(s')
    requires s'.artifacts == s.artifacts && s'.evaluations == s.evaluations && Acceptance(s) && Evaluated(s)
    ensures Acceptance(s') && Evaluated(s')
  {
  }

  lemma PrepareDirectRunKeeps(s: State, q: nat)
    requires Inv(s) && PrepareDirectRun(s, q).Success?
    ensures Inv(PrepareDirectRun(s, q).value)
  {
    OnlyProjectsChange(s, PrepareDirectRun(s, q).value);
    OnlyProjectsChangeRecords(s, PrepareDirectRun(s, q).value);
    PrepareKeepsAccounts(s, q);
    PrepareKeepsReasons(s, q);
  }

  lemma CreateShotKeepsCounts(s: State, s': State)
    requires Linked(s) && OneLiveAttempt(s) && Grows(s, s') && |s'.shots| == |s.shots| + 1 && s'.projects == s.projects
    requires Accounted(s)
    ensures OneLiveAttempt(s') && Accounted(s')
  {
    NoAttemptYet(s, LiveInShot(|s.shots|));
    NoAttemptYet(s, AnyInShot(|s.shots|));
    assert forall k :: 0 <= k < |s.shots| ==> s'.shots[k] == s.shots[k];
  }

  lemma CreateShotKeeps(s: State, q: nat)
    requires Inv(s) && CreateShot(s, q).Success?
    ensures Inv(CreateShot(s, q).value)
  {
    var s' := CreateShot(s, q).value;
    GrowKeepsRecords(s, s');
    CreateShotKeepsCounts(s, s');
    forall r | 0 <= r < |s'.projects| ensures ProjectJustified(s', r) {
      MoreShotsJustify(s.projects[r].status, s.shots, s'.shots[|s.shots|], s.attempts, r);
    }
  }

  // --------------------------------------------------------------- creating an attempt

  /** The rows of a committed creation: one more attempt, its shot queued, its project charged. */
  ghost predicate Created(s: State, k: nat, s': State, a: Attempt)
    requires Linked(s)
  {
    && k < |s.shots| && s'.maxAttempts == s.maxAttempts
    && s'.artifacts == s.artifacts && s'.evaluations == s.evaluations
    && a.shot == k && a.project == s.shots[k].project && a.status == Queued
    && s'.attempts == s.attempts + [a]
    && (a.source.Some? ==> a.source.value < |s.attempts| && s.attempts[a.source.value].shot == k)
    && Startable(s.shots[k].status)
    && s'.shots == s.shots[k := s.shots[k].(status := ShotQueued, version := s.shots[k].version + 1)]
    && Sum(AnyInShot(k), s.attempts) < s.maxAttempts
    && |s'.projects| == |s.projects| && s'.projects == s.projects[a.project := s'.projects[a.project]]
    && Charged(s.projects[a.project], s'.projects[a.project], a.cost)
  }

  predicate Charged(p: Project, p': Project, cost: nat) {
    && (p.status == ReadyForGeneration || p.status == AwaitingFinalReview || p.status == NeedsAttention
        || p.status == ProjectGenerating)
    && p'.status == ProjectGenerating
    && p'.spent == p.spent + cost && p'.budget == p.budget && p'.spent <= MAX_SAFE_INTEGER
    && (p.budget.Some? ==> p'.spent <= p.budget.value)
    // the version is left alone when the project was already generating
    && p'.version == (if p.status == ProjectGenerating then p.version else p.version + 1)
  }

  lemma CreateAttemptShape(s: State, k: nat, workflow: Workflow, cost: nat, key: nat, source: Option<nat>)
    requires Linked(s) && CreateAttempt(s, k, workflow, cost, key, source).Success?
    requires source.Some? ==> source.value < |s.attempts| && s.attempts[source.value].shot == k
    ensures var s' := CreateAttempt(s, k, workflow, cost, key, source).value;
            k < |s.shots|
            && Created(s, k, s', Attempt(s.shots[k].project, k, key, cost, source, Queued, None, None, None, None,
                                         false, 1))
  {
    AttemptsOfShotIsSum(s.attempts, k);
  }

  lemma CreatedKeepsCounts(s: State, k: nat, s': State, a: Attempt)
    requires Linked(s) && OneLiveAttempt(s) && ReviewFollowsAttempt(s) && Created(s, k, s', a)
    ensures Linked(s') && OneLiveAttempt(s') && ReviewFollowsAttempt(s')
  {
    forall m | 0 <= m < |s'.shots|
      ensures Sum(LiveInShot(m), s'.attempts) == if Occupied(s'.shots[m].status) then 1 else 0
    {
      SumAppend(LiveInShot(m), s.attempts, a);
    }
  }

  lemma CreatedKeepsReason(s: State, k: nat, s': State, a: Attempt, q: nat)
    requires Linked(s) && Created(s, k, s', a) && q < |s.projects| && ProjectJustified(s, q)
    ensures ProjectJustified(s', q)
  {
    SumAppend(BeforeReview(q), s.attempts, a);
    SumAppend(LiveInProject(q), s.attempts, a);
    SumAppend(AnyInProject(q), s.attempts, a);
    if q != a.project {
      match s.projects[q].status {
        case NeedsAttention => KeepsSomeShot(s.shots, k, s'.shots[k], q, Retryable);
        case ProjectFailed => KeepsSomeShot(s.shots, k, s'.shots[k], q, ShotFailed);
        case ProjectCancelled => KeepsSomeShot(s.shots, k, s'.shots[k], q, ShotCancelled);
        case _ =>
      }
    }
  }

  lemma CreatedKeepsReasons(s: State, k: nat, s': State, a: Attempt)
    requires Linked(s) && Created(s, k, s', a) && ProjectsJustified(s)
    ensures ProjectsJustified(s')
  {
    forall q | 0 <= q < |s'.projects| ensures Justified(s'.projects[q].status, s'.shots, s'.attempts, q) {
      assert Justified(s.projects[q].status, s.shots, s.attempts, q);
      CreatedKeepsReason(s, k, s', a, q);
    }
  }

  lemma CreatedKeepsAccounts(s: State, k: nat, s': State, a: Attempt)
    requires Linked(s) && Accounted(s) && Created(s, k, s', a)
    ensures Accounted(s')
  {
    forall q | 0 <= q < |s'.projects| ensures s'.projects[q].spent == Sum(CostIn(q), s'.attempts) {
      SumAppend(CostIn(q), s.attempts, a);
    }
    forall m | 0 <= m < |s'.shots| ensures Sum(AnyInShot(m), s'.attempts) <= s'.maxAttempts {
      SumAppend(AnyInShot(m), s.attempts, a);
    }
  }

  lemma CreatedKeepsAcceptance(s: State, k: nat, s': State, a: Attempt)
    requires Linked(s) && Created(s, k, s', a) && Acceptance(s) && Linked(s')
    ensures Acceptance(s')
  {
    forall m | 0 <= m < |s'.shots| ensures s'.shots[m].accepted == s.shots[m].accepted {
    }
  }

  lemma CreatedKeepsRecords(s: State, k: nat, s': State, a: Attempt)
    requires Linked(s) && Created(s, k, s', a) && Evaluated(s) && SourcesOlder(s)
    ensures Evaluated(s') && SourcesOlder(s')
  {
    assert |s.attempts| !in s.evaluations && |s.attempts| !in s.artifacts;
  }

  lemma CreatedKeeps(s: State, k: nat, s': State, a: Attempt)
    requires Inv(s) && Created(s, k, s', a)
    ensures Inv(s')
  {
    CreatedKeepsCounts(s, k, s', a);
    CreatedKeepsReasons(s, k, s', a);
    CreatedKeepsAccounts(s, k, s', a);
    CreatedKeepsAcceptance(s, k, s', a);
    CreatedKeepsRecords(s, k, s', a);
  }

  lemma CreateAttemptKeeps(s: State, k: nat, workflow: Workflow, cost: nat, key: nat, source: Option<nat>)
    requires Inv(s) && CreateAttempt(s, k, workflow, cost, key, source).Success?
    requires source.Some? ==> source.value < |s.attempts| && s.attempts[source.value].shot == k
    ensures Inv(CreateAttempt(s, k, workflow, cost, key, source).value)
  {
    CreateAttemptShape(s, k, workflow, cost, key, source);
    var s' := CreateAttempt(s, k, workflow, cost, key, source).value;
    CreatedKeeps(s, k, s', Attempt(s.shots[k].project, k, key, cost, source, Queued, None, None, None, None, false, 1));
  }

  lemma RetryKeeps(s: State, i: nat, workflow: Workflow, cost: nat, key: nat, resolveUncertain: bool)
    requires Inv(s) && Retry(s, i, workflow, cost, key, resolveUncertain).Success?
    ensures Inv(Retry(s, i, workflow, cost, key, resolveUncertain).value)
  {
    CreateAttemptKeeps(s, s.attempts[i].shot, workflow, cost, key, Some(i));
  }

  // -------------------------------------------------------------------- stale claims

  /** Recovery of stale claims only returns claimed rows to the queue. */
  lemma RecoverStaleShape(s: State, now: int)
    ensures var s' := RecoverStale(s, now);
            forall i :: 0 <= i < |s.attempts| ==>
              var a, a' := s.attempts[i], s'.attempts[i];
              && a'.shot == a.shot && a'.project == a.project && a'.source == a.source && a'.cost == a.cost
              && (a'.status == a.status || (a.status == Claimed && a'.status == Queued))
  {
  }

  /** Attempts whose rows differ only between queued and claimed. */
  ghost predicate SameButQueue(s: State, s': State) {
    && s'.projects == s.projects && s'.shots == s.shots && s'.maxAttempts == s.maxAttempts
    && s'.artifacts == s.artifacts && s'.evaluations == s.evaluations && |s'.attempts| == |s.attempts|
    && (forall i :: 0 <= i < |s.attempts| ==>
          var a, a' := s.attempts[i], s'.attempts[i];
          && a'.shot == a.shot && a'.project == a.project && a'.source == a.source && a'.cost == a.cost
          && (a'.status == a.status || (a.status == Claimed && a'.status == Queued)))
  }

  lemma QueueKeepsRecords(s: State, s': State)
    requires Linked(s) && ReviewFollowsAttempt(s) && SourcesOlder(s) && SameButQueue(s, s')
    ensures Linked(s') && ReviewFollowsAttempt(s') && SourcesOlder(s')
  {
  }

  lemma QueueKeepsAcceptance(s: State, s': State)
    requires Linked(s) && Acceptance(s) && SameButQueue(s, s') && Linked(s')
    ensures Acceptance(s')
  {
  }

  lemma QueueKeepsEvaluated(s: State, s': State)
    requires Linked(s) && Evaluated(s) && SameButQueue(s, s')
    ensures Evaluated(s')
  {
  }

  lemma QueueKeepsSums(s: State, s': State)
    requires OneLiveAttempt(s) && ProjectsJustified(s) && Accounted(s) && SameButQueue(s, s')
    ensures OneLiveAttempt(s') && ProjectsJustified(s') && Accounted(s')
  {
    forall t: Tally ensures Sum(t, s'.attempts) == Sum(t, s.attempts) {
      SumPointwise(t, s'.attempts, s.attempts);
    }
  }

  lemma RecoverStaleKeeps(s: State, now: int)
    requires Inv(s)
    ensures Inv(RecoverStale(s, now))
  {
    var s' := RecoverStale(s, now);
    RecoverStaleShape(s, now);
    QueueKeepsRecords(s, s');
    QueueKeepsAcceptance(s, s');
    QueueKeepsEvaluated(s, s');
    QueueKeepsSums(s, s');
  }

  // ------------------------------------------------------- transactions on one attempt

  lemma PinIsCoherent(v: View)
    requires Consistent(v)
    ensures var r := Pin(v.id, v.attempt, v.shot, v.project); r.Success? ==> Coherent(v, r.value)
  {
  }

  lemma UnpinIsCoherent(v: View)
    requires Consistent(v)
    ensures var r := Unpin(v.id, v.attempt, v.shot, v.project); r.Success? ==> Coherent(v, r.value)
  {
  }

  lemma ReviewIsCoherent(v: View)
    requires Consistent(v)
    ensures var r := Review(v.attempt, v.shot, v.project); r.Success? ==> Coherent(v, r.value)
  {
  }

  /** A committed acceptance: the attempt and its shot are accepted together, and the project
      completes exactly with its last shot. */
  lemma AcceptShape(v: View)
    requires Consistent(v) && Accept(v.id, v.attempt, v.shot, v.project, v.evaluation, v.othersAccepted).Success?
    ensures v.attempt.status == AwaitingReview && v.shot.status == ShotInReview && v.evaluation == Some(Passed)
    ensures var r := Accept(v.id, v.attempt, v.shot, v.project, v.evaluation, v.othersAccepted).value;
            && SameIdentity(v, r) && r.attempt.status == Accepted
            && r.shot.status == ShotAccepted && r.shot.accepted == Some(v.id) && r.shot.pinned == Some(v.id)
            && r.project.status == (if v.othersAccepted then Completed
                                    else if v.project.status == ProjectGenerating then AwaitingFinalReview
                                    else v.project.status)
            && !r.artifact && r.evaluation.None? && r.kinds == [AttemptAccepted] && r.completes == v.othersAccepted
  {
  }

  lemma AcceptIsCoherent(v: View)
    requires Consistent(v)
    ensures var r := Accept(v.id, v.attempt, v.shot, v.project, v.evaluation, v.othersAccepted);
            r.Success? ==> Coherent(v, r.value)
  {
    if Accept(v.id, v.attempt, v.shot, v.project, v.evaluation, v.othersAccepted).Success? { AcceptShape(v); }
  }

  lemma RejectIsCoherent(v: View)
    requires Consistent(v)
    ensures var r := Reject(v.attempt, v.shot, v.project); r.Success? ==> Coherent(v, r.value)
  {
  }

  /** A move between queued and claimed, or a touch of the lease, is coherent. */
  lemma LeaseIsCoherent(v: View, a: Attempt)
    requires Consistent(v)
    requires a == v.attempt.(status := a.status, leaseOwner := a.leaseOwner, leaseExpires := a.leaseExpires,
                             version := a.version)
    requires a.status == v.attempt.status
          || (v.attempt.status == Queued && a.status == Claimed) || (v.attempt.status == Claimed && a.status == Queued)
    ensures Coherent(v, Unchanged(a, v.shot, v.project))
  {
  }

  /** The statuses of an attempt whose shot is queued. */
  predicate BeforeRunning(status: AttemptStatus) {
    status == Queued || status == Claimed || status == Submitting || status == Submitted
  }

  /** So is a move between the statuses before running, whatever else of the row it changes. */
  lemma EarlyMoveIsCoherent(v: View, r: Rows)
    requires Consistent(v) && SameIdentity(v, r) && r.shot == v.shot && r.project == v.project
    requires || r.attempt.status == v.attempt.status
             || (BeforeRunning(v.attempt.status) && BeforeRunning(r.attempt.status))
    requires !r.artifact && r.evaluation == None
    ensures Coherent(v, r)
  {
  }

  lemma SubmitIntentIsCoherent(v: View, w: WorkerId, expires: int)
    requires Consistent(v)
    ensures var r := SubmitIntent(v.attempt, v.shot, v.project, w, expires); r.Success? ==> Coherent(v, r.value)
  {
    var r := SubmitIntent(v.attempt, v.shot, v.project, w, expires);
    if r.Success? { EarlyMoveIsCoherent(v, r.value); }
  }

  lemma PersistSubmittedIsCoherent(v: View, prompt: PromptId, taken: bool)
    requires Consistent(v)
    ensures var r := PersistSubmitted(v.attempt, v.shot, v.project, prompt, taken); r.Success? ==> Coherent(v, r.value)
  {
    var r := PersistSubmitted(v.attempt, v.shot, v.project, prompt, taken);
    if r.Success? { EarlyMoveIsCoherent(v, r.value); }
  }

  lemma MarkRunningIsCoherent(v: View)
    requires Consistent(v)
    ensures var r := MarkRunning(v.attempt, v.shot, v.project); r.Success? ==> Coherent(v, r.value)
  {
  }

  lemma MarkProgressIsCoherent(v: View)
    requires Consistent(v)
    ensures var r := MarkProgress(v.attempt, v.shot, v.project); r.Success? ==> Coherent(v, r.value)
  {
  }

  /** A committed failure of an attempt in progress finds it before review. */
  lemma FailAttemptShape(v: View, ending: Ending, code: FailureCode)
    requires Consistent(v) && Live(v.attempt) && FailAttempt(v.attempt, v.shot, v.project, ending, code).Success?
    ensures PreReview(v.attempt)
    ensures var r := FailAttempt(v.attempt, v.shot, v.project, ending, code).value;
            && SameIdentity(v, r) && r.shot.accepted == v.shot.accepted
            && r.attempt.status == EndStatus(ending) && r.shot.status == FailedShot(ending, code)
            && r.project.status == (if v.project.status == ProjectGenerating then FailedProject(ending, code)
                                    else v.project.status)
            && !r.artifact && r.evaluation.None?
  {
  }

  lemma FailureIsCoherent(v: View, r: Rows, ending: Ending, code: FailureCode)
    requires Consistent(v) && PreReview(v.attempt)
    requires SameIdentity(v, r) && r.shot.accepted == v.shot.accepted && !r.artifact && r.evaluation.None?
    requires r.attempt.status == EndStatus(ending) && r.shot.status == FailedShot(ending, code)
    requires r.project.status == if v.project.status == ProjectGenerating then FailedProject(ending, code)
             else v.project.status
    ensures Coherent(v, r)
  {
  }

  lemma FailAttemptIsCoherent(v: View, ending: Ending, code: FailureCode)
    requires Consistent(v) && FailAttempt(v.attempt, v.shot, v.project, ending, code).Success?
    ensures Coherent(v, FailAttempt(v.attempt, v.shot, v.project, ending, code).value)
  {
    if Live(v.attempt) {
      FailAttemptShape(v, ending, code);
      FailureIsCoherent(v, FailAttempt(v.attempt, v.shot, v.project, ending, code).value, ending, code);
    } else {
      LeaseIsCoherent(v, v.attempt);
    }
  }

  /** finishSuccess either takes an attempt before review to its evaluation, or changes nothing. */
  lemma ToEvaluatingShape(a: Attempt)
    requires ToEvaluating(a).Success?
    ensures var e := ToEvaluating(a).value; e == a.(status := e.status, version := e.version)
    ensures ToEvaluating(a).value.status == if PreReview(a) then Evaluating else a.status
  {
  }

  /** The rows of a finish that stores an evaluation. */
  lemma JudgedShape(v: View, sawArtifact: bool, sawEvaluation: Option<Verdict>, verdict: Verdict)
    requires Consistent(v) && PreReview(v.attempt) && !sawArtifact && sawEvaluation.None?
    requires FinishSuccess(v.attempt, v.shot, v.project, v.artifact, v.evaluation, sawArtifact, sawEvaluation,
                           verdict).Success?
    ensures var r := FinishSuccess(v.attempt, v.shot, v.project, v.artifact, v.evaluation, sawArtifact, sawEvaluation,
                                   verdict).value;
            && SameIdentity(v, r) && r.shot.accepted == v.shot.accepted
            && r.attempt.status == (if verdict == Passed then AwaitingReview else Failed)
            && r.shot.status == (if verdict == Rejects then ShotFailed
                                 else if v.shot.status == ShotGenerating then ShotInReview else ShotQueued)
            && r.project.status == (if v.project.status != ProjectGenerating then v.project.status
                                    else if verdict == Passed then AwaitingFinalReview else ProjectFailed)
            && r.artifact && r.evaluation == Some(verdict)
            && r.kinds == [AttemptGenerated, AttemptEvaluating, ArtifactStored, EvaluationCompleted(verdict)]
  {
    ToEvaluatingShape(v.attempt);
  }

  lemma JudgementIsCoherent(v: View, r: Rows, verdict: Verdict)
    requires Consistent(v) && PreReview(v.attempt)
    requires SameIdentity(v, r) && r.shot.accepted == v.shot.accepted
    requires r.attempt.status == if verdict == Passed then AwaitingReview else Failed
    requires r.shot.status == if verdict == Rejects then ShotFailed
                              else if v.shot.status == ShotGenerating then ShotInReview else ShotQueued
    requires r.project.status == if v.project.status != ProjectGenerating then v.project.status
                                 else if verdict == Passed then AwaitingFinalReview else ProjectFailed
    requires r.artifact && r.evaluation == Some(verdict)
    ensures Coherent(v, r)
  {
  }

  lemma FinishSuccessIsCoherent(v: View, sawArtifact: bool, sawEvaluation: Option<Verdict>, verdict: Verdict)
    requires Consistent(v)
    requires (sawArtifact ==> v.artifact) && (sawEvaluation.Some? ==> v.evaluation == sawEvaluation == Some(verdict))
    requires FinishSuccess(v.attempt, v.shot, v.project, v.artifact, v.evaluation, sawArtifact, sawEvaluation,
                           verdict).Success?
    ensures Coherent(v, FinishSuccess(v.attempt, v.shot, v.project, v.artifact, v.evaluation, sawArtifact,
                                      sawEvaluation, verdict).value)
  {
    if PreReview(v.attempt) {
      JudgedShape(v, sawArtifact, sawEvaluation, verdict);
      JudgementIsCoherent(v, FinishSuccess(v.attempt, v.shot, v.project, v.artifact, v.evaluation, sawArtifact,
                                           sawEvaluation, verdict).value, verdict);
    } else {
      ToEvaluatingShape(v.attempt);
    }
  }

  lemma EffectIsCoherent(s: State, step: Step)
    requires Linked(s) && OnAttempt(step) && step.i < |s.attempts| && Consistent(ViewOf(s, step.i))
    requires Effect(s, step).Success?
    ensures Coherent(ViewOf(s, step.i), Effect(s, step).value)
  {
    var v := ViewOf(s, step.i);
    match step {
      case StepPin(_) => PinIsCoherent(v);
      case StepUnpin(_) => UnpinIsCoherent(v);
      case StepReview(_) => ReviewIsCoherent(v);
      case StepAccept(_) => AcceptIsCoherent(v);
      case StepReject(_) => RejectIsCoherent(v);
      case StepClaimNext(_, w, now, expires) => LeaseIsCoherent(v, Effect(s, step).value.attempt);
      case StepClaimForRecovery(_, w, now, expires) => LeaseIsCoherent(v, Effect(s, step).value.attempt);
      case StepHeartbeat(_, w, expires) => LeaseIsCoherent(v, Effect(s, step).value.attempt);
      case StepRelease(_, w) => LeaseIsCoherent(v, Effect(s, step).value.attempt);
      case StepSubmitIntent(_, w, expires) => SubmitIntentIsCoherent(v, w, expires);
      case StepPersistSubmitted(_, prompt) => PersistSubmittedIsCoherent(v, prompt, PromptTaken(s, step.i, prompt));
      case StepMarkRunning(_) => MarkRunningIsCoherent(v);
      case StepMarkProgress(_) => MarkProgressIsCoherent(v);
      case StepFinishSuccess(_, sawArtifact, sawEvaluation, verdict) =>
        if (sawArtifact ==> v.artifact) && (sawEvaluation.Some? ==> v.evaluation == sawEvaluation == Some(verdict)) {
          FinishSuccessIsCoherent(v, sawArtifact, sawEvaluation, verdict);
        } else {
          LeaseIsCoherent(v, v.attempt);
        }
      case StepFailAttempt(_, ending, code) => FailAttemptIsCoherent(v, ending, code);
    }
  }

  // ------------------------------------------------------------------------------- runs

  lemma AttemptStepKeeps(s: State, step: Step)
    requires Inv(s) && OnAttempt(step) && TransactOnAttempt(s, step).Success?
    ensures Inv(TransactOnAttempt(s, step).value)
  {
    if step.i < |s.attempts| {
      ViewIsConsistent(s, step.i);
      EffectIsCoherent(s, step);
      StoreKeeps(s, step.i, Effect(s, step).value);
    }
  }

  lemma OtherStepKeeps(s: State, step: Step)
    requires Inv(s) && !OnAttempt(step) && TransactElsewhere(s, step).Success?
    ensures Inv(TransactElsewhere(s, step).value)
  {
    match step {
      case StepCreateProject(ready, budget) => CreateProjectKeeps(s, InitialStatus(ready), budget);
      case StepPrepareDirectRun(q) => PrepareDirectRunKeeps(s, q);
      case StepCreateShot(q) => CreateShotKeeps(s, q);
      case StepCreateAttempt(k, workflow, cost, key) => CreateAttemptKeeps(s, k, workflow, cost, key, None);
      case StepRetry(i, workflow, cost, key, resolve) => RetryKeeps(s, i, workflow, cost, key, resolve);
      case StepNote(event) => AppendKeeps(s, [event]);
      case StepRecoverStale(now) => RecoverStaleKeeps(s, now);
    }
  }

  /** Whatever transaction is tried next, committed or refused, the invariant survives it. */
  lemma StepKeeps(s: State, step: Step)
    requires Inv(s)
    ensures Inv(Apply(s, step))
  {
    if Transact(s, step).Success? {
      if OnAttempt(step) { AttemptStepKeeps(s, step); } else { OtherStepKeeps(s, step); }
    }
  }
}
