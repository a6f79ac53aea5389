/** What failures, verdicts and creations make of an attempt, its shot and its project, with the codes and
    statuses written out, and what may follow them in any later run (apps/api/src/generation.ts). */
module Outcomes {
  import opened Wrappers
  import opened Domain
  import opened ControlPlane
  import opened Lifecycle
  import opened Runs
  import LifecycleSteps

  /** The failures after which a new attempt may be made of the same shot. */
  predicate LeavesOpen(code: FailureCode) {
    || code == ComfyUnavailable || code == ComfySubmissionUncertain || code == ComfyExecutionFailed
    || code == CapabilityDrift || code == GenerationTimeout || code == ArtifactDownloadFailed
    || code == ArtifactStorageFailed
  }

  // ------------------------------------------------------------------------------ failures

  /** The statuses before review that may end this way. */
  predicate MayEnd(status: AttemptStatus, ending: Ending) {
    match ending
    case EndFailed =>
      status == Queued || status == Claimed || status == Submitting || status == Submitted || status == Running
    case EndTimedOut => status == Submitting || status == Submitted || status == Running
    case EndCancelled => status == Queued || status == Claimed || status == Submitted || status == Running
  }

  /** A failed attempt: its end and reason are on the row, its shot is open to a retry after a retryable
      failure, cancelled with a cancellation and lost otherwise, and so is a project that was generating. */
  ghost predicate FailedAs(v: View, a: Attempt, sh: Shot, p: Project, ending: Ending, code: FailureCode) {
    && a == v.attempt.(status := a.status, failure := Some(code), leaseOwner := None, leaseExpires := None,
                       version := v.attempt.version + 1)
    && sh == v.shot.(status := sh.status, version := v.shot.version + 1)
    && match ending
       case EndCancelled =>
         && a.status == Cancelled && sh.status == ShotCancelled
         && (p.status == if v.project.status == ProjectGenerating then ProjectCancelled else v.project.status)
       case _ =>
         && a.status == (if ending == EndFailed then Failed else TimedOut)
         && sh.status == (if LeavesOpen(code) then Retryable else ShotFailed)
         && p.status == if v.project.status != ProjectGenerating then v.project.status
                        else if LeavesOpen(code) then NeedsAttention else ProjectFailed
  }

  lemma EndedShot(sh: Shot, ending: Ending, code: FailureCode)
    requires sh.status == ShotQueued || sh.status == ShotGenerating
    ensures EndShot(sh, ending, code)
            == Success(sh.(status := if ending == EndCancelled then ShotCancelled
                                     else if LeavesOpen(code) then Retryable else ShotFailed,
                           version := sh.version + 1))
  {
  }

  lemma EndedProject(p: Project, ending: Ending, code: FailureCode)
    requires p.budget.Some? ==> p.spent <= p.budget.value
    ensures var r := EndProject(p, ending, code);
            && r.Success?
            && r.value.status == if p.status != ProjectGenerating then p.status
                                 else if ending == EndCancelled then ProjectCancelled
                                 else if LeavesOpen(code) then NeedsAttention else ProjectFailed
  {
  }

  lemma EndedAttempt(a: Attempt, ending: Ending)
    requires PreReview(a) && !Transient(a.status)
    ensures MoveAttempt(a, EndStatus(ending))
            == if MayEnd(a.status, ending) then Success(a.(status := EndStatus(ending), version := a.version + 1))
               else Failure(InvalidTransition)
  {
  }

  lemma FailedRows(v: View, ending: Ending, code: FailureCode)
    requires Consistent(v) && PreReview(v.attempt)
    ensures var r := FailAttempt(v.attempt, v.shot, v.project, ending, code);
            && (r.Success? <==> MayEnd(v.attempt.status, ending))
            && (r.Success? ==> FailedAs(v, r.value.attempt, r.value.shot, r.value.project, ending, code))
            && (r.Success? ==> r.value.kinds == match ending
                                                case EndFailed => [AttemptFailed]
                                                case EndTimedOut => [AttemptTimedOut]
                                                case EndCancelled => [AttemptCancelled])
  {
    EndedAttempt(v.attempt, ending);
    EndedShot(v.shot, ending, code);
    EndedProject(v.project, ending, code);
  }

  /** Failing an attempt before review commits exactly in these statuses and does exactly that. */
  lemma FailureLeaves(s: State, i: nat, ending: Ending, code: FailureCode)
    requires Inv(s) && i < |s.attempts| && PreReview(s.attempts[i])
    ensures var step := StepFailAttempt(i, ending, code);
            var s' := Apply(s, step);
            && (Transact(s, step).Success? <==> MayEnd(s.attempts[i].status, ending))
            && (Transact(s, step).Success? ==>
                  && Linked(s') && i < |s'.attempts|
                  && FailedAs(ViewOf(s, i), s'.attempts[i], ShotOf(s', i), ProjectOf(s', i), ending, code))
  {
    ViewIsConsistent(s, i);
    FailedRows(ViewOf(s, i), ending, code);
    CommitsWithEffect(s, StepFailAttempt(i, ending, code));
    if Effect(s, StepFailAttempt(i, ending, code)).Success? {
      var r := Effect(s, StepFailAttempt(i, ending, code)).value;
      ApplyStores(s, StepFailAttempt(i, ending, code));
      StoredAre(s, i, r);
    }
  }

  lemma StoredAre(s: State, i: nat, r: Rows)
    requires Linked(s) && i < |s.attempts| && r.attempt.shot == s.attempts[i].shot
    requires r.attempt.project == s.attempts[i].project && r.shot.project == ShotOf(s, i).project
    ensures var s' := Store(s, i, r);
            && Linked(s') && i < |s'.attempts| && s'.attempts[i] == r.attempt && ShotOf(s', i) == r.shot
            && ProjectOf(s', i) == r.project && |s'.shots| == |s.shots|
  {
  }

  // ----------------------------------------------------------- the way of an attempt to its run

  /** A transaction that stores one attempt, and perhaps its shot, with one event. */
  ghost predicate Wrote(s: State, i: nat, a: Attempt, sh: Shot, kind: EventKind, s': State)
    requires Linked(s) && i < |s.attempts|
  {
    var k, q := s.attempts[i].shot, s.attempts[i].project;
    && s'.attempts == s.attempts[i := a] && s'.shots == s.shots[k := sh] && s'.projects == s.projects
    && s'.artifacts == s.artifacts && s'.evaluations == s.evaluations
    && s'.events == s.events + [Event(kind, Some(q), Some(k), Some(i))]
  }

  lemma StoreWrites(s: State, i: nat, a: Attempt, sh: Shot, kind: EventKind)
    requires Linked(s) && i < |s.attempts|
    ensures Wrote(s, i, a, sh, kind, Store(s, i, Rows(a, sh, ProjectOf(s, i), [kind], false, None, false)))
    ensures var s' := Store(s, i, Unchanged(s.attempts[i], ShotOf(s, i), ProjectOf(s, i)));
            s'.attempts == s.attempts && s'.shots == s.shots && s'.projects == s.projects && s'.events == s.events
  {
    assert Tagged(s.attempts[i].project, s.attempts[i].shot, i, [kind])
           == [Event(kind, Some(s.attempts[i].project), Some(s.attempts[i].shot), Some(i))];
  }

  /** Nothing but what every store has. */
  predicate LeftAlone(s: State, s': State) {
    s'.attempts == s.attempts && s'.shots == s.shots && s'.projects == s.projects && s'.events == s.events
  }

  lemma RowsOf(a: Attempt, sh: Shot, p: Project, w: WorkerId, expires: int, prompt: PromptId, taken: bool)
    ensures var r := SubmitIntent(a, sh, p, w, expires);
            var leased := a.(status := Submitting, leaseOwner := Some(w), leaseExpires := Some(expires),
                             version := a.version + 1);
            if Terminal(a.status) then r == Success(Unchanged(a, sh, p))
            else if a.status == Claimed then
              r == Success(Rows(leased, sh, p, [AttemptSubmitted(true)], false, None, false))
            else r.Failure?
    ensures var r := PersistSubmitted(a, sh, p, prompt, taken);
            var recorded := a.(status := Submitted, prompt := Some(prompt), version := a.version + 1);
            if a.status == Submitting && !taken then
              r == Success(Rows(recorded, sh, p, [AttemptSubmitted(false)], false, None, false))
            else if a.status != Submitting && a.prompt == Some(prompt) then r == Success(Unchanged(a, sh, p))
            else r.Failure?
    ensures MarkProgress(a, sh, p)
            == Success(if Terminal(a.status) then Unchanged(a, sh, p)
                       else Rows(a, sh, p, [ExecutionProgress], false, None, false))
  {
  }

  /** The announcement commits for a claimed attempt alone, which it leases to the worker; one that has ended is
      left alone. */
  lemma IntentLeaves(s: State, i: nat, w: WorkerId, expires: int)
    requires Linked(s) && i < |s.attempts|
    ensures var a, r := s.attempts[i], Transact(s, StepSubmitIntent(i, w, expires));
            if Terminal(a.status) then r.Success? && LeftAlone(s, r.value)
            else
              && (r.Success? <==> a.status == Claimed)
              && (r.Success? ==>
                    Wrote(s, i, a.(status := Submitting, leaseOwner := Some(w), leaseExpires := Some(expires),
                                   version := a.version + 1),
                          ShotOf(s, i), AttemptSubmitted(true), r.value))
  {
    RowsOf(s.attempts[i], ShotOf(s, i), ProjectOf(s, i), w, expires, 0, false);
    var a := s.attempts[i];
    StoreWrites(s, i, a.(status := Submitting, leaseOwner := Some(w), leaseExpires := Some(expires),
                         version := a.version + 1), ShotOf(s, i), AttemptSubmitted(true));
  }

  /** A prompt is recorded for an announced attempt and if no other has it; recording it again changes nothing. */
  lemma RecordLeaves(s: State, i: nat, prompt: PromptId)
    requires Linked(s) && i < |s.attempts|
    ensures var a, r := s.attempts[i], Transact(s, StepPersistSubmitted(i, prompt));
            if a.status != Submitting && a.prompt == Some(prompt) then r.Success? && LeftAlone(s, r.value)
            else
              && (r.Success? <==>
                    && a.status == Submitting
                    && forall j :: 0 <= j < |s.attempts| && j != i ==> s.attempts[j].prompt != Some(prompt))
              && (r.Success? ==>
                    Wrote(s, i, a.(status := Submitted, prompt := Some(prompt), version := a.version + 1),
                          ShotOf(s, i), AttemptSubmitted(false), r.value))
  {
    RowsOf(s.attempts[i], ShotOf(s, i), ProjectOf(s, i), 0, 0, prompt, PromptTaken(s, i, prompt));
    var a := s.attempts[i];
    StoreWrites(s, i, a.(status := Submitted, prompt := Some(prompt), version := a.version + 1), ShotOf(s, i),
                AttemptSubmitted(false));
  }

  /** Progress is one event of an attempt that has not ended. */
  lemma ProgressLeaves(s: State, i: nat)
    requires Linked(s) && i < |s.attempts|
    ensures var r := Transact(s, StepMarkProgress(i));
            && r.Success?
            && if Terminal(s.attempts[i].status) then LeftAlone(s, r.value)
               else Wrote(s, i, s.attempts[i], ShotOf(s, i), ExecutionProgress, r.value)
  {
    RowsOf(s.attempts[i], ShotOf(s, i), ProjectOf(s, i), 0, 0, 0, false);
    StoreWrites(s, i, s.attempts[i], ShotOf(s, i), ExecutionProgress);
  }

  lemma RunningRows(v: View)
    requires Consistent(v)
    ensures var r := MarkRunning(v.attempt, v.shot, v.project);
            var running := v.attempt.(status := Running, version := v.attempt.version + 1);
            var generating := v.shot.(status := ShotGenerating, version := v.shot.version + 1);
            if v.attempt.status == Queued || v.attempt.status == Submitted then
              r == Success(Rows(running, generating, v.project, [ExecutionStarted], false, None, false))
            else if v.attempt.status == Submitting then r.Failure?
            else r == Success(Unchanged(v.attempt, v.shot, v.project))
  {
  }

  lemma StartWrites(s: State, i: nat)
    requires Linked(s) && i < |s.attempts| && Consistent(ViewOf(s, i))
    ensures StartedAs(s, i, Transact(s, StepMarkRunning(i)))
  {
    RunningRows(ViewOf(s, i));
    var a, sh := s.attempts[i], ShotOf(s, i);
    StoreWrites(s, i, a.(status := Running, version := a.version + 1),
                sh.(status := ShotGenerating, version := sh.version + 1), ExecutionStarted);
  }

  ghost predicate StartedAs(s: State, i: nat, r: Result<State, Error>)
    requires Linked(s) && i < |s.attempts|
  {
    var a, sh := s.attempts[i], ShotOf(s, i);
    && (r.Failure? <==> a.status == Submitting)
    && (a.status == Queued || a.status == Submitted ==>
          Wrote(s, i, a.(status := Running, version := a.version + 1),
                sh.(status := ShotGenerating, version := sh.version + 1), ExecutionStarted, r.value))
    && (r.Success? && a.status != Queued && a.status != Submitted ==> LeftAlone(s, r.value))
  }

  /** A start takes a queued or submitted attempt and its shot along, and is refused before the prompt is recorded;
      any other attempt is left alone. */
  lemma StartLeaves(s: State, i: nat)
    requires Inv(s) && i < |s.attempts|
    ensures StartedAs(s, i, Transact(s, StepMarkRunning(i)))
  {
    ViewIsConsistent(s, i);
    StartWrites(s, i);
  }

  // ------------------------------------------------------------------------------ verdicts

  /** An announced submission whose prompt was never recorded cannot be finished. */
  lemma ReachesEvaluation(a: Attempt)
    requires PreReview(a) && !Transient(a.status)
    ensures ToEvaluating(a).Success? <==> a.status != Submitting
    ensures ToEvaluating(a).Success? ==>
              ToEvaluating(a).value == a.(status := Evaluating, version := ToEvaluating(a).value.version)
  {
  }

  lemma JudgedAs(v: View, e: Attempt, verdict: Verdict)
    requires Consistent(v) && PreReview(v.attempt) && e.status == Evaluating
    ensures var r := Judge(v.attempt, e, v.shot, v.project, v.evaluation, false, None, verdict);
            && r.Success?
            && r.value.attempt == e.(
                 status := if verdict == Passed then AwaitingReview else Failed,
                 failure := if verdict == Passed then e.failure else Some(MediaInvalid),
                 leaseOwner := None, leaseExpires := None, version := e.version + 1)
  {
  }

  lemma JudgedRows(v: View, verdict: Verdict)
    requires Consistent(v) && PreReview(v.attempt)
    ensures var r := FinishSuccess(v.attempt, v.shot, v.project, v.artifact, v.evaluation, false, None, verdict);
            && (r.Success? <==> v.attempt.status != Submitting)
            && (r.Success? ==>
                  && r.value.attempt.failure == (if verdict == Passed then v.attempt.failure else Some(MediaInvalid))
                  && r.value.attempt.leaseOwner.None? && r.value.attempt.leaseExpires.None?)
  {
    ReachesEvaluation(v.attempt);
    if v.attempt.status != Submitting { JudgedAs(v, ToEvaluating(v.attempt).value, verdict); }
  }

  /** A finish before review commits exactly outside submitting: an attempt that passes awaits its review, with
      its shot when it was running, and one the evaluator rejects fails for its media and takes its shot along. */
  lemma FinishLeaves(s: State, i: nat, verdict: Verdict)
    requires Inv(s) && i < |s.attempts| && PreReview(s.attempts[i])
    ensures var step := StepFinishSuccess(i, false, None, verdict);
            var s' := Apply(s, step);
            && (Transact(s, step).Success? <==> s.attempts[i].status != Submitting)
            && (Transact(s, step).Success? ==>
                  Linked(s') && i < |s'.attempts| && FinishedAs(ViewOf(s, i), ViewOf(s', i), verdict))
  {
    var step := StepFinishSuccess(i, false, None, verdict);
    ViewIsConsistent(s, i);
    JudgedRows(ViewOf(s, i), verdict);
    FinishIsObserved(s.attempts[i], ShotOf(s, i), ProjectOf(s, i), i in s.artifacts, EvaluationOf(s, i), verdict);
    CommitsWithEffect(s, step);
    if Effect(s, step).Success? {
      LifecycleSteps.EffectIsCoherent(s, step);
      LifecycleSteps.JudgedShape(ViewOf(s, i), false, None, verdict);
      StoredAre(s, i, Effect(s, step).value);
      EvaluationStored(s, i, Effect(s, step).value);
      ApplyStores(s, step);
    }
  }

  ghost predicate FinishedAs(v: View, v': View, verdict: Verdict) {
    && v'.artifact && v'.evaluation == Some(verdict)
    && v'.attempt.leaseOwner.None? && v'.attempt.leaseExpires.None?
    && if verdict == Passed then
         && v'.attempt.status == AwaitingReview && v'.attempt.failure == v.attempt.failure
         && v'.shot.status == (if v.shot.status == ShotGenerating then ShotInReview else ShotQueued)
         && v'.project.status == if v.project.status == ProjectGenerating then AwaitingFinalReview else v.project.status
       else
         && v'.attempt.status == Failed && v'.attempt.failure == Some(MediaInvalid) && v'.shot.status == ShotFailed
         && v'.project.status == if v.project.status == ProjectGenerating then ProjectFailed else v.project.status
  }

  lemma EvaluationStored(s: State, i: nat, r: Rows)
    requires Linked(s) && i < |s.attempts| && r.artifact && r.evaluation.Some?
    ensures i in Store(s, i, r).artifacts && EvaluationOf(Store(s, i, r), i) == r.evaluation
  {
  }

  lemma FinishIsObserved(
      a: Attempt, sh: Shot, p: Project, artifact: bool, evaluation: Option<Verdict>, verdict: Verdict)
    ensures FinishObserved(a, sh, p, artifact, evaluation, false, None, verdict)
            == FinishSuccess(a, sh, p, artifact, evaluation, false, None, verdict)
  {
  }

  lemma RejectedRows(a: Attempt, sh: Shot, p: Project)
    requires Reject(a, sh, p).Success?
    ensures var r := Reject(a, sh, p).value;
            && r.attempt == a.(status := Rejected, failure := Some(ReviewRejected), leaseOwner := None,
                               leaseExpires := None, version := a.version + 1)
            && r.shot == sh.(status := ShotRejected, version := sh.version + 1) && r.project == p
  {
  }

  /** A committed rejection is final for the attempt, and leaves its shot open to a retry. */
  lemma RejectLeaves(s: State, i: nat)
    requires Linked(s) && i < |s.attempts| && Transact(s, StepReject(i)).Success?
    ensures var s' := Apply(s, StepReject(i));
            && Linked(s') && i < |s'.attempts|
            && s'.attempts[i].status == Rejected && s'.attempts[i].failure == Some(ReviewRejected)
            && ShotOf(s', i).status == ShotRejected && Open(ShotOf(s', i).status)
            && ShotOf(s', i).accepted == ShotOf(s, i).accepted && ProjectOf(s', i) == ProjectOf(s, i)
  {
    CommitsWithEffect(s, StepReject(i));
    RejectedRows(s.attempts[i], ShotOf(s, i), ProjectOf(s, i));
    StoredAre(s, i, Effect(s, StepReject(i)).value);
    ApplyStores(s, StepReject(i));
  }

  /** Pinning and unpinning move the pin of the shot, and a review marks the attempt; nothing else changes. */
  lemma AnnotationsLeave(s: State, i: nat)
    requires Linked(s) && i < |s.attempts|
    ensures var k := s.attempts[i].shot;
            var pinned, unpinned, reviewed := Apply(s, StepPin(i)), Apply(s, StepUnpin(i)), Apply(s, StepReview(i));
            && pinned.attempts == s.attempts && pinned.projects == s.projects
            && pinned.shots == s.shots[k := s.shots[k].(pinned := Some(i), version := s.shots[k].version + 1)]
            && unpinned.attempts == s.attempts && unpinned.projects == s.projects
            && unpinned.shots == (if s.shots[k].pinned != Some(i) then s.shots
                                  else s.shots[k := s.shots[k].(pinned := None, version := s.shots[k].version + 1)])
            && reviewed.shots == s.shots && reviewed.projects == s.projects
            && reviewed.attempts == s.attempts[i := s.attempts[i].(reviewed := true,
                                                                   version := s.attempts[i].version + 1)]
  {
    ApplyStores(s, StepPin(i));
    ApplyStores(s, StepUnpin(i));
    ApplyStores(s, StepReview(i));
  }

  // ------------------------------------------------------------------- creations and retries

  predicate Open(status: ShotStatus) {
    status == ApprovedForGeneration || status == ShotRejected || status == Retryable
  }

  predicate UnderWay(status: ProjectStatus) {
    || status == ReadyForGeneration || status == ProjectGenerating || status == NeedsAttention
    || status == AwaitingFinalReview
  }

  /** What the caller of a creation can check beforehand. */
  ghost predicate MayCreate(s: State, k: nat, workflow: Workflow, cost: nat, key: nat)
    requires Linked(s)
  {
    && k < |s.shots| && Open(s.shots[k].status) && UnderWay(s.projects[s.shots[k].project].status)
    && Affordable(s, k, workflow, cost, key)
  }

  /** A usable workflow and an unused key, within the attempt limit and the budget. */
  ghost predicate Affordable(s: State, k: nat, workflow: Workflow, cost: nat, key: nat)
    requires Linked(s) && k < |s.shots|
  {
    var p := s.projects[s.shots[k].project];
    && (workflow == Compiled || workflow == RevisionValidated) && AttemptsOfShot(s.attempts, k) < s.maxAttempts
    && p.spent + cost <= MAX_SAFE_INTEGER && (p.budget.Some? ==> p.spent + cost <= p.budget.value)
    && (forall i :: 0 <= i < |s.attempts| ==> s.attempts[i].key != key)
  }

  lemma CreateCommits(s: State, k: nat, workflow: Workflow, cost: nat, key: nat, source: Option<nat>)
    requires Linked(s) && Acceptance(s) && Accounted(s)
    ensures CreateAttempt(s, k, workflow, cost, key, source).Success? <==> MayCreate(s, k, workflow, cost, key)
  {
  }

  /** A creation commits exactly for an open shot of a project under way, with a usable workflow, an unused key,
      and within the attempt limit and the budget. */
  lemma CreateCommitsExactly(s: State, k: nat, workflow: Workflow, cost: nat, key: nat)
    requires Inv(s)
    ensures Transact(s, StepCreateAttempt(k, workflow, cost, key)).Success? <==> MayCreate(s, k, workflow, cost, key)
  {
    CreateCommits(s, k, workflow, cost, key, None);
  }

  lemma RetryCreates(s: State, i: nat, workflow: Workflow, cost: nat, key: nat, resolve: bool)
    requires Linked(s)
    ensures Transact(s, StepRetry(i, workflow, cost, key, resolve)).Success? <==>
            && i < |s.attempts|
            && (s.attempts[i].status == Rejected || s.attempts[i].status == Failed || s.attempts[i].status == TimedOut)
            && (s.attempts[i].failure == Some(ComfySubmissionUncertain) ==> resolve)
            && CreateAttempt(s, s.attempts[i].shot, workflow, cost, key, Some(i)).Success?
  {
    assert Transact(s, StepRetry(i, workflow, cost, key, resolve)) == Retry(s, i, workflow, cost, key, resolve);
  }

  /** A retry commits exactly where a creation does, from an attempt of the shot that was rejected, failed or timed
      out; after an uncertain submission it must say that the uncertainty is resolved. */
  lemma RetryCommitsExactly(s: State, i: nat, workflow: Workflow, cost: nat, key: nat, resolve: bool)
    requires Inv(s)
    ensures Transact(s, StepRetry(i, workflow, cost, key, resolve)).Success? <==>
            && i < |s.attempts|
            && (s.attempts[i].status == Rejected || s.attempts[i].status == Failed || s.attempts[i].status == TimedOut)
            && (s.attempts[i].failure == Some(ComfySubmissionUncertain) ==> resolve)
            && MayCreate(s, s.attempts[i].shot, workflow, cost, key)
  {
    RetryCreates(s, i, workflow, cost, key, resolve);
    if i < |s.attempts| { CreateCommits(s, s.attempts[i].shot, workflow, cost, key, Some(i)); }
  }

  /** The project a run goes to before its attempt is created: an early one is made ready, a missing one is made. */
  function PreparedStatus(s: State, project: Option<nat>): ProjectStatus
    requires project.Some? ==> project.value < |s.projects|
  {
    if project.None? then ReadyForGeneration
    else
      match s.projects[project.value].status
      case ProjectDraft => ReadyForGeneration
      case Planning => ReadyForGeneration
      case AwaitingStoryboardApproval => ReadyForGeneration
      case other => other
  }

  /** The store with a run's project and new shot. */
  ghost predicate Prepared(s: State, s1: State, project: Option<nat>) {
    var q := RunProject(s, project);
    && (project.Some? ==> q < |s.projects|) && q < |s1.projects|
    && s1.attempts == s.attempts && s1.maxAttempts == s.maxAttempts
    && s1.shots == s.shots + [Shot(q, ApprovedForGeneration, None, None, 1)]
    && s1.projects[q].status == PreparedStatus(s, project)
    && s1.projects[q].spent == (if project.Some? then s.projects[q].spent else 0)
    && s1.projects[q].budget == (if project.Some? then s.projects[q].budget else None)
  }

  lemma RunIsPrepared(s: State, project: Option<nat>)
    ensures PrepareRun(s, project).Success? <==> (project.Some? ==> project.value < |s.projects|)
    ensures PrepareRun(s, project).Success? ==> Prepared(s, PrepareRun(s, project).value, project)
  {
  }

  lemma PreparedKeeps(s: State, project: Option<nat>)
    requires Inv(s) && PrepareRun(s, project).Success?
    ensures Inv(PrepareRun(s, project).value)
  {
    if project.None? { LifecycleSteps.CreateProjectKeeps(s, ReadyForGeneration, None); }
    var s1 := if project.Some? then s else CreateProject(s, ReadyForGeneration, None).value;
    LifecycleSteps.PrepareDirectRunKeeps(s1, RunProject(s, project));
    LifecycleSteps.CreateShotKeeps(PrepareDirectRun(s1, RunProject(s, project)).value, RunProject(s, project));
  }

  /** One more attempt waits in the queue for one more shot, and its project generates. */
  ghost predicate RunStarted(s: State, s': State, q: nat, cost: nat, key: nat) {
    && s'.attempts == s.attempts + [Attempt(q, |s.shots|, key, cost, None, Queued, None, None, None, None, false, 1)]
    && s'.shots == s.shots + [Shot(q, ShotQueued, None, None, 2)]
    && q < |s'.projects| && s'.projects[q].status == ProjectGenerating
  }

  lemma RunCreates(s: State, project: Option<nat>, workflow: Workflow, cost: nat, key: nat)
    requires Inv(s) && PrepareRun(s, project).Success?
    ensures Linked(PrepareRun(s, project).value)
    ensures var r := SubmitRun(s, project, true, workflow, cost, key);
            var created := CreateAttempt(PrepareRun(s, project).value, |s.shots|, workflow, cost, key, None);
            && (r.Success? <==> created.Success?)
            && (r.Success? ==>
                  && r.value.attempts == created.value.attempts && r.value.shots == created.value.shots
                  && r.value.projects == created.value.projects)
  {
    PreparedKeeps(s, project);
  }

  lemma RunStarts(s: State, project: Option<nat>, workflow: Workflow, cost: nat, key: nat)
    requires Inv(s) && SubmitRun(s, project, true, workflow, cost, key).Success?
    ensures RunStarted(s, SubmitRun(s, project, true, workflow, cost, key).value, RunProject(s, project), cost, key)
  {
    RunIsPrepared(s, project);
    RunCreates(s, project, workflow, cost, key);
    LifecycleSteps.CreateAttemptShape(PrepareRun(s, project).value, |s.shots|, workflow, cost, key, None);
  }

  lemma NewShotIsUntried(s: State)
    requires Linked(s)
    ensures AttemptsOfShot(s.attempts, |s.shots|) == 0
  {
    LifecycleSteps.NoAttemptYet(s, AnyInShot(|s.shots|));
    AttemptsOfShotIsSum(s.attempts, |s.shots|);
  }

  /** What a run needs beside its project. */
  ghost predicate RunAffordable(s: State, project: Option<nat>, workflow: Workflow, cost: nat, key: nat) {
    && (workflow == Compiled || workflow == RevisionValidated) && s.maxAttempts > 0
    && (forall i :: 0 <= i < |s.attempts| ==> s.attempts[i].key != key)
    && if project.None? then cost <= MAX_SAFE_INTEGER
       else
         && project.value < |s.projects|
         && var p := s.projects[project.value];
            && p.spent + cost <= MAX_SAFE_INTEGER && (p.budget.Some? ==> p.spent + cost <= p.budget.value)
  }

  lemma NewShotMayCreate(s: State, s1: State, project: Option<nat>, workflow: Workflow, cost: nat, key: nat)
    requires Linked(s) && Linked(s1) && Prepared(s, s1, project)
    ensures MayCreate(s1, |s.shots|, workflow, cost, key) <==>
            UnderWay(PreparedStatus(s, project)) && RunAffordable(s, project, workflow, cost, key)
  {
    NewShotIsUntried(s);
    assert s1.shots[|s.shots|].project == RunProject(s, project);
  }

  /** A run of a valid revision commits exactly for a new project or one that is not over, with a usable workflow
      and an unused key, within the budget and unless no shot may have attempts; its attempt is queued. */
  lemma RunCommitsExactly(s: State, project: Option<nat>, workflow: Workflow, cost: nat, key: nat)
    requires Inv(s)
    ensures var r := SubmitRun(s, project, true, workflow, cost, key);
            && (r.Success? <==>
                  && (project.Some? ==> project.value < |s.projects|) && UnderWay(PreparedStatus(s, project))
                  && RunAffordable(s, project, workflow, cost, key))
            && (r.Success? ==> RunStarted(s, r.value, RunProject(s, project), cost, key))
  {
    RunIsPrepared(s, project);
    if PrepareRun(s, project).Success? {
      var s1 := PrepareRun(s, project).value;
      RunCreates(s, project, workflow, cost, key);
      NewShotMayCreate(s, s1, project, workflow, cost, key);
      PreparedCommits(s, project, workflow, cost, key);
      if SubmitRun(s, project, true, workflow, cost, key).Success? { RunStarts(s, project, workflow, cost, key); }
    }
  }

  lemma PreparedCommits(s: State, project: Option<nat>, workflow: Workflow, cost: nat, key: nat)
    requires Inv(s) && PrepareRun(s, project).Success? && Linked(PrepareRun(s, project).value)
    ensures var s1 := PrepareRun(s, project).value;
            CreateAttempt(s1, |s.shots|, workflow, cost, key, None).Success? <==>
            MayCreate(s1, |s.shots|, workflow, cost, key)
  {
    PreparedKeeps(s, project);
    CreateCommits(PrepareRun(s, project).value, |s.shots|, workflow, cost, key, None);
  }

  /** The store after a committed failure of an attempt before review. */
  ghost predicate FailsInto(s: State, i: nat, ending: Ending, code: FailureCode, s': State) {
    && Linked(s) && Linked(s') && i < |s.attempts| && PreReview(s.attempts[i])
    && Transact(s, StepFailAttempt(i, ending, code)) == Success(s')
  }

  /** Right after a failure a retry commits exactly after one of the seven codes and no cancellation, with an
      uncertain submission declared resolved, unless the project is lost, the attempts or the money are used
      up, the workflow is unusable or the key is taken. */
  lemma RetryAfterFailure(s: State, i: nat, ending: Ending, code: FailureCode, s': State,
                          workflow: Workflow, cost: nat, key: nat, resolve: bool)
    requires Inv(s) && FailsInto(s, i, ending, code, s')
    ensures Transact(s', StepRetry(i, workflow, cost, key, resolve)).Success? <==>
            && ending != EndCancelled && LeavesOpen(code) && (code == ComfySubmissionUncertain ==> resolve)
            && ProjectOf(s, i).status != ProjectFailed && ProjectOf(s, i).status != ProjectCancelled
            && Affordable(s, s.attempts[i].shot, workflow, cost, key)
  {
    FailureLeaves(s, i, ending, code);
    FailureKeepsAccounts(s, i, ending, code, s');
    ViewIsConsistent(s, i);
    AfterFailure(ViewOf(s, i), ViewOf(s', i), ending, code);
    MayCreateStill(s, i, s', workflow, cost, key);
    LifecycleSteps.StepKeeps(s, StepFailAttempt(i, ending, code));
    RetryCommitsExactly(s', i, workflow, cost, key, resolve);
  }

  lemma AfterFailure(v: View, v': View, ending: Ending, code: FailureCode)
    requires Consistent(v) && PreReview(v.attempt)
    requires FailedAs(v, v'.attempt, v'.shot, v'.project, ending, code)
    ensures v'.attempt.failure == Some(code) && (Open(v'.shot.status) <==> ending != EndCancelled && LeavesOpen(code))
    ensures v'.attempt.status == Rejected || v'.attempt.status == Failed || v'.attempt.status == TimedOut
            <==> ending != EndCancelled
    ensures ending != EndCancelled && LeavesOpen(code) ==>
              (UnderWay(v'.project.status) <==>
               v.project.status != ProjectFailed && v.project.status != ProjectCancelled)
  {
  }

  lemma MayCreateStill(s: State, i: nat, s': State, workflow: Workflow, cost: nat, key: nat)
    requires Linked(s) && i < |s.attempts| && Linked(s') && SameAccounts(s, i, s')
    ensures MayCreate(s', s.attempts[i].shot, workflow, cost, key) <==>
            && Open(ShotOf(s', i).status) && UnderWay(ProjectOf(s', i).status)
            && Affordable(s, s.attempts[i].shot, workflow, cost, key)
  {
    if Affordable(s, s.attempts[i].shot, workflow, cost, key) {
      assert forall j :: 0 <= j < |s'.attempts| ==> s.attempts[j].key != key && s'.attempts[j].key != key;
    }
    if MayCreate(s', s.attempts[i].shot, workflow, cost, key) {
      assert forall j :: 0 <= j < |s.attempts| ==> s'.attempts[j].key != key && s.attempts[j].key != key;
    }
  }

  lemma FailureKeepsAccounts(s: State, i: nat, ending: Ending, code: FailureCode, s': State)
    requires Inv(s) && FailsInto(s, i, ending, code, s')
    ensures SameAccounts(s, i, s')
  {
    var step := StepFailAttempt(i, ending, code);
    ViewIsConsistent(s, i);
    CommitsWithEffect(s, step);
    LifecycleSteps.EffectIsCoherent(s, step);
    StoreKeepsAccounts(s, i, Effect(s, step).value);
    ApplyStores(s, step);
  }

  /** What a creation looks at beside the statuses. */
  ghost predicate SameAccounts(s: State, i: nat, s': State)
    requires Linked(s) && i < |s.attempts| && Linked(s')
  {
    var k := s.attempts[i].shot;
    && |s'.attempts| == |s.attempts| && s'.maxAttempts == s.maxAttempts && s'.attempts[i].shot == k
    && (forall j :: 0 <= j < |s.attempts| ==> s'.attempts[j].key == s.attempts[j].key)
    && AttemptsOfShot(s'.attempts, k) == AttemptsOfShot(s.attempts, k)
    && ProjectOf(s', i).spent == ProjectOf(s, i).spent && ProjectOf(s', i).budget == ProjectOf(s, i).budget
  }

  lemma StoreKeepsAccounts(s: State, i: nat, r: Rows)
    requires Linked(s) && i < |s.attempts| && SameIdentity(ViewOf(s, i), r)
    ensures Linked(Store(s, i, r)) && SameAccounts(s, i, Store(s, i, r))
  {
    var k := s.attempts[i].shot;
    StoredAre(s, i, r);
    AttemptsOfShotIsSum(s.attempts, k);
    AttemptsOfShotIsSum(Store(s, i, r).attempts, k);
    SumUpdate(AnyInShot(k), s.attempts, i, r.attempt);
  }

  // ------------------------------------------------------------------------- shots that are lost

  /** A shot no attempt can be made of any more. */
  predicate Lost(sh: Shot) { sh.status == ShotFailed || sh.status == ShotCancelled }

  ghost predicate StillLost(s: State, s': State, k: nat) {
    && k < |s.shots| <= |s'.shots| && s'.shots[k].status == s.shots[k].status && |s.attempts| <= |s'.attempts|
    && (forall j :: 0 <= j < |s.attempts| ==> s'.attempts[j].shot == s.attempts[j].shot)
    && (forall j :: |s.attempts| <= j < |s'.attempts| ==> s'.attempts[j].shot != k)
  }

  lemma StoreKeepsLost(s: State, i: nat, r: Rows, k: nat)
    requires Linked(s) && OneLiveAttempt(s) && i < |s.attempts| && Coherent(ViewOf(s, i), r)
    requires k < |s.shots| && Lost(s.shots[k])
    ensures StillLost(s, Store(s, i, r), k)
  {
    if s.attempts[i].shot == k && Live(s.attempts[i]) { LiveIsUnique(s, i, i); }
  }

  lemma CreateKeepsLost(s: State, m: nat, workflow: Workflow, cost: nat, key: nat, source: Option<nat>, k: nat)
    requires Linked(s) && CreateAttempt(s, m, workflow, cost, key, source).Success? && k < |s.shots| && Lost(s.shots[k])
    ensures StillLost(s, CreateAttempt(s, m, workflow, cost, key, source).value, k)
  {
    assert Startable(s.shots[m].status) && m != k;
  }

  lemma GrowKeepsLost(s: State, s': State, k: nat)
    requires k < |s.shots| && s.shots <= s'.shots && |s'.attempts| == |s.attempts|
    requires forall j :: 0 <= j < |s.attempts| ==> s'.attempts[j].shot == s.attempts[j].shot
    ensures StillLost(s, s', k)
  {
  }

  lemma OtherStepKeepsLost(s: State, step: Step, k: nat)
    requires Linked(s) && !OnAttempt(step) && TransactElsewhere(s, step).Success? && k < |s.shots| && Lost(s.shots[k])
    ensures StillLost(s, TransactElsewhere(s, step).value, k)
  {
    var s' := TransactElsewhere(s, step).value;
    match step {
      case StepCreateAttempt(m, workflow, cost, key) => CreateKeepsLost(s, m, workflow, cost, key, None, k);
      case StepRetry(i, workflow, cost, key, resolve) =>
        CreateKeepsLost(s, s.attempts[i].shot, workflow, cost, key, Some(i), k);
      case StepRecoverStale(now) => LifecycleSteps.RecoverStaleShape(s, now); GrowKeepsLost(s, s', k);
      case StepCreateProject(_, _) => GrowKeepsLost(s, s', k);
      case StepPrepareDirectRun(_) => GrowKeepsLost(s, s', k);
      case StepCreateShot(_) => GrowKeepsLost(s, s', k);
      case StepNote(_) => GrowKeepsLost(s, s', k);
    }
  }

  lemma AttemptStepKeepsLost(s: State, step: Step, k: nat)
    requires Inv(s) && OnAttempt(step) && step.i < |s.attempts| && Effect(s, step).Success?
    requires k < |s.shots| && Lost(s.shots[k])
    ensures StillLost(s, Apply(s, step), k)
  {
    ViewIsConsistent(s, step.i);
    LifecycleSteps.EffectIsCoherent(s, step);
    StoreKeepsLost(s, step.i, Effect(s, step).value, k);
    ApplyStores(s, step);
  }

  /** A refused transaction, and one that finds no attempt, stores nothing. */
  lemma NothingApplied(s: State, step: Step)
    requires Linked(s) && (Transact(s, step).Failure? || (OnAttempt(step) && step.i >= |s.attempts|))
    ensures Apply(s, step) == s
  {
  }

  lemma StepKeepsLost(s: State, step: Step, k: nat)
    requires Inv(s) && k < |s.shots| && Lost(s.shots[k])
    ensures StillLost(s, Apply(s, step), k)
  {
    if Transact(s, step).Failure? || (OnAttempt(step) && step.i >= |s.attempts|) {
      NothingApplied(s, step);
    } else if OnAttempt(step) {
      CommitsWithEffect(s, step);
      AttemptStepKeepsLost(s, step, k);
    } else {
      OtherStepKeepsLost(s, step, k);
    }
  }

  lemma StaysLost(s1: State, s2: State, s3: State, k: nat)
    requires StillLost(s1, s2, k) && StillLost(s2, s3, k)
    ensures StillLost(s1, s3, k)
  {
  }

  lemma NextKeepsLost(s: State, s': State, k: nat)
    requires Inv(s) && Next(s, s') && k < |s.shots| && Lost(s.shots[k])
    ensures StillLost(s, s', k) && Inv(s')
  {
    var step :| s' == Apply(s, step);
    StepKeepsLost(s, step, k);
    LifecycleSteps.StepKeeps(s, step);
  }

  lemma StillLostNext(start: State, s: State, s': State, k: nat)
    requires StillLost(start, s, k) && Lost(start.shots[k]) && Inv(s) && Next(s, s')
    ensures StillLost(start, s', k) && Inv(s')
  {
    NextKeepsLost(s, s', k);
    StaysLost(start, s, s', k);
  }

  lemma {:induction false} LostAlong(trace: seq<State>, k: nat, n: nat)
    requires IsRun(trace) && n < |trace| && Inv(trace[0]) && k < |trace[0].shots| && Lost(trace[0].shots[k])
    ensures StillLost(trace[0], trace[n], k) && Inv(trace[n])
  {
    if n > 0 {
      LostAlong(trace, k, n - 1);
      var s := trace[n - 1];
      assert Next(s, trace[n - 1 + 1]);
      StillLostNext(trace[0], s, trace[n], k);
    }
  }

  lemma StillLostLater(s: State, s': State, k: nat)
    requires Inv(s) && Leads(s, s') && k < |s.shots| && Lost(s.shots[k])
    ensures StillLost(s, s', k) && Inv(s')
  {
    var trace :| IsRun(trace) && trace[0] == s && trace[|trace| - 1] == s';
    LostAlong(trace, k, |trace| - 1);
  }

  lemma LostTakesNone(s: State, k: nat, workflow: Workflow, cost: nat, key: nat)
    requires Linked(s) && k < |s.shots| && Lost(s.shots[k])
    ensures Transact(s, StepCreateAttempt(k, workflow, cost, key)).Failure?
  {
  }

  lemma LostIsRefused(s: State, k: nat, i: nat, workflow: Workflow, cost: nat, key: nat, resolve: bool)
    requires Linked(s) && k < |s.shots| && Lost(s.shots[k]) && i < |s.attempts| && s.attempts[i].shot == k
    ensures Transact(s, StepRetry(i, workflow, cost, key, resolve)).Failure?
  {
    RetryCreates(s, i, workflow, cost, key, resolve);
  }

  /** No attempt is ever again created for a shot that failed or was cancelled, by whatever run follows. */
  lemma LostForEver(s: State, s': State, k: nat, workflow: Workflow, cost: nat, key: nat, resolve: bool)
    requires Inv(s) && Leads(s, s') && k < |s.shots| && Lost(s.shots[k])
    ensures StillLost(s, s', k) && Linked(s')
    ensures Transact(s', StepCreateAttempt(k, workflow, cost, key)).Failure?
    ensures forall i :: 0 <= i < |s'.attempts| && s'.attempts[i].shot == k ==>
              Transact(s', StepRetry(i, workflow, cost, key, resolve)).Failure?
  {
    StillLostLater(s, s', k);
    forall i | 0 <= i < |s'.attempts| && s'.attempts[i].shot == k
      ensures Transact(s', StepRetry(i, workflow, cost, key, resolve)).Failure?
    {
      LostIsRefused(s', k, i, workflow, cost, key, resolve);
    }
    LostTakesNone(s', k, workflow, cost, key);
  }

  lemma OpenAfterFailure(s: State, i: nat, ending: Ending, code: FailureCode)
    requires Inv(s) && i < |s.attempts| && PreReview(s.attempts[i])
    requires Transact(s, StepFailAttempt(i, ending, code)).Success?
    ensures var s' := Apply(s, StepFailAttempt(i, ending, code));
            var k := s.attempts[i].shot;
            && Inv(s') && k < |s'.shots|
            && (if ending != EndCancelled && LeavesOpen(code) then Open(s'.shots[k].status) else Lost(s'.shots[k]))
  {
    FailureLeaves(s, i, ending, code);
    LifecycleSteps.StepKeeps(s, StepFailAttempt(i, ending, code));
    assert Apply(s, StepFailAttempt(i, ending, code)).attempts[i].shot == s.attempts[i].shot;
  }

  /** So a failure that is committed before review leaves its shot open exactly when it is no cancellation and its
      code is one of the seven, and otherwise no later store has another attempt of the shot. */
  lemma FailureIsFinalExactly(s: State, i: nat, ending: Ending, code: FailureCode)
    requires Inv(s) && i < |s.attempts| && PreReview(s.attempts[i])
    requires Transact(s, StepFailAttempt(i, ending, code)).Success?
    ensures var s' := Apply(s, StepFailAttempt(i, ending, code));
            var k := s.attempts[i].shot;
            && k < |s'.shots|
            && (ending != EndCancelled && LeavesOpen(code) <==> Open(s'.shots[k].status))
            && (!(ending != EndCancelled && LeavesOpen(code)) ==>
                  forall later :: Leads(s', later) ==> StillLost(s', later, k))
  {
    var s', k := Apply(s, StepFailAttempt(i, ending, code)), s.attempts[i].shot;
    OpenAfterFailure(s, i, ending, code);
    if Lost(s'.shots[k]) { LostToAll(s', k); }
  }

  lemma LostToAll(s: State, k: nat)
    requires Inv(s) && k < |s.shots| && Lost(s.shots[k])
    ensures forall later :: Leads(s, later) ==> StillLost(s, later, k)
  {
    forall later | Leads(s, later) ensures StillLost(s, later, k) {
      StillLostLater(s, later, k);
    }
  }
}
