/** Lifecycle statuses, their transition tables and the versioned records of the
    control plane (packages/domain/src/index.ts). */
module Domain {
  import opened Wrappers

  datatype ProjectStatus =
    | ProjectDraft | Planning | AwaitingStoryboardApproval | ReadyForGeneration
    | ProjectGenerating | NeedsAttention | AwaitingFinalReview
    | ProjectFailed | ProjectCancelled | Completed

  datatype ShotStatus =
    | ShotDraft | ApprovedForGeneration | ShotQueued | ShotGenerating | Retryable
    | ShotInReview | ShotAccepted | ShotRejected | ShotFailed | ShotCancelled

  datatype AttemptStatus =
    | Queued | Claimed | Submitting | Submitted | Running | Generated | Evaluating
    | AwaitingReview | Accepted | Rejected | Failed | TimedOut | Cancelled

  datatype FailureCode =
    | ComfyUnavailable | ComfySubmissionUncertain | ComfyExecutionFailed | CapabilityDrift
    | ComfyInterrupted | GenerationTimeout | ArtifactDownloadFailed | ArtifactStorageFailed
    | MediaInvalid | ReviewRejected | BudgetExceededCode

  datatype Error =
    | NotFound | ShotNotReady | RevisionNotFound | RevisionInvalid | AttemptLimitReached
    | BudgetExceeded | MoneyOverflow | NotReviewable | EvaluationRequired | EvaluationFailed
    | NotRetryable | SubmissionUncertain | InvalidTransition | InvalidProject
    | UniqueViolation | CompileFailed | AcceptedShotRequiresAttempt

  datatype Verdict = Passed | Rejects

  type WorkerId = nat
  type PromptId = nat

  /** The largest integer a JavaScript number carries exactly. */
  const MAX_SAFE_INTEGER: int := 9007199254740991

  datatype Project = Project(
    status: ProjectStatus, budget: Option<nat>, spent: nat, version: nat)

  datatype Shot = Shot(
    project: nat, status: ShotStatus, accepted: Option<nat>, pinned: Option<nat>, version: nat)

  datatype Attempt = Attempt(
    project: nat, shot: nat, key: nat, cost: nat, source: Option<nat>, status: AttemptStatus,
    prompt: Option<PromptId>, leaseOwner: Option<WorkerId>, leaseExpires: Option<int>,
    failure: Option<FailureCode>, reviewed: bool, version: nat)

  predicate ProjectMove(from: ProjectStatus, to: ProjectStatus) {
    match from
    case ProjectDraft => to == Planning
    case Planning => to == AwaitingStoryboardApproval
    case AwaitingStoryboardApproval => to == Planning || to == ReadyForGeneration || to == ProjectCancelled
    case ReadyForGeneration => to == ProjectGenerating || to == ProjectCancelled
    case ProjectGenerating =>
      to == AwaitingFinalReview || to == NeedsAttention || to == ProjectFailed || to == ProjectCancelled
    case NeedsAttention => to == ProjectGenerating || to == ProjectCancelled
    case AwaitingFinalReview => to == ProjectGenerating || to == Completed || to == ProjectCancelled
    case ProjectFailed => false
    case ProjectCancelled => false
    case Completed => false
  }

  predicate ShotMove(from: ShotStatus, to: ShotStatus) {
    match from
    case ShotDraft => to == ApprovedForGeneration || to == ShotCancelled || to == ShotFailed
    case ApprovedForGeneration => to == ShotQueued || to == ShotCancelled || to == ShotFailed
    case ShotQueued => to == ShotGenerating || to == Retryable || to == ShotCancelled || to == ShotFailed
    case ShotGenerating => to == ShotInReview || to == Retryable || to == ShotCancelled || to == ShotFailed
    case Retryable => to == ShotQueued || to == ShotCancelled
    case ShotInReview => to == ShotAccepted || to == ShotRejected || to == ShotCancelled || to == ShotFailed
    case ShotAccepted => false
    case ShotRejected => to == ShotQueued || to == ShotCancelled || to == ShotFailed
    case ShotFailed => false
    case ShotCancelled => false
  }

  predicate AttemptMove(from: AttemptStatus, to: AttemptStatus) {
    match from
    case Queued => to == Claimed || to == Running || to == Cancelled || to == Failed
    case Claimed => to == Submitting || to == Queued || to == Cancelled || to == Failed
    case Submitting => to == Submitted || to == Queued || to == Failed || to == TimedOut
    case Submitted => to == Running || to == Failed || to == TimedOut || to == Cancelled
    case Running => to == Generated || to == Evaluating || to == Failed || to == TimedOut || to == Cancelled
    case Generated => to == Evaluating || to == Failed
    case Evaluating => to == AwaitingReview || to == Failed
    case AwaitingReview => to == Accepted || to == Rejected
    case Accepted => false
    case Rejected => false
    case Failed => false
    case TimedOut => false
    case Cancelled => false
  }

  predicate Terminal(status: AttemptStatus) {
    status == Accepted || status == Rejected || status == Failed || status == TimedOut || status == Cancelled
  }

  /** An attempt is terminal exactly when the table leaves it no move. */
  lemma TerminalIsAbsorbing(status: AttemptStatus)
    ensures Terminal(status) <==> forall to :: !AttemptMove(status, to)
  {
    match status {
      case Queued => assert AttemptMove(status, Claimed);
      case Claimed => assert AttemptMove(status, Queued);
      case Submitting => assert AttemptMove(status, Queued);
      case Submitted => assert AttemptMove(status, Running);
      case Running => assert AttemptMove(status, Generated);
      case Generated => assert AttemptMove(status, Evaluating);
      case Evaluating => assert AttemptMove(status, AwaitingReview);
      case AwaitingReview => assert AttemptMove(status, Accepted);
      case _ =>
    }
  }

  predicate InFlight(status: AttemptStatus) {
    status == Submitting || status == Submitted || status == Running || status == Generated || status == Evaluating
  }

  /** A shot that an attempt is working on. */
  predicate Occupied(status: ShotStatus) {
    status == ShotQueued || status == ShotGenerating || status == ShotInReview
  }

  /** A shot a new attempt may be created for. */
  predicate Startable(status: ShotStatus) {
    status == ApprovedForGeneration || status == ShotRejected || status == Retryable
  }

  /** A project no attempt has been created in. */
  predicate NotStarted(status: ProjectStatus) {
    status == ProjectDraft || status == Planning || status == AwaitingStoryboardApproval || status == ReadyForGeneration
  }

  /** A move bumps the version; a move outside the table is an error. */
  function MoveProject(p: Project, next: ProjectStatus): Result<Project, Error> {
    if p.budget.Some? && p.spent > p.budget.value then Failure(InvalidProject)
    else if !ProjectMove(p.status, next) then Failure(InvalidTransition)
    else Success(p.(status := next, version := p.version + 1))
  }

  function MoveShot(sh: Shot, next: ShotStatus): Result<Shot, Error> {
    if sh.accepted.None? && sh.status == ShotAccepted then Failure(AcceptedShotRequiresAttempt)
    else if !ShotMove(sh.status, next) then Failure(InvalidTransition)
    else if sh.accepted.None? && next == ShotAccepted then Failure(AcceptedShotRequiresAttempt)
    else Success(sh.(status := next, version := sh.version + 1))
  }

  function MoveAttempt(a: Attempt, next: AttemptStatus): Result<Attempt, Error> {
    if !AttemptMove(a.status, next) then Failure(InvalidTransition)
    else Success(a.(status := next, version := a.version + 1))
  }

  function ClearLease(a: Attempt): Attempt {
    a.(leaseOwner := None, leaseExpires := None)
  }

  predicate RecoverableCode(code: FailureCode) {
    match code
    case ComfyUnavailable => true
    case ComfySubmissionUncertain => true
    case ComfyExecutionFailed => true
    case CapabilityDrift => true
    case GenerationTimeout => true
    case ArtifactDownloadFailed => true
    case ArtifactStorageFailed => true
    case _ => false
  }
}
