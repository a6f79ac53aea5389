/** The durable rows of the control plane and what each transaction does to them
    (apps/api/src/generation.ts, apps/api/src/application.ts, packages/db/src/index.ts).
    A row's position in its sequence is its identifier, so rows are kept in creation order.
    A transaction is a function from the stored state to either the state it commits or
    the error it throws, in which case nothing is stored. */
module ControlPlane {
  import opened Wrappers
  import opened Domain

  datatype EventKind =
    | ProjectCreated | ProjectReady | ShotCreated
    | AttemptQueued | AttemptSubmitted(intent: bool) | ExecutionStarted
    | AttemptGenerated | AttemptEvaluating | ArtifactStored | EvaluationCompleted(verdict: Verdict)
    | AttemptFailed | AttemptTimedOut | AttemptCancelled | AttemptAccepted | AttemptRejected
    | AttemptRegenerated(source: nat) | ProjectCompleted | RunPinned | RunUnpinned | RunReviewed
    | ExecutionProgress | RunCreated | BudgetDenied | OrphanEvent | RecommendationCreated

  datatype Event = Event(kind: EventKind, project: Option<nat>, shot: Option<nat>, attempt: Option<nat>)

  datatype State = State(
    maxAttempts: nat,
    projects: seq<Project>, shots: seq<Shot>, attempts: seq<Attempt>,
    artifacts: set<nat>, evaluations: map<nat, Verdict>,
    events: seq<Event>, outbox: seq<Event>)

  function Empty(maxAttempts: nat): State {
    State(maxAttempts, [], [], [], {}, map[], [], [])
  }

  /** What the workflow revision lookup of a new attempt finds. */
  datatype Workflow =
    | Compiled | NotCompiled
    | RevisionMissing | RevisionNotValidated | RevisionUnsafe | RevisionValidated

  /** How a failure is recorded on the attempt. */
  datatype Ending = EndFailed | EndTimedOut | EndCancelled

  /** appendEvent writes the event log and the outbox together. */
  function Append(s: State, evs: seq<Event>): State {
    s.(events := s.events + evs, outbox := s.outbox + evs)
  }

  /** The events of one transaction on an attempt carry its project, shot and identifier. */
  function Tagged(q: nat, k: nat, i: nat, kinds: seq<EventKind>): (evs: seq<Event>)
    ensures |evs| == |kinds|
  {
    if kinds == [] then [] else [Event(kinds[0], Some(q), Some(k), Some(i))] + Tagged(q, k, i, kinds[1..])
  }

  /** Every foreign key points at a row. */
  predicate Linked(s: State) {
    && (forall k :: 0 <= k < |s.shots| ==> s.shots[k].project < |s.projects|)
    && (forall i :: 0 <= i < |s.attempts| ==>
          && s.attempts[i].shot < |s.shots|
          && s.attempts[i].project == s.shots[s.attempts[i].shot].project)
  }

  /** What one transaction on an attempt writes: the attempt, its shot and its project, the
      artifact and evaluation rows it inserts, and the events it logs. */
  datatype Rows = Rows(
    attempt: Attempt, shot: Shot, project: Project, kinds: seq<EventKind>,
    artifact: bool, evaluation: Option<Verdict>, completes: bool)

  function Unchanged(a: Attempt, sh: Shot, p: Project): Rows {
    Rows(a, sh, p, [], false, None, false)
  }

  function Store(s: State, i: nat, rows: Rows): State
    requires Linked(s) && i < |s.attempts|
  {
    var k, q := s.attempts[i].shot, s.attempts[i].project;
    Append(s.(attempts := s.attempts[i := rows.attempt],
              shots := s.shots[k := rows.shot],
              projects := s.projects[q := rows.project],
              artifacts := if rows.artifact then s.artifacts + {i} else s.artifacts,
              evaluations := if rows.evaluation.Some? then s.evaluations[i := rows.evaluation.value]
                             else s.evaluations),
           Tagged(q, k, i, rows.kinds)
           + (if rows.completes then [Event(ProjectCompleted, Some(q), None, None)] else []))
  }

  function Commit(s: State, i: nat, rows: Result<Rows, Error>): Result<State, Error>
    requires Linked(s) && i < |s.attempts|
  {
    var written :- rows;
    Success(Store(s, i, written))
  }

  function EvaluationOf(s: State, i: nat): Option<Verdict> {
    if i in s.evaluations then Some(s.evaluations[i]) else None
  }

  function ShotOf(s: State, i: nat): Shot
    requires Linked(s) && i < |s.attempts|
  {
    s.shots[s.attempts[i].shot]
  }

  function ProjectOf(s: State, i: nat): Project
    requires Linked(s) && i < |s.attempts|
  {
    s.projects[s.attempts[i].project]
  }

  // ---------------------------------------------------------------- API transactions

  /** A project may be created in any status. */
  function CreateProject(s: State, status: ProjectStatus, budget: Option<nat>): Result<State, Error> {
    if budget.Some? && budget.value > MAX_SAFE_INTEGER then Failure(InvalidProject)
    else
      var q := |s.projects|;
      var p := Project(status, budget, 0, 1);
      var evs := [Event(ProjectCreated, Some(q), None, None)]
                 + (if status == ReadyForGeneration then [Event(ProjectReady, Some(q), None, None)] else []);
      Success(Append(s.(projects := s.projects + [p]), evs))
  }

  /** The two statuses projects are created in: ready by a direct run, a draft otherwise. */
  function InitialStatus(ready: bool): ProjectStatus { if ready then ReadyForGeneration else ProjectDraft }

  function PrepareDirectRun(s: State, q: nat): Result<State, Error> {
    if q >= |s.projects| then Failure(NotFound)
    else
      var p := s.projects[q];
      if p.status != ProjectDraft && p.status != Planning && p.status != AwaitingStoryboardApproval then Success(s)
      else
        var ready := p.(status := ReadyForGeneration, version := p.version + 1);
        Success(Append(s.(projects := s.projects[q := ready]), [Event(ProjectReady, Some(q), None, None)]))
  }

  function CreateShot(s: State, q: nat): Result<State, Error> {
    if q >= |s.projects| then Failure(NotFound)
    else
      var sh := Shot(q, ApprovedForGeneration, None, None, 1);
      Success(Append(s.(shots := s.shots + [sh]), [Event(ShotCreated, Some(q), Some(|s.shots|), None)]))
  }

  function AttemptsOfShot(attempts: seq<Attempt>, k: nat): nat {
    if attempts == [] then 0
    else AttemptsOfShot(attempts[..|attempts| - 1], k)
         + (if attempts[|attempts| - 1].shot == k then 1 else 0)
  }

  function KeyTaken(s: State, key: nat): bool {
    exists i :: 0 <= i < |s.attempts| && s.attempts[i].key == key
  }

  function CheckWorkflow(workflow: Workflow): Result<(), Error> {
    match workflow
    case RevisionMissing => Failure(RevisionNotFound)
    case RevisionNotValidated => Failure(RevisionInvalid)
    case RevisionUnsafe => Failure(RevisionInvalid)
    case _ => Success(())
  }

  /** Everything that is checked before the rows of a new attempt are written. */
  function CheckCreation(s: State, k: nat, workflow: Workflow, cost: nat, key: nat): Result<(), Error>
    requires Linked(s) && k < |s.shots|
  {
    var p := s.projects[s.shots[k].project];
    if !Startable(s.shots[k].status) then Failure(ShotNotReady)
    else
      var _ :- CheckWorkflow(workflow);
      if AttemptsOfShot(s.attempts, k) >= s.maxAttempts then Failure(AttemptLimitReached)
      else if p.spent + cost > MAX_SAFE_INTEGER then Failure(MoneyOverflow)
      else if p.budget.Some? && p.spent + cost > p.budget.value then Failure(BudgetExceeded)
      else if workflow == NotCompiled then Failure(CompileFailed)
      else if KeyTaken(s, key) then Failure(UniqueViolation)
      else Success(())
  }

  /** The project of a new attempt generates and pays for it; a project that already
      generates keeps its version. */
  function Charge(p: Project, cost: nat): Result<Project, Error> {
    var generating :-
      if p.status == ReadyForGeneration || p.status == AwaitingFinalReview || p.status == NeedsAttention then
        MoveProject(p, ProjectGenerating)
      else if p.status == ProjectGenerating then Success(p)
      else Failure(ShotNotReady);
    Success(generating.(spent := p.spent + cost))
  }

  function CreateAttempt(s: State, k: nat, workflow: Workflow, cost: nat, key: nat, source: Option<nat>)
    : Result<State, Error>
    requires Linked(s)
  {
    if k >= |s.shots| then Failure(NotFound)
    else
      var _ :- CheckCreation(s, k, workflow, cost, key);
      var q := s.shots[k].project;
      var queued :- MoveShot(s.shots[k], ShotQueued);
      var charged :- Charge(s.projects[q], cost);
      var i := |s.attempts|;
      var a := Attempt(q, k, key, cost, source, Queued, None, None, None, None, false, 1);
      var evs := [Event(AttemptQueued, Some(q), Some(k), Some(i))]
                 + (if source.Some? then [Event(AttemptRegenerated(source.value), Some(q), Some(k), Some(i))] else []);
      Success(Append(s.(attempts := s.attempts + [a], shots := s.shots[k := queued],
                        projects := s.projects[q := charged]), evs))
  }

  /** The project a run is submitted to, or else a new one. */
  function RunProject(s: State, project: Option<nat>): nat {
    if project.Some? then project.value else |s.projects|
  }

  /** The project of a run is made ready and given a shot for it. */
  function PrepareRun(s: State, project: Option<nat>): Result<State, Error> {
    var s1 :- if project.Some? then Success(s) else CreateProject(s, ReadyForGeneration, None);
    var s2 :- PrepareDirectRun(s1, RunProject(s, project));
    CreateShot(s2, RunProject(s, project))
  }

  /** Submitting a run: a shot of its own, and an attempt unless the revision turned out invalid. An invalid
      revision is an answer, not an error: the shot is committed. */
  function SubmitRun(s: State, project: Option<nat>, valid: bool, workflow: Workflow, cost: nat, key: nat)
    : Result<State, Error>
    requires Linked(s)
  {
    var s1 :- PrepareRun(s, project);
    if !valid then Success(s1)
    else
      var s2 :- CreateAttempt(s1, |s.shots|, workflow, cost, key, None);
      Success(Append(s2, [Event(RunCreated, Some(RunProject(s, project)), Some(|s.shots|), Some(|s.attempts|))]))
  }

  /** Retry and regenerate derive a new attempt of the same shot from a finished one. */
  function Retry(s: State, i: nat, workflow: Workflow, cost: nat, key: nat, resolveUncertain: bool)
    : Result<State, Error>
    requires Linked(s)
  {
    if i >= |s.attempts| then Failure(NotFound)
    else
      var a := s.attempts[i];
      if a.status != Rejected && a.status != Failed && a.status != TimedOut then Failure(NotRetryable)
      else if a.failure == Some(ComfySubmissionUncertain) && !resolveUncertain then Failure(SubmissionUncertain)
      else CreateAttempt(s, a.shot, workflow, cost, key, Some(i))
  }

  function Pin(i: nat, a: Attempt, sh: Shot, p: Project): Result<Rows, Error> {
    Success(Rows(a, sh.(pinned := Some(i), version := sh.version + 1), p, [RunPinned], false, None, false))
  }

  function Unpin(i: nat, a: Attempt, sh: Shot, p: Project): Result<Rows, Error> {
    if sh.pinned != Some(i) then Success(Unchanged(a, sh, p))
    else Success(Rows(a, sh.(pinned := None, version := sh.version + 1), p, [RunUnpinned], false, None, false))
  }

  /** A review annotation is allowed in every status. */
  function Review(a: Attempt, sh: Shot, p: Project): Result<Rows, Error> {
    Success(Rows(a.(reviewed := true, version := a.version + 1), sh, p, [RunReviewed], false, None, false))
  }

  /** Whether accepting attempt i leaves no shot of its project without an accepted attempt. */
  predicate OthersAccepted(s: State, i: nat)
    requires Linked(s) && i < |s.attempts|
  {
    forall k :: 0 <= k < |s.shots| && s.shots[k].project == s.attempts[i].project && k != s.attempts[i].shot
      ==> s.shots[k].accepted.Some?
  }

  function Accept(i: nat, a: Attempt, sh: Shot, p: Project, evaluation: Option<Verdict>, othersAccepted: bool)
    : Result<Rows, Error>
  {
    if a.status != AwaitingReview then Failure(NotReviewable)
    else if evaluation.None? then Failure(EvaluationRequired)
    else if evaluation.value != Passed then Failure(EvaluationFailed)
    else if sh.accepted.Some? then Failure(NotReviewable)
    else
      var a' :- MoveAttempt(a, Accepted);
      var sh' :- MoveShot(sh.(accepted := Some(i), pinned := Some(i)), ShotAccepted);
      var p' :-
        if othersAccepted then MoveProject(p, Completed)
        else if p.status == ProjectGenerating then MoveProject(p, AwaitingFinalReview)
        else Success(p);
      Success(Rows(ClearLease(a'), sh', p', [AttemptAccepted], false, None, othersAccepted))
  }

  function Reject(a: Attempt, sh: Shot, p: Project): Result<Rows, Error> {
    if a.status != AwaitingReview then Failure(NotReviewable)
    else
      var a' :- MoveAttempt(a, Rejected);
      var sh' :- MoveShot(sh, ShotRejected);
      Success(Rows(ClearLease(a').(failure := Some(ReviewRejected)), sh', p, [AttemptRejected], false, None, false))
  }

  // ------------------------------------------------------------- lease and queue rows

  predicate Active(status: AttemptStatus) {
    status == Claimed || InFlight(status)
  }

  predicate LeaseFree(a: Attempt, now: int) {
    a.leaseExpires.None? || a.leaseExpires.value < now
  }

  predicate HoldsLease(s: State, w: WorkerId, now: int) {
    exists i :: 0 <= i < |s.attempts| && s.attempts[i].leaseOwner == Some(w)
      && s.attempts[i].leaseExpires.Some? && s.attempts[i].leaseExpires.value >= now
      && Active(s.attempts[i].status)
  }

  /** Rows locked by another claimer are skipped, so any claimable row may be the one taken. */
  function ClaimNext(a: Attempt, w: WorkerId, now: int, expires: int, busy: bool): Attempt {
    if a.status == Queued && LeaseFree(a, now) && !busy then
      a.(status := Claimed, leaseOwner := Some(w), leaseExpires := Some(expires), version := a.version + 1)
    else a
  }

  function ClaimForRecovery(a: Attempt, w: WorkerId, now: int, expires: int, busy: bool): Attempt {
    if InFlight(a.status) && LeaseFree(a, now) && !busy then
      a.(leaseOwner := Some(w), leaseExpires := Some(expires), version := a.version + 1)
    else a
  }

  function Heartbeat(a: Attempt, w: WorkerId, expires: int): Attempt {
    if a.leaseOwner == Some(w) && Active(a.status) then
      a.(leaseExpires := Some(expires), version := a.version + 1)
    else a
  }

  function Release(a: Attempt, w: WorkerId): Attempt {
    if a.leaseOwner == Some(w) && Active(a.status) then
      ClearLease(a).(status := if a.status == Claimed then Queued else a.status, version := a.version + 1)
    else a
  }

  function Recovered(a: Attempt, now: int): Attempt {
    if a.status == Claimed && a.leaseExpires.Some? && a.leaseExpires.value < now then
      ClearLease(a).(status := Queued, version := a.version + 1)
    else a
  }

  /** Every claimed row whose lease has expired goes back to the queue. */
  function RecoverStale(s: State, now: int): State {
    s.(attempts := seq(|s.attempts|, i requires 0 <= i < |s.attempts| => Recovered(s.attempts[i], now)))
  }

  // ---------------------------------------------------------------- worker transactions

  /** The claimed -> submitting commit that precedes a submission. */
  function SubmitIntent(a: Attempt, sh: Shot, p: Project, w: WorkerId, expires: int): Result<Rows, Error> {
    if Terminal(a.status) then Success(Unchanged(a, sh, p))
    else
      var a' :- MoveAttempt(a, Submitting);
      var leased := a'.(leaseOwner := Some(w), leaseExpires := Some(expires));
      Success(Rows(leased, sh, p, [AttemptSubmitted(true)], false, None, false))
  }

  predicate PromptTaken(s: State, i: nat, prompt: PromptId) {
    exists j :: 0 <= j < |s.attempts| && j != i && s.attempts[j].prompt == Some(prompt)
  }

  function PersistSubmitted(a: Attempt, sh: Shot, p: Project, prompt: PromptId, promptTaken: bool)
    : Result<Rows, Error>
  {
    if a.prompt == Some(prompt) && a.status != Submitting then Success(Unchanged(a, sh, p))
    else
      var a' :- MoveAttempt(a, Submitted);
      if promptTaken then Failure(UniqueViolation)
      else Success(Rows(a'.(prompt := Some(prompt)), sh, p, [AttemptSubmitted(false)], false, None, false))
  }

  predicate MayStart(status: AttemptStatus) {
    status == Queued || status == Submitted || status == Submitting
  }

  function MarkRunning(a: Attempt, sh: Shot, p: Project): Result<Rows, Error> {
    if !MayStart(a.status) then Success(Unchanged(a, sh, p))
    else
      var a' :- MoveAttempt(a, Running);
      var sh' :- if sh.status == ShotQueued then MoveShot(sh, ShotGenerating) else Success(sh);
      Success(Rows(a', sh', p, [ExecutionStarted], false, None, false))
  }

  function MarkProgress(a: Attempt, sh: Shot, p: Project): Result<Rows, Error> {
    if Terminal(a.status) then Success(Unchanged(a, sh, p))
    else Success(Unchanged(a, sh, p).(kinds := [ExecutionProgress]))
  }

  /** The run of transitions finishSuccess makes before it may store an evaluation. */
  function ToEvaluating(a: Attempt): Result<Attempt, Error> {
    var a1 :- if a.status == Claimed then MoveAttempt(a, Submitting) else Success(a);
    var a2 :- if a.status == Claimed then MoveAttempt(a1, Submitted) else Success(a1);
    var a3 :- if MayStart(a2.status) then MoveAttempt(a2, Running) else Success(a2);
    var a4 :- if a3.status == Running then MoveAttempt(a3, Generated) else Success(a3);
    if a4.status == Generated then MoveAttempt(a4, Evaluating) else Success(a4)
  }

  /** Where the evaluation's verdict sends the shot and the project. */
  function JudgedShot(sh: Shot, verdict: Verdict): Result<Shot, Error> {
    if verdict == Passed && sh.status == ShotGenerating then MoveShot(sh, ShotInReview)
    else if verdict == Rejects && (sh.status == ShotGenerating || sh.status == ShotQueued) then MoveShot(sh, ShotFailed)
    else Success(sh)
  }

  function JudgedProject(p: Project, verdict: Verdict): Result<Project, Error> {
    if p.status == ProjectGenerating then
      MoveProject(p, if verdict == Passed then AwaitingFinalReview else ProjectFailed)
    else Success(p)
  }

  function JudgedAttempt(a: Attempt, verdict: Verdict): Result<Attempt, Error> {
    var a' :- MoveAttempt(a, if verdict == Passed then AwaitingReview else Failed);
    Success(if verdict == Passed then ClearLease(a') else ClearLease(a').(failure := Some(MediaInvalid)))
  }

  function JudgedRecords(e: Attempt, sh: Shot, p: Project, verdict: Verdict): Result<(Attempt, Shot, Project), Error> {
    var a' :- JudgedAttempt(e, verdict);
    var sh' :- JudgedShot(sh, verdict);
    var p' :- JudgedProject(p, verdict);
    Success((a', sh', p'))
  }

  /** The final transaction of finishSuccess. The artifact and evaluation it read earlier are
      `sawArtifact` and `sawEvaluation`; what is stored by now are `artifact` and `evaluation`. */
  function FinishSuccess(a: Attempt, sh: Shot, p: Project, artifact: bool, evaluation: Option<Verdict>,
                         sawArtifact: bool, sawEvaluation: Option<Verdict>, verdict: Verdict)
    : Result<Rows, Error>
  {
    if Terminal(a.status) then Success(Unchanged(a, sh, p))
    else if !sawArtifact && artifact then Failure(UniqueViolation)
    else
      var e :- ToEvaluating(a);
      if e.status != Evaluating then Success(Unchanged(a, sh, p).(artifact := true))
      else Judge(a, e, sh, p, evaluation, sawArtifact, sawEvaluation, verdict)
  }

  /** Storing the verdict on an attempt that `e` brought to evaluating. */
  function Judge(a: Attempt, e: Attempt, sh: Shot, p: Project, evaluation: Option<Verdict>,
                 sawArtifact: bool, sawEvaluation: Option<Verdict>, verdict: Verdict)
    : Result<Rows, Error>
  {
    if sawEvaluation.None? && evaluation.Some? then Failure(UniqueViolation)
    else
      var judged :- JudgedRecords(e, sh, p, verdict);
      var kinds :=
        (if a.status != Evaluating then [AttemptGenerated, AttemptEvaluating] else [])
        + (if sawArtifact then [] else [ArtifactStored])
        + (if sawEvaluation.Some? then [] else [EvaluationCompleted(verdict)]);
      Success(Rows(judged.0, judged.1, judged.2, kinds, true, Some(verdict), false))
  }

  /** Rows are never deleted, so what finishSuccess read earlier is still stored, and it reuses a
      verdict it found; any other reading is not one it can have made. */
  function FinishObserved(a: Attempt, sh: Shot, p: Project, artifact: bool, evaluation: Option<Verdict>,
                          sawArtifact: bool, sawEvaluation: Option<Verdict>, verdict: Verdict)
    : Result<Rows, Error>
  {
    if (sawArtifact ==> artifact) && (sawEvaluation.Some? ==> evaluation == sawEvaluation == Some(verdict)) then
      FinishSuccess(a, sh, p, artifact, evaluation, sawArtifact, sawEvaluation, verdict)
    else Success(Unchanged(a, sh, p))
  }

  function EndStatus(ending: Ending): AttemptStatus {
    match ending
    case EndFailed => Failed
    case EndTimedOut => TimedOut
    case EndCancelled => Cancelled
  }

  function EndEvent(ending: Ending): EventKind {
    match ending
    case EndFailed => AttemptFailed
    case EndTimedOut => AttemptTimedOut
    case EndCancelled => AttemptCancelled
  }

  /** Where a failure sends the shot and the project of an attempt before review. */
  function FailedShot(ending: Ending, code: FailureCode): ShotStatus {
    if ending == EndCancelled then ShotCancelled else if RecoverableCode(code) then Retryable else ShotFailed
  }

  function FailedProject(ending: Ending, code: FailureCode): ProjectStatus {
    if ending == EndCancelled then ProjectCancelled else if RecoverableCode(code) then NeedsAttention else ProjectFailed
  }

  function EndShot(sh: Shot, ending: Ending, code: FailureCode): Result<Shot, Error> {
    if sh.status == ShotQueued || sh.status == ShotGenerating then MoveShot(sh, FailedShot(ending, code))
    else Success(sh)
  }

  function EndProject(p: Project, ending: Ending, code: FailureCode): Result<Project, Error> {
    if p.status == ProjectGenerating then MoveProject(p, FailedProject(ending, code)) else Success(p)
  }

  function FailAttempt(a: Attempt, sh: Shot, p: Project, ending: Ending, code: FailureCode): Result<Rows, Error> {
    if Terminal(a.status) then Success(Unchanged(a, sh, p))
    else
      var a' :- MoveAttempt(a, EndStatus(ending));
      var sh' :- EndShot(sh, ending, code);
      var p' :- EndProject(p, ending, code);
      Success(Rows(ClearLease(a').(failure := Some(code)), sh', p', [EndEvent(ending)], false, None, false))
  }

  // ------------------------------------------------------------------------------ runs

  datatype Step =
    | StepCreateProject(ready: bool, budget: Option<nat>)
    | StepPrepareDirectRun(q: nat)
    | StepCreateShot(q: nat)
    | StepCreateAttempt(k: nat, workflow: Workflow, cost: nat, key: nat)
    | StepRetry(i: nat, workflow: Workflow, cost: nat, key: nat, resolveUncertain: bool)
    | StepPin(i: nat)
    | StepUnpin(i: nat)
    | StepReview(i: nat)
    | StepAccept(i: nat)
    | StepReject(i: nat)
    | StepNote(event: Event)
    | StepClaimNext(i: nat, w: WorkerId, now: int, expires: int)
    | StepClaimForRecovery(i: nat, w: WorkerId, now: int, expires: int)
    | StepHeartbeat(i: nat, w: WorkerId, expires: int)
    | StepRelease(i: nat, w: WorkerId)
    | StepRecoverStale(now: int)
    | StepSubmitIntent(i: nat, w: WorkerId, expires: int)
    | StepPersistSubmitted(i: nat, prompt: PromptId)
    | StepMarkRunning(i: nat)
    | StepMarkProgress(i: nat)
    | StepFinishSuccess(i: nat, artifact: bool, evaluation: Option<Verdict>, verdict: Verdict)
    | StepFailAttempt(i: nat, ending: Ending, code: FailureCode)

  /** The event kinds that other components log beside the lifecycle. */
  predicate Informative(kind: EventKind) {
    kind == RunCreated || kind == BudgetDenied || kind == OrphanEvent || kind == RecommendationCreated
  }

  /** The transactions that act on one attempt. */
  predicate OnAttempt(step: Step) {
    match step
    case StepCreateProject(_, _) => false
    case StepPrepareDirectRun(_) => false
    case StepCreateShot(_) => false
    case StepCreateAttempt(_, _, _, _) => false
    case StepRetry(_, _, _, _, _) => false
    case StepNote(_) => false
    case StepRecoverStale(_) => false
    case _ => true
  }

  /** The statements on one queue row. */
  predicate OnQueue(step: Step) {
    step.StepClaimNext? || step.StepClaimForRecovery? || step.StepHeartbeat? || step.StepRelease?
  }

  /** A missing attempt is an error for the API and for persistSubmitted, and nothing to do otherwise. */
  predicate NeedsAttempt(step: Step) {
    step.StepPin? || step.StepUnpin? || step.StepReview? || step.StepAccept? || step.StepReject?
      || step.StepPersistSubmitted?
  }

  /** The rows a transaction on attempt `step.i` writes. */
  function Effect(s: State, step: Step): Result<Rows, Error>
    requires Linked(s) && OnAttempt(step) && step.i < |s.attempts|
  {
    var i := step.i;
    var a, sh, p := s.attempts[i], ShotOf(s, i), ProjectOf(s, i);
    match step
    case StepPin(_) => Pin(i, a, sh, p)
    case StepUnpin(_) => Unpin(i, a, sh, p)
    case StepReview(_) => Review(a, sh, p)
    case StepAccept(_) => Accept(i, a, sh, p, EvaluationOf(s, i), OthersAccepted(s, i))
    case StepReject(_) => Reject(a, sh, p)
    case StepClaimNext(_, w, now, expires) =>
      Success(Unchanged(ClaimNext(a, w, now, expires, HoldsLease(s, w, now)), sh, p))
    case StepClaimForRecovery(_, w, now, expires) =>
      Success(Unchanged(ClaimForRecovery(a, w, now, expires, HoldsLease(s, w, now)), sh, p))
    case StepHeartbeat(_, w, expires) => Success(Unchanged(Heartbeat(a, w, expires), sh, p))
    case StepRelease(_, w) => Success(Unchanged(Release(a, w), sh, p))
    case StepSubmitIntent(_, w, expires) => SubmitIntent(a, sh, p, w, expires)
    case StepPersistSubmitted(_, prompt) => PersistSubmitted(a, sh, p, prompt, PromptTaken(s, i, prompt))
    case StepMarkRunning(_) => MarkRunning(a, sh, p)
    case StepMarkProgress(_) => MarkProgress(a, sh, p)
    case StepFinishSuccess(_, sawArtifact, sawEvaluation, verdict) =>
      FinishObserved(a, sh, p, i in s.artifacts, EvaluationOf(s, i), sawArtifact, sawEvaluation, verdict)
    case StepFailAttempt(_, ending, code) => FailAttempt(a, sh, p, ending, code)
  }

  function TransactOnAttempt(s: State, step: Step): Result<State, Error>
    requires Linked(s) && OnAttempt(step)
  {
    if step.i < |s.attempts| then Commit(s, step.i, Effect(s, step))
    else if NeedsAttempt(step) then Failure(NotFound)
    else Success(s)
  }

  function TransactElsewhere(s: State, step: Step): Result<State, Error>
    requires Linked(s) && !OnAttempt(step)
  {
    match step
    case StepCreateProject(ready, budget) => CreateProject(s, InitialStatus(ready), budget)
    case StepPrepareDirectRun(q) => PrepareDirectRun(s, q)
    case StepCreateShot(q) => CreateShot(s, q)
    case StepCreateAttempt(k, workflow, cost, key) => CreateAttempt(s, k, workflow, cost, key, None)
    case StepRetry(i, workflow, cost, key, resolve) => Retry(s, i, workflow, cost, key, resolve)
    case StepNote(event) => if Informative(event.kind) then Success(Append(s, [event])) else Success(s)
    case StepRecoverStale(now) => Success(RecoverStale(s, now))
  }

  function Transact(s: State, step: Step): Result<State, Error>
    requires Linked(s)
  {
    if OnAttempt(step) then TransactOnAttempt(s, step) else TransactElsewhere(s, step)
  }

  /** withTransaction: commit everything or leave the store as it was. */
  function Apply(s: State, step: Step): State
    requires Linked(s)
  {
    var r := Transact(s, step);
    if r.Success? then r.value else s
  }
}
