/** The transactions as the services run them: reading rows, then writing them one after another.
    Each is proved to leave the store its specification in ControlPlane commits, or to throw the
    same error; `WithTransaction` undoes the writes of one that throws. */
module Transactions {
  import opened Wrappers
  import opened Domain
  import CP = ControlPlane
  import opened Lifecycle
  import LifecycleSteps

  type Step = CP.Step
  type Event = CP.Event

  lemma TagsOne(q: nat, k: nat, i: nat, kind: CP.EventKind)
    ensures CP.Tagged(q, k, i, [kind]) == [CP.Event(kind, Some(q), Some(k), Some(i))]
  {
  }

  lemma TagsAppend(q: nat, k: nat, i: nat, kinds: seq<CP.EventKind>, kind: CP.EventKind)
    ensures CP.Tagged(q, k, i, kinds + [kind]) == CP.Tagged(q, k, i, kinds)
            + [CP.Event(kind, Some(q), Some(k), Some(i))]
  {
    if kinds == [] {
      assert [] + [kind] == [kind];
    } else {
      assert (kinds + [kind])[1..] == kinds[1..] + [kind];
      TagsAppend(q, k, i, kinds[1..], kind);
    }
  }

  /** Events appended one at a time, or as one list. */
  lemma OneByOne(base: seq<Event>, first: Event, rest: seq<Event>)
    ensures base + [first] + rest == base + ([first] + rest)
    ensures rest == [] ==> base + [first] == base + ([first] + rest)
  {
    assert base + [first] + [] == base + [first];
  }

  /** Writing the rows and the events one by one gives the stored rows. */
  lemma SameStore(s: CP.State, i: nat, rows: CP.Rows, s': CP.State)
    requires CP.Linked(s) && i < |s.attempts|
    requires s'.maxAttempts == s.maxAttempts
    requires s'.attempts == s.attempts[i := rows.attempt]
    requires s'.shots == s.shots[s.attempts[i].shot := rows.shot]
    requires s'.projects == s.projects[s.attempts[i].project := rows.project]
    requires s'.artifacts == if rows.artifact then s.artifacts + {i} else s.artifacts
    requires s'.evaluations == if rows.evaluation.Some? then s.evaluations[i := rows.evaluation.value]
             else s.evaluations
    requires var q := s.attempts[i].project;
             var tags := CP.Tagged(q, s.attempts[i].shot, i, rows.kinds);
             var evs := if rows.completes then [CP.Event(CP.ProjectCompleted, Some(q), None, None)] else [];
             s'.events == s.events + tags + evs && s'.outbox == s.outbox + tags + evs
    ensures s' == CP.Store(s, i, rows)
  {
    var q := s.attempts[i].project;
    var tags := CP.Tagged(q, s.attempts[i].shot, i, rows.kinds);
    var evs := if rows.completes then [CP.Event(CP.ProjectCompleted, Some(q), None, None)] else [];
    assert s.events + tags + evs == s.events + (tags + evs);
    assert s.outbox + tags + evs == s.outbox + (tags + evs);
  }

  /** The artifact row may be inserted before the rest of the rows. */
  lemma SameJudgement(s: CP.State, mid: CP.State, i: nat, working: Attempt, sawArtifact: bool,
                      sawEvaluation: Option<Verdict>, verdict: Verdict)
    requires CP.Linked(s) && i < |s.attempts| && mid == s.(artifacts := s.artifacts + {i})
    ensures var a, sh, p, evaluation := s.attempts[i], CP.ShotOf(s, i), CP.ProjectOf(s, i), CP.EvaluationOf(s, i);
            var rows := CP.Judge(a, working, sh, p, evaluation, sawArtifact, sawEvaluation, verdict);
            rows.Success? ==> CP.Store(mid, i, rows.value) == CP.Store(s, i, rows.value)
  {
    assert mid.artifacts + {i} == s.artifacts + {i};
  }

  /** What judging comes to, given the events of the way there. */
  lemma JudgeWith(a: Attempt, working: Attempt, sh: Shot, p: Project, evaluation: Option<Verdict>, sawArtifact: bool,
                  sawEvaluation: Option<Verdict>, verdict: Verdict, generated: seq<CP.EventKind>)
    requires generated == if a.status != Evaluating then [CP.AttemptGenerated, CP.AttemptEvaluating] else []
    ensures var judged := CP.JudgedRecords(working, sh, p, verdict);
            var kinds := generated + (if sawArtifact then [] else [CP.ArtifactStored])
                         + (if sawEvaluation.Some? then [] else [CP.EvaluationCompleted(verdict)]);
            CP.Judge(a, working, sh, p, evaluation, sawArtifact, sawEvaluation, verdict)
            == if sawEvaluation.None? && evaluation.Some? then Failure(UniqueViolation)
               else if judged.Failure? then Failure(judged.error)
               else Success(CP.Rows(judged.value.0, judged.value.1, judged.value.2, kinds, true, Some(verdict), false))
  {
  }

  /** The tables behind the repositories. */
  class Database {
    const maxAttempts: nat
    var projects: seq<Project>
    var shots: seq<Shot>
    var attempts: seq<Attempt>
    var artifacts: set<nat>
    var evaluations: map<nat, Verdict>
    var events: seq<Event>
    var outbox: seq<Event>

    constructor (maxAttempts: nat)
      ensures this.maxAttempts == maxAttempts && Stored() == CP.Empty(maxAttempts)
    {
      this.maxAttempts := maxAttempts;
      projects, shots, attempts := [], [], [];
      artifacts, evaluations := {}, map[];
      events, outbox := [], [];
    }

    function Stored(): CP.State
      reads this
    {
      CP.State(maxAttempts, projects, shots, attempts, artifacts, evaluations, events, outbox)
    }

    method Restore(s: CP.State)
      requires s.maxAttempts == maxAttempts
      modifies this
      ensures Stored() == s
    {
      projects, shots, attempts := s.projects, s.shots, s.attempts;
      artifacts, evaluations := s.artifacts, s.evaluations;
      events, outbox := s.events, s.outbox;
    }

    // ----------------------------------------------------------------- repositories

    /** An update names the version it read, which must still be the stored one. */
    method UpdateAttempt(i: nat, next: Attempt, expectedVersion: nat)
      requires i < |attempts| && attempts[i].version == expectedVersion
      modifies this`attempts
      ensures attempts == old(attempts)[i := next]
    {
      attempts := attempts[i := next];
    }

    method UpdateShot(k: nat, next: Shot, expectedVersion: nat)
      requires k < |shots| && shots[k].version == expectedVersion
      modifies this`shots
      ensures shots == old(shots)[k := next]
    {
      shots := shots[k := next];
    }

    method UpdateProject(q: nat, next: Project, expectedVersion: nat)
      requires q < |projects| && projects[q].version == expectedVersion
      modifies this`projects
      ensures projects == old(projects)[q := next]
    {
      projects := projects[q := next];
    }

    method AppendEvent(event: Event)
      modifies this`events, this`outbox
      ensures events == old(events) + [event] && outbox == old(outbox) + [event]
    {
      events := events + [event];
      outbox := outbox + [event];
    }

    // -------------------------------------------------------------- API transactions

    /** A method agrees with its specification when it commits the same store or throws the same error. */
    ghost predicate Agrees(r: Result<(), Error>, spec: Result<CP.State, Error>)
      reads this
    {
      match r
      case Success(_) => spec == Success(Stored())
      case Failure(error) => spec == Failure(error)
    }

    method CreateProject(status: ProjectStatus, budget: Option<nat>) returns (r: Result<(), Error>)
      modifies this
      ensures Agrees(r, CP.CreateProject(old(Stored()), status, budget))
    {
      if budget.Some? && budget.value > MAX_SAFE_INTEGER { return Failure(InvalidProject); }
      var q := |projects|;
      projects := projects + [Project(status, budget, 0, 1)];
      AppendEvent(CP.Event(CP.ProjectCreated, Some(q), None, None));
      if status == ReadyForGeneration { AppendEvent(CP.Event(CP.ProjectReady, Some(q), None, None)); }
      ghost var rest := if status == ReadyForGeneration then [CP.Event(CP.ProjectReady, Some(q), None, None)] else [];
      OneByOne(old(events), CP.Event(CP.ProjectCreated, Some(q), None, None), rest);
      OneByOne(old(outbox), CP.Event(CP.ProjectCreated, Some(q), None, None), rest);
      return Success(());
    }

    method PrepareDirectRun(q: nat) returns (r: Result<(), Error>)
      modifies this
      ensures Agrees(r, CP.PrepareDirectRun(old(Stored()), q))
    {
      if q >= |projects| { return Failure(NotFound); }
      var p := projects[q];
      if p.status != ProjectDraft && p.status != Planning
         && p.status != AwaitingStoryboardApproval {
        return Success(());
      }
      UpdateProject(q, p.(status := ReadyForGeneration, version := p.version + 1), p.version);
      AppendEvent(CP.Event(CP.ProjectReady, Some(q), None, None));
      return Success(());
    }

    method CreateShot(q: nat) returns (r: Result<(), Error>)
      modifies this
      ensures Agrees(r, CP.CreateShot(old(Stored()), q))
    {
      if q >= |projects| { return Failure(NotFound); }
      var k := |shots|;
      shots := shots + [Shot(q, ApprovedForGeneration, None, None, 1)];
      AppendEvent(CP.Event(CP.ShotCreated, Some(q), Some(k), None));
      return Success(());
    }

    /** A denial is logged before the error is thrown, and undone with the transaction. */
    method CheckCreation(k: nat, workflow: CP.Workflow, cost: nat, key: nat) returns (r: Result<(), Error>)
      requires CP.Linked(Stored()) && k < |shots|
      modifies this`events, this`outbox
      ensures r == CP.CheckCreation(old(Stored()), k, workflow, cost, key)
      ensures r.Success? ==> events == old(events) && outbox == old(outbox)
    {
      var shot := shots[k];
      var project := projects[shot.project];
      if !Startable(shot.status) { return Failure(ShotNotReady); }
      var _ :- CP.CheckWorkflow(workflow);
      if CP.AttemptsOfShot(attempts, k) >= maxAttempts {
        AppendEvent(CP.Event(CP.BudgetDenied, Some(shot.project), Some(k), None));
        return Failure(AttemptLimitReached);
      }
      var nextSpend := project.spent + cost;
      if nextSpend > MAX_SAFE_INTEGER { return Failure(MoneyOverflow); }
      if project.budget.Some? && nextSpend > project.budget.value {
        AppendEvent(CP.Event(CP.BudgetDenied, Some(shot.project), Some(k), None));
        return Failure(BudgetExceeded);
      }
      if workflow == CP.NotCompiled { return Failure(CompileFailed); }
      if CP.KeyTaken(Stored(), key) { return Failure(UniqueViolation); }
      return Success(());
    }

    method CreateAttempt(k: nat, workflow: CP.Workflow, cost: nat, key: nat, source: Option<nat>)
      returns (r: Result<(), Error>)
      requires CP.Linked(Stored())
      modifies this
      ensures Agrees(r, CP.CreateAttempt(old(Stored()), k, workflow, cost, key, source))
    {
      if k >= |shots| { return Failure(NotFound); }
      var _ :- CheckCreation(k, workflow, cost, key);
      var i, shot := |attempts|, shots[k];
      var q := shot.project;
      var project := projects[q];
      attempts := attempts + [Attempt(q, k, key, cost, source, Queued, None, None, None, None, false, 1)];
      var queuedShot :- MoveShot(shot, ShotQueued);
      UpdateShot(k, queuedShot, shot.version);
      var updatedProject :- CP.Charge(project, cost);
      UpdateProject(q, updatedProject, project.version);
      AppendEvent(CP.Event(CP.AttemptQueued, Some(q), Some(k), Some(i)));
      if source.Some? { AppendEvent(CP.Event(CP.AttemptRegenerated(source.value), Some(q), Some(k), Some(i))); }
      ghost var rest := if source.Some? then [CP.Event(CP.AttemptRegenerated(source.value), Some(q), Some(k), Some(i))]
                        else [];
      OneByOne(old(events), CP.Event(CP.AttemptQueued, Some(q), Some(k), Some(i)), rest);
      OneByOne(old(outbox), CP.Event(CP.AttemptQueued, Some(q), Some(k), Some(i)), rest);
      return Success(());
    }

    method SubmitRun(project: Option<nat>, valid: bool, workflow: CP.Workflow, cost: nat, key: nat)
      returns (r: Result<(), Error>)
      requires CP.Linked(Stored())
      modifies this
      ensures Agrees(r, CP.SubmitRun(old(Stored()), project, valid, workflow, cost, key))
    {
      var q, k, i := CP.RunProject(Stored(), project), |shots|, |attempts|;
      var _ :- PrepareRun(project);
      if !valid { return Success(()); }
      var _ :- CreateAttempt(k, workflow, cost, key, None);
      AppendEvent(CP.Event(CP.RunCreated, Some(q), Some(k), Some(i)));
      return Success(());
    }

    method PrepareRun(project: Option<nat>) returns (r: Result<(), Error>)
      modifies this
      ensures Agrees(r, CP.PrepareRun(old(Stored()), project))
    {
      var q := CP.RunProject(Stored(), project);
      if project.None? {
        var _ :- CreateProject(ReadyForGeneration, None);
      }
      var _ :- PrepareDirectRun(q);
      r := CreateShot(q);
    }

    method RetryAttempt(i: nat, workflow: CP.Workflow, cost: nat, key: nat, resolveUncertain: bool)
      returns (r: Result<(), Error>)
      requires CP.Linked(Stored())
      modifies this
      ensures Agrees(r, CP.Retry(old(Stored()), i, workflow, cost, key, resolveUncertain))
    {
      if i >= |attempts| { return Failure(NotFound); }
      var source := attempts[i];
      if source.status != Rejected && source.status != Failed && source.status != TimedOut {
        return Failure(NotRetryable);
      }
      if source.failure == Some(ComfySubmissionUncertain) && !resolveUncertain { return Failure(SubmissionUncertain); }
      r := CreateAttempt(source.shot, workflow, cost, key, Some(i));
    }

    // ------------------------------------------------- API transactions on one attempt

    ghost predicate Wrote(s: CP.State, i: nat, rows: Result<CP.Rows, Error>, r: Result<(), Error>)
      requires CP.Linked(s) && i < |s.attempts|
      reads this
    {
      match r
      case Success(_) => rows.Success? && Stored() == CP.Store(s, i, rows.value)
      case Failure(error) => rows == Failure(error)
    }

    method AcceptAttempt(i: nat) returns (r: Result<(), Error>)
      requires CP.Linked(Stored()) && i < |attempts|
      modifies this
      ensures var s := old(Stored());
              Wrote(s, i, CP.Accept(i, s.attempts[i], CP.ShotOf(s, i), CP.ProjectOf(s, i), CP.EvaluationOf(s, i),
                                    CP.OthersAccepted(s, i)), r)
    {
      var attempt := attempts[i];
      if attempt.status != AwaitingReview { return Failure(NotReviewable); }
      if i !in evaluations { return Failure(EvaluationRequired); }
      if evaluations[i] != Passed { return Failure(EvaluationFailed); }
      var k, q := attempt.shot, attempt.project;
      var shot, project := shots[k], projects[q];
      if shot.accepted.Some? { return Failure(NotReviewable); }
      var accepted :- MoveAttempt(attempt, Accepted);
      var acceptedShot :- MoveShot(shot.(accepted := Some(i), pinned := Some(i)), ShotAccepted);
      var allAccepted := CP.OthersAccepted(Stored(), i);
      var updatedProject := project;
      if allAccepted {
        updatedProject :- MoveProject(project, Completed);
      } else if project.status == ProjectGenerating {
        updatedProject :- MoveProject(project, AwaitingFinalReview);
      }
      WriteAcceptance(i, ClearLease(accepted), acceptedShot, updatedProject, allAccepted);
      return Success(());
    }

    method WriteAcceptance(i: nat, accepted: Attempt, acceptedShot: Shot, updatedProject: Project, allAccepted: bool)
      requires CP.Linked(Stored()) && i < |attempts|
      modifies this
      ensures var rows := CP.Rows(accepted, acceptedShot, updatedProject, [CP.AttemptAccepted], false, None,
                                  allAccepted);
              Stored() == CP.Store(old(Stored()), i, rows)
    {
      var k, q := attempts[i].shot, attempts[i].project;
      ghost var rows := CP.Rows(accepted, acceptedShot, updatedProject, [CP.AttemptAccepted], false, None, allAccepted);
      TagsOne(q, k, i, CP.AttemptAccepted);
      UpdateAttempt(i, accepted, attempts[i].version);
      UpdateShot(k, acceptedShot, shots[k].version);
      if updatedProject != projects[q] { UpdateProject(q, updatedProject, projects[q].version); }
      AppendEvent(CP.Event(CP.AttemptAccepted, Some(q), Some(k), Some(i)));
      if allAccepted { AppendEvent(CP.Event(CP.ProjectCompleted, Some(q), None, None)); }
      SameStore(old(Stored()), i, rows, Stored());
    }

    method RejectAttempt(i: nat) returns (r: Result<(), Error>)
      requires CP.Linked(Stored()) && i < |attempts|
      modifies this
      ensures var s := old(Stored());
              Wrote(s, i, CP.Reject(s.attempts[i], CP.ShotOf(s, i), CP.ProjectOf(s, i)), r)
    {
      var attempt := attempts[i];
      var k, q := attempt.shot, attempt.project;
      var shot := shots[k];
      TagsOne(q, k, i, CP.AttemptRejected);
      if attempt.status != AwaitingReview { return Failure(NotReviewable); }
      var rejected :- MoveAttempt(attempt, Rejected);
      var rejectedShot :- MoveShot(shot, ShotRejected);
      var rejectedAttempt := ClearLease(rejected).(failure := Some(ReviewRejected));
      UpdateAttempt(i, rejectedAttempt, attempt.version);
      UpdateShot(k, rejectedShot, shot.version);
      AppendEvent(CP.Event(CP.AttemptRejected, Some(q), Some(k), Some(i)));
      ghost var rows := CP.Rows(rejectedAttempt, rejectedShot, projects[q], [CP.AttemptRejected], false, None, false);
      SameStore(old(Stored()), i, rows, Stored());
      return Success(());
    }

    method PinAttempt(i: nat) returns (r: Result<(), Error>)
      requires CP.Linked(Stored()) && i < |attempts|
      modifies this
      ensures var s := old(Stored());
              Wrote(s, i, CP.Pin(i, s.attempts[i], CP.ShotOf(s, i), CP.ProjectOf(s, i)), r)
    {
      var attempt := attempts[i];
      var k, q := attempt.shot, attempt.project;
      var shot := shots[k];
      var pinnedShot := shot.(pinned := Some(i), version := shot.version + 1);
      TagsOne(q, k, i, CP.RunPinned);
      UpdateShot(k, pinnedShot, shot.version);
      AppendEvent(CP.Event(CP.RunPinned, Some(q), Some(k), Some(i)));
      ghost var rows := CP.Rows(attempt, pinnedShot, projects[q], [CP.RunPinned], false, None, false);
      SameStore(old(Stored()), i, rows, Stored());
      return Success(());
    }

    method UnpinAttempt(i: nat) returns (r: Result<(), Error>)
      requires CP.Linked(Stored()) && i < |attempts|
      modifies this
      ensures var s := old(Stored());
              Wrote(s, i, CP.Unpin(i, s.attempts[i], CP.ShotOf(s, i), CP.ProjectOf(s, i)), r)
    {
      var attempt := attempts[i];
      var k, q := attempt.shot, attempt.project;
      var shot := shots[k];
      ghost var rows := CP.Unpin(i, attempt, shot, projects[q]).value;
      TagsOne(q, k, i, CP.RunUnpinned);
      if shot.pinned == Some(i) {
        UpdateShot(k, shot.(pinned := None, version := shot.version + 1), shot.version);
        AppendEvent(CP.Event(CP.RunUnpinned, Some(q), Some(k), Some(i)));
      }
      SameStore(old(Stored()), i, rows, Stored());
      return Success(());
    }

    method ReviewAttempt(i: nat) returns (r: Result<(), Error>)
      requires CP.Linked(Stored()) && i < |attempts|
      modifies this
      ensures var s := old(Stored());
              Wrote(s, i, CP.Review(s.attempts[i], CP.ShotOf(s, i), CP.ProjectOf(s, i)), r)
    {
      var attempt := attempts[i];
      var k, q := attempt.shot, attempt.project;
      var reviewed := attempt.(reviewed := true, version := attempt.version + 1);
      TagsOne(q, k, i, CP.RunReviewed);
      UpdateAttempt(i, reviewed, attempt.version);
      AppendEvent(CP.Event(CP.RunReviewed, Some(q), Some(k), Some(i)));
      ghost var rows := CP.Rows(reviewed, shots[k], projects[q], [CP.RunReviewed], false, None, false);
      SameStore(old(Stored()), i, rows, Stored());
      return Success(());
    }

    // ------------------------------------------------------------ worker transactions

    /** A statement on one queue row: a claim, a heartbeat or a release. */
    method WriteQueueRow(i: nat, next: Attempt)
      requires CP.Linked(Stored()) && i < |attempts|
      requires next.shot == attempts[i].shot && next.project == attempts[i].project
      modifies this`attempts
      ensures var s := old(Stored());
              Stored() == CP.Store(s, i, CP.Unchanged(next, CP.ShotOf(s, i), CP.ProjectOf(s, i)))
    {
      attempts := attempts[i := next];
      SameStore(old(Stored()), i, CP.Unchanged(next, shots[next.shot], projects[next.project]), Stored());
    }

    method RecoverStale(now: int)
      modifies this`attempts
      ensures Stored() == CP.RecoverStale(old(Stored()), now)
    {
      var i := 0;
      while i < |attempts|
        invariant i <= |attempts| == |old(attempts)|
        invariant forall j :: 0 <= j < i ==> attempts[j] == CP.Recovered(old(attempts)[j], now)
        invariant forall j :: i <= j < |attempts| ==> attempts[j] == old(attempts)[j]
      {
        var attempt := attempts[i];
        if attempt.status == Claimed && attempt.leaseExpires.Some? && attempt.leaseExpires.value < now {
          attempts := attempts[i := ClearLease(attempt).(status := Queued, version := attempt.version + 1)];
        }
        i := i + 1;
      }
    }

    method SubmitIntent(i: nat, w: WorkerId, expires: int) returns (r: Result<(), Error>)
      requires CP.Linked(Stored()) && i < |attempts|
      modifies this
      ensures var s := old(Stored());
              Wrote(s, i, CP.SubmitIntent(s.attempts[i], CP.ShotOf(s, i), CP.ProjectOf(s, i), w, expires), r)
    {
      var current := attempts[i];
      var k, q := current.shot, current.project;
      TagsOne(q, k, i, CP.AttemptSubmitted(true));
      if Terminal(current.status) {
        SameStore(old(Stored()), i, CP.Unchanged(current, shots[k], projects[q]), Stored());
        return Success(());
      }
      var next :- MoveAttempt(current, Submitting);
      var leased := ClearLease(next).(leaseOwner := Some(w), leaseExpires := Some(expires));
      UpdateAttempt(i, leased, current.version);
      AppendEvent(CP.Event(CP.AttemptSubmitted(true), Some(q), Some(k), Some(i)));
      ghost var rows := CP.Rows(leased, shots[k], projects[q], [CP.AttemptSubmitted(true)], false, None, false);
      SameStore(old(Stored()), i, rows, Stored());
      return Success(());
    }

    method PersistSubmitted(i: nat, prompt: PromptId) returns (r: Result<(), Error>)
      requires CP.Linked(Stored()) && i < |attempts|
      modifies this
      ensures var s := old(Stored());
              Wrote(s, i, CP.PersistSubmitted(s.attempts[i], CP.ShotOf(s, i), CP.ProjectOf(s, i), prompt,
                                              CP.PromptTaken(s, i, prompt)), r)
    {
      var current := attempts[i];
      var k, q := current.shot, current.project;
      TagsOne(q, k, i, CP.AttemptSubmitted(false));
      if current.prompt == Some(prompt) && current.status != Submitting {
        SameStore(old(Stored()), i, CP.Unchanged(current, shots[k], projects[q]), Stored());
        return Success(());
      }
      var submitted :- MoveAttempt(current, Submitted);
      if CP.PromptTaken(Stored(), i, prompt) { return Failure(UniqueViolation); }
      var withPrompt := submitted.(prompt := Some(prompt));
      UpdateAttempt(i, withPrompt, current.version);
      AppendEvent(CP.Event(CP.AttemptSubmitted(false), Some(q), Some(k), Some(i)));
      ghost var rows := CP.Rows(withPrompt, shots[k], projects[q], [CP.AttemptSubmitted(false)], false, None, false);
      SameStore(old(Stored()), i, rows, Stored());
      return Success(());
    }

    method MarkRunning(i: nat) returns (r: Result<(), Error>)
      requires CP.Linked(Stored()) && i < |attempts|
      modifies this
      ensures var s := old(Stored());
              Wrote(s, i, CP.MarkRunning(s.attempts[i], CP.ShotOf(s, i), CP.ProjectOf(s, i)), r)
    {
      var attempt := attempts[i];
      var k, q := attempt.shot, attempt.project;
      TagsOne(q, k, i, CP.ExecutionStarted);
      if Terminal(attempt.status) || !CP.MayStart(attempt.status) {
        SameStore(old(Stored()), i, CP.Unchanged(attempt, shots[k], projects[q]), Stored());
        return Success(());
      }
      var running :- MoveAttempt(attempt, Running);
      UpdateAttempt(i, running, attempt.version);
      var shot := shots[k];
      if shot.status == ShotQueued {
        var generating :- MoveShot(shot, ShotGenerating);
        UpdateShot(k, generating, shot.version);
      }
      AppendEvent(CP.Event(CP.ExecutionStarted, Some(q), Some(k), Some(i)));
      ghost var rows := CP.Rows(running, shots[k], projects[q], [CP.ExecutionStarted], false, None, false);
      SameStore(old(Stored()), i, rows, Stored());
      return Success(());
    }

    method MarkProgress(i: nat) returns (r: Result<(), Error>)
      requires CP.Linked(Stored()) && i < |attempts|
      modifies this
      ensures var s := old(Stored());
              Wrote(s, i, CP.MarkProgress(s.attempts[i], CP.ShotOf(s, i), CP.ProjectOf(s, i)), r)
    {
      var attempt := attempts[i];
      var k, q := attempt.shot, attempt.project;
      ghost var rows := CP.MarkProgress(attempt, shots[k], projects[q]).value;
      TagsOne(q, k, i, CP.ExecutionProgress);
      if !Terminal(attempt.status) { AppendEvent(CP.Event(CP.ExecutionProgress, Some(q), Some(k), Some(i))); }
      SameStore(old(Stored()), i, rows, Stored());
      return Success(());
    }

    method FailAttempt(i: nat, ending: CP.Ending, code: FailureCode) returns (r: Result<(), Error>)
      requires CP.Linked(Stored()) && i < |attempts|
      modifies this
      ensures var s := old(Stored());
              Wrote(s, i, CP.FailAttempt(s.attempts[i], CP.ShotOf(s, i), CP.ProjectOf(s, i), ending, code), r)
    {
      var attempt := attempts[i];
      var k, q := attempt.shot, attempt.project;
      TagsOne(q, k, i, CP.EndEvent(ending));
      if Terminal(attempt.status) {
        SameStore(old(Stored()), i, CP.Unchanged(attempt, shots[k], projects[q]), Stored());
        return Success(());
      }
      var ended :- MoveAttempt(attempt, CP.EndStatus(ending));
      var failed := ClearLease(ended).(failure := Some(code));
      var _ :- EndRecords(i, failed, ending, code);
      AppendEvent(CP.Event(CP.EndEvent(ending), Some(q), Some(k), Some(i)));
      ghost var rows := CP.Rows(failed, shots[k], projects[q], [CP.EndEvent(ending)], false, None, false);
      SameStore(old(Stored()), i, rows, Stored());
      return Success(());
    }

    method EndRecords(i: nat, failed: Attempt, ending: CP.Ending, code: FailureCode) returns (r: Result<(), Error>)
      requires i < |attempts| && attempts[i].shot < |shots| && attempts[i].project < |projects|
      modifies this`attempts, this`shots, this`projects
      ensures var a := old(attempts)[i];
              var sh' := CP.EndShot(old(shots)[a.shot], ending, code);
              var p' := CP.EndProject(old(projects)[a.project], ending, code);
              match r
              case Failure(error) => if sh'.Failure? then error == sh'.error else p'.Failure? && error == p'.error
              case Success(_) =>
                && sh'.Success? && p'.Success? && attempts == old(attempts)[i := failed]
                && shots == old(shots)[a.shot := sh'.value] && projects == old(projects)[a.project := p'.value]
    {
      var k, q := attempts[i].shot, attempts[i].project;
      UpdateAttempt(i, failed, attempts[i].version);
      var _ :- EndShot(k, ending, code);
      r := EndProject(q, ending, code);
    }

    method EndShot(k: nat, ending: CP.Ending, code: FailureCode) returns (r: Result<(), Error>)
      requires k < |shots|
      modifies this`shots
      ensures WroteShot(old(shots), k, CP.EndShot(old(shots)[k], ending, code), r)
    {
      var shot := shots[k];
      if shot.status == ShotQueued || shot.status == ShotGenerating {
        var moved :- MoveShot(shot, CP.FailedShot(ending, code));
        UpdateShot(k, moved, shot.version);
      }
      return Success(());
    }

    method EndProject(q: nat, ending: CP.Ending, code: FailureCode) returns (r: Result<(), Error>)
      requires q < |projects|
      modifies this`projects
      ensures WroteProject(old(projects), q, CP.EndProject(old(projects)[q], ending, code), r)
    {
      var project := projects[q];
      if project.status == ProjectGenerating {
        var moved :- MoveProject(project, CP.FailedProject(ending, code));
        UpdateProject(q, moved, project.version);
      }
      return Success(());
    }

    ghost predicate WroteShot(before: seq<Shot>, k: nat, row: Result<Shot, Error>, r: Result<(), Error>)
      requires k < |before|
      reads this
    {
      match r
      case Success(_) => row.Success? && shots == before[k := row.value]
      case Failure(error) => row == Failure(error)
    }

    ghost predicate WroteProject(before: seq<Project>, q: nat, row: Result<Project, Error>, r: Result<(), Error>)
      requires q < |before|
      reads this
    {
      match r
      case Success(_) => row.Success? && projects == before[q := row.value]
      case Failure(error) => row == Failure(error)
    }

    // ------------------------------------------------------------- finishing a success

    method JudgeShot(k: nat, verdict: Verdict) returns (r: Result<(), Error>)
      requires k < |shots|
      modifies this`shots
      ensures WroteShot(old(shots), k, CP.JudgedShot(old(shots)[k], verdict), r)
    {
      var shot := shots[k];
      if verdict == Passed {
        if shot.status == ShotGenerating {
          var moved :- MoveShot(shot, ShotInReview);
          UpdateShot(k, moved, shot.version);
        }
      } else if shot.status == ShotGenerating || shot.status == ShotQueued {
        var moved :- MoveShot(shot, ShotFailed);
        UpdateShot(k, moved, shot.version);
      }
      return Success(());
    }

    method JudgeProject(q: nat, verdict: Verdict) returns (r: Result<(), Error>)
      requires q < |projects|
      modifies this`projects
      ensures WroteProject(old(projects), q, CP.JudgedProject(old(projects)[q], verdict), r)
    {
      var project := projects[q];
      if project.status == ProjectGenerating {
        var moved :- MoveProject(project, if verdict == Passed then AwaitingFinalReview else ProjectFailed);
        UpdateProject(q, moved, project.version);
      }
      return Success(());
    }

    /** Takes whatever transitions are left on the way to evaluating. */
    method Advance(current: Attempt) returns (r: Result<Attempt, Error>)
      ensures r == CP.ToEvaluating(current)
    {
      var working := current;
      if working.status == Claimed {
        working := MoveAttempt(working, Submitting).value;
        working := MoveAttempt(working, Submitted).value;
      }
      if CP.MayStart(working.status) { working :- MoveAttempt(working, Running); }
      if working.status == Running { working := MoveAttempt(working, Generated).value; }
      if working.status == Generated { working := MoveAttempt(working, Evaluating).value; }
      return Success(working);
    }

    /** Whether the log grew by exactly these events of attempt i. */
    ghost predicate Logged(s: CP.State, i: nat, kinds: seq<CP.EventKind>)
      requires i < |s.attempts|
      reads this
    {
      var tags := CP.Tagged(s.attempts[i].project, s.attempts[i].shot, i, kinds);
      events == s.events + tags && outbox == s.outbox + tags
    }

    method LogAttempt(i: nat, q: nat, k: nat, kind: CP.EventKind, ghost s: CP.State, ghost kinds: seq<CP.EventKind>)
      requires i < |s.attempts| && q == s.attempts[i].project && k == s.attempts[i].shot && Logged(s, i, kinds)
      modifies this`events, this`outbox
      ensures Logged(s, i, kinds + [kind])
    {
      AppendEvent(CP.Event(kind, Some(q), Some(k), Some(i)));
      TagsAppend(q, k, i, kinds, kind);
    }

    method LogGenerated(i: nat, current: Attempt, ghost s: CP.State) returns (ghost kinds: seq<CP.EventKind>)
      requires i < |s.attempts| && current == s.attempts[i] && Logged(s, i, [])
      modifies this`events, this`outbox
      ensures kinds == (if current.status != Evaluating then [CP.AttemptGenerated, CP.AttemptEvaluating] else [])
              && Logged(s, i, kinds)
    {
      kinds := [];
      if current.status != Evaluating {
        LogAttempt(i, current.project, current.shot, CP.AttemptGenerated, s, kinds);
        kinds := kinds + [CP.AttemptGenerated];
        LogAttempt(i, current.project, current.shot, CP.AttemptEvaluating, s, kinds);
        kinds := kinds + [CP.AttemptEvaluating];
      }
    }

    method StoreJudgement(i: nat, current: Attempt, working: Attempt, sawArtifact: bool,
                          sawEvaluation: Option<Verdict>, verdict: Verdict)
      returns (r: Result<(), Error>)
      requires CP.Linked(Stored()) && i < |attempts| && attempts[i] == current && i in artifacts
      requires working == current.(status := Evaluating, version := working.version)
      requires sawEvaluation.Some? ==> CP.EvaluationOf(Stored(), i) == sawEvaluation == Some(verdict)
      modifies this
      ensures var s := old(Stored());
              Wrote(s, i, CP.Judge(current, working, CP.ShotOf(s, i), CP.ProjectOf(s, i), CP.EvaluationOf(s, i),
                                   sawArtifact, sawEvaluation, verdict), r)
    {
      var k, q := current.shot, current.project;
      ghost var s := Stored();
      UpdateAttempt(i, working, current.version);
      ghost var kinds := LogGenerated(i, current, s);
      JudgeWith(current, working, shots[k], projects[q], CP.EvaluationOf(s, i), sawArtifact, sawEvaluation, verdict,
                kinds);
      var _ :- StoreEvaluation(i, sawEvaluation, verdict);
      var _ :- WriteJudgement(i, working, verdict);
      kinds := LogFinished(i, current, sawArtifact, sawEvaluation, verdict, s, kinds);
      SameStore(s, i, CP.Rows(attempts[i], shots[k], projects[q], kinds, true, Some(verdict), false), Stored());
      return Success(());
    }

    method StoreEvaluation(i: nat, sawEvaluation: Option<Verdict>, verdict: Verdict) returns (r: Result<(), Error>)
      requires sawEvaluation.Some? ==> i in evaluations && evaluations[i] == verdict
      modifies this`evaluations
      ensures r == if sawEvaluation.None? && i in old(evaluations) then Failure(UniqueViolation) else Success(())
      ensures r.Success? ==> evaluations == old(evaluations)[i := verdict]
    {
      if sawEvaluation.None? {
        if i in evaluations { return Failure(UniqueViolation); }
        evaluations := evaluations[i := verdict];
      }
      return Success(());
    }

    method WriteJudgement(i: nat, working: Attempt, verdict: Verdict) returns (r: Result<(), Error>)
      requires i < |attempts| && attempts[i] == working && working.shot < |shots| && working.project < |projects|
      modifies this`attempts, this`shots, this`projects
      ensures var judged := CP.JudgedRecords(working, old(shots)[working.shot], old(projects)[working.project],
                                             verdict);
              match r
              case Failure(error) => judged == Failure(error)
              case Success(_) =>
                && judged.Success? && attempts == old(attempts)[i := judged.value.0]
                && shots == old(shots)[working.shot := judged.value.1]
                && projects == old(projects)[working.project := judged.value.2]
    {
      var judged :- CP.JudgedAttempt(working, verdict);
      UpdateAttempt(i, judged, working.version);
      var _ :- JudgeShot(working.shot, verdict);
      var _ :- JudgeProject(working.project, verdict);
      return Success(());
    }

    method LogFinished(i: nat, current: Attempt, sawArtifact: bool, sawEvaluation: Option<Verdict>, verdict: Verdict,
                       ghost s: CP.State, ghost before: seq<CP.EventKind>)
      returns (ghost kinds: seq<CP.EventKind>)
      requires i < |s.attempts| && current == s.attempts[i] && Logged(s, i, before)
      modifies this`events, this`outbox
      ensures kinds == before + (if sawArtifact then [] else [CP.ArtifactStored])
                       + (if sawEvaluation.Some? then [] else [CP.EvaluationCompleted(verdict)])
      ensures Logged(s, i, kinds)
    {
      kinds := before;
      if !sawArtifact {
        LogAttempt(i, current.project, current.shot, CP.ArtifactStored, s, kinds);
        kinds := kinds + [CP.ArtifactStored];
      }
      if sawEvaluation.None? {
        LogAttempt(i, current.project, current.shot, CP.EvaluationCompleted(verdict), s, kinds);
        kinds := kinds + [CP.EvaluationCompleted(verdict)];
      }
    }

    method FinishSuccess(i: nat, sawArtifact: bool, sawEvaluation: Option<Verdict>, verdict: Verdict)
      returns (r: Result<(), Error>)
      requires CP.Linked(Stored()) && i < |attempts|
      requires sawArtifact ==> i in artifacts
      requires sawEvaluation.Some? ==> CP.EvaluationOf(Stored(), i) == sawEvaluation == Some(verdict)
      modifies this
      ensures var s := old(Stored());
              Wrote(s, i, CP.FinishSuccess(s.attempts[i], CP.ShotOf(s, i), CP.ProjectOf(s, i), i in s.artifacts,
                                           CP.EvaluationOf(s, i),
                                           sawArtifact, sawEvaluation, verdict), r)
    {
      var current := attempts[i];
      var k, q := current.shot, current.project;
      if Terminal(current.status) {
        SameStore(old(Stored()), i, CP.Unchanged(current, shots[k], projects[q]), Stored());
        return Success(());
      }
      if !sawArtifact {
        if i in artifacts { return Failure(UniqueViolation); }
        artifacts := artifacts + {i};
      }
      var working :- Advance(current);
      LifecycleSteps.ToEvaluatingShape(current);
      if working.status != Evaluating {
        SameStore(old(Stored()), i, CP.Unchanged(current, shots[k], projects[q]).(artifact := true), Stored());
        return Success(());
      }
      ghost var mid := Stored();
      r := StoreJudgement(i, current, working, sawArtifact, sawEvaluation, verdict);
      SameJudgement(old(Stored()), mid, i, working, sawArtifact, sawEvaluation, verdict);
    }

    // -------------------------------------------------------------------- withTransaction

    method RunOnQueue(step: Step)
      requires CP.Linked(Stored()) && CP.OnQueue(step) && step.i < |attempts|
      modifies this
      ensures Wrote(old(Stored()), step.i, CP.Effect(old(Stored()), step), Success(()))
    {
      var a := attempts[step.i];
      match step {
        case StepClaimNext(i, w, now, expires) =>
          WriteQueueRow(i, CP.ClaimNext(a, w, now, expires, CP.HoldsLease(Stored(), w, now)));
        case StepClaimForRecovery(i, w, now, expires) =>
          WriteQueueRow(i, CP.ClaimForRecovery(a, w, now, expires, CP.HoldsLease(Stored(), w, now)));
        case StepHeartbeat(i, w, expires) => WriteQueueRow(i, CP.Heartbeat(a, w, expires));
        case StepRelease(i, w) => WriteQueueRow(i, CP.Release(a, w));
      }
    }

    method RunOnAttempt(step: Step) returns (r: Result<(), Error>)
      requires CP.Linked(Stored()) && CP.OnAttempt(step) && step.i < |attempts|
      modifies this
      ensures Wrote(old(Stored()), step.i, CP.Effect(old(Stored()), step), r)
    {
      if CP.OnQueue(step) {
        RunOnQueue(step);
        return Success(());
      }
      match step {
        case StepPin(i) => r := PinAttempt(i);
        case StepUnpin(i) => r := UnpinAttempt(i);
        case StepReview(i) => r := ReviewAttempt(i);
        case StepAccept(i) => r := AcceptAttempt(i);
        case StepReject(i) => r := RejectAttempt(i);
        case StepSubmitIntent(i, w, expires) => r := SubmitIntent(i, w, expires);
        case StepPersistSubmitted(i, prompt) => r := PersistSubmitted(i, prompt);
        case StepMarkRunning(i) => r := MarkRunning(i);
        case StepMarkProgress(i) => r := MarkProgress(i);
        case StepFinishSuccess(i, sawArtifact, sawEvaluation, verdict) =>
          r := RunFinish(i, sawArtifact, sawEvaluation, verdict);
        case StepFailAttempt(i, ending, code) => r := FailAttempt(i, ending, code);
      }
    }

    /** finishSuccess with what it read in its earlier transactions. */
    method RunFinish(i: nat, sawArtifact: bool, sawEvaluation: Option<Verdict>, verdict: Verdict)
      returns (r: Result<(), Error>)
      requires CP.Linked(Stored()) && i < |attempts|
      modifies this
      ensures var s := old(Stored());
              Wrote(s, i, CP.FinishObserved(s.attempts[i], CP.ShotOf(s, i), CP.ProjectOf(s, i), i in s.artifacts,
                                            CP.EvaluationOf(s, i),
                                            sawArtifact, sawEvaluation, verdict), r)
    {
      if (sawArtifact ==> i in artifacts)
         && (sawEvaluation.Some? ==> CP.EvaluationOf(Stored(), i) == sawEvaluation == Some(verdict)) {
        r := FinishSuccess(i, sawArtifact, sawEvaluation, verdict);
      } else {
        r := Success(());
        var a := attempts[i];
        SameStore(old(Stored()), i, CP.Unchanged(a, shots[a.shot], projects[a.project]), Stored());
      }
    }

    method RunElsewhere(step: Step) returns (r: Result<(), Error>)
      requires CP.Linked(Stored()) && !CP.OnAttempt(step)
      modifies this
      ensures Agrees(r, CP.TransactElsewhere(old(Stored()), step))
    {
      match step {
        case StepCreateProject(ready, budget) => r := CreateProject(CP.InitialStatus(ready), budget);
        case StepPrepareDirectRun(q) => r := PrepareDirectRun(q);
        case StepCreateShot(q) => r := CreateShot(q);
        case StepCreateAttempt(k, workflow, cost, key) => r := CreateAttempt(k, workflow, cost, key, None);
        case StepRetry(i, workflow, cost, key, resolveUncertain) =>
          r := RetryAttempt(i, workflow, cost, key, resolveUncertain);
        case StepRecoverStale(now) => RecoverStale(now); r := Success(());
        case StepNote(event) =>
          if CP.Informative(event.kind) { AppendEvent(event); }
          r := Success(());
      }
    }

    method Execute(step: Step) returns (r: Result<(), Error>)
      requires CP.Linked(Stored())
      modifies this
      ensures Agrees(r, CP.Transact(old(Stored()), step))
    {
      if !CP.OnAttempt(step) {
        r := RunElsewhere(step);
      } else if step.i < |attempts| {
        r := RunOnAttempt(step);
      } else if CP.NeedsAttempt(step) {
        r := Failure(NotFound);
      } else {
        r := Success(());
      }
    }

    /** Whatever the work wrote before it threw is undone, so a transaction either commits all of
        its specification or leaves the store alone; either way the lifecycle invariant survives. */
    method WithTransaction(step: Step) returns (r: Result<(), Error>)
      requires Inv(Stored())
      modifies this
      ensures Inv(Stored()) && Stored() == CP.Apply(old(Stored()), step)
      ensures r.Success? <==> CP.Transact(old(Stored()), step).Success?
      ensures r.Failure? ==> CP.Transact(old(Stored()), step) == Failure(r.error) && Stored() == old(Stored())
    {
      var before := Stored();
      LifecycleSteps.StepKeeps(before, step);
      r := Execute(step);
      if r.Failure? { Restore(before); }
    }
  }
}
