/** The append-only event log tells the stored status of every attempt. */
module EventLog {
  import opened Wrappers
  import opened Domain
  import opened ControlPlane
  import opened Lifecycle
  import LifecycleSteps

  /** The attempt status an event announces, if any. */
  function StatusOf(kind: EventKind): Option<AttemptStatus> {
    match kind
    case AttemptQueued => Some(Queued)
    case AttemptSubmitted(intent) => Some(if intent then Submitting else Submitted)
    case ExecutionStarted => Some(Running)
    case AttemptGenerated => Some(Generated)
    case AttemptEvaluating => Some(Evaluating)
    case EvaluationCompleted(verdict) => Some(if verdict == Passed then AwaitingReview else Failed)
    case AttemptFailed => Some(Failed)
    case AttemptTimedOut => Some(TimedOut)
    case AttemptCancelled => Some(Cancelled)
    case AttemptAccepted => Some(Accepted)
    case AttemptRejected => Some(Rejected)
    case _ => None
  }

  function Told(kind: EventKind, before: Option<AttemptStatus>): Option<AttemptStatus> {
    if StatusOf(kind).Some? then StatusOf(kind) else before
  }

  /** Replaying a log for attempt i, starting from what was known before. */
  function Replay(events: seq<Event>, i: nat, before: Option<AttemptStatus>): Option<AttemptStatus> {
    if events == [] then before
    else Replay(events[1..], i, if events[0].attempt == Some(i) then Told(events[0].kind, before) else before)
  }

  /** Claims are not logged, so a claimed attempt reads as queued. */
  function AsLogged(status: AttemptStatus): AttemptStatus {
    if status == Claimed then Queued else status
  }

  ghost predicate LogMatches(s: State) {
    && s.outbox == s.events
    && (forall i :: 0 <= i < |s.attempts| ==> Replay(s.events, i, None) == Some(AsLogged(s.attempts[i].status)))
    && (forall i: nat :: |s.attempts| <= i ==> Replay(s.events, i, None) == None)
  }

  lemma {:induction false} ReplayAppend(xs: seq<Event>, ys: seq<Event>, i: nat, before: Option<AttemptStatus>)
    ensures Replay(xs + ys, i, before) == Replay(ys, i, Replay(xs, i, before))
  {
    if xs == [] {
      assert xs + ys == ys;
    } else {
      assert (xs + ys)[1..] == xs[1..] + ys;
      ReplayAppend(xs[1..], ys, i, if xs[0].attempt == Some(i) then Told(xs[0].kind, before) else before);
    }
  }

  function ReplayKinds(kinds: seq<EventKind>, before: Option<AttemptStatus>): Option<AttemptStatus> {
    if kinds == [] then before else ReplayKinds(kinds[1..], Told(kinds[0], before))
  }

  lemma {:induction false} ReplayTagged(q: nat, k: nat, i: nat, kinds: seq<EventKind>, j: nat,
                                        before: Option<AttemptStatus>)
    ensures Replay(Tagged(q, k, i, kinds), j, before) == if j == i then ReplayKinds(kinds, before) else before
  {
    if kinds != [] {
      var evs := Tagged(q, k, i, kinds);
      assert evs[1..] == Tagged(q, k, i, kinds[1..]);
      ReplayTagged(q, k, i, kinds[1..], j, if j == i then Told(kinds[0], before) else before);
    }
  }

  lemma SilentEvent(event: Event, j: nat, before: Option<AttemptStatus>)
    requires event.attempt != Some(j) || StatusOf(event.kind).None?
    ensures Replay([event], j, before) == before
  {
    assert [event][1..] == [];
  }

  /** The events a transaction logs for an attempt say where its status went. */
  predicate Faithful(v: View, r: Rows) {
    ReplayKinds(r.kinds, Some(AsLogged(v.attempt.status))) == Some(AsLogged(r.attempt.status))
  }

  lemma StoreLogs(s: State, i: nat, r: Rows)
    requires Linked(s) && LogMatches(s) && i < |s.attempts| && Faithful(ViewOf(s, i), r)
    ensures LogMatches(Store(s, i, r))
  {
    var s' := Store(s, i, r);
    var q, k := s.attempts[i].project, s.attempts[i].shot;
    var tail := if r.completes then [Event(ProjectCompleted, Some(q), None, None)] else [];
    assert s'.events == s.events + (Tagged(q, k, i, r.kinds) + tail);
    forall j: nat
      ensures Replay(s'.events, j, None)
              == if j == i then ReplayKinds(r.kinds, Replay(s.events, i, None)) else Replay(s.events, j, None)
    {
      var before := Replay(s.events, j, None);
      ReplayAppend(s.events, Tagged(q, k, i, r.kinds) + tail, j, None);
      ReplayAppend(Tagged(q, k, i, r.kinds), tail, j, before);
      ReplayTagged(q, k, i, r.kinds, j, before);
      if r.completes { SilentEvent(tail[0], j, Replay(Tagged(q, k, i, r.kinds), j, before)); }
    }
  }

  lemma OneKind(kind: EventKind, before: Option<AttemptStatus>)
    ensures ReplayKinds([kind], before) == Told(kind, before)
  {
    assert [kind][1..] == [];
  }

  lemma EvaluationKinds(verdict: Verdict, before: Option<AttemptStatus>)
    ensures ReplayKinds([AttemptGenerated, AttemptEvaluating, ArtifactStored, EvaluationCompleted(verdict)], before)
            == Some(if verdict == Passed then AwaitingReview else Failed)
  {
    var kinds := [AttemptGenerated, AttemptEvaluating, ArtifactStored, EvaluationCompleted(verdict)];
    assert kinds[1..] == [AttemptEvaluating, ArtifactStored, EvaluationCompleted(verdict)];
    assert kinds[1..][1..] == [ArtifactStored, EvaluationCompleted(verdict)];
    assert kinds[1..][1..][1..] == [EvaluationCompleted(verdict)];
    assert ReplayKinds(kinds, before) == ReplayKinds(kinds[1..], Some(Generated));
    assert ReplayKinds(kinds[1..], Some(Generated)) == ReplayKinds(kinds[1..][1..], Some(Evaluating));
    assert ReplayKinds(kinds[1..][1..], Some(Evaluating))
           == ReplayKinds([EvaluationCompleted(verdict)], Some(Evaluating));
    OneKind(EvaluationCompleted(verdict), Some(Evaluating));
  }

  lemma FinishIsFaithful(v: View, sawArtifact: bool, sawEvaluation: Option<Verdict>, verdict: Verdict)
    requires Consistent(v)
    requires (sawArtifact ==> v.artifact) && (sawEvaluation.Some? ==> v.evaluation == sawEvaluation == Some(verdict))
    requires FinishSuccess(v.attempt, v.shot, v.project, v.artifact, v.evaluation, sawArtifact, sawEvaluation,
                           verdict).Success?
    ensures Faithful(v, FinishSuccess(v.attempt, v.shot, v.project, v.artifact, v.evaluation, sawArtifact,
                                      sawEvaluation, verdict).value)
  {
    if PreReview(v.attempt) {
      LifecycleSteps.JudgedShape(v, sawArtifact, sawEvaluation, verdict);
      EvaluationKinds(verdict, Some(AsLogged(v.attempt.status)));
    } else {
      LifecycleSteps.ToEvaluatingShape(v.attempt);
    }
  }

  /** Transactions that log at most one event announce exactly the status they leave. */
  predicate Announced(v: View, r: Rows) {
    || (r.kinds == [] && AsLogged(r.attempt.status) == AsLogged(v.attempt.status))
    || (|r.kinds| == 1 && Told(r.kinds[0], Some(AsLogged(v.attempt.status))) == Some(AsLogged(r.attempt.status)))
  }

  lemma AnnouncedIsFaithful(v: View, r: Rows)
    requires Announced(v, r)
    ensures Faithful(v, r)
  {
    if |r.kinds| == 1 {
      assert r.kinds == [r.kinds[0]];
      OneKind(r.kinds[0], Some(AsLogged(v.attempt.status)));
    }
  }

  lemma ApiIsAnnounced(v: View)
    ensures Announced(v, Pin(v.id, v.attempt, v.shot, v.project).value)
    ensures Announced(v, Unpin(v.id, v.attempt, v.shot, v.project).value)
    ensures Announced(v, Review(v.attempt, v.shot, v.project).value)
  {
  }

  lemma VerdictIsAnnounced(v: View)
    ensures var r := Accept(v.id, v.attempt, v.shot, v.project, v.evaluation, v.othersAccepted);
            r.Success? ==> Announced(v, r.value)
    ensures var r := Reject(v.attempt, v.shot, v.project); r.Success? ==> Announced(v, r.value)
  {
  }

  lemma FailureIsAnnounced(v: View, ending: Ending, code: FailureCode)
    ensures var r := FailAttempt(v.attempt, v.shot, v.project, ending, code); r.Success? ==> Announced(v, r.value)
  {
  }

  lemma WorkerIsAnnounced(v: View, w: WorkerId, expires: int, prompt: PromptId, taken: bool)
    ensures var r := SubmitIntent(v.attempt, v.shot, v.project, w, expires); r.Success? ==> Announced(v, r.value)
    ensures var r := PersistSubmitted(v.attempt, v.shot, v.project, prompt, taken); r.Success? ==> Announced(v, r.value)
    ensures var r := MarkRunning(v.attempt, v.shot, v.project); r.Success? ==> Announced(v, r.value)
    ensures var r := MarkProgress(v.attempt, v.shot, v.project); r.Success? ==> Announced(v, r.value)
  {
  }

  lemma EffectIsFaithful(s: State, step: Step)
    requires Linked(s) && OnAttempt(step) && step.i < |s.attempts| && Consistent(ViewOf(s, step.i))
    requires Effect(s, step).Success?
    ensures Faithful(ViewOf(s, step.i), Effect(s, step).value)
  {
    var v := ViewOf(s, step.i);
    match step {
      case StepPin(_) => ApiIsAnnounced(v);
      case StepUnpin(_) => ApiIsAnnounced(v);
      case StepReview(_) => ApiIsAnnounced(v);
      case StepAccept(_) => VerdictIsAnnounced(v);
      case StepReject(_) => VerdictIsAnnounced(v);
      case StepSubmitIntent(_, w, expires) => WorkerIsAnnounced(v, w, expires, 0, false);
      case StepPersistSubmitted(_, prompt) =>
        WorkerIsAnnounced(v, 0, 0, prompt, PromptTaken(s, step.i, prompt));
      case StepMarkRunning(_) => WorkerIsAnnounced(v, 0, 0, 0, false);
      case StepMarkProgress(_) => WorkerIsAnnounced(v, 0, 0, 0, false);
      case StepFailAttempt(_, ending, code) => FailureIsAnnounced(v, ending, code);
      case StepFinishSuccess(_, sawArtifact, sawEvaluation, verdict) =>
        if (sawArtifact ==> v.artifact) && (sawEvaluation.Some? ==> v.evaluation == sawEvaluation == Some(verdict)) {
          FinishIsFaithful(v, sawArtifact, sawEvaluation, verdict);
        }
      case _ =>
    }
    if !step.StepFinishSuccess? { AnnouncedIsFaithful(v, Effect(s, step).value); }
  }

  lemma AppendLogs(s: State, s': State, evs: seq<Event>)
    requires LogMatches(s) && s'.events == s.events + evs && s'.outbox == s.outbox + evs && s'.attempts == s.attempts
    requires forall n :: 0 <= n < |evs| ==> StatusOf(evs[n].kind).None?
    ensures LogMatches(s')
  {
    forall j: nat ensures Replay(s'.events, j, None) == Replay(s.events, j, None) {
      ReplayAppend(s.events, evs, j, None);
      SilentEvents(evs, j, Replay(s.events, j, None));
    }
  }

  lemma {:induction false} SilentEvents(evs: seq<Event>, j: nat, before: Option<AttemptStatus>)
    requires forall n :: 0 <= n < |evs| ==> StatusOf(evs[n].kind).None?
    ensures Replay(evs, j, before) == before
  {
    if evs != [] { SilentEvents(evs[1..], j, before); }
  }

  lemma CreateLogs(s: State, k: nat, workflow: Workflow, cost: nat, key: nat, source: Option<nat>)
    requires Linked(s) && LogMatches(s) && CreateAttempt(s, k, workflow, cost, key, source).Success?
    ensures LogMatches(CreateAttempt(s, k, workflow, cost, key, source).value)
  {
    var s' := CreateAttempt(s, k, workflow, cost, key, source).value;
    var i, q := |s.attempts|, s.shots[k].project;
    var queued := [Event(AttemptQueued, Some(q), Some(k), Some(i))];
    var derived := if source.Some? then [Event(AttemptRegenerated(source.value), Some(q), Some(k), Some(i))] else [];
    assert s'.events == s.events + (queued + derived);
    forall j: nat ensures Replay(s'.events, j, None) == if j == i then Some(Queued) else Replay(s.events, j, None) {
      var before := Replay(s.events, j, None);
      ReplayAppend(s.events, queued + derived, j, None);
      ReplayAppend(queued, derived, j, before);
      assert queued[1..] == [];
      SilentEvents(derived, j, Replay(queued, j, before));
    }
    assert s'.attempts[i].status == Queued;
  }

  lemma StepLogs(s: State, step: Step)
    requires Inv(s) && LogMatches(s)
    ensures LogMatches(Apply(s, step))
  {
    if Transact(s, step).Success? {
      if OnAttempt(step) { AttemptStepLogs(s, step); } else { OtherStepLogs(s, step); }
    }
  }

  lemma AttemptStepLogs(s: State, step: Step)
    requires Inv(s) && LogMatches(s) && OnAttempt(step) && TransactOnAttempt(s, step).Success?
    ensures LogMatches(TransactOnAttempt(s, step).value)
  {
    if step.i < |s.attempts| {
      ViewIsConsistent(s, step.i);
      EffectIsFaithful(s, step);
      StoreLogs(s, step.i, Effect(s, step).value);
    }
  }

  lemma OtherStepLogs(s: State, step: Step)
    requires Linked(s) && LogMatches(s) && !OnAttempt(step) && TransactElsewhere(s, step).Success?
    ensures LogMatches(TransactElsewhere(s, step).value)
  {
    var s' := TransactElsewhere(s, step).value;
    match step {
      case StepCreateAttempt(k, workflow, cost, key) => CreateLogs(s, k, workflow, cost, key, None);
      case StepRetry(i, workflow, cost, key, resolve) =>
        CreateLogs(s, s.attempts[i].shot, workflow, cost, key, Some(i));
      case StepRecoverStale(now) => LifecycleSteps.RecoverStaleShape(s, now);
      case StepPrepareDirectRun(q) => if s' != s { AppendLogs(s, s', [Event(ProjectReady, Some(q), None, None)]); }
      case StepCreateShot(q) => AppendLogs(s, s', [Event(ShotCreated, Some(q), Some(|s.shots|), None)]);
      case StepCreateProject(ready, budget) =>
        AppendLogs(s, s', [Event(ProjectCreated, Some(|s.projects|), None, None)]
                          + (if ready then [Event(ProjectReady, Some(|s.projects|), None, None)] else []));
      case StepNote(event) => if Informative(event.kind) { AppendLogs(s, s', [event]); }
    }
  }
}
