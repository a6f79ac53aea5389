/** Claiming, announcing and submitting an attempt when several workers crash, stall past their
    leases and recover each other's work (GenerationWorker in apps/api/src/generation.ts). */
module Submission {
  import opened Wrappers
  import opened Domain
  import opened ControlPlane
  import opened Lifecycle
  import LifecycleSteps
  import Runs

  // ------------------------------------------------------------------ intents in the log

  function Intent(event: Event, i: nat): nat {
    if event.kind == AttemptSubmitted(true) && event.attempt == Some(i) then 1 else 0
  }

  /** How many claimed -> submitting commits of attempt i the log holds. */
  function Intents(events: seq<Event>, i: nat): nat {
    if events == [] then 0 else Intents(events[..|events| - 1], i) + Intent(events[|events| - 1], i)
  }

  lemma {:induction false} IntentsAppend(xs: seq<Event>, ys: seq<Event>, i: nat)
    ensures Intents(xs + ys, i) == Intents(xs, i) + Intents(ys, i)
  {
    if ys == [] {
      assert xs + ys == xs;
    } else {
      assert (xs + ys)[..|xs + ys| - 1] == xs + ys[..|ys| - 1];
      IntentsAppend(xs, ys[..|ys| - 1], i);
    }
  }

  function IntentKinds(kinds: seq<EventKind>): nat {
    if kinds == [] then 0 else (if kinds[0] == AttemptSubmitted(true) then 1 else 0) + IntentKinds(kinds[1..])
  }

  lemma {:induction false} TaggedIntents(q: nat, k: nat, i: nat, kinds: seq<EventKind>, j: nat)
    ensures Intents(Tagged(q, k, i, kinds), j) == if j == i then IntentKinds(kinds) else 0
  {
    if kinds != [] {
      var first := [Event(kinds[0], Some(q), Some(k), Some(i))];
      TaggedIntents(q, k, i, kinds[1..], j);
      IntentsAppend(first, Tagged(q, k, i, kinds[1..]), j);
      assert first[..0] == [];
    }
  }

  predicate PastIntent(status: AttemptStatus) {
    || status == Submitting || status == Submitted || status == Running
    || status == AwaitingReview || status == Accepted || status == Rejected
  }

  /** What the number of intents says about an attempt: none before submitting, exactly one from
      then on to review, and one behind every recorded prompt. */
  predicate Fits(a: Attempt, intents: nat) {
    && intents <= 1
    && (a.status == Queued || a.status == Claimed ==> intents == 0)
    && (PastIntent(a.status) ==> intents == 1)
    && (a.prompt.Some? ==> intents == 1)
  }

  ghost predicate IntentsFit(s: State) {
    && (forall i :: 0 <= i < |s.attempts| ==> Fits(s.attempts[i], Intents(s.events, i)))
    && (forall i: nat :: |s.attempts| <= i ==> Intents(s.events, i) == 0)
  }

  lemma StoreFits(s: State, i: nat, r: Rows)
    requires Linked(s) && IntentsFit(s) && i < |s.attempts|
    requires Fits(r.attempt, Intents(s.events, i) + IntentKinds(r.kinds))
    ensures IntentsFit(Store(s, i, r))
  {
    var s' := Store(s, i, r);
    var q := s.attempts[i].project;
    var tags := Tagged(q, s.attempts[i].shot, i, r.kinds);
    var tail := if r.completes then [Event(ProjectCompleted, Some(q), None, None)] else [];
    forall j: nat ensures Intents(s'.events, j) == Intents(s.events, j) + (if j == i then IntentKinds(r.kinds) else 0) {
      IntentsAppend(s.events, tags + tail, j);
      IntentsAppend(tags, tail, j);
      TaggedIntents(q, s.attempts[i].shot, i, r.kinds, j);
      assert |tail| == 1 ==> tail[..0] == [];
    }
  }

  /** Transactions that only the worker holding the attempt runs. */
  predicate WorkerOnly(step: Step) {
    || step.StepClaimNext? || step.StepClaimForRecovery? || step.StepSubmitIntent? || step.StepPersistSubmitted?
    || step.StepMarkRunning? || step.StepMarkProgress? || step.StepFinishSuccess? || step.StepFailAttempt?
  }

  /** The worker transactions that go past submission. */
  predicate PastSubmission(step: Step) { step.StepMarkRunning? || step.StepFinishSuccess? }

  lemma OneIntentKind(kind: EventKind)
    ensures IntentKinds([kind]) == if kind == AttemptSubmitted(true) then 1 else 0
  {
    assert [kind][1..] == [];
  }

  lemma ReviewFits(v: View, n: nat)
    requires Fits(v.attempt, n)
    ensures Fits(Pin(v.id, v.attempt, v.shot, v.project).value.attempt, n)
    ensures Fits(Unpin(v.id, v.attempt, v.shot, v.project).value.attempt, n)
    ensures Fits(Review(v.attempt, v.shot, v.project).value.attempt, n)
    ensures var r := Accept(v.id, v.attempt, v.shot, v.project, v.evaluation, v.othersAccepted);
            r.Success? ==> Fits(r.value.attempt, n) && r.value.kinds == [AttemptAccepted]
    ensures var r := Reject(v.attempt, v.shot, v.project);
            r.Success? ==> Fits(r.value.attempt, n) && r.value.kinds == [AttemptRejected]
  {
  }

  lemma WorkerFits(v: View, w: WorkerId, expires: int, prompt: PromptId, taken: bool, n: nat)
    requires Fits(v.attempt, n)
    ensures var r := SubmitIntent(v.attempt, v.shot, v.project, w, expires);
            r.Success? ==>
              Fits(r.value.attempt, n + |r.value.kinds|)
              && (r.value.kinds == [] || r.value.kinds == [AttemptSubmitted(true)])
    ensures var r := PersistSubmitted(v.attempt, v.shot, v.project, prompt, taken);
            r.Success? ==>
              Fits(r.value.attempt, n)
              && (r.value.kinds == [] || r.value.kinds == [AttemptSubmitted(false)])
    ensures var r := MarkRunning(v.attempt, v.shot, v.project);
            r.Success? && n == 1 ==>
              Fits(r.value.attempt, n)
              && (r.value.kinds == [] || r.value.kinds == [ExecutionStarted])
    ensures var r := MarkProgress(v.attempt, v.shot, v.project);
            r.Success? ==> Fits(r.value.attempt, n) && (r.value.kinds == [] || r.value.kinds == [ExecutionProgress])
  {
  }

  lemma FailureFits(v: View, ending: Ending, code: FailureCode, n: nat)
    requires Fits(v.attempt, n)
    ensures var r := FailAttempt(v.attempt, v.shot, v.project, ending, code);
            r.Success? ==> Fits(r.value.attempt, n) && (r.value.kinds == [] || r.value.kinds == [EndEvent(ending)])
  {
  }

  lemma EvaluationHasNoIntent(verdict: Verdict)
    ensures IntentKinds([AttemptGenerated, AttemptEvaluating, ArtifactStored, EvaluationCompleted(verdict)]) == 0
  {
    var kinds := [AttemptGenerated, AttemptEvaluating, ArtifactStored, EvaluationCompleted(verdict)];
    assert kinds[1..] == [AttemptEvaluating, ArtifactStored, EvaluationCompleted(verdict)];
    assert kinds[1..][1..] == [ArtifactStored, EvaluationCompleted(verdict)];
    assert kinds[1..][1..][1..] == [EvaluationCompleted(verdict)];
    OneIntentKind(EvaluationCompleted(verdict));
    assert IntentKinds(kinds[1..][1..]) == 0;
  }

  lemma FinishFits(v: View, sawArtifact: bool, sawEvaluation: Option<Verdict>, verdict: Verdict, n: nat)
    requires Consistent(v) && Fits(v.attempt, n) && n == 1
    requires (sawArtifact ==> v.artifact) && (sawEvaluation.Some? ==> v.evaluation == sawEvaluation == Some(verdict))
    requires FinishSuccess(v.attempt, v.shot, v.project, v.artifact, v.evaluation, sawArtifact, sawEvaluation,
                           verdict).Success?
    ensures var r := FinishSuccess(v.attempt, v.shot, v.project, v.artifact, v.evaluation, sawArtifact, sawEvaluation,
                                   verdict).value;
            Fits(r.attempt, n) && IntentKinds(r.kinds) == 0
  {
    if PreReview(v.attempt) {
      LifecycleSteps.JudgedShape(v, sawArtifact, sawEvaluation, verdict);
      EvaluationHasNoIntent(verdict);
    } else {
      LifecycleSteps.ToEvaluatingShape(v.attempt);
    }
  }

  lemma ShortKinds(kinds: seq<EventKind>)
    requires |kinds| <= 1
    ensures IntentKinds(kinds) == if kinds == [AttemptSubmitted(true)] then 1 else 0
  {
    if |kinds| == 1 { assert kinds == [kinds[0]]; OneIntentKind(kinds[0]); }
  }

  lemma EffectFits(s: State, step: Step, n: nat)
    requires Linked(s) && OnAttempt(step) && step.i < |s.attempts| && Consistent(ViewOf(s, step.i))
    requires Effect(s, step).Success? && Fits(s.attempts[step.i], n) && (PastSubmission(step) ==> n == 1)
    ensures var r := Effect(s, step).value; Fits(r.attempt, n + IntentKinds(r.kinds))
  {
    if OnQueue(step) {
      QueueFits(s, step, n);
    } else if step.StepFinishSuccess? {
      JudgementFits(s, step, n);
    } else if WorkerOnly(step) {
      WorkerEffectFits(s, step, n);
    } else {
      ReviewFits(ViewOf(s, step.i), n);
      ShortKinds(Effect(s, step).value.kinds);
    }
  }

  lemma JudgementFits(s: State, step: Step, n: nat)
    requires Linked(s) && step.StepFinishSuccess? && step.i < |s.attempts| && Consistent(ViewOf(s, step.i))
    requires Effect(s, step).Success? && Fits(s.attempts[step.i], n) && n == 1
    ensures var r := Effect(s, step).value; Fits(r.attempt, n + IntentKinds(r.kinds))
  {
    var v := ViewOf(s, step.i);
    if (step.artifact ==> v.artifact)
       && (step.evaluation.Some? ==> v.evaluation == step.evaluation == Some(step.verdict)) {
      FinishFits(v, step.artifact, step.evaluation, step.verdict, n);
    }
  }

  lemma WorkerEffectFits(s: State, step: Step, n: nat)
    requires Linked(s) && WorkerOnly(step) && !OnQueue(step) && !step.StepFinishSuccess? && step.i < |s.attempts|
    requires Effect(s, step).Success? && Fits(s.attempts[step.i], n) && (PastSubmission(step) ==> n == 1)
    ensures var r := Effect(s, step).value; Fits(r.attempt, n + IntentKinds(r.kinds))
  {
    var v := ViewOf(s, step.i);
    match step {
      case StepSubmitIntent(_, w, expires) => WorkerFits(v, w, expires, 0, false, n);
      case StepPersistSubmitted(_, prompt) => WorkerFits(v, 0, 0, prompt, PromptTaken(s, step.i, prompt), n);
      case StepMarkRunning(_) => WorkerFits(v, 0, 0, 0, false, n);
      case StepMarkProgress(_) => WorkerFits(v, 0, 0, 0, false, n);
      case StepFailAttempt(_, ending, code) => FailureFits(v, ending, code, n);
    }
    ShortKinds(Effect(s, step).value.kinds);
  }

  lemma QueueFits(s: State, step: Step, n: nat)
    requires Linked(s) && OnQueue(step) && step.i < |s.attempts| && Fits(s.attempts[step.i], n)
    ensures Effect(s, step).Success? && Effect(s, step).value.kinds == [] && Fits(Effect(s, step).value.attempt, n)
  {
  }

  lemma {:induction false} NoIntents(evs: seq<Event>, i: nat)
    requires forall n :: 0 <= n < |evs| ==> evs[n].kind != AttemptSubmitted(true)
    ensures Intents(evs, i) == 0
  {
    if evs != [] { NoIntents(evs[..|evs| - 1], i); }
  }

  lemma QuietFits(s: State, s': State, evs: seq<Event>)
    requires IntentsFit(s) && s'.events == s.events + evs && |s.attempts| <= |s'.attempts|
    requires forall n :: 0 <= n < |evs| ==> evs[n].kind != AttemptSubmitted(true)
    requires forall i, n :: 0 <= i < |s.attempts| && Fits(s.attempts[i], n) ==> Fits(s'.attempts[i], n)
    requires forall i :: |s.attempts| <= i < |s'.attempts| ==> Fits(s'.attempts[i], 0)
    ensures IntentsFit(s')
  {
    forall i: nat ensures Intents(s'.events, i) == Intents(s.events, i) {
      IntentsAppend(s.events, evs, i);
      NoIntents(evs, i);
    }
  }

  lemma CreateFits(s: State, k: nat, workflow: Workflow, cost: nat, key: nat, source: Option<nat>)
    requires Linked(s) && IntentsFit(s) && CreateAttempt(s, k, workflow, cost, key, source).Success?
    ensures IntentsFit(CreateAttempt(s, k, workflow, cost, key, source).value)
  {
    var s' := CreateAttempt(s, k, workflow, cost, key, source).value;
    var i, q := |s.attempts|, s.shots[k].project;
    QuietFits(s, s', [Event(AttemptQueued, Some(q), Some(k), Some(i))]
                     + (if source.Some? then [Event(AttemptRegenerated(source.value), Some(q), Some(k), Some(i))]
                        else []));
  }

  lemma OtherStepFits(s: State, step: Step)
    requires Linked(s) && IntentsFit(s) && !OnAttempt(step) && TransactElsewhere(s, step).Success?
    ensures IntentsFit(TransactElsewhere(s, step).value)
  {
    var s' := TransactElsewhere(s, step).value;
    match step {
      case StepCreateAttempt(k, workflow, cost, key) => CreateFits(s, k, workflow, cost, key, None);
      case StepRetry(i, workflow, cost, key, resolve) =>
        CreateFits(s, s.attempts[i].shot, workflow, cost, key, Some(i));
      case StepRecoverStale(now) => QuietFits(s, s', []);
      case StepPrepareDirectRun(q) =>
        QuietFits(s, s', if s' == s then [] else [Event(ProjectReady, Some(q), None, None)]);
      case StepCreateShot(q) => QuietFits(s, s', [Event(ShotCreated, Some(q), Some(|s.shots|), None)]);
      case StepCreateProject(ready, budget) =>
        QuietFits(s, s', [Event(ProjectCreated, Some(|s.projects|), None, None)]
                         + (if ready then [Event(ProjectReady, Some(|s.projects|), None, None)] else []));
      case StepNote(event) => QuietFits(s, s', if Informative(event.kind) then [event] else []);
    }
  }

  /** A step keeps the intents fitting, if those past submission are for an announced attempt. */
  lemma StepFits(s: State, step: Step)
    requires Inv(s) && IntentsFit(s)
    requires PastSubmission(step) && step.i < |s.attempts| ==> Intents(s.events, step.i) == 1
    ensures Inv(Apply(s, step)) && IntentsFit(Apply(s, step))
  {
    LifecycleSteps.StepKeeps(s, step);
    if Transact(s, step).Success? {
      if !OnAttempt(step) {
        OtherStepFits(s, step);
      } else if step.i < |s.attempts| {
        ViewIsConsistent(s, step.i);
        EffectFits(s, step, Intents(s.events, step.i));
        StoreFits(s, step.i, Effect(s, step).value);
      }
    }
  }

  lemma LogOnlyGrows(s: State, step: Step, i: nat)
    requires Linked(s)
    ensures Intents(s.events, i) <= Intents(Apply(s, step).events, i)
  {
    var s' := Apply(s, step);
    AppliedLogExtends(s, step, s');
    PrefixIntents(s.events, s'.events, i);
  }

  lemma PrefixIntents(xs: seq<Event>, ys: seq<Event>, i: nat)
    requires xs <= ys
    ensures Intents(xs, i) <= Intents(ys, i)
  {
    IntentsAppend(xs, ys[|xs|..], i);
    assert xs + ys[|xs|..] == ys;
  }

  lemma AppliedLogExtends(s: State, step: Step, s': State)
    requires Linked(s) && s' == Apply(s, step)
    ensures s.events <= s'.events
  {
    if Transact(s, step).Success? {
      if OnAttempt(step) {
        if step.i < |s.attempts| { assert Effect(s, step).Success?; }
      } else {
        ElsewhereLogExtends(s, step);
      }
    }
  }

  lemma ElsewhereLogExtends(s: State, step: Step)
    requires Linked(s) && !OnAttempt(step) && TransactElsewhere(s, step).Success?
    ensures s.events <= TransactElsewhere(s, step).value.events
  {
  }

  // ------------------------------------------------------------------------ the workers

  /** How a worker comes to look for history: its own intent was committed, the intent transaction found
      the attempt ended, or the row it loaded was no claimed one and it went on without an intent. */
  datatype Way = Announced | FoundEnded | Bypassed

  /** How far a worker has got with the attempt it claimed. `claimed` is the status of the row its
      claim returned; `seen` is the status of the row it holds when it looks for history. */
  datatype Phase =
    | Idle
    | Holding(i: nat, claimed: AttemptStatus)
    | Deciding(i: nat, claimed: AttemptStatus, loaded: AttemptStatus, prompt: Option<PromptId>)
    | Looking(i: nat, claimed: AttemptStatus, seen: AttemptStatus, prompt: Option<PromptId>, way: Way)
    | Sending(i: nat, claimed: AttemptStatus, seen: AttemptStatus, way: Way)
    | Observing(i: nat)

  /** One submission to the executor: for which attempt, how the worker came to it, and whether the
      stored attempt had ended by then. */
  datatype Submission = Submission(i: nat, way: Way, ended: bool)

  /** The stored rows, the workers, and every submission made so far. */
  datatype System = System(db: State, workers: map<WorkerId, Phase>, sent: seq<Submission>)

  function PhaseOf(sys: System, w: WorkerId): Phase {
    if w in sys.workers then sys.workers[w] else Idle
  }

  datatype Move =
    | ByOthers(step: Step)
    | Claim(w: WorkerId, i: nat, now: int, expires: int, recovery: bool)
    | Load(w: WorkerId)
    | Intend(w: WorkerId, expires: int)
    | Proceed(w: WorkerId)
    | FindHistory(w: WorkerId, prompt: PromptId)
    | MissHistory(w: WorkerId)
    | RecordPrompt(w: WorkerId, prompt: PromptId)
    | Observe(w: WorkerId, step: Step)
    | GiveUp(w: WorkerId, ending: Ending, code: FailureCode)
    | Leave(w: WorkerId)

  function Enter(sys: System, db: State, w: WorkerId, phase: Phase): System {
    sys.(db := db, workers := sys.workers[w := phase])
  }

  /** One transaction, or one answer from outside. Moves that do not fit the phase do nothing. */
  function Do(sys: System, move: Move): System
    requires Linked(sys.db)
  {
    var db := sys.db;
    match move
    case ByOthers(step) => if WorkerOnly(step) then sys else sys.(db := Apply(db, step))
    case Claim(w, i, now, expires, recovery) =>
      if PhaseOf(sys, w) != Idle || i >= |db.attempts| then sys
      else
        var db' := Apply(db, if recovery then StepClaimForRecovery(i, w, now, expires)
                         else StepClaimNext(i, w, now, expires));
        if i >= |db'.attempts| || db'.attempts[i] == db.attempts[i] then sys
        else Enter(sys, db', w, Holding(i, db'.attempts[i].status))
    case Load(w) =>
      var phase := PhaseOf(sys, w);
      if !phase.Holding? || phase.i >= |db.attempts| then sys
      else if Terminal(db.attempts[phase.i].status) then Enter(sys, db, w, Idle)
      else Enter(sys, db, w, Deciding(phase.i, phase.claimed, db.attempts[phase.i].status, db.attempts[phase.i].prompt))
    case Intend(w, expires) =>
      var phase := PhaseOf(sys, w);
      if !phase.Deciding? || phase.loaded != Claimed then sys
      else
        var db' := Apply(db, StepSubmitIntent(phase.i, w, expires));
        if Transact(db, StepSubmitIntent(phase.i, w, expires)).Failure?
           || phase.i >= |db'.attempts| then Enter(sys, db, w, Idle)
        else
          var a := db'.attempts[phase.i];
          var way := if Terminal(a.status) then FoundEnded else Announced;
          Enter(sys, db', w, Looking(phase.i, phase.claimed, a.status, a.prompt, way))
    case Proceed(w) =>
      var phase := PhaseOf(sys, w);
      if !phase.Deciding? || phase.loaded == Claimed then sys
      else Enter(sys, db, w, Looking(phase.i, phase.claimed, phase.loaded, phase.prompt, Bypassed))
    case FindHistory(w, prompt) =>
      var phase := PhaseOf(sys, w);
      if !phase.Looking? then sys
      else if phase.prompt.Some? then Enter(sys, db, w, Observing(phase.i))
      else Recorded(sys, w, phase.i, prompt)
    case MissHistory(w) =>
      var phase := PhaseOf(sys, w);
      if !phase.Looking? || phase.i >= |db.attempts| then sys
      else if phase.claimed != Claimed then
        Enter(sys, Apply(db, StepFailAttempt(phase.i, EndFailed, ComfySubmissionUncertain)), w, Idle)
      else
        Enter(sys, db, w, Sending(phase.i, phase.claimed, phase.seen, phase.way)).(
          sent := sys.sent + [Submission(phase.i, phase.way, Terminal(db.attempts[phase.i].status))])
    case RecordPrompt(w, prompt) =>
      var phase := PhaseOf(sys, w);
      // a refusal is caught, and the worker then fails the attempt
      if !phase.Sending? || Transact(db, StepPersistSubmitted(phase.i, prompt)).Failure? then sys
      else Recorded(sys, w, phase.i, prompt)
    case Observe(w, step) =>
      var phase := PhaseOf(sys, w);
      if !phase.Observing? || !(step.StepMarkRunning? || step.StepMarkProgress? || step.StepFinishSuccess?)
         || step.i != phase.i then sys
      else sys.(db := Apply(db, step))
    case GiveUp(w, ending, code) =>
      var phase := PhaseOf(sys, w);
      if phase.Idle? || phase.Holding? || (phase.Looking? && phase.claimed != Claimed) then sys
      else Enter(sys, Apply(db, StepFailAttempt(phase.i, ending, code)), w, Idle)
    case Leave(w) => Enter(sys, db, w, Idle)
  }

  /** persistSubmitted: a refused prompt ends the worker's interest in the attempt. */
  function Recorded(sys: System, w: WorkerId, i: nat, prompt: PromptId): System
    requires Linked(sys.db)
  {
    var r := Transact(sys.db, StepPersistSubmitted(i, prompt));
    if r.Failure? then Enter(sys, sys.db, w, Idle) else Enter(sys, r.value, w, Observing(i))
  }

  // ---------------------------------------------------------------------- the invariant

  /** The row a worker goes by is backed by a logged intent, is terminal by now, or was not claimed. */
  ghost predicate Vouched(db: State, i: nat, seen: AttemptStatus, prompt: Option<PromptId>) {
    && i < |db.attempts|
    && (prompt.Some? ==> Intents(db.events, i) >= 1)
    && (seen != Queued && seen != Claimed ==> Intents(db.events, i) >= 1 || Terminal(db.attempts[i].status))
  }

  /** What is stored for a worker that came this way. */
  ghost predicate Arrived(db: State, i: nat, way: Way)
    requires i < |db.attempts|
  {
    && (way == Announced ==> Intents(db.events, i) >= 1)
    && (way == FoundEnded ==> Terminal(db.attempts[i].status))
  }

  ghost predicate PhaseFits(db: State, phase: Phase) {
    match phase
    case Idle => true
    case Holding(i, claimed) =>
      (claimed == Claimed || InFlight(claimed)) && Vouched(db, i, claimed, None)
    case Deciding(i, claimed, loaded, prompt) =>
      (claimed == Claimed || InFlight(claimed)) && Vouched(db, i, claimed, None) && Vouched(db, i, loaded, prompt)
    case Looking(i, claimed, seen, prompt, way) =>
      && (claimed == Claimed || InFlight(claimed)) && Vouched(db, i, claimed, None)
      && Vouched(db, i, seen, prompt) && seen != Claimed && Arrived(db, i, way)
    case Sending(i, claimed, seen, _) => claimed == Claimed && seen != Claimed && Vouched(db, i, seen, None)
    case Observing(i) => i < |db.attempts| && Intents(db.events, i) >= 1
  }

  ghost predicate SystemFits(sys: System) {
    Inv(sys.db) && IntentsFit(sys.db) && SendsFit(sys) && forall w :: PhaseFits(sys.db, PhaseOf(sys, w))
  }

  /** What workers rely on while others commit. */
  ghost predicate Advances(db: State, db': State) {
    && |db.attempts| <= |db'.attempts|
    && (forall i :: 0 <= i < |db.attempts| && Terminal(db.attempts[i].status) ==> Terminal(db'.attempts[i].status))
    && (forall i: nat :: Intents(db.events, i) <= Intents(db'.events, i))
  }

  lemma StepAdvances(db: State, step: Step)
    requires Inv(db)
    ensures Advances(db, Apply(db, step))
  {
    Runs.StepFollows(db, step);
    forall i: nat ensures Intents(db.events, i) <= Intents(Apply(db, step).events, i) {
      LogOnlyGrows(db, step, i);
    }
  }

  lemma PhaseStable(db: State, db': State, phase: Phase)
    requires PhaseFits(db, phase) && Advances(db, db')
    ensures PhaseFits(db', phase)
  {
  }

  /** Worker w holds the one announcement of attempt i and has not used it yet. */
  predicate Announces(sys: System, w: WorkerId, i: nat) {
    var phase := PhaseOf(sys, w);
    phase.Looking? && phase.i == i && phase.way == Announced
  }

  /** Each attempt is announced by one worker and submitted at most once on that account. */
  ghost predicate SendsFit(sys: System) {
    && (forall w, w', i :: Announces(sys, w, i) && Announces(sys, w', i) ==> w == w')
    && (forall n :: 0 <= n < |sys.sent| && sys.sent[n].way == Announced ==>
          Intents(sys.db.events, sys.sent[n].i) >= 1 && forall w :: !Announces(sys, w, sys.sent[n].i))
    && (forall m, n :: 0 <= m < n < |sys.sent| && sys.sent[m].way == Announced && sys.sent[n].way == Announced ==>
          sys.sent[m].i != sys.sent[n].i)
    && (forall n :: 0 <= n < |sys.sent| && sys.sent[n].way == FoundEnded ==> sys.sent[n].ended)
  }

  lemma EnterSends(sys: System, db': State, w: WorkerId, phase: Phase)
    requires SendsFit(sys) && Advances(sys.db, db') && !(phase.Looking? && phase.way == Announced)
    ensures SendsFit(Enter(sys, db', w, phase))
  {
    var sys' := Enter(sys, db', w, phase);
    forall v, i ensures Announces(sys', v, i) ==> Announces(sys, v, i) {
      if v != w { assert PhaseOf(sys', v) == PhaseOf(sys, v); }
    }
  }

  lemma EnterFits(sys: System, db': State, w: WorkerId, phase: Phase)
    requires SystemFits(sys) && Inv(db') && IntentsFit(db') && Advances(sys.db, db') && PhaseFits(db', phase)
    requires !(phase.Looking? && phase.way == Announced)
    ensures SystemFits(Enter(sys, db', w, phase))
  {
    PhasesStay(sys, db', w, phase);
    EnterSends(sys, db', w, phase);
  }

  lemma PhasesStay(sys: System, db': State, w: WorkerId, phase: Phase)
    requires (forall v :: PhaseFits(sys.db, PhaseOf(sys, v))) && Advances(sys.db, db') && PhaseFits(db', phase)
    ensures forall v :: PhaseFits(db', PhaseOf(Enter(sys, db', w, phase), v))
  {
    var sys' := Enter(sys, db', w, phase);
    forall v ensures PhaseFits(db', PhaseOf(sys', v)) {
      if v != w {
        assert PhaseOf(sys', v) == PhaseOf(sys, v);
        PhaseStable(sys.db, db', PhaseOf(sys, v));
      }
    }
  }

  lemma StayFits(sys: System, db': State)
    requires SystemFits(sys) && Inv(db') && IntentsFit(db') && Advances(sys.db, db')
    ensures SystemFits(sys.(db := db'))
  {
    forall v ensures PhaseFits(db', PhaseOf(sys.(db := db'), v)) {
      assert PhaseOf(sys.(db := db'), v) == PhaseOf(sys, v);
      PhaseStable(sys.db, db', PhaseOf(sys, v));
    }
    StaySends(sys, db');
  }

  lemma StaySends(sys: System, db': State)
    requires SendsFit(sys) && Advances(sys.db, db')
    ensures SendsFit(sys.(db := db'))
  {
    forall v, i ensures Announces(sys.(db := db'), v, i) <==> Announces(sys, v, i) {
      assert PhaseOf(sys.(db := db'), v) == PhaseOf(sys, v);
    }
  }

  /** The worker that commits the intent holds the only announcement there is. */
  lemma AnnounceSends(sys: System, db': State, w: WorkerId, phase: Phase)
    requires SendsFit(sys) && Advances(sys.db, db') && phase.Looking? && phase.way == Announced
    requires Intents(sys.db.events, phase.i) == 0 && forall v :: PhaseFits(sys.db, PhaseOf(sys, v))
    ensures SendsFit(Enter(sys, db', w, phase))
  {
    var sys' := Enter(sys, db', w, phase);
    forall v, i | v != w ensures Announces(sys', v, i) <==> Announces(sys, v, i) {
      assert PhaseOf(sys', v) == PhaseOf(sys, v);
    }
    forall v ensures !Announces(sys, v, phase.i) {
      assert PhaseFits(sys.db, PhaseOf(sys, v));
    }
  }

  /** Submitting uses up the announcement. */
  lemma SendFits(sys: System, w: WorkerId)
    requires SystemFits(sys) && PhaseOf(sys, w).Looking? && PhaseOf(sys, w).claimed == Claimed
    ensures SystemFits(Do(sys, MissHistory(w)))
  {
    var phase := PhaseOf(sys, w);
    assert PhaseFits(sys.db, phase);
    SendPhases(sys, w);
    SendSends(sys, w);
  }

  lemma SendPhases(sys: System, w: WorkerId)
    requires Linked(sys.db) && PhaseOf(sys, w).Looking? && PhaseOf(sys, w).claimed == Claimed
    requires (forall v :: PhaseFits(sys.db, PhaseOf(sys, v))) && PhaseFits(sys.db, PhaseOf(sys, w))
    ensures var sys' := Do(sys, MissHistory(w)); sys'.db == sys.db && forall v :: PhaseFits(sys'.db, PhaseOf(sys', v))
  {
    var phase := PhaseOf(sys, w);
    var sending := Sending(phase.i, phase.claimed, phase.seen, phase.way);
    SameAdvances(sys.db);
    PhasesStay(sys, sys.db, w, sending);
    var sys' := Do(sys, MissHistory(w));
    forall v ensures PhaseFits(sys'.db, PhaseOf(sys', v)) {
      assert PhaseOf(sys', v) == PhaseOf(Enter(sys, sys.db, w, sending), v);
    }
  }

  lemma SendSends(sys: System, w: WorkerId)
    requires Linked(sys.db) && SendsFit(sys)
    requires PhaseOf(sys, w).Looking? && PhaseOf(sys, w).claimed == Claimed && PhaseFits(sys.db, PhaseOf(sys, w))
    ensures SendsFit(Do(sys, MissHistory(w)))
  {
    var phase := PhaseOf(sys, w);
    var sys' := Do(sys, MissHistory(w));
    forall v, i ensures Announces(sys', v, i) <==> Announces(sys, v, i) && v != w {
      if v != w { assert PhaseOf(sys', v) == PhaseOf(sys, v); }
    }
    if phase.way == Announced { assert Announces(sys, w, phase.i); }
  }

  lemma SameAdvances(db: State)
    ensures Advances(db, db)
  {
  }

  lemma ClaimedRow(db: State, step: Step)
    requires Linked(db) && (step.StepClaimNext? || step.StepClaimForRecovery?) && step.i < |db.attempts|
    requires Apply(db, step).attempts[step.i] != db.attempts[step.i]
    ensures var status := Apply(db, step).attempts[step.i].status;
            status == Claimed || (InFlight(status) && status == db.attempts[step.i].status)
  {
  }

  /** A stored status past the claim is backed by the log, or terminal. */
  lemma BackedByLog(db: State, i: nat)
    requires Inv(db) && IntentsFit(db) && i < |db.attempts|
    ensures Vouched(db, i, db.attempts[i].status, db.attempts[i].prompt)
  {
    assert !Transient(db.attempts[i].status);
    assert Fits(db.attempts[i], Intents(db.events, i));
  }

  /** What a worker's transaction leaves for attempt i. */
  lemma CommitOutcome(db: State, step: Step, i: nat)
    requires Inv(db) && IntentsFit(db) && !PastSubmission(step) && i < |db.attempts|
    ensures var db' := Apply(db, step);
            && Inv(db') && IntentsFit(db') && Advances(db, db') && i < |db'.attempts|
            && Vouched(db', i, db'.attempts[i].status, db'.attempts[i].prompt)
  {
    StepFits(db, step);
    StepAdvances(db, step);
    BackedByLog(Apply(db, step), i);
  }

  function ClaimStep(w: WorkerId, i: nat, now: int, expires: int, recovery: bool): Step {
    if recovery then StepClaimForRecovery(i, w, now, expires) else StepClaimNext(i, w, now, expires)
  }

  lemma ClaimDoes(sys: System, w: WorkerId, i: nat, now: int, expires: int, recovery: bool)
    requires Linked(sys.db)
    ensures var sys' := Do(sys, Claim(w, i, now, expires, recovery));
            var db' := Apply(sys.db, ClaimStep(w, i, now, expires, recovery));
            || sys' == sys
            || (i < |sys.db.attempts| && i < |db'.attempts| && db'.attempts[i] != sys.db.attempts[i]
                && sys' == Enter(sys, db', w, Holding(i, db'.attempts[i].status)))
  {
  }

  lemma ClaimFits(sys: System, w: WorkerId, i: nat, now: int, expires: int, recovery: bool)
    requires SystemFits(sys)
    ensures SystemFits(Do(sys, Claim(w, i, now, expires, recovery)))
  {
    var step := ClaimStep(w, i, now, expires, recovery);
    ClaimDoes(sys, w, i, now, expires, recovery);
    if Do(sys, Claim(w, i, now, expires, recovery)) != sys {
      CommitOutcome(sys.db, step, i);
      ClaimedRow(sys.db, step);
      EnterFits(sys, Apply(sys.db, step), w, Holding(i, Apply(sys.db, step).attempts[i].status));
    }
  }

  function DecidingAfter(phase: Phase, a: Attempt): Phase
    requires phase.Holding?
  {
    if Terminal(a.status) then Idle else Deciding(phase.i, phase.claimed, a.status, a.prompt)
  }

  lemma LoadDoes(sys: System, w: WorkerId)
    requires Linked(sys.db)
    ensures var phase, sys' := PhaseOf(sys, w), Do(sys, Load(w));
            || sys' == sys
            || (phase.Holding? && phase.i < |sys.db.attempts|
                && sys' == Enter(sys, sys.db, w, DecidingAfter(phase, sys.db.attempts[phase.i])))
  {
  }

  lemma LoadFits(sys: System, w: WorkerId)
    requires SystemFits(sys)
    ensures SystemFits(Do(sys, Load(w)))
  {
    var phase := PhaseOf(sys, w);
    assert PhaseFits(sys.db, phase);
    LoadDoes(sys, w);
    if Do(sys, Load(w)) != sys {
      SameAdvances(sys.db);
      BackedByLog(sys.db, phase.i);
      EnterFits(sys, sys.db, w, DecidingAfter(phase, sys.db.attempts[phase.i]));
    }
  }

  lemma IntendedRow(db: State, i: nat, w: WorkerId, expires: int)
    requires Linked(db) && i < |db.attempts| && Transact(db, StepSubmitIntent(i, w, expires)).Success?
    ensures var a := Apply(db, StepSubmitIntent(i, w, expires)).attempts[i];
            || (a.status == Submitting && db.attempts[i].status == Claimed)
            || (Terminal(a.status) && a.status == db.attempts[i].status)
  {
  }

  lemma IntendFits(sys: System, w: WorkerId, expires: int)
    requires SystemFits(sys)
    ensures SystemFits(Do(sys, Intend(w, expires)))
  {
    var phase := PhaseOf(sys, w);
    assert PhaseFits(sys.db, phase);
    if phase.Deciding? && phase.loaded == Claimed {
      SameAdvances(sys.db);
      if Transact(sys.db, StepSubmitIntent(phase.i, w, expires)).Failure? {
        EnterFits(sys, sys.db, w, Idle);
      } else {
        IntendCommits(sys, w, expires);
      }
    }
  }

  function LookingAfter(phase: Phase, a: Attempt): Phase
    requires phase.Deciding?
  {
    Looking(phase.i, phase.claimed, a.status, a.prompt, if Terminal(a.status) then FoundEnded else Announced)
  }

  lemma IntendDoes(sys: System, w: WorkerId, expires: int)
    requires Linked(sys.db) && PhaseOf(sys, w).Deciding? && PhaseOf(sys, w).loaded == Claimed
    requires Transact(sys.db, StepSubmitIntent(PhaseOf(sys, w).i, w, expires)).Success?
    requires PhaseOf(sys, w).i < |Apply(sys.db, StepSubmitIntent(PhaseOf(sys, w).i, w, expires)).attempts|
    ensures var phase := PhaseOf(sys, w);
            var db' := Apply(sys.db, StepSubmitIntent(phase.i, w, expires));
            Do(sys, Intend(w, expires)) == Enter(sys, db', w, LookingAfter(phase, db'.attempts[phase.i]))
  {
  }

  lemma IntendCommits(sys: System, w: WorkerId, expires: int)
    requires SystemFits(sys) && PhaseOf(sys, w).Deciding? && PhaseOf(sys, w).loaded == Claimed
    requires Transact(sys.db, StepSubmitIntent(PhaseOf(sys, w).i, w, expires)).Success?
    ensures SystemFits(Do(sys, Intend(w, expires)))
  {
    var phase := PhaseOf(sys, w);
    assert PhaseFits(sys.db, phase);
    var step := StepSubmitIntent(phase.i, w, expires);
    CommitOutcome(sys.db, step, phase.i);
    IntendedRow(sys.db, phase.i, w, expires);
    IntendDoes(sys, w, expires);
    AfterIntent(sys, Apply(sys.db, step), w);
  }

  lemma AfterIntent(sys: System, db': State, w: WorkerId)
    requires SystemFits(sys) && PhaseOf(sys, w).Deciding?
    requires Inv(db') && IntentsFit(db') && Advances(sys.db, db') && PhaseFits(sys.db, PhaseOf(sys, w))
    requires var i := PhaseOf(sys, w).i;
             var a := db'.attempts[i];
             Vouched(db', i, a.status, a.prompt)
             && ((a.status == Submitting && sys.db.attempts[i].status == Claimed) || Terminal(a.status))
    ensures SystemFits(Enter(sys, db', w, LookingAfter(PhaseOf(sys, w), db'.attempts[PhaseOf(sys, w).i])))
  {
    var phase := PhaseOf(sys, w);
    var a := db'.attempts[phase.i];
    var looking := LookingAfter(phase, a);
    assert Fits(a, Intents(db'.events, phase.i));
    if Terminal(a.status) {
      EnterFits(sys, db', w, looking);
    } else {
      assert Fits(sys.db.attempts[phase.i], Intents(sys.db.events, phase.i));
      PhasesStay(sys, db', w, looking);
      AnnounceSends(sys, db', w, looking);
    }
  }

  lemma RecordedRow(db: State, i: nat, prompt: PromptId)
    requires Linked(db) && i < |db.attempts| && Transact(db, StepPersistSubmitted(i, prompt)).Success?
    ensures Apply(db, StepPersistSubmitted(i, prompt)).attempts[i].prompt == Some(prompt)
  {
  }

  lemma RecordedFits(sys: System, w: WorkerId, i: nat, prompt: PromptId)
    requires SystemFits(sys) && i < |sys.db.attempts|
    ensures SystemFits(Recorded(sys, w, i, prompt))
  {
    var step := StepPersistSubmitted(i, prompt);
    SameAdvances(sys.db);
    if Transact(sys.db, step).Failure? {
      EnterFits(sys, sys.db, w, Idle);
    } else {
      var db' := Apply(sys.db, step);
      CommitOutcome(sys.db, step, i);
      RecordedRow(sys.db, i, prompt);
      EnterFits(sys, db', w, Observing(i));
    }
  }

  lemma FailFits(sys: System, w: WorkerId, i: nat, ending: Ending, code: FailureCode)
    requires SystemFits(sys)
    ensures SystemFits(Enter(sys, Apply(sys.db, StepFailAttempt(i, ending, code)), w, Idle))
  {
    var step := StepFailAttempt(i, ending, code);
    StepFits(sys.db, step);
    StepAdvances(sys.db, step);
    EnterFits(sys, Apply(sys.db, step), w, Idle);
  }

  lemma ObserveDoes(sys: System, w: WorkerId, step: Step)
    requires Linked(sys.db)
    ensures var phase, sys' := PhaseOf(sys, w), Do(sys, Observe(w, step));
            || sys' == sys
            || (phase.Observing? && (step.StepMarkRunning? || step.StepMarkProgress? || step.StepFinishSuccess?)
                && step.i == phase.i && sys' == sys.(db := Apply(sys.db, step)))
  {
  }

  lemma ObserveFits(sys: System, w: WorkerId, step: Step)
    requires SystemFits(sys)
    ensures SystemFits(Do(sys, Observe(w, step)))
  {
    var phase := PhaseOf(sys, w);
    assert PhaseFits(sys.db, phase);
    ObserveDoes(sys, w, step);
    if Do(sys, Observe(w, step)) != sys {
      AnnouncedOnce(sys.db, phase.i);
      StepFits(sys.db, step);
      StepAdvances(sys.db, step);
      StayFits(sys, Apply(sys.db, step));
    }
  }

  lemma AnnouncedOnce(db: State, i: nat)
    requires IntentsFit(db) && i < |db.attempts| && Intents(db.events, i) >= 1
    ensures Intents(db.events, i) == 1
  {
    assert Fits(db.attempts[i], Intents(db.events, i));
  }

  /** Every move of every worker, and every transaction of everyone else, keeps the system fitting. */
  lemma DoFits(sys: System, move: Move)
    requires SystemFits(sys)
    ensures SystemFits(Do(sys, move))
  {
    SameAdvances(sys.db);
    match move {
      case ByOthers(step) =>
        if !WorkerOnly(step) {
          StepFits(sys.db, step);
          StepAdvances(sys.db, step);
          StayFits(sys, Apply(sys.db, step));
        }
      case Claim(w, i, now, expires, recovery) => ClaimFits(sys, w, i, now, expires, recovery);
      case Load(w) => LoadFits(sys, w);
      case Intend(w, expires) => IntendFits(sys, w, expires);
      case Observe(w, step) => ObserveFits(sys, w, step);
      case GiveUp(w, ending, code) =>
        var phase := PhaseOf(sys, w);
        if !phase.Idle? { FailFits(sys, w, phase.i, ending, code); }
      case Leave(w) => EnterFits(sys, sys.db, w, Idle);
      case _ => LookingFits(sys, move);
    }
  }

  lemma ProceedFits(sys: System, w: WorkerId)
    requires SystemFits(sys)
    ensures SystemFits(Do(sys, Proceed(w)))
  {
    var phase := PhaseOf(sys, w);
    assert PhaseFits(sys.db, phase);
    SameAdvances(sys.db);
    if phase.Deciding? && phase.loaded != Claimed {
      EnterFits(sys, sys.db, w, Looking(phase.i, phase.claimed, phase.loaded, phase.prompt, Bypassed));
    }
  }

  lemma LookingFits(sys: System, move: Move)
    requires SystemFits(sys) && (move.Proceed? || move.FindHistory? || move.MissHistory? || move.RecordPrompt?)
    ensures SystemFits(Do(sys, move))
  {
    var phase := PhaseOf(sys, move.w);
    assert PhaseFits(sys.db, phase);
    SameAdvances(sys.db);
    match move {
      case Proceed(w) => ProceedFits(sys, w);
      case FindHistory(w, prompt) =>
        if phase.Looking? && phase.prompt.Some? {
          EnterFits(sys, sys.db, w, Observing(phase.i));
        } else if phase.Looking? {
          RecordedFits(sys, w, phase.i, prompt);
        }
      case MissHistory(w) =>
        if phase.Looking? && phase.claimed != Claimed {
          FailFits(sys, w, phase.i, EndFailed, ComfySubmissionUncertain);
        } else if phase.Looking? {
          SendFits(sys, w);
        }
      case RecordPrompt(w, prompt) => if phase.Sending? { RecordedFits(sys, w, phase.i, prompt); }
    }
  }
}
