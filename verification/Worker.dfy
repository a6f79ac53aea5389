/** One worker processing the attempt it claimed, while everyone else goes on committing
    (GenerationWorker in apps/api/src/generation.ts). */
module Worker {
  import opened Wrappers
  import opened Domain
  import CP = ControlPlane
  import opened Lifecycle
  import LifecycleSteps
  import Runs
  import Observer
  import opened Transactions
  import opened WorkerAnswers

  datatype Outcome = Returned | Threw

  /** Nothing is left for a worker to do. */
  predicate Settled(s: CP.State, i: nat) {
    i < |s.attempts| && (Terminal(s.attempts[i].status) || s.attempts[i].status == AwaitingReview)
  }

  ghost predicate Later(s: CP.State, s': CP.State) {
    Inv(s) && Inv(s') && Runs.Follows(s, s')
  }

  lemma LaterStays(s: CP.State, s': CP.State, i: nat)
    requires Later(s, s') && i < |s.attempts|
    ensures i < |s'.attempts| && (Settled(s, i) ==> Settled(s', i))
  {
  }

  predicate Opened(key: nat) { true }

  /** Later, kept closed: what happens at the worker carries it along, and only a proof that names a key looks
      inside. */
  ghost predicate Since(start: CP.State, s: CP.State) {
    forall key: nat {:trigger Opened(key)} :: Opened(key) ==> Later(start, s)
  }

  lemma SinceIsLater(start: CP.State, s: CP.State)
    requires Since(start, s)
    ensures Later(start, s)
  {
    assert Opened(0);
  }

  lemma SinceFurther(start: CP.State, s: CP.State, step: Step, i: nat)
    requires Since(start, s) && CP.Linked(s) && i < |s.attempts|
    ensures var s' := CP.Apply(s, step);
            Since(start, s') && i < |s'.attempts| && (Settled(s, i) ==> Settled(s', i))
  {
    SinceIsLater(start, s);
    StepIsLater(s, step);
    LaterStays(s, CP.Apply(s, step), i);
    Runs.FollowsTransitive(start, s, CP.Apply(s, step));
  }

  lemma StepIsLater(s: CP.State, step: Step)
    requires Inv(s)
    ensures Later(s, CP.Apply(s, step))
  {
    Runs.StepFollows(s, step);
  }

  lemma FailedRows(v: View, ending: CP.Ending, code: FailureCode)
    ensures var r := CP.FailAttempt(v.attempt, v.shot, v.project, ending, code);
            r.Success? ==> Terminal(r.value.attempt.status)
  {
  }

  lemma FailSettles(s: CP.State, i: nat, ending: CP.Ending, code: FailureCode)
    requires Inv(s) && i < |s.attempts| && CP.Transact(s, CP.StepFailAttempt(i, ending, code)).Success?
    ensures Settled(CP.Apply(s, CP.StepFailAttempt(i, ending, code)), i)
  {
    FailedRows(ViewOf(s, i), ending, code);
    Runs.ApplyStores(s, CP.StepFailAttempt(i, ending, code));
  }

  lemma FinishedRows(v: View, verdict: Verdict)
    requires Consistent(v)
    ensures var r := CP.FinishSuccess(v.attempt, v.shot, v.project, v.artifact, v.evaluation, false, None, verdict);
            r.Success? ==> Terminal(r.value.attempt.status) || r.value.attempt.status == AwaitingReview
  {
    if PreReview(v.attempt) && CP.FinishSuccess(v.attempt, v.shot, v.project, v.artifact, v.evaluation, false, None,
                                                verdict).Success? {
      LifecycleSteps.JudgedShape(v, false, None, verdict);
    } else if CP.ToEvaluating(v.attempt).Success? {
      LifecycleSteps.ToEvaluatingShape(v.attempt);
    }
  }

  lemma FinishSettles(s: CP.State, i: nat, sawArtifact: bool, sawEvaluation: Option<Verdict>, verdict: Verdict)
    requires Inv(s) && i < |s.attempts|
    requires CP.Transact(s, CP.StepFinishSuccess(i, sawArtifact, sawEvaluation, verdict)).Success?
    requires sawArtifact || sawEvaluation.Some? ==> Settled(s, i)
    ensures Settled(CP.Apply(s, CP.StepFinishSuccess(i, sawArtifact, sawEvaluation, verdict)), i)
  {
    var step := CP.StepFinishSuccess(i, sawArtifact, sawEvaluation, verdict);
    if Settled(s, i) {
      StepIsLater(s, step);
      LaterStays(s, CP.Apply(s, step), i);
    } else {
      ViewIsConsistent(s, i);
      FinishedRows(ViewOf(s, i), verdict);
      Runs.ApplyStores(s, step);
    }
  }

  /** The steps that end a worker's part in an attempt, when they commit, settle it. */
  predicate EndsPart(step: Step) { step.StepFailAttempt? || step.StepFinishSuccess? }

  /** A finish that reuses what it found stored was read from a settled attempt. */
  ghost predicate ReadRightly(s: CP.State, i: nat, step: Step) {
    step.StepFinishSuccess? && (step.artifact || step.evaluation.Some?) ==> Settled(s, i)
  }

  lemma EndSettles(s: CP.State, i: nat, step: Step)
    requires Inv(s) && i < |s.attempts| && EndsPart(step) && step.i == i && ReadRightly(s, i, step)
    requires CP.Transact(s, step).Success?
    ensures Settled(CP.Apply(s, step), i)
  {
    if step.StepFailAttempt? {
      FailSettles(s, i, step.ending, step.code);
    } else {
      FinishSettles(s, i, step.artifact, step.evaluation, step.verdict);
    }
  }

  /** An artifact or evaluation is stored only with the commit that ends the worker's part. */
  lemma StoredMeansSettled(start: CP.State, s: CP.State, i: nat)
    requires Since(start, s) && i < |s.attempts| && (i in s.artifacts || i in s.evaluations)
    ensures Settled(s, i)
  {
    SinceIsLater(start, s);
  }

  /** A worker that checks the budget of its attempt's project finds it kept. */
  lemma FindsBudgetKept(start: CP.State, s: CP.State, i: nat)
    requires Since(start, s) && i < |s.attempts|
    ensures CP.Linked(s)
    ensures var p := CP.ProjectOf(s, i); p.budget.Some? ==> p.spent <= p.budget.value
  {
    SinceIsLater(start, s);
  }

  function Pow2(n: nat): nat { if n == 0 then 1 else 2 * Pow2(n - 1) }

  lemma {:induction false} Pow2Grows(m: nat, n: nat)
    requires m <= n
    ensures 1 <= Pow2(m) <= Pow2(n)
    decreases n
  {
    if m < n {
      Pow2Grows(m, n - 1);
    } else if n > 0 {
      Pow2Grows(m - 1, n - 1);
    }
  }

  class GenerationWorker {
    const db: Database
    const workerId: WorkerId
    const maxReconnects: nat
    const world: World
    var stopping: bool
    var moment: nat
    var polls: nat
    var slept: nat
    // the attempt being processed, the answers heard for it and the transactions tried on it
    ghost var task: Task
    ghost var log: Log
    // the store when the worker turned to it
    ghost var start: CP.State

    constructor (db: Database, workerId: WorkerId, maxReconnects: nat, world: World)
      ensures this.db == db && this.workerId == workerId && this.maxReconnects == maxReconnects && this.world == world
      ensures !stopping && moment == 0 && polls == 0 && slept == 0
    {
      this.db, this.workerId, this.maxReconnects, this.world := db, workerId, maxReconnects, world;
      stopping, moment, polls, slept := false, 0, 0, 0;
    }

    /** What the executor sends is parsed JSON. */
    ghost predicate AllReceived() { forall t: nat :: Observer.AllReceived(world(t).messages) }

    /** Working on attempt i, with nothing tried that the answers did not warrant. */
    ghost predicate Working(i: nat)
      reads this`task, this`log, this`start, db
    {
      && Since(start, db.Stored()) && i < |db.attempts| && task.i == i && task.worker == workerId
      && task.reconnects == maxReconnects && Lawful(world, task, log)
    }

    /** Done with attempt i: it is settled, and left the way the last answer says. */
    ghost predicate Left(i: nat)
      reads this`log, db
    {
      Settled(db.Stored(), i) && Concluded(world, log)
    }

    /** The last answer is this history. */
    ghost predicate Located(history: History)
      reads this`log
    {
      Asks(log.answers, LookUp) && history == Heard(world, log.answers).history && !history.LookupThrows?
    }

    /** No stream has named an output since these answers. */
    ghost predicate SameStreams(earlier: seq<Asked>)
      reads this`log
    {
      StreamNamed(world, log.answers) == StreamNamed(world, earlier)
    }

    // ------------------------------------------------------------- single transactions

    method CommitStep(i: nat, step: Step) returns (r: Result<(), Error>)
      requires Since(start, db.Stored()) && i < |db.attempts| && ReadRightly(db.Stored(), i, step)
      modifies db
      ensures Since(start, db.Stored()) && i < |db.attempts|
      ensures Settled(old(db.Stored()), i) || (r.Success? && EndsPart(step) && step.i == i) ==> Settled(db.Stored(), i)
    {
      ghost var s := db.Stored();
      SinceIsLater(start, s);
      SinceFurther(start, s, step, i);
      r := db.WithTransaction(step);
      if r.Success? && EndsPart(step) && step.i == i { EndSettles(s, i, step); }
    }

    /** A transaction of this worker's own. */
    method Try(i: nat, step: Step) returns (r: Result<(), Error>)
      requires Working(i) && Warranted(world, task, log, step) && ReadRightly(db.Stored(), i, step)
      modifies this`log, db
      ensures Working(i) && log == WithTry(old(log), step, r.Success?)
      ensures r.Success? && EndsPart(step) ==> Settled(db.Stored(), i)
    {
      r := CommitStep(i, step);
      TryIsLawful(world, task, log, step, r.Success?);
      log := WithTry(log, step, r.Success?);
    }

    /** While this worker waits, others commit and it may be told to stop. */
    method Await(i: nat) returns (answer: Answer)
      requires Since(start, db.Stored()) && i < |db.attempts|
      modifies this`stopping, this`moment, db
      ensures Since(start, db.Stored()) && i < |db.attempts|
      ensures Settled(old(db.Stored()), i) ==> Settled(db.Stored(), i)
      ensures answer == world(old(moment)) && moment == old(moment) + 1 && (old(stopping) ==> stopping)
    {
      answer := world(moment);
      moment := moment + 1;
      stopping := stopping || answer.stops;
      var n := 0;
      while n < |answer.others|
        invariant n <= |answer.others| && Since(start, db.Stored()) && i < |db.attempts|
        invariant Settled(old(db.Stored()), i) ==> Settled(db.Stored(), i)
        invariant moment == old(moment) + 1 && (old(stopping) ==> stopping)
      {
        CommitOther(i, answer.others[n]);
        n := n + 1;
      }
    }

    method CommitOther(i: nat, step: Step)
      requires Since(start, db.Stored()) && i < |db.attempts|
      modifies db
      ensures Since(start, db.Stored()) && i < |db.attempts|
      ensures Settled(old(db.Stored()), i) ==> Settled(db.Stored(), i)
    {
      SinceIsLater(start, db.Stored());
      SinceFurther(start, db.Stored(), step, i);
      var _ := db.WithTransaction(step);
    }

    /** Waits for the answer to a question. */
    method Ask(i: nat, question: Question) returns (answer: Answer)
      requires Working(i) && (question == Submit ==> MaySubmit(world, task, log.answers))
      modifies this`stopping, this`moment, this`log, db
      ensures Working(i) && (old(stopping) ==> stopping)
      ensures Settled(old(db.Stored()), i) ==> Settled(db.Stored(), i)
      ensures log == WithAnswer(old(log), Asked(question, old(moment))) && answer == world(old(moment))
      ensures Asks(log.answers, question) && Heard(world, log.answers) == answer
      ensures Before(log.answers) == old(log.answers)
      ensures StreamNamed(world, log.answers) <==>
              || StreamNamed(world, old(log.answers))
              || (question == Stream && NamesOutput(Events(answer.messages)))
    {
      ghost var asked := Asked(question, moment);
      AnswerIsLawful(world, task, log, asked);
      OneMore(world, log, asked);
      answer := Await(i);
      log := WithAnswer(log, asked);
    }

    // ------------------------------------------------------- transactions after a pause

    method Transaction(i: nat, step: Step) returns (r: Result<(), Error>)
      requires Working(i) && Warranted(world, task, log, step) && !step.StepFinishSuccess?
      modifies this`stopping, this`moment, this`log, db
      ensures Working(i) && (old(stopping) ==> stopping)
      ensures log == WithTry(old(log), step, r.Success?)
    {
      var _ := Await(i);
      r := Try(i, step);
    }

    method FailAttempt(i: nat, ending: CP.Ending, code: FailureCode) returns (r: Outcome)
      requires Working(i) && FailureWarranted(world, task, log, ending, code)
      modifies this`stopping, this`moment, this`log, db
      ensures Working(i) && (r == Returned ==> Left(i))
      ensures old(stopping) ==> stopping
      ensures log == WithTry(old(log), CP.StepFailAttempt(i, ending, code), r == Returned)
    {
      var _ := Await(i);
      var committed := Try(i, CP.StepFailAttempt(i, ending, code));
      r := if committed.Success? then Returned else Threw;
    }

    method ReadArtifact(i: nat) returns (saw: bool)
      requires Working(i)
      modifies this`stopping, this`moment, db
      ensures Working(i) && (old(stopping) ==> stopping) && (saw ==> Settled(db.Stored(), i))
    {
      var _ := Await(i);
      saw := i in db.artifacts;
      if saw { StoredMeansSettled(start, db.Stored(), i); }
    }

    method ReadEvaluation(i: nat) returns (saw: Option<Verdict>)
      requires Working(i)
      modifies this`stopping, this`moment, db
      ensures Working(i) && (old(stopping) ==> stopping) && (saw.Some? ==> Settled(db.Stored(), i))
      ensures Settled(old(db.Stored()), i) ==> Settled(db.Stored(), i)
    {
      var _ := Await(i);
      saw := CP.EvaluationOf(db.Stored(), i);
      if saw.Some? { StoredMeansSettled(start, db.Stored(), i); }
    }

    /** A missing output fails the attempt, and so does failing to fail it. */
    method FailMissingOutput(i: nat) returns (r: Outcome)
      requires Working(i) && Says(world, log.answers) == SaysSuccess && !OutputKnown(world, log.answers)
      modifies this`stopping, this`moment, this`log, db
      ensures Working(i) && (r == Returned ==> Left(i))
      ensures old(stopping) ==> stopping
    {
      r := FailAttempt(i, CP.EndFailed, ArtifactDownloadFailed);
      if r == Threw { r := FailAttempt(i, CP.EndFailed, ArtifactStorageFailed); }
    }

    method Judge(i: nat, sawArtifact: bool, sawEvaluation: Option<Verdict>) returns (r: Outcome)
      requires Working(i) && Asks(log.answers, Ingest) && Heard(world, log.answers).ingested
      requires Says(world, Before(log.answers)) == SaysSuccess
      requires !sawArtifact ==> OutputKnown(world, Before(log.answers))
      requires sawArtifact || sawEvaluation.Some? ==> Settled(db.Stored(), i)
      modifies this`stopping, this`moment, this`log, db
      ensures Working(i) && (r == Returned ==> Left(i))
      ensures old(stopping) ==> stopping
    {
      var evaluated := Ask(i, Evaluate);
      var verdict := if sawEvaluation.Some? then sawEvaluation else evaluated.verdict;
      if verdict.None? { return Threw; }
      r := StoreVerdict(i, sawArtifact, sawEvaluation, verdict.value);
    }

    method StoreVerdict(i: nat, sawArtifact: bool, sawEvaluation: Option<Verdict>, verdict: Verdict)
      returns (r: Outcome)
      requires Working(i) && FinishWarranted(world, log.answers, sawArtifact, sawEvaluation, verdict)
      requires sawArtifact || sawEvaluation.Some? ==> Settled(db.Stored(), i)
      modifies this`log, db
      ensures Working(i) && (r == Returned ==> Left(i))
    {
      var committed := Try(i, CP.StepFinishSuccess(i, sawArtifact, sawEvaluation, verdict));
      r := if committed.Success? then Returned else Threw;
    }

    /** Reads the attempt, its artifact and its evaluation, brings the output in and stores a verdict. */
    method FinishSuccess(i: nat, output: bool) returns (r: Outcome)
      requires Working(i) && Says(world, log.answers) == SaysSuccess && output == OutputKnown(world, log.answers)
      modifies this`stopping, this`moment, this`log, db
      ensures Working(i) && (r == Returned ==> Left(i))
      ensures old(stopping) ==> stopping
    {
      var _ := Await(i);
      if Settled(db.Stored(), i) { return Returned; }
      var sawArtifact := ReadArtifact(i);
      var sawEvaluation := ReadEvaluation(i);
      if !sawArtifact && !output {
        r := FailMissingOutput(i);
        return;
      }
      var ingest := Ask(i, Ingest);
      if !ingest.ingested {
        r := FailAttempt(i, CP.EndFailed, ArtifactStorageFailed);
        return;
      }
      r := Judge(i, sawArtifact, sawEvaluation);
    }

    // -------------------------------------------------------------- observing the executor

    /** What one event of the stream makes the worker do; `done` when the observation returns. */
    method HandleEvent(
        i: nat, event: Observer.CanonicalEvent, output: bool, ghost earlier: seq<Observer.CanonicalEvent>)
      returns (r: Outcome, done: bool, output': bool)
      requires Working(i) && Asks(log.answers, Stream) && !StreamNamed(world, Before(log.answers))
      requires Upcoming(Heard(world, log.answers).messages, earlier, event) && output == NamesOutput(earlier)
      modifies this`stopping, this`moment, this`log, db
      ensures Working(i) && (old(stopping) ==> stopping)
      ensures r == Returned && done ==> Left(i)
      ensures r == Returned && !done ==>
                && log.answers == old(log.answers) && NoneSaid(earlier + [event])
                && output' == NamesOutput(earlier + [event])
    {
      NextSaid(Heard(world, log.answers).messages, earlier, event);
      r, done, output' := Returned, false, output;
      match event.kind {
        case Started =>
          var committed := Transaction(i, CP.StepMarkRunning(i));
          if committed.Failure? { r := Threw; }
        case Executing =>
          var committed := Transaction(i, CP.StepMarkRunning(i));
          if committed.Failure? { r := Threw; }
        case Progress =>
          var committed := Transaction(i, CP.StepMarkProgress(i));
          if committed.Failure? { r := Threw; }
        case Executed => output' := output || Observer.HasOutput(event.data);
        case Succeeded =>
          r := FinishSuccess(i, output);
          done := true;
        case FailedEvent =>
          r := FailAttempt(i, CP.EndFailed, ComfyExecutionFailed);
          done := true;
        case Interrupted =>
          r := FailAttempt(i, CP.EndCancelled, ComfyInterrupted);
          done := true;
      }
    }

    /** The first n messages of the stream told no end. */
    ghost predicate Followed(messages: seq<Observer.Message>, n: nat, memory: Observer.Memory, output: bool)
      reads this`log
      requires Observer.AllReceived(messages) && n <= |messages|
    {
      && Asks(log.answers, Stream) && messages == Heard(world, log.answers).messages
      && !StreamNamed(world, Before(log.answers)) && NoneSaid(Events(messages[..n]))
      && output == NamesOutput(Events(messages[..n]))
      && memory == Observer.RememberedAfter(Observer.NOTHING, messages[..n])
    }

    method FollowOne(i: nat, observer: Observer.ComfyObserver, messages: seq<Observer.Message>, n: nat, output: bool)
      returns (r: Outcome, done: bool, output': bool)
      requires Working(i) && Observer.AllReceived(messages) && n < |messages|
      requires Followed(messages, n, observer.Remembers(), output)
      modifies this`stopping, this`moment, this`log, db, observer
      ensures Working(i) && (old(stopping) ==> stopping) && (r == Returned && done ==> Left(i))
      ensures r == Returned && !done ==>
                log.answers == old(log.answers) && Followed(messages, n + 1, observer.Remembers(), output')
    {
      EventsUpTo(messages, n);
      r, done, output' := Returned, false, output;
      var event := observer.Observe(messages[n]);
      if event.Some? { r, done, output' := HandleEvent(i, event.value, output, Events(messages[..n])); }
    }

    /** Reads the stream until an event ends the observation, something throws, or it closes. */
    method Follow(i: nat, messages: seq<Observer.Message>) returns (r: Outcome, done: bool, output: bool)
      requires Working(i) && Observer.AllReceived(messages)
      requires Asks(log.answers, Stream) && messages == Heard(world, log.answers).messages
      requires !StreamNamed(world, Before(log.answers))
      modifies this`stopping, this`moment, this`log, db
      ensures Working(i) && (old(stopping) ==> stopping) && (r == Returned && done ==> Left(i))
      ensures r == Returned && !done ==> log.answers == old(log.answers) && output == NamesOutput(Events(messages))
    {
      var observer := new Observer.ComfyObserver();
      r, done, output := Returned, false, false;
      var n := 0;
      while n < |messages| && r == Returned && !done
        invariant n <= |messages| && Working(i) && (old(stopping) ==> stopping)
        invariant r == Returned && done ==> Left(i)
        invariant r == Returned && !done ==>
                    log.answers == old(log.answers) && Followed(messages, n, observer.Remembers(), output)
      {
        r, done, output := FollowOne(i, observer, messages, n, output);
        n := n + 1;
      }
      if r == Returned && !done { assert messages[..n] == messages; }
    }

    /** What a history entry that ended makes of the attempt; `done` when it had ended. */
    method HandleHistory(i: nat, history: History, output: bool) returns (r: Outcome, done: bool)
      requires Working(i) && Asks(log.answers, LookUp) && history == Heard(world, log.answers).history
      requires output == StreamNamed(world, log.answers)
      modifies this`stopping, this`moment, this`log, db
      ensures Working(i) && (old(stopping) ==> stopping)
      ensures r == Returned && done ==> Left(i)
      ensures !done ==> r == Returned && log == old(log) && Says(world, log.answers) == SaysNothing
    {
      r, done := Returned, false;
      if history.Found? && history.status == HistorySuccess {
        r := FinishSuccess(i, output || history.hasOutput);
        done := true;
      } else if history.Found? && history.status == HistoryError {
        r := FailAttempt(i, CP.EndFailed, ComfyExecutionFailed);
        done := true;
      } else if history.Found? && history.status == HistoryInterrupted {
        r := FailAttempt(i, CP.EndCancelled, ComfyInterrupted);
        done := true;
      }
    }

    method Poll(i: nat, output: bool, ghost silent: nat) returns (r: Outcome, done: bool)
      requires Working(i) && output == StreamNamed(world, log.answers) && Silent(world, log.answers, silent)
      modifies this`stopping, this`moment, this`polls, this`log, db
      ensures Working(i) && (r == Returned && done ==> Left(i))
      ensures (old(stopping) ==> stopping) && polls == old(polls) + 1
      ensures r == Returned && !done ==>
                output == StreamNamed(world, log.answers) && Silent(world, log.answers, silent + 1)
    {
      var answer := Ask(i, LookUp);
      polls := polls + 1;
      if answer.history.LookupThrows? { return Threw, false; }
      r, done := HandleHistory(i, answer.history, output);
    }

    method PollAndWait(i: nat, output: bool, retry: nat) returns (r: Outcome, done: bool)
      requires Working(i) && output == StreamNamed(world, log.answers) && Silent(world, log.answers, retry)
      modifies this`stopping, this`moment, this`polls, this`slept, this`log, db
      ensures Working(i) && (old(stopping) ==> stopping) && (r == Returned && done ==> Left(i))
      ensures r == Returned && !done ==>
                output == StreamNamed(world, log.answers) && Silent(world, log.answers, retry + 1)
      ensures polls == old(polls) + 1
      ensures slept == old(slept) + if r == Returned && !done && retry < maxReconnects then 10 * Pow2(retry) else 0
    {
      r, done := Poll(i, output, retry);
      if r == Returned && !done && retry < maxReconnects { slept := slept + 10 * Pow2(retry); }
    }

    /** Polls history until the prompt ended, backing off 10 * 2^retry milliseconds between polls;
        a prompt that never ends times out. */
    method Reconcile(i: nat, output: bool) returns (r: Outcome)
      requires Working(i) && output == StreamNamed(world, log.answers)
      modifies this`stopping, this`moment, this`polls, this`slept, this`log, db
      ensures Working(i) && (r == Returned ==> Left(i))
      ensures old(stopping) ==> stopping
      ensures old(polls) < polls <= old(polls) + maxReconnects + 1
      ensures old(slept) <= slept <= old(slept) + 10 * (Pow2(maxReconnects) - 1)
    {
      var ended;
      r, ended := PollAll(i, output);
      if r == Threw || ended { return; }
      r := FailAttempt(i, CP.EndTimedOut, GenerationTimeout);
    }

    method PollAll(i: nat, output: bool) returns (r: Outcome, ended: bool)
      requires Working(i) && output == StreamNamed(world, log.answers)
      modifies this`stopping, this`moment, this`polls, this`slept, this`log, db
      ensures Working(i) && (r == Returned && ended ==> Left(i))
      ensures r == Returned && !ended ==> Silent(world, log.answers, maxReconnects + 1)
      ensures old(stopping) ==> stopping
      ensures old(polls) < polls <= old(polls) + maxReconnects + 1
      ensures old(slept) <= slept <= old(slept) + 10 * (Pow2(maxReconnects) - 1)
    {
      Pow2Grows(0, maxReconnects);
      r, ended := Returned, false;
      var retry := 0;
      while r == Returned && !ended && retry <= maxReconnects
        invariant retry <= maxReconnects + 1 && (old(stopping) ==> stopping)
        invariant Working(i) && (r == Returned && ended ==> Left(i))
        invariant r == Returned && !ended ==>
                    output == StreamNamed(world, log.answers) && Silent(world, log.answers, retry)
        invariant polls == old(polls) + retry && (retry == 0 ==> r == Returned && !ended)
        invariant old(slept) <= slept <= old(slept) + 10 * (Pow2(maxReconnects) - 1)
        invariant r == Returned && !ended && retry <= maxReconnects ==> slept == old(slept) + 10 * (Pow2(retry) - 1)
      {
        r, ended := PollAndWait(i, output, retry);
        if retry < maxReconnects { Pow2Grows(retry + 1, maxReconnects); }
        retry := retry + 1;
      }
    }

    /** An exception out of the stream, unless it is a disconnection, ends the observation: quietly when
        stopping, as a timeout when the signal was aborted, and with that exception otherwise. */
    method Interrupted(i: nat) returns (r: Outcome)
      requires Working(i)
      modifies this`stopping, this`moment, this`log, db
      ensures Working(i) && (old(stopping) ==> stopping)
      ensures r == Returned ==> stopping || Left(i)
    {
      var answer := Ask(i, Signal);
      if !answer.aborted { return Threw; }
      if stopping { return Returned; }
      r := FailAttempt(i, CP.EndTimedOut, GenerationTimeout);
    }

    /** The history found before observing may already tell the end. */
    method HandleKnown(i: nat, history: History) returns (r: Outcome, done: bool)
      requires Working(i) && Asks(log.answers, LookUp) && history == Heard(world, log.answers).history
      requires !StreamNamed(world, log.answers)
      modifies this`stopping, this`moment, this`log, db
      ensures Working(i) && (old(stopping) ==> stopping)
      ensures r == Returned && done ==> Left(i)
      ensures !done ==> !StreamNamed(world, log.answers)
    {
      if history.Found? && history.status == HistorySuccess {
        var running := Transaction(i, CP.StepMarkRunning(i));
        if running.Failure? { return Threw, true; }
      }
      r, done := HandleHistory(i, history, false);
    }

    method ObserveStream(i: nat) returns (r: Outcome, done: bool, output: bool)
      requires Working(i) && AllReceived() && !StreamNamed(world, log.answers)
      modifies this`stopping, this`moment, this`log, db
      ensures Working(i) && (old(stopping) ==> stopping)
      ensures r == Returned && done ==> stopping || Left(i)
      ensures r == Returned && !done ==> output == StreamNamed(world, log.answers)
    {
      var answer := Ask(i, Stream);
      r, done, output := Follow(i, answer.messages);
      if r == Threw || (!done && answer.streamEnd == StreamThrows) {
        done := true;
        r := Interrupted(i);
      }
    }

    method ReconcileOrObserve(i: nat, history: History) returns (r: Outcome)
      requires Working(i) && AllReceived() && Asks(log.answers, LookUp) && history == Heard(world, log.answers).history
      requires !StreamNamed(world, log.answers)
      modifies this`stopping, this`moment, this`polls, this`slept, this`log, db
      ensures Working(i) && (old(stopping) ==> stopping)
      ensures r == Returned ==> stopping || Left(i)
      ensures polls <= old(polls) + maxReconnects + 1 && slept <= old(slept) + 10 * (Pow2(maxReconnects) - 1)
    {
      Pow2Grows(0, maxReconnects);
      var done;
      r, done := HandleKnown(i, history);
      if r == Threw || done { return; }
      var output;
      r, done, output := ObserveStream(i);
      if r == Threw || done { return; }
      r := Reconcile(i, output);
    }

    // --------------------------------------------------------------- the claimed attempt

    /** After an uncertain submission only history can tell the prompt. */
    method ResolveUncertain(i: nat) returns (r: Outcome, done: bool, history: History)
      requires Working(i) && Asks(log.answers, Submit) && Heard(world, log.answers).submission.SubmitUncertain?
      modifies this`stopping, this`moment, this`log, db
      ensures Working(i) && (old(stopping) ==> stopping)
      ensures r == Returned && done ==> Left(i)
      ensures r == Returned && !done ==> Located(history) && SameStreams(old(log.answers))
    {
      var answer := Ask(i, LookUp);
      history := answer.history;
      match history {
        case LookupThrows => r, done := Threw, true;
        case NoHistory =>
          r := FailAttempt(i, CP.EndFailed, ComfySubmissionUncertain);
          done := true;
        case Found(prompt, _, _) =>
          var recorded := Transaction(i, CP.StepPersistSubmitted(i, prompt));
          r, done := if recorded.Failure? then Threw else Returned, false;
      }
    }

    /** Submits the workflow and records its prompt; whatever goes wrong on the way fails the attempt. */
    method Submission(i: nat) returns (r: Outcome, done: bool, history: History)
      requires Working(i) && MaySubmit(world, task, log.answers)
      modifies this`stopping, this`moment, this`log, db
      ensures Working(i) && (old(stopping) ==> stopping)
      ensures r == Returned && done ==> Left(i)
      ensures r == Returned && !done ==> Located(history) && SameStreams(old(log.answers))
    {
      var answer := Ask(i, Submit);
      history := NoHistory;
      if answer.submission.SubmitUncertain? {
        r, done, history := ResolveUncertain(i);
        return;
      }
      if answer.submission.SubmitReturns? {
        var recorded;
        recorded, history := Record(i, answer.submission.prompt);
        if recorded { return Returned, false, history; }
      }
      r := FailAttempt(i, CP.EndFailed, ComfyUnavailable);
      done := true;
    }

    /** Looks up the history of the prompt that a submission returned, and records the prompt. */
    method Record(i: nat, prompt: PromptId) returns (recorded: bool, history: History)
      requires Working(i) && SubmissionReturned(world, log.answers)
      requires prompt == Heard(world, log.answers).submission.prompt
      modifies this`stopping, this`moment, this`log, db
      ensures Working(i) && (old(stopping) ==> stopping)
      ensures recorded ==> Located(history) && SameStreams(old(log.answers))
      ensures !recorded ==> FailureWarranted(world, task, log, CP.EndFailed, ComfyUnavailable)
    {
      var looked := Ask(i, LookUp);
      history := looked.history;
      if history.LookupThrows? { return false, history; }
      var tried := Transaction(i, CP.StepPersistSubmitted(i, prompt));
      recorded := tried.Success?;
    }

    /** Without history, a recovered attempt is given up as uncertain and a claimed one is submitted. */
    method SubmitUnlessRecovered(i: nat, claimed: AttemptStatus) returns (r: Outcome, done: bool, history: History)
      requires Working(i) && claimed == task.claimed && Located(NoHistory)
      modifies this`stopping, this`moment, this`log, db
      ensures Working(i) && (old(stopping) ==> stopping)
      ensures r == Returned && done ==> Left(i)
      ensures r == Returned && !done ==> claimed == Claimed
      ensures r == Returned && !done ==> Located(history) && SameStreams(old(log.answers))
    {
      history := NoHistory;
      if claimed != Claimed {
        r := FailAttempt(i, CP.EndFailed, ComfySubmissionUncertain);
        done := true;
        return;
      }
      var revalidated := Ask(i, Revalidate);
      if revalidated.drifted {
        r := FailAttempt(i, CP.EndFailed, CapabilityDrift);
        done := true;
        return;
      }
      r, done, history := Submission(i);
    }

    /** Announces the submission of a row that was loaded as claimed, and looks for its history. */
    method AnnounceAndLook(i: nat, loaded: AttemptStatus, prompt: Option<PromptId>)
      returns (r: Outcome, history: History, prompt': Option<PromptId>)
      requires Working(i) && loaded == task.loaded
      requires Asks(log.answers, Check) && Heard(world, log.answers).workflow == Usable
      modifies this`stopping, this`moment, this`log, db
      ensures Working(i) && (old(stopping) ==> stopping)
      ensures r == Returned ==> Located(history) && SameStreams(old(log.answers))
    {
      history, prompt' := NoHistory, prompt;
      if loaded == Claimed {
        var answer := Await(i);
        var intended := Try(i, CP.StepSubmitIntent(i, workerId, answer.leaseUntil));
        if intended.Failure? { return Threw, history, prompt'; }
        prompt' := db.attempts[i].prompt;
      }
      var answer := Ask(i, LookUp);
      history := answer.history;
      r := if history.LookupThrows? then Threw else Returned;
    }

    method Locate(i: nat, claimed: AttemptStatus, loaded: AttemptStatus, prompt: Option<PromptId>)
      returns (r: Outcome, done: bool, history: History)
      requires Working(i) && claimed == task.claimed && loaded == task.loaded
      requires Asks(log.answers, Check) && Heard(world, log.answers).workflow == Usable
      modifies this`stopping, this`moment, this`log, db
      ensures Working(i) && (old(stopping) ==> stopping)
      ensures r == Returned && done ==> Left(i)
      ensures r == Returned && !done ==> Located(history) && SameStreams(old(log.answers))
    {
      var prompt';
      r, history, prompt' := AnnounceAndLook(i, loaded, prompt);
      done := false;
      if r == Threw { return; }
      if history.NoHistory? {
        r, done, history := SubmitUnlessRecovered(i, claimed);
      } else if prompt'.None? {
        var recorded := Transaction(i, CP.StepPersistSubmitted(i, history.prompt));
        if recorded.Failure? { r := Threw; }
      }
    }

    /** Spend never exceeds a budget, so the exit for an overspent project is never taken; a workflow
        that is missing or no longer validated fails the attempt. */
    method CheckUsable(i: nat) returns (r: Outcome, done: bool)
      requires Working(i)
      modifies this`stopping, this`moment, this`log, db
      ensures Working(i) && (old(stopping) ==> stopping)
      ensures r == Returned && done ==> Left(i)
      ensures r == Returned && !done ==>
                && Asks(log.answers, Check) && Heard(world, log.answers).workflow == Usable
                && SameStreams(old(log.answers))
    {
      r, done := Returned, false;
      var checked := Ask(i, Check);
      FindsBudgetKept(start, db.Stored(), i);
      var project := CP.ProjectOf(db.Stored(), i);
      assert project.budget.Some? ==> project.spent <= project.budget.value;
      match checked.workflow {
        case Usable =>
        case RevisionIsMissing =>
          r := FailAttempt(i, CP.EndFailed, CapabilityDrift);
          done := true;
        case RevisionNotValidated =>
          r := FailAttempt(i, CP.EndFailed, CapabilityDrift);
          done := true;
        case VersionIsMissing =>
          r := FailAttempt(i, CP.EndFailed, ComfyUnavailable);
          done := true;
      }
    }

    /** Every normal return leaves the attempt terminal or awaiting review, as the last answer says, unless
        the worker is stopping, and nothing is tried that no answer warrants; history is polled at most
        maxReconnects + 1 times while reconciling, and the pauses between polls add up to at most
        10 * (2^maxReconnects - 1) milliseconds. */
    method ProcessAttempt(i: nat, claimed: AttemptStatus) returns (r: Outcome)
      requires Inv(db.Stored()) && i < |db.attempts| && AllReceived()
      modifies this, db
      ensures Later(old(db.Stored()), db.Stored())
      ensures task.i == i && task.worker == workerId && task.claimed == claimed && task.reconnects == maxReconnects
      ensures Lawful(world, task, log)
      ensures r == Returned ==> stopping || (Settled(db.Stored(), i) && Concluded(world, log))
      ensures polls <= old(polls) + maxReconnects + 1 && slept <= old(slept) + 10 * (Pow2(maxReconnects) - 1)
    {
      start := db.Stored();
      Runs.FollowsItself(start);
      r := Process(i, claimed);
      SinceIsLater(start, db.Stored());
    }

    method Load(i: nat, claimed: AttemptStatus) returns (loaded: Attempt)
      requires Since(start, db.Stored()) && i < |db.attempts|
      modifies this`stopping, this`moment, this`log, this`task, db
      ensures Working(i) && task.claimed == claimed && task.loaded == loaded.status && log == NOTHING_YET
      ensures loaded == db.attempts[i]
    {
      var _ := Await(i);
      loaded := db.attempts[i];
      task := Task(i, workerId, maxReconnects, claimed, loaded.status);
      log := NOTHING_YET;
    }

    method Process(i: nat, claimed: AttemptStatus) returns (r: Outcome)
      requires Since(start, db.Stored()) && i < |db.attempts| && AllReceived()
      modifies this`stopping, this`moment, this`polls, this`slept, this`log, this`task, db
      ensures Working(i) && task.claimed == claimed
      ensures r == Returned ==> stopping || Left(i)
      ensures polls <= old(polls) + maxReconnects + 1 && slept <= old(slept) + 10 * (Pow2(maxReconnects) - 1)
    {
      Pow2Grows(0, maxReconnects);
      var loaded := Load(i, claimed);
      if Terminal(loaded.status) { return Returned; }
      var done;
      r, done := CheckUsable(i);
      if r == Threw || done { return; }
      var history;
      r, done, history := Locate(i, claimed, loaded.status, loaded.prompt);
      if r == Threw || done || stopping { return; }
      r := ReconcileOrObserve(i, history);
    }
  }
}
