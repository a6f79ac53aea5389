/** What a worker hears from outside while it processes an attempt, and which of its transactions each
    answer warrants (apps/api/src/generation.ts). */
module WorkerAnswers {
  import opened Wrappers
  import opened Domain
  import CP = ControlPlane
  import Observer

  datatype HistoryStatus = HistoryPending | HistorySuccess | HistoryError | HistoryInterrupted

  datatype History = LookupThrows | NoHistory | Found(prompt: PromptId, status: HistoryStatus, hasOutput: bool)

  datatype Submission = SubmitReturns(prompt: PromptId) | SubmitUncertain | SubmitThrows

  datatype StreamEnd = StreamCloses | StreamDisconnects | StreamThrows

  /** What the attempt's workflow is found to be before it is submitted. */
  datatype Usability = Usable | RevisionIsMissing | RevisionNotValidated | VersionIsMissing

  /** Everything the outside may do at one moment: what others commit, whether this worker is told to
      stop, and what the executor, the artifact store and the evaluator answer. */
  datatype Answer = Answer(
    others: seq<CP.Step>, stops: bool,
    workflow: Usability, history: History, drifted: bool, submission: Submission,
    messages: seq<Observer.Message>, streamEnd: StreamEnd, aborted: bool,
    ingested: bool, verdict: Option<Verdict>, leaseUntil: int)

  type World = nat -> Answer

  /** What a worker asks for: the attempt's workflow, its history, whether the executor's capabilities still
      fit, a submission, the event stream, the abort signal, the artifact, a verdict. */
  datatype Question = Check | LookUp | Revalidate | Submit | Stream | Signal | Ingest | Evaluate

  datatype Asked = Asked(question: Question, moment: nat)

  /** One of the worker's own transactions, and how many answers it had heard by then. */
  datatype Tried = Tried(step: CP.Step, committed: bool, heard: nat)

  datatype Log = Log(answers: seq<Asked>, tried: seq<Tried>)

  const NOTHING_YET := Log([], [])

  /** The attempt at hand, with the status its claim returned and the one loaded since. */
  datatype Task = Task(i: nat, worker: WorkerId, reconnects: nat, claimed: AttemptStatus, loaded: AttemptStatus)

  function Last(answers: seq<Asked>): Asked
    requires answers != []
  {
    answers[|answers| - 1]
  }

  function Before(answers: seq<Asked>): seq<Asked>
    requires answers != []
  {
    answers[..|answers| - 1]
  }

  predicate Asks(answers: seq<Asked>, question: Question) {
    answers != [] && Last(answers).question == question
  }

  /** The answer to the last question. */
  function Heard(world: World, answers: seq<Asked>): Answer
    requires answers != []
  {
    world(Last(answers).moment)
  }

  // ------------------------------------------------------------------- how an execution ended

  datatype Said = SaysNothing | SaysSuccess | SaysError | SaysInterrupted

  function SaidBy(kind: Observer.EventKind): Said {
    match kind
    case Succeeded => SaysSuccess
    case FailedEvent => SaysError
    case Interrupted => SaysInterrupted
    case Started => SaysNothing
    case Executing => SaysNothing
    case Progress => SaysNothing
    case Executed => SaysNothing
  }

  /** What the first event says that tells an end. */
  function FirstSaid(events: seq<Observer.CanonicalEvent>): Said {
    if events == [] then SaysNothing
    else if SaidBy(events[0].kind) != SaysNothing then SaidBy(events[0].kind)
    else FirstSaid(events[1..])
  }

  /** Whether an output is named before any event tells an end. */
  predicate NamesOutput(events: seq<Observer.CanonicalEvent>) {
    events != [] && SaidBy(events[0].kind) == SaysNothing
    && ((events[0].kind == Observer.Executed && Observer.HasOutput(events[0].data)) || NamesOutput(events[1..]))
  }

  predicate HasKind(events: seq<Observer.CanonicalEvent>, kind: Observer.EventKind) {
    exists n :: 0 <= n < |events| && events[n].kind == kind
  }

  /** The events of a stream once its repeats are dropped. */
  function Events(messages: seq<Observer.Message>): seq<Observer.CanonicalEvent> {
    if Observer.AllReceived(messages) then Observer.Output(Observer.NOTHING, messages) else []
  }

  function SaidInHistory(history: History): Said {
    match history
    case Found(_, HistorySuccess, _) => SaysSuccess
    case Found(_, HistoryError, _) => SaysError
    case Found(_, HistoryInterrupted, _) => SaysInterrupted
    case _ => SaysNothing
  }

  /** How the last answer says the execution ended. */
  function Says(world: World, answers: seq<Asked>): Said {
    if Asks(answers, Stream) then FirstSaid(Events(Heard(world, answers).messages))
    else if Asks(answers, LookUp) then SaidInHistory(Heard(world, answers).history)
    else SaysNothing
  }

  /** Whether some stream named an output. */
  predicate StreamNamed(world: World, answers: seq<Asked>) {
    answers != []
    && ((Asks(answers, Stream) && NamesOutput(Events(Heard(world, answers).messages)))
        || StreamNamed(world, Before(answers)))
  }

  /** Whether there is an output to bring in: of a stream, or of the history that told the end. */
  predicate OutputKnown(world: World, answers: seq<Asked>) {
    || StreamNamed(world, answers)
    || (Asks(answers, LookUp) && Heard(world, answers).history.Found? && Heard(world, answers).history.hasOutput)
  }

  /** The last k answers are histories that tell no end. */
  predicate Silent(world: World, answers: seq<Asked>, k: nat)
    decreases k
  {
    k == 0
    || (Asks(answers, LookUp) && !Heard(world, answers).history.LookupThrows? && Says(world, answers) == SaysNothing
        && Silent(world, Before(answers), k - 1))
  }

  predicate SubmissionReturned(world: World, answers: seq<Asked>) {
    Asks(answers, Submit) && Heard(world, answers).submission.SubmitReturns?
  }

  // ------------------------------------------------------------ what each transaction follows

  /** A prompt comes from a history that was found, or from the submission before one was looked up. */
  predicate PromptHeard(world: World, answers: seq<Asked>, prompt: PromptId) {
    && Asks(answers, LookUp)
    && var history := Heard(world, answers).history;
       || (history.Found? && history.prompt == prompt)
       || (!history.LookupThrows? && SubmissionReturned(world, Before(answers))
           && Heard(world, Before(answers)).submission.prompt == prompt)
  }

  /** The last transaction tried since the last answer was one of these, and was refused. */
  predicate Refused(log: Log, step: CP.Step) {
    log.tried != [] && log.tried[|log.tried| - 1] == Tried(step, false, |log.answers|)
  }

  /** The prompt that a submission returned could not be recorded. */
  predicate RecordRefused(world: World, task: Task, log: Log) {
    && Asks(log.answers, LookUp) && SubmissionReturned(world, Before(log.answers))
    && Refused(log, CP.StepPersistSubmitted(task.i, Heard(world, Before(log.answers)).submission.prompt))
  }

  /** Each failure is recorded for its own reason and with its own ending. */
  predicate FailureWarranted(world: World, task: Task, log: Log, ending: CP.Ending, code: FailureCode) {
    var answers := log.answers;
    match code
    case ComfyExecutionFailed => ending == CP.EndFailed && Says(world, answers) == SaysError
    case ComfyInterrupted => ending == CP.EndCancelled && Says(world, answers) == SaysInterrupted
    case GenerationTimeout =>
      && ending == CP.EndTimedOut
      && ((Asks(answers, Signal) && Heard(world, answers).aborted) || Silent(world, answers, task.reconnects + 1))
    case CapabilityDrift =>
      && ending == CP.EndFailed
      && (|| (Asks(answers, Revalidate) && Heard(world, answers).drifted)
          || (Asks(answers, Check) && (Heard(world, answers).workflow == RevisionIsMissing
                                       || Heard(world, answers).workflow == RevisionNotValidated)))
    case ComfyUnavailable =>
      && ending == CP.EndFailed
      && (|| (Asks(answers, Check) && Heard(world, answers).workflow == VersionIsMissing)
          || (Asks(answers, Submit) && Heard(world, answers).submission.SubmitThrows?)
          || (Asks(answers, LookUp) && SubmissionReturned(world, Before(answers))
              && Heard(world, answers).history.LookupThrows?)
          || RecordRefused(world, task, log))
    case ComfySubmissionUncertain =>
      && ending == CP.EndFailed && Asks(answers, LookUp) && Heard(world, answers).history.NoHistory?
      && (task.claimed != Claimed || (Asks(Before(answers), Submit)
                                      && Heard(world, Before(answers)).submission.SubmitUncertain?))
    case ArtifactDownloadFailed =>
      ending == CP.EndFailed && Says(world, answers) == SaysSuccess && !OutputKnown(world, answers)
    case ArtifactStorageFailed =>
      && ending == CP.EndFailed
      && (|| (Asks(answers, Ingest) && !Heard(world, answers).ingested && Says(world, Before(answers)) == SaysSuccess)
          || (Says(world, answers) == SaysSuccess && !OutputKnown(world, answers)
              && Refused(log, CP.StepFailAttempt(task.i, CP.EndFailed, ArtifactDownloadFailed))))
    case MediaInvalid => false
    case ReviewRejected => false
    case BudgetExceededCode => false
  }

  /** A finish follows a success, an output brought in and a verdict. */
  predicate FinishWarranted(
      world: World, answers: seq<Asked>, sawArtifact: bool, sawEvaluation: Option<Verdict>, verdict: Verdict)
  {
    && Asks(answers, Evaluate) && Asks(Before(answers), Ingest) && Heard(world, Before(answers)).ingested
    && Says(world, Before(Before(answers))) == SaysSuccess
    && (!sawArtifact ==> OutputKnown(world, Before(Before(answers))))
    && (if sawEvaluation.Some? then verdict == sawEvaluation.value else Heard(world, answers).verdict == Some(verdict))
  }

  predicate Warranted(world: World, task: Task, log: Log, step: CP.Step) {
    var answers := log.answers;
    match step
    case StepSubmitIntent(i, w, _) =>
      && i == task.i && w == task.worker && task.loaded == Claimed
      && Asks(answers, Check) && Heard(world, answers).workflow == Usable
    case StepPersistSubmitted(i, prompt) => i == task.i && PromptHeard(world, answers, prompt)
    case StepMarkRunning(i) =>
      && i == task.i
      && (|| (Asks(answers, LookUp) && Says(world, answers) == SaysSuccess)
          || (Asks(answers, Stream)
              && (HasKind(Events(Heard(world, answers).messages), Observer.Started)
                  || HasKind(Events(Heard(world, answers).messages), Observer.Executing))))
    case StepMarkProgress(i) =>
      i == task.i && Asks(answers, Stream) && HasKind(Events(Heard(world, answers).messages), Observer.Progress)
    case StepFinishSuccess(i, sawArtifact, sawEvaluation, verdict) =>
      i == task.i && FinishWarranted(world, answers, sawArtifact, sawEvaluation, verdict)
    case StepFailAttempt(i, ending, code) => i == task.i && FailureWarranted(world, task, log, ending, code)
    case _ => false
  }

  /** A worker submits an attempt its claim took from the queue, that has no history and whose workflow the
      executor still supports. */
  predicate MaySubmit(world: World, task: Task, answers: seq<Asked>) {
    && task.claimed == Claimed && Asks(answers, Revalidate) && !Heard(world, answers).drifted
    && Asks(Before(answers), LookUp) && Heard(world, Before(answers)).history.NoHistory?
  }

  function Until(log: Log, n: nat): Log
    requires n < |log.tried| && log.tried[n].heard <= |log.answers|
  {
    Log(log.answers[..log.tried[n].heard], log.tried[..n])
  }

  ghost predicate LawfulTry(world: World, task: Task, log: Log, n: nat)
    requires n < |log.tried|
  {
    log.tried[n].heard <= |log.answers| && Warranted(world, task, Until(log, n), log.tried[n].step)
  }

  ghost predicate LawfulAsk(world: World, task: Task, log: Log, n: nat)
    requires n < |log.answers|
  {
    log.answers[n].question == Submit ==> MaySubmit(world, task, log.answers[..n])
  }

  /** Everything the worker tried was warranted by what it had heard. */
  ghost predicate Lawful(world: World, task: Task, log: Log) {
    && (forall n :: 0 <= n < |log.tried| ==> LawfulTry(world, task, log, n))
    && (forall n :: 0 <= n < |log.answers| ==> LawfulAsk(world, task, log, n))
  }

  function WithAnswer(log: Log, asked: Asked): Log { log.(answers := log.answers + [asked]) }

  function WithTry(log: Log, step: CP.Step, committed: bool): Log {
    log.(tried := log.tried + [Tried(step, committed, |log.answers|)])
  }

  lemma AnswerIsLawful(world: World, task: Task, log: Log, asked: Asked)
    requires Lawful(world, task, log) && (asked.question == Submit ==> MaySubmit(world, task, log.answers))
    ensures Lawful(world, task, WithAnswer(log, asked))
  {
    var log' := WithAnswer(log, asked);
    forall n | 0 <= n < |log'.tried| ensures LawfulTry(world, task, log', n) {
      assert LawfulTry(world, task, log, n);
      assert Until(log', n) == Until(log, n);
    }
    forall n | 0 <= n < |log'.answers| ensures LawfulAsk(world, task, log', n) {
      assert log'.answers[..n] == log.answers[..n];
      if n < |log.answers| {
        assert LawfulAsk(world, task, log, n);
      } else {
        assert log.answers[..n] == log.answers;
      }
    }
  }

  lemma TryIsLawful(world: World, task: Task, log: Log, step: CP.Step, committed: bool)
    requires Lawful(world, task, log) && Warranted(world, task, log, step)
    ensures Lawful(world, task, WithTry(log, step, committed))
  {
    var log' := WithTry(log, step, committed);
    forall n | 0 <= n < |log'.tried| ensures LawfulTry(world, task, log', n) {
      assert log'.tried[..n] == log.tried[..n];
      if n < |log.tried| {
        assert LawfulTry(world, task, log, n);
        assert Until(log', n) == Until(log, n);
      } else {
        assert Until(log', n) == log;
      }
    }
    forall n | 0 <= n < |log'.answers| ensures LawfulAsk(world, task, log', n) {
      assert LawfulAsk(world, task, log, n);
    }
  }

  /** What one more answer leaves of the earlier ones. */
  lemma OneMore(world: World, log: Log, asked: Asked)
    ensures var answers := WithAnswer(log, asked).answers;
            && answers != [] && Last(answers) == asked && Before(answers) == log.answers
            && (StreamNamed(world, answers) <==>
                || StreamNamed(world, log.answers)
                || (asked.question == Stream && NamesOutput(Events(world(asked.moment).messages))))
  {
    assert Before(WithAnswer(log, asked).answers) == log.answers;
  }

  // --------------------------------------------------------------------- how the attempt is left

  /** Since the last answer, the worker committed an end of its part. */
  predicate Ended(log: Log) {
    && log.tried != []
    && var last := log.tried[|log.tried| - 1];
       last.committed && last.heard == |log.answers| && (last.step.StepFailAttempt? || last.step.StepFinishSuccess?)
  }

  /** A worker is done with an attempt that it found finished, before asking anything or after a success was
      told, and with one whose end it committed itself. */
  predicate Concluded(world: World, log: Log) {
    log.answers == [] || Says(world, log.answers) == SaysSuccess || Ended(log)
  }

  function LastStep(log: Log): CP.Step
    requires log.tried != []
  {
    log.tried[|log.tried| - 1].step
  }

  lemma LastIsWarranted(world: World, task: Task, log: Log)
    requires Lawful(world, task, log) && Ended(log)
    ensures Warranted(world, task, log.(tried := log.tried[..|log.tried| - 1]), LastStep(log))
  {
    var n := |log.tried| - 1;
    assert LawfulTry(world, task, log, n);
    assert log.answers[..|log.answers|] == log.answers;
  }

  /** So the last answer decides how a worker that is done has left the attempt. */
  lemma AnswerDecides(world: World, task: Task, log: Log)
    requires Lawful(world, task, log) && Concluded(world, log) && log.answers != []
    ensures var before := log.(tried := if log.tried == [] then [] else log.tried[..|log.tried| - 1]);
            var heard := Heard(world, log.answers);
            match Last(log.answers).question
            case Check =>
              Ended(log) && LastStep(log) == CP.StepFailAttempt(
                task.i, CP.EndFailed, if heard.workflow == VersionIsMissing then ComfyUnavailable else CapabilityDrift)
            case Revalidate =>
              Ended(log) && LastStep(log) == CP.StepFailAttempt(task.i, CP.EndFailed, CapabilityDrift)
            case Submit => Ended(log) && LastStep(log) == CP.StepFailAttempt(task.i, CP.EndFailed, ComfyUnavailable)
            case Signal => Ended(log) && LastStep(log) == CP.StepFailAttempt(task.i, CP.EndTimedOut, GenerationTimeout)
            case Ingest =>
              Ended(log) && LastStep(log) == CP.StepFailAttempt(task.i, CP.EndFailed, ArtifactStorageFailed)
            case Evaluate =>
              && Ended(log) && LastStep(log).StepFinishSuccess? && LastStep(log).i == task.i
              && (heard.verdict == Some(LastStep(log).verdict) || LastStep(log).evaluation.Some?)
            case Stream => SaidDecides(world, task, log)
            case LookUp =>
              || SaidDecides(world, task, log)
              || (Ended(log) && LastStep(log) == CP.StepFailAttempt(task.i, CP.EndFailed, ComfyUnavailable)
                  && (heard.history.LookupThrows? || RecordRefused(world, task, before)))
              || (Ended(log) && LastStep(log) == CP.StepFailAttempt(task.i, CP.EndFailed, ComfySubmissionUncertain)
                  && heard.history.NoHistory?)
              || (Ended(log) && LastStep(log) == CP.StepFailAttempt(task.i, CP.EndTimedOut, GenerationTimeout)
                  && Silent(world, log.answers, task.reconnects + 1))
  {
    if Ended(log) { LastIsWarranted(world, task, log); }
  }

  /** A told error fails the attempt and a told interruption cancels it; a success is left only to an attempt
      that was finished already, or fails it for want of an output. */
  predicate SaidDecides(world: World, task: Task, log: Log) {
    match Says(world, log.answers)
    case SaysNothing => false
    case SaysError => Ended(log) && LastStep(log) == CP.StepFailAttempt(task.i, CP.EndFailed, ComfyExecutionFailed)
    case SaysInterrupted => Ended(log) && LastStep(log) == CP.StepFailAttempt(task.i, CP.EndCancelled, ComfyInterrupted)
    case SaysSuccess =>
      Ended(log) ==>
        && !OutputKnown(world, log.answers)
        && (|| LastStep(log) == CP.StepFailAttempt(task.i, CP.EndFailed, ArtifactDownloadFailed)
            || LastStep(log) == CP.StepFailAttempt(task.i, CP.EndFailed, ArtifactStorageFailed))
  }

  // ---------------------------------------------------------------------- reading one stream

  /** No event so far tells an end. */
  predicate NoneSaid(events: seq<Observer.CanonicalEvent>) { FirstSaid(events) == SaysNothing }

  lemma {:induction false} SaidLater(earlier: seq<Observer.CanonicalEvent>, later: seq<Observer.CanonicalEvent>)
    requires NoneSaid(earlier)
    ensures FirstSaid(earlier + later) == FirstSaid(later)
    ensures NamesOutput(earlier + later) <==> NamesOutput(earlier) || NamesOutput(later)
  {
    if earlier == [] {
      assert earlier + later == later;
    } else {
      assert (earlier + later)[1..] == earlier[1..] + later;
      SaidLater(earlier[1..], later);
    }
  }

  /** The events `earlier` of a stream told no end, and `event` comes next. */
  ghost predicate Upcoming(
      messages: seq<Observer.Message>, earlier: seq<Observer.CanonicalEvent>, event: Observer.CanonicalEvent)
  {
    NoneSaid(earlier) && earlier + [event] <= Events(messages)
  }

  lemma NextSaid(messages: seq<Observer.Message>, earlier: seq<Observer.CanonicalEvent>, event: Observer.CanonicalEvent)
    requires Upcoming(messages, earlier, event)
    ensures HasKind(Events(messages), event.kind)
    ensures SaidBy(event.kind) != SaysNothing ==>
              && FirstSaid(Events(messages)) == SaidBy(event.kind)
              && (NamesOutput(Events(messages)) <==> NamesOutput(earlier))
    ensures SaidBy(event.kind) == SaysNothing ==>
              && NoneSaid(earlier + [event])
              && (NamesOutput(earlier + [event]) <==>
                  NamesOutput(earlier) || (event.kind == Observer.Executed && Observer.HasOutput(event.data)))
  {
    var all := Events(messages);
    var later := all[|earlier|..];
    assert all == earlier + later && later[0] == event;
    assert all[|earlier|] == event;
    SaidLater(earlier, later);
    SaidLater(earlier, [event]);
    assert [event][1..] == [];
  }

  lemma EventsUpTo(messages: seq<Observer.Message>, n: nat)
    requires Observer.AllReceived(messages) && n < |messages|
    ensures var memory := Observer.RememberedAfter(Observer.NOTHING, messages[..n]);
            var (memory', event) := Observer.Observed(memory, messages[n]);
            && Observer.RememberedAfter(Observer.NOTHING, messages[..n + 1]) == memory'
            && Events(messages[..n + 1])
               == (if event.Some? then Events(messages[..n]) + [event.value] else Events(messages[..n]))
            && Events(messages[..n + 1]) <= Events(messages)
  {
    var until := messages[..n + 1];
    assert until[..n] == messages[..n];
    assert messages == until + messages[n + 1..];
    Observer.StreamsCompose(Observer.NOTHING, until, messages[n + 1..], messages);
  }
}
