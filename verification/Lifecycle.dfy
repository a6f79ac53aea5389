/** What holds of attempts, shots and projects between any two transactions, over every
    interleaving of API calls, workers, crashes and lease expiries. */
module Lifecycle {
  import opened Wrappers
  import opened Domain
  import opened ControlPlane

  // ------------------------------------------------------------------ sums over attempts

  /** A measure of an attempt that is summed over all attempts. */
  datatype Tally =
    | LiveInShot(shot: nat)        // not terminal
    | BeforeReview(project: nat)   // neither terminal nor awaiting review
    | LiveInProject(project: nat)
    | AnyInProject(project: nat)
    | AnyInShot(shot: nat)
    | CostIn(project: nat)

  predicate Live(a: Attempt) { !Terminal(a.status) }

  predicate PreReview(a: Attempt) { Live(a) && a.status != AwaitingReview }

  function Weight(t: Tally, a: Attempt): nat {
    match t
    case LiveInShot(k) => if a.shot == k && Live(a) then 1 else 0
    case BeforeReview(q) => if a.project == q && PreReview(a) then 1 else 0
    case LiveInProject(q) => if a.project == q && Live(a) then 1 else 0
    case AnyInProject(q) => if a.project == q then 1 else 0
    case AnyInShot(k) => if a.shot == k then 1 else 0
    case CostIn(q) => if a.project == q then a.cost else 0
  }

  function Sum(t: Tally, attempts: seq<Attempt>): nat {
    if attempts == [] then 0
    else Sum(t, attempts[..|attempts| - 1]) + Weight(t, attempts[|attempts| - 1])
  }

  lemma SumAppend(t: Tally, attempts: seq<Attempt>, a: Attempt)
    ensures Sum(t, attempts + [a]) == Sum(t, attempts) + Weight(t, a)
  {
    assert (attempts + [a])[..|attempts|] == attempts;
  }

  lemma {:induction false} SumUpdate(t: Tally, attempts: seq<Attempt>, i: nat, a: Attempt)
    requires i < |attempts|
    ensures Sum(t, attempts[i := a]) + Weight(t, attempts[i]) == Sum(t, attempts) + Weight(t, a)
  {
    var n := |attempts| - 1;
    var init := attempts[..n];
    if i == n {
      assert attempts[i := a][..n] == init;
    } else {
      assert attempts[i := a][..n] == init[i := a];
      SumUpdate(t, init, i, a);
    }
  }

  lemma {:induction false} SumCovers(t: Tally, attempts: seq<Attempt>, i: nat)
    requires i < |attempts|
    ensures Sum(t, attempts) >= Weight(t, attempts[i])
  {
    var n := |attempts| - 1;
    if i < n {
      assert attempts[..n][i] == attempts[i];
      SumCovers(t, attempts[..n], i);
    }
  }

  lemma {:induction false} SumCoversTwo(t: Tally, attempts: seq<Attempt>, i: nat, j: nat)
    requires i < j < |attempts|
    ensures Sum(t, attempts) >= Weight(t, attempts[i]) + Weight(t, attempts[j])
  {
    var n := |attempts| - 1;
    var init := attempts[..n];
    assert init[i] == attempts[i];
    if j < n {
      assert init[j] == attempts[j];
      SumCoversTwo(t, init, i, j);
    } else {
      SumCovers(t, init, i);
    }
  }

  lemma {:induction false} SumWitness(t: Tally, attempts: seq<Attempt>) returns (i: nat)
    requires Sum(t, attempts) > 0
    ensures i < |attempts| && Weight(t, attempts[i]) > 0
  {
    var n := |attempts| - 1;
    if Weight(t, attempts[n]) > 0 {
      i := n;
    } else {
      i := SumWitness(t, attempts[..n]);
    }
  }

  lemma {:induction false} SumPointwise(t: Tally, xs: seq<Attempt>, ys: seq<Attempt>)
    requires |xs| == |ys|
    requires forall i :: 0 <= i < |xs| ==> Weight(t, xs[i]) == Weight(t, ys[i])
    ensures Sum(t, xs) == Sum(t, ys)
  {
    if xs != [] {
      SumPointwise(t, xs[..|xs| - 1], ys[..|ys| - 1]);
    }
  }

  lemma {:induction false} AttemptsOfShotIsSum(attempts: seq<Attempt>, k: nat)
    ensures AttemptsOfShot(attempts, k) == Sum(AnyInShot(k), attempts)
  {
    if attempts != [] {
      AttemptsOfShotIsSum(attempts[..|attempts| - 1], k);
    }
  }

  // ----------------------------------------------------------------------- the invariant

  /** Never at rest: an attempt passes through these inside one transaction. */
  predicate Transient(status: AttemptStatus) { status == Generated || status == Evaluating }

  /** A passing evaluation lets an attempt get this far. */
  predicate PastReviewEntry(status: AttemptStatus) {
    status == AwaitingReview || status == Accepted || status == Rejected
  }

  /** An occupied shot has exactly one attempt in progress, any other shot has none. */
  ghost predicate OneLiveAttempt(s: State) {
    forall k :: 0 <= k < |s.shots| ==>
      Sum(LiveInShot(k), s.attempts) == if Occupied(s.shots[k].status) then 1 else 0
  }

  /** Before review the shot is queued, or generating once the attempt is running. */
  predicate InStep(a: Attempt, sh: Shot) {
    sh.status == if a.status == Running then ShotGenerating else ShotQueued
  }

  ghost predicate ReviewFollowsAttempt(s: State)
    requires Linked(s)
  {
    forall i :: 0 <= i < |s.attempts| && PreReview(s.attempts[i]) ==> InStep(s.attempts[i], ShotOf(s, i))
  }

  ghost predicate SomeShot(shots: seq<Shot>, q: nat, status: ShotStatus) {
    exists k :: 0 <= k < |shots| && shots[k].project == q && shots[k].status == status
  }

  /** A status of project q is justified by an attempt or a shot of the project. */
  ghost predicate Justified(status: ProjectStatus, shots: seq<Shot>, attempts: seq<Attempt>, q: nat) {
    && (status == ProjectGenerating ==> Sum(BeforeReview(q), attempts) >= 1)
    && (status == NeedsAttention ==> SomeShot(shots, q, Retryable))
    && (status == ProjectFailed ==> SomeShot(shots, q, ShotFailed))
    && (status == ProjectCancelled ==> SomeShot(shots, q, ShotCancelled))
    && (status == Completed ==> Sum(LiveInProject(q), attempts) == 0)
    && (NotStarted(status) ==> Sum(AnyInProject(q), attempts) == 0)
  }

  ghost predicate ProjectJustified(s: State, q: nat)
    requires q < |s.projects|
  {
    Justified(s.projects[q].status, s.shots, s.attempts, q)
  }

  ghost predicate ProjectsJustified(s: State) {
    forall q :: 0 <= q < |s.projects| ==> Justified(s.projects[q].status, s.shots, s.attempts, q)
  }

  /** A shot is accepted exactly when it names its accepted attempt, which passed evaluation. */
  ghost predicate Acceptance(s: State)
    requires Linked(s)
  {
    && (forall k :: 0 <= k < |s.shots| ==> (s.shots[k].accepted.Some? <==> s.shots[k].status == ShotAccepted))
    && (forall k :: 0 <= k < |s.shots| && s.shots[k].accepted.Some? ==>
          var i := s.shots[k].accepted.value;
          i < |s.attempts| && s.attempts[i].shot == k && s.attempts[i].status == Accepted)
    && (forall i :: 0 <= i < |s.attempts| && s.attempts[i].status == Accepted ==>
          ShotOf(s, i).accepted == Some(i))
  }

  /** An attempt has an artifact and an evaluation exactly from the moment finishSuccess
      committed, and is never at rest between generation and evaluation. */
  ghost predicate Evaluated(s: State) {
    && (forall i :: i in s.artifacts || i in s.evaluations ==> i < |s.attempts|)
    && (forall i :: 0 <= i < |s.attempts| ==>
          var a := s.attempts[i];
          && !Transient(a.status)
          && (i in s.artifacts <==> i in s.evaluations)
          && (PreReview(a) ==> i !in s.evaluations)
          && (PastReviewEntry(a.status) ==> i in s.evaluations && s.evaluations[i] == Passed))
  }

  /** Money spent is exactly what the attempts cost, within the budget and the attempt limit. */
  ghost predicate Accounted(s: State) {
    && (forall q :: 0 <= q < |s.projects| ==>
          && s.projects[q].spent == Sum(CostIn(q), s.attempts)
          && s.projects[q].spent <= MAX_SAFE_INTEGER
          && (s.projects[q].budget.Some? ==> s.projects[q].spent <= s.projects[q].budget.value))
    && (forall k :: 0 <= k < |s.shots| ==> Sum(AnyInShot(k), s.attempts) <= s.maxAttempts)
  }

  /** A retry derives from an older attempt of the same shot. */
  ghost predicate SourcesOlder(s: State) {
    forall i :: 0 <= i < |s.attempts| && s.attempts[i].source.Some? ==>
      s.attempts[i].source.value < i && s.attempts[s.attempts[i].source.value].shot == s.attempts[i].shot
  }

  ghost predicate Inv(s: State) {
    && Linked(s)
    && OneLiveAttempt(s) && ReviewFollowsAttempt(s) && ProjectsJustified(s)
    && Acceptance(s) && Evaluated(s) && Accounted(s) && SourcesOlder(s)
  }

  // ------------------------------------------------- what one rewritten attempt must respect

  /** One attempt with its shot and project, and what is stored about its evaluation. */
  datatype View = View(
    id: nat, attempt: Attempt, shot: Shot, project: Project,
    artifact: bool, evaluation: Option<Verdict>, othersAccepted: bool)

  function ViewOf(s: State, i: nat): View
    requires Linked(s) && i < |s.attempts|
  {
    View(i, s.attempts[i], ShotOf(s, i), ProjectOf(s, i), i in s.artifacts, EvaluationOf(s, i), OthersAccepted(s, i))
  }

  /** What the invariant says of one attempt, its shot and its project. */
  predicate Consistent(v: View) {
    && !Transient(v.attempt.status)
    && (Live(v.attempt) ==> Occupied(v.shot.status))
    && (PreReview(v.attempt) ==> InStep(v.attempt, v.shot) && !v.artifact && v.evaluation.None?)
    && (PastReviewEntry(v.attempt.status) ==> v.evaluation == Some(Passed))
    && (v.artifact <==> v.evaluation.Some?)
    && (v.attempt.status == Accepted <==> v.shot.accepted == Some(v.id))
    && (v.shot.accepted.Some? <==> v.shot.status == ShotAccepted)
    && !NotStarted(v.project.status)
    && (v.project.status == Completed ==> Terminal(v.attempt.status))
    && (v.project.budget.Some? ==> v.project.spent <= v.project.budget.value)
  }

  lemma ViewIsConsistent(s: State, i: nat)
    requires Inv(s) && i < |s.attempts|
    ensures Consistent(ViewOf(s, i))
  {
    var q := s.attempts[i].project;
    assert ProjectJustified(s, q);
    SumCovers(AnyInProject(q), s.attempts, i);
    SumCovers(LiveInProject(q), s.attempts, i);
    if Live(s.attempts[i]) { LiveIsUnique(s, i, i); }
  }

  function Counted(b: bool): nat { if b then 1 else 0 }

  /** The columns no transaction on an attempt rewrites. */
  predicate SameIdentity(v: View, r: Rows) {
    && r.attempt.project == v.attempt.project && r.attempt.shot == v.attempt.shot
    && r.attempt.key == v.attempt.key && r.attempt.cost == v.attempt.cost && r.attempt.source == v.attempt.source
    && r.shot.project == v.shot.project
    && r.project.budget == v.project.budget && r.project.spent == v.project.spent
  }

  predicate CoherentProgress(v: View, r: Rows) {
    && Counted(Live(v.attempt)) + Counted(Occupied(r.shot.status))
       == Counted(Live(r.attempt)) + Counted(Occupied(v.shot.status))
    && (Live(r.attempt) ==> Live(v.attempt)) && (PreReview(r.attempt) ==> PreReview(v.attempt))
    && (PreReview(r.attempt) ==> InStep(r.attempt, r.shot))
    && (!Live(v.attempt) ==> r.attempt.status == v.attempt.status && r.shot.status == v.shot.status)
    && (v.attempt.status == AwaitingReview ==>
          r.attempt.status == AwaitingReview || r.attempt.status == Accepted || r.attempt.status == Rejected)
    // an attempt in review whose shot is not in review can no longer be moved
    && (v.attempt.status == AwaitingReview && v.shot.status != ShotInReview ==>
          r.attempt.status == AwaitingReview && r.shot.status == v.shot.status)
  }

  predicate KeptOrMade(v: View, r: Rows, status: ProjectStatus, reason: ShotStatus) {
    r.project.status == status ==>
      r.shot.status == reason || (v.project.status == status && (v.shot.status == reason ==> r.shot.status == reason))
  }

  predicate CoherentReason(v: View, r: Rows) {
    && (r.project.status == ProjectGenerating ==>
          v.project.status == ProjectGenerating && (PreReview(v.attempt) ==> PreReview(r.attempt)))
    && KeptOrMade(v, r, NeedsAttention, Retryable)
    && KeptOrMade(v, r, ProjectFailed, ShotFailed)
    && KeptOrMade(v, r, ProjectCancelled, ShotCancelled)
    && (r.project.status == Completed ==>
          v.project.status == Completed || (v.othersAccepted && r.shot.status == ShotAccepted))
    && (NotStarted(r.project.status) ==> v.project.status == r.project.status)
  }

  predicate CoherentAcceptance(v: View, r: Rows) {
    && (r.attempt.status == Accepted <==> r.shot.accepted == Some(v.id))
    && (r.shot.accepted.Some? <==> r.shot.status == ShotAccepted)
    && (r.shot.accepted == v.shot.accepted || (v.shot.accepted.None? && r.shot.accepted == Some(v.id)))
  }

  predicate CoherentEvaluation(v: View, r: Rows) {
    var evaluation := if r.evaluation.Some? then r.evaluation else v.evaluation;
    && !Transient(r.attempt.status)
    && (v.artifact || r.artifact <==> evaluation.Some?)
    && (PreReview(r.attempt) ==> evaluation.None?)
    && (PastReviewEntry(r.attempt.status) ==> evaluation == Some(Passed))
  }

  /** The rows agree with the invariant. */
  predicate Coherent(v: View, r: Rows) {
    SameIdentity(v, r) && CoherentProgress(v, r) && CoherentReason(v, r) && CoherentAcceptance(v, r)
      && CoherentEvaluation(v, r)
  }

  lemma LiveIsUnique(s: State, i: nat, j: nat)
    requires Linked(s) && OneLiveAttempt(s)
    requires i < |s.attempts| && j < |s.attempts| && s.attempts[i].shot == s.attempts[j].shot
    requires Live(s.attempts[i]) && Live(s.attempts[j])
    ensures i == j && Occupied(ShotOf(s, i).status)
  {
    var t := LiveInShot(s.attempts[i].shot);
    SumCovers(t, s.attempts, i);
    if i < j { SumCoversTwo(t, s.attempts, i, j); }
    if j < i { SumCoversTwo(t, s.attempts, j, i); }
  }

  /** Once every shot of a project is accepted, none of its attempts is in progress. */
  lemma AllAcceptedIsIdle(s: State, q: nat)
    requires Linked(s) && OneLiveAttempt(s)
    requires forall k :: 0 <= k < |s.shots| && s.shots[k].project == q ==> s.shots[k].status == ShotAccepted
    ensures Sum(LiveInProject(q), s.attempts) == 0
  {
    if Sum(LiveInProject(q), s.attempts) > 0 {
      var j := SumWitness(LiveInProject(q), s.attempts);
      LiveIsUnique(s, j, j);
      assert false;
    }
  }

  lemma StoreKeepsCounts(s: State, i: nat, r: Rows)
    requires Linked(s) && OneLiveAttempt(s) && ReviewFollowsAttempt(s)
    requires i < |s.attempts| && SameIdentity(ViewOf(s, i), r) && CoherentProgress(ViewOf(s, i), r)
    ensures var s' := Store(s, i, r); Linked(s') && OneLiveAttempt(s') && ReviewFollowsAttempt(s')
  {
    var s' := Store(s, i, r);
    forall k | 0 <= k < |s'.shots|
      ensures Sum(LiveInShot(k), s'.attempts) == if Occupied(s'.shots[k].status) then 1 else 0
    {
      SumUpdate(LiveInShot(k), s.attempts, i, r.attempt);
    }
    forall j | 0 <= j < |s'.attempts| && PreReview(s'.attempts[j])
      ensures InStep(s'.attempts[j], ShotOf(s', j))
    {
      if j != i && s.attempts[j].shot == r.attempt.shot && Live(s.attempts[i]) {
        LiveIsUnique(s, i, j);
      }
    }
  }

  lemma KeepsSomeShot(shots: seq<Shot>, k: nat, sh: Shot, q: nat, status: ShotStatus)
    requires SomeShot(shots, q, status) && k < |shots| && sh.project == shots[k].project
    requires shots[k].project == q && shots[k].status == status ==> sh.status == status
    ensures SomeShot(shots[k := sh], q, status)
  {
    var m :| 0 <= m < |shots| && shots[m].project == q && shots[m].status == status;
    assert shots[k := sh][m].project == q && shots[k := sh][m].status == status;
  }

  lemma StoreKeepsGenerating(s: State, i: nat, r: Rows, q: nat)
    requires Linked(s) && q < |s.projects| && ProjectJustified(s, q) && i < |s.attempts|
    requires SameIdentity(ViewOf(s, i), r) && CoherentProgress(ViewOf(s, i), r) && CoherentReason(ViewOf(s, i), r)
    requires Store(s, i, r).projects[q].status == ProjectGenerating
    ensures Sum(BeforeReview(q), Store(s, i, r).attempts) >= 1
  {
    SumUpdate(BeforeReview(q), s.attempts, i, r.attempt);
  }

  lemma StoreKeepsNotStarted(s: State, i: nat, r: Rows, q: nat)
    requires Linked(s) && q < |s.projects| && ProjectJustified(s, q) && i < |s.attempts|
    requires SameIdentity(ViewOf(s, i), r) && CoherentReason(ViewOf(s, i), r)
    requires NotStarted(Store(s, i, r).projects[q].status)
    ensures Sum(AnyInProject(q), Store(s, i, r).attempts) == 0
  {
    SumUpdate(AnyInProject(q), s.attempts, i, r.attempt);
  }

  lemma StoreKeepsIdle(s: State, i: nat, r: Rows, q: nat)
    requires Linked(s) && Sum(LiveInProject(q), s.attempts) == 0 && i < |s.attempts|
    requires SameIdentity(ViewOf(s, i), r) && CoherentProgress(ViewOf(s, i), r)
    ensures Sum(LiveInProject(q), Store(s, i, r).attempts) == 0
  {
    SumUpdate(LiveInProject(q), s.attempts, i, r.attempt);
  }

  lemma StoreCompletes(s: State, i: nat, r: Rows)
    requires Linked(s) && OneLiveAttempt(s) && ReviewFollowsAttempt(s) && Acceptance(s) && i < |s.attempts|
    requires SameIdentity(ViewOf(s, i), r) && CoherentProgress(ViewOf(s, i), r)
    requires OthersAccepted(s, i) && r.shot.status == ShotAccepted
    ensures Sum(LiveInProject(r.attempt.project), Store(s, i, r).attempts) == 0
  {
    var s' := Store(s, i, r);
    StoreKeepsCounts(s, i, r);
    forall k | 0 <= k < |s'.shots| && s'.shots[k].project == r.attempt.project
      ensures s'.shots[k].status == ShotAccepted
    {
    }
    AllAcceptedIsIdle(s', r.attempt.project);
  }

  /** The reasons that are a shot of the project. */
  lemma StoreKeepsShotReason(s: State, i: nat, r: Rows, q: nat, status: ProjectStatus, want: ShotStatus)
    requires Linked(s) && q < |s.projects| && ProjectJustified(s, q) && i < |s.attempts|
    requires SameIdentity(ViewOf(s, i), r) && KeptOrMade(ViewOf(s, i), r, status, want)
    requires s.projects[q].status == status ==> SomeShot(s.shots, q, want)
    requires Store(s, i, r).projects[q].status == status
    ensures SomeShot(Store(s, i, r).shots, q, want)
  {
    var s' := Store(s, i, r);
    var k := s.attempts[i].shot;
    assert s'.shots[k] == r.shot;
    if q == r.attempt.project && r.shot.status == want {
    } else {
      KeepsSomeShot(s.shots, k, r.shot, q, want);
    }
  }

  lemma StoreKeepsReason(s: State, i: nat, r: Rows, q: nat)
    requires Linked(s) && OneLiveAttempt(s) && ReviewFollowsAttempt(s) && Acceptance(s)
    requires i < |s.attempts| && Coherent(ViewOf(s, i), r) && q < |s.projects| && ProjectJustified(s, q)
    ensures ProjectJustified(Store(s, i, r), q)
  {
    var status := Store(s, i, r).projects[q].status;
    if NotStarted(status) { StoreKeepsNotStarted(s, i, r, q); }
    match status {
      case ProjectGenerating => StoreKeepsGenerating(s, i, r, q);
      case Completed =>
        if s.projects[q].status == Completed {
          StoreKeepsIdle(s, i, r, q);
        } else {
          StoreCompletes(s, i, r);
        }
      case NeedsAttention => StoreKeepsShotReason(s, i, r, q, NeedsAttention, Retryable);
      case ProjectFailed => StoreKeepsShotReason(s, i, r, q, ProjectFailed, ShotFailed);
      case ProjectCancelled => StoreKeepsShotReason(s, i, r, q, ProjectCancelled, ShotCancelled);
      case _ =>
    }
  }

  lemma StoreKeepsReasons(s: State, i: nat, r: Rows)
    requires Linked(s) && OneLiveAttempt(s) && ReviewFollowsAttempt(s) && Acceptance(s) && ProjectsJustified(s)
    requires i < |s.attempts| && Coherent(ViewOf(s, i), r)
    ensures ProjectsJustified(Store(s, i, r))
  {
    var s' := Store(s, i, r);
    forall q | 0 <= q < |s'.projects| ensures Justified(s'.projects[q].status, s'.shots, s'.attempts, q) {
      assert Justified(s.projects[q].status, s.shots, s.attempts, q);
      StoreKeepsReason(s, i, r, q);
    }
  }

  lemma StoreKeepsAcceptance(s: State, i: nat, r: Rows)
    requires Linked(s) && Acceptance(s)
    requires i < |s.attempts| && SameIdentity(ViewOf(s, i), r) && CoherentAcceptance(ViewOf(s, i), r)
    ensures Linked(Store(s, i, r)) && Acceptance(Store(s, i, r))
  {
  }

  lemma StoreKeepsEvaluated(s: State, i: nat, r: Rows)
    requires Linked(s) && Evaluated(s) && i < |s.attempts| && CoherentEvaluation(ViewOf(s, i), r)
    ensures Evaluated(Store(s, i, r))
  {
  }

  lemma StoreKeepsAccounts(s: State, i: nat, r: Rows)
    requires Linked(s) && Accounted(s) && i < |s.attempts| && SameIdentity(ViewOf(s, i), r)
    ensures Accounted(Store(s, i, r))
  {
    var s' := Store(s, i, r);
    forall q | 0 <= q < |s'.projects| ensures s'.projects[q].spent == Sum(CostIn(q), s'.attempts) {
      SumUpdate(CostIn(q), s.attempts, i, r.attempt);
    }
    forall k | 0 <= k < |s'.shots| ensures Sum(AnyInShot(k), s'.attempts) == Sum(AnyInShot(k), s.attempts) {
      SumUpdate(AnyInShot(k), s.attempts, i, r.attempt);
    }
  }

  lemma StoreKeepsSources(s: State, i: nat, r: Rows)
    requires Linked(s) && SourcesOlder(s) && i < |s.attempts| && SameIdentity(ViewOf(s, i), r)
    ensures SourcesOlder(Store(s, i, r))
  {
  }

  /** Coherent rows keep the whole invariant. */
  lemma StoreKeeps(s: State, i: nat, r: Rows)
    requires Inv(s) && i < |s.attempts| && Coherent(ViewOf(s, i), r)
    ensures Inv(Store(s, i, r))
  {
    StoreKeepsCounts(s, i, r);
    StoreKeepsReasons(s, i, r);
    StoreKeepsAcceptance(s, i, r);
    StoreKeepsEvaluated(s, i, r);
    StoreKeepsAccounts(s, i, r);
    StoreKeepsSources(s, i, r);
  }
}
