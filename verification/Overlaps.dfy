/** Two transactions that overlap. A plain BEGIN lets both read their rows before either writes them;
    the later one's writes then wait for the earlier to commit and are guarded by the versions it read
    (apps/api/src/generation.ts, packages/db/src/index.ts). */
module Overlaps {
  import opened Wrappers
  import opened Domain
  import opened ControlPlane
  import opened Lifecycle
  import opened Runs
  import LifecycleSteps
  import Completion
  import SampleRuns

  /** What becomes of the later transaction. */
  datatype Late = Undone | Committed(s: State)

  // --------------------------------------------------------------------------- creations

  /** A creation that read its rows from s and writes them to `now`: a key that was taken meanwhile, and a
      shot or project row with another version, undo it. */
  function CreateLate(s: State, now: State, k: nat, cost: nat, key: nat): Late
    requires Linked(s) && CreateAttempt(s, k, RevisionValidated, cost, key, None).Success?
    requires |s.shots| <= |now.shots| && |s.projects| <= |now.projects|
  {
    var q := s.shots[k].project;
    if KeyTaken(now, key) || now.shots[k].version != s.shots[k].version
       || now.projects[q].version != s.projects[q].version then Undone
    else
      var i := |now.attempts|;
      var a := Attempt(q, k, key, cost, None, Queued, None, None, None, None, false, 1);
      var queued, charged := MoveShot(s.shots[k], ShotQueued).value, Charge(s.projects[q], cost).value;
      Committed(Append(now.(attempts := now.attempts + [a], shots := now.shots[k := queued],
                            projects := now.projects[q := charged]),
                       [Event(AttemptQueued, Some(q), Some(k), Some(i))]))
  }

  /** Two creations that both pass their checks in s, one of which commits first. */
  ghost predicate BothCreate(s: State, k: nat, cost: nat, key: nat, k': nat, cost': nat, key': nat) {
    && Linked(s) && CreateAttempt(s, k, RevisionValidated, cost, key, None).Success?
    && CreateAttempt(s, k', RevisionValidated, cost', key', None).Success?
  }

  function First(s: State, k: nat, cost: nat, key: nat): State
    requires Linked(s) && CreateAttempt(s, k, RevisionValidated, cost, key, None).Success?
  {
    CreateAttempt(s, k, RevisionValidated, cost, key, None).value
  }

  lemma FirstRows(s: State, k: nat, cost: nat, key: nat)
    requires Linked(s) && CreateAttempt(s, k, RevisionValidated, cost, key, None).Success?
    ensures var now, q := First(s, k, cost, key), s.shots[k].project;
            && |now.shots| == |s.shots| && |now.projects| == |s.projects| && k < |s.shots|
            && now.attempts == s.attempts + [Attempt(q, k, key, cost, None, Queued, None, None, None, None, false, 1)]
            && now.shots == s.shots[k := s.shots[k].(status := ShotQueued, version := s.shots[k].version + 1)]
            && now.projects == s.projects[q := now.projects[q]]
            && LifecycleSteps.Charged(s.projects[q], now.projects[q], cost)
  {
    LifecycleSteps.CreateAttemptShape(s, k, RevisionValidated, cost, key, None);
  }

  lemma KeyTakenByFirst(s: State, now: State, a: Attempt, key: nat)
    requires now.attempts == s.attempts + [a] && !KeyTaken(s, key)
    ensures KeyTaken(now, key) <==> a.key == key
  {
    if a.key == key { assert now.attempts[|s.attempts|].key == key; }
  }

  /** Overlapping creations both commit exactly when they have their own shots and keys, and their own
      projects or one that is already generating: only then does the first leave the version as it was. */
  lemma CreationsOverlapExactly(s: State, k: nat, cost: nat, key: nat, k': nat, cost': nat, key': nat)
    requires BothCreate(s, k, cost, key, k', cost', key')
    ensures |First(s, k, cost, key).shots| == |s.shots| && |First(s, k, cost, key).projects| == |s.projects|
    ensures CreateLate(s, First(s, k, cost, key), k', cost', key').Committed?
            <==> k != k' && key != key'
                 && (s.shots[k].project != s.shots[k'].project
                     || s.projects[s.shots[k].project].status == ProjectGenerating)
  {
    FirstRows(s, k, cost, key);
    var now, q := First(s, k, cost, key), s.shots[k].project;
    assert !KeyTaken(s, key');
    KeyTakenByFirst(s, now, now.attempts[|s.attempts|], key');
  }

  /** When both commit, the project of the second has spent all its attempts cost but what the first one
      charged to the same project. */
  lemma OverlapLosesCharge(s: State, k: nat, cost: nat, key: nat, k': nat, cost': nat, key': nat)
    requires BothCreate(s, k, cost, key, k', cost', key') && Accounted(s)
    requires |First(s, k, cost, key).shots| == |s.shots| && |First(s, k, cost, key).projects| == |s.projects|
    requires CreateLate(s, First(s, k, cost, key), k', cost', key').Committed?
    ensures var q, s2 := s.shots[k'].project, CreateLate(s, First(s, k, cost, key), k', cost', key').s;
            && q < |s2.projects|
            && s2.projects[q].spent + (if s.shots[k].project == q then cost else 0) == Sum(CostIn(q), s2.attempts)
  {
    FirstRows(s, k, cost, key);
    var now, q := First(s, k, cost, key), s.shots[k'].project;
    SumAppend(CostIn(q), s.attempts, now.attempts[|s.attempts|]);
    SumAppend(CostIn(q), now.attempts, Attempt(q, k', key', cost', None, Queued, None, None, None, None, false, 1));
  }

  /** So the spend of that project is conserved exactly if the first was free or charged another project. */
  lemma OverlapConservesExactly(s: State, k: nat, cost: nat, key: nat, k': nat, cost': nat, key': nat)
    requires BothCreate(s, k, cost, key, k', cost', key') && Accounted(s)
    requires |First(s, k, cost, key).shots| == |s.shots| && |First(s, k, cost, key).projects| == |s.projects|
    requires CreateLate(s, First(s, k, cost, key), k', cost', key').Committed?
    ensures var q, s2 := s.shots[k'].project, CreateLate(s, First(s, k, cost, key), k', cost', key').s;
            && q < |s2.projects|
            && (s2.projects[q].spent == Sum(CostIn(q), s2.attempts) <==> s.shots[k].project != q || cost == 0)
  {
    OverlapLosesCharge(s, k, cost, key, k', cost', key');
  }

  /** A reachable project with one attempt under way and two approved shots. */
  lemma GeneratingProject() returns (s: State)
    ensures Reachable(3, s) && Linked(s) && s.maxAttempts == 3
    ensures s.attempts == [Attempt(0, 0, 0, 100000, None, Queued, None, None, None, None, false, 1)]
    ensures |s.shots| == 3 && s.shots[1] == s.shots[2] == Shot(0, ApprovedForGeneration, None, None, 1)
    ensures |s.projects| == 1 && s.projects[0].status == ProjectGenerating
    ensures s.projects[0].spent == 100000 && s.projects[0].budget == Some(250000)
  {
    var s0 := SampleRuns.ReadyProject(3, Some(250000), 3);
    s := SampleRuns.FirstAttempt(3, s0, Some(250000), 3, 100000);
  }

  /** Three attempts at a tenth of a dollar each, of which the project remembers two: they cost more than
      its budget. */
  lemma LostCharge() returns (s: State, s2: State)
    ensures Reachable(3, s) && BothCreate(s, 1, 100000, 1, 2, 100000, 2)
    ensures |First(s, 1, 100000, 1).shots| == |s.shots| && |First(s, 1, 100000, 1).projects| == |s.projects|
    ensures CreateLate(s, First(s, 1, 100000, 1), 2, 100000, 2) == Committed(s2)
    ensures |s2.projects| == 1 && s2.projects[0].budget == Some(250000) && s2.projects[0].spent == 200000
    ensures Sum(CostIn(0), s2.attempts) == 300000
  {
    s := GeneratingProject();
    ReachableHolds(3, s);
    SampleRuns.CreateCommits(s, 1, 100000, 1);
    SampleRuns.CreateCommits(s, 2, 100000, 2);
    CreationsOverlapExactly(s, 1, 100000, 1, 2, 100000, 2);
    OverlapLosesCharge(s, 1, 100000, 1, 2, 100000, 2);
    s2 := CreateLate(s, First(s, 1, 100000, 1), 2, 100000, 2).s;
  }

  // -------------------------------------------------------------------------- acceptances

  function Accepting(s: State, i: nat): Result<Rows, Error>
    requires Linked(s) && i < |s.attempts|
  {
    Accept(i, s.attempts[i], ShotOf(s, i), ProjectOf(s, i), EvaluationOf(s, i), OthersAccepted(s, i))
  }

  /** The rows an acceptance writes to `now`, where the project's is only written if it moves. */
  function LateRows(s: State, now: State, i: nat): Rows
    requires Linked(s) && i < |s.attempts| && Accepting(s, i).Success? && s.attempts[i].project < |now.projects|
  {
    var r := Accepting(s, i).value;
    if r.project == ProjectOf(s, i) then r.(project := now.projects[s.attempts[i].project]) else r
  }

  /** An acceptance that read its rows from s and writes them to `now`. */
  function AcceptLate(s: State, now: State, i: nat): Late
    requires Linked(s) && i < |s.attempts| && Accepting(s, i).Success?
    requires Linked(now) && i < |now.attempts| && now.attempts[i].shot == s.attempts[i].shot
    requires now.attempts[i].project == s.attempts[i].project
  {
    var r, p := Accepting(s, i).value, ProjectOf(s, i);
    if now.attempts[i].version != s.attempts[i].version || ShotOf(now, i).version != ShotOf(s, i).version
       || (r.project != p && ProjectOf(now, i).version != p.version) then Undone
    else Committed(Store(now, i, LateRows(s, now, i)))
  }

  /** Two attempts of one project whose acceptances both pass their checks in s, and the store the first
      of them leaves. */
  ghost predicate BothAccept(s: State, now: State, i: nat, j: nat) {
    && Inv(s) && i < |s.attempts| && j < |s.attempts| && i != j && s.attempts[i].project == s.attempts[j].project
    && Accepting(s, i).Success? && Accepting(s, j).Success? && now == Apply(s, StepAccept(i))
  }

  /** Two attempts in review have their own shots, so neither acceptance sees the project complete. */
  lemma NeitherIsLast(s: State, i: nat, j: nat)
    requires Inv(s) && i < |s.attempts| && j < |s.attempts| && i != j && s.attempts[i].project == s.attempts[j].project
    requires s.attempts[i].status == AwaitingReview && s.attempts[j].status == AwaitingReview
    ensures s.attempts[i].shot != s.attempts[j].shot && !OthersAccepted(s, i) && !OthersAccepted(s, j)
  {
    if s.attempts[i].shot == s.attempts[j].shot { LiveIsUnique(s, i, j); }
    LiveIsUnique(s, i, i);
    LiveIsUnique(s, j, j);
  }

  lemma AcceptanceRows(v: View)
    requires Consistent(v) && !v.othersAccepted
    requires Accept(v.id, v.attempt, v.shot, v.project, v.evaluation, v.othersAccepted).Success?
    ensures var r := Accept(v.id, v.attempt, v.shot, v.project, v.evaluation, v.othersAccepted).value;
            && v.attempt.status == AwaitingReview && SameIdentity(v, r) && r.shot.accepted == Some(v.id)
            && (if v.project.status == ProjectGenerating
                then r.project.status == AwaitingFinalReview && r.project.version == v.project.version + 1
                else r.project == v.project)
  {
  }

  /** What the first acceptance leaves for the second. */
  lemma AfterFirst(s: State, now: State, i: nat, j: nat)
    requires BothAccept(s, now, i, j)
    ensures Inv(now) && SampleRuns.Touches(s, now, i) && ShotOf(now, i).accepted == Some(i)
    ensures s.attempts[i].shot != s.attempts[j].shot && now.attempts[j] == s.attempts[j]
            && ShotOf(now, j) == ShotOf(s, j)
    ensures if ProjectOf(s, i).status == ProjectGenerating
            then ProjectOf(now, j).version == ProjectOf(s, j).version + 1 else ProjectOf(now, j) == ProjectOf(s, j)
  {
    ViewIsConsistent(s, i);
    NeitherIsLast(s, i, j);
    AcceptanceRows(ViewOf(s, i));
    SampleRuns.EffectStored(s, StepAccept(i));
    LifecycleSteps.StepKeeps(s, StepAccept(i));
  }

  /** Overlapping acceptances in one project both commit exactly when it was not generating: only a
      generating project is written, and so guarded, by an acceptance that is not its last. */
  lemma AcceptancesOverlapExactly(s: State, now: State, i: nat, j: nat)
    requires BothAccept(s, now, i, j)
    ensures SampleRuns.Touches(s, now, i)
    ensures AcceptLate(s, now, j).Committed? <==> ProjectOf(s, j).status != ProjectGenerating
  {
    AfterFirst(s, now, i, j);
    ViewIsConsistent(s, j);
    NeitherIsLast(s, i, j);
    LateCommits(s, now, j);
  }

  lemma LateCommits(s: State, now: State, j: nat)
    requires Linked(s) && Linked(now) && j < |s.attempts| && j < |now.attempts|
    requires Consistent(ViewOf(s, j)) && Accepting(s, j).Success? && !OthersAccepted(s, j)
    requires now.attempts[j] == s.attempts[j] && ShotOf(now, j) == ShotOf(s, j)
    requires if ProjectOf(s, j).status == ProjectGenerating
             then ProjectOf(now, j).version == ProjectOf(s, j).version + 1 else ProjectOf(now, j) == ProjectOf(s, j)
    ensures AcceptLate(s, now, j).Committed? <==> ProjectOf(s, j).status != ProjectGenerating
  {
    AcceptanceRows(ViewOf(s, j));
  }

  /** The second acceptance writes what it would have written after the first, had that one not been counted. */
  lemma LateRowsAre(s: State, now: State, i: nat, j: nat)
    requires BothAccept(s, now, i, j) && ProjectOf(s, j).status != ProjectGenerating
    requires SampleRuns.Touches(s, now, i)
    ensures var v := ViewOf(now, j).(othersAccepted := false);
            Accept(j, v.attempt, v.shot, v.project, v.evaluation, false) == Success(LateRows(s, now, j))
    ensures LateRows(s, now, j).project == ProjectOf(now, j) && LateRows(s, now, j).shot.accepted == Some(j)
    ensures SameIdentity(ViewOf(now, j), LateRows(s, now, j))
    ensures !OthersAccepted(now, j) ==> Accepting(now, j) == Success(LateRows(s, now, j))
  {
    AfterFirst(s, now, i, j);
    NeitherIsLast(s, i, j);
    ViewIsConsistent(s, j);
    SameEvaluations(s, i);
    LateRowsFrom(s, now, j);
  }

  lemma LateRowsFrom(s: State, now: State, j: nat)
    requires Linked(s) && Linked(now) && j < |s.attempts| && j < |now.attempts|
    requires Consistent(ViewOf(s, j)) && Accepting(s, j).Success? && !OthersAccepted(s, j)
    requires now.attempts[j] == s.attempts[j] && ShotOf(now, j) == ShotOf(s, j) && ProjectOf(now, j) == ProjectOf(s, j)
    requires EvaluationOf(now, j) == EvaluationOf(s, j) && ProjectOf(s, j).status != ProjectGenerating
    ensures var v := ViewOf(now, j).(othersAccepted := false);
            Accept(j, v.attempt, v.shot, v.project, v.evaluation, false) == Success(LateRows(s, now, j))
    ensures LateRows(s, now, j).project == ProjectOf(now, j) && LateRows(s, now, j).shot.accepted == Some(j)
    ensures SameIdentity(ViewOf(now, j), LateRows(s, now, j))
    ensures !OthersAccepted(now, j) ==> Accepting(now, j) == Success(LateRows(s, now, j))
  {
    AcceptanceRows(ViewOf(s, j));
  }

  lemma SameEvaluations(s: State, i: nat)
    requires Linked(s) && i < |s.attempts|
    ensures Apply(s, StepAccept(i)).evaluations == s.evaluations
  {
  }

  lemma LateIsCoherent(v: View, r: Rows)
    requires Consistent(v) && Accept(v.id, v.attempt, v.shot, v.project, v.evaluation, false) == Success(r)
    requires r.project == v.project
    ensures Coherent(v, r)
  {
    LifecycleSteps.AcceptIsCoherent(v.(othersAccepted := false));
  }

  /** The store two overlapping acceptances leave keeps the invariant: only the completion may be missing. */
  lemma LateKeeps(s: State, now: State, i: nat, j: nat)
    requires BothAccept(s, now, i, j) && ProjectOf(s, j).status != ProjectGenerating
    requires SampleRuns.Touches(s, now, i)
    ensures AcceptLate(s, now, j) == Committed(Store(now, j, LateRows(s, now, j)))
    ensures Inv(Store(now, j, LateRows(s, now, j)))
  {
    AcceptancesOverlapExactly(s, now, i, j);
    AfterFirst(s, now, i, j);
    LateRowsAre(s, now, i, j);
    ViewIsConsistent(now, j);
    LateIsCoherent(ViewOf(now, j), LateRows(s, now, j));
    StoreKeeps(now, j, LateRows(s, now, j));
  }

  lemma AllAcceptedWithLast(s: State, j: nat, r: Rows)
    requires Linked(s) && j < |s.attempts| && SameIdentity(ViewOf(s, j), r) && r.shot.accepted.Some?
    ensures Completion.AllAccepted(Store(s, j, r), s.attempts[j].project) <==> OthersAccepted(s, j)
  {
    var q, k := s.attempts[j].project, s.attempts[j].shot;
    var s' := Store(s, j, r);
    assert s'.shots[k] == r.shot;
    if Completion.AllAccepted(s', q) {
      forall m | 0 <= m < |s.shots| && s.shots[m].project == q && m != k ensures s.shots[m].accepted.Some? {
        assert s'.shots[m] == s.shots[m];
      }
    }
  }

  lemma SameProjects(now: State, j: nat, r: Rows)
    requires Linked(now) && j < |now.attempts| && r.project == ProjectOf(now, j)
    ensures Store(now, j, r).projects == now.projects
  {
  }

  /** What the second acceptance stores, against what it stores when it comes after the first. */
  lemma LateAgainstSerial(now: State, j: nat, r: Rows)
    requires Inv(now) && SampleRuns.InReview(now, j) && SameIdentity(ViewOf(now, j), r)
    requires r.project == ProjectOf(now, j) && r.shot.accepted.Some? && r.project.status != Completed
    requires !OthersAccepted(now, j) ==> Accepting(now, j) == Success(r)
    ensures var q, s2, serial := now.attempts[j].project, Store(now, j, r), Apply(now, StepAccept(j));
            && s2.projects == now.projects
            && (Completion.AllAccepted(s2, q) <==> Completion.IsCompleted(serial, q))
            && (Completion.AllAccepted(s2, q) ==> ProjectOf(now, j).status == AwaitingFinalReview)
            && (!Completion.AllAccepted(s2, q) ==> s2 == serial)
  {
    SameProjects(now, j, r);
    AllAcceptedWithLast(now, j, r);
    if OthersAccepted(now, j) { LastCompletes(now, j); } else { NextAccepts(now, j, r); }
  }

  /** Two overlapping acceptances accept every shot of their project exactly if one after the other they
      would have completed it; together they never do. */
  lemma CompletionMissedExactly(s: State, now: State, i: nat, j: nat)
    requires BothAccept(s, now, i, j) && SampleRuns.Touches(s, now, i) && AcceptLate(s, now, j).Committed?
    ensures var q, s2 := s.attempts[j].project, AcceptLate(s, now, j).s;
            && Inv(s2) && q < |s2.projects| && s2.projects[q] == s.projects[q] && s2.projects[q].status != Completed
            && (Completion.AllAccepted(s2, q) <==> Completion.IsCompleted(Apply(now, StepAccept(j)), q))
            && (Completion.AllAccepted(s2, q) ==> s2.projects[q].status == AwaitingFinalReview)
            && (!Completion.AllAccepted(s2, q) ==> s2 == Apply(now, StepAccept(j)))
  {
    AcceptancesOverlapExactly(s, now, i, j);
    AfterFirst(s, now, i, j);
    LateKeeps(s, now, i, j);
    LateRowsAre(s, now, i, j);
    NotCompletedInReview(s, j);
    LateIsInReview(s, now, i, j);
    LateAgainstSerial(now, j, LateRows(s, now, j));
  }

  lemma LastCompletes(now: State, j: nat)
    requires Inv(now) && SampleRuns.InReview(now, j) && OthersAccepted(now, j)
    ensures ProjectOf(now, j).status == AwaitingFinalReview
    ensures Completion.IsCompleted(Apply(now, StepAccept(j)), now.attempts[j].project)
  {
    LastReviewFindsFinalReview(now, j);
    LastAcceptanceCompletes(now, j);
    SampleRuns.AcceptTouches(now, j);
  }

  lemma NextAccepts(now: State, j: nat, r: Rows)
    requires Linked(now) && j < |now.attempts| && !OthersAccepted(now, j) && Accepting(now, j) == Success(r)
    ensures Apply(now, StepAccept(j)) == Store(now, j, r)
  {
    ApplyStores(now, StepAccept(j));
  }

  lemma NotCompletedInReview(s: State, j: nat)
    requires Inv(s) && j < |s.attempts| && s.attempts[j].status == AwaitingReview
    ensures ProjectOf(s, j).status != Completed
  {
    ViewIsConsistent(s, j);
  }

  lemma LateIsInReview(s: State, now: State, i: nat, j: nat)
    requires BothAccept(s, now, i, j) && SampleRuns.Touches(s, now, i)
    requires now.attempts[j] == s.attempts[j] && ShotOf(now, j) == ShotOf(s, j)
    ensures SampleRuns.InReview(now, j)
  {
    ViewIsConsistent(s, j);
    LifecycleSteps.AcceptShape(ViewOf(s, j));
  }

  /** A project whose completion was missed has nothing left in progress. */
  lemma MissedIsSettled(s: State, q: nat)
    requires Inv(s) && q < |s.projects| && s.projects[q].status == AwaitingFinalReview && Completion.AllAccepted(s, q)
    ensures Completion.Settled(s, q)
  {
    forall k | 0 <= k < |s.shots| && s.shots[k].project == q ensures s.shots[k].status == ShotAccepted {
    }
    AllAcceptedIsIdle(s, q);
    NoneLive(s.attempts, q);
  }

  /** And then it never completes, whatever happens, unless another shot is added to it. */
  lemma MissedForEver(s: State, now: State, i: nat, j: nat, trace: seq<State>, steps: seq<ControlPlane.Step>)
    requires BothAccept(s, now, i, j) && SampleRuns.Touches(s, now, i) && AcceptLate(s, now, j).Committed?
    requires Completion.AllAccepted(AcceptLate(s, now, j).s, s.attempts[j].project)
    requires Completion.Performs(trace, steps) && trace[0] == AcceptLate(s, now, j).s
    requires forall n :: 0 <= n < |steps| ==> steps[n] != StepCreateShot(s.attempts[j].project)
    ensures var q, s' := s.attempts[j].project, trace[|steps|];
            Completion.AllAccepted(s', q) && q < |s'.projects| && s'.projects[q].status == AwaitingFinalReview
  {
    CompletionMissedExactly(s, now, i, j);
    var q := s.attempts[j].project;
    MissedIsSettled(trace[0], q);
    Completion.FinishedRun(trace, steps, q, s.projects[q]);
  }

  /** The first of two shots is in review, and the project may generate the second. */
  ghost predicate FirstReviewed(s: State) {
    && Linked(s) && s.maxAttempts == 3 && |s.attempts| == 1 && |s.projects| == 1
    && SampleRuns.InReview(s, 0) && s.attempts[0].shot == 0 && s.attempts[0].key == 0
    && s.attempts[0].leaseOwner == None && s.attempts[0].prompt == Some(0)
    && |s.shots| == 2 && s.shots[1] == Shot(0, ApprovedForGeneration, None, None, 1)
    && s.projects[0].status == AwaitingFinalReview && s.projects[0].spent == 100000 && s.projects[0].budget == None
  }

  lemma FirstInReview() returns (s: State)
    ensures Reachable(3, s) && FirstReviewed(s)
  {
    var s0 := SampleRuns.ReadyProject(3, None, 2);
    var s1 := SampleRuns.FirstAttempt(3, s0, None, 2, 100000);
    s := SampleRuns.ToReview(3, s1, 0, 0, 0);
  }

  /** The second shot is queued while the first is in review. */
  ghost predicate SecondQueued(s: State) {
    && Linked(s) && |s.attempts| == 2 && |s.shots| == 2 && |s.projects| == 1
       && s.projects[0].status == ProjectGenerating
    && SampleRuns.InReview(s, 0) && s.attempts[0].shot == 0 && s.attempts[1].shot == 1
    && SampleRuns.Waiting(s.attempts[1], Queued) && s.attempts[1].leaseExpires == None && SampleRuns.Unused(s, 1, 1)
  }

  lemma SecondIsAffordable(s: State)
    requires FirstReviewed(s)
    ensures SampleRuns.Affordable(s, 1, 100000, 1)
  {
    assert s.attempts[..0] == [];
  }

  lemma SecondIsQueued(s: State)
    requires FirstReviewed(s) && CreateAttempt(s, 1, RevisionValidated, 100000, 1, None).Success?
    requires Linked(First(s, 1, 100000, 1))
    ensures SecondQueued(First(s, 1, 100000, 1))
  {
    FirstRows(s, 1, 100000, 1);
    var now := First(s, 1, 100000, 1);
    assert now.attempts[0] == s.attempts[0] && now.shots[0] == s.shots[0];
  }

  lemma OneInReview() returns (s: State)
    ensures Reachable(3, s) && SecondQueued(s)
  {
    var s0 := FirstInReview();
    SecondIsAffordable(s0);
    SampleRuns.CreateCommits(s0, 1, 100000, 1);
    s := SampleRuns.Creates(3, s0, 1, 100000, 1);
    SecondIsQueued(s0);
  }

  ghost predicate BothReviewed(s: State) {
    && Linked(s) && |s.attempts| == 2 && |s.shots| == 2 && SampleRuns.InReview(s, 0) && SampleRuns.InReview(s, 1)
    && s.attempts[0].project == s.attempts[1].project && ProjectOf(s, 1).status == AwaitingFinalReview
  }

  lemma BothAreReviewed(s0: State, s: State)
    requires SecondQueued(s0) && SampleRuns.Touches(s0, s, 1)
    requires SampleRuns.InReview(s, 1) && ProjectOf(s, 1).status == AwaitingFinalReview
    ensures BothReviewed(s)
  {
  }

  lemma BothInReview() returns (s: State)
    ensures Reachable(3, s) && BothReviewed(s)
  {
    var s0 := OneInReview();
    s := SampleRuns.ToReview(3, s0, 1, 1, 1);
    BothAreReviewed(s0, s);
  }

  lemma BothMayAccept(s: State) returns (now: State)
    requires Inv(s) && SampleRuns.InReview(s, 0) && SampleRuns.InReview(s, 1)
    requires s.attempts[0].project == s.attempts[1].project
    ensures BothAccept(s, now, 0, 1)
  {
    now := Apply(s, StepAccept(0));
    AcceptCommitsExactly(s, 0);
    CommitsWithEffect(s, StepAccept(0));
    AcceptCommitsExactly(s, 1);
    CommitsWithEffect(s, StepAccept(1));
  }

  lemma OnlyOneOther(s: State)
    requires Linked(s) && |s.attempts| == 2 && |s.shots| == 2 && ShotOf(s, 0).accepted == Some(0)
    requires s.attempts[0].shot != s.attempts[1].shot
    ensures OthersAccepted(s, 1)
  {
  }

  lemma SecondWouldComplete(s: State, now: State)
    requires BothAccept(s, now, 0, 1) && |s.shots| == 2 && |s.attempts| == 2
    ensures SampleRuns.Touches(s, now, 0)
    ensures Completion.IsCompleted(Apply(now, StepAccept(1)), s.attempts[1].project)
  {
    AfterFirst(s, now, 0, 1);
    LateIsInReview(s, now, 0, 1);
    OnlyOneOther(now);
    LastCompletes(now, 1);
  }

  /** Both acceptances commit: all shots accepted, and the project still awaiting its final review. */
  lemma MissedCompletion() returns (s: State, now: State, s2: State)
    ensures Reachable(3, s) && BothAccept(s, now, 0, 1) && SampleRuns.Touches(s, now, 0)
    ensures AcceptLate(s, now, 1) == Committed(s2)
    ensures var q := s.attempts[1].project;
            Completion.AllAccepted(s2, q) && q < |s2.projects| && s2.projects[q].status == AwaitingFinalReview
  {
    s := BothInReview();
    ReachableHolds(3, s);
    now := BothMayAccept(s);
    SecondWouldComplete(s, now);
    AcceptancesOverlapExactly(s, now, 0, 1);
    CompletionMissedExactly(s, now, 0, 1);
    s2 := AcceptLate(s, now, 1).s;
  }
}
