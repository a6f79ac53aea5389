/** What a lease on an attempt protects, when it lapses, and that a worker takes one attempt at a time; the keys and
    prompts that no two attempts share (packages/db/src/index.ts). */
module Leases {
  import opened Wrappers
  import opened Domain
  import opened ControlPlane
  import opened Lifecycle
  import opened Runs
  import LifecycleSteps

  /** Worker w works on attempt i, under a lease that has not expired at `now`. */
  predicate Leased(s: State, i: nat, w: WorkerId, now: int) {
    && i < |s.attempts| && s.attempts[i].leaseOwner == Some(w)
    && s.attempts[i].leaseExpires.Some? && s.attempts[i].leaseExpires.value >= now
    && (s.attempts[i].status == Claimed || s.attempts[i].status == Submitting || s.attempts[i].status == Submitted
        || s.attempts[i].status == Running || s.attempts[i].status == Generated || s.attempts[i].status == Evaluating)
  }

  /** The lease statements of anyone else, and what anyone does about stale leases. */
  predicate ByOthers(step: Step, w: WorkerId, now: int) {
    match step
    case StepClaimNext(_, w', t, _) => t <= now
    case StepClaimForRecovery(_, w', t, _) => t <= now
    case StepRecoverStale(t) => t <= now
    case StepHeartbeat(_, w', _) => w' != w
    case StepRelease(_, w') => w' != w
    case _ => false
  }

  /** Until it expires, a lease keeps everyone else's lease statements from touching the attempt. */
  lemma LeaseProtects(s: State, i: nat, w: WorkerId, now: int, step: Step)
    requires Linked(s) && Leased(s, i, w, now) && ByOthers(step, w, now)
    ensures i < |Apply(s, step).attempts| && Apply(s, step).attempts[i] == s.attempts[i]
  {
    if step.StepRecoverStale? {
      assert Recovered(s.attempts[i], step.now) == s.attempts[i];
    } else if step.i < |s.attempts| {
      assert Effect(s, step).Success?;
      ApplyStores(s, step);
    }
  }

  /** A claim takes an attempt exactly when it waits in the queue, nobody's lease on it lasts, and the worker holds
      no lease that lasts; recovery does the same for one in flight, and leaves its status alone. */
  lemma ClaimsExactly(s: State, i: nat, w: WorkerId, now: int, expires: int)
    requires Linked(s) && i < |s.attempts|
    ensures var a := s.attempts[i];
            var free := (a.leaseExpires.None? || a.leaseExpires.value < now)
                        && forall j :: 0 <= j < |s.attempts| ==> !Leased(s, j, w, now);
            var taken := a.(leaseOwner := Some(w), leaseExpires := Some(expires), version := a.version + 1);
            && Apply(s, StepClaimNext(i, w, now, expires)).attempts
               == (if a.status == Queued && free then s.attempts[i := taken.(status := Claimed)] else s.attempts)
            && Apply(s, StepClaimForRecovery(i, w, now, expires)).attempts
               == (if free && (a.status == Submitting || a.status == Submitted || a.status == Running
                               || a.status == Generated || a.status == Evaluating)
                   then s.attempts[i := taken] else s.attempts)
  {
    HoldsExactly(s, w, now);
    ApplyStores(s, StepClaimNext(i, w, now, expires));
    ApplyStores(s, StepClaimForRecovery(i, w, now, expires));
  }

  lemma HoldsExactly(s: State, w: WorkerId, now: int)
    ensures HoldsLease(s, w, now) <==> exists j :: 0 <= j < |s.attempts| && Leased(s, j, w, now)
  {
    if HoldsLease(s, w, now) {
      var j :| 0 <= j < |s.attempts| && s.attempts[j].leaseOwner == Some(w)
               && s.attempts[j].leaseExpires.Some? && s.attempts[j].leaseExpires.value >= now
               && Active(s.attempts[j].status);
      assert Leased(s, j, w, now);
    }
  }

  /** So a worker that has just claimed works on that attempt alone. */
  lemma ClaimTakesOne(s: State, i: nat, w: WorkerId, now: int, expires: int, recovers: bool, j: nat)
    requires Linked(s) && i < |s.attempts|
    requires var step := if recovers then StepClaimForRecovery(i, w, now, expires)
                         else StepClaimNext(i, w, now, expires);
             Apply(s, step).attempts != s.attempts && Leased(Apply(s, step), j, w, now)
    ensures j == i
  {
    ClaimsExactly(s, i, w, now, expires);
    if j != i { assert Leased(s, j, w, now); }
  }

  /** The owner's own statements: a heartbeat prolongs the lease, a release gives it up and puts an attempt that
      was only claimed back into the queue. */
  lemma OwnerKeepsOrReleases(s: State, i: nat, w: WorkerId, now: int, expires: int)
    requires Linked(s) && Leased(s, i, w, now)
    ensures var a := s.attempts[i];
            && Apply(s, StepHeartbeat(i, w, expires)).attempts
               == s.attempts[i := a.(leaseExpires := Some(expires), version := a.version + 1)]
            && Apply(s, StepRelease(i, w)).attempts
               == s.attempts[i := a.(status := if a.status == Claimed then Queued else a.status,
                                     leaseOwner := None, leaseExpires := None, version := a.version + 1)]
  {
    ApplyStores(s, StepHeartbeat(i, w, expires));
    ApplyStores(s, StepRelease(i, w));
  }

  /** Recovery of stale claims requeues exactly the claimed attempts whose lease has expired. */
  lemma StaleAreRequeued(s: State, now: int, i: nat)
    requires Linked(s) && i < |s.attempts|
    ensures var a := s.attempts[i];
            var s' := Apply(s, StepRecoverStale(now));
            && |s'.attempts| == |s.attempts| && s'.shots == s.shots && s'.projects == s.projects
            && s'.attempts[i] == if a.status == Claimed && a.leaseExpires.Some? && a.leaseExpires.value < now
                                 then a.(status := Queued, leaseOwner := None, leaseExpires := None,
                                         version := a.version + 1)
                                 else a
  {
  }

  // ------------------------------------------------------------------------- keys and prompts

  /** No two attempts share an idempotency key, and no two share a prompt of the executor. */
  ghost predicate Identified(s: State) {
    && (forall i, j :: 0 <= i < j < |s.attempts| ==> s.attempts[i].key != s.attempts[j].key)
    && (forall i, j :: 0 <= i < j < |s.attempts| && s.attempts[i].prompt.Some? ==>
          s.attempts[i].prompt != s.attempts[j].prompt)
  }

  /** A rewritten attempt keeps its key, and its prompt unless persistSubmitted gives it one that is free. */
  lemma EffectIdentifies(s: State, step: Step)
    requires Linked(s) && OnAttempt(step) && step.i < |s.attempts| && Effect(s, step).Success?
    ensures var r := Effect(s, step).value;
            && (r.attempt.prompt == s.attempts[step.i].prompt
                || (r.attempt.prompt.Some? && !PromptTaken(s, step.i, r.attempt.prompt.value)))
  {
    var a := s.attempts[step.i];
    match step {
      case StepFinishSuccess(_, _, _, _) => FinishKeepsPrompt(s, step);
      case _ =>
    }
  }

  lemma FinishKeepsPrompt(s: State, step: Step)
    requires Linked(s) && step.StepFinishSuccess? && step.i < |s.attempts| && Effect(s, step).Success?
    ensures Effect(s, step).value.attempt.prompt == s.attempts[step.i].prompt
  {
    if ToEvaluating(s.attempts[step.i]).Success? { LifecycleSteps.ToEvaluatingShape(s.attempts[step.i]); }
  }

  lemma StoreIdentifies(s: State, i: nat, r: Rows)
    requires Linked(s) && i < |s.attempts| && Identified(s) && r.attempt.key == s.attempts[i].key
    requires r.attempt.prompt == s.attempts[i].prompt
             || (r.attempt.prompt.Some? && !PromptTaken(s, i, r.attempt.prompt.value))
    ensures Identified(Store(s, i, r))
  {
  }

  lemma CreateIdentifies(s: State, k: nat, workflow: Workflow, cost: nat, key: nat, source: Option<nat>)
    requires Linked(s) && Identified(s) && CreateAttempt(s, k, workflow, cost, key, source).Success?
    ensures Identified(CreateAttempt(s, k, workflow, cost, key, source).value)
  {
    var s' := CreateAttempt(s, k, workflow, cost, key, source).value;
    assert !KeyTaken(s, key);
    forall i, j | 0 <= i < j < |s'.attempts| ensures s'.attempts[i].key != s'.attempts[j].key {
      assert s'.attempts[i] == s.attempts[i];
    }
  }

  lemma OtherStepIdentifies(s: State, step: Step)
    requires Linked(s) && Identified(s) && !OnAttempt(step) && TransactElsewhere(s, step).Success?
    ensures Identified(TransactElsewhere(s, step).value)
  {
    match step {
      case StepCreateAttempt(k, workflow, cost, key) => CreateIdentifies(s, k, workflow, cost, key, None);
      case StepRetry(i, workflow, cost, key, resolve) =>
        CreateIdentifies(s, s.attempts[i].shot, workflow, cost, key, Some(i));
      case StepRecoverStale(now) => RecoverIdentifies(s, now);
      case StepCreateProject(_, _) =>
      case StepPrepareDirectRun(_) =>
      case StepCreateShot(_) =>
      case StepNote(_) =>
    }
  }

  lemma RecoverIdentifies(s: State, now: int)
    requires Identified(s)
    ensures Identified(RecoverStale(s, now))
  {
    var s' := RecoverStale(s, now);
    assert forall i :: 0 <= i < |s.attempts| ==>
             s'.attempts[i].key == s.attempts[i].key && s'.attempts[i].prompt == s.attempts[i].prompt;
  }

  lemma StepIdentifies(s: State, step: Step)
    requires Inv(s) && Identified(s)
    ensures Identified(Apply(s, step))
  {
    if Transact(s, step).Failure? || (OnAttempt(step) && step.i >= |s.attempts|) {
    } else if OnAttempt(step) {
      CommitsWithEffect(s, step);
      AttemptStepIdentifies(s, step);
    } else {
      OtherStepIdentifies(s, step);
    }
  }

  lemma AttemptStepIdentifies(s: State, step: Step)
    requires Inv(s) && Identified(s) && OnAttempt(step) && step.i < |s.attempts| && Effect(s, step).Success?
    ensures Identified(Apply(s, step))
  {
    ViewIsConsistent(s, step.i);
    LifecycleSteps.EffectIsCoherent(s, step);
    EffectIdentifies(s, step);
    StoreIdentifies(s, step.i, Effect(s, step).value);
    ApplyStores(s, step);
  }

  lemma NextIdentifies(s: State, s': State)
    requires Inv(s) && Identified(s) && Next(s, s')
    ensures Inv(s') && Identified(s')
  {
    var step :| s' == Apply(s, step);
    StepIdentifies(s, step);
    LifecycleSteps.StepKeeps(s, step);
  }

  lemma {:induction false} RunIdentifies(trace: seq<State>)
    requires IsRun(trace) && Inv(trace[0]) && Identified(trace[0])
    ensures Identified(trace[|trace| - 1])
    decreases |trace|
  {
    if |trace| > 1 {
      NextIdentifies(trace[0], trace[1]);
      RunIdentifies(trace[1..]);
    }
  }

  /** In every reachable store a key and a prompt name one attempt. */
  lemma KeysAndPromptsIdentify(maxAttempts: nat, s: State, i: nat, j: nat)
    requires Reachable(maxAttempts, s) && i < |s.attempts| && j < |s.attempts|
    ensures s.attempts[i].key == s.attempts[j].key ==> i == j
    ensures s.attempts[i].prompt.Some? && s.attempts[i].prompt == s.attempts[j].prompt ==> i == j
  {
    EmptyHolds(maxAttempts);
    var trace :| IsRun(trace) && trace[0] == Empty(maxAttempts) && trace[|trace| - 1] == s;
    RunIdentifies(trace);
  }
}
