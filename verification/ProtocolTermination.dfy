/** Every worker returns: in any interleaving, what a worker has begun is over after a
    bounded number of its own moves, however often others get in its way. */
module ProtocolTermination {
  import opened Domain
  import P = Permission
  import A = Approval
  import L = Ledger
  import R = Recovery
  import opened Protocol
  import opened ProtocolSafety
  import Steps = ProtocolSteps
  import Recovered = ProtocolRecovery

  /** The steps that set an idle worker to work. */
  predicate Begins(step: Step) {
    || step.Begin? || step.Interrupted? || step.ReconcileGet? || step.PatchGet? || step.RefreezeGet? || step.DecideGet?
  }

  /** How many stages are left after an upsert, itself included. */
  function StagesAfter(after: After): nat {
    match after
    case Return => 4
    case Conclude(_) => 4
    case Tail(action) =>
      (match action.status
       case ExecutionSucceeded => 8
       case Verifying => 7
       case Verified => 5
       case _ => 4)
    case Toolless(stage) =>
      (match stage
       case Executing => 8
       case ExecutionSucceeded => 7
       case Verifying => 6
       case Verified => 5
       case Completed => 4
       case _ => 9)
    case Dispatch(_, _, _) => 10
    case Claim(_) => 12
    case Execute(_, _) => 16
  }

  function TriesLeft(tries: nat): nat { if tries < UPSERT_MAX_ATTEMPTS then UPSERT_MAX_ATTEMPTS - tries else 0 }

  /** How many moves of its own a worker makes at most before it returns: fourteen for each
      stage, for an upsert reads and writes up to five times and loads once. */
  function Rank(pc: Pc): nat {
    match pc
    case Idle => 0
    case RetryWrite(_, _) => 1
    case ReconcileWrite(_, _, _) => 1
    case PatchWrite(_, _, _) => 1
    case Freezing(_, _) => 1
    case Deciding(_, _) => 1
    case RetryRead(_) => 14 * 2
    case Failing(_, _) => 14 * 3
    case UpsertRead(_, _, tries, after) => 14 * StagesAfter(after) + 2 * TriesLeft(tries) + 3
    case UpsertWrite(_, _, tries, _, after) => 14 * StagesAfter(after) + 2 * TriesLeft(tries) + 2
    case UpsertReload(_, after) => 14 * StagesAfter(after) + 1
    case Expiring(_, _, _, _) => 14 * 5
    case Checking(_, _) => 14 * 6
    case Calling(_, _, _, _) => 14 * 9
    case Claiming(_, _, _) => 14 * 11
    case Consuming(_, _, _, _) => 14 * 13
    case Gating(_, _, _, _, _) => 14 * 14
    case Entering(_, _, _, _, _) => 14 * 15
    case Costing(_, _, _, _) => 14 * 17
    case Budgeting(_, _, _, _) => 14 * 18
    case Loaded(_, action) => if action.approvalId.Some? then 14 * 19 else 14 * 20
  }

  /** The longest a worker can be at it. */
  const LONGEST: nat := 280

  lemma RankIsBounded(pc: Pc)
    ensures Rank(pc) <= LONGEST
  {
  }

  // --------------------------------------------------- each move lowers the rank

  predicate Falls(s: State, t: State, w: Id) { At(t, w) != At(s, w) ==> Rank(At(t, w)) < Rank(At(s, w)) }

  lemma ResumeFalls(a: Id, after: After, row: Row)
    ensures Rank(Resume(a, after, row)) <= 14 * StagesAfter(after)
  {
    hide HashOf, CanTransition;
  }

  lemma UpsertFalls(cfg: Config, s: State, w: Id)
    ensures Falls(s, StepUpsertGet(s, w), w)
    ensures Falls(s, StepUpsertGot(s, w), w)
    ensures Falls(s, StepUpsertPut(cfg, s, w), w)
  {
    hide Resume, Persist, StagesAfter, LeavesAlone;
    var pc := At(s, w);
    if (pc.UpsertRead? || pc.UpsertReload?) && pc.a in s.rows { ResumeFalls(pc.a, pc.after, s.rows[pc.a]); }
    if pc.UpsertWrite? {
      ResumeFalls(pc.a, pc.after, Row(Persist(cfg, pc.target), 1));
      if pc.after.Conclude? { ConcludeStages(pc.after); }
    }
  }

  lemma ConcludeStages(after: After)
    requires after.Conclude?
    ensures StagesAfter(after) == 4
  {
  }

  lemma AdvanceFalls(cfg: Config, s: State, step: Step)
    requires Advances(step)
    ensures Falls(s, StepLoaded(cfg, s, step.w, step), step.w)
  {
    hide DecisionFor, SubjectOf, AttemptsRequest, A.Create, A.Finalize, A.Expire, L.Next, ApplyDecision;
  }

  lemma EnterFalls(s: State, w: Id)
    ensures Falls(s, StepExpiry(s, w), w)
    ensures Falls(s, StepEnter(s, w), w)
  {
    hide SubjectOf, A.Finalize;
  }

  lemma FailureRank(a: Id, action: Action)
    ensures Rank(FailDurable(a, action)) == 14 * 4 + 13
  {
    hide FailTarget;
  }

  lemma GateFalls(cfg: Config, s: State, w: Id, now: int)
    ensures Falls(s, StepGate(cfg, s, w, now), w)
  {
    hide DecisionFor, SubjectOf, A.Valid, FailTarget;
  }

  lemma ConsumeFalls(s: State, w: Id, now: int)
    ensures Falls(s, StepConsume(s, w, now), w)
  {
    hide A.Consumable, FailTarget;
  }

  lemma ClaimFalls(cfg: Config, s: State, w: Id)
    ensures Falls(s, StepClaim(cfg, s, w), w)
  {
    hide P.Resolve, Claimed, CanTransition, FailDurable;
    var pc := At(s, w);
    if pc.Claiming? { FailureRank(pc.a, pc.ctx.action); }
  }

  lemma SettleFalls(cfg: Config, s: State, w: Id, now: int)
    ensures Falls(s, StepSettle(cfg, s, w, now), w)
  {
    hide SubjectOf, A.Authorize, CostOf, CostRequest, L.Next, L.IsGrant;
  }

  lemma CallFalls(s: State, w: Id, flag: bool)
    ensures Falls(s, StepCall(s, w, flag), w)
    ensures Falls(s, StepVerify(s, w, flag), w)
  {
  }

  lemma RetryFalls(cfg: Config, s: State, step: Step)
    requires Retries(step) && !step.Interrupted?
    ensures Falls(s, StepRetry(cfg, s, step.w, step), step.w)
  {
    hide R.Evaluate, Retryable;
  }

  lemma OthersFall(cfg: Config, s: State, step: Step)
    requires step.ReconcilePut? || step.PatchPut? || step.RefreezePut? || step.DecidePut? || step.Crash?
    ensures Falls(s, Next(cfg, s, step), step.w)
  {
    hide Next, CanTransition, PlanHashOf, A.Decide, Patched, Persist;
    if step.ReconcilePut? {
      Steps.NextReconcile(cfg, s, step);
    } else if step.PatchPut? {
      Steps.NextReplan(cfg, s, step);
    } else if step.RefreezePut? {
      Steps.NextRefreeze(cfg, s, step);
    } else if step.DecidePut? {
      Steps.NextDecide(cfg, s, step);
    } else {
      Steps.NextCrash(cfg, s, step);
    }
  }

  lemma OwnStepFalls(cfg: Config, s: State, step: Step)
    requires !Begins(step) && !step.AddAction? && !step.LedgerStep? && !step.TouchPlan?
    ensures Falls(s, Next(cfg, s, step), step.w)
  {
    hide Next, Falls, StepLoaded, StepExpiry, StepSettle, StepEnter, StepGate, StepConsume, StepClaim, StepCall,
        StepVerify, StepUpsertGet, StepUpsertPut, StepUpsertGot, StepRetry;
    if Retries(step) {
      Steps.NextRetry(cfg, s, step);
      RetryFalls(cfg, s, step);
    } else if Advances(step) {
      Steps.NextLoaded(cfg, s, step);
      AdvanceFalls(cfg, s, step);
    } else if Upserts(step) {
      Steps.NextUpsert(cfg, s, step);
      UpsertFalls(cfg, s, step.w);
    } else if step.CallAdapter? || step.Verify? {
      Steps.NextCall(cfg, s, step);
      CallFalls(s, step.w, if step.CallAdapter? then step.success else step.passed);
    } else if Gates(step) || step.ClaimAttempt? {
      Steps.NextGate(cfg, s, step);
      var now := if step.Settle? || step.Gate? || step.Consume? then step.now else 0;
      EnterFalls(s, step.w);
      GateFalls(cfg, s, step.w, now);
      ConsumeFalls(s, step.w, now);
      ClaimFalls(cfg, s, step.w);
      SettleFalls(cfg, s, step.w, now);
    } else {
      OthersFall(cfg, s, step);
    }
  }

  // ------------------------------------------------------------------ theorem

  /** How many steps of a run move this worker. */
  function Moves(cfg: Config, s: State, steps: seq<Step>, w: Id): nat
    decreases |steps|
  {
    if steps == [] then 0
    else
      var front := steps[..|steps| - 1];
      var t := Exec(cfg, s, front);
      Moves(cfg, s, front, w) + if At(Next(cfg, t, steps[|steps| - 1]), w) != At(t, w) then 1 else 0
  }

  /** A worker that begins nothing new moves at most 280 times, whatever everybody else does:
      lost races included, no dispatch, retry, reconciliation, patch or decision goes on
      for ever. */
  lemma {:induction false} WorkersReturn(cfg: Config, s: State, steps: seq<Step>, w: Id)
    requires Inv(cfg, s) && forall k | 0 <= k < |steps| && Begins(steps[k]) :: steps[k].w != w
    ensures Moves(cfg, s, steps, w) + Rank(At(Exec(cfg, s, steps), w)) <= Rank(At(s, w)) <= LONGEST
    decreases |steps|
  {
    hide Inv, Next, Rank, Begins;
    RankIsBounded(At(s, w));
    if steps != [] {
      var n := |steps| - 1;
      var front, step := steps[..n], steps[n];
      assert forall k | 0 <= k < n :: front[k] == steps[k];
      WorkersReturn(cfg, s, front, w);
      var t := Exec(cfg, s, front);
      Steps.RunsKeepInv(cfg, s, front);
      StepFalls(cfg, t, step, w);
    }
  }

  lemma StepFalls(cfg: Config, s: State, step: Step, w: Id)
    requires Inv(cfg, s) && (Begins(step) ==> step.w != w)
    ensures Falls(s, Next(cfg, s, step), w)
  {
    hide Inv, Next, Rank;
    if step.AddAction? {
      Steps.NextReplan(cfg, s, step);
      Recovered.ReplanIsNoRetry(cfg, s, step, w, w);
    } else if step.LedgerStep? || step.TouchPlan? {
      Recovered.Bystanders(cfg, s, step);
    } else if step.w == w {
      OwnStepFalls(cfg, s, step);
    } else {
      Recovered.MovesOrStays(cfg, s, step, w);
    }
  }

  /** A write that comes too late changes nothing and is tried again, from a fresh read, until
      it is the fifth; then the worker gives up, and nothing of its target is stored. */
  lemma LostWrite(cfg: Config, s: State, w: Id)
    requires At(s, w).UpsertWrite? && At(s, w).target.payload.inputs.jsonChars <= 200_000
    requires var pc := At(s, w);
             if pc.seen.None? then pc.a in s.rows else pc.a in s.rows ==> s.rows[pc.a].version != pc.seen.value.version
    ensures var (pc, t) := (At(s, w), Next(cfg, s, UpsertPut(w)));
            && t.(workers := s.workers) == s
            && (pc.tries < 4 ==> At(t, w) == UpsertRead(pc.a, pc.target, pc.tries + 1, pc.after))
            && (pc.tries >= 4 ==>
                  At(t, w) == if pc.after.Conclude? && pc.after.action.status == Failed
                              then Failing(pc.a, pc.after.action) else Idle)
  {
    hide Next, Resume, Persist;
    Steps.NextUpsert(cfg, s, UpsertPut(w));
  }
}
