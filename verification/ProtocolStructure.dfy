/** Dispatch, execution, reconciliation, retries and approvals leave the structure
    of a plan alone, however they interleave; only a replan changes it. */
module ProtocolStructure {
  import opened Domain
  import P = Permission
  import L = Ledger
  import A = Approval
  import R = Recovery
  import H = PlanHash
  import opened Protocol
  import opened ProtocolSafety
  import Steps = ProtocolSteps
  import opened ProtocolTheorems

  /** The action a continuation carries in memory, if any, has these dependencies. */
  predicate AfterHolds(after: After, deps: seq<Id>) {
    match after
    case Claim(ctx) => ctx.action.deps == deps
    case Dispatch(ctx, _, _) => ctx.action.deps == deps
    case Tail(action) => action.deps == deps
    case _ => true
  }

  /** Every version of its action that a worker may still write has these dependencies. */
  predicate Holds(pc: Pc, deps: seq<Id>) {
    match pc
    case Loaded(_, action) => action.deps == deps
    case Expiring(_, action, _, _) => action.deps == deps
    case Budgeting(_, action, _, _) => action.deps == deps
    case Costing(_, action, _, _) => action.deps == deps
    case Entering(_, action, _, _, _) => action.deps == deps
    case Gating(_, action, _, _, _) => action.deps == deps
    case Consuming(_, ctx, _, _) => ctx.action.deps == deps
    case UpsertRead(_, target, _, after) => target.deps == deps && AfterHolds(after, deps)
    case UpsertWrite(_, target, _, _, after) => target.deps == deps && AfterHolds(after, deps)
    case UpsertReload(_, after) => AfterHolds(after, deps)
    case Claiming(_, ctx, _) => ctx.action.deps == deps
    case Calling(_, ctx, _, _) => ctx.action.deps == deps
    case Checking(_, action) => action.deps == deps
    case _ => true
  }

  /** Between loading its action and returning from it. */
  predicate Working(pc: Pc) {
    && !pc.Idle? && !pc.Deciding? && !pc.Failing? && !pc.RetryRead? && !pc.RetryWrite? && !pc.ReconcileWrite?
    && !pc.PatchWrite? && !pc.Freezing?
  }

  /** The worker may still call the adapter. */
  predicate MayCall(pc: Pc) {
    match pc
    case UpsertRead(_, _, _, after) => after.Execute? || after.Claim? || after.Dispatch?
    case UpsertWrite(_, _, _, _, after) => after.Execute? || after.Claim? || after.Dispatch?
    case UpsertReload(_, after) => after.Execute? || after.Claim? || after.Dispatch?
    case Checking(_, _) => false
    case _ => Working(pc)
  }

  /** No write that comes before the adapter call completes the action. */
  predicate Modest(pc: Pc) {
    MayCall(pc) && (pc.UpsertRead? || pc.UpsertWrite?) ==> pc.target.status != Completed
  }

  /** How a step that writes no row moves its worker: on with the same action and
      the same dependencies, or away. */
  ghost predicate Follows(pc: Pc, next: Pc) {
    next == pc
    || next.Idle?
    || (&& Working(pc) && Working(next) && next.a == pc.a && Modest(next)
        && (MayCall(next) ==> MayCall(pc))
        && forall deps :: Holds(pc, deps) ==> Holds(next, deps))
  }

  predicate PcFaithful(rows: map<Id, Row>, pc: Pc) {
    Working(pc) ==> pc.a in rows && Modest(pc) && Holds(pc, rows[pc.a].action.deps)
  }

  /** What every worker remembers of an action's dependencies is what its row says. */
  predicate Faithful(s: State) {
    forall w | w in s.workers :: PcFaithful(s.rows, s.workers[w])
  }

  predicate SameDeps(s: State, t: State) {
    t.rows.Keys == s.rows.Keys && forall a | a in s.rows :: t.rows[a].action.deps == s.rows[a].action.deps
  }

  // ------------------------------------------------------- one step at a time

  lemma LookFollows(cfg: Config, s: State, step: Step)
    requires step.LookAtApproval?
    ensures Follows(At(s, step.w), At(StepLoaded(cfg, s, step.w, step), step.w))
  {
    hide DecisionFor, SubjectOf, AttemptsRequest, Submitted;
  }

  lemma CheckFollows(cfg: Config, s: State, step: Step)
    requires step.CheckPermission? || step.Ask? || step.Wait?
    ensures Follows(At(s, step.w), At(StepLoaded(cfg, s, step.w, step), step.w))
  {
    hide DecisionFor, SubjectOf, A.Create;
  }

  lemma GoFollows(cfg: Config, s: State, step: Step)
    requires step.StartToolless? || step.PassBudgetGate?
    ensures Follows(At(s, step.w), At(StepLoaded(cfg, s, step.w, step), step.w))
  {
    hide DecisionFor, AttemptsRequest, Submitted;
  }

  lemma AdvanceFollows(cfg: Config, s: State, step: Step)
    requires Advances(step)
    ensures Follows(At(s, step.w), At(StepLoaded(cfg, s, step.w, step), step.w))
  {
    hide Follows, StepLoaded;
    if step.LookAtApproval? {
      LookFollows(cfg, s, step);
    } else if step.StartToolless? || step.PassBudgetGate? {
      GoFollows(cfg, s, step);
    } else {
      CheckFollows(cfg, s, step);
    }
  }

  lemma ProceedFollows(s: State, w: Id, pc: Pc, now: int)
    requires pc.Budgeting? || pc.Costing?
    ensures Follows(pc, At(Proceed(s, w, pc.a, pc.action, pc.approval, now), w))
  {
    hide SubjectOf, A.Authorize, A.Consumable, HashOf;
    if pc.approval.Some? {
      A.AuthorizeIff(SubjectOf(pc.a, pc.action), pc.approval.value.1, now);
      var authorized := pc.action.(status := ActionStatus.Approved);
      var next := UpsertRead(pc.a, authorized, 0, Execute(pc.approval.value.0, pc.action.retryCount));
      assert At(Proceed(s, w, pc.a, pc.action, pc.approval, now), w) in {Idle, next};
      hide Proceed;
    }
  }

  lemma SettleFollows(cfg: Config, s: State, w: Id, now: int)
    ensures Follows(At(s, w), At(StepSettle(cfg, s, w, now), w))
  {
    hide Proceed, CostOf, CostRequest, Submitted;
    var pc := At(s, w);
    if pc.Budgeting? || pc.Costing? {
      ProceedFollows(s, w, pc, now);
    } else {
      assert StepSettle(cfg, s, w, now) == s;
    }
  }

  lemma ExpiryFollows(s: State, w: Id)
    ensures Follows(At(s, w), At(StepExpiry(s, w), w))
  {
    hide SubjectOf;
  }

  lemma EnterFollows(s: State, w: Id)
    ensures Follows(At(s, w), At(StepEnter(s, w), w))
  {
  }

  lemma FailFollows(pc: Pc, a: Id, action: Action)
    requires (pc.Gating? || pc.Consuming? || pc.Claiming?) && pc.a == a
    requires action == if pc.Gating? then pc.action else pc.ctx.action
    ensures Follows(pc, FailDurable(a, action))
  {
    hide FailTarget;
  }

  lemma EntryFollows(cfg: Config, s: State, w: Id, now: int)
    ensures Follows(At(s, w), At(StepGate(cfg, s, w, now), w))
  {
    hide SubjectOf, DecisionFor, A.Valid, FailDurable;
    var pc := At(s, w);
    if pc.Gating? { FailFollows(pc, pc.a, pc.action); }
  }

  lemma ConsumeFollows(cfg: Config, s: State, w: Id, now: int)
    requires PcInv(cfg, s, w, At(s, w))
    ensures Follows(At(s, w), At(StepConsume(s, w, now), w))
  {
    hide EntryOk, FailDurable, A.Consumable;
    var pc := At(s, w);
    if pc.Consuming? { FailFollows(pc, pc.a, pc.ctx.action); }
  }

  lemma GateFollows(cfg: Config, s: State, step: Step)
    requires Gates(step) && PcInv(cfg, s, step.w, At(s, step.w))
    ensures Follows(At(s, step.w), At(Next(cfg, s, step), step.w))
  {
    hide Next, PcInv, Follows, StepExpiry, StepSettle, StepEnter, StepGate, StepConsume;
    Steps.NextGate(cfg, s, step);
    match step
    case SyncExpiry(w) => ExpiryFollows(s, w);
    case Settle(w, now) => SettleFollows(cfg, s, w, now);
    case Enter(w) => EnterFollows(s, w);
    case Gate(w, now) => EntryFollows(cfg, s, w, now);
    case Consume(w, now) => ConsumeFollows(cfg, s, w, now);
  }

  lemma ClaimFollows(cfg: Config, s: State, w: Id)
    ensures Follows(At(s, w), At(StepClaim(cfg, s, w), w))
  {
    hide P.Resolve, Claimed, CanTransition, FailDurable;
    var pc := At(s, w);
    if pc.Claiming? { FailFollows(pc, pc.a, pc.ctx.action); }
  }

  lemma CallFollows(s: State, w: Id, flag: bool)
    ensures Follows(At(s, w), At(StepCall(s, w, flag), w))
    ensures Follows(At(s, w), At(StepVerify(s, w, flag), w))
  {
  }

  lemma ExecuteFollows(cfg: Config, s: State, step: Step)
    requires Executes(step)
    ensures Follows(At(s, step.w), At(Next(cfg, s, step), step.w))
  {
    hide Next, Follows, StepClaim, StepCall, StepVerify;
    if step.ClaimAttempt? { Steps.NextGate(cfg, s, step); } else { Steps.NextCall(cfg, s, step); }
    match step
    case ClaimAttempt(w) => ClaimFollows(cfg, s, w);
    case CallAdapter(w, success) => CallFollows(s, w, success);
    case Verify(w, passed) => CallFollows(s, w, passed);
  }

  lemma ResumeFaithful(rows: map<Id, Row>, a: Id, after: After)
    requires a in rows && AfterHolds(after, rows[a].action.deps)
    ensures PcFaithful(rows, Resume(a, after, rows[a]))
    ensures Working(Resume(a, after, rows[a])) ==> Resume(a, after, rows[a]).a == a
  {
  }

  lemma UpsertGetFaithful(s: State, w: Id)
    requires PcFaithful(s.rows, At(s, w))
    ensures PcFaithful(s.rows, At(StepUpsertGet(s, w), w)) && StepUpsertGet(s, w).rows == s.rows
  {
    hide LeavesAlone, Resume;
    var pc := At(s, w);
    if pc.UpsertRead? { ResumeFaithful(s.rows, pc.a, pc.after); }
  }

  lemma UpsertGotFaithful(s: State, w: Id)
    requires PcFaithful(s.rows, At(s, w))
    ensures PcFaithful(s.rows, At(StepUpsertGot(s, w), w)) && StepUpsertGot(s, w).rows == s.rows
  {
    hide Resume;
    var pc := At(s, w);
    if pc.UpsertReload? { ResumeFaithful(s.rows, pc.a, pc.after); }
  }

  /** Where the write of an upsert takes a worker whose action exists. */
  lemma UpsertPutLeads(cfg: Config, s: State, w: Id)
    requires At(s, w).UpsertWrite? ==> At(s, w).a in s.rows
    ensures var pc, next := At(s, w), At(StepUpsertPut(cfg, s, w), w);
            || next == pc || next.Idle?
            || (&& pc.UpsertWrite?
                && (|| next == UpsertReload(pc.a, pc.after)
                    || next == UpsertRead(pc.a, pc.target, pc.tries + 1, pc.after) || next.Failing?))
  {
    hide Resume, H.Bounded, H.Fits;
  }

  lemma UpsertPutFaithful(cfg: Config, s: State, w: Id)
    requires PcFaithful(s.rows, At(s, w))
    ensures PcFaithful(s.rows, At(StepUpsertPut(cfg, s, w), w))
    ensures SameDeps(s, StepUpsertPut(cfg, s, w))
  {
    UpsertPutSameDeps(cfg, s, w);
    UpsertPutLeads(cfg, s, w);
    hide SameDeps, StepUpsertPut, AfterHolds;
  }

  lemma UpsertPutSameDeps(cfg: Config, s: State, w: Id)
    requires PcFaithful(s.rows, At(s, w))
    ensures SameDeps(s, StepUpsertPut(cfg, s, w))
  {
    hide Resume, H.Bounded, H.Fits, AfterHolds, Modest;
  }

  lemma BeginSteps(cfg: Config, s: State, step: Step)
    requires step.Begin? || step.Crash?
    ensures Next(cfg, s, step).rows == s.rows
    ensures PcFaithful(s.rows, At(s, step.w)) ==> PcFaithful(s.rows, At(Next(cfg, s, step), step.w))
  {
    hide Next;
    if step.Begin? {
      Steps.NextBegin(cfg, s, step);
    } else {
      Steps.NextCrash(cfg, s, step);
    }
  }

  lemma RefreezeSteps(cfg: Config, s: State, step: Step)
    requires step.RefreezeGet? || step.RefreezePut?
    ensures SameDeps(s, StepRefreeze(cfg, s, step))
    ensures At(StepRefreeze(cfg, s, step), step.w) == At(s, step.w) || !Working(At(StepRefreeze(cfg, s, step), step.w))
  {
    hide PlanHashOf, Loadable;
  }

  lemma RecoverySteps(cfg: Config, s: State, step: Step)
    requires step.Begin? || step.Crash? || Retries(step) || Reconciles(step) || Decides(step) || step.RefreezeGet?
             || step.RefreezePut?
    ensures SameDeps(s, Next(cfg, s, step))
    ensures PcFaithful(s.rows, At(s, step.w)) ==> PcFaithful(s.rows, At(Next(cfg, s, step), step.w))
  {
    hide Next, StepRetry, StepReconcile, StepDecide, StepRefreeze;
    if Retries(step) {
      Steps.NextRetry(cfg, s, step);
      RetrySteps(cfg, s, step);
    } else if Reconciles(step) {
      Steps.NextReconcile(cfg, s, step);
      ReconcileSteps(s, step);
    } else if Decides(step) {
      Steps.NextDecide(cfg, s, step);
      DecideSteps(s, step);
    } else if Refreezes(step) {
      Steps.NextRefreeze(cfg, s, step);
      RefreezeSteps(cfg, s, step);
    } else {
      BeginSteps(cfg, s, step);
    }
  }

  lemma RetrySteps(cfg: Config, s: State, step: Step)
    requires Retries(step)
    ensures SameDeps(s, StepRetry(cfg, s, step.w, step))
    ensures At(StepRetry(cfg, s, step.w, step), step.w) == At(s, step.w)
              || !Working(At(StepRetry(cfg, s, step.w, step), step.w))
  {
    hide R.Evaluate, Retryable;
    if step.RetryPut? {
      hide StepRetry, SameDeps;
      RetryPutSteps(cfg, s, step);
    }
  }

  lemma RetryPutSteps(cfg: Config, s: State, step: Step)
    requires step.RetryPut?
    ensures SameDeps(s, StepRetry(cfg, s, step.w, step))
    ensures At(StepRetry(cfg, s, step.w, step), step.w) in {At(s, step.w), Idle}
  {
    hide R.Evaluate, Retryable;
  }

  lemma ReconcileSteps(s: State, step: Step)
    requires Reconciles(step)
    ensures SameDeps(s, StepReconcile(s, step.w, step))
    ensures At(StepReconcile(s, step.w, step), step.w) == At(s, step.w)
              || !Working(At(StepReconcile(s, step.w, step), step.w))
  {
    hide CanTransition, InProgress;
  }

  lemma DecideSteps(s: State, step: Step)
    requires Decides(step)
    ensures StepDecide(s, step).rows == s.rows
    ensures At(StepDecide(s, step), step.w) == At(s, step.w) || !Working(At(StepDecide(s, step), step.w))
  {
  }

  lemma WorkersUntouched(cfg: Config, s: State, step: Step)
    requires step.LedgerStep? || step.TouchPlan?
    ensures Next(cfg, s, step).rows == s.rows && Next(cfg, s, step).workers == s.workers
  {
    hide L.Next;
  }

  lemma FollowsFaithful(rows: map<Id, Row>, pc: Pc, next: Pc)
    requires PcFaithful(rows, pc) && Follows(pc, next)
    ensures PcFaithful(rows, next)
  {
  }

  lemma QuietFaithful(cfg: Config, s: State, step: Step)
    requires Inv(cfg, s) && (Advances(step) || Gates(step) || Executes(step)) && PcFaithful(s.rows, At(s, step.w))
    ensures Next(cfg, s, step).rows == s.rows && PcFaithful(s.rows, At(Next(cfg, s, step), step.w))
  {
    hide Next, Inv, PcFaithful, Follows, StepLoaded;
    RowsUntouched(cfg, s, step);
    if Advances(step) {
      AdvanceFollows(cfg, s, step);
      Steps.NextLoaded(cfg, s, step);
    } else if Gates(step) {
      Steps.AtInv(cfg, s, step.w);
      hide PcInv;
      GateFollows(cfg, s, step);
    } else {
      ExecuteFollows(cfg, s, step);
    }
    FollowsFaithful(s.rows, At(s, step.w), At(Next(cfg, s, step), step.w));
  }

  lemma UpsertFaithful(cfg: Config, s: State, step: Step)
    requires Upserts(step)
    requires PcFaithful(s.rows, At(s, step.w))
    ensures SameDeps(s, Next(cfg, s, step)) && PcFaithful(s.rows, At(Next(cfg, s, step), step.w))
  {
    hide Next, PcFaithful, StepUpsertGet, StepUpsertPut, StepUpsertGot;
    Steps.NextUpsert(cfg, s, step);
    UpsertGetFaithful(s, step.w);
    UpsertGotFaithful(s, step.w);
    UpsertPutFaithful(cfg, s, step.w);
  }

  lemma OwnFaithful(cfg: Config, s: State, step: Step)
    requires Inv(cfg, s) && PcFaithful(s.rows, At(s, Steps.Actor(step))) && !Replans(step)
    ensures SameDeps(s, Next(cfg, s, step))
    ensures PcFaithful(s.rows, At(Next(cfg, s, step), Steps.Actor(step)))
  {
    hide Next, Inv, PcFaithful;
    if Advances(step) || Gates(step) || Executes(step) {
      QuietFaithful(cfg, s, step);
    } else if Upserts(step) {
      UpsertFaithful(cfg, s, step);
    } else if step.LedgerStep? || step.TouchPlan? {
      WorkersUntouched(cfg, s, step);
    } else {
      RecoverySteps(cfg, s, step);
    }
  }

  lemma OthersFaithful(s: State, t: State, actor: Id)
    requires Faithful(s) && SameDeps(s, t) && PcFaithful(s.rows, At(t, actor))
    requires forall v | v != actor :: At(t, v) == At(s, v)
    ensures Faithful(t)
  {
    hide Modest, Holds;
    forall w | w in t.workers
      ensures PcFaithful(t.rows, t.workers[w])
    {
      assert t.workers[w] == At(t, w);
      if w != actor { assert At(t, w) == At(s, w); }
    }
  }

  lemma StepFaithful(cfg: Config, s: State, step: Step)
    requires Inv(cfg, s) && Faithful(s) && !Replans(step)
    ensures Faithful(Next(cfg, s, step)) && SameDeps(s, Next(cfg, s, step))
  {
    hide Next, Inv, PcInv, PcFaithful;
    var actor := Steps.Actor(step);
    Steps.StepKeepsInv(cfg, s, step);
    assert PcFaithful(s.rows, At(s, actor)) by { IdleFaithful(s.rows); }
    OwnFaithful(cfg, s, step);
    OthersFaithful(s, Next(cfg, s, step), actor);
  }

  lemma IdleFaithful(rows: map<Id, Row>)
    ensures PcFaithful(rows, Idle)
  {
  }

  // ------------------------------------------------------------------- hash

  /** With payloads and dependencies kept, the plan hash is. */
  lemma SameStructureSameHash(cfg: Config, s: State, t: State)
    requires SameDeps(s, t)
    requires forall a | a in s.rows :: t.rows[a].action.payload == s.rows[a].action.payload
    ensures PlanHashOf(cfg, t.rows) == PlanHashOf(cfg, s.rows)
  {
  }

  lemma RowsAreStored(cfg: Config, s: State)
    requires Inv(cfg, s)
    ensures forall a | a in s.rows :: Stored(cfg, a, s.rows[a].action)
  {
  }

  lemma SamePayloads(cfg: Config, s: State, t: State)
    requires s.rows.Keys <= t.rows.Keys
    requires forall a | a in s.rows :: Stored(cfg, a, s.rows[a].action)
    requires forall a | a in t.rows :: Stored(cfg, a, t.rows[a].action)
    ensures forall a | a in s.rows :: t.rows[a].action.payload == s.rows[a].action.payload
  {
  }

  /** No run without a replan changes the plan hash: whatever is dispatched, executed,
      reconciled, retried, approved, charged or crashed, in any interleaving, and
      although every upsert rewrites all of an action's columns from memory. */
  lemma {:induction false} RunsKeepStructure(cfg: Config, s: State, steps: seq<Step>)
    requires Inv(cfg, s) && Faithful(s) && forall i | 0 <= i < |steps| :: !Replans(steps[i])
    ensures Faithful(Exec(cfg, s, steps)) && SameDeps(s, Exec(cfg, s, steps))
    ensures PlanHashOf(cfg, Exec(cfg, s, steps).rows) == PlanHashOf(cfg, s.rows)
    decreases |steps|
  {
    if steps != [] {
      var before := Exec(cfg, s, steps[..|steps| - 1]);
      RunsKeepStructure(cfg, s, steps[..|steps| - 1]);
      Steps.RunsKeepInv(cfg, s, steps[..|steps| - 1]);
      StepFaithful(cfg, before, steps[|steps| - 1]);
      Steps.RunsKeepInv(cfg, s, steps);
      hide Inv, PlanHashOf, Next, Faithful, Stored;
      RowsAreStored(cfg, s);
      RowsAreStored(cfg, Exec(cfg, s, steps));
      assert forall a | a in s.rows :: Exec(cfg, s, steps).rows[a].action.payload == s.rows[a].action.payload by {
        SamePayloads(cfg, s, Exec(cfg, s, steps));
      }
      SameStructureSameHash(cfg, s, Exec(cfg, s, steps));
    }
  }
}
