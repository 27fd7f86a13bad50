/** Which status changes sequential histories make: hops of the action state machine,
    authorized retries, and exactly two shapes the table does not have. */
module ProtocolHops {
  import opened Domain
  import P = Permission
  import A = Approval
  import E = Eligibility
  import H = PlanHash
  import R = Recovery
  import opened Protocol
  import opened ProtocolSafety
  import Steps = ProtocolSteps
  import opened ProtocolTheorems
  import opened ProtocolStructure
  import opened ProtocolOrder

  /** A denied budget fails an approved action that still waits. */
  predicate DeniedHop(before: ActionStatus, after: ActionStatus) {
    before == WaitingForApproval && after == Failed
  }

  /** A failed verification is stored as FAILED straight over VERIFYING. */
  predicate UnverifiedHop(before: ActionStatus, after: ActionStatus) {
    before == Verifying && after == Failed
  }

  predicate Hop(before: ActionStatus, after: ActionStatus) {
    before == after || CanTransition(before, after) || DeniedHop(before, after) || UnverifiedHop(before, after)
  }

  /** A hop the upsert's guard lets through. */
  predicate Lands(before: ActionStatus, after: ActionStatus) { Hop(before, after) && !Outranks(before, after) }

  /** What a continuation relies on about the status the upsert leaves. */
  predicate AfterHop(status: ActionStatus, after: After) {
    match after
    case Execute(_, _) => !Terminal(status)
    case Claim(ctx) => ctx.action.status == status && !Terminal(status)
    case Dispatch(_, _, _) => status == Executing
    case Tail(action) => action.status == status
    case _ => true
  }

  /** What a worker that nobody disturbs knows about its action's stored status. */
  predicate PcHop(status: ActionStatus, pc: Pc) {
    match pc
    case Loaded(_, action) => action.status == status && !Terminal(status)
    case Expiring(_, action, _, _) => action.status == status && !Terminal(status)
    case Budgeting(_, action, _, _) => action.status == status && !Terminal(status)
    case Costing(_, action, _, _) => action.status == status && !Terminal(status)
    case Entering(_, action, _, _, _) => action.status == status && !Terminal(status)
    case Gating(_, action, _, _, _) => action.status == status && !Terminal(status)
    case Consuming(_, ctx, _, _) => ctx.action.status == status && !Terminal(status)
    case UpsertRead(_, target, _, after) => Lands(status, target.status) && AfterHop(target.status, after)
    case UpsertWrite(_, target, _, _, after) => Lands(status, target.status) && AfterHop(target.status, after)
    case UpsertReload(_, after) => AfterHop(status, after)
    case Claiming(_, ctx, _) => ctx.action.status == status && !Terminal(status)
    case Calling(_, _, _, _) => status == Executing
    case Checking(_, action) => action.status == status == Verifying
    case _ => true
  }

  predicate Undisturbed(s: State) {
    forall w | w in s.workers && Working(s.workers[w]) && s.workers[w].a in s.rows ::
      PcHop(s.rows[s.workers[w].a].action.status, s.workers[w])
  }

  // ------------------------------------------------- steps that write no row

  lemma FailHops(status: ActionStatus, a: Id, action: Action)
    requires action.status == status && !Terminal(status) && status != VerificationFailed
    ensures PcHop(status, FailDurable(a, action))
  {
  }

  lemma LoadedHops(cfg: Config, s: State, step: Step, status: ActionStatus)
    requires Advances(step) && !step.LookAtApproval? && PcHop(status, At(s, step.w))
    ensures PcHop(status, At(StepLoaded(cfg, s, step.w, step), step.w))
  {
    hide DecisionFor, SubjectOf, AttemptsRequest, Submitted, A.Create, A.Finalize, A.Expire;
  }

  lemma FinalHops(a: Id, action: Action, request: A.Request)
    requires !Terminal(action.status)
    ensures var final := A.Finalize(SubjectOf(a, action), request);
            final.Ok? ==> Lands(action.status, final.value)
  {
  }

  lemma LookHops(cfg: Config, s: State, step: Step, status: ActionStatus)
    requires step.LookAtApproval? && PcHop(status, At(s, step.w))
    ensures PcHop(status, At(StepLoaded(cfg, s, step.w, step), step.w))
  {
    hide DecisionFor, SubjectOf, AttemptsRequest, Submitted, A.Finalize, Lands;
    var pc := At(s, step.w);
    if pc.Loaded? && pc.action.approvalId.Some? && pc.action.approvalId.value in s.approvals {
      FinalHops(pc.a, pc.action, s.approvals[pc.action.approvalId.value]);
    }
  }

  lemma ExpiryHops(s: State, w: Id, status: ActionStatus)
    requires PcHop(status, At(s, w))
    ensures PcHop(status, At(StepExpiry(s, w), w))
  {
    hide SubjectOf, A.Finalize, Lands;
    var pc := At(s, w);
    if pc.Expiring? { FinalHops(pc.a, pc.action, pc.expired); }
  }

  lemma AuthorizeHops(a: Id, action: Action, request: A.Request, now: int)
    requires !Terminal(action.status)
    ensures var authorized := A.Authorize(SubjectOf(a, action), request, now);
            authorized.Ok? ==> Lands(action.status, authorized.value) && !Terminal(authorized.value)
  {
    A.AuthorizeIff(SubjectOf(a, action), request, now);
    hide A.Authorize, A.Consumable, HashOf;
  }

  lemma ProceedHops(s: State, w: Id, pc: Pc, now: int, status: ActionStatus)
    requires (pc.Budgeting? || pc.Costing?) && pc.action.status == status && !Terminal(status)
    ensures PcHop(status, At(Proceed(s, w, pc.a, pc.action, pc.approval, now), w))
  {
    hide SubjectOf, A.Authorize, Lands;
    if pc.approval.Some? {
      AuthorizeHops(pc.a, pc.action, pc.approval.value.1, now);
      var authorized := A.Authorize(SubjectOf(pc.a, pc.action), pc.approval.value.1, now);
      if authorized.Ok? {
        var next := UpsertRead(pc.a, pc.action.(status := authorized.value), 0,
                               Execute(pc.approval.value.0, pc.action.retryCount));
        assert At(Proceed(s, w, pc.a, pc.action, pc.approval, now), w) == next;
        hide Proceed;
      }
    }
  }

  lemma DeniedHops(cfg: Config, s: State, w: Id, status: ActionStatus)
    requires PcInv(cfg, s, w, At(s, w)) && PcHop(status, At(s, w)) && (At(s, w).Budgeting? || At(s, w).Costing?)
    ensures var pc := At(s, w); PcHop(status, UpsertRead(pc.a, pc.action.(status := Failed), 0, Return))
  {
    hide ActionOk;
  }

  lemma SettleHops(cfg: Config, s: State, w: Id, now: int, status: ActionStatus)
    requires PcInv(cfg, s, w, At(s, w)) && PcHop(status, At(s, w))
    ensures PcHop(status, At(StepSettle(cfg, s, w, now), w))
  {
    var pc := At(s, w);
    if pc.Budgeting? || pc.Costing? {
      DeniedHops(cfg, s, w, status);
      ProceedHops(s, w, pc, now, status);
    }
    hide PcInv, Proceed, CostOf, CostRequest, Submitted, Lands;
  }

  lemma EnterHops(s: State, w: Id, status: ActionStatus)
    requires PcHop(status, At(s, w))
    ensures PcHop(status, At(StepEnter(s, w), w))
  {
  }

  lemma GatingAtGate(cfg: Config, s: State, w: Id)
    requires PcInv(cfg, s, w, At(s, w)) && At(s, w).Gating?
    ensures At(s, w).action.status != VerificationFailed
  {
  }

  lemma GateHops(cfg: Config, s: State, w: Id, now: int, status: ActionStatus)
    requires PcInv(cfg, s, w, At(s, w)) && PcHop(status, At(s, w))
    ensures PcHop(status, At(StepGate(cfg, s, w, now), w))
  {
    var pc := At(s, w);
    if pc.Gating? {
      GatingAtGate(cfg, s, w);
      Steps.GatePassedIff(cfg, s, w, now);
      hide PcInv, StepGate, A.Consumable, CanTransition;
      FailHops(status, pc.a, pc.action);
      hide FailDurable;
    } else {
      assert StepGate(cfg, s, w, now) == s;
      hide StepGate;
    }
  }

  lemma ConsumeHops(cfg: Config, s: State, w: Id, now: int, status: ActionStatus)
    requires PcInv(cfg, s, w, At(s, w)) && PcHop(status, At(s, w))
    ensures PcHop(status, At(StepConsume(s, w, now), w))
  {
    var pc := At(s, w);
    if pc.Consuming? { FailHops(status, pc.a, pc.ctx.action); }
    hide FailDurable, A.Consumable, PcInv, CanTransition;
  }

  lemma ClaimingAtGate(cfg: Config, s: State, w: Id)
    requires PcInv(cfg, s, w, At(s, w)) && At(s, w).Claiming?
    ensures At(s, w).ctx.action.status == PermissionChecked || At(s, w).ctx.action.status == ActionStatus.Approved
  {
  }

  lemma ClaimHops(cfg: Config, s: State, w: Id, status: ActionStatus)
    requires PcInv(cfg, s, w, At(s, w)) && PcHop(status, At(s, w))
    ensures PcHop(status, At(StepClaim(cfg, s, w), w))
  {
    hide FailDurable, P.Resolve, PcInv, Claimed;
    var pc := At(s, w);
    if pc.Claiming? {
      ClaimingAtGate(cfg, s, w);
      FailHops(status, pc.a, pc.ctx.action);
    }
  }

  lemma CallHops(s: State, w: Id, success: bool, status: ActionStatus)
    requires PcHop(status, At(s, w))
    ensures PcHop(status, At(StepCall(s, w, success), w))
  {
  }

  lemma VerifyHops(s: State, w: Id, passed: bool, status: ActionStatus)
    requires PcHop(status, At(s, w))
    ensures PcHop(status, At(StepVerify(s, w, passed), w))
  {
  }

  lemma AdvanceHops(cfg: Config, s: State, step: Step, status: ActionStatus)
    requires Advances(step) && PcHop(status, At(s, step.w))
    ensures PcHop(status, At(Next(cfg, s, step), step.w))
  {
    hide Next, PcHop, StepLoaded;
    Steps.NextLoaded(cfg, s, step);
    if step.LookAtApproval? { LookHops(cfg, s, step, status); } else { LoadedHops(cfg, s, step, status); }
  }

  lemma GatesHops(cfg: Config, s: State, step: Step, status: ActionStatus)
    requires (Gates(step) || step.ClaimAttempt?) && PcInv(cfg, s, step.w, At(s, step.w))
    requires PcHop(status, At(s, step.w))
    ensures PcHop(status, At(Next(cfg, s, step), step.w))
  {
    hide Next, PcInv, PcHop, StepExpiry, StepSettle, StepEnter, StepGate, StepConsume, StepClaim;
    Steps.NextGate(cfg, s, step);
    match step
    case SyncExpiry(w) => ExpiryHops(s, w, status);
    case Settle(w, now) => SettleHops(cfg, s, w, now, status);
    case Enter(w) => EnterHops(s, w, status);
    case Gate(w, now) => GateHops(cfg, s, w, now, status);
    case Consume(w, now) => ConsumeHops(cfg, s, w, now, status);
    case ClaimAttempt(w) => ClaimHops(cfg, s, w, status);
  }

  /** A step that writes no row keeps what its worker knows. */
  lemma QuietStepHops(cfg: Config, s: State, step: Step, status: ActionStatus)
    requires Inv(cfg, s) && (Advances(step) || Gates(step) || Executes(step)) && PcHop(status, At(s, step.w))
    ensures PcHop(status, At(Next(cfg, s, step), step.w))
  {
    hide Next, Inv, PcInv, PcHop, StepCall, StepVerify;
    if Advances(step) {
      AdvanceHops(cfg, s, step, status);
    } else if Gates(step) || step.ClaimAttempt? {
      Steps.AtInv(cfg, s, step.w);
      GatesHops(cfg, s, step, status);
    } else {
      Steps.NextCall(cfg, s, step);
      if step.CallAdapter? {
        CallHops(s, step.w, step.success, status);
      } else {
        VerifyHops(s, step.w, step.passed, status);
      }
    }
  }

  // ------------------------------------------------------------------ upserts

  lemma ResumeHops(a: Id, after: After, row: Row)
    requires AfterHop(row.action.status, after)
    ensures Working(Resume(a, after, row)) ==> PcHop(row.action.status, Resume(a, after, row))
  {
  }

  lemma UpsertReadHops(s: State, w: Id)
    requires var pc := At(s, w); Working(pc) ==> pc.a in s.rows && PcHop(s.rows[pc.a].action.status, pc)
    ensures var pc, next := At(s, w), At(StepUpsertGet(s, w), w);
            Working(next) ==> Working(pc) && next.a == pc.a && PcHop(s.rows[pc.a].action.status, next)
    ensures var pc, next := At(s, w), At(StepUpsertGot(s, w), w);
            Working(next) ==> Working(pc) && next.a == pc.a && PcHop(s.rows[pc.a].action.status, next)
  {
    var pc := At(s, w);
    if pc.UpsertReload? { ResumeHops(pc.a, pc.after, s.rows[pc.a]); ResumesSame(pc.a, pc.after, s.rows[pc.a]); }
    hide Resume;
  }

  lemma ResumesSame(a: Id, after: After, row: Row)
    ensures Working(Resume(a, after, row)) ==> Resume(a, after, row).a == a
  {
  }

  /** The guarded write makes one hop, and the worker knows where it has landed. */
  lemma UpsertPutHops(cfg: Config, s: State, w: Id)
    requires var pc := At(s, w); Working(pc) ==> pc.a in s.rows && PcHop(s.rows[pc.a].action.status, pc)
    ensures var pc, t := At(s, w), StepUpsertPut(cfg, s, w);
            && (Working(At(t, w)) ==>
                Working(pc) && At(t, w).a == pc.a && pc.a in t.rows && PcHop(t.rows[pc.a].action.status, At(t, w)))
            && (forall a | a in s.rows :: a in t.rows && Hop(s.rows[a].action.status, t.rows[a].action.status))
            && (forall a | a in s.rows && (!Working(pc) || a != pc.a) :: t.rows[a] == s.rows[a])
  {
    hide Resume, CanTransition;
  }

  // ------------------------------------------------------------------- theorem

  /** What one step of a sequential history does to the statuses of the rows. */
  ghost predicate Hops(s: State, t: State, retry: bool) {
    forall a | a in s.rows ::
      && a in t.rows
      && (|| Hop(s.rows[a].action.status, t.rows[a].action.status)
          || (retry && RetrySource(s.rows[a].action.status) && t.rows[a].action.status == Validated))
  }

  lemma OneHop(s: State, t: State, a: Id, retry: bool)
    requires a in s.rows && a in t.rows && t.rows == s.rows[a := t.rows[a]]
    requires || Hop(s.rows[a].action.status, t.rows[a].action.status)
             || (retry && RetrySource(s.rows[a].action.status) && t.rows[a].action.status == Validated)
    ensures Hops(s, t, retry)
  {
    hide CanTransition;
  }

  lemma RetryHops(cfg: Config, s: State, step: Step)
    requires Inv(cfg, s) && step.RetryPut?
    ensures Hops(s, StepRetry(cfg, s, step.w, step), true)
  {
    Steps.WriterKnows(cfg, s, step.w);
    RetryWritesOne(cfg, s, step);
    hide Inv, NeedsApproval, Hop, Hops, StepRetry;
    var pc, t := At(s, step.w), StepRetry(cfg, s, step.w, step);
    if t.rows == s.rows { NoHop(s, t, true); } else { OneHop(s, t, pc.a, true); }
  }

  lemma ReconcileHops(cfg: Config, s: State, step: Step)
    requires Inv(cfg, s) && step.ReconcilePut?
    ensures Hops(s, StepReconcile(s, step.w, step), false)
  {
    Steps.WriterKnows(cfg, s, step.w);
    ReconcileWritesOne(s, step);
    hide Inv, NeedsApproval, Hops, CanTransition, StepReconcile, Retryable;
    var pc, t := At(s, step.w), StepReconcile(s, step.w, step);
    if t.rows == s.rows { NoHop(s, t, false); } else { OneHop(s, t, pc.a, false); }
  }

  lemma ReplanHops(cfg: Config, s: State, step: Step)
    requires step.AddAction? || step.PatchPut?
    ensures Hops(s, Next(cfg, s, step), false)
  {
    hide Next;
    Steps.NextReplan(cfg, s, step);
    hide Persist;
  }

  lemma NoHop(s: State, t: State, retry: bool)
    requires t.rows == s.rows
    ensures Hops(s, t, retry)
  {
  }

  /** Each write of a row in a sequential history is a hop of the state machine, an
      authorized retry, or one of the two shapes outside the table: FAILED over
      WAITING_FOR_APPROVAL and FAILED over VERIFYING. */
  lemma StepHops(cfg: Config, s: State, step: Step)
    requires Inv(cfg, s) && Faithful(s) && Undisturbed(s)
    ensures Hops(s, Next(cfg, s, step), step.RetryPut?)
  {
    hide Next;
    if step.UpsertPut? {
      Steps.NextUpsert(cfg, s, step);
      assert PcFaithful(s.rows, At(s, step.w));
      hide Inv, StepUpsertPut;
      UpsertPutHops(cfg, s, step.w);
    } else if step.RetryPut? {
      Steps.NextRetry(cfg, s, step);
      hide Inv, Hops, StepRetry;
      RetryHops(cfg, s, step);
    } else if step.ReconcilePut? {
      Steps.NextReconcile(cfg, s, step);
      hide Inv, Hops, StepReconcile;
      ReconcileHops(cfg, s, step);
    } else if step.AddAction? || step.PatchPut? {
      hide Inv, Hops;
      ReplanHops(cfg, s, step);
    } else {
      hide Inv;
      RowsUntouched(cfg, s, step);
      NoHop(s, Next(cfg, s, step), step.RetryPut?);
    }
  }

  /** What a worker knows, if it works on an action. */
  predicate Knows(s: State, w: Id) {
    Working(At(s, w)) && At(s, w).a in s.rows ==> PcHop(s.rows[At(s, w).a].action.status, At(s, w))
  }

  lemma OwnAction(cfg: Config, s: State, step: Step)
    requires Inv(cfg, s) && (Advances(step) || Gates(step) || Executes(step))
    ensures var pc, next := At(s, step.w), At(Next(cfg, s, step), step.w);
            Working(next) ==> Working(pc) && next.a == pc.a
  {
    hide Next, Inv;
    OwnContinues(cfg, s, step);
  }

  lemma QuietKnows(cfg: Config, s: State, step: Step)
    requires Inv(cfg, s) && (Advances(step) || Gates(step) || Executes(step))
    requires PcFaithful(s.rows, At(s, step.w)) && Knows(s, step.w)
    ensures Knows(Next(cfg, s, step), step.w)
  {
    hide Next, Inv, PcHop, Continues;
    OwnAction(cfg, s, step);
    RowsUntouched(cfg, s, step);
    if Working(At(s, step.w)) { QuietStepHops(cfg, s, step, s.rows[At(s, step.w).a].action.status); }
  }

  lemma UpsertKnows(cfg: Config, s: State, w: Id)
    requires PcFaithful(s.rows, At(s, w)) && Knows(s, w)
    ensures Knows(StepUpsertGet(s, w), w) && Knows(StepUpsertGot(s, w), w) && Knows(StepUpsertPut(cfg, s, w), w)
  {
    UpsertReadHops(s, w);
    UpsertPutHops(cfg, s, w);
    UpsertGetFaithful(s, w);
    UpsertGotFaithful(s, w);
    hide PcHop, StepUpsertGet, StepUpsertGot, StepUpsertPut;
  }

  lemma StillKnows(s: State, w: Id)
    requires Faithful(s) && Undisturbed(s)
    ensures PcFaithful(s.rows, At(s, w)) && Knows(s, w)
  {
    hide PcHop, Holds, Modest;
  }

  lemma SameKnows(s: State, t: State, w: Id)
    requires Knows(s, w) && (Working(At(t, w)) ==> At(t, w) == At(s, w) && t.rows == s.rows)
    ensures Knows(t, w)
  {
    hide PcHop;
  }

  /** The own worker of an ongoing step goes on knowing its action's status. */
  lemma OwnUndisturbed(cfg: Config, s: State, step: Step)
    requires Inv(cfg, s) && Faithful(s) && Undisturbed(s) && !Replans(step) && !Starts(step)
    ensures Knows(Next(cfg, s, step), Steps.Actor(step))
  {
    hide Next, Inv, PcHop, Faithful, Undisturbed, PcFaithful, Knows;
    var w := Steps.Actor(step);
    StillKnows(s, w);
    if Advances(step) || Gates(step) || Executes(step) {
      QuietKnows(cfg, s, step);
    } else if Upserts(step) {
      hide StepUpsertGet, StepUpsertGot, StepUpsertPut;
      Steps.NextUpsert(cfg, s, step);
      UpsertKnows(cfg, s, w);
    } else {
      IdleOrSame(cfg, s, step);
      SameKnows(s, Next(cfg, s, step), w);
    }
  }

  /** The remaining steps either leave a working worker and its row alone or end it. */
  lemma IdleOrSame(cfg: Config, s: State, step: Step)
    requires !Replans(step) && !Starts(step) && !Advances(step) && !Gates(step) && !Executes(step)
    requires !Upserts(step)
    ensures var w, t := Steps.Actor(step), Next(cfg, s, step);
            Working(At(t, w)) ==> At(t, w) == At(s, w) && t.rows == s.rows
  {
    hide Next;
    if step.LedgerStep? || step.TouchPlan? {
      WorkersUntouched(cfg, s, step);
    } else if Retries(step) {
      Steps.NextRetry(cfg, s, step);
      RetryEnds(cfg, s, step);
      hide StepRetry;
    } else if Reconciles(step) {
      Steps.NextReconcile(cfg, s, step);
    } else if Refreezes(step) {
      Steps.NextRefreeze(cfg, s, step);
    } else if Decides(step) {
      Steps.NextDecide(cfg, s, step);
    } else {
      Steps.NextCrash(cfg, s, step);
    }
  }

  lemma RetryEnds(cfg: Config, s: State, step: Step)
    requires Retries(step) && !step.Interrupted?
    ensures var t := StepRetry(cfg, s, step.w, step);
            Working(At(t, step.w)) ==> At(t, step.w) == At(s, step.w) && t.rows == s.rows
  {
    hide R.Evaluate, Retryable;
  }

  lemma OngoingUndisturbed(cfg: Config, s: State, step: Step)
    requires Inv(cfg, s) && Faithful(s) && OrderInv(s) && Undisturbed(s) && !Replans(step) && !Starts(step)
    ensures Undisturbed(Next(cfg, s, step))
  {
    var t, actor := Next(cfg, s, step), Steps.Actor(step);
    StepIsOneMove(cfg, s, step);
    OwnUndisturbed(cfg, s, step);
    hide Next, Inv, PcHop, Continues, Faithful;
    forall w | w in t.workers && Working(t.workers[w]) && t.workers[w].a in t.rows
      ensures PcHop(t.rows[t.workers[w].a].action.status, t.workers[w])
    {
      assert t.workers[w] == At(t, w);
      if w != actor {
        OthersQuiet(s, w, actor);
        assert At(t, w) == At(s, w) && t.rows == s.rows;
        assert At(s, w) == s.workers[w];
      }
    }
  }

  /** A worker that takes up an action has just read its status. */
  lemma BeginKnows(cfg: Config, s: State, step: Step)
    requires Sequential(s, step) && step.Begin? && Undisturbed(s)
    ensures Knows(Next(cfg, s, step), step.w)
  {
    var a := step.a;
    E.ReadyIff(s.rows[a].action.status, s.rows[a].action.deps, Statuses(s));
    hide Next;
    Steps.NextBegin(cfg, s, step);
    assert Knows(s, step.w);
  }

  lemma StartKnows(cfg: Config, s: State, step: Step)
    requires Sequential(s, step) && Undisturbed(s)
    requires step.Interrupted? || step.ReconcileGet? || step.RefreezeGet? || step.PatchGet?
    ensures Knows(Next(cfg, s, step), step.w)
  {
    hide Next;
    assert Knows(s, step.w);
    if step.Interrupted? {
      Steps.NextRetry(cfg, s, step);
    } else if step.ReconcileGet? {
      Steps.NextReconcile(cfg, s, step);
    } else if step.RefreezeGet? {
      Steps.NextRefreeze(cfg, s, step);
    } else {
      Steps.NextReplan(cfg, s, step);
    }
    hide PcHop, PlanHashOf;
  }

  lemma TakenUpUndisturbed(s: State, t: State, actor: Id)
    requires Undisturbed(s) && TakenUp(s, t, actor) && Knows(t, actor)
    ensures Undisturbed(t)
  {
    hide PcHop;
    forall w | w in t.workers && Working(t.workers[w]) && t.workers[w].a in t.rows
      ensures PcHop(t.rows[t.workers[w].a].action.status, t.workers[w])
    {
      assert t.workers[w] == At(t, w);
      if w != actor { assert At(t, w) == At(s, w) && At(s, w) == s.workers[w]; }
    }
  }

  lemma ReplannedUndisturbed(s: State, t: State, a: Id)
    requires Replanned(s, t, a)
    ensures Undisturbed(t)
  {
    forall w | w in t.workers ensures !Working(t.workers[w]) { assert !Busy(At(t, w)) && At(t, w) == t.workers[w]; }
  }

  lemma SequentialStepUndisturbed(cfg: Config, s: State, step: Step)
    requires Inv(cfg, s) && Faithful(s) && OrderInv(s) && Undisturbed(s) && Sequential(s, step)
    ensures Undisturbed(Next(cfg, s, step))
  {
    hide Next, Inv, Faithful, OrderInv, Sequential, Undisturbed, TakenUp, Replanned, Knows;
    var t := Next(cfg, s, step);
    if step.Begin? {
      BeginTakesUp(cfg, s, step);
      BeginKnows(cfg, s, step);
      TakenUpUndisturbed(s, t, step.w);
    } else if step.Interrupted? || step.ReconcileGet? || step.RefreezeGet? {
      RecoveryTakesUp(cfg, s, step);
      StartKnows(cfg, s, step);
      TakenUpUndisturbed(s, t, step.w);
    } else if step.PatchGet? {
      PatchTakesUp(cfg, s, step);
      StartKnows(cfg, s, step);
      TakenUpUndisturbed(s, t, step.w);
    } else if step.AddAction? || step.PatchPut? {
      ReplanStep(cfg, s, step);
      if a :| Replanned(s, t, a) {
        ReplannedUndisturbed(s, t, a);
      } else if step.PatchPut? && t == Go(s, step.w, Idle) {
        DroppedUndisturbed(s, step.w);
      }
    } else {
      OngoingUndisturbed(cfg, s, step);
    }
  }

  lemma DroppedUndisturbed(s: State, w: Id)
    requires Undisturbed(s)
    ensures Undisturbed(Go(s, w, Idle))
  {
  }

  lemma {:induction false} SequentialRunUndisturbed(cfg: Config, s: State, steps: seq<Step>)
    requires Init(cfg, s) && SequentialRun(cfg, s, steps)
    ensures var t := Exec(cfg, s, steps); Inv(cfg, t) && Faithful(t) && OrderInv(t) && Undisturbed(t)
    decreases |steps|
  {
    Steps.InitInv(cfg, s);
    if steps == [] {
      assert Faithful(s) && OrderInv(s) && Undisturbed(s);
    } else {
      var front, step := steps[..|steps| - 1], steps[|steps| - 1];
      var before := Exec(cfg, s, front);
      SequentialRunUndisturbed(cfg, s, front);
      hide Init, Inv, Faithful, OrderInv, Undisturbed, Sequential, Next, Steps.Good;
      StepOrdered(cfg, before, step);
      Steps.StepKeepsInv(cfg, before, step);
      SequentialStepUndisturbed(cfg, before, step);
    }
  }

  /** Over every sequential history from a freshly persisted plan: each change of an
      action's stored status is a hop of the state machine, an authorized retry, FAILED
      over WAITING_FOR_APPROVAL, or FAILED over VERIFYING. */
  lemma SequentialHistoriesHop(cfg: Config, s: State, steps: seq<Step>, k: nat)
    requires Init(cfg, s) && SequentialRun(cfg, s, steps) && k < |steps|
    ensures Hops(Exec(cfg, s, steps[..k]), Exec(cfg, s, steps[..k + 1]), steps[k].RetryPut?)
  {
    SequentialPrefix(cfg, s, steps, k);
    SequentialRunUndisturbed(cfg, s, steps[..k]);
    assert steps[..k + 1][..k] == steps[..k];
    hide Init, Inv, Faithful, OrderInv, Undisturbed, Hops, Next;
    StepHops(cfg, Exec(cfg, s, steps[..k]), steps[k]);
  }

  lemma {:induction false} SequentialPrefix(cfg: Config, s: State, steps: seq<Step>, k: nat)
    requires SequentialRun(cfg, s, steps) && k <= |steps|
    ensures SequentialRun(cfg, s, steps[..k])
    decreases |steps|
  {
    if k == |steps| {
      assert steps[..k] == steps;
    } else {
      SequentialPrefix(cfg, s, steps[..|steps| - 1], k);
      assert steps[..|steps| - 1][..k] == steps[..k];
    }
  }

  lemma ReadsToFail(s: State, w: Id, a: Id, failed: Action)
    requires a in s.rows && s.rows[a].action.status == Verifying && failed.status == Failed
    requires At(s, w) == UpsertRead(a, failed, 0, Tail(failed))
    ensures StepUpsertGet(s, w) == Go(s, w, UpsertWrite(a, failed, 0, Some(s.rows[a]), Tail(failed)))
  {
  }

  lemma WritesFailure(cfg: Config, s: State, w: Id, a: Id, failed: Action)
    requires a in s.rows && failed.status == Failed && failed.payload.inputs.jsonChars <= H.MAX_INPUTS_JSON_CHARS
    requires At(s, w) == UpsertWrite(a, failed, 0, Some(s.rows[a]), Tail(failed))
    ensures var t := StepUpsertPut(cfg, s, w); a in t.rows && t.rows[a].action.status == Failed
  {
  }

  /** The second shape does happen: three steps after an adapter has said that its effect
      does not verify, FAILED stands where VERIFYING stood. */
  lemma FailedVerificationIsStored(cfg: Config, s: State, w: Id, a: Id, action: Action)
    requires At(s, w) == Checking(a, action) && a in s.rows && s.rows[a].action.status == action.status == Verifying
    requires action.payload.inputs.jsonChars <= H.MAX_INPUTS_JSON_CHARS
    ensures var t := Next(cfg, Next(cfg, Next(cfg, s, Verify(w, false)), UpsertGet(w)), UpsertPut(w));
            a in t.rows && UnverifiedHop(s.rows[a].action.status, t.rows[a].action.status)
  {
    hide Next;
    var failed := action.(status := Failed);
    var read := Next(cfg, s, Verify(w, false));
    Steps.NextCall(cfg, s, Verify(w, false));
    assert StepVerify(s, w, false) == Go(s, w, UpsertRead(a, failed, 0, Tail(failed)));
    var written := Next(cfg, read, UpsertGet(w));
    Steps.NextUpsert(cfg, read, UpsertGet(w));
    Steps.NextUpsert(cfg, written, UpsertPut(w));
    hide StepVerify, StepUpsertGet, StepUpsertPut;
    ReadsToFail(read, w, a, failed);
    WritesFailure(cfg, written, w, a, failed);
  }
}
