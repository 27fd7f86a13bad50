/** The dispatch model of `Orchestrator` and the protocol machine describe the same
    executor: the track on which a dispatch that nobody disturbs takes its action's
    stored status, and that its steps keep it there. */
module ProtocolDispatch {
  import opened Domain
  import P = Permission
  import A = Approval
  import S = PlanStatuses
  import O = Orchestrator
  import opened Protocol
  import opened ProtocolSafety
  import Steps = ProtocolSteps
  import opened ProtocolTheorems
  import opened ProtocolStructure
  import opened ProtocolOrder
  import opened ProtocolHops

  /** An action as the dispatch model sees it. */
  function Seen(cfg: Config, a: Id, action: Action): S.Row {
    S.Row(a, action.status, action.payload, action.deps, action.supersededBy.Some?, action.retryCount,
          cfg.specs(a).maxRetries,
          action.approvalRequired)
  }

  /** The hops of a dispatch for which no execution key is taken. */
  function HopsOf(gated: bool, row: S.Row, env: O.Env): seq<ActionStatus> { O.Hops(_ => gated, row, env, {}) }

  /** A beginning of what the dispatch model allows from this row. */
  ghost predicate Allowed(gated: bool, row: S.Row, trail: seq<ActionStatus>) {
    exists env :: trail <= HopsOf(gated, row, env)
  }

  // ---------------------------------------------------------------- the track

  function Last(trail: seq<ActionStatus>): ActionStatus
    requires trail != []
  {
    trail[|trail| - 1]
  }

  /** The trail after one more write. */
  function Extended(trail: seq<ActionStatus>, status: ActionStatus): seq<ActionStatus> {
    if trail != [] && Last(trail) == status then trail else trail + [status]
  }

  /** The trail to an executor's gate. */
  function ToGate(status: ActionStatus): seq<ActionStatus> {
    if status == PermissionChecked then [PermissionChecked] else [WaitingForApproval, ActionStatus.Approved]
  }

  predicate AtGate(gated: bool, status: ActionStatus) {
    (status == PermissionChecked && !gated) || status == ActionStatus.Approved
  }

  /** The stages of a successful execution up to one of them. */
  function Chain(stage: ActionStatus): seq<ActionStatus> {
    match stage
    case Executing => [Executing]
    case ExecutionSucceeded => [Executing, ExecutionSucceeded]
    case Verifying => [Executing, ExecutionSucceeded, Verifying]
    case Verified => [Executing, ExecutionSucceeded, Verifying, Verified]
    case _ => [Executing, ExecutionSucceeded, Verifying, Verified, Completed]
  }

  predicate Stage(status: ActionStatus) { InProgress(status) || status == Completed }

  predicate ExecutedFrom(gated: bool, gate: ActionStatus, trail: seq<ActionStatus>, status: ActionStatus) {
    && AtGate(gated, gate)
    && (|| (Stage(status) && trail == ToGate(gate) + Chain(status))
        || (status == Failed
            && (trail == ToGate(gate) + [Executing, Failed] || trail == ToGate(gate) + Chain(Verifying) + [Failed])))
  }

  /** The executor's own chain has come to `status`. */
  predicate Executed(gated: bool, trail: seq<ActionStatus>, status: ActionStatus) {
    ExecutedFrom(gated, PermissionChecked, trail, status) || ExecutedFrom(gated, ActionStatus.Approved, trail, status)
  }

  /** Where a continuation finds the trail once its upsert has landed. */
  ghost predicate AfterTrack(gated: bool, row: S.Row, trail: seq<ActionStatus>, after: After) {
    match after
    case Toolless(stage) => !gated && Stage(stage) && trail == [PermissionChecked] + Chain(stage)
    case Execute(_, _) => trail == [WaitingForApproval, ActionStatus.Approved]
    case Claim(ctx) => AtGate(gated, ctx.action.status) && trail == ToGate(ctx.action.status)
    case Dispatch(ctx, _, _) => AtGate(gated, ctx.action.status) && trail == ToGate(ctx.action.status) + [Executing]
    case Tail(action) => Executed(gated, trail, action.status)
    case _ => Allowed(gated, row, trail)
  }

  /** Where each point of a dispatch finds the trail. */
  ghost predicate OnTrack(gated: bool, row: S.Row, trail: seq<ActionStatus>, pc: Pc) {
    match pc
    case Loaded(_, action) => trail == [row.status] && action.status == row.status
    case Expiring(_, action, _, _) => trail == [row.status] && action.status == row.status == WaitingForApproval
    case Budgeting(_, action, approval, _) => AtBudget(gated, row, trail, action, approval)
    case Costing(_, action, approval, _) => AtBudget(gated, row, trail, action, approval)
    case Entering(_, action, _, _, _) => AtGate(gated, action.status) && trail == ToGate(action.status)
    case Gating(_, action, _, _, _) => AtGate(gated, action.status) && trail == ToGate(action.status)
    case Consuming(_, ctx, _, _) => AtGate(gated, ctx.action.status) && trail == ToGate(ctx.action.status)
    case UpsertRead(_, target, _, after) => AfterTrack(gated, row, Extended(trail, target.status), after)
    case UpsertWrite(_, target, _, _, after) => AfterTrack(gated, row, Extended(trail, target.status), after)
    case UpsertReload(_, after) => AfterTrack(gated, row, trail, after)
    case Claiming(_, ctx, _) => AtGate(gated, ctx.action.status) && trail == ToGate(ctx.action.status)
    case Calling(_, ctx, _, _) => AtGate(gated, ctx.action.status) && trail == ToGate(ctx.action.status) + [Executing]
    case Checking(_, action) => action.status == Verifying && Executed(gated, trail, Verifying)
    case _ => true
  }

  predicate AtBudget(gated: bool, row: S.Row, trail: seq<ActionStatus>, action: Action,
                     approval: Option<(Id, A.Request)>) {
    && trail == [row.status] && action.status == row.status
    && row.status == (if approval.Some? then WaitingForApproval else PermissionChecked)
    && (approval.None? ==> !gated)
  }

  // --------------------------------------------------------- what is allowed

  const PLAIN: O.Env := O.Env(false, false, true, true, true, true, O.NoApproval, Transient, false)

  lemma AllowedBy(gated: bool, row: S.Row, trail: seq<ActionStatus>, env: O.Env)
    requires trail <= HopsOf(gated, row, env)
    ensures Allowed(gated, row, trail)
  {
  }

  lemma StartAllowed(gated: bool, row: S.Row)
    ensures Allowed(gated, row, [row.status])
  {
    AllowedBy(gated, row, [row.status], PLAIN);
  }

  /** The environments that bring about each way from a gate. */
  function From(row: S.Row, env: O.Env): O.Env {
    if row.status == WaitingForApproval then env.(approval := O.Granted(true)) else env
  }

  lemma ChainAllowed(gated: bool, row: S.Row, gate: ActionStatus, stage: ActionStatus)
    requires row.status == ToGate(gate)[0] && AtGate(gated, gate) && Stage(stage)
    ensures Allowed(gated, row, ToGate(gate)) && Allowed(gated, row, ToGate(gate) + Chain(stage))
  {
    AllowedBy(gated, row, ToGate(gate), From(row, PLAIN));
    AllowedBy(gated, row, ToGate(gate) + Chain(stage), From(row, PLAIN));
  }

  lemma FailuresAllowed(gated: bool, row: S.Row, gate: ActionStatus)
    requires row.status == ToGate(gate)[0] && AtGate(gated, gate)
    ensures Allowed(gated, row, ToGate(gate) + [Executing, Failed])
    ensures Allowed(gated, row, ToGate(gate) + Chain(Verifying) + [Failed])
    ensures Allowed(gated, row, ToGate(gate) + [FailTarget(gate)])
  {
    AllowedBy(gated, row, ToGate(gate) + [Executing, Failed], From(row, PLAIN.(executed := false)));
    AllowedBy(gated, row, ToGate(gate) + Chain(Verifying) + [Failed], From(row, PLAIN.(verified := false)));
    AllowedBy(gated, row, ToGate(gate) + [FailTarget(gate)], From(row, PLAIN.(gates := false)));
  }

  lemma TrackIsAllowed(gated: bool, row: S.Row, trail: seq<ActionStatus>, after: After)
    requires trail != [] && trail[0] == row.status && AfterTrack(gated, row, trail, after)
    ensures Allowed(gated, row, trail)
  {
    hide Allowed;
    match after
    case Toolless(stage) => AllowedBy(gated, row, trail, PLAIN.(toolless := true));
    case Execute(_, _) => ChainAllowed(gated, row, ActionStatus.Approved, Executing);
    case Claim(ctx) => ChainAllowed(gated, row, ctx.action.status, Executing);
    case Dispatch(ctx, _, _) => ChainAllowed(gated, row, ctx.action.status, Executing);
    case Tail(action) =>
      var gate := if ExecutedFrom(gated, PermissionChecked, trail, action.status) then PermissionChecked
          else ActionStatus.Approved;
      if Stage(action.status) {
        ChainAllowed(gated, row, gate, action.status);
      } else {
        FailuresAllowed(gated, row, gate);
      }
    case _ =>
  }

  // ------------------------------------------------- steps that write no row

  lemma CheckedAllowed(gated: bool, row: S.Row)
    ensures row.status == Validated ==>
              Allowed(gated, row, [Validated, PermissionChecked]) && Allowed(gated, row, [Validated, Blocked])
    ensures row.status == PermissionChecked && gated ==> Allowed(gated, row, [PermissionChecked, WaitingForApproval])
  {
    if row.status == Validated {
      AllowedBy(gated, row, [Validated, PermissionChecked], PLAIN);
      AllowedBy(gated, row, [Validated, Blocked], PLAIN.(block := true));
    } else if row.status == PermissionChecked && gated {
      AllowedBy(gated, row, [PermissionChecked, WaitingForApproval], PLAIN);
    }
  }

  lemma PermissionTrack(cfg: Config, s: State, w: Id, gated: bool, row: S.Row, trail: seq<ActionStatus>)
    requires OnTrack(gated, row, trail, At(s, w))
    ensures OnTrack(gated, row, trail, At(StepLoaded(cfg, s, w, CheckPermission(w)), w))
  {
    hide Allowed, DecisionFor;
    CheckedAllowed(gated, row);
    assert Extended([Validated], PermissionChecked) == [Validated, PermissionChecked];
    assert Extended([Validated], Blocked) == [Validated, Blocked];
  }

  /** Asking for an approval, or waiting for it, is for gated actions. */
  lemma WaitTrack(cfg: Config, s: State, step: Step, w: Id, gated: bool, row: S.Row, trail: seq<ActionStatus>)
    requires (step.Ask? || step.Wait?) && OnTrack(gated, row, trail, At(s, w))
    requires At(s, w).Loaded? ==> (DecisionFor(cfg, At(s, w).action).outcome == P.RequireApproval <==> gated)
    ensures OnTrack(gated, row, trail, At(StepLoaded(cfg, s, w, step), w))
  {
    hide Allowed, DecisionFor, A.Create, SubjectOf;
    CheckedAllowed(gated, row);
    assert Extended([PermissionChecked], WaitingForApproval) == [PermissionChecked, WaitingForApproval];
  }

  lemma LoadedVerdict(cfg: Config, s: State, w: Id)
    requires PcInv(cfg, s, w, At(s, w)) && At(s, w).Loaded?
    ensures DecisionFor(cfg, At(s, w).action).outcome == P.RequireApproval <==> NeedsApproval(cfg, At(s, w).a)
  {
    DecisionIsVerdict(cfg, At(s, w).a, At(s, w).action);
    hide DecisionFor, Verdict;
  }

  lemma CheckTrack(cfg: Config, s: State, step: Step, row: S.Row, trail: seq<ActionStatus>)
    requires step.CheckPermission? || step.Ask? || step.Wait?
    requires PcInv(cfg, s, step.w, At(s, step.w)) && Working(At(s, step.w))
    requires OnTrack(NeedsApproval(cfg, At(s, step.w).a), row, trail, At(s, step.w))
    ensures OnTrack(NeedsApproval(cfg, At(s, step.w).a), row, trail, At(StepLoaded(cfg, s, step.w, step), step.w))
  {
    hide OnTrack, PcInv, NeedsApproval, DecisionFor, StepLoaded;
    var gated := NeedsApproval(cfg, At(s, step.w).a);
    if step.CheckPermission? {
      PermissionTrack(cfg, s, step.w, gated, row, trail);
    } else {
      if At(s, step.w).Loaded? { LoadedVerdict(cfg, s, step.w); }
      WaitTrack(cfg, s, step, step.w, gated, row, trail);
    }
  }

  lemma GoTrack(cfg: Config, s: State, step: Step, row: S.Row, trail: seq<ActionStatus>)
    requires step.StartToolless? || step.PassBudgetGate?
    requires PcInv(cfg, s, step.w, At(s, step.w)) && Working(At(s, step.w))
    requires OnTrack(NeedsApproval(cfg, At(s, step.w).a), row, trail, At(s, step.w))
    ensures OnTrack(NeedsApproval(cfg, At(s, step.w).a), row, trail, At(StepLoaded(cfg, s, step.w, step), step.w))
  {
    hide PcInv, NeedsApproval, DecisionFor, Allowed, AttemptsRequest, Submitted;
    if At(s, step.w).Loaded? { LoadedVerdict(cfg, s, step.w); }
  }

  lemma RefusalTrack(gated: bool, row: S.Row, a: Id, action: Action, request: A.Request)
    requires action.status == row.status == WaitingForApproval
    ensures var final := A.Finalize(SubjectOf(a, action), request);
            final.Ok? ==> Allowed(gated, row, Extended([row.status], final.value))
  {
    AllowedBy(gated, row, [WaitingForApproval, ActionStatus.Rejected],
              PLAIN.(approval := O.Refused(ActionStatus.Rejected)));
    AllowedBy(gated, row, [WaitingForApproval, ActionStatus.Cancelled],
              PLAIN.(approval := O.Refused(ActionStatus.Cancelled)));
    hide Allowed;
  }

  lemma LookTrack(cfg: Config, s: State, step: Step, gated: bool, row: S.Row, trail: seq<ActionStatus>)
    requires step.LookAtApproval? && OnTrack(gated, row, trail, At(s, step.w))
    ensures OnTrack(gated, row, trail, At(StepLoaded(cfg, s, step.w, step), step.w))
  {
    hide DecisionFor, SubjectOf, A.Finalize, A.Expire, Allowed, Extended, AttemptsRequest, Submitted;
    var pc := At(s, step.w);
    if pc.Loaded? && pc.action.status == WaitingForApproval && pc.action.approvalId.Some?
       && pc.action.approvalId.value in s.approvals {
      RefusalTrack(gated, row, pc.a, pc.action, s.approvals[pc.action.approvalId.value]);
    }
  }

  lemma ExpiryTrack(s: State, w: Id, gated: bool, row: S.Row, trail: seq<ActionStatus>)
    requires OnTrack(gated, row, trail, At(s, w))
    ensures OnTrack(gated, row, trail, At(StepExpiry(s, w), w))
  {
    var pc := At(s, w);
    if pc.Expiring? { RefusalTrack(gated, row, pc.a, pc.action, pc.expired); }
    hide SubjectOf, A.Finalize, Allowed, Extended;
  }

  lemma DenialTrack(gated: bool, row: S.Row)
    requires row.status == WaitingForApproval || (row.status == PermissionChecked && !gated)
    ensures Allowed(gated, row, Extended([row.status], Failed))
  {
    AllowedBy(gated, row, [row.status, Failed], From(row, PLAIN.(budget := false)));
  }

  lemma ProceedTrack(s: State, w: Id, pc: Pc, now: int, gated: bool, row: S.Row, trail: seq<ActionStatus>)
    requires (pc.Budgeting? || pc.Costing?) && OnTrack(gated, row, trail, pc)
    ensures OnTrack(gated, row, trail, At(Proceed(s, w, pc.a, pc.action, pc.approval, now), w))
  {
    hide SubjectOf, A.Authorize, Allowed;
    if pc.approval.Some? { A.AuthorizeIff(SubjectOf(pc.a, pc.action), pc.approval.value.1, now); }
  }

  lemma SettleTrack(cfg: Config, s: State, w: Id, now: int, gated: bool, row: S.Row, trail: seq<ActionStatus>)
    requires OnTrack(gated, row, trail, At(s, w))
    ensures OnTrack(gated, row, trail, At(StepSettle(cfg, s, w, now), w))
  {
    hide Proceed, Allowed, CostOf, CostRequest, Submitted, Extended;
    var pc := At(s, w);
    if pc.Budgeting? || pc.Costing? {
      DenialTrack(gated, row);
      ProceedTrack(s, w, pc, now, gated, row, trail);
    }
  }

  lemma FailTrack(gated: bool, row: S.Row, trail: seq<ActionStatus>, a: Id, action: Action)
    requires AtGate(gated, action.status) && trail == ToGate(action.status) && trail[0] == row.status
    ensures OnTrack(gated, row, trail, FailDurable(a, action))
  {
    FailuresAllowed(gated, row, action.status);
    hide Allowed;
  }

  lemma EnterTrack(s: State, w: Id, gated: bool, row: S.Row, trail: seq<ActionStatus>)
    requires OnTrack(gated, row, trail, At(s, w))
    ensures OnTrack(gated, row, trail, At(StepEnter(s, w), w))
  {
    hide Allowed;
  }

  lemma GateTrack(cfg: Config, s: State, w: Id, now: int, gated: bool, row: S.Row, trail: seq<ActionStatus>)
    requires trail != [] && trail[0] == row.status && OnTrack(gated, row, trail, At(s, w))
    ensures OnTrack(gated, row, trail, At(StepGate(cfg, s, w, now), w))
  {
    hide FailDurable, DecisionFor, SubjectOf, A.Valid, Allowed;
    var pc := At(s, w);
    if pc.Gating? { FailTrack(gated, row, trail, pc.a, pc.action); }
  }

  lemma ConsumeTrack(s: State, w: Id, now: int, gated: bool, row: S.Row, trail: seq<ActionStatus>)
    requires trail != [] && trail[0] == row.status && OnTrack(gated, row, trail, At(s, w))
    ensures OnTrack(gated, row, trail, At(StepConsume(s, w, now), w))
  {
    hide FailDurable, A.Consumable, Allowed;
    var pc := At(s, w);
    if pc.Consuming? { FailTrack(gated, row, trail, pc.a, pc.ctx.action); }
  }

  lemma ClaimTrack(cfg: Config, s: State, w: Id, gated: bool, row: S.Row, trail: seq<ActionStatus>)
    requires trail != [] && trail[0] == row.status && OnTrack(gated, row, trail, At(s, w))
    ensures OnTrack(gated, row, trail, At(StepClaim(cfg, s, w), w))
  {
    hide FailDurable, P.Resolve, Claimed, Allowed;
    var pc := At(s, w);
    if pc.Claiming? { FailTrack(gated, row, trail, pc.a, pc.ctx.action); }
  }

  lemma CalledIsExecuted(gated: bool, gate: ActionStatus)
    requires AtGate(gated, gate)
    ensures Executed(gated, Extended(ToGate(gate) + [Executing], ExecutionSucceeded), ExecutionSucceeded)
    ensures Executed(gated, Extended(ToGate(gate) + [Executing], Failed), Failed)
  {
    assert Extended(ToGate(gate) + [Executing], ExecutionSucceeded) == ToGate(gate) + Chain(ExecutionSucceeded);
    assert Extended(ToGate(gate) + [Executing], Failed) == ToGate(gate) + [Executing, Failed];
  }

  lemma ChainGrows(gated: bool, gate: ActionStatus, trail: seq<ActionStatus>, stage: ActionStatus, next: ActionStatus)
    requires ExecutedFrom(gated, gate, trail, stage)
    requires (stage == ExecutionSucceeded && next == Verifying) || (stage == Verifying && next == Verified)
             || (stage == Verifying && next == Failed) || (stage == Verified && next == Completed)
    ensures ExecutedFrom(gated, gate, Extended(trail, next), next)
  {
    assert trail == ToGate(gate) + Chain(stage) && Last(trail) == stage;
    if next == Failed {
      assert trail + [next] == ToGate(gate) + Chain(Verifying) + [Failed];
    } else {
      assert Chain(next) == Chain(stage) + [next];
      assert trail + [next] == ToGate(gate) + Chain(next);
    }
  }

  lemma CheckedIsExecuted(gated: bool, trail: seq<ActionStatus>, stage: ActionStatus, next: ActionStatus)
    requires Executed(gated, trail, stage)
    requires (stage == ExecutionSucceeded && next == Verifying) || (stage == Verifying && next == Verified)
             || (stage == Verifying && next == Failed) || (stage == Verified && next == Completed)
    ensures Executed(gated, Extended(trail, next), next)
  {
    hide ExecutedFrom, Extended;
    var gate := if ExecutedFrom(gated, PermissionChecked, trail, stage) then PermissionChecked
        else ActionStatus.Approved;
    ChainGrows(gated, gate, trail, stage, next);
  }

  lemma CallTrack(s: State, w: Id, flag: bool, gated: bool, row: S.Row, trail: seq<ActionStatus>)
    requires OnTrack(gated, row, trail, At(s, w))
    ensures OnTrack(gated, row, trail, At(StepCall(s, w, flag), w))
    ensures OnTrack(gated, row, trail, At(StepVerify(s, w, flag), w))
  {
    hide Executed, Allowed, Extended;
    var pc := At(s, w);
    if pc.Calling? {
      CalledIsExecuted(gated, pc.ctx.action.status);
    } else if pc.Checking? {
      CheckedIsExecuted(gated, trail, Verifying, Verified);
      CheckedIsExecuted(gated, trail, Verifying, Failed);
    }
  }

  lemma AdvanceTrack(cfg: Config, s: State, step: Step, row: S.Row, trail: seq<ActionStatus>)
    requires Advances(step) && PcInv(cfg, s, step.w, At(s, step.w)) && Working(At(s, step.w))
    requires OnTrack(NeedsApproval(cfg, At(s, step.w).a), row, trail, At(s, step.w))
    ensures OnTrack(NeedsApproval(cfg, At(s, step.w).a), row, trail, At(Next(cfg, s, step), step.w))
  {
    hide Next, PcInv, OnTrack, NeedsApproval, StepLoaded;
    Steps.NextLoaded(cfg, s, step);
    if step.LookAtApproval? {
      LookTrack(cfg, s, step, NeedsApproval(cfg, At(s, step.w).a), row, trail);
    } else if step.StartToolless? || step.PassBudgetGate? {
      GoTrack(cfg, s, step, row, trail);
    } else {
      CheckTrack(cfg, s, step, row, trail);
    }
  }

  lemma GatesTrack(cfg: Config, s: State, step: Step, gated: bool, row: S.Row, trail: seq<ActionStatus>)
    requires Gates(step) || Executes(step)
    requires trail != [] && trail[0] == row.status && OnTrack(gated, row, trail, At(s, step.w))
    ensures OnTrack(gated, row, trail, At(Next(cfg, s, step), step.w))
  {
    hide Next, OnTrack, StepExpiry, StepSettle, StepEnter, StepGate, StepConsume, StepClaim, StepCall, StepVerify;
    if step.CallAdapter? || step.Verify? {
      Steps.NextCall(cfg, s, step);
      CallTrack(s, step.w, if step.CallAdapter? then step.success else step.passed, gated, row, trail);
    } else {
      Steps.NextGate(cfg, s, step);
      match step
      case SyncExpiry(w) => ExpiryTrack(s, w, gated, row, trail);
      case Settle(w, now) => SettleTrack(cfg, s, w, now, gated, row, trail);
      case Enter(w) => EnterTrack(s, w, gated, row, trail);
      case Gate(w, now) => GateTrack(cfg, s, w, now, gated, row, trail);
      case Consume(w, now) => ConsumeTrack(s, w, now, gated, row, trail);
      case ClaimAttempt(w) => ClaimTrack(cfg, s, w, gated, row, trail);
    }
  }

  /** A step that writes no row keeps its worker on the track. */
  lemma QuietStepTrack(cfg: Config, s: State, step: Step, row: S.Row, trail: seq<ActionStatus>)
    requires Inv(cfg, s) && (Advances(step) || Gates(step) || Executes(step)) && Working(At(s, step.w))
    requires trail != [] && trail[0] == row.status
    requires OnTrack(NeedsApproval(cfg, At(s, step.w).a), row, trail, At(s, step.w))
    ensures OnTrack(NeedsApproval(cfg, At(s, step.w).a), row, trail, At(Next(cfg, s, step), step.w))
  {
    hide Next, Inv, PcInv, OnTrack, NeedsApproval;
    if Advances(step) {
      Steps.AtInv(cfg, s, step.w);
      AdvanceTrack(cfg, s, step, row, trail);
    } else {
      GatesTrack(cfg, s, step, NeedsApproval(cfg, At(s, step.w).a), row, trail);
    }
  }

  // ------------------------------------------------------------------ upserts

  lemma ToollessGrows(trail: seq<ActionStatus>, stage: ActionStatus)
    requires Stage(stage) && stage != Completed && trail == [PermissionChecked] + Chain(stage)
    ensures Extended(trail, ToollessSuccessor(stage)) == [PermissionChecked] + Chain(ToollessSuccessor(stage))
    ensures Stage(ToollessSuccessor(stage))
  {
    assert Last(trail) == stage;
    assert Chain(ToollessSuccessor(stage)) == Chain(stage) + [ToollessSuccessor(stage)];
  }

  lemma TailTrack(gated: bool, row: S.Row, trail: seq<ActionStatus>, a: Id, action: Action)
    requires Executed(gated, trail, action.status)
    ensures OnTrack(gated, row, trail, TailNext(a, action))
  {
    match action.status
    case ExecutionSucceeded => CheckedIsExecuted(gated, trail, ExecutionSucceeded, Verifying);
    case Verified => CheckedIsExecuted(gated, trail, Verified, Completed);
    case _ =>
    hide Executed, Extended, Allowed;
  }

  lemma ResumeTrack(gated: bool, row: S.Row, trail: seq<ActionStatus>, a: Id, after: After, stored: Row)
    requires trail != [] && Last(trail) == stored.action.status && AfterTrack(gated, row, trail, after)
    ensures OnTrack(gated, row, trail, Resume(a, after, stored))
  {
    hide Allowed, HashOf, TailNext, Executed;
    match after
    case Toolless(stage) => if stage != Completed { ToollessGrows(trail, stage); }
    case Tail(action) => TailTrack(gated, row, trail, a, action);
    case _ =>
  }

  lemma UpsertReadTrack(s: State, w: Id, gated: bool, row: S.Row, trail: seq<ActionStatus>)
    requires Working(At(s, w)) && At(s, w).a in s.rows && PcHop(s.rows[At(s, w).a].action.status, At(s, w))
    requires trail != [] && Last(trail) == s.rows[At(s, w).a].action.status && OnTrack(gated, row, trail, At(s, w))
    ensures OnTrack(gated, row, trail, At(StepUpsertGet(s, w), w))
    ensures OnTrack(gated, row, trail, At(StepUpsertGot(s, w), w))
  {
    var pc := At(s, w);
    if pc.UpsertReload? { ResumeTrack(gated, row, trail, pc.a, pc.after, s.rows[pc.a]); }
    hide Resume, AfterTrack, CanTransition;
  }

  /** The write of an upsert takes the trail one status further, as the track says. */
  lemma UpsertPutTrack(cfg: Config, s: State, w: Id, gated: bool, row: S.Row, trail: seq<ActionStatus>)
    requires Working(At(s, w)) && At(s, w).a in s.rows
    requires trail != [] && trail[0] == row.status && Last(trail) == s.rows[At(s, w).a].action.status
    requires OnTrack(gated, row, trail, At(s, w)) && Allowed(gated, row, trail)
    ensures var a, t := At(s, w).a, StepUpsertPut(cfg, s, w);
            && a in t.rows
            && var longer := Extended(trail, t.rows[a].action.status);
               OnTrack(gated, row, longer, At(t, w)) && Allowed(gated, row, longer)
  {
    hide Resume, AfterTrack, Allowed;
    var pc := At(s, w);
    if pc.UpsertWrite? {
      TrackIsAllowed(gated, row, Extended(trail, pc.target.status), pc.after);
    }
  }

  // ------------------------------------------------------------------- theorem

  /** The steps a dispatch is made of, and what may go on beside it: ledger callers,
      human decisions and crashes. */
  predicate DispatchStep(step: Step) {
    || Advances(step) || Gates(step) || Executes(step) || Upserts(step)
    || step.LedgerStep? || step.DecideGet? || step.DecidePut? || step.Crash?
  }

  /** The statuses an action's row goes through, each once. */
  function Trail(cfg: Config, s: State, steps: seq<Step>, a: Id): seq<ActionStatus>
    decreases |steps|
  {
    var t := Exec(cfg, s, steps);
    if a !in t.rows then []
    else if steps == [] then [t.rows[a].action.status]
    else Extended(Trail(cfg, s, steps[..|steps| - 1], a), t.rows[a].action.status)
  }

  /** Worker `w`'s dispatch of `a` is where the trail says, and nobody else is busy. */
  ghost predicate Tracks(cfg: Config, s: State, w: Id, a: Id, row: S.Row, trail: seq<ActionStatus>) {
    && a in s.rows && trail != [] && trail[0] == row.status && Last(trail) == s.rows[a].action.status
    && Allowed(NeedsApproval(cfg, a), row, trail)
    && (Working(At(s, w)) ==> At(s, w).a == a && OnTrack(NeedsApproval(cfg, a), row, trail, At(s, w)))
    && (forall v | v != w :: !Busy(At(s, v)))
  }

  /** The row's new status takes the trail one further, and the worker is on it. */
  ghost predicate Advanced(cfg: Config, t: State, w: Id, a: Id, row: S.Row, trail: seq<ActionStatus>) {
    && a in t.rows
    && var longer := Extended(trail, t.rows[a].action.status);
       && Allowed(NeedsApproval(cfg, a), row, longer)
       && (Working(At(t, w)) ==> OnTrack(NeedsApproval(cfg, a), row, longer, At(t, w)))
  }

  lemma AdvancedTracks(cfg: Config, s: State, t: State, w: Id, a: Id, row: S.Row, trail: seq<ActionStatus>)
    requires Tracks(cfg, s, w, a, row, trail) && Working(At(s, w)) && Advanced(cfg, t, w, a, row, trail)
    requires OneMoved(s, t, w)
    ensures a in t.rows
    ensures Tracks(cfg, t, w, a, row, Extended(trail, t.rows[a].action.status))
  {
    hide OnTrack, Allowed, NeedsApproval;
    OthersStayQuiet(s, t, w, w);
    SameAction(s, t, w);
    hide OneMoved;
  }

  lemma OwnTracks(cfg: Config, s: State, step: Step, a: Id, row: S.Row, trail: seq<ActionStatus>)
    requires Inv(cfg, s) && (Advances(step) || Gates(step) || Executes(step))
    requires Tracks(cfg, s, step.w, a, row, trail) && Working(At(s, step.w))
    ensures Advanced(cfg, Next(cfg, s, step), step.w, a, row, trail)
  {
    hide Next, Inv, OnTrack, Allowed, NeedsApproval;
    RowsUntouched(cfg, s, step);
    QuietStepTrack(cfg, s, step, row, trail);
    assert Extended(trail, Next(cfg, s, step).rows[a].action.status) == trail;
  }

  lemma UpsertTracks(cfg: Config, s: State, step: Step, a: Id, row: S.Row, trail: seq<ActionStatus>)
    requires Faithful(s) && Undisturbed(s) && Upserts(step)
    requires Tracks(cfg, s, step.w, a, row, trail) && Working(At(s, step.w))
    ensures Advanced(cfg, Next(cfg, s, step), step.w, a, row, trail)
  {
    hide Next, PcHop, OnTrack, Allowed, NeedsApproval, StepUpsertGet, StepUpsertPut, StepUpsertGot;
    var w, gated := step.w, NeedsApproval(cfg, a);
    assert PcFaithful(s.rows, At(s, w)) && Knows(s, w);
    hide Faithful, Undisturbed;
    Steps.NextUpsert(cfg, s, step);
    if step.UpsertPut? {
      UpsertPutTrack(cfg, s, w, gated, row, trail);
    } else {
      UpsertReadTrack(s, w, gated, row, trail);
      UpsertGetFaithful(s, w);
      UpsertGotFaithful(s, w);
      assert Extended(trail, Next(cfg, s, step).rows[a].action.status) == trail;
    }
  }

  /** Nothing happened to the dispatch. */
  lemma StaysOnTrack(cfg: Config, s: State, t: State, w: Id, a: Id, row: S.Row, trail: seq<ActionStatus>)
    requires Tracks(cfg, s, w, a, row, trail) && t.rows == s.rows && forall v | v != w :: !Busy(At(t, v))
    requires Working(At(t, w)) ==> At(t, w) == At(s, w)
    ensures Extended(trail, t.rows[a].action.status) == trail && Tracks(cfg, t, w, a, row, trail)
  {
    hide OnTrack, Allowed, NeedsApproval;
  }

  lemma OthersStayQuiet(s: State, t: State, actor: Id, w: Id)
    requires OneMoved(s, t, actor) && forall v | v != w :: !Busy(At(s, v))
    ensures forall v | v != w :: !Busy(At(t, v))
  {
    forall v | v != w ensures !Busy(At(t, v)) { assert !Busy(At(s, v)); }
  }

  lemma StrangerLeaves(s: State, t: State, actor: Id, w: Id)
    requires OneMoved(s, t, actor) && actor != w && forall v | v != w :: !Busy(At(s, v))
    ensures t.rows == s.rows && At(t, w) == At(s, w)
  {
  }

  lemma IdlerLeaves(cfg: Config, s: State, step: Step, w: Id)
    requires DispatchStep(step) && Steps.Actor(step) == w && !Working(At(s, w))
    requires OneMoved(s, Next(cfg, s, step), w)
    ensures Next(cfg, s, step).rows == s.rows && !Working(At(Next(cfg, s, step), w))
  {
    hide Next;
    if step.UpsertPut? {
      NoPut(cfg, s, w);
      Steps.NextUpsert(cfg, s, step);
    } else {
      RowsUntouched(cfg, s, step);
    }
  }

  lemma OthersAreQuiet(cfg: Config, s: State, w: Id, a: Id, row: S.Row, trail: seq<ActionStatus>)
    requires Tracks(cfg, s, w, a, row, trail)
    ensures a in s.rows && forall v | v != w :: !Busy(At(s, v))
  {
  }

  /** A step that is not one of the dispatch's own. */
  lemma OutsideTracks(cfg: Config, s: State, step: Step, w: Id, a: Id, row: S.Row, trail: seq<ActionStatus>)
    requires Inv(cfg, s) && Faithful(s) && DispatchStep(step) && Tracks(cfg, s, w, a, row, trail)
    requires Steps.Actor(step) != w || !Working(At(s, w)) || step.LedgerStep? || step.DecideGet? || step.DecidePut?
              || step.Crash?
    ensures a in Next(cfg, s, step).rows
    ensures Tracks(cfg, Next(cfg, s, step), w, a, row, Extended(trail, Next(cfg, s, step).rows[a].action.status))
  {
    hide Next, Inv, Faithful, OneMoved, Tracks;
    var t, actor := Next(cfg, s, step), Steps.Actor(step);
    StepIsOneMove(cfg, s, step);
    OthersAreQuiet(cfg, s, w, a, row, trail);
    OthersStayQuiet(s, t, actor, w);
    if actor != w {
      StrangerLeaves(s, t, actor, w);
    } else if !Working(At(s, w)) {
      IdlerLeaves(cfg, s, step, w);
    } else {
      RowsUntouched(cfg, s, step);
      IdleOrSame(cfg, s, step);
    }
    StaysOnTrack(cfg, s, t, w, a, row, trail);
  }

  lemma NoPut(cfg: Config, s: State, w: Id)
    requires !Working(At(s, w))
    ensures StepUpsertPut(cfg, s, w) == s
  {
  }

  lemma QuietTracks(cfg: Config, s: State, step: Step, a: Id, row: S.Row, trail: seq<ActionStatus>)
    requires Inv(cfg, s) && (Advances(step) || Gates(step) || Executes(step))
    requires Tracks(cfg, s, step.w, a, row, trail) && Working(At(s, step.w))
    requires OneMoved(s, Next(cfg, s, step), step.w)
    ensures a in Next(cfg, s, step).rows
    ensures Tracks(cfg, Next(cfg, s, step), step.w, a, row, Extended(trail, Next(cfg, s, step).rows[a].action.status))
  {
    hide Next, Inv, OneMoved, Tracks;
    OwnTracks(cfg, s, step, a, row, trail);
    AdvancedTracks(cfg, s, Next(cfg, s, step), step.w, a, row, trail);
  }

  lemma OwnStepTracks(cfg: Config, s: State, step: Step, a: Id, row: S.Row, trail: seq<ActionStatus>)
    requires Inv(cfg, s) && Faithful(s) && Undisturbed(s)
    requires Advances(step) || Gates(step) || Executes(step) || Upserts(step)
    requires Tracks(cfg, s, step.w, a, row, trail) && Working(At(s, step.w))
    ensures a in Next(cfg, s, step).rows
    ensures Tracks(cfg, Next(cfg, s, step), step.w, a, row, Extended(trail, Next(cfg, s, step).rows[a].action.status))
  {
    hide Next, Inv, Faithful, Undisturbed, OneMoved, Tracks, Advanced, Extended;
    StepIsOneMove(cfg, s, step);
    if Upserts(step) {
      UpsertTracks(cfg, s, step, a, row, trail);
      AdvancedTracks(cfg, s, Next(cfg, s, step), step.w, a, row, trail);
    } else {
      QuietTracks(cfg, s, step, a, row, trail);
    }
  }

  /** Whose step it is, one way or the other the dispatch stays on its track. */
  lemma StepTracks(cfg: Config, s: State, step: Step, w: Id, a: Id, row: S.Row, trail: seq<ActionStatus>)
    requires Inv(cfg, s) && Faithful(s) && Undisturbed(s) && DispatchStep(step)
    requires Tracks(cfg, s, w, a, row, trail)
    ensures a in Next(cfg, s, step).rows
    ensures Tracks(cfg, Next(cfg, s, step), w, a, row, Extended(trail, Next(cfg, s, step).rows[a].action.status))
  {
    hide Next, Inv, Faithful, Undisturbed, Tracks;
    if Steps.Actor(step) != w || !Working(At(s, w)) || step.LedgerStep? || step.DecideGet? || step.DecidePut?
        || step.Crash? {
      OutsideTracks(cfg, s, step, w, a, row, trail);
    } else {
      OwnStepTracks(cfg, s, step, a, row, trail);
    }
  }

  lemma SameAction(s: State, t: State, w: Id)
    requires OneMoved(s, t, w) && Working(At(s, w))
    ensures Working(At(t, w)) ==> At(t, w).a == At(s, w).a
  {
  }

  /** A dispatch that begins. */
  lemma BeginTracks(cfg: Config, s: State, w: Id, a: Id)
    requires Sequential(s, Begin(w, a)) && At(s, w).Idle? && !s.rows[a].action.depsCut
    ensures Tracks(cfg, Next(cfg, s, Begin(w, a)), w, a, Seen(cfg, a, s.rows[a].action), [s.rows[a].action.status])
  {
    StartAllowed(NeedsApproval(cfg, a), Seen(cfg, a, s.rows[a].action));
    hide Allowed, Next;
    Steps.NextBegin(cfg, s, Begin(w, a));
    var t := Next(cfg, s, Begin(w, a));
    forall v | v != w ensures !Busy(At(t, v)) { assert At(t, v) == At(s, v); }
  }

  lemma {:induction false} RunTracks(cfg: Config, s: State, steps: seq<Step>, w: Id, a: Id, row: S.Row)
    requires Inv(cfg, s) && Faithful(s) && OrderInv(s) && Undisturbed(s) && a in s.rows
    requires Tracks(cfg, s, w, a, row, [s.rows[a].action.status]) && forall i | 0 <= i < |steps| ::
              DispatchStep(steps[i])
    ensures var t := Exec(cfg, s, steps);
            Inv(cfg, t) && Faithful(t) && OrderInv(t) && Undisturbed(t)
                && Tracks(cfg, t, w, a, row, Trail(cfg, s, steps, a))
    decreases |steps|
  {
    if steps != [] {
      var front, step := steps[..|steps| - 1], steps[|steps| - 1];
      var before := Exec(cfg, s, front);
      RunTracks(cfg, s, front, w, a, row);
      hide Inv, Faithful, OrderInv, Undisturbed, Next, Steps.Good;
      DispatchIsSequential(before, step);
      StepOrdered(cfg, before, step);
      Steps.StepKeepsInv(cfg, before, step);
      SequentialStepUndisturbed(cfg, before, step);
      hide Tracks;
      StepTracks(cfg, before, step, w, a, row, Trail(cfg, s, front, a));
    }
  }

  lemma DispatchIsSequential(s: State, step: Step)
    requires DispatchStep(step)
    ensures Sequential(s, step)
  {
  }

  lemma BegunSound(cfg: Config, t: State, w: Id, a: Id)
    requires Inv(cfg, t) && Faithful(t) && OrderInv(t) && Undisturbed(t) && Sequential(t, Begin(w, a))
    ensures var begun := Next(cfg, t, Begin(w, a));
            Inv(cfg, begun) && Faithful(begun) && OrderInv(begun) && Undisturbed(begun)
  {
    hide Inv, Faithful, OrderInv, Undisturbed, Next, Sequential, Steps.Good;
    StepOrdered(cfg, t, Begin(w, a));
    Steps.StepKeepsInv(cfg, t, Begin(w, a));
    SequentialStepUndisturbed(cfg, t, Begin(w, a));
  }
}
