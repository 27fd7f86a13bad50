/** What a dispatch stores, in terms of what it hears on its way: the approval it finds, the
    budget's and the gates' answers, and the adapter's two verdicts. Cut off anywhere, its
    writes are a beginning of the hops the dispatch model says for just that; run to its
    end, they are all of them. */
module ProtocolReturns {
  import opened Domain
  import P = Permission
  import A = Approval
  import L = Ledger
  import H = PlanHash
  import S = PlanStatuses
  import O = Orchestrator
  import opened Protocol
  import opened ProtocolSafety
  import Steps = ProtocolSteps
  import opened ProtocolTheorems
  import opened ProtocolStructure
  import opened ProtocolOrder
  import opened ProtocolHops
  import opened ProtocolDispatch

  /** What a dispatch began with: whether the authoritative verdict asks for an approval or
      blocks the action, whether its type needs no tool, its row, and the execution keys
      taken. */
  datatype View = View(gated: bool, block: bool, toolless: bool, row: S.Row, claimed: set<O.Key>)

  /** What a dispatch has heard so far: the approval it found, whether its budget was
      denied or a gate refused it, and the adapter's verdicts. */
  datatype Told = Told(
    approval: Option<O.ApprovalView>, denied: bool, refused: bool, executed: Option<bool>, verified: Option<bool>)

  const NOTHING: Told := Told(None, false, false, None, None)

  /** What a look at a waiting action's approval shows. A request for another action is no
      answer. */
  function Viewed(a: Id, action: Action, approvals: map<Id, A.Request>, now: int): O.ApprovalView {
    if action.approvalId.None? || action.approvalId.value !in approvals then O.NoApproval
    else
      var request := approvals[action.approvalId.value];
      match request.status
      case Approved => O.Granted(true)
      case Pending =>
        if request.expiresAt.Some? && request.expiresAt.value <= now && request.actionId == a
        then O.Refused(ActionStatus.Cancelled) else O.Pending
      case Rejected => if request.actionId == a then O.Refused(ActionStatus.Rejected) else O.Pending
      case _ => if request.actionId == a then O.Refused(ActionStatus.Cancelled) else O.Pending
  }

  /** The adapter an action names can be found. */
  predicate Equipped(cfg: Config, payload: H.Payload) {
    && payload.toolName.Some? && payload.toolName.value in cfg.adapters
    && P.Resolve(cfg.registry, payload.toolName.value, payload.actionType).Resolved?
  }

  /** The budget says no. */
  predicate Refuses(outcome: L.Outcome) { outcome.Denied? || (outcome.Replayed? && !outcome.applied) }

  /** What worker `w` hears in a step of its own. */
  function Heard(cfg: Config, s: State, step: Step, w: Id, told: Told): Told {
    var pc := At(s, w);
    match step
    case LookAtApproval(u, now) =>
      if u == w && pc.Loaded? && pc.action.status == WaitingForApproval
      then told.(approval := Some(Viewed(pc.a, pc.action, s.approvals, now))) else told
    case Settle(u, now) =>
      if u != w || !(pc.Budgeting? || pc.Costing?) || pc.ticket >= |s.ledger.calls|
         || !s.ledger.calls[pc.ticket].phase.Done? then told
      else if Refuses(s.ledger.calls[pc.ticket].phase.outcome) then told.(denied := true)
      else if (pc.Costing? || CostOf(cfg, pc.a) == 0.0) && pc.approval.Some?
              && !A.Consumable(pc.approval.value.1, pc.a, HashOf(pc.action), now)
      then told.(approval := Some(O.Granted(false))) else told
    case Gate(u, now) =>
      if u == w && pc.Gating? && !Steps.PassesByApproval(cfg, s, w, now) && !Steps.PassesUngated(cfg, s, w)
      then told.(refused := true) else told
    case Consume(u, now) =>
      if u == w && pc.Consuming?
         && !(pc.request in s.approvals && A.Consumable(s.approvals[pc.request], pc.a, pc.loaded.hash, now))
      then told.(refused := true) else told
    case ClaimAttempt(u) =>
      if u == w && pc.Claiming? && !Equipped(cfg, pc.ctx.action.payload) then told.(refused := true) else told
    case CallAdapter(u, success) => if u == w && pc.Calling? then told.(executed := Some(success)) else told
    case Verify(u, passed) => if u == w && pc.Checking? then told.(verified := Some(passed)) else told
    case _ => told
  }

  /** What worker `w` has heard in a run. */
  function Listened(cfg: Config, s: State, steps: seq<Step>, w: Id): Told
    decreases |steps|
  {
    if steps == [] then NOTHING
    else
      var front := steps[..|steps| - 1];
      Heard(cfg, Exec(cfg, s, front), steps[|steps| - 1], w, Listened(cfg, s, front, w))
  }

  /** The environment a dispatch has met. */
  function EnvOf(v: View, told: Told): O.Env {
    O.Env(v.block, v.toolless, !told.denied, !told.refused, told.executed == Some(true), told.verified == Some(true),
          if told.approval.Some? then told.approval.value else O.Pending, Transient, false)
  }

  /** The execution keys of the dispatch model that attempts hold. */
  function ClaimedKeys(cfg: Config, attempts: seq<Attempt>): set<O.Key> {
    set i | 0 <= i < |attempts| && attempts[i].key.hash == AuthorizedHash(cfg, attempts[i].key.action) ::
      (attempts[i].key.action, attempts[i].key.retry)
  }

  /** The hops of a dispatch with these keys taken. */
  function HopsUnder(v: View, env: O.Env): seq<ActionStatus> { O.Hops(_ => v.gated, v.row, env, v.claimed) }

  /** The number of the attempt a dispatch makes. */
  function Number(row: S.Row): nat { if row.status == PermissionChecked then row.retryCount else 0 }

  predicate Unclaimed(v: View) { (v.row.id, Number(v.row)) !in v.claimed }

  /** Everything heard so far let the dispatch through to where it may call its adapter. */
  predicate Clear(v: View, told: Told) {
    && (v.row.status == PermissionChecked ==> !v.toolless && !v.gated && told == NOTHING)
    && (v.row.status != PermissionChecked ==>
          v.row.status == WaitingForApproval && told == NOTHING.(approval := Some(O.Granted(true))))
  }

  /** The adapter has been called, and has said so. */
  predicate Called(v: View, told: Told, executed: bool, verified: Option<bool>) {
    && Clear(v, told.(executed := None, verified := None)) && Unclaimed(v)
    && told.executed == Some(executed) && told.verified == verified
  }

  /** All of what the dispatch model says for what was heard. */
  predicate Finished(v: View, told: Told, trail: seq<ActionStatus>) {
    && trail == HopsUnder(v, EnvOf(v, told))
    && (told.executed.Some? ==> Called(v, told, told.executed.value, told.verified))
  }

  predicate AfterEnds(v: View, told: Told, trail: seq<ActionStatus>, after: After) {
    match after
    case Return => Finished(v, told, trail)
    case Toolless(_) => told == NOTHING && v.toolless
    case Execute(_, _) => Clear(v, told)
    case Claim(ctx) => Clear(v, told) && ctx.retry == Number(v.row)
    case Dispatch(_, _, _) => Clear(v, told) && Unclaimed(v)
    case Tail(action) =>
      (match action.status
       case ExecutionSucceeded => Called(v, told, true, None)
       case Verifying => Called(v, told, true, None)
       case Verified => Called(v, told, true, Some(true))
       case Completed => Finished(v, told, trail)
       case Failed => Finished(v, told, trail)
       case _ => false)
    case Conclude(_) => Finished(v, told, trail)
  }

  /** What holds on the way so that the dispatch can only return finished. */
  predicate PcEnds(v: View, told: Told, trail: seq<ActionStatus>, pc: Pc) {
    match pc
    case Loaded(_, action) => told == NOTHING && action.retryCount == v.row.retryCount
    case Expiring(a, _, _, expired) =>
      told == NOTHING.(approval := Some(if expired.actionId == a then O.Refused(ActionStatus.Cancelled)
                                        else O.Pending))
    case Budgeting(_, action, _, _) => Clear(v, told) && action.retryCount == v.row.retryCount
    case Costing(_, action, _, _) => Clear(v, told) && action.retryCount == v.row.retryCount
    case Entering(_, _, retry, _, _) => Clear(v, told) && retry == Number(v.row)
    case Gating(_, _, retry, _, _) => Clear(v, told) && retry == Number(v.row)
    case Consuming(_, ctx, _, _) => Clear(v, told) && ctx.retry == Number(v.row)
    case UpsertRead(_, target, _, after) => AfterEnds(v, told, Extended(trail, target.status), after)
    case UpsertWrite(_, target, _, _, after) => AfterEnds(v, told, Extended(trail, target.status), after)
    case UpsertReload(_, after) => AfterEnds(v, told, trail, after)
    case Claiming(_, ctx, _) => Clear(v, told) && ctx.retry == Number(v.row)
    case Calling(_, _, _, _) => Clear(v, told) && Unclaimed(v)
    case Checking(_, _) => Called(v, told, true, None)
    case _ => Finished(v, told, trail)
  }

  /** No execution key has been claimed yet, but one may be. */
  predicate BeforeClaim(pc: Pc) {
    || pc.Loaded? || pc.Expiring? || pc.Budgeting? || pc.Costing? || pc.Entering? || pc.Gating? || pc.Consuming?
    || pc.Claiming?
    || ((pc.UpsertRead? || pc.UpsertWrite? || pc.UpsertReload?) && (pc.after.Execute? || pc.after.Claim?))
  }

  /** The steps at which the code raises: a request that cannot be created, a budget call
      that failed, inputs too long to store, a dependency list too long to read back. */
  predicate Raises(cfg: Config, s: State, step: Step) {
    match step
    case Ask(w, request, requestedBy, expiresAt, now) =>
      var pc := At(s, w);
      pc.Loaded? && pc.action.status == PermissionChecked && pc.action.approvalId.None? && request !in s.approvals
      && DecisionFor(cfg, pc.action).outcome == P.RequireApproval
      && A.Create(SubjectOf(pc.a, pc.action), DecisionFor(cfg, pc.action), requestedBy, expiresAt, now).Err?
    case Settle(w, _) =>
      var pc := At(s, w);
      (pc.Budgeting? || pc.Costing?) && pc.ticket < |s.ledger.calls|
      && (s.ledger.calls[pc.ticket].phase.Raised? || s.ledger.calls[pc.ticket].phase.Crashed?)
    case UpsertPut(w) => At(s, w).UpsertWrite? && At(s, w).target.payload.inputs.jsonChars > H.MAX_INPUTS_JSON_CHARS
    case UpsertGot(w) =>
      var pc := At(s, w);
      pc.UpsertReload? && pc.a in s.rows && s.rows[pc.a].action.depsCut
      && (pc.after.Return? || pc.after.Execute? || (pc.after.Toolless? && pc.after.stage != Completed))
    case _ => false
  }

  // ------------------------------------------------------- what is finished

  lemma CheckedFinished(v: View)
    ensures v.row.status == Validated ==>
              Finished(v, NOTHING, [Validated, if v.block then Blocked else PermissionChecked])
    ensures v.row.status == PermissionChecked && v.gated ==>
              Finished(v, NOTHING, [PermissionChecked, WaitingForApproval])
  {
  }

  lemma WaitingFinished(v: View)
    requires v.row.status == WaitingForApproval
    ensures forall view | view in {O.NoApproval, O.Pending, O.Granted(false)} ::
              Finished(v, NOTHING.(approval := Some(view)), [WaitingForApproval])
    ensures forall target | target in {ActionStatus.Rejected, ActionStatus.Cancelled} ::
              Finished(v, NOTHING.(approval := Some(O.Refused(target))), [WaitingForApproval, target])
  {
  }

  lemma DenialFinished(v: View, told: Told)
    requires Clear(v, told)
    ensures Finished(v, told.(denied := true), Extended([v.row.status], Failed))
  {
  }

  lemma ToollessFinished(v: View)
    requires v.row.status == PermissionChecked && !v.gated && v.toolless
    ensures Finished(v, NOTHING, [PermissionChecked] + Chain(Completed))
  {
  }

  lemma GateFinished(v: View, told: Told, gate: ActionStatus)
    requires v.row.status == ToGate(gate)[0] && AtGate(v.gated, gate) && Clear(v, told)
    ensures Finished(v, told.(refused := true), Extended(ToGate(gate), FailTarget(gate)))
    ensures !Unclaimed(v) ==> Finished(v, told, ToGate(gate))
  {
    assert Extended(ToGate(gate), FailTarget(gate)) == ToGate(gate) + [FailTarget(gate)];
  }

  lemma ExecutionFinished(v: View, told: Told, gate: ActionStatus)
    requires v.row.status == ToGate(gate)[0] && AtGate(v.gated, gate) && told.executed.Some?
    requires Called(v, told, told.executed.value, told.verified)
    ensures told.executed == Some(false) ==> Finished(v, told, ToGate(gate) + [Executing, Failed])
    ensures told.executed == Some(true) && told.verified == Some(false) ==>
              Finished(v, told, ToGate(gate) + Chain(Verifying) + [Failed])
    ensures told.executed == Some(true) && told.verified == Some(true) ==>
              Finished(v, told, ToGate(gate) + Chain(Completed))
  {
  }

  // ---------------------------------------------------- the worker's own steps

  /** What the view says is what the engine decides. */
  predicate Sees(cfg: Config, v: View, a: Id) {
    && v.gated == NeedsApproval(cfg, a) && v.block == (Verdict(cfg, a).outcome == P.Block)
    && v.toolless == !P.RequiresTool(cfg.specs(a).payload.actionType)
  }

  lemma LoadedSees(cfg: Config, s: State, w: Id, v: View)
    requires PcInv(cfg, s, w, At(s, w)) && At(s, w).Loaded? && Sees(cfg, v, At(s, w).a)
    ensures DecisionFor(cfg, At(s, w).action).outcome == P.RequireApproval <==> v.gated
    ensures DecisionFor(cfg, At(s, w).action).outcome == P.Block <==> v.block
    ensures P.RequiresTool(At(s, w).action.payload.actionType) <==> !v.toolless
  {
    DecisionIsVerdict(cfg, At(s, w).a, At(s, w).action);
    hide DecisionFor, Verdict, P.RequiresTool;
  }

  lemma PermissionEnds(cfg: Config, s: State, w: Id, v: View, told: Told, trail: seq<ActionStatus>)
    requires OnTrack(v.gated, v.row, trail, At(s, w)) && PcEnds(v, told, trail, At(s, w))
    requires At(s, w).Loaded? ==> (DecisionFor(cfg, At(s, w).action).outcome == P.Block <==> v.block)
    ensures PcEnds(v, told, trail, At(StepLoaded(cfg, s, w, CheckPermission(w)), w))
  {
    hide Finished, Allowed, DecisionFor;
    CheckedFinished(v);
    assert Extended([Validated], PermissionChecked) == [Validated, PermissionChecked];
    assert Extended([Validated], Blocked) == [Validated, Blocked];
  }

  lemma WaitEnds(cfg: Config, s: State, step: Step, w: Id, v: View, told: Told, trail: seq<ActionStatus>)
    requires (step.Ask? || step.Wait?) && step.w == w && !Raises(cfg, s, step)
    requires OnTrack(v.gated, v.row, trail, At(s, w)) && PcEnds(v, told, trail, At(s, w))
    requires At(s, w).Loaded? ==> (DecisionFor(cfg, At(s, w).action).outcome == P.RequireApproval <==> v.gated)
    ensures PcEnds(v, told, trail, At(StepLoaded(cfg, s, w, step), w))
  {
    hide Finished, Allowed, DecisionFor, A.Create, SubjectOf;
    CheckedFinished(v);
    assert Extended([PermissionChecked], WaitingForApproval) == [PermissionChecked, WaitingForApproval];
  }

  lemma GoEnds(cfg: Config, s: State, step: Step, v: View, told: Told, trail: seq<ActionStatus>)
    requires step.StartToolless? || step.PassBudgetGate?
    requires OnTrack(v.gated, v.row, trail, At(s, step.w)) && PcEnds(v, told, trail, At(s, step.w))
    requires At(s, step.w).Loaded? ==>
               && (DecisionFor(cfg, At(s, step.w).action).outcome == P.RequireApproval <==> v.gated)
               && (P.RequiresTool(At(s, step.w).action.payload.actionType) <==> !v.toolless)
    ensures PcEnds(v, told, trail, At(StepLoaded(cfg, s, step.w, step), step.w))
  {
    hide Finished, DecisionFor, AttemptsRequest, Submitted, P.RequiresTool, Allowed;
  }

  lemma RefusalFinished(v: View, a: Id, action: Action, request: A.Request)
    requires action.status == v.row.status == WaitingForApproval
    ensures var final := A.Finalize(SubjectOf(a, action), request);
            var target := if request.status == A.Status.Rejected then ActionStatus.Rejected else ActionStatus.Cancelled;
            && (final.Ok? <==>
                  request.actionId == a
                  && request.status in {A.Status.Rejected, A.Status.Cancelled, A.Status.Expired})
            && (final.Ok? ==>
                  final.value == target
                  && Finished(v, NOTHING.(approval := Some(O.Refused(target))), Extended([v.row.status], target)))
  {
    WaitingFinished(v);
    A.FinalizeIff(SubjectOf(a, action), request);
    hide Finished, A.Finalize, HashOf;
    assert Extended([WaitingForApproval], ActionStatus.Rejected) == [WaitingForApproval, ActionStatus.Rejected];
    assert Extended([WaitingForApproval], ActionStatus.Cancelled) == [WaitingForApproval, ActionStatus.Cancelled];
  }

  lemma LookEnds(cfg: Config, s: State, step: Step, v: View, told: Told, trail: seq<ActionStatus>)
    requires step.LookAtApproval?
    requires OnTrack(v.gated, v.row, trail, At(s, step.w)) && PcEnds(v, told, trail, At(s, step.w))
    ensures PcEnds(v, Heard(cfg, s, step, step.w, told), trail, At(StepLoaded(cfg, s, step.w, step), step.w))
  {
    hide Finished, DecisionFor, SubjectOf, A.Finalize, Allowed, Extended, AttemptsRequest, Submitted;
    var pc := At(s, step.w);
    if pc.Loaded? && pc.action.status == WaitingForApproval {
      WaitingFinished(v);
      if pc.action.approvalId.Some? && pc.action.approvalId.value in s.approvals {
        RefusalFinished(v, pc.a, pc.action, s.approvals[pc.action.approvalId.value]);
      }
    }
  }

  lemma AdvanceEnds(cfg: Config, s: State, step: Step, v: View, told: Told, trail: seq<ActionStatus>)
    requires Advances(step) && !Raises(cfg, s, step) && PcInv(cfg, s, step.w, At(s, step.w))
    requires Working(At(s, step.w)) && Sees(cfg, v, At(s, step.w).a)
    requires OnTrack(v.gated, v.row, trail, At(s, step.w)) && PcEnds(v, told, trail, At(s, step.w))
    ensures PcEnds(v, Heard(cfg, s, step, step.w, told), trail, At(Next(cfg, s, step), step.w))
  {
    hide Next, PcInv, PcEnds, OnTrack, Sees, StepLoaded, DecisionFor, Raises, P.RequiresTool;
    Steps.NextLoaded(cfg, s, step);
    if At(s, step.w).Loaded? { LoadedSees(cfg, s, step.w, v); }
    if step.LookAtApproval? {
      LookEnds(cfg, s, step, v, told, trail);
    } else if step.StartToolless? || step.PassBudgetGate? {
      GoEnds(cfg, s, step, v, told, trail);
    } else if step.CheckPermission? {
      PermissionEnds(cfg, s, step.w, v, told, trail);
    } else {
      WaitEnds(cfg, s, step, step.w, v, told, trail);
    }
  }

  lemma ExpiringKnows(s: State, w: Id, v: View, told: Told, trail: seq<ActionStatus>)
    requires At(s, w).Expiring? && OnTrack(v.gated, v.row, trail, At(s, w)) && PcEnds(v, told, trail, At(s, w))
    ensures var pc := At(s, w);
            && trail == [v.row.status] && pc.action.status == v.row.status == WaitingForApproval
            && told == NOTHING.(approval := Some(if pc.expired.actionId == pc.a then O.Refused(ActionStatus.Cancelled)
                                                 else O.Pending))
  {
  }

  lemma ExpiryEnds(cfg: Config, s: State, w: Id, v: View, told: Told, trail: seq<ActionStatus>)
    requires PcInv(cfg, s, w, At(s, w))
    requires OnTrack(v.gated, v.row, trail, At(s, w)) && PcEnds(v, told, trail, At(s, w))
    ensures PcEnds(v, told, trail, At(StepExpiry(s, w), w))
  {
    hide Finished, SubjectOf, A.Finalize, Allowed, Extended, PcInv, OnTrack;
    var pc := At(s, w);
    if pc.Expiring? {
      ExpiringKnows(s, w, v, told, trail);
      Steps.ExpiringOk(cfg, s, w);
      WaitingFinished(v);
      RefusalFinished(v, pc.a, pc.action, pc.expired);
      assert At(StepExpiry(s, w), w) == Steps.Refusal(pc.a, pc.action, pc.expired);
      hide StepExpiry;
    } else {
      assert StepExpiry(s, w) == s;
      hide StepExpiry, PcEnds;
    }
  }

  lemma ProceedEnds(s: State, w: Id, pc: Pc, now: int, v: View, told: Told, trail: seq<ActionStatus>)
    requires (pc.Budgeting? || pc.Costing?) && AtBudget(v.gated, v.row, trail, pc.action, pc.approval)
    requires Clear(v, told) && pc.action.retryCount == v.row.retryCount
    ensures var lapsed := pc.approval.Some? && !A.Consumable(pc.approval.value.1, pc.a, HashOf(pc.action), now);
            PcEnds(v, if lapsed then told.(approval := Some(O.Granted(false))) else told, trail,
                   At(Proceed(s, w, pc.a, pc.action, pc.approval, now), w))
  {
    hide Finished, A.Authorize, Extended, A.Consumable, HashOf;
    if pc.approval.Some? {
      WaitingFinished(v);
      A.AuthorizeIff(SubjectOf(pc.a, pc.action), pc.approval.value.1, now);
    }
  }

  lemma RefusesIff(outcome: L.Outcome)
    ensures Refuses(outcome) <==> !L.IsGrant(outcome)
  {
  }

  lemma SettleEnds(cfg: Config, s: State, w: Id, now: int, v: View, told: Told, trail: seq<ActionStatus>)
    requires OnTrack(v.gated, v.row, trail, At(s, w)) && PcEnds(v, told, trail, At(s, w))
    requires !Raises(cfg, s, Settle(w, now))
    ensures PcEnds(v, Heard(cfg, s, Settle(w, now), w, told), trail, At(StepSettle(cfg, s, w, now), w))
  {
    hide Finished, Proceed, Allowed, CostOf, CostRequest, Submitted, Extended, A.Consumable, HashOf, L.IsGrant,
        Refuses;
    var pc := At(s, w);
    if pc.Budgeting? || pc.Costing? {
      DenialFinished(v, told);
      ProceedEnds(s, w, pc, now, v, told, trail);
      if pc.ticket < |s.ledger.calls| && s.ledger.calls[pc.ticket].phase.Done? {
        RefusesIff(s.ledger.calls[pc.ticket].phase.outcome);
      }
    }
  }

  lemma FailEnds(v: View, told: Told, trail: seq<ActionStatus>, a: Id, action: Action)
    requires AtGate(v.gated, action.status) && trail == ToGate(action.status) && trail[0] == v.row.status
    requires Clear(v, told)
    ensures PcEnds(v, told.(refused := true), trail, FailDurable(a, action))
  {
    hide Finished;
    GateFinished(v, told, action.status);
  }

  /** A worker that nobody disturbs does not find its action COMPLETED at the gate. */
  lemma EnterEnds(s: State, w: Id, v: View, told: Told, trail: seq<ActionStatus>)
    requires OnTrack(v.gated, v.row, trail, At(s, w)) && PcEnds(v, told, trail, At(s, w))
    requires Working(At(s, w)) && At(s, w).a in s.rows && PcHop(s.rows[At(s, w).a].action.status, At(s, w))
    ensures PcEnds(v, told, trail, At(StepEnter(s, w), w))
  {
    hide Finished, Allowed, CanTransition;
  }

  lemma PassEnds(v: View, told: Told, trail: seq<ActionStatus>, a: Id, ctx: Ctx, request: Id, loaded: A.Request)
    requires Clear(v, told) && ctx.retry == Number(v.row)
    ensures PcEnds(v, told, trail, Consuming(a, ctx, request, loaded))
    ensures PcEnds(v, told, trail, UpsertRead(a, ctx.action, 0, Claim(ctx)))
  {
  }

  /** What is known at the executor's gate. */
  lemma AtTheGate(s: State, w: Id, v: View, told: Told, trail: seq<ActionStatus>)
    requires At(s, w).Gating? && OnTrack(v.gated, v.row, trail, At(s, w)) && PcEnds(v, told, trail, At(s, w))
    ensures var pc := At(s, w);
            && AtGate(v.gated, pc.action.status) && trail == ToGate(pc.action.status)
            && Clear(v, told) && pc.retry == Number(v.row)
  {
  }

  lemma GateEnds(cfg: Config, s: State, w: Id, now: int, v: View, told: Told, trail: seq<ActionStatus>)
    requires trail != [] && trail[0] == v.row.status && PcInv(cfg, s, w, At(s, w))
    requires OnTrack(v.gated, v.row, trail, At(s, w)) && PcEnds(v, told, trail, At(s, w))
    ensures PcEnds(v, Heard(cfg, s, Gate(w, now), w, told), trail, At(StepGate(cfg, s, w, now), w))
  {
    hide Finished, FailDurable, Allowed, Extended, PcInv, Steps.PassesByApproval, Steps.PassesUngated, ToGate, OnTrack,
        PcEnds, Clear, Number, AtGate;
    var pc := At(s, w);
    if pc.Gating? {
      Steps.GatePassedIff(cfg, s, w, now);
      AtTheGate(s, w, v, told, trail);
      FailEnds(v, told, trail, pc.a, pc.action);
      var next := At(StepGate(cfg, s, w, now), w);
      hide StepGate;
      var ctx := Ctx(pc.action, pc.retry, pc.paid, None);
      if next.Consuming? {
        PassEnds(v, told, trail, pc.a, ctx, next.request, next.loaded);
      } else if next.UpsertRead? && next.after.Claim? {
        PassEnds(v, told, trail, pc.a, ctx, 0,
                 A.Request(0, HashOf(pc.action), "", A.Status.Pending, None, None, false));
      }
    } else {
      assert StepGate(cfg, s, w, now) == s;
    }
  }

  lemma ConsumeEnds(cfg: Config, s: State, w: Id, now: int, v: View, told: Told, trail: seq<ActionStatus>)
    requires trail != [] && trail[0] == v.row.status
    requires OnTrack(v.gated, v.row, trail, At(s, w)) && PcEnds(v, told, trail, At(s, w))
    ensures PcEnds(v, Heard(cfg, s, Consume(w, now), w, told), trail, At(StepConsume(s, w, now), w))
  {
    hide Finished, FailDurable, A.Consumable, Allowed, Extended, ToGate;
    var pc := At(s, w);
    if pc.Consuming? { FailEnds(v, told, trail, pc.a, pc.ctx.action); }
  }

  /** The unique INSERT decides whether the key was taken when the dispatch began. */
  lemma ClaimedIff(cfg: Config, attempts: seq<Attempt>, a: Id, retry: nat)
    ensures Claimed(attempts, ExecKey(a, AuthorizedHash(cfg, a), retry)) <==> (a, retry) in ClaimedKeys(cfg, attempts)
  {
    var key := ExecKey(a, AuthorizedHash(cfg, a), retry);
    hide AuthorizedHash;
    if Claimed(attempts, key) {
      var i :| 0 <= i < |attempts| && attempts[i].key == key;
      assert (attempts[i].key.action, attempts[i].key.retry) in ClaimedKeys(cfg, attempts);
    }
  }

  lemma ClaimEnds(cfg: Config, s: State, w: Id, v: View, told: Told, trail: seq<ActionStatus>)
    requires trail != [] && trail[0] == v.row.status && PcInv(cfg, s, w, At(s, w))
    requires OnTrack(v.gated, v.row, trail, At(s, w)) && PcEnds(v, told, trail, At(s, w))
    requires At(s, w).Claiming? ==> At(s, w).a == v.row.id && v.claimed == ClaimedKeys(cfg, s.attempts)
    ensures PcEnds(v, Heard(cfg, s, ClaimAttempt(w), w, told), trail, At(StepClaim(cfg, s, w), w))
  {
    hide Finished, FailDurable, P.Resolve, Claimed, Allowed, Extended, ClaimedKeys, AuthorizedHash, CtxOk, ToGate;
    var pc := At(s, w);
    if pc.Claiming? {
      FailEnds(v, told, trail, pc.a, pc.ctx.action);
      GateFinished(v, told, pc.ctx.action.status) by { assert trail[0] == ToGate(pc.ctx.action.status)[0]; }
      ClaimedIff(cfg, s.attempts, pc.a, pc.ctx.retry);
    }
  }

  lemma FailedCallFinished(v: View, told: Told, gate: ActionStatus)
    requires v.row.status == ToGate(gate)[0] && AtGate(v.gated, gate) && Clear(v, told) && Unclaimed(v)
    ensures Finished(v, told.(executed := Some(false)), Extended(ToGate(gate) + [Executing], Failed))
  {
    assert Extended(ToGate(gate) + [Executing], Failed) == ToGate(gate) + [Executing, Failed];
    ExecutionFinished(v, told.(executed := Some(false)), gate) by { CallHeard(v, told, false); }
  }

  lemma CallHeard(v: View, told: Told, executed: bool)
    requires Clear(v, told) && Unclaimed(v)
    ensures Called(v, told.(executed := Some(executed)), executed, None)
  {
    assert told.(executed := Some(executed)).(executed := None, verified := None) == told;
  }

  /** The adapter's verdict decides where the row goes. */
  lemma CallEnds(cfg: Config, s: State, w: Id, success: bool, v: View, told: Told, trail: seq<ActionStatus>)
    requires trail != [] && trail[0] == v.row.status
    requires OnTrack(v.gated, v.row, trail, At(s, w)) && PcEnds(v, told, trail, At(s, w))
    ensures PcEnds(v, Heard(cfg, s, CallAdapter(w, success), w, told), trail, At(StepCall(s, w, success), w))
  {
    hide Finished, Extended, Clear, Unclaimed, Called, Allowed, ToGate;
    var pc := At(s, w);
    if pc.Calling? {
      var gate := pc.ctx.action.status;
      assert trail[0] == ToGate(gate)[0] by { GateNotEmpty(gate); }
      CallHeard(v, told, success);
      if !success { FailedCallFinished(v, told, gate); }
      var done := pc.ctx.action.(status := if success then ExecutionSucceeded else Failed);
      assert At(StepCall(s, w, success), w) == UpsertRead(pc.a, done, 0, Tail(done));
    } else {
      assert StepCall(s, w, success) == s;
    }
    hide StepCall;
  }

  lemma GateNotEmpty(gate: ActionStatus)
    ensures ToGate(gate) != []
  {
  }

  lemma FailedCheckFinished(v: View, told: Told, trail: seq<ActionStatus>)
    requires trail != [] && trail[0] == v.row.status && Executed(v.gated, trail, Verifying)
    requires Called(v, told, true, None)
    ensures Finished(v, told.(verified := Some(false)), Extended(trail, Failed))
  {
    var gate := if ExecutedFrom(v.gated, PermissionChecked, trail, Verifying) then PermissionChecked
        else ActionStatus.Approved;
    assert Extended(trail, Failed) == ToGate(gate) + Chain(Verifying) + [Failed];
    CheckHeard(v, told, false);
    hide Clear, Unclaimed, Called, Finished;
    ExecutionFinished(v, told.(verified := Some(false)), gate);
  }

  lemma CheckHeard(v: View, told: Told, verified: bool)
    requires Called(v, told, true, None)
    ensures Called(v, told.(verified := Some(verified)), true, Some(verified))
  {
    var heard := told.(verified := Some(verified));
    assert heard.(executed := None, verified := None) == told.(executed := None, verified := None);
  }

  /** And so does its verification. */
  lemma VerifyEnds(cfg: Config, s: State, w: Id, passed: bool, v: View, told: Told, trail: seq<ActionStatus>)
    requires trail != [] && trail[0] == v.row.status
    requires OnTrack(v.gated, v.row, trail, At(s, w)) && PcEnds(v, told, trail, At(s, w))
    ensures PcEnds(v, Heard(cfg, s, Verify(w, passed), w, told), trail, At(StepVerify(s, w, passed), w))
  {
    hide OnTrack, AfterEnds, Finished, Extended, Called;
    if At(s, w).Checking? {
      CheckEnds(v, told, trail, At(s, w), passed);
    } else {
      assert StepVerify(s, w, passed) == s;
    }
  }

  lemma CheckEnds(v: View, told: Told, trail: seq<ActionStatus>, pc: Pc, passed: bool)
    requires trail != [] && trail[0] == v.row.status && pc.Checking?
    requires OnTrack(v.gated, v.row, trail, pc) && Called(v, told, true, None)
    ensures var done := pc.action.(status := if passed then Verified else Failed);
            AfterEnds(v, told.(verified := Some(passed)), Extended(trail, done.status), Tail(done))
  {
    hide Finished, Extended, Called, Executed, Allowed;
    CheckHeard(v, told, passed);
    if !passed { FailedCheckFinished(v, told, trail); }
  }

  lemma GatesEnds(cfg: Config, s: State, step: Step, v: View, told: Told, trail: seq<ActionStatus>)
    requires (Gates(step) || Executes(step)) && !Raises(cfg, s, step) && PcInv(cfg, s, step.w, At(s, step.w))
    requires trail != [] && trail[0] == v.row.status
    requires OnTrack(v.gated, v.row, trail, At(s, step.w)) && PcEnds(v, told, trail, At(s, step.w))
    requires var pc := At(s, step.w);
             && Working(pc) && pc.a in s.rows && PcHop(s.rows[pc.a].action.status, pc) && pc.a == v.row.id
             && (pc.Claiming? ==> v.claimed == ClaimedKeys(cfg, s.attempts))
    ensures PcEnds(v, Heard(cfg, s, step, step.w, told), trail, At(Next(cfg, s, step), step.w))
  {
    hide Next, PcInv, PcHop, OnTrack, PcEnds, ClaimedKeys, Raises, StepExpiry, StepSettle, StepEnter, StepGate,
        StepConsume, StepClaim, StepCall, StepVerify;
    if step.CallAdapter? {
      Steps.NextCall(cfg, s, step);
      CallEnds(cfg, s, step.w, step.success, v, told, trail);
    } else if step.Verify? {
      Steps.NextCall(cfg, s, step);
      VerifyEnds(cfg, s, step.w, step.passed, v, told, trail);
    } else {
      Steps.NextGate(cfg, s, step);
      match step
      case SyncExpiry(w) => ExpiryEnds(cfg, s, w, v, told, trail);
      case Settle(w, now) => SettleEnds(cfg, s, w, now, v, told, trail);
      case Enter(w) => EnterEnds(s, w, v, told, trail);
      case Gate(w, now) => GateEnds(cfg, s, w, now, v, told, trail);
      case Consume(w, now) => ConsumeEnds(cfg, s, w, now, v, told, trail);
      case ClaimAttempt(w) => ClaimEnds(cfg, s, w, v, told, trail);
    }
  }

  // ------------------------------------------------------------------ upserts

  lemma UpsertReadEnds(s: State, w: Id, v: View, told: Told, trail: seq<ActionStatus>)
    requires Working(At(s, w)) && At(s, w).a in s.rows && PcHop(s.rows[At(s, w).a].action.status, At(s, w))
    requires PcEnds(v, told, trail, At(s, w))
    ensures var next := At(StepUpsertGet(s, w), w);
            && PcEnds(v, told, trail, next)
            && (next.UpsertWrite? ==> next == At(s, w) || next.seen == Some(s.rows[next.a]))
  {
    hide Finished, AfterEnds, Resume, CanTransition;
  }

  /** Nobody wrote in between, so the write lands. */
  lemma UpsertPutEnds(cfg: Config, s: State, w: Id, v: View, told: Told, trail: seq<ActionStatus>)
    requires At(s, w).UpsertWrite? && At(s, w).a in s.rows && At(s, w).seen == Some(s.rows[At(s, w).a])
    requires !Raises(cfg, s, UpsertPut(w)) && PcEnds(v, told, trail, At(s, w))
    ensures var a, t := At(s, w).a, StepUpsertPut(cfg, s, w);
            && At(t, w) == UpsertReload(a, At(s, w).after)
            && a in t.rows && t.rows[a].action.status == At(s, w).target.status
            && PcEnds(v, told, Extended(trail, t.rows[a].action.status), At(t, w))
  {
    hide Finished, AfterEnds, Resume, Extended;
  }

  lemma ToollessEnds(v: View, told: Told, trail: seq<ActionStatus>, a: Id, stage: ActionStatus, stored: Row)
    requires trail != [] && trail[0] == v.row.status && Last(trail) == stored.action.status
    requires AfterTrack(v.gated, v.row, trail, Toolless(stage)) && (stage != Completed ==> !stored.action.depsCut)
    requires told == NOTHING && v.toolless
    ensures PcEnds(v, told, trail, Resume(a, Toolless(stage), stored))
  {
    hide Finished, Extended;
    if stage == Completed { ToollessFinished(v); }
  }

  lemma CompletionFinished(v: View, told: Told, trail: seq<ActionStatus>)
    requires trail != [] && trail[0] == v.row.status && Executed(v.gated, trail, Verified)
    requires Called(v, told, true, Some(true))
    ensures Finished(v, told, Extended(trail, Completed))
  {
    var gate := if ExecutedFrom(v.gated, PermissionChecked, trail, Verified) then PermissionChecked
        else ActionStatus.Approved;
    assert Extended(trail, Completed) == ToGate(gate) + Chain(Completed);
    hide Clear, Unclaimed, Finished;
    ExecutionFinished(v, told, gate);
  }

  lemma TailEnds(v: View, told: Told, trail: seq<ActionStatus>, a: Id, action: Action)
    requires trail != [] && trail[0] == v.row.status && Executed(v.gated, trail, action.status)
    requires AfterEnds(v, told, trail, Tail(action))
    ensures PcEnds(v, told, trail, TailNext(a, action))
  {
    hide Finished, Extended, Called, Executed;
    if action.status == Verified { CompletionFinished(v, told, trail); }
  }

  lemma ResumeEnds(v: View, told: Told, trail: seq<ActionStatus>, a: Id, after: After, stored: Row)
    requires trail != [] && trail[0] == v.row.status && Last(trail) == stored.action.status
    requires AfterTrack(v.gated, v.row, trail, after) && AfterEnds(v, told, trail, after)
    requires stored.action.depsCut ==>
              !after.Return? && !after.Execute? && (after.Toolless? ==> after.stage == Completed)
    ensures PcEnds(v, told, trail, Resume(a, after, stored))
  {
    hide Finished, Allowed, HashOf, TailNext, Executed, Clear;
    match after
    case Toolless(stage) => ToollessEnds(v, told, trail, a, stage, stored);
    case Tail(action) => TailEnds(v, told, trail, a, action);
    case _ =>
  }

  lemma UpsertGotEnds(cfg: Config, s: State, w: Id, v: View, told: Told, trail: seq<ActionStatus>)
    requires Working(At(s, w)) && At(s, w).a in s.rows && !Raises(cfg, s, UpsertGot(w))
    requires trail != [] && trail[0] == v.row.status && Last(trail) == s.rows[At(s, w).a].action.status
    requires OnTrack(v.gated, v.row, trail, At(s, w)) && PcEnds(v, told, trail, At(s, w))
    ensures PcEnds(v, told, trail, At(StepUpsertGot(s, w), w))
  {
    hide Resume, AfterTrack, AfterEnds, Finished, Allowed;
    var pc := At(s, w);
    if pc.UpsertReload? { ResumeEnds(v, told, trail, pc.a, pc.after, s.rows[pc.a]); }
  }

  // ------------------------------------------------------------- every step

  /** A step that writes no row: no key is claimed before one may be, and an upsert about
      to write has just read. */
  predicate Precedes(s: State, t: State, w: Id) {
    var pc, next := At(s, w), At(t, w);
    && (BeforeClaim(next) ==> BeforeClaim(pc) && t.attempts == s.attempts)
    && (next.UpsertWrite? ==> next == pc || (next.a in s.rows && next.seen == Some(s.rows[next.a])))
  }

  lemma LoadedPrecedes(cfg: Config, s: State, step: Step)
    requires Advances(step)
    ensures Precedes(s, StepLoaded(cfg, s, step.w, step), step.w)
  {
    hide DecisionFor, SubjectOf, AttemptsRequest, A.Create, A.Finalize, A.Expire, L.Next;
  }

  lemma BudgetPrecedes(cfg: Config, s: State, w: Id, now: int)
    ensures Precedes(s, StepExpiry(s, w), w) && Precedes(s, StepSettle(cfg, s, w, now), w)
  {
    hide SubjectOf, A.Finalize, A.Authorize, CostOf, CostRequest, L.Next;
  }

  lemma GatePrecedes(cfg: Config, s: State, w: Id, now: int)
    ensures Precedes(s, StepEnter(s, w), w) && Precedes(s, StepGate(cfg, s, w, now), w)
    ensures Precedes(s, StepConsume(s, w, now), w)
  {
    hide SubjectOf, DecisionFor, A.Valid, A.Consumable, FailTarget;
  }

  lemma ClaimPrecedes(cfg: Config, s: State, w: Id)
    ensures Precedes(s, StepClaim(cfg, s, w), w)
  {
    hide P.Resolve, Claimed, CanTransition, FailTarget;
  }

  lemma CallPrecedes(s: State, w: Id, flag: bool)
    ensures Precedes(s, StepCall(s, w, flag), w) && Precedes(s, StepVerify(s, w, flag), w)
  {
  }

  lemma QuietPrecedes(cfg: Config, s: State, step: Step)
    requires Advances(step) || Gates(step) || Executes(step)
    ensures Precedes(s, Next(cfg, s, step), step.w)
  {
    hide Next, Precedes, StepLoaded, StepExpiry, StepSettle, StepEnter, StepGate, StepConsume, StepClaim, StepCall,
        StepVerify;
    if Advances(step) {
      Steps.NextLoaded(cfg, s, step);
      LoadedPrecedes(cfg, s, step);
    } else if step.CallAdapter? || step.Verify? {
      Steps.NextCall(cfg, s, step);
      CallPrecedes(s, step.w, if step.CallAdapter? then step.success else step.passed);
    } else {
      Steps.NextGate(cfg, s, step);
      var now := if step.Settle? || step.Gate? || step.Consume? then step.now else 0;
      BudgetPrecedes(cfg, s, step.w, now);
      GatePrecedes(cfg, s, step.w, now);
      ClaimPrecedes(cfg, s, step.w);
    }
  }

  lemma ResumePrecedes(a: Id, after: After, row: Row)
    ensures !Resume(a, after, row).UpsertWrite?
    ensures BeforeClaim(Resume(a, after, row)) ==> after.Execute? || after.Claim?
  {
  }

  lemma UpsertPrecedes(cfg: Config, s: State, w: Id)
    ensures Precedes(s, StepUpsertGet(s, w), w) || (At(s, w).UpsertRead? && At(s, w).a !in s.rows)
    ensures Precedes(s, StepUpsertGot(s, w), w)
  {
    hide Resume, LeavesAlone;
    var pc := At(s, w);
    if (pc.UpsertRead? || pc.UpsertReload?) && pc.a in s.rows { ResumePrecedes(pc.a, pc.after, s.rows[pc.a]); }
  }

  lemma PutKeepsAttempts(cfg: Config, s: State, w: Id)
    ensures StepUpsertPut(cfg, s, w).attempts == s.attempts
  {
    hide Resume, Concluded, H.Bounded, H.Fits;
  }

  // -------------------------------------------------------- a beginning of it

  /** An environment that answers as was heard. */
  predicate Agrees(v: View, told: Told, env: O.Env) {
    && env.block == v.block && env.toolless == v.toolless
    && (told.approval.Some? ==> env.approval == told.approval.value)
    && (told.denied ==> !env.budget) && (told.refused ==> !env.gates)
    && (told.executed.Some? ==> env.executed == told.executed.value)
    && (told.verified.Some? ==> env.verified == told.verified.value)
  }

  /** A beginning of what the dispatch model says for what was heard. */
  ghost predicate Begun(v: View, told: Told, trail: seq<ActionStatus>) {
    exists env :: Agrees(v, told, env) && trail <= HopsUnder(v, env)
  }

  /** Everything not heard yet may still go well. */
  function Best(v: View, told: Told): O.Env {
    EnvOf(v, told).(
      approval := if told.approval.Some? then told.approval.value else O.Granted(true),
      executed := told.executed != Some(false), verified := told.verified != Some(false))
  }

  lemma BestAgrees(v: View, told: Told, trail: seq<ActionStatus>)
    requires trail <= HopsUnder(v, Best(v, told))
    ensures Begun(v, told, trail)
  {
    assert Agrees(v, told, Best(v, told));
  }

  lemma FinishedBegun(v: View, told: Told, trail: seq<ActionStatus>)
    requires Finished(v, told, trail)
    ensures Begun(v, told, trail)
  {
    assert Agrees(v, told, EnvOf(v, told));
  }

  lemma StartBegun(v: View, told: Told)
    ensures Begun(v, told, [v.row.status])
  {
    BestAgrees(v, told, [v.row.status]);
  }

  /** Up to the gate, whatever is said there. */
  lemma GateBegun(v: View, told: Told, gate: ActionStatus)
    requires v.row.status == ToGate(gate)[0] && AtGate(v.gated, gate) && Clear(v, told.(refused := false))
    ensures Begun(v, told, ToGate(gate))
  {
    BestAgrees(v, told, ToGate(gate));
  }

  /** Past the gate, up to where the adapter has been called or its effect checked. */
  lemma ExecutionBegun(v: View, told: Told, gate: ActionStatus, stage: ActionStatus)
    requires v.row.status == ToGate(gate)[0] && AtGate(v.gated, gate) && Unclaimed(v)
    requires Clear(v, told.(executed := None, verified := None))
    requires stage in {Executing, ExecutionSucceeded, Verifying, Verified}
    requires stage != Executing ==> told.executed == Some(true)
    requires stage == Verified ==> told.verified == Some(true)
    ensures Begun(v, told, ToGate(gate) + Chain(stage))
  {
    BestAgrees(v, told, ToGate(gate) + Chain(stage));
  }

  lemma ToollessBegun(v: View, stage: ActionStatus)
    requires v.row.status == PermissionChecked && !v.gated && v.toolless && Stage(stage)
    ensures Begun(v, NOTHING, [PermissionChecked] + Chain(stage))
  {
    BestAgrees(v, NOTHING, [PermissionChecked] + Chain(stage));
  }

  lemma ExecutedBegun(v: View, told: Told, trail: seq<ActionStatus>, stage: ActionStatus)
    requires trail != [] && trail[0] == v.row.status && Executed(v.gated, trail, stage)
    requires stage in {ExecutionSucceeded, Verifying, Verified} && Unclaimed(v)
    requires Clear(v, told.(executed := None, verified := None)) && told.executed == Some(true)
    requires stage == Verified ==> told.verified == Some(true)
    ensures Begun(v, told, trail)
  {
    hide Begun, Clear, Unclaimed;
    var gate := if ExecutedFrom(v.gated, PermissionChecked, trail, stage) then PermissionChecked
        else ActionStatus.Approved;
    ExecutionBegun(v, told, gate, stage);
  }

  /** What an upsert has written is a beginning. */
  lemma AfterBegun(v: View, told: Told, trail: seq<ActionStatus>, after: After)
    requires trail != [] && trail[0] == v.row.status
    requires AfterTrack(v.gated, v.row, trail, after) && AfterEnds(v, told, trail, after)
    ensures Begun(v, told, trail)
  {
    hide Begun, Finished, Clear, Unclaimed, Executed, Allowed;
    match after
    case Return => FinishedBegun(v, told, trail);
    case Conclude(_) => FinishedBegun(v, told, trail);
    case Toolless(stage) => ToollessBegun(v, stage);
    case Execute(_, _) =>
      RefusedOrNot(v, told);
      GateBegun(v, told, ActionStatus.Approved);
    case Claim(ctx) =>
      RefusedOrNot(v, told);
      GateBegun(v, told, ctx.action.status);
    case Dispatch(ctx, _, _) =>
      ClearHeardNothing(v, told);
      ExecutionBegun(v, told, ctx.action.status, Executing);
    case Tail(action) =>
      if action.status in {Completed, Failed} {
        FinishedBegun(v, told, trail);
      } else {
        ExecutedBegun(v, told, trail, action.status);
      }
  }

  lemma RefusedOrNot(v: View, told: Told)
    requires Clear(v, told)
    ensures Clear(v, told.(refused := false)) && told.(refused := false) == told
  {
  }

  lemma ClearHeardNothing(v: View, told: Told)
    requires Clear(v, told)
    ensures told.(executed := None, verified := None) == told
  {
  }

  /** Hearing something more contradicts nothing that has been stored. */
  lemma HeardBegun(cfg: Config, s: State, step: Step, v: View, told: Told, trail: seq<ActionStatus>)
    requires Advances(step) || Gates(step) || Executes(step)
    requires Begun(v, told, trail) && trail != [] && trail[0] == v.row.status
    requires OnTrack(v.gated, v.row, trail, At(s, step.w)) && PcEnds(v, told, trail, At(s, step.w))
    ensures Begun(v, Heard(cfg, s, step, step.w, told), trail)
  {
    hide Begun, Clear, Unclaimed, Executed, Allowed, Finished, Viewed, Refuses, CostOf, A.Consumable, HashOf,
        Steps.PassesByApproval, Steps.PassesUngated, Equipped;
    var heard, pc := Heard(cfg, s, step, step.w, told), At(s, step.w);
    if heard != told {
      if pc.Loaded? || pc.Budgeting? || pc.Costing? {
        StartBegun(v, heard);
      } else if pc.Gating? || pc.Consuming? || pc.Claiming? {
        var gate := if pc.Gating? then pc.action.status else pc.ctx.action.status;
        RefusedOrNot(v, told);
        assert heard.(refused := false) == told.(refused := false);
        GateBegun(v, heard, gate);
      } else if pc.Calling? {
        ClearHeardNothing(v, told);
        assert heard.(executed := None, verified := None) == told.(executed := None, verified := None);
        ExecutionBegun(v, heard, pc.ctx.action.status, Executing);
      } else {
        assert heard.(executed := None, verified := None) == told.(executed := None, verified := None);
        ExecutedBegun(v, heard, trail, Verifying);
      }
    }
  }


  /** Ledger callers and human decisions claim no execution key, and neither does a
      worker that is on no action. */
  lemma OthersClaimNothing(cfg: Config, s: State, step: Step)
    requires DispatchStep(step) && (Advances(step) || Gates(step) || Executes(step) || Upserts(step) ==>
      !Busy(At(s, step.w)))
    ensures Next(cfg, s, step).attempts == s.attempts
  {
    hide Next;
    if Advances(step) {
      Steps.NextLoaded(cfg, s, step);
    } else if Gates(step) || step.ClaimAttempt? {
      Steps.NextGate(cfg, s, step);
    } else if step.CallAdapter? || step.Verify? {
      Steps.NextCall(cfg, s, step);
    } else if Upserts(step) {
      Steps.NextUpsert(cfg, s, step);
    } else {
      DecidersClaimNothing(cfg, s, step);
    }
  }

  lemma DecidersClaimNothing(cfg: Config, s: State, step: Step)
    requires step.LedgerStep? || step.DecideGet? || step.DecidePut? || step.Crash?
    ensures Next(cfg, s, step).attempts == s.attempts
  {
    hide Next;
    if step.LedgerStep? {
      LedgerClaimsNothing(cfg, s, step);
    } else if step.Crash? {
      Steps.NextCrash(cfg, s, step);
    } else {
      Steps.NextDecide(cfg, s, step);
    }
  }

  lemma LedgerClaimsNothing(cfg: Config, s: State, step: Step)
    requires step.LedgerStep?
    ensures Next(cfg, s, step).attempts == s.attempts
  {
    hide L.Next;
  }

  // -------------------------------------------------------------- whole steps

  /** Where the dispatch is, what it has claimed, and what it is about to write over. */
  ghost predicate Ends(s: State, w: Id, v: View, attempts: seq<Attempt>, told: Told, trail: seq<ActionStatus>) {
    var pc := At(s, w);
    && PcEnds(v, told, trail, pc)
    && (BeforeClaim(pc) ==> s.attempts == attempts)
    && (pc.UpsertWrite? ==> pc.a in s.rows && pc.seen == Some(s.rows[pc.a]))
  }

  /** The same of a dispatch that may have been cut off. */
  ghost predicate Cut(s: State, w: Id, v: View, attempts: seq<Attempt>, told: Told, trail: seq<ActionStatus>) {
    Begun(v, told, trail) && (Working(At(s, w)) ==> Ends(s, w, v, attempts, told, trail))
  }

  /** The view is this dispatch's. */
  ghost predicate Views(cfg: Config, v: View, a: Id, attempts: seq<Attempt>) {
    Sees(cfg, v, a) && v.row.id == a && v.claimed == ClaimedKeys(cfg, attempts)
  }

  predicate IsOwn(step: Step, w: Id) {
    (Advances(step) || Gates(step) || Executes(step) || Upserts(step)) && step.w == w
  }

  lemma PrecedesEnds(s: State, t: State, w: Id, v: View, attempts: seq<Attempt>, told: Told, heard: Told,
                     trail: seq<ActionStatus>)
    requires Ends(s, w, v, attempts, told, trail) && t.rows == s.rows && Precedes(s, t, w)
    requires PcEnds(v, heard, trail, At(t, w))
    ensures Ends(t, w, v, attempts, heard, trail)
  {
    hide PcEnds;
  }

  lemma QuietEnds(cfg: Config, s: State, step: Step, a: Id, v: View, attempts: seq<Attempt>, told: Told,
                  trail: seq<ActionStatus>)
    requires Inv(cfg, s) && (Advances(step) || Gates(step) || Executes(step)) && !Raises(cfg, s, step)
    requires Views(cfg, v, a, attempts) && Ends(s, step.w, v, attempts, told, trail)
    requires Tracks(cfg, s, step.w, a, v.row, trail) && Working(At(s, step.w)) && Knows(s, step.w)
    ensures Ends(Next(cfg, s, step), step.w, v, attempts, Heard(cfg, s, step, step.w, told), trail)
  {
    hide Next, Inv, PcInv, PcHop, PcEnds, OnTrack, Allowed, NeedsApproval, ClaimedKeys, Raises, Precedes, Heard;
    RowsUntouched(cfg, s, step);
    QuietPrecedes(cfg, s, step);
    Steps.AtInv(cfg, s, step.w);
    if Advances(step) {
      AdvanceEnds(cfg, s, step, v, told, trail);
    } else {
      GatesEnds(cfg, s, step, v, told, trail);
    }
    PrecedesEnds(s, Next(cfg, s, step), step.w, v, attempts, told, Heard(cfg, s, step, step.w, told), trail);
  }

  /** A raise ends the dispatch, and says and stores nothing. */
  lemma RaiseStops(cfg: Config, s: State, step: Step, w: Id, told: Told)
    requires Raises(cfg, s, step) && IsOwn(step, w)
    ensures !Working(At(Next(cfg, s, step), w)) && Next(cfg, s, step).rows == s.rows
    ensures Heard(cfg, s, step, w, told) == told
  {
    hide Next, A.Create, DecisionFor, SubjectOf, CostOf, CostRequest, Proceed, H.Bounded, H.Fits, Concluded;
    if step.Ask? {
      Steps.NextLoaded(cfg, s, step);
    } else if step.Settle? {
      Steps.NextGate(cfg, s, step);
    } else {
      Steps.NextUpsert(cfg, s, step);
    }
  }

  lemma QuietCuts(cfg: Config, s: State, step: Step, a: Id, v: View, attempts: seq<Attempt>, told: Told,
                  trail: seq<ActionStatus>)
    requires Inv(cfg, s) && (Advances(step) || Gates(step) || Executes(step)) && Working(At(s, step.w))
    requires Views(cfg, v, a, attempts) && Cut(s, step.w, v, attempts, told, trail)
    requires Tracks(cfg, s, step.w, a, v.row, trail) && Knows(s, step.w)
    ensures var (t, heard) := (Next(cfg, s, step), Heard(cfg, s, step, step.w, told));
            && t.rows == s.rows && Cut(t, step.w, v, attempts, heard, trail)
            && (!Raises(cfg, s, step) ==> Ends(t, step.w, v, attempts, heard, trail))
  {
    hide Next, Inv, PcInv, NeedsApproval, Verdict, P.RequiresTool, ClaimedKeys, Raises, Heard, Begun, PcEnds, OnTrack,
        Allowed, Knows, PcHop;
    RowsUntouched(cfg, s, step);
    HeardBegun(cfg, s, step, v, told, trail);
    if Raises(cfg, s, step) {
      RaiseStops(cfg, s, step, step.w, told);
    } else {
      QuietEnds(cfg, s, step, a, v, attempts, told, trail);
    }
  }

  /** The write of an upsert. */
  lemma PutCuts(cfg: Config, s: State, w: Id, a: Id, v: View, attempts: seq<Attempt>, told: Told,
                trail: seq<ActionStatus>)
    requires At(s, w).UpsertWrite? && !Raises(cfg, s, UpsertPut(w)) && Cut(s, w, v, attempts, told, trail)
    requires Tracks(cfg, s, w, a, v.row, trail) && v.gated == NeedsApproval(cfg, a)
    ensures var t := StepUpsertPut(cfg, s, w);
            && a in t.rows
            && var longer := Extended(trail, t.rows[a].action.status);
               Ends(t, w, v, attempts, told, longer) && Begun(v, told, longer)
  {
    hide Raises, Begun, AfterTrack, AfterEnds, Allowed, NeedsApproval, StepUpsertPut;
    var pc := At(s, w);
    PutKeepsAttempts(cfg, s, w);
    UpsertPutEnds(cfg, s, w, v, told, trail);
    AfterBegun(v, told, Extended(trail, pc.target.status), pc.after);
  }

  lemma UpsertCuts(cfg: Config, s: State, step: Step, a: Id, v: View, attempts: seq<Attempt>, told: Told,
                   trail: seq<ActionStatus>)
    requires Upserts(step) && Working(At(s, step.w))
    requires Views(cfg, v, a, attempts) && Cut(s, step.w, v, attempts, told, trail)
    requires Tracks(cfg, s, step.w, a, v.row, trail) && Knows(s, step.w)
    ensures var t := Next(cfg, s, step);
            && a in t.rows
            && var longer := Extended(trail, t.rows[a].action.status);
               Cut(t, step.w, v, attempts, told, longer)
               && (!Raises(cfg, s, step) ==> Ends(t, step.w, v, attempts, told, longer))
  {
    hide Next, PcHop, PcEnds, OnTrack, Allowed, NeedsApproval, ClaimedKeys, Raises, Precedes, StepUpsertGet,
        StepUpsertPut, StepUpsertGot, Begun;
    var w, t := step.w, Next(cfg, s, step);
    if Raises(cfg, s, step) {
      RaiseStops(cfg, s, step, w, told);
      assert Extended(trail, t.rows[a].action.status) == trail;
    } else {
      Steps.NextUpsert(cfg, s, step);
      if step.UpsertPut? && At(s, w).UpsertWrite? {
        PutCuts(cfg, s, w, a, v, attempts, told, trail);
      } else if step.UpsertPut? {
        NoWrite(cfg, s, w);
        assert Extended(trail, t.rows[a].action.status) == trail;
      } else {
        ReadCuts(cfg, s, step, a, v, attempts, told, trail);
      }
    }
  }

  lemma NoWrite(cfg: Config, s: State, w: Id)
    requires !At(s, w).UpsertWrite?
    ensures StepUpsertPut(cfg, s, w) == s
  {
  }

  lemma ReadCuts(cfg: Config, s: State, step: Step, a: Id, v: View, attempts: seq<Attempt>, told: Told,
                 trail: seq<ActionStatus>)
    requires (step.UpsertGet? || step.UpsertGot?) && Working(At(s, step.w)) && !Raises(cfg, s, step)
    requires Views(cfg, v, a, attempts) && Ends(s, step.w, v, attempts, told, trail)
    requires Tracks(cfg, s, step.w, a, v.row, trail) && Knows(s, step.w)
    ensures var t := Next(cfg, s, step);
            && t.rows == s.rows && Extended(trail, t.rows[a].action.status) == trail
            && Ends(t, step.w, v, attempts, told, trail)
  {
    hide Next, PcHop, PcEnds, OnTrack, Allowed, NeedsApproval, ClaimedKeys, Raises, Precedes, StepUpsertGet,
        StepUpsertGot;
    var w := step.w;
    Steps.NextUpsert(cfg, s, step);
    RowsUntouched(cfg, s, step);
    UpsertPrecedes(cfg, s, w);
    if step.UpsertGet? { UpsertReadEnds(s, w, v, told, trail); } else { UpsertGotEnds(cfg, s, w, v, told, trail); }
    PrecedesEnds(s, Next(cfg, s, step), w, v, attempts, told, told, trail);
  }

  /** A working worker ignores everything that is not a step of its dispatch. */
  lemma WorkerIgnores(cfg: Config, s: State, step: Step, w: Id)
    requires Working(At(s, w)) && step != Crash(w)
    requires step.LedgerStep? || step.DecideGet? || step.DecidePut? || step.Crash?
    ensures At(Next(cfg, s, step), w) == At(s, w) && Next(cfg, s, step).rows == s.rows
  {
    hide Next;
    RowsUntouched(cfg, s, step);
    if step.LedgerStep? {
      WorkersUntouched(cfg, s, step);
    } else if step.Crash? {
      Steps.NextCrash(cfg, s, step);
    } else {
      Steps.NextDecide(cfg, s, step);
    }
  }

  /** What is not a step of the dispatch's own says nothing. */
  lemma HeardNothing(cfg: Config, s: State, step: Step, w: Id, told: Told)
    requires !Working(At(s, w)) || !IsOwn(step, w)
    ensures Heard(cfg, s, step, w, told) == told
  {
    hide Viewed, Refuses, CostOf, A.Consumable, HashOf, Steps.PassesByApproval, Steps.PassesUngated, Equipped;
  }

  lemma OverCuts(cfg: Config, s: State, step: Step, w: Id, v: View, attempts: seq<Attempt>, told: Told,
                 trail: seq<ActionStatus>)
    requires Inv(cfg, s) && Faithful(s) && DispatchStep(step) && !Working(At(s, w))
    requires forall u | u != w :: !Busy(At(s, u))
    requires Cut(s, w, v, attempts, told, trail)
    ensures var t := Next(cfg, s, step);
            && t.rows == s.rows && Cut(t, w, v, attempts, told, trail)
            && (Ends(s, w, v, attempts, told, trail) ==> Ends(t, w, v, attempts, told, trail))
  {
    hide Next, Inv, Faithful, OneMoved, Begun, PcEnds;
    var t := Next(cfg, s, step);
    StepIsOneMove(cfg, s, step);
    if Steps.Actor(step) == w { IdlerLeaves(cfg, s, step, w); } else { StrangerLeaves(s, t, Steps.Actor(step), w); }
    OverStays(s, t, w, v, told, trail);
  }

  /** Somebody else's step leaves a dispatch where it is. */
  lemma ForeignCuts(s: State, t: State, w: Id, v: View, attempts: seq<Attempt>, told: Told, trail: seq<ActionStatus>)
    requires At(t, w) == At(s, w) && t.rows == s.rows && t.attempts == s.attempts
    requires Cut(s, w, v, attempts, told, trail)
    ensures Cut(t, w, v, attempts, told, trail)
    ensures Ends(s, w, v, attempts, told, trail) ==> Ends(t, w, v, attempts, told, trail)
  {
    hide PcEnds, Begun;
  }

  lemma CrashCuts(cfg: Config, s: State, w: Id, v: View, attempts: seq<Attempt>, told: Told, trail: seq<ActionStatus>)
    requires Cut(s, w, v, attempts, told, trail)
    ensures Next(cfg, s, Crash(w)).rows == s.rows && Cut(Next(cfg, s, Crash(w)), w, v, attempts, told, trail)
  {
    hide Next, PcEnds, Begun;
    Steps.NextCrash(cfg, s, Crash(w));
  }

  predicate OfADispatch(step: Step) { Advances(step) || Gates(step) || Executes(step) || Upserts(step) }

  lemma StrangerCuts(cfg: Config, s: State, step: Step, w: Id, v: View, attempts: seq<Attempt>, told: Told,
                     trail: seq<ActionStatus>)
    requires OfADispatch(step) && step.w != w
    requires Inv(cfg, s) && Faithful(s) && Cut(s, w, v, attempts, told, trail) && forall u | u != w :: !Busy(At(s, u))
    ensures var t := Next(cfg, s, step);
            && t.rows == s.rows && Cut(t, w, v, attempts, told, trail)
            && (Ends(s, w, v, attempts, told, trail) ==> Ends(t, w, v, attempts, told, trail))
  {
    hide Next, Inv, Faithful, OneMoved, Cut, Ends;
    StepIsOneMove(cfg, s, step);
    StrangerLeaves(s, Next(cfg, s, step), step.w, w);
    OthersClaimNothing(cfg, s, step);
    ForeignCuts(s, Next(cfg, s, step), w, v, attempts, told, trail);
  }

  lemma BystanderCuts(cfg: Config, s: State, step: Step, w: Id, v: View, attempts: seq<Attempt>, told: Told,
                      trail: seq<ActionStatus>)
    requires step.LedgerStep? || step.DecideGet? || step.DecidePut? || step.Crash?
    requires Working(At(s, w)) && Cut(s, w, v, attempts, told, trail)
    ensures var t := Next(cfg, s, step);
            && t.rows == s.rows && Cut(t, w, v, attempts, told, trail)
            && (step != Crash(w) && Ends(s, w, v, attempts, told, trail) ==> Ends(t, w, v, attempts, told, trail))
  {
    hide Next, Cut, Ends;
    if step == Crash(w) {
      CrashCuts(cfg, s, w, v, attempts, told, trail);
    } else {
      WorkerIgnores(cfg, s, step, w);
      DecidersClaimNothing(cfg, s, step);
      ForeignCuts(s, Next(cfg, s, step), w, v, attempts, told, trail);
    }
  }

  lemma OutsideCuts(cfg: Config, s: State, step: Step, w: Id, a: Id, v: View, attempts: seq<Attempt>, told: Told,
                    trail: seq<ActionStatus>)
    requires Inv(cfg, s) && Faithful(s) && DispatchStep(step)
    requires Tracks(cfg, s, w, a, v.row, trail) && Cut(s, w, v, attempts, told, trail)
    requires !Working(At(s, w)) || !IsOwn(step, w)
    ensures var t := Next(cfg, s, step);
            && t.rows == s.rows && Cut(t, w, v, attempts, told, trail)
            && (step != Crash(w) && Ends(s, w, v, attempts, told, trail) ==> Ends(t, w, v, attempts, told, trail))
  {
    hide Next, Inv, Faithful, Tracks, Cut, Ends, Working, Busy;
    OthersAreQuiet(cfg, s, w, a, v.row, trail);
    if !Working(At(s, w)) {
      OverCuts(cfg, s, step, w, v, attempts, told, trail);
    } else if OfADispatch(step) {
      StrangerCuts(cfg, s, step, w, v, attempts, told, trail);
    } else {
      BystanderCuts(cfg, s, step, w, v, attempts, told, trail);
    }
  }

  /** A dispatch that is over stays as it ended. */
  lemma OverStays(s: State, t: State, w: Id, v: View, told: Told, trail: seq<ActionStatus>)
    requires !Working(At(s, w)) && !Working(At(t, w))
    ensures PcEnds(v, told, trail, At(s, w)) <==> PcEnds(v, told, trail, At(t, w))
    ensures !BeforeClaim(At(t, w)) && !At(t, w).UpsertWrite?
  {
    hide Finished;
  }

  lemma StepCuts(cfg: Config, s: State, step: Step, w: Id, a: Id, v: View, attempts: seq<Attempt>, told: Told,
                 trail: seq<ActionStatus>)
    requires Inv(cfg, s) && Faithful(s) && Undisturbed(s) && DispatchStep(step) && Views(cfg, v, a, attempts)
    requires Tracks(cfg, s, w, a, v.row, trail) && Cut(s, w, v, attempts, told, trail)
    ensures var (t, heard) := (Next(cfg, s, step), Heard(cfg, s, step, w, told));
            && a in t.rows
            && var longer := Extended(trail, t.rows[a].action.status);
               && Cut(t, w, v, attempts, heard, longer)
               && (step != Crash(w) && !Raises(cfg, s, step) && Ends(s, w, v, attempts, told, trail) ==>
                   Ends(t, w, v, attempts, heard, longer))
  {
    hide Next, Inv, Faithful, Undisturbed, Raises, Views, Ends, Cut, Heard, Knows, PcFaithful, OnTrack, Allowed,
        NeedsApproval;
    if Working(At(s, w)) && IsOwn(step, w) {
      StillKnows(s, w);
      if Upserts(step) {
        UpsertHearsNothing(cfg, s, step, w, told);
        UpsertCuts(cfg, s, step, a, v, attempts, told, trail);
      } else {
        QuietCuts(cfg, s, step, a, v, attempts, told, trail);
        assert Extended(trail, s.rows[a].action.status) == trail;
      }
    } else {
      HeardNothing(cfg, s, step, w, told);
      OutsideCuts(cfg, s, step, w, a, v, attempts, told, trail);
      assert Extended(trail, s.rows[a].action.status) == trail;
    }
  }

  lemma UpsertHearsNothing(cfg: Config, s: State, step: Step, w: Id, told: Told)
    requires Upserts(step)
    ensures Heard(cfg, s, step, w, told) == told
  {
  }

  // ------------------------------------------------------------------- theorem

  /** A dispatch by `w`, with anything beside it but another dispatch, in which `w` does
      not crash and nothing raises. */
  ghost predicate Uncut(cfg: Config, s: State, steps: seq<Step>, w: Id)
    decreases |steps|
  {
    steps == []
    || (var front, step := steps[..|steps| - 1], steps[|steps| - 1];
        && Uncut(cfg, s, front, w) && DispatchStep(step) && step != Crash(w)
        && !Raises(cfg, Exec(cfg, s, front), step))
  }

  lemma {:induction false} UncutSteps(cfg: Config, s: State, steps: seq<Step>, w: Id)
    requires Uncut(cfg, s, steps, w)
    ensures forall i | 0 <= i < |steps| :: DispatchStep(steps[i])
    decreases |steps|
  {
    hide DispatchStep, Raises;
    if steps != [] {
      var front := steps[..|steps| - 1];
      UncutSteps(cfg, s, front, w);
      assert forall i | 0 <= i < |front| :: steps[i] == front[i];
    }
  }

  lemma {:induction false} RunCuts(cfg: Config, s: State, steps: seq<Step>, w: Id, a: Id, v: View)
    requires Inv(cfg, s) && Faithful(s) && OrderInv(s) && Undisturbed(s) && a in s.rows
    requires Tracks(cfg, s, w, a, v.row, [s.rows[a].action.status]) && Views(cfg, v, a, s.attempts)
    requires Cut(s, w, v, s.attempts, NOTHING, [s.rows[a].action.status])
    requires Ends(s, w, v, s.attempts, NOTHING, [s.rows[a].action.status])
    requires forall i | 0 <= i < |steps| :: DispatchStep(steps[i])
    ensures var (t, told, trail) := (Exec(cfg, s, steps), Listened(cfg, s, steps, w), Trail(cfg, s, steps, a));
            && Cut(t, w, v, s.attempts, told, trail)
            && (Uncut(cfg, s, steps, w) ==> Ends(t, w, v, s.attempts, told, trail))
    decreases |steps|
  {
    hide Inv, Faithful, OrderInv, Undisturbed, Next, Views, Ends, Cut, Tracks, Raises, DispatchStep, Heard;
    if steps != [] {
      var front, step := steps[..|steps| - 1], steps[|steps| - 1];
      RunCuts(cfg, s, front, w, a, v);
      RunTracks(cfg, s, front, w, a, v.row);
      StepCuts(cfg, Exec(cfg, s, front), step, w, a, v, s.attempts, Listened(cfg, s, front, w),
               Trail(cfg, s, front, a));
    }
  }

  lemma BeginCuts(cfg: Config, s: State, w: Id, a: Id, v: View)
    requires a in s.rows && At(s, w).Idle? && !s.rows[a].action.depsCut && v.row == Seen(cfg, a, s.rows[a].action)
    ensures var t := Next(cfg, s, Begin(w, a));
            && t.attempts == s.attempts && Ends(t, w, v, s.attempts, NOTHING, [v.row.status])
            && Cut(t, w, v, s.attempts, NOTHING, [v.row.status])
  {
    hide Next, Finished, Begun;
    StartBegun(v, NOTHING);
    Steps.NextBegin(cfg, s, Begin(w, a));
  }

  /** The view of a dispatch of `a` that begins in `t`. */
  function ViewOf(cfg: Config, t: State, a: Id): View
    requires a in t.rows
  {
    View(NeedsApproval(cfg, a), Verdict(cfg, a).outcome == P.Block,
         !P.RequiresTool(cfg.specs(a).payload.actionType), Seen(cfg, a, t.rows[a].action), ClaimedKeys(cfg, t.attempts))
  }

  lemma DispatchCuts(cfg: Config, t: State, w: Id, a: Id, steps: seq<Step>)
    requires Inv(cfg, t) && Faithful(t) && OrderInv(t) && Undisturbed(t) && Sequential(t, Begin(w, a))
    requires a in t.rows && At(t, w).Idle? && !t.rows[a].action.depsCut
    requires forall i | 0 <= i < |steps| :: DispatchStep(steps[i])
    ensures var begun, v := Next(cfg, t, Begin(w, a)), ViewOf(cfg, t, a);
            var told, trail := Listened(cfg, begun, steps, w), Trail(cfg, begun, steps, a);
            && Cut(Exec(cfg, begun, steps), w, v, t.attempts, told, trail)
            && (Uncut(cfg, begun, steps, w) ==> Ends(Exec(cfg, begun, steps), w, v, t.attempts, told, trail))
            && Tracks(cfg, Exec(cfg, begun, steps), w, a, v.row, trail)
  {
    hide Inv, Faithful, OrderInv, Undisturbed, Next, Exec, Sequential, Tracks, Trail, Ends, Cut, Uncut, Listened,
        NeedsApproval, Verdict, ClaimedKeys, DispatchStep, P.RequiresTool;
    var begun := Next(cfg, t, Begin(w, a));
    BeginTracks(cfg, t, w, a);
    BegunSound(cfg, t, w, a);
    RowsUntouched(cfg, t, Begin(w, a));
    BeginCuts(cfg, t, w, a, ViewOf(cfg, t, a));
    RunCuts(cfg, begun, steps, w, a, ViewOf(cfg, t, a));
    RunTracks(cfg, begun, steps, w, a, Seen(cfg, a, t.rows[a].action));
  }

  /** The dispatch model is the protocol's. Let a sequential history from a freshly
      persisted plan come to a dispatch of an action, and let the dispatch go on with
      anything beside it but another dispatch, cut off where it may by a crash or a raise:
      what the row of the action has been through is a beginning of `Orchestrator.Hops`,
      for an environment that answers just as the dispatch has heard. */
  lemma DispatchRefines(cfg: Config, s: State, history: seq<Step>, w: Id, a: Id, steps: seq<Step>)
    requires Init(cfg, s) && SequentialRun(cfg, s, history)
    requires var t := Exec(cfg, s, history); Sequential(t, Begin(w, a)) && At(t, w).Idle? && !t.rows[a].action.depsCut
    requires forall i | 0 <= i < |steps| :: DispatchStep(steps[i])
    ensures var t := Exec(cfg, s, history);
            var begun, v := Next(cfg, t, Begin(w, a)), ViewOf(cfg, t, a);
            exists env :: Agrees(v, Listened(cfg, begun, steps, w), env)
                          && Trail(cfg, begun, steps, a) <= HopsUnder(v, env)
  {
    hide Init, Inv, Faithful, OrderInv, Undisturbed, Next, Exec, Sequential, Trail, Ends, Cut, ViewOf, Listened,
        HopsUnder, Agrees, DispatchStep, Tracks, SequentialRun;
    var t := Exec(cfg, s, history);
    BegunExists(t, w, a);
    var begun := Next(cfg, t, Begin(w, a));
    SequentialRunUndisturbed(cfg, s, history);
    DispatchCuts(cfg, t, w, a, steps);
    CutIsBegun(Exec(cfg, begun, steps), w, ViewOf(cfg, t, a), t.attempts, Listened(cfg, begun, steps, w),
               Trail(cfg, begun, steps, a));
  }

  lemma BegunExists(t: State, w: Id, a: Id)
    requires Sequential(t, Begin(w, a))
    ensures a in t.rows
  {
  }

  lemma CutIsBegun(s: State, w: Id, v: View, attempts: seq<Attempt>, told: Told, trail: seq<ActionStatus>)
    requires Cut(s, w, v, attempts, told, trail)
    ensures exists env :: Agrees(v, told, env) && trail <= HopsUnder(v, env)
  {
  }

  /** A dispatch that neither crashes nor raises ends at the last hop. Run to its end, with
      anything beside it but another dispatch, what the row has been through is
      `Orchestrator.Hops`, all of it, for the execution keys claimed when the dispatch
      began and the environment it has met: its `executed` is what the dispatch's adapter
      call said, its `verified` what the verification said, and its approval, budget and
      gates what the dispatch found. */
  lemma DispatchReturns(cfg: Config, s: State, history: seq<Step>, w: Id, a: Id, steps: seq<Step>)
    requires Init(cfg, s) && SequentialRun(cfg, s, history)
    requires var t := Exec(cfg, s, history); Sequential(t, Begin(w, a)) && At(t, w).Idle? && !t.rows[a].action.depsCut
    requires var begun := Next(cfg, Exec(cfg, s, history), Begin(w, a));
             Uncut(cfg, begun, steps, w) && !Working(At(Exec(cfg, begun, steps), w))
    ensures var t := Exec(cfg, s, history);
            var begun, v := Next(cfg, t, Begin(w, a)), ViewOf(cfg, t, a);
            Trail(cfg, begun, steps, a) == HopsUnder(v, EnvOf(v, Listened(cfg, begun, steps, w)))
  {
    ReturnsFinished(cfg, s, history, w, a, steps);
    hide Init, SequentialRun, Sequential, Next, Exec, Trail, ViewOf, Listened, HopsUnder, EnvOf, Uncut;
  }

  lemma ReturnsFinished(cfg: Config, s: State, history: seq<Step>, w: Id, a: Id, steps: seq<Step>)
    requires Init(cfg, s) && SequentialRun(cfg, s, history)
    requires var t := Exec(cfg, s, history); Sequential(t, Begin(w, a)) && At(t, w).Idle? && !t.rows[a].action.depsCut
    requires var begun := Next(cfg, Exec(cfg, s, history), Begin(w, a));
             Uncut(cfg, begun, steps, w) && !Working(At(Exec(cfg, begun, steps), w))
    ensures var t := Exec(cfg, s, history);
            var begun, v := Next(cfg, t, Begin(w, a)), ViewOf(cfg, t, a);
            && Finished(v, Listened(cfg, begun, steps, w), Trail(cfg, begun, steps, a))
            && a in Exec(cfg, begun, steps).rows && Trail(cfg, begun, steps, a) != []
            && Last(Trail(cfg, begun, steps, a)) == Exec(cfg, begun, steps).rows[a].action.status
  {
    hide Init, Inv, Faithful, OrderInv, Undisturbed, Next, Exec, Sequential, Trail, Working, Uncut, ViewOf, Listened,
        Finished, DispatchStep, Allowed, OnTrack, SequentialRun;
    var t := Exec(cfg, s, history);
    BegunExists(t, w, a);
    var begun := Next(cfg, t, Begin(w, a));
    SequentialRunUndisturbed(cfg, s, history);
    UncutSteps(cfg, begun, steps, w);
    DispatchCuts(cfg, t, w, a, steps);
    OverIsFinished(Exec(cfg, begun, steps), w, ViewOf(cfg, t, a), Listened(cfg, begun, steps, w),
                   Trail(cfg, begun, steps, a));
  }

  lemma OverIsFinished(s: State, w: Id, v: View, told: Told, trail: seq<ActionStatus>)
    requires PcEnds(v, told, trail, At(s, w)) && !Working(At(s, w))
    ensures Finished(v, told, trail)
  {
    hide Finished;
  }

  /** The adapter's word is what counts: an action whose adapter a dispatch has called is
      COMPLETED when the dispatch returns exactly if the adapter said that it succeeded and
      that its effect verifies, and FAILED otherwise. */
  lemma CalledIsJudged(cfg: Config, s: State, history: seq<Step>, w: Id, a: Id, steps: seq<Step>)
    requires Init(cfg, s) && SequentialRun(cfg, s, history)
    requires var t := Exec(cfg, s, history); Sequential(t, Begin(w, a)) && At(t, w).Idle? && !t.rows[a].action.depsCut
    requires var begun := Next(cfg, Exec(cfg, s, history), Begin(w, a));
             && Uncut(cfg, begun, steps, w) && !Working(At(Exec(cfg, begun, steps), w))
             && Listened(cfg, begun, steps, w).executed.Some?
    ensures var begun := Next(cfg, Exec(cfg, s, history), Begin(w, a));
            var told, t := Listened(cfg, begun, steps, w), Exec(cfg, begun, steps);
            && a in t.rows
            && t.rows[a].action.status ==
               if told.executed == Some(true) && told.verified == Some(true) then Completed else Failed
  {
    ReturnsFinished(cfg, s, history, w, a, steps);
    var begun := Next(cfg, Exec(cfg, s, history), Begin(w, a));
    hide Init, SequentialRun, Sequential, Next, Exec, Trail, ViewOf, Listened, Uncut, Finished, Working;
    JudgedLast(ViewOf(cfg, Exec(cfg, s, history), a), Listened(cfg, begun, steps, w), Trail(cfg, begun, steps, a));
  }

  lemma JudgedLast(v: View, told: Told, trail: seq<ActionStatus>)
    requires Finished(v, told, trail) && told.executed.Some? && trail != []
    ensures Last(trail) == if told.executed == Some(true) && told.verified == Some(true) then Completed else Failed
  {
  }

  /** And what a dispatch has heard of its adapter is what its own steps have said. */
  lemma {:induction false} VerdictsAreTheSteps(cfg: Config, s: State, steps: seq<Step>, w: Id)
    ensures var told := Listened(cfg, s, steps, w);
            && (told.executed.Some? <==>
                exists k | 0 <= k < |steps| :: steps[k].CallAdapter? && steps[k].w == w
                                               && At(Exec(cfg, s, steps[..k]), w).Calling?)
            && (told.executed.Some? ==> exists k | 0 <= k < |steps| ::
                  steps[k] == CallAdapter(w, told.executed.value) && At(Exec(cfg, s, steps[..k]), w).Calling?)
            && (told.verified.Some? ==> exists k | 0 <= k < |steps| ::
                  steps[k] == Verify(w, told.verified.value) && At(Exec(cfg, s, steps[..k]), w).Checking?)
    decreases |steps|
  {
    hide Exec;
    if steps != [] {
      var n := |steps| - 1;
      var front := steps[..n];
      VerdictsAreTheSteps(cfg, s, front, w);
      HeardVerdicts(cfg, Exec(cfg, s, front), steps[n], w, Listened(cfg, s, front, w));
      hide Heard;
      assert forall k | 0 <= k < n :: steps[..k] == front[..k] && steps[k] == front[k];
      assert steps[..n] == front;
    }
  }

  lemma HeardVerdicts(cfg: Config, s: State, step: Step, w: Id, told: Told)
    ensures var heard := Heard(cfg, s, step, w, told);
            && heard.executed == (if step.CallAdapter? && step.w == w && At(s, w).Calling? then Some(step.success)
                                  else told.executed)
            && heard.verified == (if step.Verify? && step.w == w && At(s, w).Checking? then Some(step.passed)
                                  else told.verified)
  {
    hide Viewed, Refuses, CostOf, A.Consumable, HashOf, Steps.PassesByApproval, Steps.PassesUngated, Equipped;
  }
}
