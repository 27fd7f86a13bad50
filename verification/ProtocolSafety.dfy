/** Safety of the execution protocol over every interleaving of workers, crashes,
    retries, reconciliations, replans and human decisions. */
module ProtocolSafety {
  import opened Domain
  import P = Permission
  import A = Approval
  import L = Ledger
  import opened Protocol

  // ------------------------------------------------------------- vocabulary

  predicate NeedsApproval(cfg: Config, a: Id) {
    Verdict(cfg, a).outcome == P.RequireApproval
  }

  predicate Authoritative(cfg: Config, a: Id, action: Action) {
    && action.level == Verdict(cfg, a).level && action.risk == Verdict(cfg, a).risk
    && action.approvalRequired == Verdict(cfg, a).approvalRequired
  }

  /** The hash every permission-checked version of an action has. */
  function AuthorizedHash(cfg: Config, a: Id): A.Hash {
    var payload, verdict := cfg.specs(a).payload, Verdict(cfg, a);
    A.Hash(payload.actionType, payload.toolName, payload.inputs.value, payload.expectedResult, verdict.level,
           verdict.risk)
  }

  lemma DecisionIsVerdict(cfg: Config, a: Id, action: Action)
    requires action.payload == cfg.specs(a).payload
    ensures var d, v := DecisionFor(cfg, action), Verdict(cfg, a);
            && d.outcome == v.outcome && d.level == v.level && d.risk == v.risk
            && d.approvalRequired == v.approvalRequired
  {
    P.ProposedLevelsAreIgnored(ProposalOf(action.payload, action.level, action.risk), P.Read, P.Low, cfg.registry);
  }

  /** The verdict asks for an approval exactly when it says so. */
  lemma GatedIsMarked(cfg: Config, a: Id)
    ensures NeedsApproval(cfg, a) <==> Verdict(cfg, a).approvalRequired
  {
    P.OutcomeCharacterised(ProposalOf(cfg.specs(a).payload, P.Read, P.Low), cfg.registry);
  }

  predicate ActionOk(cfg: Config, a: Id, action: Action) {
    && Stored(cfg, a, action)
    && action.retryCount <= cfg.specs(a).maxRetries
    && action.status != VerificationFailed
    && (action.status !in {Planned, Validated} ==> Authoritative(cfg, a, action))
    && (action.status in {WaitingForApproval, ActionStatus.Approved} ==> NeedsApproval(cfg, a))
  }

  /** What a durable upsert may write. */
  predicate TargetOk(cfg: Config, a: Id, target: Action) {
    ActionOk(cfg, a, target) && target.status !in {Planned, Validated}
  }

  // ----------------------------------------------------------------- budget

  predicate TypedRequest(cfg: Config, request: L.Request) {
    && (request.key.budgetType == L.ActionAttempts || request.scope == AttemptsScope(cfg) ==>
          request == AttemptsRequest(cfg, request.key.subject, request.key.number))
    && (request.key.budgetType == L.EstimatedCost || request.scope == CostScope(cfg) ==>
          request == CostRequest(cfg, request.key.subject, request.key.number))
  }

  predicate TypedEvent(cfg: Config, event: L.Event) {
    && (event.key.budgetType == L.ActionAttempts || event.scope == AttemptsScope(cfg) ==>
          event.scope == AttemptsScope(cfg) && event.delta == 1.0)
    && (event.key.budgetType == L.EstimatedCost || event.scope == CostScope(cfg) ==>
          event.scope == CostScope(cfg) && event.delta == CostOf(cfg, event.key.subject))
  }

  ghost predicate LedgerOk(cfg: Config, ledger: L.State) {
    && L.Inv(ledger)
    && cfg.budgets <= ledger.accounts.Keys
    && (forall i | 0 <= i < |ledger.calls| ::
          TypedRequest(cfg, ledger.calls[i].request)
          && (ledger.calls[i].phase == L.Done(L.Unlimited) ==> ledger.calls[i].request.scope !in cfg.budgets))
    && (forall i | 0 <= i < |ledger.events| :: TypedEvent(cfg, ledger.events[i]))
  }

  /** The budget gate was passed for this attempt of this action. */
  ghost predicate Paid(cfg: Config, ledger: L.State, a: Id, number: nat) {
    && (AttemptsScope(cfg) in cfg.budgets ==> L.AppliedFor(ledger.events, AttemptsRequest(cfg, a, number)))
    && (CostScope(cfg) in cfg.budgets && CostOf(cfg, a) != 0.0 ==>
        L.AppliedFor(ledger.events, CostRequest(cfg, a, number)))
  }

  ghost predicate LedgerGrows(l: L.State, m: L.State) {
    && L.Grows(l, m)
    && |l.calls| <= |m.calls|
    && (forall i | 0 <= i < |l.calls| :: m.calls[i].request == l.calls[i].request)
  }

  // -------------------------------------------------------------- invariant

  /** A row read earlier: versions never run backwards and identify the row. */
  predicate Remembers(s: State, a: Id, seen: Row) {
    a in s.rows && seen.version <= s.rows[a].version && (seen.version == s.rows[a].version ==> s.rows[a] == seen)
  }

  /** A consumed approval fit for a call of action `a`. */
  predicate GrantOk(cfg: Config, s: State, a: Id, grant: Grant) {
    var request := grant.request;
    && grant.id in s.approvals && grant.id in s.consumers
    && s.approvals[grant.id].consumed
    && s.approvals[grant.id].actionId == request.actionId == a
    && s.approvals[grant.id].hash == request.hash == AuthorizedHash(cfg, a)
    && s.approvals[grant.id].requestedBy == request.requestedBy
    && request.status == A.Status.Approved
    && request.decidedBy.Some? && request.decidedBy.value != request.requestedBy
    && !A.IsExpired(request, grant.at)
  }

  predicate HoldsGrant(cfg: Config, s: State, w: Id, a: Id, grant: Grant) {
    && GrantOk(cfg, s, a, grant)
    && s.consumers[grant.id] == w
    && (forall i | 0 <= i < |s.calls| && s.calls[i].grant.Some? :: s.calls[i].grant.value.id != grant.id)
  }

  predicate HoldsAttempt(s: State, w: Id, attempt: nat, key: ExecKey) {
    && attempt < |s.attempts| && s.attempts[attempt] == Attempt(key, w)
    && (forall i | 0 <= i < |s.calls| :: s.calls[i].attempt != attempt)
  }

  /** Every gate of the executor has been passed. */
  ghost predicate CtxOk(cfg: Config, s: State, w: Id, a: Id, ctx: Ctx) {
    && ActionOk(cfg, a, ctx.action)
    && ctx.action.status in {PermissionChecked, ActionStatus.Approved}
    && Verdict(cfg, a).outcome != P.Block
    && ctx.retry <= cfg.specs(a).maxRetries
    && Paid(cfg, s.ledger, a, ctx.paid)
    && (if NeedsApproval(cfg, a) then ctx.retry == 0 && ctx.grant.Some? && HoldsGrant(cfg, s, w, a, ctx.grant.value)
        else ctx.paid == ctx.retry && ctx.grant.None?)
  }

  ghost predicate AfterOk(cfg: Config, s: State, w: Id, a: Id, after: After) {
    match after
    case Return => true
    case Toolless(_) => true
    case Execute(_, paid) => Paid(cfg, s.ledger, a, paid) && NeedsApproval(cfg, a)
    case Claim(ctx) => CtxOk(cfg, s, w, a, ctx)
    case Dispatch(ctx, attempt, key) =>
      && CtxOk(cfg, s, w, a, ctx) && HoldsAttempt(s, w, attempt, key)
      && key == ExecKey(a, AuthorizedHash(cfg, a), ctx.retry)
    case Tail(action) => TargetOk(cfg, a, action)
    case Conclude(action) => TargetOk(cfg, a, action)
  }

  /** A worker between the budget gate's two requests. */
  ghost predicate TicketOk(cfg: Config, s: State, a: Id, action: Action, approval: Option<(Id, A.Request)>, ticket: nat,
                           request: L.Request) {
    && ActionOk(cfg, a, action)
    && ticket < |s.ledger.calls| && s.ledger.calls[ticket].request == request
    && action.status == (if approval.Some? then WaitingForApproval else PermissionChecked)
  }

  /** What a worker knows at each point. */
  ghost predicate PcInv(cfg: Config, s: State, w: Id, pc: Pc) {
    match pc
    case Idle => true
    case Loaded(a, action) => ActionOk(cfg, a, action)
    case Expiring(a, action, _, expired) => ActionOk(cfg, a, action) && action.status == WaitingForApproval
        && expired.status == A.Status.Expired
    case Budgeting(a, action, approval, ticket) => TicketOk(cfg, s, a, action, approval, ticket,
                                                            AttemptsRequest(cfg, a, action.retryCount))
    case Costing(a, action, approval, ticket) =>
      && TicketOk(cfg, s, a, action, approval, ticket, CostRequest(cfg, a, action.retryCount))
      && (AttemptsScope(cfg) in cfg.budgets ==>
          L.AppliedFor(s.ledger.events, AttemptsRequest(cfg, a, action.retryCount)))
    case Entering(a, action, retry, paid, permit) => EntryOk(cfg, s, a, action, retry, paid, permit)
    case Gating(a, action, retry, paid, permit) => EntryOk(cfg, s, a, action, retry, paid, permit)
    case Consuming(a, ctx, _, loaded) =>
      && EntryOk(cfg, s, a, ctx.action, ctx.retry, ctx.paid, Some(0)) && ctx.action.status == ActionStatus.Approved
      && loaded.hash == HashOf(ctx.action)
    case UpsertRead(a, target, _, after) =>
      TargetOk(cfg, a, target) && AfterOk(cfg, s, w, a, after) && (after.Claim? ==> target == after.ctx.action)
    case UpsertWrite(a, target, _, seen, after) =>
      && TargetOk(cfg, a, target) && AfterOk(cfg, s, w, a, after) && (after.Claim? ==> target == after.ctx.action)
      && (seen.Some? ==> Remembers(s, a, seen.value) && !LeavesAlone(seen.value, target))
    case UpsertReload(a, after) =>
      AfterOk(cfg, s, w, a, after) && a in s.rows && Authoritative(cfg, a, s.rows[a].action)
    case Claiming(a, ctx, hash) => CtxOk(cfg, s, w, a, ctx) && hash == AuthorizedHash(cfg, a)
    case Calling(a, ctx, attempt, key) => AfterOk(cfg, s, w, a, Dispatch(ctx, attempt, key))
    case Checking(a, action) => TargetOk(cfg, a, action)
    case Failing(a, action) => TargetOk(cfg, a, action)
    case RetryRead(a) => !NeedsApproval(cfg, a)
    case RetryWrite(a, base) =>
      Remembers(s, a, base) && Retryable(base, cfg.specs(a).maxRetries) && !NeedsApproval(cfg, a)
    case ReconcileWrite(a, base, goal) =>
      && Remembers(s, a, base) && InProgress(base.action.status) && CanTransition(base.action.status, goal)
      && goal in {ExecutionSucceeded, Verifying, Verified, Completed}
    case PatchWrite(a, base, _) => Remembers(s, a, base) && !base.action.depsCut
    case Freezing(_, _) => true
    case Deciding(request, loaded) => request in s.approvals && loaded.requestedBy == s.approvals[request].requestedBy
  }

  ghost predicate EntryOk(cfg: Config, s: State, a: Id, action: Action, retry: nat, paid: nat, permit: Option<Id>) {
    && ActionOk(cfg, a, action) && Authoritative(cfg, a, action) && Paid(cfg, s.ledger, a, paid)
    && (if permit.Some? then retry == 0 && NeedsApproval(cfg, a) else retry == paid == action.retryCount)
  }

  /** An adapter call and everything that had to happen before it. */
  ghost predicate CallOk(cfg: Config, s: State, call: AdapterCall) {
    var a := call.key.action;
    && call.attempt < |s.attempts| && s.attempts[call.attempt].key == call.key
    && call.key.hash == AuthorizedHash(cfg, a)
    && call.key.retry <= cfg.specs(a).maxRetries
    && Verdict(cfg, a).outcome != P.Block
    && Paid(cfg, s.ledger, a, call.paid)
    && (if NeedsApproval(cfg, a) then call.key.retry == 0 && call.grant.Some? && GrantOk(cfg, s, a, call.grant.value)
        else call.paid == call.key.retry && call.grant.None?)
  }

  predicate ApprovalsOk(s: State) {
    && s.consumers.Keys <= s.approvals.Keys
    && (forall r | r in s.approvals ::
          && (s.approvals[r].status == A.Status.Approved ==>
                s.approvals[r].decidedBy.Some? && s.approvals[r].decidedBy.value != s.approvals[r].requestedBy)
          && (r in s.consumers <==> s.approvals[r].consumed))
  }

  predicate AttemptsOk(s: State) {
    forall i, j | 0 <= i < j < |s.attempts| :: s.attempts[i].key != s.attempts[j].key
  }

  predicate CallsDistinct(s: State) {
    && (forall i, j | 0 <= i < j < |s.calls| :: s.calls[i].attempt != s.calls[j].attempt)
    && (forall i, j | 0 <= i < j < |s.calls| && s.calls[i].grant.Some? && s.calls[j].grant.Some? ::
          s.calls[i].grant.value.id != s.calls[j].grant.value.id)
  }

  ghost predicate DataInv(cfg: Config, s: State) {
    && (forall a | a in s.rows :: ActionOk(cfg, a, s.rows[a].action))
    && ApprovalsOk(s) && AttemptsOk(s) && LedgerOk(cfg, s.ledger)
    && CallsDistinct(s)
    && (forall i | 0 <= i < |s.calls| :: CallOk(cfg, s, s.calls[i]))
  }

  ghost predicate Inv(cfg: Config, s: State) {
    DataInv(cfg, s) && forall w | w in s.workers :: PcInv(cfg, s, w, s.workers[w])
  }

  /** How a step of worker `w` may change what the others rely on. */
  ghost predicate Evolves(cfg: Config, s: State, t: State, w: Id) {
    && RowsEvolve(cfg, s, t)
    && ApprovalsEvolve(s, t)
    && |s.attempts| <= |t.attempts| && t.attempts[..|s.attempts|] == s.attempts
    && LedgerGrows(s.ledger, t.ledger)
    && CallsEvolve(s, t, w)
  }

  predicate RowsEvolve(cfg: Config, s: State, t: State) {
    forall a | a in s.rows ::
      && a in t.rows && s.rows[a].version <= t.rows[a].version
      && (s.rows[a].version == t.rows[a].version ==> t.rows[a] == s.rows[a])
      && (Authoritative(cfg, a, s.rows[a].action) ==> Authoritative(cfg, a, t.rows[a].action))
  }

  predicate ApprovalsEvolve(s: State, t: State) {
    && (forall r | r in s.approvals ::
          && r in t.approvals
          && t.approvals[r].actionId == s.approvals[r].actionId && t.approvals[r].hash == s.approvals[r].hash
          && t.approvals[r].requestedBy == s.approvals[r].requestedBy
          && (s.approvals[r].consumed ==> t.approvals[r].consumed))
    && (forall r | r in s.consumers :: r in t.consumers && t.consumers[r] == s.consumers[r])
  }

  ghost predicate CallsEvolve(s: State, t: State, w: Id) {
    t.calls == s.calls
    || (exists call :: t.calls == s.calls + [call] && ByWorker(s, call, w))
  }

  predicate ByWorker(s: State, call: AdapterCall, w: Id) {
    && call.attempt < |s.attempts| && s.attempts[call.attempt].owner == w
    && (call.grant.Some? ==> call.grant.value.id in s.consumers && s.consumers[call.grant.value.id] == w)
  }

  // -------------------------------------------------- knowledge is stable

  lemma AppliedStable(l: L.State, m: L.State, request: L.Request)
    requires L.Grows(l, m) && L.AppliedFor(l.events, request)
    ensures L.AppliedFor(m.events, request)
  {
    var i :| 0 <= i < |l.events| && l.events[i] == L.Event(request.scope, request.key, request.amount, true);
    assert m.events[i] == l.events[i];
  }

  lemma PaidStable(cfg: Config, l: L.State, m: L.State, a: Id, number: nat)
    requires L.Grows(l, m) && Paid(cfg, l, a, number)
    ensures Paid(cfg, m, a, number)
  {
    if L.AppliedFor(l.events, AttemptsRequest(cfg, a, number)) {
      AppliedStable(l, m, AttemptsRequest(cfg, a, number));
    }
    if L.AppliedFor(l.events, CostRequest(cfg, a, number)) {
      AppliedStable(l, m, CostRequest(cfg, a, number));
    }
  }

  lemma HoldsStable(cfg: Config, s: State, t: State, actor: Id, w: Id)
    requires Evolves(cfg, s, t, actor) && (w != actor || t.calls == s.calls)
    ensures forall a, grant :: HoldsGrant(cfg, s, w, a, grant) ==> HoldsGrant(cfg, t, w, a, grant)
    ensures forall attempt: nat, key :: HoldsAttempt(s, w, attempt, key) ==> HoldsAttempt(t, w, attempt, key)
  {
    forall a, grant | HoldsGrant(cfg, s, w, a, grant)
      ensures HoldsGrant(cfg, t, w, a, grant)
    {
    }
    forall attempt: nat, key | HoldsAttempt(s, w, attempt, key)
      ensures HoldsAttempt(t, w, attempt, key)
    {
      assert t.attempts[attempt] == s.attempts[attempt];
    }
  }

  lemma CtxStable(cfg: Config, s: State, t: State, actor: Id, w: Id, a: Id, ctx: Ctx)
    requires Evolves(cfg, s, t, actor) && (w != actor || t.calls == s.calls) && CtxOk(cfg, s, w, a, ctx)
    ensures CtxOk(cfg, t, w, a, ctx)
  {
    PaidStable(cfg, s.ledger, t.ledger, a, ctx.paid);
    HoldsStable(cfg, s, t, actor, w);
  }

  lemma AfterStable(cfg: Config, s: State, t: State, actor: Id, w: Id, a: Id, after: After)
    requires Evolves(cfg, s, t, actor) && (w != actor || t.calls == s.calls) && AfterOk(cfg, s, w, a, after)
    ensures AfterOk(cfg, t, w, a, after)
  {
    match after
    case Execute(_, paid) => PaidStable(cfg, s.ledger, t.ledger, a, paid);
    case Claim(ctx) => CtxStable(cfg, s, t, actor, w, a, ctx);
    case Dispatch(ctx, attempt, key) =>
      CtxStable(cfg, s, t, actor, w, a, ctx);
      HoldsStable(cfg, s, t, actor, w);
      assert HoldsAttempt(s, w, attempt, key);
    case _ =>
  }

  /** What a worker knows survives every step of the others. */
  lemma PcStable(cfg: Config, s: State, t: State, actor: Id, w: Id, pc: Pc)
    requires Evolves(cfg, s, t, actor) && (w != actor || t.calls == s.calls) && PcInv(cfg, s, w, pc)
    ensures PcInv(cfg, t, w, pc)
  {
    match pc
    case Costing(a, action, _, _) =>
      if L.AppliedFor(s.ledger.events, AttemptsRequest(cfg, a, action.retryCount)) {
        AppliedStable(s.ledger, t.ledger, AttemptsRequest(cfg, a, action.retryCount));
      }
    case Entering(a, _, _, paid, _) => PaidStable(cfg, s.ledger, t.ledger, a, paid);
    case Gating(a, _, _, paid, _) => PaidStable(cfg, s.ledger, t.ledger, a, paid);
    case Consuming(a, ctx, _, _) => PaidStable(cfg, s.ledger, t.ledger, a, ctx.paid);
    case UpsertRead(a, _, _, after) => AfterStable(cfg, s, t, actor, w, a, after);
    case UpsertWrite(a, _, _, _, after) => AfterStable(cfg, s, t, actor, w, a, after);
    case UpsertReload(a, after) => AfterStable(cfg, s, t, actor, w, a, after);
    case Claiming(a, ctx, _) => CtxStable(cfg, s, t, actor, w, a, ctx);
    case Calling(a, ctx, attempt, key) => AfterStable(cfg, s, t, actor, w, a, Dispatch(ctx, attempt, key));
    case _ =>
  }

  lemma CallStable(cfg: Config, s: State, t: State, actor: Id, call: AdapterCall)
    requires Evolves(cfg, s, t, actor) && CallOk(cfg, s, call)
    ensures CallOk(cfg, t, call)
  {
    PaidStable(cfg, s.ledger, t.ledger, call.key.action, call.paid);
    assert t.attempts[call.attempt] == s.attempts[call.attempt];
  }

  // ------------------------------------------------------------ ledger side

  lemma {:induction false} LedgerStepOk(cfg: Config, l: L.State, step: L.Step)
    requires LedgerOk(cfg, l) && (step.Submit? ==> TypedRequest(cfg, step.request))
    ensures LedgerOk(cfg, L.Next(l, step)) && LedgerGrows(l, L.Next(l, step))
  {
    L.StepKeepsInv(l, step);
    L.StepGrows(l, step);
    L.StepShape(l, step);
    LedgerStepTyped(cfg, l, L.Next(l, step), step);
  }

  lemma {:induction false} LedgerStepTyped(cfg: Config, l: L.State, m: L.State, step: L.Step)
    requires LedgerOk(cfg, l) && (step.Submit? ==> TypedRequest(cfg, step.request))
    requires L.Inv(m) && l.accounts.Keys <= m.accounts.Keys && |l.calls| <= |m.calls|
    requires forall i | 0 <= i < |l.calls| :: m.calls[i].request == l.calls[i].request
    requires forall i | |l.calls| <= i < |m.calls| ::
              step.Submit? && m.calls[i] == L.Call(step.request, L.LookUpEvent, 0.0)
    requires forall i | 0 <= i < |l.calls| && m.calls[i].phase == L.Done(L.Unlimited) ::
               l.calls[i].phase == L.Done(L.Unlimited) || l.calls[i].request.scope !in l.accounts
    requires m.events == l.events
             || (step.Run? && step.caller < |l.calls|
                 && var request := l.calls[step.caller].request;
                    exists applied ::
                        m.events == l.events + [L.Event(request.scope, request.key, request.amount, applied)])
    ensures LedgerOk(cfg, m)
  {
    forall i | 0 <= i < |m.calls|
      ensures TypedRequest(cfg, m.calls[i].request)
      ensures m.calls[i].phase == L.Done(L.Unlimited) ==> m.calls[i].request.scope !in cfg.budgets
    {
      if i < |l.calls| {
        assert TypedRequest(cfg, l.calls[i].request);
      }
    }
    forall i | 0 <= i < |m.events|
      ensures TypedEvent(cfg, m.events[i])
    {
      if i < |l.events| {
        assert m.events[i] == l.events[i];
      } else {
        assert TypedRequest(cfg, l.calls[step.caller].request);
      }
    }
  }

  /** A granted request on an open account is an applied event. */
  lemma GrantIsApplied(cfg: Config, l: L.State, ticket: nat, request: L.Request)
    requires LedgerOk(cfg, l) && ticket < |l.calls| && l.calls[ticket].request == request
    requires l.calls[ticket].phase.Done? && L.IsGrant(l.calls[ticket].phase.outcome)
    requires request.scope in cfg.budgets
    requires exists a, number :: request == AttemptsRequest(cfg, a, number) || request == CostRequest(cfg, a, number)
    ensures L.AppliedFor(l.events, request)
  {
    assert L.CallInv(l, l.calls[ticket]);
    if l.calls[ticket].phase.outcome.Replayed? {
      var i :| 0 <= i < |l.events| && l.events[i].key == request.key && l.events[i].applied;
      assert TypedEvent(cfg, l.events[i]);
      assert l.events[i] == L.Event(request.scope, request.key, request.amount, true);
    }
  }
}
