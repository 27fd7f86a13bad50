/** Every step of the protocol keeps the invariant of `ProtocolSafety`, one lemma a
    group of steps. */
module ProtocolSteps {
  import opened Domain
  import P = Permission
  import A = Approval
  import L = Ledger
  import R = Recovery
  import H = PlanHash
  import opened Protocol
  import opened ProtocolSafety

  /** A step of worker `w` that keeps the data sound, tells `w` no more than is true
      and touches nobody else's position. */
  ghost predicate Good(cfg: Config, s: State, t: State, w: Id) {
    && Evolves(cfg, s, t, w)
    && DataInv(cfg, t)
    && PcInv(cfg, t, w, At(t, w))
    && (forall v | v != w :: At(t, v) == At(s, v))
  }

  // ------------------------------------------------------ whose step it is

  lemma NextUpsert(cfg: Config, s: State, step: Step)
    requires Upserts(step)
    ensures step.UpsertGet? ==> Next(cfg, s, step) == StepUpsertGet(s, step.w)
    ensures step.UpsertPut? ==> Next(cfg, s, step) == StepUpsertPut(cfg, s, step.w)
    ensures step.UpsertGot? ==> Next(cfg, s, step) == StepUpsertGot(s, step.w)
  {
    hide StepUpsertGet, StepUpsertPut, StepUpsertGot;
  }

  lemma NextCall(cfg: Config, s: State, step: Step)
    requires step.CallAdapter? || step.Verify?
    ensures step.CallAdapter? ==> Next(cfg, s, step) == StepCall(s, step.w, step.success)
    ensures step.Verify? ==> Next(cfg, s, step) == StepVerify(s, step.w, step.passed)
  {
    hide StepCall, StepVerify;
  }

  lemma NextLoaded(cfg: Config, s: State, step: Step)
    requires Advances(step)
    ensures Next(cfg, s, step) == StepLoaded(cfg, s, step.w, step)
  {
    hide StepLoaded;
  }

  lemma NextGate(cfg: Config, s: State, step: Step)
    ensures step.SyncExpiry? ==> Next(cfg, s, step) == StepExpiry(s, step.w)
    ensures step.Settle? ==> Next(cfg, s, step) == StepSettle(cfg, s, step.w, step.now)
    ensures step.Enter? ==> Next(cfg, s, step) == StepEnter(s, step.w)
    ensures step.Gate? ==> Next(cfg, s, step) == StepGate(cfg, s, step.w, step.now)
    ensures step.Consume? ==> Next(cfg, s, step) == StepConsume(s, step.w, step.now)
    ensures step.ClaimAttempt? ==> Next(cfg, s, step) == StepClaim(cfg, s, step.w)
  {
    hide StepExpiry, StepSettle, StepEnter, StepGate, StepConsume, StepClaim;
  }

  lemma NextRetry(cfg: Config, s: State, step: Step)
    requires Retries(step)
    ensures Next(cfg, s, step) == StepRetry(cfg, s, step.w, step)
  {
    hide StepRetry;
  }

  lemma NextReconcile(cfg: Config, s: State, step: Step)
    requires Reconciles(step)
    ensures Next(cfg, s, step) == StepReconcile(s, step.w, step)
  {
    hide StepReconcile;
  }

  lemma NextReplan(cfg: Config, s: State, step: Step)
    requires Replans(step)
    ensures Next(cfg, s, step) == StepReplan(cfg, s, step)
  {
    hide StepReplan;
  }

  lemma NextRefreeze(cfg: Config, s: State, step: Step)
    requires Refreezes(step)
    ensures Next(cfg, s, step) == StepRefreeze(cfg, s, step)
  {
    hide StepRefreeze;
  }

  lemma NextDecide(cfg: Config, s: State, step: Step)
    requires Decides(step)
    ensures Next(cfg, s, step) == StepDecide(s, step)
  {
    hide StepDecide;
  }

  lemma NextCrash(cfg: Config, s: State, step: Step)
    requires step.Crash?
    ensures Next(cfg, s, step) == Go(s, step.w, Idle)
  {
  }

  lemma NextBegin(cfg: Config, s: State, step: Step)
    requires step.Begin?
    ensures Next(cfg, s, step) ==
              if At(s, step.w).Idle? && step.a in s.rows && !s.rows[step.a].action.depsCut
              then Go(s, step.w, Loaded(step.a, s.rows[step.a].action)) else s
  {
  }

  lemma AtInv(cfg: Config, s: State, w: Id)
    requires Inv(cfg, s)
    ensures PcInv(cfg, s, w, At(s, w))
  {
  }

  /** What the three guarded writers know about the row they loaded. */
  lemma WriterKnows(cfg: Config, s: State, w: Id)
    requires Inv(cfg, s)
    ensures var pc := At(s, w);
            && (pc.RetryWrite? ==>
                  Remembers(s, pc.a, pc.base) && Retryable(pc.base, cfg.specs(pc.a).maxRetries)
                      && !NeedsApproval(cfg, pc.a))
            && (pc.ReconcileWrite? ==>
                  && Remembers(s, pc.a, pc.base) && InProgress(pc.base.action.status)
                  && CanTransition(pc.base.action.status, pc.goal)
                  && pc.goal in {ExecutionSucceeded, Verifying, Verified, Completed})
            && (pc.PatchWrite? ==> Remembers(s, pc.a, pc.base) && !pc.base.action.depsCut)
  {
    AtInv(cfg, s, w);
    hide Inv;
  }

  lemma DataIsOk(cfg: Config, s: State)
    requires Inv(cfg, s)
    ensures DataInv(cfg, s)
  {
  }

  lemma LedgerIsOk(cfg: Config, s: State)
    requires Inv(cfg, s)
    ensures LedgerOk(cfg, s.ledger)
  {
  }

  lemma RowOk(cfg: Config, s: State, a: Id)
    requires Inv(cfg, s) && a in s.rows
    ensures ActionOk(cfg, a, s.rows[a].action)
  {
  }

  lemma GoodKeepsInv(cfg: Config, s: State, t: State, w: Id)
    requires Inv(cfg, s) && Good(cfg, s, t, w)
    ensures Inv(cfg, t)
  {
    forall v | v in t.workers
      ensures PcInv(cfg, t, v, t.workers[v])
    {
      if v == w {
        assert At(t, w) == t.workers[w];
      } else {
        assert At(t, v) == At(s, v);
        AtInv(cfg, s, v);
        PcStable(cfg, s, t, w, v, At(s, v));
      }
    }
  }

  lemma Unchanged(cfg: Config, s: State, w: Id)
    requires Inv(cfg, s)
    ensures Good(cfg, s, s, w)
  {
    AtInv(cfg, s, w);
  }

  lemma GoKeepsData(cfg: Config, t: State, w: Id, pc: Pc)
    requires DataInv(cfg, t)
    ensures DataInv(cfg, Go(t, w, pc)) && Evolves(cfg, t, Go(t, w, pc), w)
  {
    var u := Go(t, w, pc);
    forall i | 0 <= i < |u.calls|
      ensures CallOk(cfg, u, u.calls[i])
    {
      CallStable(cfg, t, u, w, t.calls[i]);
    }
  }

  /** The data moved to `t`; the worker goes on at `pc`. */
  lemma Moves(cfg: Config, s: State, t: State, w: Id, pc: Pc)
    requires Inv(cfg, s) && Evolves(cfg, s, t, w) && DataInv(cfg, t) && PcInv(cfg, t, w, pc) && t.workers == s.workers
    ensures Good(cfg, s, Go(t, w, pc), w)
  {
    hide Inv, DataInv, PcInv;
    GoKeepsData(cfg, t, w, pc);
    PcStable(cfg, t, Go(t, w, pc), w, w, pc);
  }

  /** Only the position changes. */
  lemma Jumps(cfg: Config, s: State, w: Id, pc: Pc)
    requires Inv(cfg, s) && PcInv(cfg, s, w, pc)
    ensures Good(cfg, s, Go(s, w, pc), w)
  {
    Moves(cfg, s, s, w, pc);
  }

  lemma FailsDurably(cfg: Config, s: State, w: Id, a: Id, action: Action)
    requires Inv(cfg, s) && ActionOk(cfg, a, action) && Authoritative(cfg, a, action)
    ensures Good(cfg, s, Go(s, w, FailDurable(a, action)), w)
  {
    Jumps(cfg, s, w, FailDurable(a, action));
  }

  // ------------------------------------------------------------- data moves

  lemma CallsCarryOver(cfg: Config, s: State, t: State, w: Id)
    requires DataInv(cfg, s) && Evolves(cfg, s, t, w) && t.calls == s.calls
    ensures forall i | 0 <= i < |t.calls| :: CallOk(cfg, t, t.calls[i])
  {
    forall i | 0 <= i < |t.calls|
      ensures CallOk(cfg, t, t.calls[i])
    {
      CallStable(cfg, s, t, w, s.calls[i]);
    }
  }

  /** Rows and approvals are rewritten and nothing else. */
  lemma Rewrites(cfg: Config, s: State, t: State, w: Id)
    requires Inv(cfg, s) && t.attempts == s.attempts && t.ledger == s.ledger && t.calls == s.calls
    requires RowsEvolve(cfg, s, t) && ApprovalsEvolve(s, t) && ApprovalsOk(t)
    requires forall a | a in t.rows :: ActionOk(cfg, a, t.rows[a].action)
    ensures Evolves(cfg, s, t, w) && DataInv(cfg, t)
  {
    DataIsOk(cfg, s);
    hide Inv, PcInv, ActionOk, RowsEvolve, ApprovalsEvolve, ApprovalsOk, LedgerOk, CallOk;
    assert t.attempts[..|s.attempts|] == s.attempts;
    CallsCarryOver(cfg, s, t, w);
  }

  lemma RowsAreOk(cfg: Config, s: State)
    requires Inv(cfg, s)
    ensures ApprovalsOk(s) && forall a | a in s.rows :: ActionOk(cfg, a, s.rows[a].action)
  {
  }

  lemma RowsStay(cfg: Config, s: State, t: State)
    requires t.rows == s.rows
    ensures RowsEvolve(cfg, s, t)
  {
  }

  lemma ApprovalsStay(s: State, t: State)
    requires t.approvals == s.approvals && t.consumers == s.consumers
    ensures ApprovalsEvolve(s, t) && (ApprovalsOk(s) ==> ApprovalsOk(t))
  {
  }

  lemma WritesRow(cfg: Config, s: State, a: Id, row: Row, w: Id)
    requires Inv(cfg, s) && ActionOk(cfg, a, row.action)
    requires a in s.rows ==>
               && row.version == s.rows[a].version + 1
               && (Authoritative(cfg, a, s.rows[a].action) ==> Authoritative(cfg, a, row.action))
    ensures var t := s.(rows := s.rows[a := row]); Evolves(cfg, s, t, w) && DataInv(cfg, t)
  {
    RowsAreOk(cfg, s);
    hide Inv, Evolves, DataInv, ActionOk, Authoritative, ApprovalsOk, ApprovalsEvolve;
    ApprovalsStay(s, s.(rows := s.rows[a := row]));
    Rewrites(cfg, s, s.(rows := s.rows[a := row]), w);
  }

  lemma WritesApproval(cfg: Config, s: State, id: Id, request: A.Request, w: Id)
    requires Inv(cfg, s)
    requires id in s.approvals ==>
               && request.actionId == s.approvals[id].actionId && request.hash == s.approvals[id].hash
               && request.requestedBy == s.approvals[id].requestedBy && request.consumed == s.approvals[id].consumed
    requires id !in s.approvals ==> !request.consumed
    requires request.status == A.Status.Approved ==>
              request.decidedBy.Some? && request.decidedBy.value != request.requestedBy
    ensures var t := s.(approvals := s.approvals[id := request]); Evolves(cfg, s, t, w) && DataInv(cfg, t)
  {
    RowsAreOk(cfg, s);
    hide Inv, Evolves, DataInv, ActionOk, RowsEvolve;
    RowsStay(cfg, s, s.(approvals := s.approvals[id := request]));
    Rewrites(cfg, s, s.(approvals := s.approvals[id := request]), w);
  }

  lemma Submits(cfg: Config, s: State, request: L.Request, w: Id)
    requires Inv(cfg, s) && TypedRequest(cfg, request)
    ensures var t := Submitted(s, request); Evolves(cfg, s, t, w) && DataInv(cfg, t)
    ensures Submitted(s, request).ledger.calls == s.ledger.calls + [L.Call(request, L.LookUpEvent, 0.0)]
    ensures Submitted(s, request).ledger.events == s.ledger.events
  {
    LedgerStepOk(cfg, s.ledger, L.Submit(request));
    CallsCarryOver(cfg, s, Submitted(s, request), w);
  }

  // ------------------------------------------------------------------ steps

  lemma BeginStep(cfg: Config, s: State, w: Id, step: Step)
    requires Inv(cfg, s) && step.Begin? && step.w == w
    ensures Good(cfg, s, Next(cfg, s, step), w)
  {
    hide Good, Inv, Verdict;
    if At(s, w).Idle? && step.a in s.rows && !s.rows[step.a].action.depsCut {
      RowOk(cfg, s, step.a);
      Jumps(cfg, s, w, Loaded(step.a, s.rows[step.a].action));
    } else {
      Unchanged(cfg, s, w);
    }
  }

  lemma CrashStep(cfg: Config, s: State, w: Id)
    requires Inv(cfg, s)
    ensures Good(cfg, s, Go(s, w, Idle), w)
  {
    Jumps(cfg, s, w, Idle);
  }

  lemma CheckStep(cfg: Config, s: State, w: Id, step: Step)
    requires Inv(cfg, s) && step.CheckPermission?
    ensures Good(cfg, s, StepLoaded(cfg, s, w, step), w)
  {
    hide Good, Inv, Verdict;
    AtInv(cfg, s, w);
    Unchanged(cfg, s, w);
    if At(s, w).Loaded? && At(s, w).action.status == Validated {
      var a, action := At(s, w).a, At(s, w).action;
      DecisionIsVerdict(cfg, a, action);
      Jumps(cfg, s, w, UpsertRead(a, ApplyDecision(action, DecisionFor(cfg, action)), 0, Return));
    }
  }

  lemma LeaveStep(cfg: Config, s: State, w: Id, step: Step)
    requires Inv(cfg, s) && (step.Wait? || step.StartToolless?)
    ensures Good(cfg, s, StepLoaded(cfg, s, w, step), w)
  {
    hide Good, Inv, Verdict;
    AtInv(cfg, s, w);
    Unchanged(cfg, s, w);
    if At(s, w).Loaded? && At(s, w).action.status == PermissionChecked {
      var a, action := At(s, w).a, At(s, w).action;
      DecisionIsVerdict(cfg, a, action);
      if step.StartToolless? {
        Jumps(cfg, s, w, UpsertRead(a, action.(status := Executing), 0, Toolless(Executing)));
      } else if NeedsApproval(cfg, a) {
        Jumps(cfg, s, w, UpsertRead(a, action.(status := WaitingForApproval), 0, Return));
      }
    }
  }

  lemma AskStep(cfg: Config, s: State, w: Id, step: Step)
    requires Inv(cfg, s) && step.Ask?
    ensures Good(cfg, s, StepLoaded(cfg, s, w, step), w)
  {
    hide Good, Inv, Verdict;
    AtInv(cfg, s, w);
    Unchanged(cfg, s, w);
    if At(s, w).Loaded? && step.request !in s.approvals {
      var a, action := At(s, w).a, At(s, w).action;
      var created := A.Create(SubjectOf(a, action), DecisionFor(cfg, action), step.requestedBy, step.expiresAt,
                              step.now);
      A.CreateIff(SubjectOf(a, action), DecisionFor(cfg, action), step.requestedBy, step.expiresAt, step.now);
      hide A.Create;
      Jumps(cfg, s, w, Idle);
      if created.Ok? {
        WritesApproval(cfg, s, step.request, created.value, w);
        Moves(cfg, s, s.(approvals := s.approvals[step.request := created.value]), w,
              Loaded(a, action.(approvalId := Some(step.request))));
      }
    }
  }

  lemma BudgetStep(cfg: Config, s: State, w: Id, a: Id, action: Action, approval: Option<(Id, A.Request)>)
    requires Inv(cfg, s) && ActionOk(cfg, a, action)
    requires action.status == if approval.Some? then WaitingForApproval else PermissionChecked
    ensures Good(cfg, s,
                 Go(Submitted(s, AttemptsRequest(cfg, a, action.retryCount)), w,
                    Budgeting(a, action, approval, |s.ledger.calls|)), w)
  {
    var request := AttemptsRequest(cfg, a, action.retryCount);
    Submits(cfg, s, request, w);
    Moves(cfg, s, Submitted(s, request), w, Budgeting(a, action, approval, |s.ledger.calls|));
  }

  lemma GateBudgetStep(cfg: Config, s: State, w: Id, step: Step)
    requires Inv(cfg, s) && step.PassBudgetGate?
    ensures Good(cfg, s, StepLoaded(cfg, s, w, step), w)
  {
    hide Good, Inv, Verdict, DecisionFor;
    AtInv(cfg, s, w);
    Unchanged(cfg, s, w);
    if At(s, w).Loaded? && At(s, w).action.status == PermissionChecked {
      BudgetStep(cfg, s, w, At(s, w).a, At(s, w).action, None);
    }
  }

  lemma LookStep(cfg: Config, s: State, w: Id, step: Step)
    requires Inv(cfg, s) && step.LookAtApproval?
    ensures Good(cfg, s, StepLoaded(cfg, s, w, step), w)
  {
    hide Good, Inv, Verdict, DecisionFor, HashOf, A.Finalize;
    AtInv(cfg, s, w);
    Unchanged(cfg, s, w);
    if At(s, w).Loaded? {
      var a, action := At(s, w).a, At(s, w).action;
      Jumps(cfg, s, w, Idle);
      if action.status == WaitingForApproval && action.approvalId.Some? && action.approvalId.value in s.approvals {
        var id := action.approvalId.value;
        var request := s.approvals[id];
        match request.status
        case Pending =>
          var expired := A.Expire(request, step.now);
          if expired.Ok? {
            Jumps(cfg, s, w, Expiring(a, action, id, expired.value));
          }
        case Approved => BudgetStep(cfg, s, w, a, action, Some((id, request)));
        case _ => RefusedOk(cfg, s, w, a, action, request);
      }
    }
  }

  /** Where a worker goes with a refused request. */
  function Refusal(a: Id, action: Action, request: A.Request): Pc {
    var final := A.Finalize(SubjectOf(a, action), request);
    if final.Ok? then UpsertRead(a, action.(status := final.value), 0, Return) else Idle
  }

  lemma RefusalOk(cfg: Config, s: State, w: Id, a: Id, action: Action, request: A.Request)
    requires ActionOk(cfg, a, action) && action.status == WaitingForApproval
    ensures PcInv(cfg, s, w, Refusal(a, action, request))
  {
    A.FinalizeIff(SubjectOf(a, action), request);
    hide A.Finalize, Verdict, HashOf;
  }

  /** A refusal of the request closes the action. */
  lemma RefusedOk(cfg: Config, s: State, w: Id, a: Id, action: Action, request: A.Request)
    requires Inv(cfg, s) && ActionOk(cfg, a, action) && action.status == WaitingForApproval
    ensures Good(cfg, s, Go(s, w, Refusal(a, action, request)), w)
  {
    hide Good, Inv, PcInv, ActionOk, Refusal;
    RefusalOk(cfg, s, w, a, action, request);
    Jumps(cfg, s, w, Refusal(a, action, request));
  }

  lemma ExpiringOk(cfg: Config, s: State, w: Id)
    requires PcInv(cfg, s, w, At(s, w)) && At(s, w).Expiring?
    ensures ActionOk(cfg, At(s, w).a, At(s, w).action) && At(s, w).action.status == WaitingForApproval
    ensures At(s, w).expired.status == A.Status.Expired
  {
  }

  lemma ExpiryStep(cfg: Config, s: State, w: Id)
    requires Inv(cfg, s)
    ensures Good(cfg, s, StepExpiry(s, w), w)
  {
    hide Good, Inv, PcInv, ActionOk, DataInv, Evolves;
    AtInv(cfg, s, w);
    Unchanged(cfg, s, w);
    var pc := At(s, w);
    if pc.Expiring? {
      ExpiringOk(cfg, s, w);
      var next := Refusal(pc.a, pc.action, pc.expired);
      RefusalOk(cfg, s, w, pc.a, pc.action, pc.expired);
      Jumps(cfg, s, w, next);
      if pc.request in s.approvals {
        var request := s.approvals[pc.request].(status := pc.expired.status, decidedBy := pc.expired.decidedBy);
        var t := s.(approvals := s.approvals[pc.request := request]);
        WritesApproval(cfg, s, pc.request, request, w);
        RefusalOk(cfg, t, w, pc.a, pc.action, pc.expired);
        Moves(cfg, s, t, w, next);
      }
    }
  }

  lemma ProceedStep(cfg: Config, s: State, w: Id, a: Id, action: Action, approval: Option<(Id, A.Request)>, now: int)
    requires Inv(cfg, s) && ActionOk(cfg, a, action) && Paid(cfg, s.ledger, a, action.retryCount)
    requires action.status == if approval.Some? then WaitingForApproval else PermissionChecked
    ensures Good(cfg, s, Proceed(s, w, a, action, approval, now), w)
  {
    hide Good, Inv, Verdict;
    Jumps(cfg, s, w, Idle);
    if approval.None? {
      Jumps(cfg, s, w, Entering(a, action, action.retryCount, action.retryCount, None));
    } else {
      var authorized := A.Authorize(SubjectOf(a, action), approval.value.1, now);
      if authorized.Ok? {
        Jumps(cfg, s, w,
              UpsertRead(a, action.(status := authorized.value), 0, Execute(approval.value.0, action.retryCount)));
      }
    }
  }

  lemma SettleStep(cfg: Config, s: State, w: Id, now: int)
    requires Inv(cfg, s)
    ensures Good(cfg, s, StepSettle(cfg, s, w, now), w)
  {
    hide Good, Inv, PcInv, Proceed, CostOf, CostRequest, Submitted;
    Unchanged(cfg, s, w);
    CrashStep(cfg, s, w);
    var pc := At(s, w);
    if (pc.Budgeting? || pc.Costing?) && pc.ticket < |s.ledger.calls| && s.ledger.calls[pc.ticket].phase.Done? {
      if !L.IsGrant(s.ledger.calls[pc.ticket].phase.outcome) {
        DeniedStep(cfg, s, w);
      } else {
        GrantedStep(cfg, s, w, now);
      }
    }
  }

  /** A denied budget fails the action. */
  lemma DeniedStep(cfg: Config, s: State, w: Id)
    requires Inv(cfg, s) && (At(s, w).Budgeting? || At(s, w).Costing?)
    ensures Good(cfg, s, Go(s, w, UpsertRead(At(s, w).a, At(s, w).action.(status := Failed), 0, Return)), w)
  {
    AtInv(cfg, s, w);
    hide Good, Inv, Verdict, AttemptsRequest, CostRequest;
    Jumps(cfg, s, w, UpsertRead(At(s, w).a, At(s, w).action.(status := Failed), 0, Return));
  }

  /** A granted request was paid for; the cost is asked for after the attempt. */
  lemma GrantedStep(cfg: Config, s: State, w: Id, now: int)
    requires Inv(cfg, s) && (At(s, w).Budgeting? || At(s, w).Costing?)
    requires var pc := At(s, w);
             && pc.ticket < |s.ledger.calls| && s.ledger.calls[pc.ticket].phase.Done?
             && L.IsGrant(s.ledger.calls[pc.ticket].phase.outcome)
    ensures Good(cfg, s, StepSettle(cfg, s, w, now), w)
  {
    hide Good, Inv, Verdict, ActionOk;
    AtInv(cfg, s, w);
    var pc := At(s, w);
    var a, action, n := pc.a, pc.action, pc.action.retryCount;
    var request := if pc.Budgeting? then AttemptsRequest(cfg, a, n) else CostRequest(cfg, a, n);
    if request.scope in cfg.budgets {
      LedgerIsOk(cfg, s);
      hide LedgerOk;
      GrantIsApplied(cfg, s.ledger, pc.ticket, request);
    }
    if pc.Budgeting? && CostOf(cfg, a) != 0.0 {
      Submits(cfg, s, CostRequest(cfg, a, n), w);
      Moves(cfg, s, Submitted(s, CostRequest(cfg, a, n)), w, Costing(a, action, pc.approval, |s.ledger.calls|));
    } else {
      ProceedStep(cfg, s, w, a, action, pc.approval, now);
    }
  }

  lemma EnterStep(cfg: Config, s: State, w: Id)
    requires Inv(cfg, s)
    ensures Good(cfg, s, StepEnter(s, w), w)
  {
    hide Good, Inv, Verdict;
    AtInv(cfg, s, w);
    Unchanged(cfg, s, w);
    Jumps(cfg, s, w, Idle);
    var pc := At(s, w);
    if pc.Entering? {
      Jumps(cfg, s, w, Gating(pc.a, pc.action, pc.retry, pc.paid, pc.permit));
    }
  }

  /** A valid approval of this very action and payload lets a gated action through. */
  predicate PassesByApproval(cfg: Config, s: State, w: Id, now: int) {
    var pc := At(s, w);
    && pc.Gating? && NeedsApproval(cfg, pc.a) && pc.action.status == ActionStatus.Approved
    && pc.permit.Some? && pc.permit.value in s.approvals
    && A.Consumable(s.approvals[pc.permit.value], pc.a, HashOf(pc.action), now)
  }

  /** An action whose verdict neither blocks it nor asks for an approval passes by itself. */
  predicate PassesUngated(cfg: Config, s: State, w: Id) {
    var pc := At(s, w);
    && pc.Gating? && pc.action.status == PermissionChecked
    && Verdict(cfg, pc.a).outcome != P.Block && !NeedsApproval(cfg, pc.a)
  }

  /** What passing the executor's gate takes: exactly an approval that could be consumed
      for this action and payload now, where the authoritative verdict asks for one, and
      exactly a permission-checked action where it neither asks nor blocks. Everything
      else fails durably. */
  lemma GatePassedIff(cfg: Config, s: State, w: Id, now: int)
    requires At(s, w).Gating? && PcInv(cfg, s, w, At(s, w))
    ensures var pc, next := At(s, w), At(StepGate(cfg, s, w, now), w);
            var ctx := Ctx(pc.action, pc.retry, pc.paid, None);
            && (next.Consuming? <==> PassesByApproval(cfg, s, w, now))
            && (next.Consuming? ==> next == Consuming(pc.a, ctx, pc.permit.value, s.approvals[pc.permit.value]))
            && ((next.UpsertRead? && next.after.Claim?) <==> PassesUngated(cfg, s, w))
            && (PassesUngated(cfg, s, w) ==> next == UpsertRead(pc.a, pc.action, 0, Claim(ctx)))
            && (next.Consuming? || (next.UpsertRead? && next.after.Claim?) || next == FailDurable(pc.a, pc.action))
  {
    var pc := At(s, w);
    GatingOk(cfg, s, w);
    DecisionIsVerdict(cfg, pc.a, pc.action);
    if pc.permit.Some? && pc.permit.value in s.approvals {
      A.ValidIffConsumable(s.approvals[pc.permit.value], SubjectOf(pc.a, pc.action), now);
    }
    hide PcInv, DecisionFor, Verdict, HashOf, A.Valid, A.Consumable, FailTarget;
  }

  lemma GatingOk(cfg: Config, s: State, w: Id)
    requires At(s, w).Gating? && PcInv(cfg, s, w, At(s, w))
    ensures EntryOk(cfg, s, At(s, w).a, At(s, w).action, At(s, w).retry, At(s, w).paid, At(s, w).permit)
    ensures At(s, w).action.payload == cfg.specs(At(s, w).a).payload
  {
  }

  lemma GateStep(cfg: Config, s: State, w: Id, now: int)
    requires Inv(cfg, s)
    ensures Good(cfg, s, StepGate(cfg, s, w, now), w)
  {
    hide Good, Inv, Verdict, HashOf, A.Consumable;
    AtInv(cfg, s, w);
    Unchanged(cfg, s, w);
    var pc := At(s, w);
    if pc.Gating? {
      GatePassedIff(cfg, s, w, now);
      GatingOk(cfg, s, w);
      FailsDurably(cfg, s, w, pc.a, pc.action);
      var next := At(StepGate(cfg, s, w, now), w);
      assert StepGate(cfg, s, w, now) == Go(s, w, next);
      hide StepGate, FailDurable;
      if PassesByApproval(cfg, s, w, now) || PassesUngated(cfg, s, w) { Jumps(cfg, s, w, next); }
    }
  }

  lemma ConsumeStep(cfg: Config, s: State, w: Id, now: int)
    requires Inv(cfg, s)
    ensures Good(cfg, s, StepConsume(s, w, now), w)
  {
    hide Good, Inv, Verdict;
    AtInv(cfg, s, w);
    var pc := At(s, w);
    if !pc.Consuming? {
      Unchanged(cfg, s, w);
    } else if pc.request in s.approvals && A.Consumable(s.approvals[pc.request], pc.a, pc.loaded.hash, now) {
      ConsumesApproval(cfg, s, w, pc.request, pc.a, pc.ctx, now);
      var t := s.(approvals := s.approvals[pc.request := s.approvals[pc.request].(consumed := true)],
                  consumers := s.consumers[pc.request := w]);
      var ctx := pc.ctx.(grant := Some(Grant(pc.request, s.approvals[pc.request], now)));
      Moves(cfg, s, t, w, UpsertRead(pc.a, ctx.action, 0, Claim(ctx)));
    } else {
      FailsDurably(cfg, s, w, pc.a, pc.ctx.action);
    }
  }

  /** The single-consumer UPDATE: nobody has used this approval, and `w` alone may. */
  lemma MarksConsumed(cfg: Config, s: State, w: Id, id: Id)
    requires Inv(cfg, s) && id in s.approvals && !s.approvals[id].consumed
    ensures var t := s.(approvals := s.approvals[id := s.approvals[id].(consumed := true)],
                        consumers := s.consumers[id := w]);
            Evolves(cfg, s, t, w) && DataInv(cfg, t)
    ensures forall i | 0 <= i < |s.calls| && s.calls[i].grant.Some? :: s.calls[i].grant.value.id != id
  {
    NeverUsed(cfg, s, id);
    RowsAreOk(cfg, s);
    var t := s.(approvals := s.approvals[id := s.approvals[id].(consumed := true)], consumers := s.consumers[id := w]);
    MarkedEvolves(s, id, w);
    RowsStay(cfg, s, t);
    hide Inv, Evolves, DataInv, ActionOk, RowsEvolve, ApprovalsOk, ApprovalsEvolve;
    Rewrites(cfg, s, t, w);
  }

  lemma MarkedEvolves(s: State, id: Id, w: Id)
    requires ApprovalsOk(s) && id in s.approvals && !s.approvals[id].consumed
    ensures var t := s.(approvals := s.approvals[id := s.approvals[id].(consumed := true)],
                        consumers := s.consumers[id := w]);
            ApprovalsEvolve(s, t) && ApprovalsOk(t)
  {
  }

  lemma NeverUsed(cfg: Config, s: State, id: Id)
    requires Inv(cfg, s) && id in s.approvals && !s.approvals[id].consumed
    ensures forall i | 0 <= i < |s.calls| && s.calls[i].grant.Some? :: s.calls[i].grant.value.id != id
  {
    DataIsOk(cfg, s);
    hide Inv, CallOk, ActionOk, LedgerOk, ApprovalsOk;
    forall i | 0 <= i < |s.calls| && s.calls[i].grant.Some?
      ensures s.calls[i].grant.value.id != id
    {
      UsedIsConsumed(cfg, s, s.calls[i]);
    }
  }

  lemma UsedIsConsumed(cfg: Config, s: State, call: AdapterCall)
    requires CallOk(cfg, s, call) && call.grant.Some?
    ensures call.grant.value.id in s.approvals && s.approvals[call.grant.value.id].consumed
  {
    hide Paid, Verdict, AuthorizedHash;
  }

  lemma ConsumesApproval(cfg: Config, s: State, w: Id, id: Id, a: Id, ctx: Ctx, now: int)
    requires Inv(cfg, s) && EntryOk(cfg, s, a, ctx.action, ctx.retry, ctx.paid, Some(0))
    requires ctx.action.status == ActionStatus.Approved
    requires id in s.approvals && A.Consumable(s.approvals[id], a, HashOf(ctx.action), now)
    ensures var t := s.(approvals := s.approvals[id := s.approvals[id].(consumed := true)],
                        consumers := s.consumers[id := w]);
            && Evolves(cfg, s, t, w) && DataInv(cfg, t)
            && CtxOk(cfg, t, w, a, ctx.(grant := Some(Grant(id, s.approvals[id], now))))
  {
    MarksConsumed(cfg, s, w, id);
    assert ApprovalsOk(s);
    hide Inv, DataInv, Evolves;
  }

  lemma TailOk(cfg: Config, s: State, w: Id, a: Id, action: Action)
    requires TargetOk(cfg, a, action)
    ensures PcInv(cfg, s, w, TailNext(a, action)) && PcInv(cfg, s, w, Concluded(a, action))
  {
    hide Verdict;
  }

  lemma NotFailing(a: Id, action: Action)
    requires action.status != Failed
    ensures Concluded(a, action) == Idle
  {
  }

  lemma ToollessOk(cfg: Config, s: State, w: Id, a: Id, stage: ActionStatus, row: Row)
    requires ActionOk(cfg, a, row.action) && Authoritative(cfg, a, row.action)
    ensures PcInv(cfg, s, w, Resume(a, Toolless(stage), row))
  {
    hide Verdict;
  }

  lemma ExecuteOk(cfg: Config, s: State, w: Id, a: Id, after: After, row: Row)
    requires AfterOk(cfg, s, w, a, after) && (after.Execute? || after.Claim? || after.Dispatch?)
    requires ActionOk(cfg, a, row.action) && Authoritative(cfg, a, row.action)
    ensures PcInv(cfg, s, w, Resume(a, after, row))
  {
    hide Verdict;
  }

  lemma ResumeOk(cfg: Config, s: State, w: Id, a: Id, after: After, row: Row)
    requires AfterOk(cfg, s, w, a, after) && ActionOk(cfg, a, row.action) && Authoritative(cfg, a, row.action)
    ensures PcInv(cfg, s, w, Resume(a, after, row))
  {
    hide TailNext, Concluded, Authoritative;
    match after
    case Return =>
      hide ActionOk;
      if row.action.status == Failed { FailedOk(cfg, s, w, a, row.action); } else { NotFailing(a, row.action); }
    case Toolless(stage) => ToollessOk(cfg, s, w, a, stage, row);
    case Tail(action) => TailOk(cfg, s, w, a, action);
    case Conclude(action) => TailOk(cfg, s, w, a, action);
    case _ => ExecuteOk(cfg, s, w, a, after, row);
  }

  lemma FailedOk(cfg: Config, s: State, w: Id, a: Id, action: Action)
    requires ActionOk(cfg, a, action) && action.status == Failed
    ensures PcInv(cfg, s, w, Concluded(a, action))
  {
    hide Verdict, Stored;
  }

  lemma UpsertGetStep(cfg: Config, s: State, w: Id)
    requires Inv(cfg, s)
    ensures Good(cfg, s, StepUpsertGet(s, w), w)
  {
    hide Good, Inv, Verdict;
    AtInv(cfg, s, w);
    Unchanged(cfg, s, w);
    var pc := At(s, w);
    if pc.UpsertRead? {
      if pc.a !in s.rows {
        Jumps(cfg, s, w, UpsertWrite(pc.a, pc.target, pc.tries, None, pc.after));
      } else if LeavesAlone(s.rows[pc.a], pc.target) {
        RowOk(cfg, s, pc.a);
        ResumeOk(cfg, s, w, pc.a, pc.after, s.rows[pc.a]);
        Jumps(cfg, s, w, Resume(pc.a, pc.after, s.rows[pc.a]));
      } else {
        Jumps(cfg, s, w, UpsertWrite(pc.a, pc.target, pc.tries, Some(s.rows[pc.a]), pc.after));
      }
    }
  }

  lemma UpsertPutStep(cfg: Config, s: State, w: Id)
    requires Inv(cfg, s)
    ensures Good(cfg, s, StepUpsertPut(cfg, s, w), w)
  {
    hide Good, Inv, PcInv, Persist, Resume;
    AtInv(cfg, s, w);
    var pc := At(s, w);
    if !pc.UpsertWrite? {
      Unchanged(cfg, s, w);
    } else if pc.target.payload.inputs.jsonChars > H.MAX_INPUTS_JSON_CHARS {
      CrashStep(cfg, s, w);
    } else if pc.seen.None? && pc.a !in s.rows {
      UpsertInserts(cfg, s, w, pc);
    } else if pc.seen.Some? && pc.a in s.rows && s.rows[pc.a].version == pc.seen.value.version {
      var row := Row(Persist(cfg, pc.target), s.rows[pc.a].version + 1);
      assert StepUpsertPut(cfg, s, w) == Go(s.(rows := s.rows[pc.a := row]), w, UpsertReload(pc.a, pc.after));
      UpsertUpdates(cfg, s, w, pc);
    } else {
      UpsertMisses(cfg, s, w, pc);
    }
  }

  /** The row was written by somebody else in between: once more, or give up. */
  lemma UpsertMisses(cfg: Config, s: State, w: Id, pc: Pc)
    requires Inv(cfg, s) && pc.UpsertWrite? && PcInv(cfg, s, w, pc)
    ensures Good(cfg, s, Go(s, w, UpsertRead(pc.a, pc.target, pc.tries + 1, pc.after)), w)
    ensures Good(cfg, s, Go(s, w, if pc.after.Conclude? then Concluded(pc.a, pc.after.action) else Idle), w)
  {
    hide Good, Inv, Verdict, TargetOk;
    Jumps(cfg, s, w, UpsertRead(pc.a, pc.target, pc.tries + 1, pc.after));
    Jumps(cfg, s, w, if pc.after.Conclude? then Concluded(pc.a, pc.after.action) else Idle);
  }

  /** Storing what was loaded stores the same payload. */
  lemma PersistOk(cfg: Config, a: Id, action: Action)
    requires ActionOk(cfg, a, action)
    ensures ActionOk(cfg, a, Persist(cfg, action))
    ensures Persist(cfg, action) == action.(depsCut := !H.Fits(cfg.names, action.deps))
    ensures Authoritative(cfg, a, action) ==> Authoritative(cfg, a, Persist(cfg, action))
  {
    hide Verdict;
  }

  lemma UpsertInserts(cfg: Config, s: State, w: Id, pc: Pc)
    requires Inv(cfg, s) && pc.UpsertWrite? && PcInv(cfg, s, w, pc) && pc.a !in s.rows
    ensures var row := Row(Persist(cfg, pc.target), 1);
            Good(cfg, s, Go(s.(rows := s.rows[pc.a := row]), w, Resume(pc.a, pc.after, row)), w)
  {
    hide Good, Inv, DataInv, Evolves, Verdict, AfterOk;
    PersistOk(cfg, pc.a, pc.target);
    var row := Row(Persist(cfg, pc.target), 1);
    var t := s.(rows := s.rows[pc.a := row]);
    WritesRow(cfg, s, pc.a, row, w);
    AfterStable(cfg, s, t, w, w, pc.a, pc.after);
    ResumeOk(cfg, t, w, pc.a, pc.after, row);
    Moves(cfg, s, t, w, Resume(pc.a, pc.after, row));
  }

  lemma UpsertUpdates(cfg: Config, s: State, w: Id, pc: Pc)
    requires Inv(cfg, s) && pc.UpsertWrite? && PcInv(cfg, s, w, pc) && pc.a in s.rows
    ensures var row := Row(Persist(cfg, pc.target), s.rows[pc.a].version + 1);
            Good(cfg, s, Go(s.(rows := s.rows[pc.a := row]), w, UpsertReload(pc.a, pc.after)), w)
  {
    hide Good, Inv, DataInv, Evolves, Verdict, AfterOk;
    PersistOk(cfg, pc.a, pc.target);
    var row := Row(Persist(cfg, pc.target), s.rows[pc.a].version + 1);
    var t := s.(rows := s.rows[pc.a := row]);
    WritesRow(cfg, s, pc.a, row, w);
    AfterStable(cfg, s, t, w, w, pc.a, pc.after);
    Moves(cfg, s, t, w, UpsertReload(pc.a, pc.after));
  }

  lemma UpsertGotStep(cfg: Config, s: State, w: Id)
    requires Inv(cfg, s)
    ensures Good(cfg, s, StepUpsertGot(s, w), w)
  {
    hide Good, Inv, Verdict;
    AtInv(cfg, s, w);
    Unchanged(cfg, s, w);
    var pc := At(s, w);
    if pc.UpsertReload? && pc.a in s.rows {
      RowOk(cfg, s, pc.a);
      ResumeOk(cfg, s, w, pc.a, pc.after, s.rows[pc.a]);
      Jumps(cfg, s, w, Resume(pc.a, pc.after, s.rows[pc.a]));
    }
  }

  lemma ClaimStep(cfg: Config, s: State, w: Id)
    requires Inv(cfg, s)
    ensures Good(cfg, s, StepClaim(cfg, s, w), w)
  {
    hide Good, Inv, Verdict;
    AtInv(cfg, s, w);
    var pc := At(s, w);
    if !pc.Claiming? {
      Unchanged(cfg, s, w);
    } else {
      var payload := pc.ctx.action.payload;
      var key := ExecKey(pc.a, pc.hash, pc.ctx.retry);
      if payload.toolName.None? || !P.Resolve(cfg.registry, payload.toolName.value, payload.actionType).Resolved?
         || payload.toolName.value !in cfg.adapters {
        FailsDurably(cfg, s, w, pc.a, pc.ctx.action);
      } else if Claimed(s.attempts, key) {
        Jumps(cfg, s, w, Idle);
      } else {
        ClaimsAttempt(cfg, s, w, pc.a, pc.ctx, key);
      }
    }
  }

  /** The unique INSERT of an attempt: its key is new, and `w` alone holds it. */
  lemma ClaimsAttempt(cfg: Config, s: State, w: Id, a: Id, ctx: Ctx, key: ExecKey)
    requires Inv(cfg, s) && CtxOk(cfg, s, w, a, ctx) && !Claimed(s.attempts, key)
    requires key == ExecKey(a, AuthorizedHash(cfg, a), ctx.retry)
    ensures Good(cfg, s, Go(s.(attempts := s.attempts + [Attempt(key, w)]), w,
                            UpsertRead(a, ctx.action.(status := Executing), 0, Dispatch(ctx, |s.attempts|, key))), w)
  {
    var t := s.(attempts := s.attempts + [Attempt(key, w)]);
    InsertsAttempt(cfg, s, w, key);
    CtxStable(cfg, s, t, w, w, a, ctx);
    hide Good, Inv, DataInv, Evolves, Verdict, Stored;
    Moves(cfg, s, t, w, UpsertRead(a, ctx.action.(status := Executing), 0, Dispatch(ctx, |s.attempts|, key)));
  }

  lemma InsertsAttempt(cfg: Config, s: State, w: Id, key: ExecKey)
    requires Inv(cfg, s) && !Claimed(s.attempts, key)
    ensures var t := s.(attempts := s.attempts + [Attempt(key, w)]);
            Evolves(cfg, s, t, w) && DataInv(cfg, t) && HoldsAttempt(t, w, |s.attempts|, key)
  {
    var t := s.(attempts := s.attempts + [Attempt(key, w)]);
    assert t.attempts[..|s.attempts|] == s.attempts;
    DataIsOk(cfg, s);
    hide Inv, PcInv, ActionOk, LedgerOk;
    CallsCarryOver(cfg, s, t, w);
    forall i | 0 <= i < |t.calls|
      ensures t.calls[i].attempt != |s.attempts|
    {
      assert CallOk(cfg, s, s.calls[i]);
    }
  }

  /** The adapter call: the worker's attempt and approval have never been used, and
      now they have. */
  lemma CallsAdapter(cfg: Config, s: State, w: Id, a: Id, ctx: Ctx, attempt: nat, key: ExecKey)
    requires Inv(cfg, s) && AfterOk(cfg, s, w, a, Dispatch(ctx, attempt, key))
    ensures var t := s.(calls := s.calls + [AdapterCall(attempt, key, ctx.paid, ctx.grant)]);
            Evolves(cfg, s, t, w) && DataInv(cfg, t)
  {
    var call := AdapterCall(attempt, key, ctx.paid, ctx.grant);
    var t := s.(calls := s.calls + [call]);
    NewCallOk(cfg, s, w, a, ctx, attempt, key);
    DataIsOk(cfg, s);
    RowsStay(cfg, s, t);
    ApprovalsStay(s, t);
    StaysDistinct(s, call);
    hide CallsDistinct, Inv, PcInv, AfterOk, ActionOk, LedgerOk, CallOk, RowsEvolve, ApprovalsEvolve, ApprovalsOk,
        ByWorker;
    assert t.attempts[..|s.attempts|] == s.attempts;
    forall i | 0 <= i < |t.calls|
      ensures CallOk(cfg, t, t.calls[i])
    {
      CallStable(cfg, s, t, w, t.calls[i]);
    }
  }

  lemma StaysDistinct(s: State, call: AdapterCall)
    requires CallsDistinct(s) && forall i | 0 <= i < |s.calls| :: s.calls[i].attempt != call.attempt
    requires forall i | 0 <= i < |s.calls| && s.calls[i].grant.Some? && call.grant.Some? ::
              s.calls[i].grant.value.id != call.grant.value.id
    ensures CallsDistinct(s.(calls := s.calls + [call]))
  {
  }

  /** A new call is sound, by its worker, and shares neither attempt nor approval with
      an earlier one. */
  lemma NewCallOk(cfg: Config, s: State, w: Id, a: Id, ctx: Ctx, attempt: nat, key: ExecKey)
    requires AfterOk(cfg, s, w, a, Dispatch(ctx, attempt, key))
    ensures var call := AdapterCall(attempt, key, ctx.paid, ctx.grant);
            && CallOk(cfg, s, call) && ByWorker(s, call, w)
            && (forall i | 0 <= i < |s.calls| :: s.calls[i].attempt != attempt)
            && (forall i | 0 <= i < |s.calls| && s.calls[i].grant.Some? && call.grant.Some? ::
                  s.calls[i].grant.value.id != call.grant.value.id)
  {
    hide Verdict, Paid, ActionOk;
  }

  lemma CallStep(cfg: Config, s: State, w: Id, success: bool)
    requires Inv(cfg, s)
    ensures Good(cfg, s, StepCall(s, w, success), w)
  {
    hide Good, Inv, Verdict, Evolves, DataInv;
    AtInv(cfg, s, w);
    Unchanged(cfg, s, w);
    var pc := At(s, w);
    if pc.Calling? {
      CallsAdapter(cfg, s, w, pc.a, pc.ctx, pc.attempt, pc.key);
      var t := s.(calls := s.calls + [AdapterCall(pc.attempt, pc.key, pc.ctx.paid, pc.ctx.grant)]);
      var done := pc.ctx.action.(status := if success then ExecutionSucceeded else Failed);
      Moves(cfg, s, t, w, UpsertRead(pc.a, done, 0, Tail(done)));
    }
  }

  lemma VerifyStep(cfg: Config, s: State, w: Id, passed: bool)
    requires Inv(cfg, s)
    ensures Good(cfg, s, StepVerify(s, w, passed), w)
  {
    hide Good, Inv, Verdict;
    AtInv(cfg, s, w);
    Unchanged(cfg, s, w);
    var pc := At(s, w);
    if pc.Checking? {
      var done := pc.action.(status := if passed then Verified else Failed);
      Jumps(cfg, s, w, UpsertRead(pc.a, done, 0, Tail(done)));
    }
  }

  /** A guarded UPDATE of some columns, after which the worker is done. */
  lemma Updates(cfg: Config, s: State, w: Id, a: Id, action: Action)
    requires Inv(cfg, s) && a in s.rows && ActionOk(cfg, a, action)
    requires action.level == s.rows[a].action.level && action.risk == s.rows[a].action.risk
    requires action.approvalRequired == s.rows[a].action.approvalRequired
    ensures Good(cfg, s, Go(s.(rows := s.rows[a := Row(action, s.rows[a].version + 1)]), w, Idle), w)
  {
    WritesRow(cfg, s, a, Row(action, s.rows[a].version + 1), w);
    Moves(cfg, s, s.(rows := s.rows[a := Row(action, s.rows[a].version + 1)]), w, Idle);
  }

  lemma RecoverStep(cfg: Config, s: State, w: Id, step: Step)
    requires Inv(cfg, s) && (step.Recover? || step.Interrupted?)
    ensures Good(cfg, s, StepRetry(cfg, s, w, step), w)
  {
    hide Good, Inv, Verdict, Stored, Retryable;
    AtInv(cfg, s, w);
    var pc := At(s, w);
    if StepRetry(cfg, s, w, step) == s {
      Unchanged(cfg, s, w);
    } else if step.Interrupted? {
      RowOk(cfg, s, step.a);
      Jumps(cfg, s, w, Failing(step.a, s.rows[step.a].action));
    } else {
      GatedIsMarked(cfg, pc.a);
      CrashStep(cfg, s, w);
      if At(StepRetry(cfg, s, w, step), w).RetryRead? { Jumps(cfg, s, w, RetryRead(pc.a)); }
    }
  }

  lemma RetryGetStep(cfg: Config, s: State, w: Id, step: Step)
    requires Inv(cfg, s) && step.RetryGet?
    ensures Good(cfg, s, StepRetry(cfg, s, w, step), w)
  {
    hide Good, Inv, NeedsApproval, R.Evaluate, Retryable;
    AtInv(cfg, s, w);
    var pc := At(s, w);
    if !pc.RetryRead? {
      Unchanged(cfg, s, w);
    } else if pc.a in s.rows && Retryable(s.rows[pc.a], cfg.specs(pc.a).maxRetries) {
      Jumps(cfg, s, w, RetryWrite(pc.a, s.rows[pc.a]));
    } else {
      CrashStep(cfg, s, w);
    }
  }

  lemma RetryPutStep(cfg: Config, s: State, w: Id, step: Step)
    requires Inv(cfg, s) && step.RetryPut?
    ensures Good(cfg, s, StepRetry(cfg, s, w, step), w)
  {
    hide Good, Inv, PcInv, NeedsApproval, R.Evaluate;
    var pc := At(s, w);
    Unchanged(cfg, s, w);
    CrashStep(cfg, s, w);
    if pc.RetryWrite? && pc.a in s.rows && s.rows[pc.a].version == pc.base.version { RetryWritesRow(cfg, s, w); }
  }

  lemma RetryWritesRow(cfg: Config, s: State, w: Id)
    requires Inv(cfg, s) && At(s, w).RetryWrite? && At(s, w).a in s.rows
    requires s.rows[At(s, w).a].version == At(s, w).base.version
    ensures var pc := At(s, w);
            var action := s.rows[pc.a].action.(status := Validated, retryCount := pc.base.action.retryCount + 1);
            Good(cfg, s, Go(s.(rows := s.rows[pc.a := Row(action, pc.base.version + 1)]), w, Idle), w)
  {
    hide Good, Inv, PcInv, NeedsApproval, Verdict;
    WriterKnows(cfg, s, w);
    var pc := At(s, w);
    RowOk(cfg, s, pc.a);
    Updates(cfg, s, w, pc.a,
            s.rows[pc.a].action.(status := Validated, retryCount := pc.base.action.retryCount + 1));
  }

  lemma ReconcileStep(cfg: Config, s: State, w: Id, step: Step)
    requires Inv(cfg, s)
    ensures Good(cfg, s, StepReconcile(s, w, step), w)
  {
    hide Good, Inv, Verdict, NeedsApproval, CanTransition, InProgress;
    if StepReconcile(s, w, step) == s {
      Unchanged(cfg, s, w);
    } else if step.ReconcileGet? {
      Jumps(cfg, s, w, ReconcileWrite(step.a, s.rows[step.a], step.target));
    } else {
      hide PcInv;
      CrashStep(cfg, s, w);
      var pc := At(s, w);
      if pc.a in s.rows && s.rows[pc.a].version == pc.base.version { ReconcilePutStep(cfg, s, w); }
    }
  }

  lemma ReconcilePutStep(cfg: Config, s: State, w: Id)
    requires Inv(cfg, s) && At(s, w).ReconcileWrite? && At(s, w).a in s.rows
    requires s.rows[At(s, w).a].version == At(s, w).base.version
    ensures Good(cfg, s, StepReconcile(s, w, ReconcilePut(w)), w)
  {
    hide Good, Inv, PcInv, Verdict, NeedsApproval;
    WriterKnows(cfg, s, w);
    var pc := At(s, w);
    RowOk(cfg, s, pc.a);
    var action := s.rows[pc.a].action.(status := pc.goal);
    assert StepReconcile(s, w, ReconcilePut(w)) ==
           Go(s.(rows := s.rows[pc.a := Row(action, s.rows[pc.a].version + 1)]), w, Idle);
    hide StepReconcile;
    Updates(cfg, s, w, pc.a, action);
  }

  lemma PatchedOk(cfg: Config, a: Id, action: Action, patch: Patch)
    requires ActionOk(cfg, a, action) && !action.depsCut
    ensures var patched := Patched(action, patch);
            && ActionOk(cfg, a, patched) && patched.level == action.level && patched.risk == action.risk
            && patched.approvalRequired == action.approvalRequired
  {
    hide Verdict;
  }

  lemma PatchStep(cfg: Config, s: State, w: Id, step: Step)
    requires Inv(cfg, s) && (step == PatchPut(w) || (step.PatchGet? && step.w == w))
    ensures Good(cfg, s, StepReplan(cfg, s, step), w)
  {
    hide Good, Inv, NeedsApproval, Persist, Patched;
    if StepReplan(cfg, s, step) == s {
      Unchanged(cfg, s, w);
    } else if step.PatchGet? {
      Jumps(cfg, s, w, PatchWrite(step.a, s.rows[step.a], step.patch));
    } else {
      hide PcInv;
      CrashStep(cfg, s, w);
      var pc := At(s, w);
      if pc.a in s.rows && s.rows[pc.a].version == pc.base.version { PatchPutStep(cfg, s, w); }
    }
  }

  lemma PatchPutStep(cfg: Config, s: State, w: Id)
    requires Inv(cfg, s) && At(s, w).PatchWrite? && At(s, w).a in s.rows
    requires s.rows[At(s, w).a].version == At(s, w).base.version
    ensures Good(cfg, s, StepReplan(cfg, s, PatchPut(w)), w)
  {
    hide Good, Inv, PcInv, ActionOk, Patched, Persist;
    WriterKnows(cfg, s, w);
    var pc := At(s, w);
    RowOk(cfg, s, pc.a);
    PatchedOk(cfg, pc.a, s.rows[pc.a].action, pc.patch);
    var action := Patched(s.rows[pc.a].action, pc.patch);
    assert StepReplan(cfg, s, PatchPut(w)) ==
           Go(s.(rows := s.rows[pc.a := Row(action, s.rows[pc.a].version + 1)]), w, Idle);
    hide StepReplan;
    Updates(cfg, s, w, pc.a, action);
  }

  lemma DecideStep(cfg: Config, s: State, w: Id, step: Step)
    requires Inv(cfg, s) && ((step.DecideGet? && step.w == w) || (step.DecidePut? && step.w == w))
    ensures Good(cfg, s, StepDecide(s, step), w)
  {
    hide Good, Inv, Verdict;
    AtInv(cfg, s, w);
    Unchanged(cfg, s, w);
    CrashStep(cfg, s, w);
    var pc := At(s, w);
    if step.DecideGet? {
      if step.request in s.approvals {
        Jumps(cfg, s, w, Deciding(step.request, s.approvals[step.request]));
      }
    } else if pc.Deciding? {
      var decided := A.Decide(pc.loaded, step.kind, step.who);
      A.DecideIff(pc.loaded, step.kind, step.who);
      hide A.Decide;
      if decided.Ok? {
        var request := s.approvals[pc.request].(status := decided.value.status, decidedBy := decided.value.decidedBy);
        WritesApproval(cfg, s, pc.request, request, w);
        Moves(cfg, s, s.(approvals := s.approvals[pc.request := request]), w, Idle);
      }
    }
  }

  /** The data moved and nobody's position did. */
  lemma Drifts(cfg: Config, s: State, t: State, w: Id)
    requires Inv(cfg, s) && Evolves(cfg, s, t, w) && DataInv(cfg, t) && t.workers == s.workers && t.calls == s.calls
    ensures Good(cfg, s, t, w)
  {
    AtInv(cfg, s, w);
    hide Inv, DataInv, PcInv;
    PcStable(cfg, s, t, w, w, At(s, w));
  }

  lemma LedgerMoves(cfg: Config, s: State, step: L.Step, w: Id)
    requires Inv(cfg, s) && ForeignToGate(step)
    ensures Good(cfg, s, s.(ledger := L.Next(s.ledger, step)), w)
  {
    var t := s.(ledger := L.Next(s.ledger, step));
    LedgerStepOk(cfg, s.ledger, step);
    DataIsOk(cfg, s);
    hide Good, Inv, PcInv, ActionOk, CallOk, LedgerOk, L.Next;
    CallsCarryOver(cfg, s, t, w);
    Drifts(cfg, s, t, w);
  }

  lemma AddsRow(cfg: Config, s: State, a: Id, action: Action, w: Id)
    requires Inv(cfg, s) && a !in s.rows && action.status == Validated
    requires action.retryCount <= cfg.specs(a).maxRetries && Stored(cfg, a, action)
    ensures Good(cfg, s, s.(rows := s.rows[a := Row(action, 1)]), w)
  {
    WritesRow(cfg, s, a, Row(action, 1), w);
    hide Good;
    Drifts(cfg, s, s.(rows := s.rows[a := Row(action, 1)]), w);
  }

  /** The plan row is nobody's concern here. */
  lemma PlanMoves(cfg: Config, s: State, plan: PlanRow, w: Id)
    requires Inv(cfg, s)
    ensures var t := s.(plan := plan); Evolves(cfg, s, t, w) && DataInv(cfg, t)
  {
    RowsAreOk(cfg, s);
    hide Inv, Evolves, DataInv, ActionOk, RowsEvolve, ApprovalsEvolve, ApprovalsOk;
    RowsStay(cfg, s, s.(plan := plan));
    ApprovalsStay(s, s.(plan := plan));
    Rewrites(cfg, s, s.(plan := plan), w);
  }

  lemma RefreezeStep(cfg: Config, s: State, w: Id, step: Step)
    requires Inv(cfg, s) && (step == RefreezeGet(w) || step == RefreezePut(w))
    ensures Good(cfg, s, StepRefreeze(cfg, s, step), w)
  {
    hide Good, Inv, DataInv, Evolves, PlanHashOf, Loadable;
    var pc := At(s, w);
    if StepRefreeze(cfg, s, step) == s {
      Unchanged(cfg, s, w);
    } else if step.RefreezeGet? {
      Jumps(cfg, s, w, Freezing(PlanHashOf(cfg, s.rows), s.plan.version));
    } else if s.plan.hash != pc.frozen && s.plan.version == pc.planVersion {
      PlanMoves(cfg, s, PlanRow(pc.frozen, pc.planVersion + 1), w);
      Moves(cfg, s, s.(plan := PlanRow(pc.frozen, pc.planVersion + 1)), w, Idle);
    } else {
      Jumps(cfg, s, w, Idle);
    }
  }

  /** Steps nobody's position depends on: new rows, the plan row and the ledger's own
      steps. */
  lemma SharedStep(cfg: Config, s: State, step: Step, w: Id)
    requires Inv(cfg, s) && (step.AddAction? || step.LedgerStep? || step.TouchPlan?)
    ensures Good(cfg, s, Next(cfg, s, step), w)
  {
    hide Good, Inv, PcInv, DataInv, Evolves;
    Unchanged(cfg, s, w);
    if step.LedgerStep? {
      hide L.Next;
      if ForeignToGate(step.step) { LedgerMoves(cfg, s, step.step, w); }
    } else if step.TouchPlan? {
      hide Next;
      NextRefreeze(cfg, s, step);
      PlanMoves(cfg, s, s.plan.(version := s.plan.version + 1), w);
      Drifts(cfg, s, s.(plan := s.plan.(version := s.plan.version + 1)), w);
    } else {
      hide Next;
      NextReplan(cfg, s, step);
      if StepReplan(cfg, s, step) != s { AddsRow(cfg, s, step.a, Persist(cfg, step.action), w); }
    }
  }

  function Actor(step: Step): Id {
    if step.AddAction? || step.LedgerStep? || step.TouchPlan? then 0 else step.w
  }

  lemma GateStepIsGood(cfg: Config, s: State, step: Step)
    requires Inv(cfg, s) && (Gates(step) || step.ClaimAttempt?)
    ensures Good(cfg, s, Next(cfg, s, step), Actor(step))
  {
    hide Next, Good, Inv, StepExpiry, StepSettle, StepEnter, StepGate, StepConsume, StepClaim;
    NextGate(cfg, s, step);
    match step
    case SyncExpiry(w) => ExpiryStep(cfg, s, w);
    case Settle(w, now) => SettleStep(cfg, s, w, now);
    case Enter(w) => EnterStep(cfg, s, w);
    case Gate(w, now) => GateStep(cfg, s, w, now);
    case Consume(w, now) => ConsumeStep(cfg, s, w, now);
    case ClaimAttempt(w) => ClaimStep(cfg, s, w);
  }

  lemma CallStepIsGood(cfg: Config, s: State, step: Step)
    requires Inv(cfg, s) && (step.CallAdapter? || step.Verify?)
    ensures Good(cfg, s, Next(cfg, s, step), Actor(step))
  {
    hide Next, Good, Inv, StepCall, StepVerify;
    NextCall(cfg, s, step);
    match step
    case CallAdapter(w, success) => CallStep(cfg, s, w, success);
    case Verify(w, passed) => VerifyStep(cfg, s, w, passed);
  }

  lemma UpsertStepIsGood(cfg: Config, s: State, step: Step)
    requires Inv(cfg, s) && Upserts(step)
    ensures Good(cfg, s, Next(cfg, s, step), Actor(step))
  {
    hide Next, Good, Inv, StepUpsertGet, StepUpsertPut, StepUpsertGot;
    NextUpsert(cfg, s, step);
    match step
    case UpsertGet(w) => UpsertGetStep(cfg, s, w);
    case UpsertPut(w) => UpsertPutStep(cfg, s, w);
    case UpsertGot(w) => UpsertGotStep(cfg, s, w);
  }

  lemma AdvanceStepIsGood(cfg: Config, s: State, step: Step)
    requires Inv(cfg, s) && Advances(step)
    ensures Good(cfg, s, Next(cfg, s, step), Actor(step))
  {
    hide Next, Good, Inv, StepLoaded;
    NextLoaded(cfg, s, step);
    match step
    case CheckPermission(w) => CheckStep(cfg, s, w, step);
    case Ask(w, _, _, _, _) => AskStep(cfg, s, w, step);
    case Wait(w) => LeaveStep(cfg, s, w, step);
    case StartToolless(w) => LeaveStep(cfg, s, w, step);
    case PassBudgetGate(w) => GateBudgetStep(cfg, s, w, step);
    case LookAtApproval(w, _) => LookStep(cfg, s, w, step);
  }

  lemma RetryStepIsGood(cfg: Config, s: State, step: Step)
    requires Inv(cfg, s) && Retries(step)
    ensures Good(cfg, s, Next(cfg, s, step), Actor(step))
  {
    hide Next, Good, Inv, StepRetry;
    NextRetry(cfg, s, step);
    match step
    case Interrupted(w, _) => RecoverStep(cfg, s, w, step);
    case Recover(w, _, _) => RecoverStep(cfg, s, w, step);
    case RetryGet(w) => RetryGetStep(cfg, s, w, step);
    case RetryPut(w) => RetryPutStep(cfg, s, w, step);
  }

  lemma ReplanStepIsGood(cfg: Config, s: State, step: Step)
    requires Inv(cfg, s) && (step.PatchGet? || step.PatchPut? || step.RefreezeGet? || step.RefreezePut?)
    ensures Good(cfg, s, Next(cfg, s, step), Actor(step))
  {
    hide Next, Good, Inv, StepReplan, StepRefreeze;
    if Replans(step) { NextReplan(cfg, s, step); } else { NextRefreeze(cfg, s, step); }
    match step
    case PatchGet(w, _, _) => PatchStep(cfg, s, w, step);
    case PatchPut(w) => PatchStep(cfg, s, w, step);
    case RefreezeGet(w) => RefreezeStep(cfg, s, w, step);
    case RefreezePut(w) => RefreezeStep(cfg, s, w, step);
  }

  lemma OtherStepIsGood(cfg: Config, s: State, step: Step)
    requires Inv(cfg, s) && (step.Begin? || step.Crash? || Reconciles(step) || Decides(step))
    ensures Good(cfg, s, Next(cfg, s, step), Actor(step))
  {
    hide Next, Good, Inv, StepReconcile, StepDecide;
    match step
    case Begin(w, _) => BeginStep(cfg, s, w, step);
    case Crash(w) =>
      NextCrash(cfg, s, step);
      CrashStep(cfg, s, w);
    case ReconcileGet(w, _, _) =>
      NextReconcile(cfg, s, step);
      ReconcileStep(cfg, s, w, step);
    case ReconcilePut(w) =>
      NextReconcile(cfg, s, step);
      ReconcileStep(cfg, s, w, step);
    case DecideGet(w, _) =>
      NextDecide(cfg, s, step);
      DecideStep(cfg, s, w, step);
    case DecidePut(w, _, _) =>
      NextDecide(cfg, s, step);
      DecideStep(cfg, s, w, step);
  }

  lemma StepIsGood(cfg: Config, s: State, step: Step)
    requires Inv(cfg, s)
    ensures Good(cfg, s, Next(cfg, s, step), Actor(step))
  {
    hide Next, Good, Inv;
    if Gates(step) || step.ClaimAttempt? {
      GateStepIsGood(cfg, s, step);
    } else if step.CallAdapter? || step.Verify? {
      CallStepIsGood(cfg, s, step);
    } else if Upserts(step) {
      UpsertStepIsGood(cfg, s, step);
    } else if Advances(step) {
      AdvanceStepIsGood(cfg, s, step);
    } else if Retries(step) {
      RetryStepIsGood(cfg, s, step);
    } else if step.PatchGet? || step.PatchPut? || step.RefreezeGet? || step.RefreezePut? {
      ReplanStepIsGood(cfg, s, step);
    } else if step.AddAction? || step.LedgerStep? || step.TouchPlan? {
      SharedStep(cfg, s, step, 0);
    } else {
      OtherStepIsGood(cfg, s, step);
    }
  }

  lemma StepKeepsInv(cfg: Config, s: State, step: Step)
    requires Inv(cfg, s)
    ensures Good(cfg, s, Next(cfg, s, step), Actor(step))
    ensures Inv(cfg, Next(cfg, s, step))
  {
    StepIsGood(cfg, s, step);
    hide Next, Good, Inv;
    GoodKeepsInv(cfg, s, Next(cfg, s, step), Actor(step));
  }

  lemma InitInv(cfg: Config, s: State)
    requires Init(cfg, s)
    ensures Inv(cfg, s)
  {
    L.InitInv(s.ledger);
  }

  lemma {:induction false} RunsKeepInv(cfg: Config, s: State, steps: seq<Step>)
    requires Inv(cfg, s)
    ensures Inv(cfg, Exec(cfg, s, steps))
    decreases |steps|
  {
    if steps != [] {
      hide Inv, Good, Next;
      var before := Exec(cfg, s, steps[..|steps| - 1]);
      RunsKeepInv(cfg, s, steps[..|steps| - 1]);
      StepKeepsInv(cfg, before, steps[|steps| - 1]);
    }
  }
}
