/** The durable execution protocol: any number of workers advance the actions of
    one plan through permission check, approval, budget gate, execution claim,
    adapter call and verification, with retries, reconciliation, replanning and
    human decisions going on at the same time. Every repository call is one atomic
    step; a worker may crash between any two steps and loses all it knew. The
    orchestration lease is not relied on: workers may overlap freely, as they do
    after a stale-lease takeover.

    Every durable upsert rewrites all columns of an action, its payload and its
    dependencies included, from what the worker remembers. The configuration says
    what each id was persisted with; that rows keep it is a theorem. Three fields
    are history, not columns: `Attempt.owner`, `State.consumers` and the adapter
    call log. */
module Protocol {
  import opened Domain
  import P = Permission
  import A = Approval
  import L = Ledger
  import R = Recovery
  import G = Graph
  import H = PlanHash

  type Id = G.Id

  /** What an id was first persisted with. */
  datatype Spec = Spec(payload: H.Payload, maxRetries: nat, cost: Option<real>)

  /** `budgets` are the accounts that exist before the first dispatch, `adapters` the
      tools with a trusted adapter. */
  datatype Config = Config(
    plan: nat, policy: Option<string>, names: H.Names, registry: P.Registry, adapters: set<string>, specs: Id -> Spec,
    budgets: set<L.Scope>)

  /** The fields of an action in memory and in its row. A row whose dependency list was
      too long to store is `depsCut` and cannot be loaded. */
  datatype Action = Action(
    status: ActionStatus, retryCount: nat, level: P.Level, risk: P.Risk, approvalRequired: bool, approvalId: Option<Id>,
    payload: H.Payload, deps: seq<Id>, depsCut: bool, supersededBy: Option<Id>)

  datatype Row = Row(action: Action, version: nat)

  /** The ideal idempotency key: action, authorized payload, retry number. */
  datatype ExecKey = ExecKey(action: Id, hash: A.Hash, retry: nat)

  datatype Attempt = Attempt(key: ExecKey, owner: Id)

  /** An approval row as it stood when it was consumed, and when that was. */
  datatype Grant = Grant(id: Id, request: A.Request, at: int)

  /** One call of an adapter's `execute`; `paid` is the attempt number the budget
      gate was passed under. */
  datatype AdapterCall = AdapterCall(attempt: nat, key: ExecKey, paid: nat, grant: Option<Grant>)

  /** What `execute_action_durably` carries once its gates are passed. */
  datatype Ctx = Ctx(action: Action, retry: nat, paid: nat, grant: Option<Grant>)

  /** What follows a durable upsert. */
  datatype After =
    | Return
    | Toolless(stage: ActionStatus)
    | Execute(request: Id, paid: nat)
    | Claim(ctx: Ctx)
    | Dispatch(ctx: Ctx, attempt: nat, key: ExecKey)
    | Tail(action: Action)
    | Conclude(action: Action)

  datatype Patch = Supersede(replacement: Id) | Rewire(failed: Id, replacement: Id)

  datatype Pc =
    | Idle
    | Loaded(a: Id, action: Action)
    | Expiring(a: Id, action: Action, request: Id, expired: A.Request)
    | Budgeting(a: Id, action: Action, approval: Option<(Id, A.Request)>, ticket: nat)
    | Costing(a: Id, action: Action, approval: Option<(Id, A.Request)>, ticket: nat)
    | Entering(a: Id, action: Action, retry: nat, paid: nat, permit: Option<Id>)
    | Gating(a: Id, action: Action, retry: nat, paid: nat, permit: Option<Id>)
    | Consuming(a: Id, ctx: Ctx, request: Id, loaded: A.Request)
    | UpsertRead(a: Id, target: Action, tries: nat, after: After)
    | UpsertWrite(a: Id, target: Action, tries: nat, seen: Option<Row>, after: After)
    | UpsertReload(a: Id, after: After)
    | Claiming(a: Id, ctx: Ctx, hash: A.Hash)
    | Calling(a: Id, ctx: Ctx, attempt: nat, key: ExecKey)
    | Checking(a: Id, action: Action)
    | Failing(a: Id, action: Action)
    | RetryRead(a: Id)
    | RetryWrite(a: Id, base: Row)
    | ReconcileWrite(a: Id, base: Row, goal: ActionStatus)
    | PatchWrite(a: Id, base: Row, patch: Patch)
    | Freezing(frozen: H.Hash, planVersion: nat)
    | Deciding(request: Id, loaded: A.Request)

  /** The plan's own row: the frozen hash and its version. */
  datatype PlanRow = PlanRow(hash: H.Hash, version: nat)

  datatype State = State(
    rows: map<Id, Row>, plan: PlanRow, approvals: map<Id, A.Request>, consumers: map<Id, Id>, attempts: seq<Attempt>,
    ledger: L.State, calls: seq<AdapterCall>, workers: map<Id, Pc>)

  datatype Step =
    | Begin(w: Id, a: Id)
    | CheckPermission(w: Id)
    | Ask(w: Id, request: Id, requestedBy: string, expiresAt: Option<int>, now: int)
    | Wait(w: Id)
    | StartToolless(w: Id)
    | PassBudgetGate(w: Id)
    | LookAtApproval(w: Id, now: int)
    | SyncExpiry(w: Id)
    | Settle(w: Id, now: int)
    | Enter(w: Id)
    | Gate(w: Id, now: int)
    | Consume(w: Id, now: int)
    | UpsertGet(w: Id)
    | UpsertPut(w: Id)
    | UpsertGot(w: Id)
    | ClaimAttempt(w: Id)
    | CallAdapter(w: Id, success: bool)
    | Verify(w: Id, passed: bool)
    | Interrupted(w: Id, a: Id)
    | Recover(w: Id, category: FailureCategory, sideEffect: bool)
    | RetryGet(w: Id)
    | RetryPut(w: Id)
    | ReconcileGet(w: Id, a: Id, target: ActionStatus)
    | ReconcilePut(w: Id)
    | AddAction(a: Id, action: Action)
    | PatchGet(w: Id, a: Id, patch: Patch)
    | PatchPut(w: Id)
    | RefreezeGet(w: Id)
    | RefreezePut(w: Id)
    | TouchPlan
    | DecideGet(w: Id, request: Id)
    | DecidePut(w: Id, kind: A.Kind, who: string)
    | LedgerStep(step: L.Step)
    | Crash(w: Id)

  // -------------------------------------------------------- kinds of steps

  predicate Advances(step: Step) {
    || step.CheckPermission? || step.Ask? || step.Wait? || step.StartToolless? || step.PassBudgetGate?
    || step.LookAtApproval?
  }

  predicate Gates(step: Step) {
    step.SyncExpiry? || step.Settle? || step.Enter? || step.Gate? || step.Consume?
  }

  predicate Executes(step: Step) { step.ClaimAttempt? || step.CallAdapter? || step.Verify? }

  predicate Upserts(step: Step) { step.UpsertGet? || step.UpsertPut? || step.UpsertGot? }

  predicate Retries(step: Step) { step.Interrupted? || step.Recover? || step.RetryGet? || step.RetryPut? }

  predicate Reconciles(step: Step) { step.ReconcileGet? || step.ReconcilePut? }

  predicate Replans(step: Step) { step.AddAction? || step.PatchGet? || step.PatchPut? }

  predicate Refreezes(step: Step) { step.RefreezeGet? || step.RefreezePut? || step.TouchPlan? }

  predicate Decides(step: Step) { step.DecideGet? || step.DecidePut? }

  // ---------------------------------------------------------- configuration

  function ProposalOf(payload: H.Payload, level: P.Level, risk: P.Risk): P.Proposal {
    P.Proposal(payload.actionType, payload.toolName, level, risk)
  }

  function DecisionFor(cfg: Config, action: Action): P.Decision {
    P.Evaluate(ProposalOf(action.payload, action.level, action.risk), cfg.registry)
  }

  /** The authoritative verdict on an action, whatever was proposed for it. */
  function Verdict(cfg: Config, a: Id): P.Decision {
    P.Evaluate(ProposalOf(cfg.specs(a).payload, P.Read, P.Low), cfg.registry)
  }

  function HashOf(action: Action): A.Hash {
    var payload := action.payload;
    A.Hash(payload.actionType, payload.toolName, payload.inputs.value, payload.expectedResult, action.level,
           action.risk)
  }

  function SubjectOf(a: Id, action: Action): A.Subject {
    A.Subject(a, HashOf(action), action.status)
  }

  function AttemptsScope(cfg: Config): L.Scope { L.Scope(L.PlanScope, cfg.plan, L.ActionAttempts) }

  function CostScope(cfg: Config): L.Scope { L.Scope(L.PlanScope, cfg.plan, L.EstimatedCost) }

  function AttemptsRequest(cfg: Config, a: Id, number: nat): L.Request {
    L.Request(AttemptsScope(cfg), 1.0, L.Key(L.ActionAttempts, cfg.plan, a, number), None)
  }

  function CostOf(cfg: Config, a: Id): real {
    if cfg.specs(a).cost.Some? then cfg.specs(a).cost.value else 0.0
  }

  function CostRequest(cfg: Config, a: Id, number: nat): L.Request {
    L.Request(CostScope(cfg), CostOf(cfg, a), L.Key(L.EstimatedCost, cfg.plan, a, number), None)
  }

  // ------------------------------------------------------------- persistence

  /** What a durable upsert stores of an action. */
  function Persist(cfg: Config, action: Action): Action {
    action.(payload := H.Bounded(action.payload), depsCut := !H.Fits(cfg.names, action.deps))
  }

  /** A row as persistence leaves it: the payload the id was persisted with, within its
      bounds, and a cut list only where the list does not fit. */
  predicate Stored(cfg: Config, a: Id, action: Action) {
    && action.payload == cfg.specs(a).payload == H.Bounded(action.payload)
    && (action.depsCut ==> !H.Fits(cfg.names, action.deps))
  }

  /** `compute_plan_hash` of the loaded plan. */
  function PlanHashOf(cfg: Config, rows: map<Id, Row>): H.Hash {
    H.Hash(cfg.plan, H.NormalizePolicy(cfg.policy),
           map a | a in rows :: H.EntryFor(rows[a].action.payload, rows[a].action.deps))
  }

  predicate Loadable(rows: map<Id, Row>) { forall a | a in rows :: !rows[a].action.depsCut }

  /** The mutation guard at the start of a run lets it through. */
  predicate GuardSilent(cfg: Config, s: State) {
    Loadable(s.rows) && PlanHashOf(cfg, s.rows) == s.plan.hash
  }

  // ------------------------------------------------------- in-memory moves

  /** `apply_permission_decision`. */
  function ApplyDecision(action: Action, decision: P.Decision): Action {
    action.(status := if decision.outcome == P.Block then Blocked else PermissionChecked,
            level := decision.level, risk := decision.risk, approvalRequired := decision.approvalRequired)
  }

  /** The status a gate failure writes, by the status it happens in. */
  function FailTarget(status: ActionStatus): ActionStatus {
    match status
    case Planned => Failed
    case Validated => Failed
    case PermissionChecked => Failed
    case Approved => Cancelled
    case WaitingForApproval => Cancelled
    case _ => status
  }

  function FailDurable(a: Id, action: Action): Pc {
    var failed := action.(status := FailTarget(action.status));
    UpsertRead(a, failed, 0, Conclude(failed))
  }

  /** What a worker does with an action it has just advanced: a failure goes on to the
      recovery policy. */
  function Concluded(a: Id, action: Action): Pc {
    if action.status == Failed then Failing(a, action) else Idle
  }

  function ToollessSuccessor(stage: ActionStatus): ActionStatus {
    match stage
    case Executing => ExecutionSucceeded
    case ExecutionSucceeded => Verifying
    case Verifying => Verified
    case _ => Completed
  }

  /** The executor's own chain after the adapter call. */
  function TailNext(a: Id, action: Action): Pc {
    match action.status
    case ExecutionSucceeded => UpsertRead(a, action.(status := Verifying), 0, Tail(action.(status := Verifying)))
    case Verifying => Checking(a, action)
    case Verified => UpsertRead(a, action.(status := Completed), 0, Tail(action.(status := Completed)))
    case _ => Concluded(a, action)
  }

  /** What a worker does with the row an upsert returned. */
  function Resume(a: Id, after: After, row: Row): Pc {
    match after
    case Return => if row.action.depsCut then Idle else Concluded(a, row.action)
    case Toolless(stage) =>
      var target := ToollessSuccessor(stage);
      if stage != Completed && CanTransition(row.action.status, target) && !row.action.depsCut
      then UpsertRead(a, row.action.(status := target), 0, Toolless(target)) else Idle
    case Execute(request, paid) => if row.action.depsCut then Idle else Entering(a, row.action, 0, paid, Some(request))
    case Claim(ctx) => Claiming(a, ctx, HashOf(row.action))
    case Dispatch(ctx, attempt, key) => Calling(a, ctx, attempt, key)
    case Tail(action) => TailNext(a, action)
    case Conclude(action) => Concluded(a, action)
  }

  // ------------------------------------------------------------------ steps

  function At(s: State, w: Id): Pc {
    if w in s.workers then s.workers[w] else Idle
  }

  function Go(s: State, w: Id, pc: Pc): State {
    s.(workers := s.workers[w := pc])
  }

  function Submitted(s: State, request: L.Request): State {
    s.(ledger := L.Next(s.ledger, L.Submit(request)))
  }

  function StepLoaded(cfg: Config, s: State, w: Id, step: Step): State {
    var pc := At(s, w);
    if !pc.Loaded? then s
    else
      var a, action := pc.a, pc.action;
      var decision := DecisionFor(cfg, action);
      match step
      case CheckPermission(_) =>
        if action.status == Validated then Go(s, w, UpsertRead(a, ApplyDecision(action, decision), 0, Return)) else s
      case Ask(_, id, requestedBy, expiresAt, now) =>
        if action.status == PermissionChecked && decision.outcome == P.RequireApproval && action.approvalId.None?
            && id !in s.approvals
        then
          var created := A.Create(SubjectOf(a, action), decision, requestedBy, expiresAt, now);
          if created.Ok?
          then Go(s.(approvals := s.approvals[id := created.value]), w, Loaded(a, action.(approvalId := Some(id))))
          else Go(s, w, Idle)
        else s
      case Wait(_) =>
        if action.status == PermissionChecked && decision.outcome == P.RequireApproval && action.approvalId.Some?
        then Go(s, w, UpsertRead(a, action.(status := WaitingForApproval), 0, Return)) else s
      case StartToolless(_) =>
        if action.status == PermissionChecked && decision.outcome != P.RequireApproval
            && !P.RequiresTool(action.payload.actionType)
        then Go(s, w, UpsertRead(a, action.(status := Executing), 0, Toolless(Executing))) else s
      case PassBudgetGate(_) =>
        if action.status == PermissionChecked && decision.outcome != P.RequireApproval
            && P.RequiresTool(action.payload.actionType)
        then Go(Submitted(s, AttemptsRequest(cfg, a, action.retryCount)), w,
                Budgeting(a, action, None, |s.ledger.calls|)) else s
      case LookAtApproval(_, now) =>
        if action.status != WaitingForApproval then s
        else if action.approvalId.None? || action.approvalId.value !in s.approvals then Go(s, w, Idle)
        else
          var id := action.approvalId.value;
          var request := s.approvals[id];
          (match request.status
           case Pending =>
             var expired := A.Expire(request, now);
             if expired.Ok? then Go(s, w, Expiring(a, action, id, expired.value)) else Go(s, w, Idle)
           case Approved =>
             Go(Submitted(s, AttemptsRequest(cfg, a, action.retryCount)), w,
                Budgeting(a, action, Some((id, request)), |s.ledger.calls|))
           case _ =>
             var final := A.Finalize(SubjectOf(a, action), request);
             if final.Ok? then Go(s, w, UpsertRead(a, action.(status := final.value), 0, Return)) else Go(s, w, Idle))
      case _ => s
  }

  function StepExpiry(s: State, w: Id): State {
    var pc := At(s, w);
    if !pc.Expiring? then s
    else
      var final := A.Finalize(SubjectOf(pc.a, pc.action), pc.expired);
      var next := if final.Ok? then UpsertRead(pc.a, pc.action.(status := final.value), 0, Return) else Idle;
      if pc.request !in s.approvals then Go(s, w, next)
      else
        Go(s.(approvals := s.approvals[pc.request := s.approvals[pc.request].(status := pc.expired.status,
                                                                              decidedBy := pc.expired.decidedBy)]),
           w, next)
  }

  /** Past the budget gate: straight to the executor, or through authorization. */
  function Proceed(s: State, w: Id, a: Id, action: Action, approval: Option<(Id, A.Request)>, now: int): State {
    if approval.None? then Go(s, w, Entering(a, action, action.retryCount, action.retryCount, None))
    else
      var authorized := A.Authorize(SubjectOf(a, action), approval.value.1, now);
      if authorized.Ok?
      then Go(s, w, UpsertRead(a, action.(status := authorized.value), 0, Execute(approval.value.0, action.retryCount)))
      else Go(s, w, Idle)
  }

  function StepSettle(cfg: Config, s: State, w: Id, now: int): State {
    var pc := At(s, w);
    if !pc.Budgeting? && !pc.Costing? then s
    else if pc.ticket >= |s.ledger.calls| then s
    else
      match s.ledger.calls[pc.ticket].phase
      case Done(outcome) =>
        if !L.IsGrant(outcome) then Go(s, w, UpsertRead(pc.a, pc.action.(status := Failed), 0, Return))
        else if pc.Budgeting? && CostOf(cfg, pc.a) != 0.0 then
          Go(Submitted(s, CostRequest(cfg, pc.a, pc.action.retryCount)), w,
             Costing(pc.a, pc.action, pc.approval, |s.ledger.calls|))
        else Proceed(s, w, pc.a, pc.action, pc.approval, now)
      case Raised => Go(s, w, Idle)
      case Crashed => Go(s, w, Idle)
      case _ => s
  }

  function StepEnter(s: State, w: Id): State {
    var pc := At(s, w);
    if !pc.Entering? then s
    else if (pc.a in s.rows && s.rows[pc.a].action.status == Completed) || pc.action.status == Completed
    then Go(s, w, Idle)
    else Go(s, w, Gating(pc.a, pc.action, pc.retry, pc.paid, pc.permit))
  }

  function StepGate(cfg: Config, s: State, w: Id, now: int): State {
    var pc := At(s, w);
    if !pc.Gating? then s
    else
      var a, action := pc.a, pc.action;
      var ctx := Ctx(action, pc.retry, pc.paid, None);
      match DecisionFor(cfg, action).outcome
      case Block => Go(s, w, FailDurable(a, action))
      case RequireApproval =>
        if action.status == Approved && pc.permit.Some? && pc.permit.value in s.approvals
           && A.Valid(s.approvals[pc.permit.value], SubjectOf(a, action), now)
        then Go(s, w, Consuming(a, ctx, pc.permit.value, s.approvals[pc.permit.value]))
        else Go(s, w, FailDurable(a, action))
      case _ =>
        if action.status == PermissionChecked then Go(s, w, UpsertRead(a, action, 0, Claim(ctx)))
        else Go(s, w, FailDurable(a, action))
  }

  function StepConsume(s: State, w: Id, now: int): State {
    var pc := At(s, w);
    if !pc.Consuming? then s
    else if pc.request in s.approvals && A.Consumable(s.approvals[pc.request], pc.a, pc.loaded.hash, now) then
      var request := s.approvals[pc.request];
      Go(s.(approvals := s.approvals[pc.request := request.(consumed := true)],
            consumers := s.consumers[pc.request := w]),
         w, UpsertRead(pc.a, pc.ctx.action, 0, Claim(pc.ctx.(grant := Some(Grant(pc.request, request, now))))))
    else Go(s, w, FailDurable(pc.a, pc.ctx.action))
  }

  /** The monotonic-progress guard: this row is left alone. */
  predicate LeavesAlone(row: Row, target: Action) { Outranks(row.action.status, target.status) }

  function StepUpsertGet(s: State, w: Id): State {
    var pc := At(s, w);
    if !pc.UpsertRead? then s
    else if pc.a !in s.rows then Go(s, w, UpsertWrite(pc.a, pc.target, pc.tries, None, pc.after))
    else if LeavesAlone(s.rows[pc.a], pc.target) then Go(s, w, Resume(pc.a, pc.after, s.rows[pc.a]))
    else Go(s, w, UpsertWrite(pc.a, pc.target, pc.tries, Some(s.rows[pc.a]), pc.after))
  }

  function StepUpsertPut(cfg: Config, s: State, w: Id): State {
    var pc := At(s, w);
    if !pc.UpsertWrite? then s
    else if pc.target.payload.inputs.jsonChars > H.MAX_INPUTS_JSON_CHARS then Go(s, w, Idle)
    else if pc.seen.None? && pc.a !in s.rows then
      var row := Row(Persist(cfg, pc.target), 1);
      Go(s.(rows := s.rows[pc.a := row]), w, Resume(pc.a, pc.after, row))
    else if pc.seen.Some? && pc.a in s.rows && s.rows[pc.a].version == pc.seen.value.version then
      var row := Row(Persist(cfg, pc.target), pc.seen.value.version + 1);
      Go(s.(rows := s.rows[pc.a := row]), w, UpsertReload(pc.a, pc.after))
    else if pc.tries + 1 < UPSERT_MAX_ATTEMPTS then Go(s, w, UpsertRead(pc.a, pc.target, pc.tries + 1, pc.after))
    else Go(s, w, if pc.after.Conclude? then Concluded(pc.a, pc.after.action) else Idle)
  }

  function StepUpsertGot(s: State, w: Id): State {
    var pc := At(s, w);
    if !pc.UpsertReload? || pc.a !in s.rows then s else Go(s, w, Resume(pc.a, pc.after, s.rows[pc.a]))
  }

  predicate Claimed(attempts: seq<Attempt>, key: ExecKey) {
    exists i | 0 <= i < |attempts| :: attempts[i].key == key
  }

  function StepClaim(cfg: Config, s: State, w: Id): State {
    var pc := At(s, w);
    if !pc.Claiming? then s
    else
      var payload := pc.ctx.action.payload;
      var key := ExecKey(pc.a, pc.hash, pc.ctx.retry);
      if payload.toolName.None? || !P.Resolve(cfg.registry, payload.toolName.value, payload.actionType).Resolved?
         || payload.toolName.value !in cfg.adapters
      then Go(s, w, FailDurable(pc.a, pc.ctx.action))
      else if Claimed(s.attempts, key) then Go(s, w, Idle)
      else
        var t := s.(attempts := s.attempts + [Attempt(key, w)]);
        if CanTransition(pc.ctx.action.status, Executing)
        then Go(t, w, UpsertRead(pc.a, pc.ctx.action.(status := Executing), 0, Dispatch(pc.ctx, |s.attempts|, key)))
        else Go(t, w, Idle)
  }

  function StepCall(s: State, w: Id, success: bool): State {
    var pc := At(s, w);
    if !pc.Calling? then s
    else
      var done := pc.ctx.action.(status := if success then ExecutionSucceeded else Failed);
      Go(s.(calls := s.calls + [AdapterCall(pc.attempt, pc.key, pc.ctx.paid, pc.ctx.grant)]),
         w, UpsertRead(pc.a, done, 0, Tail(done)))
  }

  function StepVerify(s: State, w: Id, passed: bool): State {
    var pc := At(s, w);
    if !pc.Checking? then s
    else
      var done := pc.action.(status := if passed then Verified else Failed);
      Go(s, w, UpsertRead(pc.a, done, 0, Tail(done)))
  }

  predicate Retryable(row: Row, maxRetries: nat) {
    RetrySource(row.action.status) && row.action.retryCount < maxRetries
  }

  function StepRetry(cfg: Config, s: State, w: Id, step: Step): State {
    var pc := At(s, w);
    match step
    case Interrupted(_, a) =>
      if pc.Idle? && a in s.rows && s.rows[a].action.status == Executing && !s.rows[a].action.depsCut
      then Go(s, w, Failing(a, s.rows[a].action)) else s
    case Recover(_, category, sideEffect) =>
      if !pc.Failing? then s
      else if R.Evaluate(category, sideEffect, pc.action.retryCount, cfg.specs(pc.a).maxRetries,
                         pc.action.approvalRequired, true)
              == R.Retry
      then Go(s, w, RetryRead(pc.a)) else Go(s, w, Idle)
    case RetryGet(_) =>
      if !pc.RetryRead? then s
      else if pc.a in s.rows && Retryable(s.rows[pc.a], cfg.specs(pc.a).maxRetries)
      then Go(s, w, RetryWrite(pc.a, s.rows[pc.a])) else Go(s, w, Idle)
    case RetryPut(_) =>
      if !pc.RetryWrite? then s
      else if pc.a in s.rows && s.rows[pc.a].version == pc.base.version then
        var action := s.rows[pc.a].action;
        Go(s.(rows := s.rows[pc.a := Row(action.(status := Validated, retryCount := pc.base.action.retryCount + 1),
                                         pc.base.version + 1)]),
           w, Idle)
      else Go(s, w, Idle)
    case _ => s
  }

  function StepReconcile(s: State, w: Id, step: Step): State {
    var pc := At(s, w);
    match step
    case ReconcileGet(_, a, target) =>
      if pc.Idle? && a in s.rows && InProgress(s.rows[a].action.status) && !s.rows[a].action.depsCut
         && target in {ExecutionSucceeded, Verifying, Verified, Completed}
         && CanTransition(s.rows[a].action.status, target)
      then Go(s, w, ReconcileWrite(a, s.rows[a], target)) else s
    case ReconcilePut(_) =>
      if !pc.ReconcileWrite? then s
      else if pc.a in s.rows && s.rows[pc.a].version == pc.base.version then
        Go(s.(rows := s.rows[pc.a := Row(s.rows[pc.a].action.(status := pc.goal), pc.base.version + 1)]), w, Idle)
      else Go(s, w, Idle)
    case _ => s
  }

  function Patched(action: Action, patch: Patch): Action {
    match patch
    case Supersede(replacement) => action.(supersededBy := Some(replacement))
    case Rewire(failed, replacement) => action.(deps := G.Sorted(G.Replaced(action.deps, failed, replacement)))
  }

  function StepReplan(cfg: Config, s: State, step: Step): State {
    match step
    case AddAction(a, action) =>
      if a !in s.rows && action.status == Validated && action.retryCount <= cfg.specs(a).maxRetries
         && H.Bounded(action.payload) == cfg.specs(a).payload
      then s.(rows := s.rows[a := Row(Persist(cfg, action), 1)]) else s
    case PatchGet(w, a, patch) =>
      if At(s, w).Idle? && a in s.rows && !s.rows[a].action.depsCut
         && (patch.Rewire? ==> patch.failed in s.rows[a].action.deps && patch.failed != a)
      then Go(s, w, PatchWrite(a, s.rows[a], patch)) else s
    case PatchPut(w) =>
      var pc := At(s, w);
      if !pc.PatchWrite? then s
      else if pc.a in s.rows && s.rows[pc.a].version == pc.base.version then
        Go(s.(rows := s.rows[pc.a := Row(Patched(s.rows[pc.a].action, pc.patch), pc.base.version + 1)]), w, Idle)
      else Go(s, w, Idle)
    case _ => s
  }

  /** Re-freezing the hash of the plan as loaded, and the orchestrator's own writes of
      the plan row. */
  function StepRefreeze(cfg: Config, s: State, step: Step): State {
    match step
    case RefreezeGet(w) =>
      if At(s, w).Idle? && Loadable(s.rows) then Go(s, w, Freezing(PlanHashOf(cfg, s.rows), s.plan.version)) else s
    case RefreezePut(w) =>
      var pc := At(s, w);
      if !pc.Freezing? then s
      else if s.plan.hash != pc.frozen && s.plan.version == pc.planVersion
      then Go(s.(plan := PlanRow(pc.frozen, pc.planVersion + 1)), w, Idle) else Go(s, w, Idle)
    case TouchPlan => s.(plan := s.plan.(version := s.plan.version + 1))
    case _ => s
  }

  /** A human loads a request, decides, and writes the decision back without a guard. */
  function StepDecide(s: State, step: Step): State {
    match step
    case DecideGet(w, id) =>
      if At(s, w).Idle? && id in s.approvals then Go(s, w, Deciding(id, s.approvals[id])) else s
    case DecidePut(w, kind, who) =>
      var pc := At(s, w);
      if !pc.Deciding? then s
      else
        var decided := A.Decide(pc.loaded, kind, who);
        if decided.Ok? && pc.request in s.approvals then
          Go(s.(approvals := s.approvals[pc.request :=
                  s.approvals[pc.request].(status := decided.value.status, decidedBy := decided.value.decidedBy)]), w,
                      Idle)
        else Go(s, w, Idle)
    case _ => s
  }

  /** Steps of calls already submitted, and requests for budgets the execution gate
      does not use. */
  predicate ForeignToGate(step: L.Step) {
    step.Submit? ==>
      && step.request.key.budgetType !in {L.ActionAttempts, L.EstimatedCost}
      && step.request.scope.budgetType !in {L.ActionAttempts, L.EstimatedCost}
  }

  function Next(cfg: Config, s: State, step: Step): State {
    match step
    case Begin(w, a) =>
      if At(s, w).Idle? && a in s.rows && !s.rows[a].action.depsCut then Go(s, w, Loaded(a, s.rows[a].action)) else s
    case CheckPermission(w) => StepLoaded(cfg, s, w, step)
    case Ask(w, _, _, _, _) => StepLoaded(cfg, s, w, step)
    case Wait(w) => StepLoaded(cfg, s, w, step)
    case StartToolless(w) => StepLoaded(cfg, s, w, step)
    case PassBudgetGate(w) => StepLoaded(cfg, s, w, step)
    case LookAtApproval(w, _) => StepLoaded(cfg, s, w, step)
    case SyncExpiry(w) => StepExpiry(s, w)
    case Settle(w, now) => StepSettle(cfg, s, w, now)
    case Enter(w) => StepEnter(s, w)
    case Gate(w, now) => StepGate(cfg, s, w, now)
    case Consume(w, now) => StepConsume(s, w, now)
    case UpsertGet(w) => StepUpsertGet(s, w)
    case UpsertPut(w) => StepUpsertPut(cfg, s, w)
    case UpsertGot(w) => StepUpsertGot(s, w)
    case ClaimAttempt(w) => StepClaim(cfg, s, w)
    case CallAdapter(w, success) => StepCall(s, w, success)
    case Verify(w, passed) => StepVerify(s, w, passed)
    case Interrupted(w, _) => StepRetry(cfg, s, w, step)
    case Recover(w, _, _) => StepRetry(cfg, s, w, step)
    case RetryGet(w) => StepRetry(cfg, s, w, step)
    case RetryPut(w) => StepRetry(cfg, s, w, step)
    case ReconcileGet(w, _, _) => StepReconcile(s, w, step)
    case ReconcilePut(w) => StepReconcile(s, w, step)
    case AddAction(_, _) => StepReplan(cfg, s, step)
    case PatchGet(_, _, _) => StepReplan(cfg, s, step)
    case PatchPut(_) => StepReplan(cfg, s, step)
    case RefreezeGet(_) => StepRefreeze(cfg, s, step)
    case RefreezePut(_) => StepRefreeze(cfg, s, step)
    case TouchPlan => StepRefreeze(cfg, s, step)
    case DecideGet(_, _) => StepDecide(s, step)
    case DecidePut(_, _, _) => StepDecide(s, step)
    case LedgerStep(l) => if ForeignToGate(l) then s.(ledger := L.Next(s.ledger, l)) else s
    case Crash(w) => Go(s, w, Idle)
  }

  function Exec(cfg: Config, s: State, steps: seq<Step>): State
    decreases |steps|
  {
    if steps == [] then s else Next(cfg, Exec(cfg, s, steps[..|steps| - 1]), steps[|steps| - 1])
  }

  /** A freshly persisted plan: every action VALIDATED, nothing approved, claimed,
      charged or called, and the configured budget accounts open. */
  predicate Init(cfg: Config, s: State) {
    && (forall a | a in s.rows ::
          && s.rows[a].action.status == Validated && s.rows[a].action.retryCount <= cfg.specs(a).maxRetries
          && Stored(cfg, a, s.rows[a].action))
    && s.approvals == map[] && s.consumers == map[] && s.attempts == [] && s.calls == [] && s.workers == map[]
    && L.Init(s.ledger) && cfg.budgets <= s.ledger.accounts.Keys
  }
}
