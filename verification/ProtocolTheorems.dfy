/** What the execution protocol guarantees over every run. */
module ProtocolTheorems {
  import opened Domain
  import P = Permission
  import A = Approval
  import L = Ledger
  import R = Recovery
  import opened Protocol
  import opened ProtocolSafety
  import Steps = ProtocolSteps

  /** A state some run of the protocol reaches from a freshly persisted plan. */
  ghost predicate Reachable(cfg: Config, s: State) {
    exists s0, steps :: Init(cfg, s0) && Exec(cfg, s0, steps) == s
  }

  lemma ReachableInv(cfg: Config, s: State)
    requires Reachable(cfg, s)
    ensures Inv(cfg, s)
  {
    var s0, steps :| Init(cfg, s0) && Exec(cfg, s0, steps) == s;
    Steps.InitInv(cfg, s0);
    Steps.RunsKeepInv(cfg, s0, steps);
  }

  // -------------------------------------------------------- execution bounds

  ghost predicate DistinctKeys(calls: seq<AdapterCall>) {
    forall i, j | 0 <= i < j < |calls| :: calls[i].key != calls[j].key
  }

  /** An adapter runs at most once per idempotency key, whoever races and wherever
      workers crash. */
  lemma AtMostOncePerKey(cfg: Config, s: State)
    requires Reachable(cfg, s)
    ensures DistinctKeys(s.calls)
  {
    ReachableInv(cfg, s);
    forall i, j | 0 <= i < j < |s.calls|
      ensures s.calls[i].key != s.calls[j].key
    {
      assert CallOk(cfg, s, s.calls[i]) && CallOk(cfg, s, s.calls[j]);
      assert s.calls[i].attempt != s.calls[j].attempt;
    }
  }

  function CountCalls(calls: seq<AdapterCall>, a: Id): nat {
    if calls == [] then 0
    else CountCalls(calls[..|calls| - 1], a) + (if calls[|calls| - 1].key.action == a then 1 else 0)
  }

  /** The retry numbers an action's adapter was called under. */
  function RetriesUsed(calls: seq<AdapterCall>, a: Id): set<nat> {
    if calls == [] then {}
    else
      RetriesUsed(calls[..|calls| - 1], a)
      + (if calls[|calls| - 1].key.action == a then {calls[|calls| - 1].key.retry} else {})
  }

  lemma {:induction false} UsedByACall(calls: seq<AdapterCall>, a: Id, retry: nat) returns (i: nat)
    requires retry in RetriesUsed(calls, a)
    ensures i < |calls| && calls[i].key.action == a && calls[i].key.retry == retry
  {
    var n := |calls| - 1;
    if calls[n].key.action == a && calls[n].key.retry == retry {
      i := n;
    } else {
      i := UsedByACall(calls[..n], a, retry);
    }
  }

  lemma {:induction false} CountIsRetries(cfg: Config, calls: seq<AdapterCall>, a: Id)
    requires DistinctKeys(calls)
    requires forall i | 0 <= i < |calls| :: calls[i].key.hash == AuthorizedHash(cfg, calls[i].key.action)
    ensures CountCalls(calls, a) == |RetriesUsed(calls, a)|
  {
    if calls != [] {
      var n := |calls| - 1;
      CountIsRetries(cfg, calls[..n], a);
      if calls[n].key.action == a && calls[n].key.retry in RetriesUsed(calls[..n], a) {
        var i := UsedByACall(calls[..n], a, calls[n].key.retry);
        assert false;
      }
    }
  }

  lemma {:induction false} SizeOfRange(xs: set<nat>, bound: nat)
    requires forall x | x in xs :: x <= bound
    ensures |xs| <= bound + 1
  {
    if bound == 0 {
      assert xs <= {0};
      SubsetSize(xs, {0});
    } else {
      SizeOfRange(xs - {bound}, bound - 1);
      assert |xs| <= |xs - {bound}| + 1 by {
        if bound in xs { assert xs == (xs - {bound}) + {bound}; } else { assert xs - {bound} == xs; }
      }
    }
  }

  lemma {:induction false} SubsetSize<T>(xs: set<T>, ys: set<T>)
    requires xs <= ys
    ensures |xs| <= |ys|
    decreases |xs|
  {
    if xs != {} {
      var x :| x in xs;
      SubsetSize(xs - {x}, ys - {x});
    }
  }

  /** However often workers crash and retries are authorized, an action's adapter runs
      at most `max_retries + 1` times, and at most once if the action needs approval. */
  lemma ExecutionsBounded(cfg: Config, s: State, a: Id)
    requires Reachable(cfg, s)
    ensures CountCalls(s.calls, a) <= cfg.specs(a).maxRetries + 1
    ensures NeedsApproval(cfg, a) ==> CountCalls(s.calls, a) <= 1
  {
    ReachableInv(cfg, s);
    AtMostOncePerKey(cfg, s);
    forall i | 0 <= i < |s.calls|
      ensures s.calls[i].key.hash == AuthorizedHash(cfg, s.calls[i].key.action)
      ensures s.calls[i].key.retry <= cfg.specs(s.calls[i].key.action).maxRetries
      ensures NeedsApproval(cfg, s.calls[i].key.action) ==> s.calls[i].key.retry == 0
    {
      assert CallOk(cfg, s, s.calls[i]);
    }
    CountIsRetries(cfg, s.calls, a);
    forall retry | retry in RetriesUsed(s.calls, a)
      ensures retry <= cfg.specs(a).maxRetries && (NeedsApproval(cfg, a) ==> retry == 0)
    {
      var i := UsedByACall(s.calls, a, retry);
    }
    SizeOfRange(RetriesUsed(s.calls, a), cfg.specs(a).maxRetries);
    if NeedsApproval(cfg, a) {
      SizeOfRange(RetriesUsed(s.calls, a), 0);
    }
  }

  // ------------------------------------------------------------ budget bounds

  function Total(requests: seq<L.Request>): real {
    if requests == [] then 0.0 else Total(requests[..|requests| - 1]) + requests[|requests| - 1].amount
  }

  function Without<T>(xs: seq<T>, k: nat): seq<T>
    requires k < |xs|
  {
    xs[..k] + xs[k + 1..]
  }

  lemma {:induction false} TotalWithout(requests: seq<L.Request>, k: nat)
    requires k < |requests|
    ensures Total(requests) == Total(Without(requests, k)) + requests[k].amount
  {
    var n := |requests| - 1;
    if k == n {
      assert Without(requests, k) == requests[..n];
    } else {
      TotalWithout(requests[..n], k);
      assert Without(requests, k)[..n - 1] == Without(requests[..n], k);
      assert Without(requests, k)[n - 1] == requests[n];
    }
  }

  lemma {:induction false} TotalZero(requests: seq<L.Request>)
    requires forall i | 0 <= i < |requests| :: requests[i].amount == 0.0
    ensures Total(requests) == 0.0
  {
    if requests != [] { TotalZero(requests[..|requests| - 1]); }
  }

  /** Requests of one account that map injectively to applied events cannot together
      come to more than the applied events do. */
  lemma {:induction false} InjectionBounds(events: seq<L.Event>, requests: seq<L.Request>, scope: L.Scope)
    requires forall i | 0 <= i < |events| && events[i].scope == scope && events[i].applied :: events[i].delta >= 0.0
    requires forall i, j | 0 <= i < j < |requests| :: requests[i].key != requests[j].key
    requires forall i | 0 <= i < |requests| && requests[i].amount != 0.0 ::
              requests[i].scope == scope && L.AppliedFor(events, requests[i])
    ensures Total(requests) <= L.Applied(events, scope)
    decreases |events|, |requests|
  {
    if events == [] {
      TotalZero(requests);
    } else {
      var n := |events| - 1;
      var last := events[n];
      if k :| && 0 <= k < |requests| && requests[k].amount != 0.0
              && last == L.Event(scope, requests[k].key, requests[k].amount, true) {
        TotalWithout(requests, k);
        var rest := Without(requests, k);
        forall i | 0 <= i < |rest| && rest[i].amount != 0.0
          ensures rest[i].scope == scope && L.AppliedFor(events[..n], rest[i])
        {
          var j := if i < k then i else i + 1;
          assert rest[i] == requests[j] && requests[j].key != requests[k].key;
          StillApplied(events, requests[j]);
        }
        InjectionBounds(events[..n], rest, scope);
      } else {
        forall i | 0 <= i < |requests| && requests[i].amount != 0.0
          ensures requests[i].scope == scope && L.AppliedFor(events[..n], requests[i])
        {
          StillApplied(events, requests[i]);
        }
        InjectionBounds(events[..n], requests, scope);
      }
    }
  }

  lemma StillApplied(events: seq<L.Event>, request: L.Request)
    requires L.AppliedFor(events, request) && |events| > 0
    requires events[|events| - 1] != L.Event(request.scope, request.key, request.amount, true)
    ensures L.AppliedFor(events[..|events| - 1], request)
  {
    var i :| 0 <= i < |events| && events[i] == L.Event(request.scope, request.key, request.amount, true);
    assert events[..|events| - 1][i] == events[i];
  }

  /** The gate request an adapter call was made under. */
  function GateRequest(cfg: Config, call: AdapterCall, cost: bool): L.Request {
    if cost then CostRequest(cfg, call.key.action, call.paid) else AttemptsRequest(cfg, call.key.action, call.paid)
  }

  function GateRequests(cfg: Config, calls: seq<AdapterCall>, cost: bool): seq<L.Request> {
    seq(|calls|, i requires 0 <= i < |calls| => GateRequest(cfg, calls[i], cost))
  }

  /** Two adapter calls never share a passage of the budget gate. */
  lemma GateKeysDistinct(cfg: Config, s: State, cost: bool)
    requires Reachable(cfg, s)
    ensures var requests := GateRequests(cfg, s.calls, cost);
            forall i, j | 0 <= i < j < |requests| :: requests[i].key != requests[j].key
  {
    ReachableInv(cfg, s);
    AtMostOncePerKey(cfg, s);
    forall i, j | 0 <= i < j < |s.calls|
      ensures GateRequest(cfg, s.calls[i], cost).key != GateRequest(cfg, s.calls[j], cost).key
    {
      assert CallOk(cfg, s, s.calls[i]) && CallOk(cfg, s, s.calls[j]);
    }
  }

  lemma CallsWithinAccount(cfg: Config, s: State, cost: bool)
    requires Reachable(cfg, s)
    requires cost ==> forall a :: CostOf(cfg, a) >= 0.0
    requires (if cost then CostScope(cfg) else AttemptsScope(cfg)) in cfg.budgets
    ensures var scope := if cost then CostScope(cfg) else AttemptsScope(cfg);
            scope in s.ledger.accounts
                && Total(GateRequests(cfg, s.calls,
                                      cost)) <= L.Applied(s.ledger.events, scope) <= L.ConsumedOf(s.ledger, scope)
  {
    var scope := if cost then CostScope(cfg) else AttemptsScope(cfg);
    ReachableInv(cfg, s);
    GateKeysDistinct(cfg, s, cost);
    var requests := GateRequests(cfg, s.calls, cost);
    forall i | 0 <= i < |requests| && requests[i].amount != 0.0
      ensures requests[i].scope == scope && L.AppliedFor(s.ledger.events, requests[i])
    {
      assert CallOk(cfg, s, s.calls[i]);
      assert Paid(cfg, s.ledger, s.calls[i].key.action, s.calls[i].paid);
    }
    forall i | 0 <= i < |s.ledger.events| && s.ledger.events[i].scope == scope && s.ledger.events[i].applied
      ensures s.ledger.events[i].delta >= 0.0
    {
      assert TypedEvent(cfg, s.ledger.events[i]);
    }
    InjectionBounds(s.ledger.events, requests, scope);
    HeldNonNegative(cfg, s.ledger, s.ledger.calls, scope, cost);
    assert L.Conserved(s.ledger, scope);
  }

  lemma {:induction false} HeldNonNegative(cfg: Config, ledger: L.State, calls: seq<L.Call>, scope: L.Scope, cost: bool)
    requires cost ==> forall a :: CostOf(cfg, a) >= 0.0
    requires scope == if cost then CostScope(cfg) else AttemptsScope(cfg)
    requires forall i | 0 <= i < |calls| :: L.CallInv(ledger, calls[i]) && TypedRequest(cfg, calls[i].request)
    ensures L.Held(calls, scope) >= 0.0
  {
    if calls != [] {
      var n := |calls| - 1;
      HeldNonNegative(cfg, ledger, calls[..n], scope, cost);
      assert L.CallInv(ledger, calls[n]) && TypedRequest(cfg, calls[n].request);
      if calls[n].request.scope == scope {
        if cost { assert CostOf(cfg, calls[n].request.key.subject) >= 0.0; }
      }
    }
  }

  lemma {:induction false} TotalOfOnes(cfg: Config, calls: seq<AdapterCall>)
    ensures Total(GateRequests(cfg, calls, false)) == |calls| as real
  {
    if calls != [] {
      var n := |calls| - 1;
      TotalOfOnes(cfg, calls[..n]);
      assert GateRequests(cfg, calls, false)[..n] == GateRequests(cfg, calls[..n], false);
    }
  }

  function TotalCost(cfg: Config, calls: seq<AdapterCall>): real {
    if calls == [] then 0.0 else TotalCost(cfg, calls[..|calls| - 1]) + CostOf(cfg, calls[|calls| - 1].key.action)
  }

  lemma {:induction false} TotalOfCosts(cfg: Config, calls: seq<AdapterCall>)
    ensures Total(GateRequests(cfg, calls, true)) == TotalCost(cfg, calls)
  {
    if calls != [] {
      var n := |calls| - 1;
      TotalOfCosts(cfg, calls[..n]);
      assert GateRequests(cfg, calls, true)[..n] == GateRequests(cfg, calls[..n], true);
    }
  }

  /** If the plan's ACTION_ATTEMPTS account is open before the first dispatch, the
      plan makes no more adapter calls than its limit, over all runs, retries and
      crashes: every call has its own applied ledger event. */
  lemma CallsWithinAttemptsBudget(cfg: Config, s: State)
    requires Reachable(cfg, s) && AttemptsScope(cfg) in cfg.budgets
    ensures AttemptsScope(cfg) in s.ledger.accounts
    ensures |s.calls| as real <= s.ledger.accounts[AttemptsScope(cfg)].limit || s.calls == []
  {
    CallsWithinAccount(cfg, s, false);
    TotalOfOnes(cfg, s.calls);
    ReachableInv(cfg, s);
    assert L.WithinLimit(s.ledger.accounts[AttemptsScope(cfg)]);
  }

  /** Likewise the estimated costs of all adapter calls together stay within the
      ESTIMATED_COST limit, as long as no estimate is negative. */
  lemma CallsWithinCostBudget(cfg: Config, s: State)
    requires Reachable(cfg, s) && CostScope(cfg) in cfg.budgets
    requires forall a :: CostOf(cfg, a) >= 0.0
    ensures CostScope(cfg) in s.ledger.accounts
    ensures TotalCost(cfg, s.calls) <= s.ledger.accounts[CostScope(cfg)].limit || TotalCost(cfg, s.calls) == 0.0
  {
    CallsWithinAccount(cfg, s, true);
    TotalOfCosts(cfg, s.calls);
    CostsNonNegative(cfg, s.calls);
    ReachableInv(cfg, s);
    assert L.WithinLimit(s.ledger.accounts[CostScope(cfg)]);
  }

  lemma {:induction false} CostsNonNegative(cfg: Config, calls: seq<AdapterCall>)
    requires forall a :: CostOf(cfg, a) >= 0.0
    ensures TotalCost(cfg, calls) >= 0.0
  {
    if calls != [] {
      CostsNonNegative(cfg, calls[..|calls| - 1]);
      assert CostOf(cfg, calls[|calls| - 1].key.action) >= 0.0;
    }
  }

  // ---------------------------------------------------------------- approvals

  lemma VerdictByLevel(cfg: Config, a: Id)
    ensures var v := Verdict(cfg, a);
            v.outcome != P.Block ==>
                v.level != P.Admin
                    && (v.level in {P.ExternalAction, P.FinancialAction} <==> v.outcome == P.RequireApproval)
  {
    match P.Floor(cfg.specs(a).payload.actionType)
    case None =>
    case Some(_) =>
  }

  /** Approval before effect. An adapter call for an EXTERNAL_ACTION or
      FINANCIAL_ACTION action used an approval of its own: consumed, given for this
      action and this exact payload by somebody other than the requester, and not
      expired when it was used. No approval serves two calls. ADMIN and blocked
      actions never reach an adapter. */
  lemma ApprovedBeforeEffect(cfg: Config, s: State, i: nat)
    requires Reachable(cfg, s) && i < |s.calls|
    ensures var call := s.calls[i];
            var a := call.key.action;
            && Verdict(cfg, a).outcome != P.Block && Verdict(cfg, a).level != P.Admin
            && (Verdict(cfg, a).level in {P.ExternalAction, P.FinancialAction} <==> call.grant.Some?)
            && (call.grant.Some? ==>
                  && GrantOk(cfg, s, a, call.grant.value)
                  && forall j | 0 <= j < |s.calls| && j != i && s.calls[j].grant.Some? ::
                      s.calls[j].grant.value.id != call.grant.value.id)
  {
    ReachableInv(cfg, s);
    assert CallOk(cfg, s, s.calls[i]);
    VerdictByLevel(cfg, s.calls[i].key.action);
  }

  // -------------------------------------------------------------- row progress

  /** What one step may do to one row: nothing, or one version further. Apart from
      an authorized retry it never lowers the happy-path rank and never rewrites a
      terminal status. */
  predicate Progresses(before: Row, after: Row, retry: bool, maxRetries: nat) {
    || after == before
    || (&& after.version == before.version + 1
        && after.action.retryCount <= maxRetries
        && (if retry then
              && RetrySource(before.action.status)
              && after.action == before.action.(status := Validated, retryCount := before.action.retryCount + 1)
            else
              && (Terminal(before.action.status) ==> after.action.status == before.action.status)
              && (!Terminal(after.action.status) ==>
                  HappyRank(before.action.status) <= HappyRank(after.action.status))))
  }

  predicate WritesRows(step: Step) {
    step.UpsertPut? || step.RetryPut? || step.ReconcilePut? || step.PatchPut? || step.AddAction?
  }

  predicate WritesPlan(step: Step) { step.RefreezePut? || step.TouchPlan? }

  lemma AdvancingLeavesRows(cfg: Config, s: State, w: Id, step: Step)
    ensures StepLoaded(cfg, s, w, step).rows == s.rows && StepLoaded(cfg, s, w, step).calls == s.calls
    ensures StepLoaded(cfg, s, w, step).plan == s.plan
  {
    hide DecisionFor, SubjectOf, AttemptsRequest;
  }

  lemma ExpiryLeavesRows(s: State, w: Id)
    ensures StepExpiry(s, w).rows == s.rows && StepExpiry(s, w).calls == s.calls && StepExpiry(s, w).plan == s.plan
  {
    hide A.Finalize, SubjectOf;
  }

  lemma SettleLeavesRows(cfg: Config, s: State, w: Id, now: int)
    ensures StepSettle(cfg, s, w, now).rows == s.rows && StepSettle(cfg, s, w, now).calls == s.calls
    ensures StepSettle(cfg, s, w, now).plan == s.plan
  {
    hide A.Authorize, SubjectOf, CostOf, CostRequest, L.Next;
  }

  lemma GatesLeaveRows(cfg: Config, s: State, w: Id, now: int)
    ensures StepEnter(s, w).rows == s.rows && StepEnter(s, w).calls == s.calls && StepEnter(s, w).plan == s.plan
    ensures StepGate(cfg, s, w, now).rows == s.rows && StepGate(cfg, s, w, now).calls == s.calls
    ensures StepGate(cfg, s, w, now).plan == s.plan
    ensures StepConsume(s, w, now).rows == s.rows && StepConsume(s, w, now).calls == s.calls
    ensures StepConsume(s, w, now).plan == s.plan
  {
    hide SubjectOf, DecisionFor, FailDurable, A.Valid, A.Consumable;
  }

  lemma ExecutingLeavesRows(cfg: Config, s: State, w: Id, flag: bool)
    ensures StepUpsertGet(s, w).rows == s.rows && StepUpsertGet(s, w).calls == s.calls
    ensures StepUpsertGet(s, w).plan == s.plan
    ensures StepUpsertGot(s, w).rows == s.rows && StepUpsertGot(s, w).calls == s.calls
    ensures StepUpsertGot(s, w).plan == s.plan
    ensures StepUpsertPut(cfg, s, w).calls == s.calls && StepUpsertPut(cfg, s, w).plan == s.plan
    ensures StepClaim(cfg, s, w).rows == s.rows && StepClaim(cfg, s, w).calls == s.calls
    ensures StepClaim(cfg, s, w).plan == s.plan
    ensures StepCall(s, w, flag).rows == s.rows && StepCall(s, w, flag).plan == s.plan
    ensures StepVerify(s, w, flag).rows == s.rows && StepVerify(s, w, flag).calls == s.calls
    ensures StepVerify(s, w, flag).plan == s.plan
  {
    hide Resume, FailDurable, LeavesAlone;
  }

  lemma RetryLeavesCalls(cfg: Config, s: State, w: Id, step: Step)
    ensures StepRetry(cfg, s, w, step).calls == s.calls && StepRetry(cfg, s, w, step).plan == s.plan
    ensures !step.RetryPut? ==> StepRetry(cfg, s, w, step).rows == s.rows
  {
    hide R.Evaluate, Retryable;
  }

  lemma ReconcileLeavesCalls(s: State, w: Id, step: Step)
    ensures StepReconcile(s, w, step).calls == s.calls && StepReconcile(s, w, step).plan == s.plan
    ensures !step.ReconcilePut? ==> StepReconcile(s, w, step).rows == s.rows
  {
    hide CanTransition, InProgress;
  }

  lemma ReplanLeavesCalls(cfg: Config, s: State, step: Step)
    ensures StepReplan(cfg, s, step).calls == s.calls && StepReplan(cfg, s, step).plan == s.plan
    ensures step.PatchGet? ==> StepReplan(cfg, s, step).rows == s.rows
  {
    hide Persist, Patched;
  }

  lemma RefreezeLeavesCalls(cfg: Config, s: State, step: Step)
    ensures StepRefreeze(cfg, s, step).calls == s.calls && StepRefreeze(cfg, s, step).rows == s.rows
    ensures step.RefreezeGet? ==> StepRefreeze(cfg, s, step).plan == s.plan
  {
    hide PlanHashOf, Loadable;
  }

  lemma DecideLeavesCalls(s: State, step: Step)
    ensures StepDecide(s, step).calls == s.calls && StepDecide(s, step).plan == s.plan
    ensures StepDecide(s, step).rows == s.rows
  {
    hide A.Decide;
  }

  predicate Untouched(s: State, t: State, step: Step) {
    && (!WritesRows(step) ==> t.rows == s.rows)
    && (!step.CallAdapter? ==> t.calls == s.calls)
    && (!WritesPlan(step) ==> t.plan == s.plan)
  }

  lemma DispatchTouches(cfg: Config, s: State, step: Step)
    requires Advances(step) || Gates(step)
    ensures Untouched(s, Next(cfg, s, step), step)
  {
    hide Next, StepLoaded, StepExpiry, StepSettle, StepEnter, StepGate, StepConsume;
    if Advances(step) {
      Steps.NextLoaded(cfg, s, step);
      AdvancingLeavesRows(cfg, s, step.w, step);
    } else {
      Steps.NextGate(cfg, s, step);
      ExpiryLeavesRows(s, step.w);
      if step.Settle? { SettleLeavesRows(cfg, s, step.w, step.now); }
      GatesLeaveRows(cfg, s, step.w, if step.Gate? || step.Consume? then step.now else 0);
    }
  }

  lemma UpsertTouches(cfg: Config, s: State, step: Step)
    requires Upserts(step)
    ensures Untouched(s, Next(cfg, s, step), step)
  {
    hide Next, StepUpsertGet, StepUpsertPut, StepUpsertGot;
    Steps.NextUpsert(cfg, s, step);
    ExecutingLeavesRows(cfg, s, step.w, false);
  }

  lemma ExecutorTouches(cfg: Config, s: State, step: Step)
    requires Executes(step)
    ensures Untouched(s, Next(cfg, s, step), step)
  {
    hide Next, StepClaim, StepCall, StepVerify;
    if step.ClaimAttempt? {
      Steps.NextGate(cfg, s, step);
      ExecutingLeavesRows(cfg, s, step.w, false);
    } else {
      Steps.NextCall(cfg, s, step);
      ExecutingLeavesRows(cfg, s, step.w, if step.CallAdapter? then step.success else step.passed);
    }
  }

  lemma RecoveryTouches(cfg: Config, s: State, step: Step)
    requires Retries(step) || Reconciles(step)
    ensures Untouched(s, Next(cfg, s, step), step)
  {
    hide Next, StepRetry, StepReconcile;
    if Retries(step) {
      Steps.NextRetry(cfg, s, step);
      RetryLeavesCalls(cfg, s, step.w, step);
    } else {
      Steps.NextReconcile(cfg, s, step);
      ReconcileLeavesCalls(s, step.w, step);
    }
  }

  lemma ReplanTouches(cfg: Config, s: State, step: Step)
    requires Replans(step) || Refreezes(step) || Decides(step)
    ensures Untouched(s, Next(cfg, s, step), step)
  {
    hide Next, StepReplan, StepRefreeze, StepDecide;
    if Replans(step) {
      Steps.NextReplan(cfg, s, step);
      ReplanLeavesCalls(cfg, s, step);
    } else if Refreezes(step) {
      Steps.NextRefreeze(cfg, s, step);
      RefreezeLeavesCalls(cfg, s, step);
    } else {
      Steps.NextDecide(cfg, s, step);
      DecideLeavesCalls(s, step);
    }
  }

  /** Which steps write rows or the plan, and which one calls adapters. */
  lemma OnlyWritersWrite(cfg: Config, s: State, step: Step)
    ensures Untouched(s, Next(cfg, s, step), step)
  {
    if step.Begin? || step.Crash? || step.LedgerStep? {
      hide L.Next;
    } else {
      hide Next, Untouched;
      if Upserts(step) {
        UpsertTouches(cfg, s, step);
      } else if Executes(step) {
        ExecutorTouches(cfg, s, step);
      } else if Advances(step) || Gates(step) {
        DispatchTouches(cfg, s, step);
      } else if Retries(step) || Reconciles(step) {
        RecoveryTouches(cfg, s, step);
      } else {
        ReplanTouches(cfg, s, step);
      }
    }
  }

  lemma RowsUntouched(cfg: Config, s: State, step: Step)
    requires !WritesRows(step)
    ensures Next(cfg, s, step).rows == s.rows
  {
    hide Next;
    OnlyWritersWrite(cfg, s, step);
  }

  /** Version-guarded progress of every row under any interleaving. */
  lemma StepProgresses(cfg: Config, s: State, step: Step, a: Id)
    requires Inv(cfg, s) && a in s.rows
    ensures a in Next(cfg, s, step).rows
    ensures Progresses(s.rows[a], Next(cfg, s, step).rows[a], step.RetryPut?, cfg.specs(a).maxRetries)
  {
    hide Next, Inv, Progresses, StepUpsertPut, StepRetry, StepReconcile, StepReplan;
    if !WritesRows(step) {
      RowsUntouched(cfg, s, step);
      Unchanged(s.rows[a], step.RetryPut?, cfg.specs(a).maxRetries);
    } else if step.UpsertPut? {
      Steps.NextUpsert(cfg, s, step);
      UpsertProgresses(cfg, s, step.w, a);
    } else if step.RetryPut? {
      Steps.NextRetry(cfg, s, step);
      RetryProgresses(cfg, s, step, a);
    } else if step.ReconcilePut? {
      Steps.NextReconcile(cfg, s, step);
      ReconcileProgresses(cfg, s, step, a);
    } else {
      Steps.NextReplan(cfg, s, step);
      ReplanProgresses(cfg, s, step, a);
    }
  }

  lemma Unchanged(row: Row, retry: bool, maxRetries: nat)
    ensures Progresses(row, row, retry, maxRetries)
  {
  }

  lemma UpsertProgresses(cfg: Config, s: State, w: Id, a: Id)
    requires Inv(cfg, s) && a in s.rows
    ensures a in StepUpsertPut(cfg, s, w).rows
    ensures Progresses(s.rows[a], StepUpsertPut(cfg, s, w).rows[a], false, cfg.specs(a).maxRetries)
  {
    Steps.AtInv(cfg, s, w);
    hide Inv, Verdict, AfterOk, Resume;
  }

  lemma RetryProgresses(cfg: Config, s: State, step: Step, a: Id)
    requires Inv(cfg, s) && a in s.rows && step.RetryPut?
    ensures a in StepRetry(cfg, s, step.w, step).rows
    ensures Progresses(s.rows[a], StepRetry(cfg, s, step.w, step).rows[a], true, cfg.specs(a).maxRetries)
  {
    Steps.WriterKnows(cfg, s, step.w);
    hide Inv, NeedsApproval;
  }

  lemma CaughtUpProgresses(row: Row, goal: ActionStatus, maxRetries: nat)
    requires row.action.retryCount <= maxRetries && InProgress(row.action.status)
    requires CanTransition(row.action.status, goal) && goal in {ExecutionSucceeded, Verifying, Verified, Completed}
    ensures Progresses(row, Row(row.action.(status := goal), row.version + 1), false, maxRetries)
  {
  }

  lemma ReconcileProgresses(cfg: Config, s: State, step: Step, a: Id)
    requires Inv(cfg, s) && a in s.rows && step.ReconcilePut?
    ensures a in StepReconcile(s, step.w, step).rows
    ensures Progresses(s.rows[a], StepReconcile(s, step.w, step).rows[a], false, cfg.specs(a).maxRetries)
  {
    Steps.WriterKnows(cfg, s, step.w);
    Steps.RowOk(cfg, s, a);
    Unchanged(s.rows[a], false, cfg.specs(a).maxRetries);
    hide Inv, NeedsApproval, Progresses, CanTransition, Stored, Verdict;
    var pc := At(s, step.w);
    if pc.ReconcileWrite? && pc.a == a && s.rows[a].version == pc.base.version {
      CaughtUpProgresses(s.rows[a], pc.goal, cfg.specs(a).maxRetries);
    }
  }

  lemma ReplanProgresses(cfg: Config, s: State, step: Step, a: Id)
    requires Inv(cfg, s) && a in s.rows && (step.PatchPut? || step.AddAction?)
    ensures a in StepReplan(cfg, s, step).rows
    ensures Progresses(s.rows[a], StepReplan(cfg, s, step).rows[a], false, cfg.specs(a).maxRetries)
  {
    if step.PatchPut? { Steps.WriterKnows(cfg, s, step.w); }
    Steps.RowOk(cfg, s, a);
    hide Inv, NeedsApproval;
  }

  /** COMPLETED is for ever, and so is every other terminal status that no retry
      resets: over any run, a row that is COMPLETED, REJECTED, CANCELLED or BLOCKED
      stays so, and its version never falls. */
  lemma {:induction false} TerminalForEver(cfg: Config, s: State, steps: seq<Step>, a: Id)
    requires Inv(cfg, s) && a in s.rows
    ensures a in Exec(cfg, s, steps).rows
    ensures s.rows[a].version <= Exec(cfg, s, steps).rows[a].version
    ensures s.rows[a].action.status in {Completed, Rejected, Cancelled, Blocked} ==>
              Exec(cfg, s, steps).rows[a].action.status == s.rows[a].action.status
    decreases |steps|
  {
    if steps != [] {
      hide Next, Inv;
      var before := Exec(cfg, s, steps[..|steps| - 1]);
      TerminalForEver(cfg, s, steps[..|steps| - 1], a);
      Steps.RunsKeepInv(cfg, s, steps[..|steps| - 1]);
      StepProgresses(cfg, before, steps[|steps| - 1], a);
    }
  }

  // -------------------------------------------------- approval-gated actions

  /** Only an action that needs no approval is ever retried. */
  lemma RetriedIsUngated(cfg: Config, s: State, w: Id, a: Id)
    requires Inv(cfg, s) && a in s.rows && Next(cfg, s, RetryPut(w)).rows[a] != s.rows[a]
    ensures !NeedsApproval(cfg, a)
  {
    hide Next;
    Steps.WriterKnows(cfg, s, w);
    hide Inv, NeedsApproval;
    Steps.NextRetry(cfg, s, RetryPut(w));
    assert At(s, w).RetryWrite? && At(s, w).a == a;
  }

  /** An approval-gated action is never retried: over every run, whatever the recovery
      policy is told about it, a failure of one is final. */
  lemma {:induction false} GatedFailureIsFinal(cfg: Config, s: State, steps: seq<Step>, a: Id)
    requires Inv(cfg, s) && a in s.rows && NeedsApproval(cfg, a) && s.rows[a].action.status == Failed
    ensures a in Exec(cfg, s, steps).rows && Exec(cfg, s, steps).rows[a].action.status == Failed
    decreases |steps|
  {
    if steps != [] {
      var before, step := Exec(cfg, s, steps[..|steps| - 1]), steps[|steps| - 1];
      GatedFailureIsFinal(cfg, s, steps[..|steps| - 1], a);
      Steps.RunsKeepInv(cfg, s, steps[..|steps| - 1]);
      StepProgresses(cfg, before, step, a);
      hide Next, Inv, Verdict;
      if step.RetryPut? && Next(cfg, before, step).rows[a] != before.rows[a] {
        RetriedIsUngated(cfg, before, step.w, a);
      }
    }
  }
}
