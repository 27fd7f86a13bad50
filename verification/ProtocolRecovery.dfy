/** What a retry rests on, over every interleaving, and what decisions and expiries leave
    in the approvals. */
module ProtocolRecovery {
  import opened Domain
  import P = Permission
  import A = Approval
  import L = Ledger
  import R = Recovery
  import G = Graph
  import opened Protocol
  import opened ProtocolSafety
  import Steps = ProtocolSteps
  import opened ProtocolOrder

  /** The worker is on its way to reset this action's row. */
  predicate Retrying(pc: Pc, a: Id) { (pc.RetryRead? || pc.RetryWrite?) && pc.a == a }

  /** In step `k` of a run, worker `w` classified a failure of `a` as transient and without
      a side effect, with a retry left and no approval needed. */
  ghost predicate Excused(cfg: Config, s: State, steps: seq<Step>, w: Id, a: Id, k: nat) {
    && k < |steps| && steps[k].Recover? && steps[k].w == w
    && steps[k].category in {Transient, Tool} && !steps[k].sideEffect
    && var pc := At(Exec(cfg, s, steps[..k]), w);
       && pc.Failing? && pc.a == a && pc.action.retryCount < cfg.specs(a).maxRetries && !pc.action.approvalRequired
  }

  // ----------------------------------------------- who sets out to retry, and why

  lemma RetryGoesOn(cfg: Config, s: State, step: Step, a: Id)
    requires Retries(step)
    ensures var (pc, next) := (At(s, step.w), At(StepRetry(cfg, s, step.w, step), step.w));
            Retrying(next, a) ==>
              || Retrying(pc, a)
              || (&& step.Recover? && pc.Failing? && pc.a == a
                  && step.category in {Transient, Tool} && !step.sideEffect
                  && pc.action.retryCount < cfg.specs(a).maxRetries && !pc.action.approvalRequired)
  {
    var pc := At(s, step.w);
    if step.Recover? && pc.Failing? {
      R.RetryIff(step.category, step.sideEffect, pc.action.retryCount, cfg.specs(pc.a).maxRetries,
                 pc.action.approvalRequired, true);
    }
    hide R.Evaluate, Retryable;
  }

  lemma ResumeIsNoRetry(a: Id, after: After, row: Row, b: Id)
    ensures !Retrying(Resume(a, after, row), b)
  {
  }

  lemma UpsertIsNoRetry(cfg: Config, s: State, w: Id, a: Id)
    ensures Retrying(At(StepUpsertGet(s, w), w), a) ==> Retrying(At(s, w), a)
    ensures Retrying(At(StepUpsertGot(s, w), w), a) ==> Retrying(At(s, w), a)
    ensures Retrying(At(StepUpsertPut(cfg, s, w), w), a) ==> Retrying(At(s, w), a)
  {
    var pc := At(s, w);
    if (pc.UpsertRead? || pc.UpsertReload?) && pc.a in s.rows { ResumeIsNoRetry(pc.a, pc.after, s.rows[pc.a], a); }
    if pc.UpsertWrite? { ResumeIsNoRetry(pc.a, pc.after, Row(Persist(cfg, pc.target), 1), a); }
    hide Resume, Persist;
  }

  lemma AdvanceIsNoRetry(cfg: Config, s: State, step: Step, a: Id)
    requires Advances(step)
    ensures Retrying(At(StepLoaded(cfg, s, step.w, step), step.w), a) ==> Retrying(At(s, step.w), a)
  {
    hide DecisionFor, SubjectOf, AttemptsRequest, A.Create, A.Finalize, A.Expire, L.Next;
  }

  lemma GateIsNoRetry(cfg: Config, s: State, w: Id, now: int, a: Id)
    ensures Retrying(At(StepExpiry(s, w), w), a) ==> Retrying(At(s, w), a)
    ensures Retrying(At(StepEnter(s, w), w), a) ==> Retrying(At(s, w), a)
    ensures Retrying(At(StepGate(cfg, s, w, now), w), a) ==> Retrying(At(s, w), a)
    ensures Retrying(At(StepConsume(s, w, now), w), a) ==> Retrying(At(s, w), a)
    ensures Retrying(At(StepClaim(cfg, s, w), w), a) ==> Retrying(At(s, w), a)
  {
    hide DecisionFor, SubjectOf, A.Finalize, A.Valid, A.Consumable, P.Resolve, Claimed, CanTransition, FailTarget;
  }

  lemma SettleIsNoRetry(cfg: Config, s: State, w: Id, now: int, a: Id)
    ensures Retrying(At(StepSettle(cfg, s, w, now), w), a) ==> Retrying(At(s, w), a)
  {
    hide SubjectOf, A.Authorize, CostOf, CostRequest, L.Next, L.IsGrant;
  }

  lemma CallIsNoRetry(s: State, w: Id, flag: bool, a: Id)
    ensures Retrying(At(StepCall(s, w, flag), w), a) ==> Retrying(At(s, w), a)
    ensures Retrying(At(StepVerify(s, w, flag), w), a) ==> Retrying(At(s, w), a)
  {
  }

  lemma ReplanIsNoRetry(cfg: Config, s: State, step: Step, w: Id, a: Id)
    ensures step.PatchGet? || step.PatchPut? ==>
              (Retrying(At(StepReplan(cfg, s, step), step.w), a) ==> Retrying(At(s, step.w), a))
    ensures step.AddAction? ==> StepReplan(cfg, s, step).workers == s.workers
  {
    hide Patched, Persist;
  }

  lemma OthersAreNoRetry(cfg: Config, s: State, step: Step, a: Id)
    requires Reconciles(step) || Decides(step) || step.RefreezeGet? || step.RefreezePut? || step.Begin? || step.Crash?
    ensures Retrying(At(Next(cfg, s, step), step.w), a) ==> Retrying(At(s, step.w), a)
  {
    hide Next, CanTransition, PlanHashOf, Loadable, A.Decide;
    if Reconciles(step) {
      Steps.NextReconcile(cfg, s, step);
    } else if Decides(step) {
      Steps.NextDecide(cfg, s, step);
    } else if Refreezes(step) {
      Steps.NextRefreeze(cfg, s, step);
    } else if step.Begin? {
      Steps.NextBegin(cfg, s, step);
    } else {
      Steps.NextCrash(cfg, s, step);
    }
  }

  /** A step of a worker's own either goes on with a retry or was told to make one. */
  lemma OwnRetry(cfg: Config, s: State, step: Step, w: Id, a: Id)
    requires Steps.Actor(step) == w && Retrying(At(Next(cfg, s, step), w), a)
    ensures || Retrying(At(s, w), a)
            || (&& step.Recover? && step.w == w && At(s, w).Failing? && At(s, w).a == a
                && step.category in {Transient, Tool} && !step.sideEffect
                && At(s, w).action.retryCount < cfg.specs(a).maxRetries && !At(s, w).action.approvalRequired)
  {
    hide Next, StepLoaded, StepExpiry, StepSettle, StepEnter, StepGate, StepConsume, StepClaim, StepCall, StepVerify,
        StepUpsertGet, StepUpsertPut, StepUpsertGot, StepRetry, StepReplan, StepRefreeze;
    if Retries(step) {
      Steps.NextRetry(cfg, s, step);
      RetryGoesOn(cfg, s, step, a);
    } else if Advances(step) {
      Steps.NextLoaded(cfg, s, step);
      AdvanceIsNoRetry(cfg, s, step, a);
    } else if Upserts(step) {
      Steps.NextUpsert(cfg, s, step);
      UpsertIsNoRetry(cfg, s, w, a);
    } else if step.CallAdapter? || step.Verify? {
      Steps.NextCall(cfg, s, step);
      CallIsNoRetry(s, w, if step.CallAdapter? then step.success else step.passed, a);
    } else if Gates(step) || step.ClaimAttempt? {
      Steps.NextGate(cfg, s, step);
      var now := if step.Settle? || step.Gate? || step.Consume? then step.now else 0;
      GateIsNoRetry(cfg, s, w, now, a);
      SettleIsNoRetry(cfg, s, w, now, a);
    } else if Replans(step) {
      Steps.NextReplan(cfg, s, step);
      ReplanIsNoRetry(cfg, s, step, w, a);
    } else if step.LedgerStep? || step.TouchPlan? {
      Bystanders(cfg, s, step);
    } else {
      OthersAreNoRetry(cfg, s, step, a);
    }
  }

  lemma Bystanders(cfg: Config, s: State, step: Step)
    requires step.LedgerStep? || step.TouchPlan?
    ensures Next(cfg, s, step).workers == s.workers
  {
    hide L.Next;
  }

  // ------------------------------------------------------------------ theorem

  /** No run sets out to retry an action but for a failure that the policy excuses: in every
      interleaving, a worker on its way to reset a row has classified a failure of that
      action as transient and without a side effect, while a retry was left and no approval
      was needed. */
  lemma {:induction false} RetriesAreExcused(cfg: Config, s: State, steps: seq<Step>, w: Id, a: Id)
    requires Inv(cfg, s) && s.workers == map[] && Retrying(At(Exec(cfg, s, steps), w), a)
    ensures exists k: nat :: Excused(cfg, s, steps, w, a, k)
    decreases |steps|
  {
    hide Inv, Next, Retrying, Steps.Good;
    if steps == [] {
      NobodyRetries(s, w, a);
    } else {
      var front, step := steps[..|steps| - 1], steps[|steps| - 1];
      var before := Exec(cfg, s, front);
      Steps.RunsKeepInv(cfg, s, front);
      MovesOrStays(cfg, before, step, w);
      if Steps.Actor(step) == w { OwnRetry(cfg, before, step, w, a); }
      if Retrying(At(before, w), a) {
        RetriesAreExcused(cfg, s, front, w, a);
        var k: nat :| Excused(cfg, s, front, w, a, k);
        assert steps[..k] == front[..k] && Excused(cfg, s, steps, w, a, k);
      } else {
        assert steps[..|front|] == front && Excused(cfg, s, steps, w, a, |front|);
      }
    }
  }

  /** So over every run from a freshly persisted plan, whenever a retry resets a row, it is the
      row of an action that failed, was interrupted or was approved, and the worker that
      resets it was excused. */
  lemma ResetIsExcused(cfg: Config, s: State, steps: seq<Step>, w: Id)
    requires Init(cfg, s) && Next(cfg, Exec(cfg, s, steps), RetryPut(w)).rows != Exec(cfg, s, steps).rows
    ensures var t := Exec(cfg, s, steps);
            && At(t, w).RetryWrite? && At(t, w).a in t.rows
            && t.rows[At(t, w).a].action.status in {Failed, Executing, ActionStatus.Approved}
            && exists k: nat :: Excused(cfg, s, steps, w, At(t, w).a, k)
  {
    hide Init, Inv, Next, Excused, NeedsApproval;
    var t := Exec(cfg, s, steps);
    Steps.InitInv(cfg, s);
    FreshlyIdle(cfg, s);
    Steps.RunsKeepInv(cfg, s, steps);
    Steps.NextRetry(cfg, t, RetryPut(w));
    RetryWritesOne(cfg, t, RetryPut(w));
    Steps.WriterKnows(cfg, t, w);
    RetriesAreExcused(cfg, s, steps, w, At(t, w).a);
    hide Exec, StepRetry;
  }

  lemma FreshlyIdle(cfg: Config, s: State)
    requires Init(cfg, s)
    ensures s.workers == map[]
  {
  }

  lemma NobodyRetries(s: State, w: Id, a: Id)
    requires s.workers == map[]
    ensures !Retrying(At(s, w), a)
  {
  }

  lemma MovesOrStays(cfg: Config, s: State, step: Step, w: Id)
    requires Inv(cfg, s)
    ensures Steps.Actor(step) != w ==> At(Next(cfg, s, step), w) == At(s, w)
  {
    Steps.StepKeepsInv(cfg, s, step);
    hide Next, Inv, Evolves, DataInv, PcInv;
  }

  // --------------------------------------------------------------- approvals

  /** A decision that goes through is stored under its request, and nothing else is. */
  lemma DecisionIsStored(cfg: Config, s: State, w: Id, kind: A.Kind, who: string)
    requires At(s, w).Deciding? && At(s, w).request in s.approvals
    requires var loaded := At(s, w).loaded;
             loaded.status == A.Status.Pending && who != "" && (kind != A.Approve || who != loaded.requestedBy)
    ensures var (id, t) := (At(s, w).request, Next(cfg, s, DecidePut(w, kind, who)));
            && t.approvals.Keys == s.approvals.Keys
            && t.approvals[id].status ==
               (match kind
                case Approve => A.Status.Approved
                case Reject => A.Status.Rejected
                case Cancel => A.Status.Cancelled)
            && t.approvals[id].decidedBy == Some(who)
            && t.approvals[id].consumed == s.approvals[id].consumed && t.approvals[id].hash == s.approvals[id].hash
            && (forall r | r in s.approvals && r != id :: t.approvals[r] == s.approvals[r])
  {
    hide Next;
    Steps.NextDecide(cfg, s, DecidePut(w, kind, who));
    A.DecideIff(At(s, w).loaded, kind, who);
    hide A.Decide;
  }

  /** An expiry a dispatch has come upon is stored too, before the action is closed. */
  lemma ExpiryIsStored(cfg: Config, s: State, w: Id)
    requires At(s, w).Expiring? && At(s, w).request in s.approvals
    ensures var (pc, t) := (At(s, w), Next(cfg, s, SyncExpiry(w)));
            && t.approvals.Keys == s.approvals.Keys && t.rows == s.rows
            && t.approvals[pc.request].status == pc.expired.status
            && t.approvals[pc.request].decidedBy == pc.expired.decidedBy
            && t.approvals[pc.request].consumed == s.approvals[pc.request].consumed
            && (forall r | r in s.approvals && r != pc.request :: t.approvals[r] == s.approvals[r])
  {
    hide Next, A.Finalize, SubjectOf;
    Steps.NextGate(cfg, s, SyncExpiry(w));
  }

  /** A request that is created is stored as pending under its own id, and the action in hand
      is linked to it. */
  lemma RequestIsStored(cfg: Config, s: State, w: Id, id: Id, who: string, expiresAt: Option<int>, now: int)
    requires At(s, w).Loaded? && id !in s.approvals && who != ""
    requires var action := At(s, w).action;
             && action.status == PermissionChecked && action.approvalId.None?
             && DecisionFor(cfg, action).outcome == P.RequireApproval && DecisionFor(cfg, action).approvalRequired
             && action.level == DecisionFor(cfg, action).level && action.risk == DecisionFor(cfg, action).risk
    ensures var (pc, t) := (At(s, w), Next(cfg, s, Ask(w, id, who, expiresAt, now)));
            && t.approvals.Keys == s.approvals.Keys + {id} && t.rows == s.rows
            && (forall r | r in s.approvals :: t.approvals[r] == s.approvals[r])
            && t.approvals[id].status == A.Status.Pending && t.approvals[id].actionId == pc.a
            && t.approvals[id].hash == HashOf(pc.action) && t.approvals[id].requestedBy == who
            && !t.approvals[id].consumed && t.approvals[id].expiresAt.Some?
            && At(t, w) == Loaded(pc.a, pc.action.(approvalId := Some(id)))
  {
    hide Next, DecisionFor;
    var action := At(s, w).action;
    A.CreateIff(SubjectOf(At(s, w).a, action), DecisionFor(cfg, action), who, expiresAt, now);
    Steps.NextLoaded(cfg, s, Ask(w, id, who, expiresAt, now));
  }

  // ----------------------------------------------- which failures are handled

  /** An interruption is taken up exactly where a row says EXECUTING and can be loaded. */
  lemma InterruptionIff(cfg: Config, s: State, w: Id, a: Id)
    requires At(s, w).Idle?
    ensures var t := Next(cfg, s, Interrupted(w, a));
            && t.(workers := s.workers) == s
            && (At(t, w).Failing? <==>
                  a in s.rows && s.rows[a].action.status == Executing && !s.rows[a].action.depsCut)
            && (At(t, w).Failing? ==> At(t, w) == Failing(a, s.rows[a].action))
            && (!At(t, w).Failing? ==> At(t, w).Idle?)
  {
    hide Next;
    Steps.NextRetry(cfg, s, Interrupted(w, a));
  }

  /** After its last write a dispatch goes on to the recovery policy exactly with a failure:
      the stored one, or the one it has in memory. */
  lemma FailureIsHandled(cfg: Config, s: State, w: Id)
    requires At(s, w).UpsertReload? && At(s, w).a in s.rows
    ensures var (pc, t) := (At(s, w), Next(cfg, s, UpsertGot(w)));
            At(t, w).Failing? <==>
              match pc.after
              case Return => s.rows[pc.a].action.status == Failed && !s.rows[pc.a].action.depsCut
              case Tail(action) => action.status == Failed
              case Conclude(action) => action.status == Failed
              case _ => false
  {
    hide Next, HashOf, CanTransition;
    Steps.NextUpsert(cfg, s, UpsertGot(w));
  }

  // ------------------------------------------- what a writer nobody disturbs stores

  lemma RetryableIff(row: Row, maxRetries: nat)
    ensures Retryable(row, maxRetries) <==>
              row.action.status in {Failed, Executing, ActionStatus.Approved} && row.action.retryCount < maxRetries
  {
  }

  /** An authorized retry that nobody disturbs resets its row exactly where it failed, was
      interrupted or is merely approved, and has a retry left. */
  lemma UndisturbedRetry(cfg: Config, s: State, w: Id)
    requires At(s, w).RetryRead?
    ensures var (a, t) := (At(s, w).a, Next(cfg, Next(cfg, s, RetryGet(w)), RetryPut(w)));
            && At(t, w).Idle?
            && t.rows ==
               if a in s.rows && s.rows[a].action.status in {Failed, Executing, ActionStatus.Approved}
                  && s.rows[a].action.retryCount < cfg.specs(a).maxRetries
               then
                 var (was, version) := (s.rows[a].action, s.rows[a].version);
                 s.rows[a := Row(was.(status := Validated, retryCount := was.retryCount + 1), version + 1)]
               else s.rows
  {
    hide Next, Retryable;
    if At(s, w).a in s.rows { RetryableIff(s.rows[At(s, w).a], cfg.specs(At(s, w).a).maxRetries); }
    Steps.NextRetry(cfg, s, RetryGet(w));
    Steps.NextRetry(cfg, Next(cfg, s, RetryGet(w)), RetryPut(w));
  }

  predicate UnderWay(status: ActionStatus, goal: ActionStatus) {
    match status
    case Executing => goal == ExecutionSucceeded
    case ExecutionSucceeded => goal == Verifying
    case Verifying => goal == Verified
    case Verified => goal == Completed
    case _ => false
  }

  lemma UnderWayIff(status: ActionStatus, goal: ActionStatus)
    ensures UnderWay(status, goal) <==>
              && InProgress(status) && goal in {ExecutionSucceeded, Verifying, Verified, Completed}
              && CanTransition(status, goal)
  {
  }

  /** A reconciliation that nobody disturbs takes an action under way one step on, whichever
      of the four steps it is at, and does nothing else. */
  lemma UndisturbedReconciliation(cfg: Config, s: State, w: Id, a: Id, goal: ActionStatus)
    requires At(s, w).Idle? && a in s.rows && !s.rows[a].action.depsCut
    ensures var t := Next(cfg, Next(cfg, s, ReconcileGet(w, a, goal)), ReconcilePut(w));
            && At(t, w).Idle?
            && t.rows ==
               if UnderWay(s.rows[a].action.status, goal)
               then s.rows[a := Row(s.rows[a].action.(status := goal), s.rows[a].version + 1)] else s.rows
  {
    hide Next, UnderWay, CanTransition, InProgress;
    UnderWayIff(s.rows[a].action.status, goal);
    Steps.NextReconcile(cfg, s, ReconcileGet(w, a, goal));
    Steps.NextReconcile(cfg, Next(cfg, s, ReconcileGet(w, a, goal)), ReconcilePut(w));
  }

  /** A replan's mark and its rewiring, undisturbed: the mark names the replacement, the
      rewiring puts it where the failed action stood among the dependencies, and the rest of
      the action is as it was. */
  lemma UndisturbedPatch(cfg: Config, s: State, w: Id, a: Id, patch: Patch)
    requires At(s, w).Idle? && a in s.rows && !s.rows[a].action.depsCut
    requires patch.Rewire? ==> patch.failed in s.rows[a].action.deps && patch.failed != a
    ensures var (was, t) := (s.rows[a].action, Next(cfg, Next(cfg, s, PatchGet(w, a, patch)), PatchPut(w)));
            && At(t, w).Idle? && t.rows.Keys == s.rows.Keys
            && t.rows[a].version == s.rows[a].version + 1
            && (forall b | b in s.rows && b != a :: t.rows[b] == s.rows[b])
            && t.rows[a].action.(supersededBy := was.supersededBy, deps := was.deps) == was
            && (patch.Supersede? ==>
                  t.rows[a].action.supersededBy == Some(patch.replacement) && t.rows[a].action.deps == was.deps)
            && (patch.Rewire? ==>
                  && t.rows[a].action.supersededBy == was.supersededBy
                  && forall d :: d in t.rows[a].action.deps <==>
                       (d in was.deps && d != patch.failed) || d == patch.replacement)
  {
    hide Next, G.Sorted, G.Replaced;
    var loaded := Next(cfg, s, PatchGet(w, a, patch));
    Steps.NextReplan(cfg, s, PatchGet(w, a, patch));
    Steps.NextReplan(cfg, loaded, PatchPut(w));
    if patch.Rewire? { Rewired(s.rows[a].action.deps, patch.failed, patch.replacement); }
  }

  lemma Rewired(deps: seq<Id>, failed: Id, replacement: Id)
    requires failed in deps
    ensures forall d :: d in G.Sorted(G.Replaced(deps, failed, replacement)) <==>
              (d in deps && d != failed) || d == replacement
  {
    var replaced := G.Replaced(deps, failed, replacement);
    hide G.Replaced, G.Sorted;
    forall d ensures d in G.Sorted(replaced) <==> (d in deps && d != failed) || d == replacement {
      G.SortedMembers(replaced, d);
      if d in deps && d != failed {
        var i :| 0 <= i < |deps| && deps[i] == d;
        assert replaced[i] == d;
      } else if d == replacement {
        var i :| 0 <= i < |deps| && deps[i] == failed;
        assert replaced[i] == d;
      }
    }
  }

  /** A re-freezing that nobody disturbs leaves the guard silent, and writes the plan only if
      its hash has changed. */
  lemma UndisturbedRefreezing(cfg: Config, s: State, w: Id)
    requires At(s, w).Idle? && Loadable(s.rows)
    ensures var t := Next(cfg, Next(cfg, s, RefreezeGet(w)), RefreezePut(w));
            && GuardSilent(cfg, t) && t.rows == s.rows
            && t.plan.version == s.plan.version + if GuardSilent(cfg, s) then 0 else 1
  {
    hide Next, PlanHashOf;
    Steps.NextRefreeze(cfg, s, RefreezeGet(w));
    Steps.NextRefreeze(cfg, Next(cfg, s, RefreezeGet(w)), RefreezePut(w));
  }

  /** The executor goes to work exactly on an action that is COMPLETED neither in its memory
      nor in the database. */
  lemma EntersIff(cfg: Config, s: State, w: Id)
    requires At(s, w).Entering?
    ensures var (pc, t) := (At(s, w), Next(cfg, s, Enter(w)));
            && t.(workers := s.workers) == s
            && (At(t, w).Gating? <==>
                  pc.action.status != Completed && (pc.a in s.rows ==> s.rows[pc.a].action.status != Completed))
            && (!At(t, w).Gating? ==> At(t, w).Idle?)
  {
    hide Next;
    Steps.NextGate(cfg, s, Enter(w));
  }
}
