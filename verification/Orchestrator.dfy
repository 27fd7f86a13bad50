/** The bounded dispatch loop: one eligible action after another is advanced by one
    step until nothing is READY. Runs here are uncontended and free of crashes, and
    start without rows left over from one; the permission verdict, the budget, the
    approval, the adapter and the kind of failure are the environment's. */
module Orchestrator {
  import opened Domain
  import R = Recovery
  import E = Eligibility
  import H = PlanHash
  import opened PlanStatuses

  datatype ApprovalView = NoApproval | Pending | Refused(target: ActionStatus) | Granted(valid: bool)

  /** Everything one call of `_advance_one_action`, and the failure handling after it,
      learns from outside; `executed` and `verified` are the adapter's two verdicts. */
  datatype Env = Env(
    block: bool, toolless: bool, budget: bool, gates: bool, executed: bool, verified: bool,
    approval: ApprovalView, category: FailureCategory, sideEffect: bool)

  type Key = (Id, nat)

  /** Whether an action's authoritative permission level demands an approval; the tool
      registry is fixed, so this is too. */
  type Gated = Id -> bool

  /** One call of `_advance_one_action`: the row it leaves, whether a human is asked,
      and the execution key it claims. */
  datatype Advanced = Advanced(row: Row, review: bool, claims: set<Key>)

  function Stay(row: Row, review: bool): Advanced { Advanced(row, review, {}) }

  function Move(row: Row, status: ActionStatus): Advanced { Advanced(row.(status := status), false, {}) }

  /** `execute_action_durably`, its gates passed, under one execution key. */
  function Execute(row: Row, key: Key, env: Env, claimed: set<Key>): Advanced {
    if key in claimed then Stay(row, false)
    else Advanced(row.(status := if env.executed && env.verified then Completed else Failed), false, {key})
  }

  function AdvanceRow(gated: Gated, row: Row, env: Env, claimed: set<Key>): Advanced {
    match row.status
    case Validated =>
      Advanced(row.(status := if env.block then Blocked else PermissionChecked, approvalRequired := gated(row.id)),
               false, {})
    case PermissionChecked =>
      if gated(row.id) then Move(row, WaitingForApproval)
      else if env.toolless then Move(row, Completed)
      else if !env.budget || !env.gates then Move(row, Failed)
      else Execute(row, (row.id, row.retryCount), env, claimed)
    case WaitingForApproval =>
      (match env.approval
       case NoApproval => Stay(row, true)
       case Pending => Stay(row, false)
       case Refused(target) => if target == Rejected then Move(row, Rejected) else Move(row, Cancelled)
       case Granted(valid) =>
         if !env.budget then Move(row, Failed)
         else if !valid then Stay(row, true)
         else if !env.gates then Move(row, Cancelled)
         else Execute(row.(status := Approved), (row.id, 0), env, claimed))
    case _ => Stay(row, false)
  }

  /** A dispatch of a READY row does something exactly when the row is not left over:
      PLANNED, APPROVED and VERIFICATION_FAILED rows are handed back as they are, and
      so is a PERMISSION_CHECKED row whose execution key somebody already holds. */
  lemma DispatchProgressesIff(gated: Gated, row: Row, env: Env, claimed: set<Key>)
    requires row.status in {Planned, Validated, PermissionChecked, Approved, VerificationFailed}
    ensures AdvanceRow(gated, row, env, claimed).row != row <==>
              || row.status == Validated
              || (&& row.status == PermissionChecked
                  && (gated(row.id) || env.toolless || !env.budget || !env.gates
                      || (row.id, row.retryCount) !in claimed))
  {
  }

  /** The statuses an execution writes once its key is claimed. VERIFICATION_FAILED is
      never written: a failed verification goes from VERIFYING to FAILED. */
  function Executed(env: Env): seq<ActionStatus> {
    if !env.executed then [Executing, Failed]
    else if !env.verified then [Executing, ExecutionSucceeded, Verifying, Failed]
    else [Executing, ExecutionSucceeded, Verifying, Verified, Completed]
  }

  /** The statuses one call of `_advance_one_action` writes, from the one it finds. */
  function Hops(gated: Gated, row: Row, env: Env, claimed: set<Key>): seq<ActionStatus> {
    match row.status
    case Validated => [Validated, if env.block then Blocked else PermissionChecked]
    case PermissionChecked =>
      [PermissionChecked]
      + (if gated(row.id) then [WaitingForApproval]
         else if env.toolless then [Executing, ExecutionSucceeded, Verifying, Verified, Completed]
         else if !env.budget || !env.gates then [Failed]
         else if (row.id, row.retryCount) in claimed then []
         else Executed(env))
    case WaitingForApproval =>
      [WaitingForApproval]
      + (match env.approval
         case Refused(target) => [if target == Rejected then Rejected else Cancelled]
         case Granted(valid) =>
           if !env.budget then [Failed]
           else if !valid then []
           else [Approved] + (if !env.gates then [Cancelled] else if (row.id, 0) in claimed then [] else Executed(env))
         case _ => [])
    case status => [status]
  }

  /** A denied budget fails an approved action from WAITING_FOR_APPROVAL. */
  predicate DeniedAfterApproval(row: Row, env: Env) {
    row.status == WaitingForApproval && env.approval.Granted? && !env.budget
  }

  /** The adapter was called, and its effect did not pass verification. */
  predicate FailsVerification(gated: Gated, row: Row, env: Env, claimed: set<Key>) {
    AdvanceRow(gated, row, env, claimed).claims != {} && env.executed && !env.verified
  }

  /** An execution key is claimed exactly where an adapter may be called: past the
      budget and the executor's gates, with a granted and valid approval where the
      action's level demands one, under a key nobody holds. */
  lemma ExecutesIff(gated: Gated, row: Row, env: Env, claimed: set<Key>)
    requires row.status == PermissionChecked || row.status == WaitingForApproval
    ensures var key := (row.id, if row.status == PermissionChecked then row.retryCount else 0);
            && (AdvanceRow(gated, row, env, claimed).claims != {} <==>
                  && env.budget && env.gates && key !in claimed
                  && (if row.status == PermissionChecked then !gated(row.id) && !env.toolless
                      else env.approval == Granted(true)))
            && (AdvanceRow(gated, row, env, claimed).claims == {}
                || AdvanceRow(gated, row, env, claimed).claims == {key})
  {
    var key := (row.id, if row.status == PermissionChecked then row.retryCount else 0);
    assert key in {key};
  }

  /** A dispatch takes legal hops of the action state machine only, and ends where they
      end, but for exactly two cases: a denied budget writes FAILED over
      WAITING_FOR_APPROVAL, and a failed verification writes FAILED over VERIFYING. */
  lemma HopsLegalIff(gated: Gated, row: Row, env: Env, claimed: set<Key>)
    ensures var hops := Hops(gated, row, env, claimed);
            && hops[0] == row.status && hops[|hops| - 1] == AdvanceRow(gated, row, env, claimed).row.status
            && (LegalRun(hops) <==> !DeniedAfterApproval(row, env) && !FailsVerification(gated, row, env, claimed))
  {
    hide Hops, AdvanceRow, LegalRun;
    if row.status == WaitingForApproval {
      WaitingHopsLegalIff(gated, row, env, claimed);
    } else {
      OtherHopsLegalIff(gated, row, env, claimed);
    }
  }

  lemma LegalFrom(status: ActionStatus, rest: seq<ActionStatus>)
    requires rest != []
    ensures LegalRun([status] + rest) <==> CanTransition(status, rest[0]) && LegalRun(rest)
  {
    var run := [status] + rest;
    assert forall i | 0 < i < |rest| :: rest[i] == run[i + 1] && rest[i - 1] == run[i];
    if LegalRun(run) { assert CanTransition(run[0], run[1]); }
    if LegalRun(run) {
      forall i | 0 < i < |rest| ensures CanTransition(rest[i - 1], rest[i]) {
        assert CanTransition(run[i], run[i + 1]);
      }
    }
  }

  /** From a gate, an execution is legal unless it fails its verification. */
  lemma ExecutedLegalIff(gate: ActionStatus, env: Env)
    requires gate == PermissionChecked || gate == Approved
    ensures LegalRun([gate] + Executed(env)) <==> !(env.executed && !env.verified)
    ensures Executed(env)[|Executed(env)| - 1] == if env.executed && env.verified then Completed else Failed
  {
    var run := [gate] + Executed(env);
    if env.executed && !env.verified { assert !CanTransition(run[3], run[4]); }
  }

  lemma OtherHopsLegalIff(gated: Gated, row: Row, env: Env, claimed: set<Key>)
    requires row.status != WaitingForApproval
    ensures var hops := Hops(gated, row, env, claimed);
            && hops[0] == row.status && hops[|hops| - 1] == AdvanceRow(gated, row, env, claimed).row.status
            && (LegalRun(hops) <==> !FailsVerification(gated, row, env, claimed))
  {
    ExecutedLegalIff(PermissionChecked, env);
    hide Executed;
    if row.status == PermissionChecked { ExecutesIff(gated, row, env, claimed); }
  }

  lemma WaitingHopsLegalIff(gated: Gated, row: Row, env: Env, claimed: set<Key>)
    requires row.status == WaitingForApproval
    ensures var hops := Hops(gated, row, env, claimed);
            && hops[0] == row.status && hops[|hops| - 1] == AdvanceRow(gated, row, env, claimed).row.status
            && (LegalRun(hops) <==> !DeniedAfterApproval(row, env) && !FailsVerification(gated, row, env, claimed))
  {
    ExecutedLegalIff(Approved, env);
    LegalFrom(WaitingForApproval, [Approved] + Executed(env));
    hide Executed;
    var hops := Hops(gated, row, env, claimed);
    ExecutesIff(gated, row, env, claimed);
    if DeniedAfterApproval(row, env) {
      assert hops == [WaitingForApproval, Failed];
      assert !CanTransition(hops[0], hops[1]);
    } else if AdvanceRow(gated, row, env, claimed).claims != {} {
      assert hops == [WaitingForApproval] + ([Approved] + Executed(env));
    }
  }

  /** The second case at a concrete input: an action that needs no approval, within
      budget, whose adapter succeeds and whose verification does not. */
  lemma FailedVerificationHop(row: Row, category: FailureCategory)
    ensures var checked := row.(status := PermissionChecked);
            var env := Env(false, false, true, true, true, false, NoApproval, category, true);
            && Hops(_ => false, checked, env, {}) == [PermissionChecked, Executing, ExecutionSucceeded, Verifying,
                                                      Failed]
            && !LegalRun(Hops(_ => false, checked, env, {}))
  {
    var checked := row.(status := PermissionChecked);
    var env := Env(false, false, true, true, true, false, NoApproval, category, true);
    var hops := Hops(_ => false, checked, env, {});
    assert !CanTransition(hops[3], hops[4]);
  }

  // ------------------------------------------------------------------ measure

  function RetriesLeft(row: Row): nat {
    if row.retryCount < row.maxRetries then row.maxRetries - row.retryCount else 0
  }

  /** Dispatches a row can still take. */
  function Weight(row: Row): nat {
    match row.status
    case Validated => 2 * RetriesLeft(row) + 2
    case PermissionChecked => 2 * RetriesLeft(row) + 1
    case _ => 0
  }

  function TotalWeight(rows: seq<Row>): nat {
    if rows == [] then 0 else TotalWeight(rows[..|rows| - 1]) + Weight(rows[|rows| - 1])
  }

  /** Twice the attempts every row has left. */
  function DispatchBound(rows: seq<Row>): nat {
    if rows == [] then 0 else DispatchBound(rows[..|rows| - 1]) + 2 * (RetriesLeft(rows[|rows| - 1]) + 1)
  }

  lemma {:induction false} WeightUpdate(rows: seq<Row>, k: nat, row: Row)
    requires k < |rows|
    ensures TotalWeight(rows[k := row]) == TotalWeight(rows) - Weight(rows[k]) + Weight(row)
  {
    var n := |rows| - 1;
    if k == n {
      assert rows[k := row][..n] == rows[..n];
    } else {
      WeightUpdate(rows[..n], k, row);
      assert rows[k := row][..n] == rows[..n][k := row];
    }
  }

  lemma {:induction false} BudgetUpdate(rows: seq<Row>, k: nat, row: Row)
    requires k < |rows|
    ensures DispatchBound(rows[k := row]) == DispatchBound(rows) - 2 * RetriesLeft(rows[k]) + 2 * RetriesLeft(row)
  {
    var n := |rows| - 1;
    if k == n {
      assert rows[k := row][..n] == rows[..n];
    } else {
      BudgetUpdate(rows[..n], k, row);
      assert rows[k := row][..n] == rows[..n][k := row];
    }
  }

  lemma {:induction false} WeightWithinBudget(rows: seq<Row>)
    ensures TotalWeight(rows) <= DispatchBound(rows)
  {
    if rows != [] { WeightWithinBudget(rows[..|rows| - 1]); }
  }

  // -------------------------------------------------------------- invariant

  /** No row left over from a crash. */
  predicate CleanRow(row: Row) {
    row.status in {Validated, PermissionChecked, WaitingForApproval} || Terminal(row.status)
  }

  /** No execution key of a dispatch still to come is taken, and gated actions past
      their permission check say so. */
  predicate FreshRow(gated: Gated, row: Row, claimed: set<Key>) {
    && (forall key | key in claimed && key.0 == row.id :: key.1 <= row.retryCount)
    && (row.status in {Validated, PermissionChecked} ==> (row.id, row.retryCount) !in claimed)
    && (gated(row.id) && row.status in {Validated, PermissionChecked, WaitingForApproval} ==> (row.id, 0) !in claimed)
    && (row.status == WaitingForApproval ==> gated(row.id))
    && (gated(row.id) && row.status in {PermissionChecked, WaitingForApproval} ==> row.approvalRequired)
  }

  predicate Tidy(gated: Gated, rows: seq<Row>, claimed: set<Key>) {
    && (forall i, j | 0 <= i < j < |rows| :: rows[i].id != rows[j].id)
    && (forall i | 0 <= i < |rows| :: CleanRow(rows[i]) && FreshRow(gated, rows[i], claimed))
  }

  lemma RowIsTidy(gated: Gated, rows: seq<Row>, claimed: set<Key>, k: nat)
    requires Tidy(gated, rows, claimed) && k < |rows|
    ensures CleanRow(rows[k]) && FreshRow(gated, rows[k], claimed)
  {
  }

  lemma AdvanceWeighs(gated: Gated, row: Row, env: Env, claimed: set<Key>)
    requires CleanRow(row) && FreshRow(gated, row, claimed)
    ensures var a := AdvanceRow(gated, row, env, claimed);
            && (row.status in {Validated, PermissionChecked} ==>
                Weight(a.row) < Weight(row) && (a.row.status == Failed ==> Weight(row) == 2 * RetriesLeft(row) + 1))
            && (row.status == WaitingForApproval ==> Weight(a.row) == 0)
  {
    assert row.status in {Validated, PermissionChecked} ==> (row.id, row.retryCount) !in claimed;
    hide CleanRow, FreshRow, RetriesLeft;
  }

  /** One advance of a tidy row. */
  lemma AdvanceTidy(gated: Gated, row: Row, env: Env, claimed: set<Key>)
    requires CleanRow(row) && FreshRow(gated, row, claimed)
    ensures var a := AdvanceRow(gated, row, env, claimed);
            && a.row.id == row.id && a.row.retryCount == row.retryCount && a.row.maxRetries == row.maxRetries
            && a.row.payload == row.payload && a.row.deps == row.deps
            && CleanRow(a.row) && FreshRow(gated, a.row, claimed + a.claims)
            && (forall key | key in a.claims :: key.0 == row.id)
            && (row.status in {Validated, PermissionChecked} ==>
                Weight(a.row) < Weight(row) && (a.row.status == Failed ==> Weight(row) == 2 * RetriesLeft(row) + 1))
            && (row.status == WaitingForApproval ==> Weight(a.row) == 0)
            && (a.row.status == Failed && row.status != Failed && gated(row.id) ==> a.row.approvalRequired)
  {
    AdvanceWeighs(gated, row, env, claimed);
    hide Weight, RetriesLeft;
  }

  /** The failure handling after it: at most one retry, which takes a retry away. */
  function Recovered(row: Row, env: Env): Row {
    if R.Evaluate(env.category, env.sideEffect, row.retryCount, row.maxRetries, row.approvalRequired, true) == R.Retry
    then row.(status := Validated, retryCount := row.retryCount + 1) else row
  }

  lemma RecoveredTidy(gated: Gated, row: Row, env: Env, claimed: set<Key>)
    requires CleanRow(row) && FreshRow(gated, row, claimed) && row.status == Failed
    requires (gated(row.id) ==> row.approvalRequired)
    ensures var r := Recovered(row, env);
            && r.id == row.id && r.maxRetries == row.maxRetries && r.payload == row.payload && r.deps == row.deps
            && CleanRow(r) && FreshRow(gated, r, claimed)
            && RetriesLeft(r) <= RetriesLeft(row) && Weight(r) <= 2 * RetriesLeft(row)
  {
    R.RetryIff(env.category, env.sideEffect, row.retryCount, row.maxRetries, row.approvalRequired, true);
    hide R.Evaluate;
  }

  lemma TidyUpdate(gated: Gated, rows: seq<Row>, claimed: set<Key>, k: nat, row: Row, claims: set<Key>)
    requires Tidy(gated, rows, claimed) && k < |rows| && row.id == rows[k].id
    requires CleanRow(row) && FreshRow(gated, row, claimed + claims)
    requires forall key | key in claims :: key.0 == row.id
    ensures Tidy(gated, rows[k := row], claimed + claims)
  {
    forall i | 0 <= i < |rows| && i != k ensures FreshRow(gated, rows[i], claimed + claims) {
      assert FreshRow(gated, rows[i], claimed) && rows[i].id != row.id;
    }
  }

  predicate NewlyFailed(row: Row, advanced: Advanced) {
    !advanced.review && advanced.row.status == Failed && row.status != Failed
  }

  /** The row after a dispatch, failure handling included. */
  function Dispatched(gated: Gated, row: Row, env: Env, claimed: set<Key>): Row {
    var advanced := AdvanceRow(gated, row, env, claimed);
    if NewlyFailed(row, advanced) then Recovered(advanced.row, env) else advanced.row
  }

  /** A dispatched row: what it was persisted with, tidiness and the measure. */
  lemma DispatchedTidy(gated: Gated, row: Row, env: Env, claimed: set<Key>)
    requires CleanRow(row) && FreshRow(gated, row, claimed)
    ensures var a, r := AdvanceRow(gated, row, env, claimed), Dispatched(gated, row, env, claimed);
            && r.id == row.id && r.payload == row.payload && r.deps == row.deps
            && CleanRow(r) && FreshRow(gated, r, claimed + a.claims) && RetriesLeft(r) <= RetriesLeft(row)
            && (forall key | key in a.claims :: key.0 == row.id)
            && (row.status in {Validated, PermissionChecked} ==> Weight(r) < Weight(row))
  {
    var advanced := AdvanceRow(gated, row, env, claimed);
    AdvanceTidy(gated, row, env, claimed);
    hide AdvanceRow;
    if NewlyFailed(row, advanced) {
      hide CleanRow, FreshRow, Recovered;
      RecoveredTidy(gated, advanced.row, env, claimed + advanced.claims);
    } else {
      hide CleanRow, FreshRow;
    }
  }

  // ----------------------------------------------------------------- the run

  datatype RunError = NotOrchestratable | MutationDetected

  function ActionsOf(rows: seq<Row>): seq<H.Action> {
    seq(|rows|, i requires 0 <= i < |rows| => H.Action(rows[i].id, rows[i].payload, rows[i].deps))
  }

  lemma StructureKept(rows: seq<Row>, k: nat, row: Row)
    requires k < |rows| && row.id == rows[k].id && row.payload == rows[k].payload && row.deps == rows[k].deps
    ensures ActionsOf(rows[k := row]) == ActionsOf(rows)
  {
  }

  datatype RunReport = RunReport(stop: StopReason, steps: nat)

  /** What a decision other than RETRY makes of the run's stop reason. */
  function RecoveryStop(decision: R.Decision): StopReason {
    match decision
    case SecurityBlocked => StoppedForSecurity
    case BudgetExhausted => StoppedByBudget
    case Replan => ReplanRequired
    case Stop => ActionFailed
    case NoAction => ActionFailed
    case WaitForApproval => StoppedForApproval
    case _ => HumanReviewRequired
  }

  /** The reason to stop that handling a failure leaves behind, unless it retries. */
  function Deferred(row: Row, env: Env): Option<StopReason> {
    var decision :=
      R.Evaluate(env.category, env.sideEffect, row.retryCount, row.maxRetries, row.approvalRequired, true);
    if decision == R.Retry then None else Some(RecoveryStop(decision))
  }

  /** Which failure leaves which reason to stop: security and budget failures, and used-up
      retries, their own; permission and approval failures ACTION_FAILED; a plan that
      should be changed REPLAN_REQUIRED; everything else a human's review, and so every
      other failure of an action that needed an approval. */
  predicate Defers(env: Env, row: Row, reason: StopReason) {
    var transient := env.category in {Transient, Tool};
    match reason
    case StoppedForSecurity => env.category == Security
    case StoppedByBudget =>
      env.category == Budget
      || (transient && !row.approvalRequired && !env.sideEffect && row.retryCount >= row.maxRetries)
    case ActionFailed => env.category in {Permission, Approval}
    case ReplanRequired => env.category == Validation && !row.approvalRequired
    case HumanReviewRequired =>
      || (row.approvalRequired && env.category in {Transient, Tool, Validation, Verification, Unknown})
      || (!row.approvalRequired && ((transient && env.sideEffect) || env.category in {Verification, Unknown}))
    case _ => false
  }

  lemma DeferredByCause(row: Row, env: Env, reason: StopReason)
    ensures Deferred(row, env) == Some(reason) <==> Defers(env, row, reason)
    ensures Deferred(row, env).None? <==> Recovered(row, env) != row
  {
    R.RetryIff(env.category, env.sideEffect, row.retryCount, row.maxRetries, row.approvalRequired, true);
    R.DecisionByCause(env.category, env.sideEffect, row.retryCount, row.maxRetries, row.approvalRequired, true);
    hide R.Evaluate;
  }

  /** A failure is retried exactly when it is transient, left no side effect, no approval
      was needed, and a retry is left. */
  lemma RecoveredIff(row: Row, env: Env)
    ensures Recovered(row, env) ==
              if env.category in {Transient, Tool} && !env.sideEffect && !row.approvalRequired
                 && row.retryCount < row.maxRetries
              then row.(status := Validated, retryCount := row.retryCount + 1) else row
  {
    R.RetryIff(env.category, env.sideEffect, row.retryCount, row.maxRetries, row.approvalRequired, true);
    hide R.Evaluate;
  }

  // ------------------------------------------------- the run, as a function

  /** What a run has done so far: the stored rows, the claimed execution keys, how often
      the environment was asked, and the reason the last unretried failure left. */
  datatype Progress = Progress(rows: seq<Row>, claimed: set<Key>, calls: nat, pending: Option<StopReason>)

  /** One dispatch of the `k`-th row. */
  function After(gated: Gated, env: nat -> Env, p: Progress, k: nat): Progress
    requires k < |p.rows|
  {
    var row := p.rows[k];
    var advanced := AdvanceRow(gated, row, env(p.calls), p.claimed);
    var reason := if NewlyFailed(row, advanced) then Deferred(advanced.row, env(p.calls)) else None;
    Progress(p.rows[k := Dispatched(gated, row, env(p.calls), p.claimed)], p.claimed + advanced.claims, p.calls + 1,
             if reason.Some? then reason else p.pending)
  }

  /** A human has to look at the `k`-th row. */
  predicate AsksReview(gated: Gated, env: nat -> Env, p: Progress, k: nat)
    requires k < |p.rows|
  {
    AdvanceRow(gated, p.rows[k], env(p.calls), p.claimed).review
  }

  /** The catch-up pass, over the first `k` of the rows that were loaded for it. */
  function CaughtUp(gated: Gated, env: nat -> Env, p: Progress, k: nat): (r: (Progress, bool))
    requires k <= |p.rows|
    ensures |r.0.rows| == |p.rows|
    decreases k
  {
    if k == 0 then (p, false)
    else
      var (before, review) := CaughtUp(gated, env, p, k - 1);
      if p.rows[k - 1].status == WaitingForApproval
      then (After(gated, env, before, k - 1), review || AsksReview(gated, env, before, k - 1)) else (before, review)
  }

  /** The first READY row at or after the `i`-th. */
  function NextReady(rows: seq<Row>, i: nat): (k: Option<nat>)
    requires i <= |rows|
    ensures k.Some? ==> i <= k.value < |rows| && EligibilityOf(rows, rows[k.value]) == E.Eligibility.Ready
    decreases |rows| - i
  {
    if i == |rows| then None
    else if EligibilityOf(rows, rows[i]) == E.Eligibility.Ready then Some(i) else NextReady(rows, i + 1)
  }

  /** One iteration of the dispatch loop: a reason to stop, if there is one, and what
      the iteration leaves. */
  function Iterated(gated: Gated, env: nat -> Env, p: Progress): (Option<StopReason>, Progress) {
    if AnyEligible(p.rows, E.ReconciliationRequired) then (Some(ReconciliationNeeded), p)
    else match NextReady(p.rows, 0)
         case None => (Some(BlockingStopReason(p.rows)), p)
         case Some(k) =>
           (if AsksReview(gated, env, p, k) then Some(HumanReviewRequired) else None, After(gated, env, p, k))
  }

  /** How the dispatch loop ends: why, in which iteration, and with what. */
  datatype Ended = Ended(stop: StopReason, steps: nat, last: Progress)

  function Later(ended: Ended, steps: nat): Ended { ended.(steps := ended.steps + steps) }

  /** The dispatch loop with `left` iterations to go. */
  function Looped(gated: Gated, env: nat -> Env, p: Progress, left: nat): Ended
    decreases left
  {
    if left == 0 then Ended(LimitReached, 0, p)
    else
      var (stop, next) := Iterated(gated, env, p);
      if stop.Some? then Ended(stop.value, 1, next) else Later(Looped(gated, env, next, left - 1), 1)
  }

  /** A run of an orchestratable plan. */
  function Ran(gated: Gated, env: nat -> Env, p: Progress, maxSteps: nat): Ended {
    var (caught, review) := CaughtUp(gated, env, p, |p.rows|);
    if review && maxSteps > 0 then Ended(HumanReviewRequired, 0, caught)
    else if review then Ended(LimitReached, 0, caught)
    else
      var ended := Looped(gated, env, caught, maxSteps);
      if ended.stop == ActionFailed && ended.last.pending.Some? then ended.(stop := ended.last.pending.value) else ended
  }

  /** Rows in dispatch order, the plan's stored status, and the claimed execution keys. */
  class Run {
    const gated: Gated
    const env: nat -> Env
    const id: nat
    const policy: Option<string>
    const frozen: H.Hash
    var rows: seq<Row>
    var status: PlanStatus
    var claimed: set<Key>
    var calls: nat

    constructor (gated: Gated, env: nat -> Env, id: nat, policy: Option<string>, frozen: H.Hash, rows: seq<Row>,
                 status: PlanStatus, claimed: set<Key>)
      ensures this.gated == gated && this.env == env && this.id == id && this.policy == policy && this.frozen == frozen
      ensures this.rows == rows && this.status == status && this.claimed == claimed && calls == 0
    {
      this.gated, this.env, this.id, this.policy, this.frozen := gated, env, id, policy, frozen;
      this.rows, this.status, this.claimed, calls := rows, status, claimed, 0;
    }

    /** `compute_plan_hash` of the plan as loaded. */
    function CurrentHash(): H.Hash
      reads this
    {
      H.ComputePlanHash(H.Plan(id, policy, ActionsOf(rows)))
    }

    /** Advance one action by one step and, if that failed it, handle the failure. */
    method Dispatch(k: nat, pending: Option<StopReason>) returns (review: bool, reason: Option<StopReason>)
      requires k < |rows|
      modifies this`rows, this`claimed, this`calls
      ensures |rows| == |old(rows)|
      ensures Progress(rows, claimed, calls, reason) ==
              After(gated, env, old(Progress(rows, claimed, calls, pending)), k)
      ensures review == AsksReview(gated, env, old(Progress(rows, claimed, calls, pending)), k)
      ensures review <==>
                && old(rows[k]).status == WaitingForApproval
                && (env(old(calls)).approval == NoApproval
                    || (env(old(calls)).budget && env(old(calls)).approval == Granted(false)))
    {
      var e := env(calls);
      calls := calls + 1;
      var before := rows[k];
      var advanced := AdvanceRow(gated, before, e, claimed);
      ReviewIff(gated, before, e, claimed);
      hide AdvanceRow;
      rows, claimed := rows[k := advanced.row], claimed + advanced.claims;
      review, reason := advanced.review, pending;
      if !review && advanced.row.status == Failed && before.status != Failed {
        var failed := HandleFailure(k, e);
        if failed.Some? { reason := failed; }
      }
    }

    /** `_process_failure`: an authorized retry resets the row, anything else is
        remembered as a reason to stop. */
    method HandleFailure(k: nat, e: Env) returns (reason: Option<StopReason>)
      requires k < |rows|
      modifies this`rows
      ensures |rows| == |old(rows)| && rows == old(rows)[k := Recovered(old(rows[k]), e)]
      ensures reason == Deferred(old(rows[k]), e)
      ensures reason.None? <==> Recovered(old(rows[k]), e) != old(rows[k])
    {
      var row := rows[k];
      var decision := R.Evaluate(e.category, e.sideEffect, row.retryCount, row.maxRetries, row.approvalRequired, true);
      hide R.Evaluate;
      if decision == R.Retry {
        rows := rows[k := row.(status := Validated, retryCount := row.retryCount + 1)];
        return None;
      }
      return Some(RecoveryStop(decision));
    }

    /** The one-time pass over actions that wait for an approval. */
    method CatchUp() returns (stop: Option<StopReason>, pending: Option<StopReason>)
      requires Tidy(gated, rows, claimed)
      modifies this`rows, this`claimed, this`calls
      ensures var (caught, review) := CaughtUp(gated, env, old(Progress(rows, claimed, calls, None)), |old(rows)|);
              && Progress(rows, claimed, calls, pending) == caught
              && stop == if review then Some(HumanReviewRequired) else None
    {
      stop, pending := None, None;
      var loaded := rows;
      hide After, AsksReview, Tidy;
      for k := 0 to |loaded|
        invariant |rows| == |loaded|
        invariant var (caught, review) := CaughtUp(gated, env, old(Progress(rows, claimed, calls, None)), k);
                  && Progress(rows, claimed, calls, pending) == caught
                  && stop == if review then Some(HumanReviewRequired) else None
      {
        if loaded[k].status == WaitingForApproval {
          var review;
          review, pending := Dispatch(k, pending);
          if review { stop := Some(HumanReviewRequired); }
        }
      }
    }

    /** `ready[0]`: the first READY action in dispatch order. */
    method FirstReady() returns (k: Option<nat>)
      ensures k == NextReady(rows, 0)
      ensures k.None? <==> !AnyEligible(rows, E.Eligibility.Ready)
      ensures k.Some? ==> k.value < |rows| && EligibilityOf(rows, rows[k.value]) == E.Eligibility.Ready
      ensures k.Some? ==> forall j | 0 <= j < k.value :: EligibilityOf(rows, rows[j]) != E.Eligibility.Ready
    {
      for i := 0 to |rows|
        invariant NextReady(rows, 0) == NextReady(rows, i)
        invariant forall j | 0 <= j < i :: EligibilityOf(rows, rows[j]) != E.Eligibility.Ready
      {
        if EligibilityOf(rows, rows[i]) == E.Eligibility.Ready { return Some(i); }
      }
      return None;
    }

    /** The body of the dispatch loop. */
    method Iterate(pending: Option<StopReason>) returns (stop: Option<StopReason>, reason: Option<StopReason>)
      modifies this`rows, this`claimed, this`calls
      ensures (stop, Progress(rows, claimed, calls, reason)) ==
              Iterated(gated, env, old(Progress(rows, claimed, calls, pending)))
    {
      hide After, AsksReview, BlockingStopReason, EligibilityOf, AnyEligible, NextReady;
      if AnyEligible(rows, E.ReconciliationRequired) { return Some(ReconciliationNeeded), pending; }
      var k := FirstReady();
      if k.None? { return Some(BlockingStopReason(rows)), pending; }
      var review;
      review, reason := Dispatch(k.value, pending);
      stop := if review then Some(HumanReviewRequired) else None;
    }

    /** The dispatch loop proper, up to the step limit. */
    method Loop(maxSteps: nat, early: Option<StopReason>, caught: Option<StopReason>)
      returns (stop: StopReason, steps: nat, pending: Option<StopReason>)
      requires Tidy(gated, rows, claimed) && Specific(caught)
      modifies this`rows, this`claimed, this`calls
      ensures early.None? ==>
                Ended(stop, steps, Progress(rows, claimed, calls, pending)) ==
                Looped(gated, env, old(Progress(rows, claimed, calls, caught)), maxSteps)
      ensures early.Some? ==>
                && Progress(rows, claimed, calls, pending) == old(Progress(rows, claimed, calls, caught)) && steps == 0
                && stop == if maxSteps > 0 then early.value else LimitReached
    {
      hide Iterated, Tidy;
      steps, pending := 0, caught;
      while steps < maxSteps
        invariant steps <= maxSteps
        invariant early.Some? ==> steps == 0 && rows == old(rows) && claimed == old(claimed) && calls == old(calls)
        invariant early.Some? ==> pending == caught
        invariant Looped(gated, env, old(Progress(rows, claimed, calls, caught)), maxSteps) ==
                  Later(Looped(gated, env, Progress(rows, claimed, calls, pending), maxSteps - steps), steps)
        decreases maxSteps - steps
      {
        if early.Some? { return early.value, steps, pending; }
        steps := steps + 1;
        var ended;
        ended, pending := Iterate(pending);
        if ended.Some? { return ended.value, steps, pending; }
      }
      return LimitReached, steps, pending;
    }

    /** A run of the plan. Whatever the environment does, the run stops by itself before
        a large enough step bound is reached; the stored status is the one the stored
        actions say; a guard that let the run start would let the next one start. It
        stops with PLAN_COMPLETED exactly when every action, superseded or not, is
        COMPLETED or CANCELLED and the step limit was not reached first; so stop reason
        and status agree on completion exactly when the limit was reached with work
        left, or was not reached and every action is closed just where every current one
        is COMPLETED. Every other stop reason has its cause too: `StopsFor`. */
    method RunPlanUntilBlocked(maxSteps: nat) returns (r: Result<RunReport, RunError>)
      requires Tidy(gated, rows, claimed)
      modifies this
      ensures r == Err(NotOrchestratable) <==> old(status) in {Draft, Validating}
      ensures r == Err(MutationDetected) <==> Orchestratable(old(status)) && old(CurrentHash()) != frozen
      ensures !Orchestratable(old(status)) || r.Err? ==> rows == old(rows) && status == old(status)
      ensures old(status) == PlanCompleted ==> r == Ok(RunReport(PlanIsCompleted, 0))
      ensures old(status) == PlanFailed ==> r == Ok(RunReport(ActionFailed, 0))
      ensures old(status) == PlanCancelled ==> r == Ok(RunReport(StoppedAsCancelled, 0))
      ensures r.Ok? && Orchestratable(old(status)) ==>
                var ended := Ran(gated, env, old(Progress(rows, claimed, calls, None)), maxSteps);
                && r.value == RunReport(ended.stop, ended.steps) && rows == ended.last.rows
                && claimed == ended.last.claimed && calls == ended.last.calls
                && StopsFor(env, old(rows), ended, maxSteps)
                && Tidy(gated, rows, claimed) && status == Recompute(rows) && CurrentHash() == frozen
                && r.value.steps <= 1 + old(DispatchBound(rows))
                && (maxSteps > old(DispatchBound(rows)) ==> r.value.stop != LimitReached)
                && (r.value.stop == PlanIsCompleted <==> AllClosed(rows) && r.value.stop != LimitReached)
                && ((r.value.stop == PlanIsCompleted <==> status == PlanCompleted) <==>
                    if r.value.stop == LimitReached then !AllDone(rows) else AllClosed(rows) <==> AllDone(rows))
    {
      hide Tidy, DispatchBound, Recompute, CaughtUp, Looped, AllClosed, AllDone, H.ComputePlanHash, ActionsOf, StopsFor,
        CanPlanTransition;
      match status {
        case PlanCompleted => return Ok(RunReport(PlanIsCompleted, 0));
        case PlanFailed => return Ok(RunReport(ActionFailed, 0));
        case PlanCancelled => return Ok(RunReport(StoppedAsCancelled, 0));
        case Draft => return Err(NotOrchestratable);
        case Validating => return Err(NotOrchestratable);
        case _ =>
      }
      if CurrentHash() != frozen { return Err(MutationDetected); }
      HubIsLegal(status, rows);
      if status != PlanExecuting { status := PlanExecuting; }
      ghost var start := Progress(rows, claimed, calls, None);
      var early, caught := CatchUp();
      CaughtIsTidy(gated, env, start);
      var stop, steps, pending := Loop(maxSteps, early, caught);
      if pending.Some? && stop == ActionFailed { stop := pending.value; }
      RanMeans(gated, env, start, maxSteps);
      RanStops(gated, env, start, maxSteps);
      RecomputeMeans(rows);
      HubIsLegal(PlanExecuting, rows);
      var final := Recompute(rows);
      if final != status && CanPlanTransition(status, final) { status := final; }
      return Ok(RunReport(stop, steps));
    }
  }

  // --------------------------------------------------------- what a run keeps

  /** What every dispatch keeps, and how far a run may still go. */
  predicate Keeps(gated: Gated, p: Progress, q: Progress) {
    && Tidy(gated, q.rows, q.claimed) && ActionsOf(q.rows) == ActionsOf(p.rows)
    && DispatchBound(q.rows) <= DispatchBound(p.rows)
    && (Specific(p.pending) ==> Specific(q.pending))
  }

  /** A deferred reason is never one of the loop's own two. */
  predicate Specific(pending: Option<StopReason>) {
    pending != Some(PlanIsCompleted) && pending != Some(LimitReached)
  }

  lemma AfterKeeps(gated: Gated, env: nat -> Env, p: Progress, k: nat)
    requires k < |p.rows| && Tidy(gated, p.rows, p.claimed)
    ensures Keeps(gated, p, After(gated, env, p, k))
    ensures p.rows[k].status in {Validated, PermissionChecked} ==>
              TotalWeight(After(gated, env, p, k).rows) < TotalWeight(p.rows)
  {
    var row, e := p.rows[k], env(p.calls);
    var next, claims := Dispatched(gated, row, e, p.claimed), AdvanceRow(gated, row, e, p.claimed).claims;
    RowIsTidy(gated, p.rows, p.claimed, k);
    hide Tidy, CleanRow, FreshRow, AdvanceRow, Dispatched, TotalWeight, DispatchBound, ActionsOf, RetriesLeft, Weight,
         R.Evaluate;
    DispatchedTidy(gated, row, e, p.claimed);
    TidyUpdate(gated, p.rows, p.claimed, k, next, claims);
    StructureKept(p.rows, k, next);
    WeightUpdate(p.rows, k, next);
    BudgetUpdate(p.rows, k, next);
  }

  lemma KeepsOn(gated: Gated, p: Progress, q: Progress, r: Progress)
    requires Keeps(gated, p, q) && Keeps(gated, q, r)
    ensures Keeps(gated, p, r)
  {
  }

  /** A dispatch that asks for a review leaves the row waiting, and touches nothing. */
  lemma ReviewWaits(gated: Gated, env: nat -> Env, p: Progress, k: nat)
    requires k < |p.rows| && AsksReview(gated, env, p, k)
    ensures After(gated, env, p, k).rows == p.rows && p.rows[k].status == WaitingForApproval
  {
    hide Recovered, R.Evaluate;
  }

  lemma AfterElsewhere(gated: Gated, env: nat -> Env, p: Progress, k: nat)
    requires k < |p.rows|
    ensures var q := After(gated, env, p, k);
            |q.rows| == |p.rows| && forall i | 0 <= i < |p.rows| && i != k :: q.rows[i] == p.rows[i]
  {
    hide Dispatched, AdvanceRow;
  }

  predicate AnyWaiting(rows: seq<Row>, k: nat)
    requires k <= |rows|
  {
    exists i | 0 <= i < k :: rows[i].status == WaitingForApproval
  }

  /** What the catch-up pass over the first `k` rows leaves; a review it asks for leaves
      an action waiting. */
  predicate Caught(gated: Gated, p: Progress, k: nat, q: Progress, review: bool) {
    && k <= |p.rows| == |q.rows| && Keeps(gated, p, q)
    && (forall i | k <= i < |p.rows| :: q.rows[i] == p.rows[i])
    && (review ==> AnyWaiting(q.rows, k))
  }

  lemma CaughtNext(gated: Gated, env: nat -> Env, p: Progress, k: nat, q: Progress, review: bool)
    requires Caught(gated, p, k, q, review) && k < |p.rows|
    ensures Caught(gated, p, k + 1, q, review)
    ensures Caught(gated, p, k + 1, After(gated, env, q, k), review || AsksReview(gated, env, q, k))
  {
    var r := After(gated, env, q, k);
    assert Tidy(gated, q.rows, q.claimed);
    hide Tidy, Keeps, After, AsksReview;
    AfterKeeps(gated, env, q, k);
    AfterElsewhere(gated, env, q, k);
    KeepsOn(gated, p, q, r);
    if AsksReview(gated, env, q, k) {
      ReviewWaits(gated, env, q, k);
    } else if review {
      var i :| 0 <= i < k && q.rows[i].status == WaitingForApproval;
      assert r.rows[i].status == WaitingForApproval;
    }
  }

  lemma {:induction false} CaughtUpKeeps(gated: Gated, env: nat -> Env, p: Progress, k: nat)
    requires k <= |p.rows| && Tidy(gated, p.rows, p.claimed)
    ensures Caught(gated, p, k, CaughtUp(gated, env, p, k).0, CaughtUp(gated, env, p, k).1)
    decreases k
  {
    if k == 0 {
      hide Tidy;
    } else {
      hide Tidy, Caught, After, AsksReview;
      CaughtUpKeeps(gated, env, p, k - 1);
      CaughtNext(gated, env, p, k - 1, CaughtUp(gated, env, p, k - 1).0, CaughtUp(gated, env, p, k - 1).1);
    }
  }

  lemma CaughtIsTidy(gated: Gated, env: nat -> Env, p: Progress)
    requires Tidy(gated, p.rows, p.claimed) && p.pending.None?
    ensures var caught := CaughtUp(gated, env, p, |p.rows|).0;
            Tidy(gated, caught.rows, caught.claimed) && Specific(caught.pending)
  {
    CaughtUpKeeps(gated, env, p, |p.rows|);
    hide Tidy, CaughtUp;
  }

  // --------------------------------------------------------- what is deferred

  /** Some action has failed for good since the rows were `first`, and its failure leaves
      this reason. */
  ghost predicate Blamed(env: nat -> Env, first: seq<Row>, rows: seq<Row>, calls: nat, reason: StopReason)
    requires |rows| == |first|
  {
    exists i, c: nat | 0 <= i < |rows| && c < calls ::
      rows[i].status == Failed && first[i].status != Failed && Defers(env(c), rows[i], reason)
  }

  /** The deferred reason of a run that began with the rows `first`: none as long as no
      action has failed for good, and else that of an action which has. */
  ghost predicate Blames(env: nat -> Env, first: seq<Row>, p: Progress) {
    && |p.rows| == |first|
    && (forall i | 0 <= i < |first| && first[i].status == Failed :: p.rows[i].status == Failed)
    && (p.pending.None? ==> forall i | 0 <= i < |first| && p.rows[i].status == Failed :: first[i].status == Failed)
    && (p.pending.Some? ==> Blamed(env, first, p.rows, p.calls, p.pending.value))
  }

  lemma ReviewStays(gated: Gated, row: Row, env: Env, claimed: set<Key>)
    ensures AdvanceRow(gated, row, env, claimed).review ==> AdvanceRow(gated, row, env, claimed).row == row
  {
  }

  lemma DeferralOf(row: Row, env: Env)
    requires row.status == Failed
    ensures Deferred(row, env).Some? ==>
              Recovered(row, env) == row && Defers(env, row, Deferred(row, env).value)
    ensures Deferred(row, env).None? ==> Recovered(row, env).status == Validated
  {
    if Deferred(row, env).Some? { DeferredByCause(row, env, Deferred(row, env).value); }
    hide R.Evaluate, Defers;
  }

  /** What becomes of a dispatched row and of the deferred reason. */
  lemma AfterDefers(gated: Gated, env: nat -> Env, p: Progress, k: nat)
    requires k < |p.rows| && p.rows[k].status != Failed
    ensures var q := After(gated, env, p, k);
            && |q.rows| == |p.rows| && q.calls == p.calls + 1
            && (forall i | 0 <= i < |p.rows| && i != k :: q.rows[i] == p.rows[i])
            && (if q.rows[k].status == Failed
                then q.pending.Some? && Defers(env(p.calls), q.rows[k], q.pending.value)
                else q.pending == p.pending)
  {
    hide AdvanceRow, Defers, Recovered, Deferred;
    var row, e := p.rows[k], env(p.calls);
    var advanced := AdvanceRow(gated, row, e, p.claimed);
    ReviewStays(gated, row, e, p.claimed);
    if NewlyFailed(row, advanced) { DeferralOf(advanced.row, e); }
  }

  lemma AfterBlames(gated: Gated, env: nat -> Env, first: seq<Row>, p: Progress, k: nat)
    requires Blames(env, first, p) && k < |p.rows| && p.rows[k].status != Failed
    ensures Blames(env, first, After(gated, env, p, k))
  {
    hide After, Defers;
    AfterDefers(gated, env, p, k);
    var q := After(gated, env, p, k);
    if q.rows[k].status == Failed {
      assert Defers(env(p.calls), q.rows[k], q.pending.value);
    } else if p.pending.Some? {
      var i, c: nat :| 0 <= i < |p.rows| && c < p.calls && p.rows[i].status == Failed && first[i].status != Failed
                       && Defers(env(c), p.rows[i], p.pending.value);
      assert q.rows[i] == p.rows[i] && Defers(env(c), q.rows[i], q.pending.value);
    }
  }

  // ------------------------------------------------------------- how it stops

  lemma ReadyIsFresh(gated: Gated, rows: seq<Row>, claimed: set<Key>, k: nat)
    requires Tidy(gated, rows, claimed) && k < |rows| && EligibilityOf(rows, rows[k]) == E.Eligibility.Ready
    ensures rows[k].status in {Validated, PermissionChecked}
  {
    E.ReadyIff(rows[k].status, rows[k].deps, StatusMap(rows));
    assert CleanRow(rows[k]);
  }

  lemma {:induction false} NextReadyNone(rows: seq<Row>, i: nat)
    requires i <= |rows|
    ensures NextReady(rows, i).None? <==>
              forall j | i <= j < |rows| :: EligibilityOf(rows, rows[j]) != E.Eligibility.Ready
    decreases |rows| - i
  {
    hide EligibilityOf;
    if i < |rows| { NextReadyNone(rows, i + 1); }
  }

  /** Nothing is READY: PLAN_COMPLETED is the reason exactly when everything is closed. */
  lemma BlockedMeans(rows: seq<Row>)
    requires NextReady(rows, 0).None? && !AnyEligible(rows, E.ReconciliationRequired)
    ensures BlockingStopReason(rows) != LimitReached
    ensures BlockingStopReason(rows) == PlanIsCompleted <==> AllClosed(rows)
  {
    NextReadyNone(rows, 0);
    hide EligibilityOf;
    StopCompletedIff(rows);
    hide AnyEligible;
  }

  lemma ReconcilingIsOpen(rows: seq<Row>)
    requires AnyEligible(rows, E.ReconciliationRequired)
    ensures !AllClosed(rows)
  {
    hide EligibilityOf;
    var i :| 0 <= i < |rows| && EligibilityOf(rows, rows[i]) == E.ReconciliationRequired;
    EligibilityTruthful(rows, rows[i]);
  }

  /** A READY row of a tidy plan takes a dispatch that asks nobody. */
  lemma ReadyAdvances(gated: Gated, env: nat -> Env, p: Progress, k: nat)
    requires Tidy(gated, p.rows, p.claimed) && NextReady(p.rows, 0) == Some(k)
    ensures !AsksReview(gated, env, p, k) && Keeps(gated, p, After(gated, env, p, k))
    ensures TotalWeight(After(gated, env, p, k).rows) < TotalWeight(p.rows)
  {
    ReadyIsFresh(gated, p.rows, p.claimed, k);
    hide Tidy, Keeps, After, NextReady, EligibilityOf;
    AfterKeeps(gated, env, p, k);
  }

  /** An iteration stops where it is, with PLAN_COMPLETED exactly when everything is
      closed; or it goes on with less to do. */
  lemma IterationMeans(gated: Gated, env: nat -> Env, p: Progress)
    requires Tidy(gated, p.rows, p.claimed)
    ensures var (stop, next) := Iterated(gated, env, p);
            if stop.Some?
            then next == p && stop.value != LimitReached && (stop.value == PlanIsCompleted <==> AllClosed(p.rows))
            else Keeps(gated, p, next) && TotalWeight(next.rows) < TotalWeight(p.rows)
  {
    hide Tidy, Keeps, After, AsksReview, EligibilityOf, BlockingStopReason, AnyEligible, NextReady, AllClosed,
         TotalWeight;
    if AnyEligible(p.rows, E.ReconciliationRequired) {
      ReconcilingIsOpen(p.rows);
    } else if NextReady(p.rows, 0).None? {
      BlockedMeans(p.rows);
    } else {
      ReadyAdvances(gated, env, p, NextReady(p.rows, 0).value);
    }
  }

  /** A loop that ends within its limit and one more iteration than its rows weigh, and
      says PLAN_COMPLETED exactly when everything is closed and the limit did not end it. */
  predicate EndsWell(gated: Gated, p: Progress, left: nat, ended: Ended) {
    && Keeps(gated, p, ended.last)
    && ended.steps <= left && ended.steps <= TotalWeight(p.rows) + 1
    && (ended.stop == LimitReached ==> ended.steps == left <= TotalWeight(p.rows))
    && (ended.stop == PlanIsCompleted <==> AllClosed(ended.last.rows) && ended.stop != LimitReached)
  }

  lemma EndsAtOnce(gated: Gated, p: Progress, left: nat, stop: StopReason)
    requires Tidy(gated, p.rows, p.claimed) && left > 0 && stop != LimitReached
    requires stop == PlanIsCompleted <==> AllClosed(p.rows)
    ensures EndsWell(gated, p, left, Ended(stop, 1, p))
  {
    hide Tidy, AllClosed, TotalWeight;
  }

  lemma EndsLater(gated: Gated, p: Progress, left: nat, next: Progress, rest: Ended)
    requires left > 0 && Keeps(gated, p, next) && TotalWeight(next.rows) < TotalWeight(p.rows)
    requires EndsWell(gated, next, left - 1, rest)
    ensures EndsWell(gated, p, left, Later(rest, 1))
  {
    KeepsOn(gated, p, next, rest.last);
    hide Keeps, AllClosed, TotalWeight;
  }

  lemma EndsAtLimit(gated: Gated, p: Progress)
    requires Tidy(gated, p.rows, p.claimed)
    ensures EndsWell(gated, p, 0, Ended(LimitReached, 0, p))
  {
    hide Tidy, AllClosed, TotalWeight;
  }

  /** However the environment behaves, the loop does. */
  lemma {:induction false} LoopedMeans(gated: Gated, env: nat -> Env, p: Progress, left: nat)
    requires Tidy(gated, p.rows, p.claimed) && Specific(p.pending)
    ensures EndsWell(gated, p, left, Looped(gated, env, p, left))
    decreases left
  {
    hide Tidy, Keeps, Iterated, EndsWell, TotalWeight, AllClosed;
    if left == 0 {
      EndsAtLimit(gated, p);
    } else {
      IterationMeans(gated, env, p);
      var (stop, next) := Iterated(gated, env, p);
      if stop.Some? {
        EndsAtOnce(gated, p, left, stop.value);
      } else {
        StillTidy(gated, p, next);
        LoopedMeans(gated, env, next, left - 1);
        EndsLater(gated, p, left, next, Looped(gated, env, next, left - 1));
      }
    }
  }

  lemma StillTidy(gated: Gated, p: Progress, q: Progress)
    requires Keeps(gated, p, q) && Specific(p.pending)
    ensures Tidy(gated, q.rows, q.claimed) && Specific(q.pending)
  {
  }

  /** Raising the limit of a loop that ends by itself changes nothing; a limit below the
      iterations it takes is reached. */
  lemma {:induction false} LimitDecides(gated: Gated, env: nat -> Env, p: Progress, enough: nat, left: nat)
    requires Looped(gated, env, p, enough).stop != LimitReached
    ensures var ended := Looped(gated, env, p, enough);
            if left < ended.steps
            then Looped(gated, env, p, left).stop == LimitReached && Looped(gated, env, p, left).steps == left
            else Looped(gated, env, p, left) == ended
    decreases enough
  {
    hide Iterated;
    var (stop, next) := Iterated(gated, env, p);
    if left > 0 && stop.None? { LimitDecides(gated, env, next, enough - 1, left - 1); }
  }

  /** Exactly when the limit ends the loop: when it is smaller than the iterations the
      loop takes to find nothing READY, the last of which dispatches nothing. */
  lemma LimitReachedIff(gated: Gated, env: nat -> Env, p: Progress, left: nat)
    requires Tidy(gated, p.rows, p.claimed) && Specific(p.pending)
    ensures var unlimited := Looped(gated, env, p, TotalWeight(p.rows) + 1);
            && unlimited.stop != LimitReached
            && (Looped(gated, env, p, left).stop == LimitReached <==> left < unlimited.steps)
            && (left >= unlimited.steps ==> Looped(gated, env, p, left) == unlimited)
  {
    hide Tidy, Keeps, Looped, AllClosed, TotalWeight;
    LoopedMeans(gated, env, p, TotalWeight(p.rows) + 1);
    LimitDecides(gated, env, p, TotalWeight(p.rows) + 1, left);
  }

  lemma WaitingIsOpen(rows: seq<Row>)
    requires exists i | 0 <= i < |rows| :: rows[i].status == WaitingForApproval
    ensures !AllClosed(rows)
  {
  }

  /** What a run of an orchestratable plan leaves, and when it says PLAN_COMPLETED. */
  lemma RanMeans(gated: Gated, env: nat -> Env, p: Progress, maxSteps: nat)
    requires Tidy(gated, p.rows, p.claimed) && p.pending.None?
    ensures var ended := Ran(gated, env, p, maxSteps);
            && Keeps(gated, p, ended.last)
            && ended.steps <= maxSteps && ended.steps <= DispatchBound(p.rows) + 1
            && (maxSteps > DispatchBound(p.rows) ==> ended.stop != LimitReached)
            && (ended.stop == PlanIsCompleted <==> AllClosed(ended.last.rows) && ended.stop != LimitReached)
  {
    CaughtUpKeeps(gated, env, p, |p.rows|);
    var (caught, review) := CaughtUp(gated, env, p, |p.rows|);
    hide Tidy, Looped, CaughtUp, AllClosed, TotalWeight, DispatchBound, ActionsOf;
    if review {
      WaitingIsOpen(caught.rows);
    } else {
      LoopedMeans(gated, env, caught, maxSteps);
      WeightWithinBudget(caught.rows);
      KeepsOn(gated, p, caught, Looped(gated, env, caught, maxSteps).last);
    }
  }

  // ------------------------------------------------------- every stop reason

  /** A human is asked exactly about a waiting action without a request, or whose budget
      is granted and whose approval does not hold. */
  lemma ReviewIff(gated: Gated, row: Row, env: Env, claimed: set<Key>)
    ensures AdvanceRow(gated, row, env, claimed).review <==>
              && row.status == WaitingForApproval
              && (env.approval == NoApproval || (env.budget && env.approval == Granted(false)))
  {
  }

  /** The catch-up pass asks exactly when one of the waiting actions it comes to does. */
  lemma {:induction false} CaughtUpAsksIff(gated: Gated, env: nat -> Env, p: Progress, k: nat)
    requires k <= |p.rows|
    ensures CaughtUp(gated, env, p, k).1 <==>
              exists j | 0 <= j < k ::
                p.rows[j].status == WaitingForApproval && AsksReview(gated, env, CaughtUp(gated, env, p, j).0, j)
    decreases k
  {
    hide AsksReview, After;
    if k > 0 { CaughtUpAsksIff(gated, env, p, k - 1); }
  }

  lemma NobodyBlamed(env: nat -> Env, p: Progress)
    requires p.pending.None?
    ensures Blames(env, p.rows, p)
  {
  }

  lemma {:induction false} CaughtUpBlames(gated: Gated, env: nat -> Env, p: Progress, k: nat)
    requires k <= |p.rows| && Tidy(gated, p.rows, p.claimed) && p.pending.None?
    ensures Blames(env, p.rows, CaughtUp(gated, env, p, k).0)
    decreases k
  {
    hide Tidy, After, AsksReview, Blames, Keeps;
    if k == 0 {
      NobodyBlamed(env, p);
    } else {
      CaughtUpBlames(gated, env, p, k - 1);
      CaughtUpKeeps(gated, env, p, k - 1);
      hide AnyWaiting;
      var before := CaughtUp(gated, env, p, k - 1).0;
      if p.rows[k - 1].status == WaitingForApproval {
        assert before.rows[k - 1] == p.rows[k - 1];
        hide Caught;
        AfterBlames(gated, env, p.rows, before, k - 1);
      }
    }
  }

  lemma TidyIsDistinct(gated: Gated, rows: seq<Row>, claimed: set<Key>)
    requires Tidy(gated, rows, claimed)
    ensures DistinctIds(rows)
  {
  }

  /** Why an iteration stops, read off the rows. */
  ghost predicate StopsThere(rows: seq<Row>, stop: StopReason) {
    if AnyDangling(rows) then stop == ReconciliationNeeded else BlockedBy(rows, stop)
  }

  lemma IterationStops(gated: Gated, env: nat -> Env, p: Progress)
    requires Tidy(gated, p.rows, p.claimed)
    ensures var (stop, next) := Iterated(gated, env, p);
            stop.Some? ==> next == p && StopsThere(p.rows, stop.value)
  {
    hide Tidy, Keeps, After, AsksReview, EligibilityOf, BlockingStopReason, AnyDangling, BlockedBy, DistinctIds;
    TidyIsDistinct(gated, p.rows, p.claimed);
    DanglingByRows(p.rows);
    NextReadyNone(p.rows, 0);
    if !AnyEligible(p.rows, E.ReconciliationRequired) {
      if NextReady(p.rows, 0).None? {
        StopReasonByCause(p.rows, BlockingStopReason(p.rows));
      } else {
        ReadyAdvances(gated, env, p, NextReady(p.rows, 0).value);
      }
    }
  }

  lemma IterationBlames(gated: Gated, env: nat -> Env, first: seq<Row>, p: Progress)
    requires Tidy(gated, p.rows, p.claimed) && Blames(env, first, p)
    ensures Blames(env, first, Iterated(gated, env, p).1)
  {
    hide Tidy, Blames, After, AsksReview, EligibilityOf, AnyEligible, BlockingStopReason;
    if NextReady(p.rows, 0).Some? {
      ReadyIsFresh(gated, p.rows, p.claimed, NextReady(p.rows, 0).value);
      AfterBlames(gated, env, first, p, NextReady(p.rows, 0).value);
    }
  }

  lemma {:induction false} LoopedStops(gated: Gated, env: nat -> Env, first: seq<Row>, p: Progress, left: nat)
    requires Tidy(gated, p.rows, p.claimed) && Blames(env, first, p)
    ensures var ended := Looped(gated, env, p, left);
            && Blames(env, first, ended.last)
            && if ended.stop == LimitReached then ended.steps == left
               else ended.steps > 0 && StopsThere(ended.last.rows, ended.stop)
    decreases left
  {
    hide Tidy, Keeps, Iterated, Blames, StopsThere, TotalWeight, AllClosed;
    if left > 0 {
      IterationMeans(gated, env, p);
      IterationStops(gated, env, p);
      IterationBlames(gated, env, first, p);
      var (stop, next) := Iterated(gated, env, p);
      if stop.None? {
        KeptTidy(gated, p, next);
        LoopedStops(gated, env, first, next, left - 1);
      }
    }
  }

  lemma KeptTidy(gated: Gated, p: Progress, q: Progress)
    requires Keeps(gated, p, q)
    ensures Tidy(gated, q.rows, q.claimed)
  {
  }

  /** Why a run stops, in terms of what it leaves. Its limit; a review, asked for before
      the first iteration; a dependency outside the plan; what the rows say; and where
      they say ACTION_FAILED and an action has failed for good since the run began, what
      the policy makes of such a failure. */
  ghost predicate StopsFor(env: nat -> Env, first: seq<Row>, ended: Ended, maxSteps: nat) {
    var rows := ended.last.rows;
    && |rows| == |first|
    && if ended.stop == LimitReached then ended.steps == maxSteps
       else if ended.steps == 0 then ended.stop == HumanReviewRequired && AnyWaiting(rows, |rows|)
       else if AnyDangling(rows) then ended.stop == ReconciliationNeeded
       else if !BlockedBy(rows, ActionFailed) then BlockedBy(rows, ended.stop)
       else if forall i | 0 <= i < |rows| && rows[i].status == Failed :: first[i].status == Failed
            then ended.stop == ActionFailed
       else Blamed(env, first, rows, ended.last.calls, ended.stop)
  }

  lemma OneCause(rows: seq<Row>, reason: StopReason)
    requires BlockedBy(rows, reason) && BlockedBy(rows, ActionFailed)
    ensures reason == ActionFailed
  {
    hide HeldUp;
  }

  lemma LoopedSpecific(gated: Gated, env: nat -> Env, p: Progress, left: nat)
    requires Tidy(gated, p.rows, p.claimed) && Specific(p.pending)
    ensures Specific(Looped(gated, env, p, left).last.pending)
  {
    LoopedMeans(gated, env, p, left);
    hide Tidy, Looped, AllClosed, TotalWeight;
  }

  /** Every run stops for its reason. */
  lemma RanStops(gated: Gated, env: nat -> Env, p: Progress, maxSteps: nat)
    requires Tidy(gated, p.rows, p.claimed) && p.pending.None?
    ensures StopsFor(env, p.rows, Ran(gated, env, p, maxSteps), maxSteps)
  {
    hide Tidy, Looped, CaughtUp, BlockedBy, AnyDangling, Defers;
    var (caught, review) := CaughtUp(gated, env, p, |p.rows|);
    CaughtUpKeeps(gated, env, p, |p.rows|);
    CaughtUpBlames(gated, env, p, |p.rows|);
    if !review {
      KeptTidy(gated, p, caught);
      LoopedStops(gated, env, p.rows, caught, maxSteps);
      CaughtIsTidy(gated, env, p);
      LoopedSpecific(gated, env, caught, maxSteps);
      var ended := Looped(gated, env, caught, maxSteps);
      if ended.stop != LimitReached && !AnyDangling(ended.last.rows) && BlockedBy(ended.last.rows, ActionFailed) {
        OneCause(ended.last.rows, ended.stop);
      }
    }
  }

  // ------------------------------------------------------------ at the limit

  /** An action without a tool that nothing keeps from completing. */
  const TOOLLESS: nat -> Env := _ => Env(false, true, true, true, true, true, NoApproval, Transient, false)

  const UNGATED: Gated := _ => false

  /** A plan of one action that depends on nothing. */
  lemma OneRow(row: Row)
    requires row.deps == []
    ensures !AnyEligible([row], E.ReconciliationRequired)
    ensures row.status in {Validated, PermissionChecked} ==> NextReady([row], 0) == Some(0)
    ensures row.status == Completed ==> NextReady([row], 0).None? && BlockingStopReason([row]) == PlanIsCompleted
  {
    assert [row][0] == row;
    NextReadyNone([row], 0);
    if row.status == Completed { BlockedMeans([row]); }
  }

  lemma OneRowIterates(row: Row, calls: nat)
    requires row.deps == [] && row.status in {Validated, PermissionChecked, Completed}
    ensures var p := Progress([row], {}, calls, None);
            Iterated(UNGATED, TOOLLESS, p) ==
            match row.status
            case Validated =>
              (None, Progress([row.(status := PermissionChecked, approvalRequired := false)], {}, calls + 1, None))
            case PermissionChecked => (None, Progress([row.(status := Completed)], {}, calls + 1, None))
            case _ => (Some(PlanIsCompleted), p)
  {
    OneRow(row);
    hide NextReady, AnyEligible, BlockingStopReason;
    if row.status != Completed {
      var next := Dispatched(UNGATED, row, TOOLLESS(calls), {});
      assert [row][0 := next] == [next];
      assert After(UNGATED, TOOLLESS, Progress([row], {}, calls, None), 0) == Progress([next], {}, calls + 1, None);
    }
  }

  /** Its run from VALIDATED. */
  lemma OneRowLoops(row: Row)
    requires row.deps == [] && row.status == Validated && !row.approvalRequired
    ensures var p := Progress([row], {}, 0, None);
            var done := Progress([row.(status := Completed)], {}, 2, None);
            && Looped(UNGATED, TOOLLESS, p, 2) == Ended(LimitReached, 2, done)
            && Looped(UNGATED, TOOLLESS, p, 3) == Ended(PlanIsCompleted, 3, done)
  {
    hide Iterated;
    OneRowIterates(row, 0);
    OneRowIterates(row.(status := PermissionChecked), 1);
    OneRowIterates(row.(status := Completed), 2);
  }

  /** A plan of one such action takes two dispatches. With a limit of two the run is
      stopped by its limit although the plan is COMPLETED; with three it says so. */
  lemma LimitedRunMisreported(payload: H.Payload, retries: nat)
    ensures var rows := [Row(1, Validated, payload, [], false, 0, retries, false)];
            var p := Progress(rows, {}, 0, None);
            var two, three := Ran(UNGATED, TOOLLESS, p, 2), Ran(UNGATED, TOOLLESS, p, 3);
            && Tidy(UNGATED, rows, {}) && two.stop == LimitReached && three.stop == PlanIsCompleted
            && two.last == three.last && Recompute(two.last.rows) == PlanCompleted
  {
    var row := Row(1, Validated, payload, [], false, 0, retries, false);
    var done := [row.(status := Completed)];
    NobodyWaits(UNGATED, TOOLLESS, Progress([row], {}, 0, None), 1);
    hide Looped, CaughtUp;
    OneRowLoops(row);
    OneRowTidy(row);
    hide Tidy;
    DoneIsCompleted(done[0]);
    hide Recompute;
  }

  lemma OneRowTidy(row: Row)
    requires row.status == Validated
    ensures Tidy(UNGATED, [row], {})
  {
    hide UNGATED;
  }

  lemma {:induction false} NobodyWaits(gated: Gated, env: nat -> Env, p: Progress, k: nat)
    requires k <= |p.rows| && forall i | 0 <= i < |p.rows| :: p.rows[i].status != WaitingForApproval
    ensures CaughtUp(gated, env, p, k) == (p, false)
    decreases k
  {
    hide After, AsksReview;
    if k > 0 { NobodyWaits(gated, env, p, k - 1); }
  }

  lemma DoneIsCompleted(row: Row)
    requires row.status == Completed && !row.superseded
    ensures Recompute([row]) == PlanCompleted
  {
    assert !([row][0]).superseded;
    RecomputeMeans([row]);
    hide Recompute;
  }
}
