/** Shared vocabulary of the decision-intelligence package: action and plan
    lifecycles with their transition tables, and the rank tables the durable
    writers compare statuses by. */
module Domain {

  datatype Option<+T> = None | Some(value: T)

  datatype Result<+T, +E> = Ok(value: T) | Err(error: E)

  datatype ActionStatus =
    | Planned
    | Validated
    | PermissionChecked
    | WaitingForApproval
    | Approved
    | Executing
    | ExecutionSucceeded
    | Verifying
    | Verified
    | VerificationFailed
    | Completed
    | Failed
    | Rejected
    | Cancelled
    | Blocked

  datatype PlanStatus =
    | Draft
    | Validating
    | Ready
    | PlanWaitingForApproval
    | PlanExecuting
    | PartiallyCompleted
    | PlanCompleted
    | PlanFailed
    | PlanCancelled

  datatype FailureCategory =
    | Transient
    | Validation
    | Permission
    | Approval
    | Tool
    | Verification
    | Budget
    | Security
    | Unknown

  /** The action state machine's table. */
  predicate CanTransition(current: ActionStatus, target: ActionStatus) {
    match current
    case Planned => target in {Validated, Rejected, Cancelled, Blocked, Failed}
    case Validated => target in {PermissionChecked, Rejected, Cancelled, Blocked, Failed}
    case PermissionChecked =>
      target in {WaitingForApproval, Executing, Rejected, Cancelled, Blocked, Failed}
    case WaitingForApproval => target in {Approved, Rejected, Cancelled}
    case Approved => target in {Executing, Cancelled}
    case Executing => target in {ExecutionSucceeded, Failed, Cancelled}
    case ExecutionSucceeded => target == Verifying
    case Verifying => target in {Verified, VerificationFailed}
    case Verified => target == Completed
    case VerificationFailed => target in {Failed, Blocked}
    case Blocked => target == Cancelled
    case _ => false
  }

  /** The plan state machine's table. */
  predicate CanPlanTransition(current: PlanStatus, target: PlanStatus) {
    match current
    case Draft => target in {Validating, PlanFailed, PlanCancelled}
    case Validating => target in {Ready, PlanFailed, PlanCancelled}
    case Ready => target in {PlanExecuting, PlanCancelled}
    case PlanExecuting =>
      target in {PlanWaitingForApproval, PartiallyCompleted, PlanCompleted, PlanFailed, PlanCancelled}
    case PlanWaitingForApproval =>
      target in {PlanExecuting, PartiallyCompleted, PlanFailed, PlanCancelled}
    case PartiallyCompleted =>
      target in {PlanExecuting, PlanWaitingForApproval, PlanCompleted, PlanFailed, PlanCancelled}
    case _ => false
  }

  /** Statuses a durable upsert never writes over. */
  predicate Terminal(status: ActionStatus) {
    status in {Failed, Rejected, Cancelled, Blocked, Completed}
  }

  /** Position on the happy path; -1 for every status that is not on it. */
  function HappyRank(status: ActionStatus): int {
    match status
    case Planned => 0
    case Validated => 1
    case PermissionChecked => 2
    case WaitingForApproval => 3
    case Approved => 4
    case Executing => 5
    case ExecutionSucceeded => 6
    case Verifying => 7
    case Verified => 8
    case _ => -1
  }

  const UPSERT_MAX_ATTEMPTS: nat := 5

  /** The monotonic-progress guard of a durable upsert: a row at `current` is not
      written over with `incoming`. */
  predicate Outranks(current: ActionStatus, incoming: ActionStatus) {
    Terminal(current) || (!Terminal(incoming) && HappyRank(current) > HappyRank(incoming))
  }

  /** The statuses an authorized retry may reset. */
  predicate RetrySource(status: ActionStatus) { status == Failed || status == Executing || status == Approved }

  predicate InProgress(status: ActionStatus) {
    status in {Executing, ExecutionSucceeded, Verifying, Verified}
  }

  /** A legal run of the action state machine. */
  ghost predicate LegalRun(run: seq<ActionStatus>) {
    forall i | 0 < i < |run| :: CanTransition(run[i - 1], run[i])
  }

  /** Nothing skips verification: a legal run that reaches COMPLETED after
      starting before EXECUTING has been through a gate (PERMISSION_CHECKED or
      APPROVED), then EXECUTING, EXECUTION_SUCCEEDED, VERIFYING and VERIFIED,
      back to back. */
  lemma CompletedRunWasGatedAndVerified(run: seq<ActionStatus>)
    requires LegalRun(run) && |run| > 0
    requires run[0] in {Planned, Validated} && run[|run| - 1] == Completed
    ensures |run| >= 7
    ensures run[|run| - 5..] == [Executing, ExecutionSucceeded, Verifying, Verified, Completed]
    ensures run[|run| - 6] in {PermissionChecked, Approved}
  {
    var n := |run|;
    assert run[n - 2] == Verified;
    assert run[n - 3] == Verifying;
    assert run[n - 4] == ExecutionSucceeded;
    assert run[n - 5] == Executing;
    assert run[n - 6] in {PermissionChecked, Approved};
    assert n >= 7;
  }

  /** The happy path, in order. */
  const HAPPY_PATH: seq<ActionStatus> :=
    [Planned, Validated, PermissionChecked, WaitingForApproval, Approved, Executing, ExecutionSucceeded, Verifying,
     Verified]

  lemma HappyPathRanks(status: ActionStatus, i: nat)
    ensures HappyRank(status) >= 0 ==> HappyRank(status) < |HAPPY_PATH| && HAPPY_PATH[HappyRank(status)] == status
    ensures status in HAPPY_PATH <==> HappyRank(status) >= 0
    ensures HappyRank(status) < 0 ==> HappyRank(status) == -1
    ensures i < |HAPPY_PATH| ==> HappyRank(HAPPY_PATH[i]) == i
  {
    assert i < |HAPPY_PATH| ==> i in {0, 1, 2, 3, 4, 5, 6, 7, 8};
  }

  /** Which stored status an upsert leaves alone: one that has ended, or one further along
      the happy path, or on it where the incoming one is not, unless that ends the
      action. */
  lemma OutranksMeans(current: ActionStatus, incoming: ActionStatus)
    ensures Outranks(current, incoming) <==>
              || current in {Completed, Failed, Rejected, Cancelled, Blocked}
              || (&& incoming !in {Completed, Failed, Rejected, Cancelled, Blocked}
                  && (|| (incoming == VerificationFailed && current in HAPPY_PATH)
                      || (exists i, j | 0 <= i < j < |HAPPY_PATH| ::
                            HAPPY_PATH[i] == incoming && HAPPY_PATH[j] == current)))
  {
    hide HappyRank, HAPPY_PATH;
    HappyPathRanks(current, 0);
    HappyPathRanks(incoming, 0);
    forall i | 0 <= i < |HAPPY_PATH| ensures HappyRank(HAPPY_PATH[i]) == i { HappyPathRanks(current, i); }
    OffThePath(current);
    OffThePath(incoming);
  }

  lemma OffThePath(status: ActionStatus)
    ensures HappyRank(status) < 0 <==> status in {VerificationFailed, Completed, Failed, Rejected, Cancelled, Blocked}
  {
  }
}
