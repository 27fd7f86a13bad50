/** Which actions of a plan may be dispatched. */
module Eligibility {
  import opened Domain

  datatype Eligibility =
    | Ready
    | AlreadyCompleted
    | WaitingForDependencies
    | WaitingForApproval
    | BlockedByFailedDependency
    | BlockedByRejectedDependency
    | ReconciliationRequired
    | CurrentlyExecuting
    | TerminalFailed
    | ActionCancelled
    | SecurityBlocked

  /** The first dependency that is not COMPLETED decides. */
  function ScanDependencies<K>(deps: seq<K>, statuses: map<K, ActionStatus>): Eligibility {
    if deps == [] then Eligibility.Ready
    else if deps[0] !in statuses then ReconciliationRequired
    else match statuses[deps[0]]
         case Rejected => BlockedByRejectedDependency
         case Failed => BlockedByFailedDependency
         case Cancelled => BlockedByFailedDependency
         case Blocked => BlockedByFailedDependency
         case Completed => ScanDependencies(deps[1..], statuses)
         case _ => WaitingForDependencies
  }

  function Evaluate<K>(status: ActionStatus, deps: seq<K>, statuses: map<K, ActionStatus>): Eligibility {
    match status
    case Completed => AlreadyCompleted
    case Failed => TerminalFailed
    case Rejected => TerminalFailed
    case Cancelled => ActionCancelled
    case Blocked => SecurityBlocked
    case WaitingForApproval => Eligibility.WaitingForApproval
    case _ => if InProgress(status) then CurrentlyExecuting else ScanDependencies(deps, statuses)
  }

  predicate AllCompleted<K>(deps: seq<K>, statuses: map<K, ActionStatus>) {
    forall i | 0 <= i < |deps| :: deps[i] in statuses && statuses[deps[i]] == Completed
  }

  lemma {:induction false} ScanReadyIff<K>(deps: seq<K>, statuses: map<K, ActionStatus>)
    ensures ScanDependencies(deps, statuses) == Eligibility.Ready <==> AllCompleted(deps, statuses)
    ensures ScanDependencies(deps, statuses) in
              {Eligibility.Ready, ReconciliationRequired, BlockedByRejectedDependency, BlockedByFailedDependency,
               WaitingForDependencies}
    ensures ScanDependencies(deps, statuses) != ReconciliationRequired || exists i | 0 <= i < |deps| ::
              deps[i] !in statuses
  {
    if deps != [] {
      ScanReadyIff(deps[1..], statuses);
      assert AllCompleted(deps, statuses) ==> AllCompleted(deps[1..], statuses);
      assert forall i | 0 < i < |deps| :: deps[i] == deps[1..][i - 1];
    }
  }

  /** The first dependency that is not COMPLETED decides, whatever comes after it. */
  lemma {:induction false} FirstObstacleDecides<K>(deps: seq<K>, statuses: map<K, ActionStatus>, i: nat)
    requires i < |deps| && AllCompleted(deps[..i], statuses) && !(deps[i] in statuses && statuses[deps[i]] == Completed)
    ensures var e := ScanDependencies(deps, statuses);
            && (e == ReconciliationRequired <==> deps[i] !in statuses)
            && (deps[i] in statuses ==>
                  && (e == BlockedByRejectedDependency <==> statuses[deps[i]] == Rejected)
                  && (e == BlockedByFailedDependency <==> statuses[deps[i]] in {Failed, Cancelled, Blocked})
                  && (e == WaitingForDependencies <==> !Terminal(statuses[deps[i]])))
  {
    if i > 0 {
      assert deps[..i][0] == deps[0];
      assert deps[1..][..i - 1] == deps[..i][1..];
      FirstObstacleDecides(deps[1..], statuses, i - 1);
    }
  }

  /** READY means: not started, not terminal, not waiting for anybody, and every
      dependency durably COMPLETED. */
  lemma ReadyIff<K>(status: ActionStatus, deps: seq<K>, statuses: map<K, ActionStatus>)
    ensures Evaluate(status, deps, statuses) == Eligibility.Ready <==>
              status in {Planned, Validated, PermissionChecked, Approved, VerificationFailed}
                  && AllCompleted(deps, statuses)
    ensures Evaluate(status, deps, statuses) == Eligibility.WaitingForApproval <==>
              status == ActionStatus.WaitingForApproval
  {
    ScanReadyIff(deps, statuses);
  }
}
