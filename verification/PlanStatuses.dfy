/** What a plan's stored actions say about the plan as a whole: the recomputed status,
    the QA report, the executive summary, and the reason a run stops. */
module PlanStatuses {
  import opened Domain
  import E = Eligibility
  import G = Graph
  import H = PlanHash

  type Id = G.Id

  datatype Row = Row(
    id: Id, status: ActionStatus, payload: H.Payload, deps: seq<Id>, superseded: bool, retryCount: nat, maxRetries: nat,
    approvalRequired: bool)

  const TERMINAL_BAD: set<ActionStatus> := {Failed, Rejected, Cancelled, Blocked}

  // ------------------------------------------------------------- plan status

  /** `sum(1 for a in active if a.status == status)`. */
  function Count(rows: seq<Row>, status: ActionStatus): nat {
    if rows == [] then 0
    else Count(rows[..|rows| - 1], status)
         + (if !rows[|rows| - 1].superseded && rows[|rows| - 1].status == status then 1 else 0)
  }

  function CountActive(rows: seq<Row>): nat {
    if rows == [] then 0 else CountActive(rows[..|rows| - 1]) + (if rows[|rows| - 1].superseded then 0 else 1)
  }

  /** Some current action has one of these statuses. */
  predicate AnyCurrent(rows: seq<Row>, statuses: set<ActionStatus>) {
    exists i | 0 <= i < |rows| :: !rows[i].superseded && rows[i].status in statuses
  }

  function Recompute(rows: seq<Row>): PlanStatus {
    var total, completed := CountActive(rows), Count(rows, Completed);
    if total > 0 && completed == total then PlanCompleted
    else if AnyCurrent(rows, TERMINAL_BAD) then if completed > 0 then PartiallyCompleted else PlanFailed
    else if AnyCurrent(rows, {WaitingForApproval}) then PlanWaitingForApproval
    else PlanExecuting
  }

  /** There is current work and all of it is durably COMPLETED. */
  predicate AllDone(rows: seq<Row>) {
    && (exists i | 0 <= i < |rows| :: !rows[i].superseded)
    && (forall i | 0 <= i < |rows| && !rows[i].superseded :: rows[i].status == Completed)
  }

  lemma {:induction false} Counting(rows: seq<Row>)
    ensures Count(rows, Completed) <= CountActive(rows)
    ensures CountActive(rows) == 0 <==> forall i | 0 <= i < |rows| :: rows[i].superseded
    ensures Count(rows, Completed) == 0 <==> !AnyCurrent(rows, {Completed})
    ensures Count(rows, Completed) == CountActive(rows) <==>
              forall i | 0 <= i < |rows| && !rows[i].superseded :: rows[i].status == Completed
  {
    if rows != [] {
      var n := |rows| - 1;
      Counting(rows[..n]);
      assert forall i | 0 <= i < n :: rows[i] == rows[..n][i];
      if !rows[n].superseded && rows[n].status == Completed { assert AnyCurrent(rows, {Completed}); }
      if i :| 0 <= i < n && !rows[i].superseded && rows[i].status == Completed {
        assert rows[..n][i].status == Completed;
        assert AnyCurrent(rows[..n], {Completed});
      }
    }
  }

  /** No false completion, and no other status is given without its reason. */
  lemma RecomputeMeans(rows: seq<Row>)
    ensures Recompute(rows) == PlanCompleted <==> AllDone(rows)
    ensures Recompute(rows) == PlanFailed <==>
              AnyCurrent(rows, {Failed, Rejected, Cancelled, Blocked}) && !AnyCurrent(rows, {Completed})
    ensures Recompute(rows) == PartiallyCompleted <==>
              AnyCurrent(rows, {Failed, Rejected, Cancelled, Blocked}) && AnyCurrent(rows, {Completed})
    ensures Recompute(rows) == PlanWaitingForApproval <==>
              !AnyCurrent(rows, {Failed, Rejected, Cancelled, Blocked}) && AnyCurrent(rows, {WaitingForApproval})
    ensures Recompute(rows) in
              {PlanCompleted, PlanFailed, PartiallyCompleted, PlanWaitingForApproval, PlanExecuting}
  {
    Counting(rows);
    if AnyCurrent(rows, TERMINAL_BAD) {
      var i :| 0 <= i < |rows| && !rows[i].superseded && rows[i].status in TERMINAL_BAD;
      assert rows[i].status != Completed;
    }
    if AnyCurrent(rows, {WaitingForApproval}) {
      var i :| 0 <= i < |rows| && !rows[i].superseded && rows[i].status in {WaitingForApproval};
      assert rows[i].status != Completed;
    }
  }

  predicate Orchestratable(status: PlanStatus) {
    status == Ready || status == PlanExecuting || status == PlanWaitingForApproval || status == PartiallyCompleted
  }

  /** Re-entering through EXECUTING makes every recomputed status reachable. */
  lemma HubIsLegal(status: PlanStatus, rows: seq<Row>)
    requires Orchestratable(status)
    ensures status == PlanExecuting || CanPlanTransition(status, PlanExecuting)
    ensures Recompute(rows) == PlanExecuting || CanPlanTransition(PlanExecuting, Recompute(rows))
  {
  }

  // ---------------------------------------------------------------------- QA

  datatype QaStatus =
    | QaCompleted
    | QaWaitingForApproval
    | QaBlockedByDependency
    | QaFailed
    | QaSuperseded
    | QaNotExecuted
    | QaHumanReview

  function StatusMap(rows: seq<Row>): map<Id, ActionStatus> {
    if rows == [] then map[] else StatusMap(rows[..|rows| - 1])[rows[|rows| - 1].id := rows[|rows| - 1].status]
  }

  function EligibilityOf(rows: seq<Row>, row: Row): E.Eligibility {
    E.Evaluate(row.status, row.deps, StatusMap(rows))
  }

  function Classify(rows: seq<Row>, row: Row): QaStatus {
    if row.superseded then QaSuperseded
    else match row.status
         case Completed => QaCompleted
         case WaitingForApproval => QaWaitingForApproval
         case Failed => QaFailed
         case Rejected => QaFailed
         case Cancelled => QaHumanReview
         case Blocked => QaHumanReview
         case _ =>
           match EligibilityOf(rows, row)
           case WaitingForDependencies => QaBlockedByDependency
           case BlockedByFailedDependency => QaBlockedByDependency
           case BlockedByRejectedDependency => QaBlockedByDependency
           case ReconciliationRequired => QaHumanReview
           case _ => QaNotExecuted
  }

  lemma ClassifyTruthful(rows: seq<Row>)
    ensures forall i | 0 <= i < |rows| :: Classify(rows, rows[i]) == QaSuperseded <==> rows[i].superseded
    ensures forall i | 0 <= i < |rows| :: Classify(rows, rows[i]) == QaCompleted <==>
              !rows[i].superseded && rows[i].status == Completed
    ensures forall i | 0 <= i < |rows| :: Classify(rows, rows[i]) == QaWaitingForApproval <==>
              !rows[i].superseded && rows[i].status == WaitingForApproval
    ensures forall i | 0 <= i < |rows| :: Classify(rows, rows[i]) == QaFailed <==>
              !rows[i].superseded && (rows[i].status == Failed || rows[i].status == Rejected)
  {
    hide EligibilityOf;
  }

  datatype QaReport = QaReport(entries: seq<QaStatus>, fullyCompleted: bool)

  /** The report calls a plan fully completed exactly when its status is recomputed
      to COMPLETED, and calls an action COMPLETED exactly when its row is, and is
      current. */
  method BuildQaReport(rows: seq<Row>) returns (report: QaReport)
    ensures |report.entries| == |rows|
    ensures forall i | 0 <= i < |rows| :: report.entries[i] == Classify(rows, rows[i])
    ensures forall i | 0 <= i < |rows| :: report.entries[i] == QaCompleted <==>
              rows[i].status == Completed && !rows[i].superseded
    ensures report.fullyCompleted <==> Recompute(rows) == PlanCompleted
  {
    hide Classify, AllDone, Recompute;
    ClassifyTruthful(rows);
    var entries: seq<QaStatus> := [];
    for i := 0 to |rows|
      invariant |entries| == i
      invariant forall j | 0 <= j < i :: entries[j] == Classify(rows, rows[j])
    {
      entries := entries + [Classify(rows, rows[i])];
    }
    var full := FullyCompleted(entries);
    QaMeans(rows, entries);
    return QaReport(entries, full);
  }

  /** `bool(active) and all(completed for active)`. */
  method FullyCompleted(entries: seq<QaStatus>) returns (full: bool)
    ensures full <==> && (exists j | 0 <= j < |entries| :: entries[j] != QaSuperseded)
                      && (forall j | 0 <= j < |entries| && entries[j] != QaSuperseded :: entries[j] == QaCompleted)
  {
    var anyActive, allCompleted := false, true;
    for i := 0 to |entries|
      invariant anyActive <==> exists j | 0 <= j < i :: entries[j] != QaSuperseded
      invariant allCompleted <==> forall j | 0 <= j < i && entries[j] != QaSuperseded :: entries[j] == QaCompleted
    {
      if entries[i] != QaSuperseded {
        anyActive := true;
        if entries[i] != QaCompleted { allCompleted := false; }
      }
    }
    return anyActive && allCompleted;
  }

  lemma QaMeans(rows: seq<Row>, entries: seq<QaStatus>)
    requires |entries| == |rows| && forall i | 0 <= i < |rows| :: entries[i] == Classify(rows, rows[i])
    ensures Recompute(rows) == PlanCompleted <==>
              && (exists j | 0 <= j < |entries| :: entries[j] != QaSuperseded)
              && (forall j | 0 <= j < |entries| && entries[j] != QaSuperseded :: entries[j] == QaCompleted)
  {
    RecomputeMeans(rows);
    ClassifyTruthful(rows);
    hide Classify, Recompute;
    if AllDone(rows) {
      var i :| 0 <= i < |rows| && !rows[i].superseded;
      assert entries[i] != QaSuperseded;
    }
    if j :| 0 <= j < |entries| && entries[j] != QaSuperseded {
      assert !rows[j].superseded;
    }
  }

  datatype OverallStatus = OverallCompleted | CompletedWithReview | OverallFailed | OverallBlocked

  predicate AnyOf(entries: seq<QaStatus>, wanted: set<QaStatus>) {
    exists i | 0 <= i < |entries| :: entries[i] in wanted
  }

  function Overall(report: QaReport): OverallStatus {
    var anyCompleted := AnyOf(report.entries, {QaCompleted});
    var anyPending := AnyOf(report.entries, {QaWaitingForApproval, QaBlockedByDependency, QaHumanReview});
    var anyFailed := AnyOf(report.entries, {QaFailed});
    if report.fullyCompleted then OverallCompleted
    else if anyCompleted && anyPending && !anyFailed then CompletedWithReview
    else if anyFailed && anyCompleted then CompletedWithReview
    else if anyFailed then OverallFailed
    else OverallBlocked
  }

  /** The three views agree on completion; FAILED means something current failed or was
      rejected and nothing is COMPLETED; with something COMPLETED and something
      failed or pending the plan is only completed with review. */
  method ReportOverall(rows: seq<Row>) returns (overall: OverallStatus)
    ensures overall == OverallCompleted <==> Recompute(rows) == PlanCompleted
    ensures overall == OverallFailed <==>
              AnyCurrent(rows, {Failed, Rejected}) && !AnyCurrent(rows, {Completed})
    ensures overall == CompletedWithReview <==>
              && Recompute(rows) != PlanCompleted && AnyCurrent(rows, {Completed})
              && (AnyCurrent(rows, {Failed, Rejected}) || exists i | 0 <= i < |rows| ::
                  Classify(rows, rows[i]) in {QaWaitingForApproval, QaBlockedByDependency, QaHumanReview})
  {
    hide Classify, Recompute, AnyOf, AnyCurrent, AllDone;
    var report := BuildQaReport(rows);
    overall := Overall(report);
    CompletedEntries(rows, report.entries);
    FailedEntries(rows, report.entries);
    PendingEntries(rows, report.entries);
    RefusedIsNotDone(rows);
  }

  lemma RefusedIsNotDone(rows: seq<Row>)
    ensures AnyCurrent(rows, {Failed, Rejected}) ==> Recompute(rows) != PlanCompleted
  {
    RecomputeMeans(rows);
    hide Recompute;
    if AnyCurrent(rows, {Failed, Rejected}) {
      var i :| 0 <= i < |rows| && !rows[i].superseded && rows[i].status in {Failed, Rejected};
      assert rows[i].status != Completed;
    }
  }

  lemma CompletedEntries(rows: seq<Row>, entries: seq<QaStatus>)
    requires |entries| == |rows| && forall i | 0 <= i < |rows| :: entries[i] == Classify(rows, rows[i])
    ensures AnyOf(entries, {QaCompleted}) <==> AnyCurrent(rows, {Completed})
  {
    ClassifyTruthful(rows);
    hide Classify;
    if AnyOf(entries, {QaCompleted}) {
      var i :| 0 <= i < |entries| && entries[i] in {QaCompleted};
      assert !rows[i].superseded && rows[i].status == Completed;
    }
    if AnyCurrent(rows, {Completed}) {
      var i :| 0 <= i < |rows| && !rows[i].superseded && rows[i].status == Completed;
      assert entries[i] in {QaCompleted};
    }
  }

  lemma FailedEntries(rows: seq<Row>, entries: seq<QaStatus>)
    requires |entries| == |rows| && forall i | 0 <= i < |rows| :: entries[i] == Classify(rows, rows[i])
    ensures AnyOf(entries, {QaFailed}) <==> AnyCurrent(rows, {Failed, Rejected})
  {
    ClassifyTruthful(rows);
    hide Classify;
    if AnyOf(entries, {QaFailed}) {
      var i :| 0 <= i < |entries| && entries[i] in {QaFailed};
      assert !rows[i].superseded && rows[i].status in {Failed, Rejected};
    }
    if AnyCurrent(rows, {Failed, Rejected}) {
      var i :| 0 <= i < |rows| && !rows[i].superseded && rows[i].status in {Failed, Rejected};
      assert entries[i] in {QaFailed};
    }
  }

  lemma PendingEntries(rows: seq<Row>, entries: seq<QaStatus>)
    requires |entries| == |rows| && forall i | 0 <= i < |rows| :: entries[i] == Classify(rows, rows[i])
    ensures AnyOf(entries, {QaWaitingForApproval, QaBlockedByDependency, QaHumanReview}) <==>
              exists i | 0 <= i < |rows| ::
                Classify(rows, rows[i]) in {QaWaitingForApproval, QaBlockedByDependency, QaHumanReview}
  {
    hide Classify;
  }

  // ------------------------------------------------------------- stop reasons

  datatype StopReason =
    | PlanIsCompleted
    | StoppedForApproval
    | DependencyBlocked
    | ActionFailed
    | StoppedForSecurity
    | ReconciliationNeeded
    | HumanReviewRequired
    | LimitReached
    | NoProgress
    | StoppedAsCancelled
    | StoppedByBudget
    | ReplanRequired

  predicate AnyEligible(rows: seq<Row>, wanted: E.Eligibility) {
    exists i | 0 <= i < |rows| :: EligibilityOf(rows, rows[i]) == wanted
  }

  /** Why nothing is READY. All actions count here, superseded ones too. */
  function BlockingStopReason(rows: seq<Row>): StopReason {
    if AnyEligible(rows, E.Eligibility.WaitingForApproval) then StoppedForApproval
    else if AnyEligible(rows, E.SecurityBlocked) then StoppedForSecurity
    else if AnyEligible(rows, E.TerminalFailed) || AnyEligible(rows, E.BlockedByFailedDependency)
        || AnyEligible(rows, E.BlockedByRejectedDependency)
    then ActionFailed
    else if AnyEligible(rows, E.WaitingForDependencies) then DependencyBlocked
    else if AnyEligible(rows, E.CurrentlyExecuting) then NoProgress
    else PlanIsCompleted
  }

  lemma EligibilityTruthful(rows: seq<Row>, row: Row)
    ensures EligibilityOf(rows, row) == E.AlreadyCompleted <==> row.status == Completed
    ensures EligibilityOf(rows, row) == E.ActionCancelled <==> row.status == Cancelled
  {
    E.ScanReadyIff(row.deps, StatusMap(rows));
  }

  predicate DistinctIds(rows: seq<Row>) { forall i, j | 0 <= i < j < |rows| :: rows[i].id != rows[j].id }

  predicate NotStarted(status: ActionStatus) {
    status in {Planned, Validated, PermissionChecked, Approved, VerificationFailed}
  }

  /** Some row with this id has this status. */
  ghost predicate Stands(rows: seq<Row>, id: Id, status: ActionStatus) {
    exists k | 0 <= k < |rows| :: rows[k].id == id && rows[k].status == status
  }

  /** The first dependency of the `i`-th row that is not COMPLETED, if its status is one
      of these. */
  ghost predicate HeldUp(rows: seq<Row>, i: nat, statuses: set<ActionStatus>)
    requires i < |rows|
  {
    exists j, status | 0 <= j < |rows[i].deps| ::
      && Stands(rows, rows[i].deps[j], status) && status != Completed && status in statuses
      && forall h | 0 <= h < j :: Stands(rows, rows[i].deps[h], Completed)
  }

  /** The first dependency of the `i`-th row that is not COMPLETED is no action of the
      plan. */
  ghost predicate Dangling(rows: seq<Row>, i: nat)
    requires i < |rows|
  {
    exists j | 0 <= j < |rows[i].deps| ::
      && (forall k | 0 <= k < |rows| :: rows[k].id != rows[i].deps[j])
      && forall h | 0 <= h < j :: Stands(rows, rows[i].deps[h], Completed)
  }

  const ENDED_BADLY: set<ActionStatus> := {Failed, Rejected, Cancelled, Blocked}

  const OPEN: set<ActionStatus> := {Planned, Validated, PermissionChecked, WaitingForApproval, Approved, Executing,
                                    ExecutionSucceeded, Verifying, Verified, VerificationFailed}

  lemma {:induction false} StatusMapStands(rows: seq<Row>, id: Id)
    requires DistinctIds(rows)
    ensures id in StatusMap(rows) <==> exists status :: Stands(rows, id, status)
    ensures id in StatusMap(rows) ==>
              Stands(rows, id, StatusMap(rows)[id]) && forall status | Stands(rows, id, status) ::
                status == StatusMap(rows)[id]
  {
    if rows != [] {
      var n := |rows| - 1;
      var front := rows[..n];
      StatusMapStands(front, id);
      forall status ensures Stands(rows, id, status) <==>
          (rows[n].id == id && rows[n].status == status) || Stands(front, id, status)
      {
        if k :| 0 <= k < n && rows[k].id == id && rows[k].status == status { assert front[k].id == id; }
        if k :| 0 <= k < n && front[k].id == id && front[k].status == status { assert rows[k].id == id; }
      }
      if rows[n].id == id {
        assert Stands(rows, id, rows[n].status);
        assert forall k | 0 <= k < n :: front[k].id != id;
      }
    }
  }

  lemma {:induction false} FirstNotCompleted(deps: seq<Id>, statuses: map<Id, ActionStatus>) returns (j: nat)
    requires !E.AllCompleted(deps, statuses)
    ensures j < |deps| && !(deps[j] in statuses && statuses[deps[j]] == Completed)
    ensures E.AllCompleted(deps[..j], statuses)
  {
    j := 0;
    while deps[j] in statuses && statuses[deps[j]] == Completed
      invariant j < |deps| && forall h | 0 <= h < j :: deps[h] in statuses && statuses[deps[h]] == Completed
      decreases |deps| - j
    {
      if j + 1 == |deps| { assert E.AllCompleted(deps, statuses); }
      j := j + 1;
    }
  }

  /** What the scan makes of an obstacle. */
  lemma ObstacleScans(rows: seq<Row>, i: nat, j: nat, status: ActionStatus)
    requires DistinctIds(rows) && i < |rows| && j < |rows[i].deps|
    requires Stands(rows, rows[i].deps[j], status) && status != Completed
    requires forall h | 0 <= h < j :: Stands(rows, rows[i].deps[h], Completed)
    ensures var e := E.ScanDependencies(rows[i].deps, StatusMap(rows));
            && (status in ENDED_BADLY ==> e in {E.BlockedByFailedDependency, E.BlockedByRejectedDependency})
            && (status in OPEN ==> e == E.WaitingForDependencies)
  {
    var deps, statuses := rows[i].deps, StatusMap(rows);
    hide StatusMap, Stands, DistinctIds;
    StatusMapStands(rows, deps[j]);
    forall h | 0 <= h < j ensures deps[h] in statuses && statuses[deps[h]] == Completed {
      StatusMapStands(rows, deps[h]);
    }
    assert E.AllCompleted(deps[..j], statuses);
    E.FirstObstacleDecides(deps, statuses, j);
  }

  /** What the scan found when it was not content. */
  lemma ScanFound(rows: seq<Row>, i: nat) returns (j: nat, status: ActionStatus)
    requires DistinctIds(rows) && i < |rows|
    requires E.ScanDependencies(rows[i].deps, StatusMap(rows)) !in {E.Eligibility.Ready, E.ReconciliationRequired}
    ensures j < |rows[i].deps| && Stands(rows, rows[i].deps[j], status) && status != Completed
    ensures forall h | 0 <= h < j :: Stands(rows, rows[i].deps[h], Completed)
  {
    var deps, statuses := rows[i].deps, StatusMap(rows);
    E.ScanReadyIff(deps, statuses);
    hide StatusMap, Stands, DistinctIds;
    j := FirstNotCompleted(deps, statuses);
    E.FirstObstacleDecides(deps, statuses, j);
    status := statuses[deps[j]];
    StatusMapStands(rows, deps[j]);
    forall h | 0 <= h < j ensures Stands(rows, deps[h], Completed) {
      assert deps[..j][h] == deps[h];
      StatusMapStands(rows, deps[h]);
    }
  }

  /** A dependency outside the plan. */
  lemma DanglingScans(rows: seq<Row>, i: nat)
    requires DistinctIds(rows) && i < |rows|
    ensures E.ScanDependencies(rows[i].deps, StatusMap(rows)) == E.ReconciliationRequired <==> Dangling(rows, i)
  {
    var deps, statuses := rows[i].deps, StatusMap(rows);
    E.ScanReadyIff(deps, statuses);
    forall id ensures id in statuses <==> exists k | 0 <= k < |rows| :: rows[k].id == id {
      StatusMapStands(rows, id);
      if k :| 0 <= k < |rows| && rows[k].id == id { assert Stands(rows, id, rows[k].status); }
    }
    hide StatusMap, DistinctIds, E.ScanDependencies;
    if j: nat :| j < |deps| && (forall k | 0 <= k < |rows| :: rows[k].id != deps[j])
                 && forall h | 0 <= h < j :: Stands(rows, deps[h], Completed) {
      forall h | 0 <= h < j ensures deps[h] in statuses && statuses[deps[h]] == Completed {
        StatusMapStands(rows, deps[h]);
      }
      E.FirstObstacleDecides(deps, statuses, j);
    }
    if E.ScanDependencies(deps, statuses) == E.ReconciliationRequired { DanglingFound(rows, i); }
  }

  lemma RowInMap(rows: seq<Row>, k: nat)
    requires DistinctIds(rows) && k < |rows|
    ensures rows[k].id in StatusMap(rows)
  {
    StatusMapStands(rows, rows[k].id);
    assert Stands(rows, rows[k].id, rows[k].status);
  }

  lemma DanglingFound(rows: seq<Row>, i: nat)
    requires DistinctIds(rows) && i < |rows|
    requires E.ScanDependencies(rows[i].deps, StatusMap(rows)) == E.ReconciliationRequired
    ensures Dangling(rows, i)
  {
    var deps, statuses := rows[i].deps, StatusMap(rows);
    E.ScanReadyIff(deps, statuses);
    hide StatusMap, DistinctIds;
    var j := FirstNotCompleted(deps, statuses);
    E.FirstObstacleDecides(deps, statuses, j);
    forall h | 0 <= h < j ensures Stands(rows, deps[h], Completed) {
      assert deps[..j][h] == deps[h];
      StatusMapStands(rows, deps[h]);
    }
    forall k | 0 <= k < |rows| ensures rows[k].id != deps[j] { RowInMap(rows, k); }
  }

  /** What holds an action up, read off the rows. */
  lemma ObstacleByRows(rows: seq<Row>, i: nat)
    requires DistinctIds(rows) && i < |rows|
    ensures var e := E.ScanDependencies(rows[i].deps, StatusMap(rows));
            && (e in {E.BlockedByFailedDependency, E.BlockedByRejectedDependency} <==> HeldUp(rows, i, ENDED_BADLY))
            && (e == E.WaitingForDependencies <==> HeldUp(rows, i, OPEN))
  {
    hide StatusMap, Stands, DistinctIds, E.ScanDependencies;
    var deps := rows[i].deps;
    var e := E.ScanDependencies(deps, StatusMap(rows));
    E.ScanReadyIff(deps, StatusMap(rows));
    if e !in {E.Eligibility.Ready, E.ReconciliationRequired} {
      var j, status := ScanFound(rows, i);
      assert status in ENDED_BADLY || status in OPEN;
      ObstacleScans(rows, i, j, status);
    }
    HeldUpScans(rows, i);
  }

  lemma HeldUpScans(rows: seq<Row>, i: nat)
    requires DistinctIds(rows) && i < |rows|
    ensures var e := E.ScanDependencies(rows[i].deps, StatusMap(rows));
            && (HeldUp(rows, i, ENDED_BADLY) ==> e in {E.BlockedByFailedDependency, E.BlockedByRejectedDependency})
            && (HeldUp(rows, i, OPEN) ==> e == E.WaitingForDependencies)
  {
    hide StatusMap, Stands, DistinctIds, E.ScanDependencies;
    var deps := rows[i].deps;
    if j: nat, status :| j < |deps| && Stands(rows, deps[j], status) && status != Completed && status in ENDED_BADLY
                         && forall h | 0 <= h < j :: Stands(rows, deps[h], Completed) {
      ObstacleScans(rows, i, j, status);
    }
    if j: nat, status :| j < |deps| && Stands(rows, deps[j], status) && status != Completed && status in OPEN
                         && forall h | 0 <= h < j :: Stands(rows, deps[h], Completed) {
      ObstacleScans(rows, i, j, status);
    }
  }

  predicate AnyStatus(rows: seq<Row>, statuses: set<ActionStatus>) {
    exists i | 0 <= i < |rows| :: rows[i].status in statuses
  }

  /** Some action that has not started is held up so. */
  ghost predicate AnyHeldUp(rows: seq<Row>, statuses: set<ActionStatus>) {
    exists i | 0 <= i < |rows| :: NotStarted(rows[i].status) && HeldUp(rows, i, statuses)
  }

  /** Some action that has not started depends on something outside the plan. */
  ghost predicate AnyDangling(rows: seq<Row>) {
    exists i | 0 <= i < |rows| :: NotStarted(rows[i].status) && Dangling(rows, i)
  }

  lemma DanglingByRows(rows: seq<Row>)
    requires DistinctIds(rows)
    ensures AnyEligible(rows, E.ReconciliationRequired) <==> AnyDangling(rows)
  {
    hide EligibilityOf, Dangling, DistinctIds, NotStarted, E.ScanDependencies, StatusMap;
    forall i | 0 <= i < |rows|
      ensures EligibilityOf(rows, rows[i]) == E.ReconciliationRequired <==>
                NotStarted(rows[i].status) && Dangling(rows, i)
    {
      DanglingScans(rows, i);
      EligibilityByStatus(rows, rows[i]);
    }
  }

  /** Why a plan in which nothing is READY stops, read off its rows. */
  ghost predicate BlockedBy(rows: seq<Row>, reason: StopReason) {
    var waiting, barred := AnyStatus(rows, {WaitingForApproval}), AnyStatus(rows, {Blocked});
    var failed := AnyStatus(rows, {Failed, Rejected}) || AnyHeldUp(rows, ENDED_BADLY);
    var pending := AnyHeldUp(rows, OPEN);
    match reason
    case StoppedForApproval => waiting
    case StoppedForSecurity => !waiting && barred
    case ActionFailed => !waiting && !barred && failed
    case DependencyBlocked => !waiting && !barred && !failed && pending
    case NoProgress =>
      !waiting && !barred && !failed && !pending
          && AnyStatus(rows, {Executing, ExecutionSucceeded, Verifying, Verified})
    case PlanIsCompleted => AllClosed(rows)
    case _ => false
  }

  /** The eligibilities that stop a plan, by status. */
  lemma EligibilityByStatus(rows: seq<Row>, row: Row)
    ensures var e, status := EligibilityOf(rows, row), row.status;
            && (e == E.Eligibility.WaitingForApproval <==> status == WaitingForApproval)
            && (e == E.SecurityBlocked <==> status == Blocked)
            && (e in {E.AlreadyCompleted, E.ActionCancelled} <==> status in {Completed, Cancelled})
            && (e == E.TerminalFailed <==> status in {Failed, Rejected})
            && (e == E.CurrentlyExecuting <==> status in {Executing, ExecutionSucceeded, Verifying, Verified})
            && (NotStarted(status) ==> e == E.ScanDependencies(row.deps, StatusMap(rows)))
            && (e == E.ReconciliationRequired ==> NotStarted(status))
  {
    E.ScanReadyIff(row.deps, StatusMap(rows));
    hide E.ScanDependencies, StatusMap;
  }

  /** And by dependencies. */
  lemma EligibilityByRows(rows: seq<Row>, i: nat)
    requires DistinctIds(rows) && i < |rows|
    ensures var e := EligibilityOf(rows, rows[i]);
            && (e in {E.BlockedByFailedDependency, E.BlockedByRejectedDependency} <==>
                NotStarted(rows[i].status) && HeldUp(rows, i, ENDED_BADLY))
            && (e == E.WaitingForDependencies <==> NotStarted(rows[i].status) && HeldUp(rows, i, OPEN))
  {
    hide EligibilityOf, HeldUp, DistinctIds, E.ScanDependencies, StatusMap;
    ObstacleByRows(rows, i);
    EligibilityByStatus(rows, rows[i]);
  }

  lemma AnyByStatus(rows: seq<Row>)
    ensures AnyEligible(rows, E.Eligibility.WaitingForApproval) <==> AnyStatus(rows, {WaitingForApproval})
    ensures AnyEligible(rows, E.SecurityBlocked) <==> AnyStatus(rows, {Blocked})
    ensures AnyEligible(rows, E.TerminalFailed) <==> AnyStatus(rows, {Failed, Rejected})
    ensures AnyEligible(rows, E.CurrentlyExecuting) <==>
              AnyStatus(rows, {Executing, ExecutionSucceeded, Verifying, Verified})
  {
    hide EligibilityOf, NotStarted;
    forall i | 0 <= i < |rows|
      ensures EligibilityOf(rows, rows[i]) == E.Eligibility.WaitingForApproval <==> rows[i].status == WaitingForApproval
      ensures EligibilityOf(rows, rows[i]) == E.SecurityBlocked <==> rows[i].status == Blocked
      ensures EligibilityOf(rows, rows[i]) == E.TerminalFailed <==> rows[i].status in {Failed, Rejected}
      ensures EligibilityOf(rows, rows[i]) == E.CurrentlyExecuting <==>
                rows[i].status in {Executing, ExecutionSucceeded, Verifying, Verified}
    {
      EligibilityByStatus(rows, rows[i]);
    }
  }

  lemma AnyByDependencies(rows: seq<Row>)
    requires DistinctIds(rows)
    ensures AnyEligible(rows, E.BlockedByFailedDependency) || AnyEligible(rows, E.BlockedByRejectedDependency) <==>
              AnyHeldUp(rows, ENDED_BADLY)
    ensures AnyEligible(rows, E.WaitingForDependencies) <==> AnyHeldUp(rows, OPEN)
  {
    hide EligibilityOf, HeldUp, DistinctIds, NotStarted, ENDED_BADLY, OPEN;
    forall i | 0 <= i < |rows|
      ensures EligibilityOf(rows, rows[i]) in {E.BlockedByFailedDependency, E.BlockedByRejectedDependency} <==>
                NotStarted(rows[i].status) && HeldUp(rows, i, ENDED_BADLY)
      ensures EligibilityOf(rows, rows[i]) == E.WaitingForDependencies <==>
                NotStarted(rows[i].status) && HeldUp(rows, i, OPEN)
    {
      EligibilityByRows(rows, i);
    }
  }

  lemma ClosedIsCompleted(rows: seq<Row>)
    requires !AnyEligible(rows, E.Eligibility.Ready) && !AnyEligible(rows, E.ReconciliationRequired)
    ensures BlockingStopReason(rows) == PlanIsCompleted <==> AllClosed(rows)
  {
    StopCompletedIff(rows);
    hide BlockingStopReason, AnyEligible;
  }

  /** What the QA report says of an action, read off the rows: a current action that has
      ended, was refused or waits by its status, one that has not started by what holds it
      up, and one held up by something outside the plan as for a human to look at. */
  lemma ClassifyByRows(rows: seq<Row>, i: nat)
    requires DistinctIds(rows) && i < |rows|
    ensures var (qa, status, current) := (Classify(rows, rows[i]), rows[i].status, !rows[i].superseded);
            && (qa == QaSuperseded <==> !current)
            && (qa == QaCompleted <==> current && status == Completed)
            && (qa == QaWaitingForApproval <==> current && status == WaitingForApproval)
            && (qa == QaFailed <==> current && status in {Failed, Rejected})
            && (qa == QaBlockedByDependency <==>
                  current && NotStarted(status) && (HeldUp(rows, i, ENDED_BADLY) || HeldUp(rows, i, OPEN)))
            && (qa == QaHumanReview <==>
                  current && (status in {Cancelled, Blocked} || (NotStarted(status) && Dangling(rows, i))))
  {
    hide StatusMap, HeldUp, Dangling, DistinctIds, E.ScanDependencies;
    ClassifyTruthful(rows);
    EligibilityByStatus(rows, rows[i]);
    EligibilityByRows(rows, i);
    DanglingScans(rows, i);
    E.ScanReadyIff(rows[i].deps, StatusMap(rows));
    hide EligibilityOf;
  }

  /** Each stop reason by exactly its cause, where nothing is READY. */
  lemma StopReasonByCause(rows: seq<Row>, reason: StopReason)
    requires DistinctIds(rows)
    requires !AnyEligible(rows, E.Eligibility.Ready) && !AnyEligible(rows, E.ReconciliationRequired)
    ensures BlockingStopReason(rows) == reason <==> BlockedBy(rows, reason)
  {
    AnyByStatus(rows);
    AnyByDependencies(rows);
    ClosedIsCompleted(rows);
    hide AnyEligible, AnyStatus, AnyHeldUp, DistinctIds, AllClosed, ENDED_BADLY, OPEN;
  }

  /** The stop reason PLAN_COMPLETED means something else than the status COMPLETED:
      every action, superseded or not, is COMPLETED or CANCELLED. */
  lemma StopCompletedIff(rows: seq<Row>)
    requires !AnyEligible(rows, E.Eligibility.Ready) && !AnyEligible(rows, E.ReconciliationRequired)
    ensures BlockingStopReason(rows) == PlanIsCompleted <==>
              forall i | 0 <= i < |rows| :: rows[i].status == Completed || rows[i].status == Cancelled
  {
    forall i | 0 <= i < |rows|
      ensures EligibilityOf(rows, rows[i]) in {E.AlreadyCompleted, E.ActionCancelled} <==>
                rows[i].status == Completed || rows[i].status == Cancelled
    {
      EligibilityTruthful(rows, rows[i]);
    }
    hide EligibilityOf;
    if BlockingStopReason(rows) == PlanIsCompleted {
      forall i | 0 <= i < |rows| ensures rows[i].status == Completed || rows[i].status == Cancelled {
        var e := EligibilityOf(rows, rows[i]);
        assert AnyEligible(rows, e);
      }
    }
    if forall i | 0 <= i < |rows| :: rows[i].status == Completed || rows[i].status == Cancelled {
      forall e | AnyEligible(rows, e) ensures e in {E.AlreadyCompleted, E.ActionCancelled} {
        var i :| 0 <= i < |rows| && EligibilityOf(rows, rows[i]) == e;
      }
    }
  }

  /** A plan whose failed actions were all successfully replaced is COMPLETED, yet its
      run stops with ACTION_FAILED, on account of the superseded actions. */
  lemma ReplannedStopsAsFailed(rows: seq<Row>, k: nat)
    requires AllDone(rows) && k < |rows| && rows[k].status == Failed
    requires forall i | 0 <= i < |rows| :: rows[i].status == Completed || rows[i].status == Failed
    ensures Recompute(rows) == PlanCompleted && BlockingStopReason(rows) == ActionFailed
  {
    RecomputeMeans(rows);
    hide StatusMap, Recompute;
    forall i | 0 <= i < |rows|
      ensures EligibilityOf(rows, rows[i]) ==
              if rows[i].status == Failed then E.TerminalFailed else E.AlreadyCompleted {}
    hide EligibilityOf;
    assert AnyEligible(rows, E.TerminalFailed);
  }

  lemma ReplannedPlanMisreported(payload: H.Payload)
    ensures var rows := [Row(1, Failed, payload, [], true, 0, 0, false),
                         Row(2, Completed, payload, [], false, 0, 0, false)];
            Recompute(rows) == PlanCompleted && BlockingStopReason(rows) == ActionFailed
  {
    var rows := [Row(1, Failed, payload, [], true, 0, 0, false), Row(2, Completed, payload, [], false, 0, 0, false)];
    hide Recompute, BlockingStopReason;
    assert AllDone(rows) by { assert !rows[1].superseded; }
    ReplannedStopsAsFailed(rows, 0);
  }

  /** The other way round: a plan whose only action was cancelled, as an expired
      approval does, has FAILED, yet its run stops with PLAN_COMPLETED. */
  lemma CancelledPlanMisreported(payload: H.Payload)
    ensures var rows := [Row(1, Cancelled, payload, [], false, 0, 0, false)];
            Recompute(rows) == PlanFailed && BlockingStopReason(rows) == PlanIsCompleted
  {
    var rows := [Row(1, Cancelled, payload, [], false, 0, 0, false)];
    assert Count(rows[..0], Completed) == 0 && CountActive(rows[..0]) == 0;
    assert rows[0].status in TERMINAL_BAD && !rows[0].superseded;
    assert Recompute(rows) == PlanFailed;
    forall i | 0 <= i < |rows| ensures EligibilityOf(rows, rows[i]) == E.ActionCancelled { hide StatusMap; }
    hide EligibilityOf, Recompute;
    assert BlockingStopReason(rows) == PlanIsCompleted;
  }

  /** Every action, superseded or not, is COMPLETED or CANCELLED. */
  predicate AllClosed(rows: seq<Row>) {
    forall i | 0 <= i < |rows| :: rows[i].status == Completed || rows[i].status == Cancelled
  }

  /** Exactly when the reason that nothing is READY and the stored status agree on
      completion, and exactly how they disagree: everything is closed while a current action is CANCELLED or none
      is current; or every current action is COMPLETED while a superseded one is
      neither COMPLETED nor CANCELLED. */
  lemma StopReasonAgreesIff(rows: seq<Row>)
    requires !AnyEligible(rows, E.Eligibility.Ready) && !AnyEligible(rows, E.ReconciliationRequired)
    ensures (BlockingStopReason(rows) == PlanIsCompleted <==> Recompute(rows) == PlanCompleted)
            <==> (AllClosed(rows) <==> AllDone(rows))
    ensures (BlockingStopReason(rows) == PlanIsCompleted && Recompute(rows) != PlanCompleted) <==>
              && AllClosed(rows)
              && ((exists i | 0 <= i < |rows| :: !rows[i].superseded && rows[i].status == Cancelled)
                  || forall i | 0 <= i < |rows| :: rows[i].superseded)
    ensures (BlockingStopReason(rows) != PlanIsCompleted && Recompute(rows) == PlanCompleted) <==>
              && AllDone(rows)
              && exists i | 0 <= i < |rows| ::
                  rows[i].superseded && rows[i].status != Completed && rows[i].status != Cancelled
  {
    StopCompletedIff(rows);
    RecomputeMeans(rows);
    hide BlockingStopReason, Recompute, AnyEligible;
  }
}
