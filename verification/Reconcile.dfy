/** Reconciliation of one action after a crash: durable bookkeeping is caught up with
    the effect that is really there, without executing anything. */
module Reconcile {
  import opened Domain

  datatype Row = Row(status: ActionStatus, version: nat, approvalRequired: bool)

  datatype AttemptStatus =
    | Claimed
    | Started
    | AttemptSucceeded
    | AttemptFailed
    | AttemptVerifying
    | AttemptVerified
    | AttemptVerificationFailed
    | Interrupted
    | AttemptBlocked

  datatype Attempt = Attempt(tool: string, status: AttemptStatus)

  /** The durable rows of one action; results and verifications are keyed by the
      number of their attempt. */
  datatype Db = Db(row: Option<Row>, attempts: seq<Attempt>, results: map<nat, bool>, verifications: map<nat, bool>)

  /** The outside world an adapter acts on. */
  type Effects = map<string, nat>

  datatype Inspection = Inspection(present: bool, matchesExpected: Option<bool>)

  /** What reconciliation may use of an adapter: looking, never executing. */
  datatype Adapter = Adapter(canInspect: bool, inspect: Effects -> Inspection, verify: Effects -> bool)

  type Registry = map<string, Adapter>

  datatype Classification =
    | ConsistentCompleted
    | ConsistentFailed
    | ExecutionNotStarted
    | ExecutionInterrupted
    | SideEffectPresentResultMissing
    | ExecutionSucceededVerificationMissing
    | VerificationPassedCompletionMissing
    | SideEffectMismatch
    | ApprovalConsumedExecutionMissing
    | AmbiguousState
    | SecurityInconsistency

  datatype Report = Report(classification: Classification, safeToRetry: bool, humanReview: bool, recovered: bool)

  // ------------------------------------------------------------------- moves

  /** Position in the recovery chain; -1 off it. */
  function Lifecycle(status: ActionStatus): int {
    match status
    case Executing => 0
    case ExecutionSucceeded => 1
    case Verifying => 2
    case Verified => 3
    case Completed => 4
    case _ => -1
  }

  /** One legal hop, or none if already there; without other writers only an illegal
      hop fails. */
  function Advance(row: Row, target: ActionStatus): Option<Row> {
    if Lifecycle(row.status) >= Lifecycle(target) then Some(row)
    else if CanTransition(row.status, target) then Some(row.(status := target, version := row.version + 1))
    else None
  }

  function Mark(db: Db, n: nat, status: AttemptStatus): Db
    requires n < |db.attempts|
  {
    db.(attempts := db.attempts[n := db.attempts[n].(status := status)])
  }

  function Noted(notes: map<nat, bool>, n: nat, value: bool): map<nat, bool> {
    if n in notes then notes else notes[n := value]
  }

  // ---------------------------------------------------------------- outcomes

  function CompletionOutcome(db: Db, row: Row): Db {
    var done := Advance(row, Completed);
    if done.Some? then db.(row := done) else db.(row := Some(row))
  }

  function VerificationOutcome(db: Db, row: Row, n: nat, registry: Registry, effects: Effects): Db
    requires n < |db.attempts|
  {
    var tool := db.attempts[n].tool;
    if tool !in registry then db.(row := Some(row))
    else
      var passed := registry[tool].verify(effects);
      var noted := db.(verifications := Noted(db.verifications, n, passed), row := Some(row));
      if !passed then Mark(noted, n, AttemptVerificationFailed)
      else
        var marked := Mark(noted, n, AttemptVerified);
        var verifying := Advance(row, Verifying);
        if verifying.None? then marked
        else
          var verified := Advance(verifying.value, Verified);
          if verified.None? then marked.(row := verifying) else CompletionOutcome(marked, verified.value)
  }

  /** The effect is there: its result is noted. */
  function ResultNoted(db: Db, n: nat): Db
    requires n < |db.attempts|
  {
    Mark(db.(results := Noted(db.results, n, true)), n, AttemptSucceeded)
  }

  function ResultOutcome(db: Db, row: Row, n: nat, registry: Registry, effects: Effects): Db
    requires n < |db.attempts|
  {
    var tool := db.attempts[n].tool;
    if tool !in registry || !registry[tool].canInspect then db
    else
      var seen := registry[tool].inspect(effects);
      if !seen.present then Mark(db, n, Interrupted)
      else if seen.matchesExpected != Some(true) then Mark(db, n, AttemptBlocked)
      else
        var noted := ResultNoted(db, n);
        var advanced := Advance(row, ExecutionSucceeded);
        if advanced.None? then noted else VerificationOutcome(noted, advanced.value, n, registry, effects)
  }

  predicate Settled(db: Db) {
    db.row.None? || Terminal(db.row.value.status) || db.attempts == []
  }

  /** What one reconciliation leaves in the database. */
  function Outcome(db: Db, registry: Registry, effects: Effects): Db {
    if Settled(db) then db
    else
      var n, row := |db.attempts| - 1, db.row.value;
      if n !in db.results then ResultOutcome(db, row, n, registry, effects)
      else if !db.results[n] then db
      else if n !in db.verifications then VerificationOutcome(db, row, n, registry, effects)
      else if db.verifications[n] then CompletionOutcome(db, row)
      else db
  }

  lemma NotYetCompleted(row: Row)
    requires row.status != Completed
    ensures var next := Advance(row, ExecutionSucceeded); next.Some? ==> next.value.status != Completed
    ensures var next := Advance(row, Verifying); next.Some? ==> next.value.status != Completed
  {
  }

  // ------------------------------------------------------------------ causes

  /** The action has not ended. */
  predicate Open(db: Db) {
    db.row.Some? && db.row.value.status !in {Failed, Rejected, Cancelled, Blocked, Completed}
  }

  /** An open action whose last attempt has no result. */
  predicate ResultMissing(db: Db) { Open(db) && db.attempts != [] && |db.attempts| - 1 !in db.results }

  /** An adapter that can look at what the last attempt has done. */
  predicate Inspectable(db: Db, registry: Registry) {
    db.attempts != [] && db.attempts[|db.attempts| - 1].tool in registry
    && registry[db.attempts[|db.attempts| - 1].tool].canInspect
  }

  /** What that adapter sees. */
  function Sight(db: Db, registry: Registry, effects: Effects): Inspection
    requires Inspectable(db, registry)
  {
    registry[db.attempts[|db.attempts| - 1].tool].inspect(effects)
  }

  /** What each classification says of the action's rows and of the world. */
  predicate Cause(db: Db, registry: Registry, effects: Effects, c: Classification) {
    var n := |db.attempts| - 1;
    match c
    case ConsistentCompleted => db.row.Some? && db.row.value.status == Completed
    case ConsistentFailed =>
      || (db.row.Some? && db.row.value.status in {Failed, Rejected, Cancelled, Blocked})
      || (&& Open(db) && n >= 0 && n in db.results
          && (!db.results[n] || (n in db.verifications && !db.verifications[n])))
    case SecurityInconsistency =>
      && Open(db) && n < 0
      && db.row.value.status in {Executing, ExecutionSucceeded, Verifying, Verified}
    case ApprovalConsumedExecutionMissing =>
      Open(db) && n < 0 && db.row.value.approvalRequired && db.row.value.status == Approved
    case ExecutionNotStarted =>
      && Open(db) && n < 0
      && db.row.value.status !in {Executing, ExecutionSucceeded, Verifying, Verified}
      && !(db.row.value.approvalRequired && db.row.value.status == Approved)
    case ExecutionInterrupted =>
      ResultMissing(db) && Inspectable(db, registry) && !Sight(db, registry, effects).present
    case SideEffectMismatch =>
      && ResultMissing(db) && Inspectable(db, registry) && Sight(db, registry, effects).present
      && Sight(db, registry, effects).matchesExpected != Some(true)
    case SideEffectPresentResultMissing =>
      && ResultMissing(db) && Inspectable(db, registry) && Sight(db, registry, effects).present
      && Sight(db, registry, effects).matchesExpected == Some(true)
    case AmbiguousState => db.row.None? || (ResultMissing(db) && !Inspectable(db, registry))
    case ExecutionSucceededVerificationMissing =>
      Open(db) && n >= 0 && n in db.results && db.results[n] && n !in db.verifications
    case VerificationPassedCompletionMissing =>
      && Open(db) && n >= 0 && n in db.results && db.results[n]
      && n in db.verifications && db.verifications[n]
  }

  /** What looking, where it is possible, makes of an action without a result. */
  function Sighted(registry: Registry, tool: string, effects: Effects): Classification {
    if tool !in registry || !registry[tool].canInspect then AmbiguousState
    else
      match (registry[tool].inspect(effects).present, registry[tool].inspect(effects).matchesExpected)
      case (false, _) => ExecutionInterrupted
      case (true, Some(true)) => SideEffectPresentResultMissing
      case _ => SideEffectMismatch
  }

  lemma SightedIsCause(db: Db, registry: Registry, effects: Effects)
    requires ResultMissing(db)
    ensures Cause(db, registry, effects, Sighted(registry, db.attempts[|db.attempts| - 1].tool, effects))
  {
  }

  /** Every state has exactly one cause. */
  lemma CausesExclude(db: Db, registry: Registry, effects: Effects, c: Classification, d: Classification)
    requires Cause(db, registry, effects, c) && Cause(db, registry, effects, d)
    ensures c == d
  {
  }

  // -------------------------------------------------------------- the reconciler

  /** The action's rows, the world, and how often an adapter was executed. */
  class Store {
    const registry: Registry
    var db: Db
    var effects: Effects
    var executions: nat

    constructor (registry: Registry, db: Db, effects: Effects)
      ensures this.registry == registry && this.db == db && this.effects == effects && executions == 0
    {
      this.registry, this.db, this.effects, executions := registry, db, effects, 0;
    }

    /** `_advance_through`: the version-guarded write, when one is due and legal. */
    method AdvanceThrough(target: ActionStatus) returns (ok: bool)
      requires db.row.Some?
      modifies this`db
      ensures ok <==> Advance(old(db.row.value), target).Some?
      ensures db == if ok then old(db).(row := Advance(old(db.row.value), target)) else old(db)
    {
      var row := db.row.value;
      if Lifecycle(row.status) >= Lifecycle(target) { return true; }
      if !CanTransition(row.status, target) { return false; }
      db := db.(row := Some(row.(status := target, version := row.version + 1)));
      return true;
    }

    method ReconcileMissingCompletion(classification: Classification) returns (report: Report)
      requires db.row.Some?
      modifies this`db
      ensures db == CompletionOutcome(old(db), old(db.row.value))
      ensures report.classification == classification && !report.safeToRetry
      ensures report.recovered == (db.row.value.status == Completed) == !report.humanReview
    {
      var ok := AdvanceThrough(Completed);
      return if ok then Report(classification, false, false, true) else Report(classification, false, true, false);
    }

    method ReconcileMissingVerification(n: nat) returns (report: Report)
      requires n < |db.attempts| && db.row.Some? && db.row.value.status != Completed
      modifies this`db
      ensures db.row.Some? && db == VerificationOutcome(old(db), old(db.row.value), n, registry, effects)
      ensures report.humanReview <==> db.row.value.status != Completed
      ensures !report.safeToRetry && report.classification == ExecutionSucceededVerificationMissing
      ensures db.row.value.status == Completed ==> report.recovered
    {
      NotYetCompleted(db.row.value);
      hide Advance, CanTransition, Lifecycle;
      var missing := ExecutionSucceededVerificationMissing;
      var tool := db.attempts[n].tool;
      if tool !in registry { return Report(missing, false, true, false); }
      var passed := registry[tool].verify(effects);
      if n !in db.verifications { db := db.(verifications := db.verifications[n := passed]); }
      if !passed {
        db := Mark(db, n, AttemptVerificationFailed);
        return Report(missing, false, true, false);
      }
      db := Mark(db, n, AttemptVerified);
      var ok := AdvanceThrough(Verifying);
      if ok { ok := AdvanceThrough(Verified); }
      if !ok { return Report(missing, false, true, true); }
      report := ReconcileMissingCompletion(missing);
    }

    method ReconcileMissingResult(n: nat) returns (report: Report)
      requires n < |db.attempts| && db.row.Some? && db.row.value.status != Completed
      modifies this`db
      ensures db.row.Some? && db == ResultOutcome(old(db), old(db.row.value), n, registry, effects)
      ensures report.classification == Sighted(registry, old(db).attempts[n].tool, effects)
      ensures report.safeToRetry <==>
                && old(db).attempts[n].tool in registry && registry[old(db).attempts[n].tool].canInspect
                && !registry[old(db).attempts[n].tool].inspect(effects).present
      ensures report.humanReview <==> db.row.value.status != Completed && !report.safeToRetry
      ensures db.row.value.status == Completed ==> report.recovered
      ensures report.recovered && !report.humanReview ==> db.row.value.status == Completed
    {
      NotYetCompleted(db.row.value);
      hide Advance, VerificationOutcome;
      var tool := db.attempts[n].tool;
      if tool !in registry || !registry[tool].canInspect { return Report(AmbiguousState, false, true, false); }
      var seen := registry[tool].inspect(effects);
      if !seen.present {
        db := Mark(db, n, Interrupted);
        return Report(ExecutionInterrupted, true, false, false);
      }
      if seen.matchesExpected != Some(true) {
        db := Mark(db, n, AttemptBlocked);
        return Report(SideEffectMismatch, false, true, false);
      }
      if n !in db.results { db := db.(results := db.results[n := true]); }
      db := Mark(db, n, AttemptSucceeded);
      assert db == ResultNoted(old(db), n);
      hide ResultNoted, Mark, Noted;
      var ok := AdvanceThrough(ExecutionSucceeded);
      if !ok { return Report(SideEffectPresentResultMissing, false, true, true); }
      report := ReconcileMissingVerification(n);
      report := report.(classification := SideEffectPresentResultMissing, recovered := true);
    }

    /** Reconciliation touches neither the world nor the execution count, and what it
        leaves behind is `Outcome`. Each classification is given for its cause. A retry is
        promised exactly when the action is open and either nothing was attempted and
        nothing is under way or approved, or the last attempt has no result and its
        adapter can look and sees no effect. A recovery is claimed without reservation
        exactly when it completed the action, and a human is asked exactly when the action
        is neither completed, nor consistently failed, nor safe to retry. */
    method ReconcileAction() returns (report: Report)
      modifies this`db
      ensures db == Outcome(old(db), registry, effects)
      ensures Cause(old(db), registry, effects, report.classification)
      ensures report.safeToRetry <==>
                && Open(old(db))
                && if old(db).attempts == [] then
                     && old(db).row.value.status !in {Executing, ExecutionSucceeded, Verifying, Verified}
                     && !(old(db).row.value.approvalRequired && old(db).row.value.status == Approved)
                   else
                     && |old(db).attempts| - 1 !in old(db).results && Inspectable(old(db), registry)
                     && !Sight(old(db), registry, effects).present
      ensures report.recovered && !report.humanReview <==> IsCompleted(db) && !old(IsCompleted(db))
      ensures report.humanReview <==> !IsCompleted(db) && !old(FailureRecorded(db)) && !report.safeToRetry
      ensures effects == old(effects) && executions == old(executions)
    {
      hide ResultOutcome, VerificationOutcome;
      if db.row.None? { return Report(AmbiguousState, false, true, false); }
      var row := db.row.value;
      if row.status == Completed { return Report(ConsistentCompleted, false, false, false); }
      if Terminal(row.status) { return Report(ConsistentFailed, false, false, false); }
      if db.attempts == [] {
        if InProgress(row.status) { return Report(SecurityInconsistency, false, true, false); }
        if row.approvalRequired && row.status == Approved {
          return Report(ApprovalConsumedExecutionMissing, false, true, false);
        }
        return Report(ExecutionNotStarted, true, false, false);
      }
      var n := |db.attempts| - 1;
      if n !in db.results {
        SightedIsCause(db, registry, effects);
        report := ReconcileMissingResult(n);
      } else if !db.results[n] {
        report := Report(ConsistentFailed, false, false, false);
      } else if n !in db.verifications {
        report := ReconcileMissingVerification(n);
      } else if db.verifications[n] {
        report := ReconcileMissingCompletion(VerificationPassedCompletionMissing);
      } else {
        report := Report(ConsistentFailed, false, false, false);
      }
    }
  }

  // ------------------------------------------------- when it ends COMPLETED

  predicate IsCompleted(db: Db) { db.row.Some? && db.row.value.status == Completed }

  /** The action has ended otherwise, or its last attempt's failure is on record. */
  predicate FailureRecorded(db: Db) {
    && db.row.Some? && db.row.value.status != Completed
    && (Terminal(db.row.value.status)
        || (db.attempts != []
            && var n := |db.attempts| - 1;
               n in db.results && (!db.results[n] || (n in db.verifications && !db.verifications[n]))))
  }

  predicate EffectMatches(adapter: Adapter, effects: Effects) {
    adapter.canInspect && adapter.inspect(effects).present && adapter.inspect(effects).matchesExpected == Some(true)
  }

  /** Exactly the states reconciliation brings to COMPLETED. */
  predicate Completes(db: Db, registry: Registry, effects: Effects) {
    IsCompleted(db)
    || (&& !Settled(db)
        && var n, status := |db.attempts| - 1, db.row.value.status;
           var tool := db.attempts[n].tool;
           if n !in db.results then
             InProgress(status) && tool in registry && EffectMatches(registry[tool], effects)
                 && registry[tool].verify(effects)
           else if n !in db.verifications then
             db.results[n] && status in {ExecutionSucceeded, Verifying, Verified} && tool in registry
                 && registry[tool].verify(effects)
           else
             db.results[n] && db.verifications[n] && status == Verified)
  }

  /** The verification stage completes a row exactly from these. */
  lemma VerificationCompletesIff(db: Db, row: Row, n: nat, registry: Registry, effects: Effects)
    requires n < |db.attempts| && !Terminal(row.status)
    ensures var tool := db.attempts[n].tool;
            IsCompleted(VerificationOutcome(db, row, n, registry, effects)) <==>
              && tool in registry && registry[tool].verify(effects)
              && row.status in {ExecutionSucceeded, Verifying, Verified}
  {
  }

  lemma ResultCompletesIff(db: Db, row: Row, n: nat, registry: Registry, effects: Effects)
    requires n < |db.attempts| && !Terminal(row.status) && db.row == Some(row)
    ensures var tool := db.attempts[n].tool;
            IsCompleted(ResultOutcome(db, row, n, registry, effects)) <==>
              && InProgress(row.status) && tool in registry && EffectMatches(registry[tool], effects)
              && registry[tool].verify(effects)
  {
    var noted, advanced := ResultNoted(db, n), Advance(row, ExecutionSucceeded);
    if advanced.Some? { VerificationCompletesIff(noted, advanced.value, n, registry, effects); }
    hide VerificationOutcome, Noted;
  }

  lemma CompletesIff(db: Db, registry: Registry, effects: Effects)
    ensures IsCompleted(Outcome(db, registry, effects)) <==> Completes(db, registry, effects)
  {
    if !Settled(db) {
      var n, row := |db.attempts| - 1, db.row.value;
      ResultCompletesIff(db, row, n, registry, effects);
      VerificationCompletesIff(db, row, n, registry, effects);
    }
    hide ResultOutcome, VerificationOutcome, EffectMatches;
  }

  /** Once COMPLETED, reconciling again changes nothing at all. */
  lemma CompletedIsFixed(db: Db, registry: Registry, effects: Effects)
    requires Completes(db, registry, effects)
    ensures var after := Outcome(db, registry, effects); Outcome(after, registry, effects) == after
  {
    CompletesIff(db, registry, effects);
    hide Outcome, Completes;
    var after := Outcome(db, registry, effects);
    assert Settled(after);
    SettledIsFixed(after, registry, effects);
  }

  lemma SettledIsFixed(db: Db, registry: Registry, effects: Effects)
    requires Settled(db)
    ensures Outcome(db, registry, effects) == db
  {
  }

  /** Results are recorded before verifications. */
  predicate InSequence(db: Db) { db.verifications.Keys <= db.results.Keys }

  /** Notes for the last attempt only, never over older ones. */
  predicate AddsNotes(db: Db, after: Db) {
    && |after.attempts| == |db.attempts|
    && (forall i | 0 <= i < |db.attempts| :: after.attempts[i].tool == db.attempts[i].tool)
    && (forall i | 0 <= i < |db.attempts| - 1 :: after.attempts[i] == db.attempts[i])
    && (forall i | i in db.results :: i in after.results && after.results[i] == db.results[i])
    && (forall i | i in db.verifications :: i in after.verifications && after.verifications[i] == db.verifications[i])
  }

  /** What one call adds, while the row goes forward. */
  predicate Extends(db: Db, after: Db) {
    && AddsNotes(db, after)
    && (db.row.Some? <==> after.row.Some?)
    && (db.row.Some? ==> Forward(db.row.value, after.row.value))
  }

  predicate Forward(row: Row, later: Row) {
    row.version <= later.version && (later == row || Lifecycle(row.status) < Lifecycle(later.status))
  }

  lemma AdvanceForward(row: Row, target: ActionStatus)
    ensures Advance(row, target).Some? ==> Forward(row, Advance(row, target).value)
  {
  }

  /** The row a verification stage leaves. */
  lemma VerificationForward(db: Db, row: Row, n: nat, registry: Registry, effects: Effects)
    requires n < |db.attempts|
    ensures var after := VerificationOutcome(db, row, n, registry, effects);
            after.row.Some? && Forward(row, after.row.value)
  {
    hide Advance, Forward;
    assert Forward(row, row) by { Stays(row); }
    AdvanceForward(row, Verifying);
    var verifying := Advance(row, Verifying);
    if verifying.Some? {
      AdvanceForward(verifying.value, Verified);
      var verified := Advance(verifying.value, Verified);
      if verified.Some? {
        AdvanceForward(verified.value, Completed);
        ForwardChain(row, verifying.value, verified.value);
        if Advance(verified.value, Completed).Some? {
          ForwardChain(row, verified.value, Advance(verified.value, Completed).value);
        }
      }
    }
  }

  lemma Stays(row: Row)
    ensures Forward(row, row)
  {
  }

  lemma ForwardChain(a: Row, b: Row, c: Row)
    requires Forward(a, b) && Forward(b, c)
    ensures Forward(a, c)
  {
  }

  lemma NotesChain(a: Db, b: Db, c: Db)
    requires AddsNotes(a, b) && AddsNotes(b, c)
    ensures AddsNotes(a, c)
  {
  }

  lemma VerificationNotes(db: Db, row: Row, n: nat, registry: Registry, effects: Effects)
    requires n == |db.attempts| - 1
    ensures AddsNotes(db, VerificationOutcome(db, row, n, registry, effects))
    ensures n in db.results && InSequence(db) ==> InSequence(VerificationOutcome(db, row, n, registry, effects))
  {
    hide Advance;
  }

  lemma VerificationExtends(db: Db, row: Row, n: nat, registry: Registry, effects: Effects)
    requires n == |db.attempts| - 1 && db.row.Some? && Forward(db.row.value, row)
    ensures Extends(db, VerificationOutcome(db, row, n, registry, effects))
    ensures n in db.results && InSequence(db) ==> InSequence(VerificationOutcome(db, row, n, registry, effects))
  {
    hide VerificationOutcome, AddsNotes, Forward, InSequence;
    VerificationForward(db, row, n, registry, effects);
    VerificationNotes(db, row, n, registry, effects);
    ForwardChain(db.row.value, row, VerificationOutcome(db, row, n, registry, effects).row.value);
  }

  lemma NotedAdds(db: Db, n: nat, status: AttemptStatus)
    requires n == |db.attempts| - 1
    ensures AddsNotes(db, db) && AddsNotes(db, Mark(db, n, status)) && AddsNotes(db, ResultNoted(db, n))
    ensures InSequence(db) ==> InSequence(Mark(db, n, status)) && InSequence(ResultNoted(db, n))
  {
  }

  lemma ResultExtends(db: Db, row: Row, n: nat, registry: Registry, effects: Effects)
    requires n == |db.attempts| - 1 && db.row == Some(row)
    ensures Extends(db, ResultOutcome(db, row, n, registry, effects))
    ensures InSequence(db) ==> InSequence(ResultOutcome(db, row, n, registry, effects))
  {
    Stays(row);
    AdvanceForward(row, ExecutionSucceeded);
    NotedAdds(db, n, Interrupted);
    NotedAdds(db, n, AttemptBlocked);
    hide Advance, Forward, VerificationOutcome, AddsNotes, InSequence;
    var noted, advanced := ResultNoted(db, n), Advance(row, ExecutionSucceeded);
    if advanced.Some? {
      var after := VerificationOutcome(noted, advanced.value, n, registry, effects);
      VerificationNotes(noted, advanced.value, n, registry, effects);
      VerificationForward(noted, advanced.value, n, registry, effects);
      ForwardChain(row, advanced.value, after.row.value);
      NotesChain(db, noted, after);
    }
  }

  /** Nothing already recorded is rewritten: attempts keep their tool, results and
      verifications their verdict, and the row never moves back. */
  lemma HistoryKept(db: Db, registry: Registry, effects: Effects)
    ensures Extends(db, Outcome(db, registry, effects))
    ensures InSequence(db) ==> InSequence(Outcome(db, registry, effects))
  {
    if !Settled(db) {
      var n, row := |db.attempts| - 1, db.row.value;
      ResultExtends(db, row, n, registry, effects);
      VerificationExtends(db, row, n, registry, effects);
    }
    hide ResultOutcome, VerificationOutcome;
  }

  /** After a verification stage that did not complete the row, none will. */
  lemma VerificationDecides(db: Db, row: Row, n: nat, registry: Registry, effects: Effects)
    requires n == |db.attempts| - 1 && !Terminal(row.status) && n in db.results && n !in db.verifications
    requires !IsCompleted(VerificationOutcome(db, row, n, registry, effects))
    ensures !Completes(VerificationOutcome(db, row, n, registry, effects), registry, effects)
  {
  }

  /** Marking an attempt decides nothing. */
  lemma MarkDecides(db: Db, n: nat, status: AttemptStatus, registry: Registry, effects: Effects)
    requires n < |db.attempts|
    ensures Completes(Mark(db, n, status), registry, effects) <==> Completes(db, registry, effects)
  {
  }

  /** A noted result without a legal hop out of the row's status. */
  lemma StuckDecides(db: Db, row: Row, n: nat, registry: Registry, effects: Effects)
    requires n == |db.attempts| - 1 && !Terminal(row.status) && n !in db.results && n !in db.verifications
    requires db.row == Some(row) && Advance(row, ExecutionSucceeded).None?
    ensures !Completes(ResultNoted(db, n), registry, effects)
  {
  }

  lemma OpenDecides(db: Db, row: Row, n: nat, registry: Registry, effects: Effects)
    requires n == |db.attempts| - 1 && !Terminal(row.status) && n !in db.results && db.row == Some(row)
    requires !IsCompleted(ResultOutcome(db, row, n, registry, effects))
    ensures !Completes(db, registry, effects)
  {
    ResultCompletesIff(db, row, n, registry, effects);
    hide ResultOutcome, EffectMatches;
  }

  lemma ResultDecides(db: Db, row: Row, n: nat, registry: Registry, effects: Effects)
    requires n == |db.attempts| - 1 && !Terminal(row.status) && n !in db.results && n !in db.verifications
    requires db.row == Some(row)
    requires !IsCompleted(ResultOutcome(db, row, n, registry, effects))
    ensures !Completes(ResultOutcome(db, row, n, registry, effects), registry, effects)
  {
    OpenDecides(db, row, n, registry, effects);
    MarkDecides(db, n, Interrupted, registry, effects);
    MarkDecides(db, n, AttemptBlocked, registry, effects);
    var noted, advanced := ResultNoted(db, n), Advance(row, ExecutionSucceeded);
    assert n in noted.results && n !in noted.verifications && |noted.attempts| == |db.attempts|;
    assert advanced.Some? ==> !Terminal(advanced.value.status);
    if advanced.None? { StuckDecides(db, row, n, registry, effects); }
    hide Completes, VerificationOutcome, Mark, ResultNoted, Advance, IsCompleted;
    if advanced.Some? && ResultOutcome(db, row, n, registry, effects) ==
        VerificationOutcome(noted, advanced.value, n, registry, effects) {
      VerificationDecides(noted, advanced.value, n, registry, effects);
    }
  }

  /** And an action the first call does not complete is left to a human for good: with
      the world as it is, no number of further calls completes it. */
  lemma FirstCallDecides(db: Db, registry: Registry, effects: Effects)
    requires InSequence(db) && !Completes(db, registry, effects)
    ensures !Completes(Outcome(db, registry, effects), registry, effects)
  {
    CompletesIff(db, registry, effects);
    if !Settled(db) {
      var n, row := |db.attempts| - 1, db.row.value;
      if n !in db.results {
        assert Outcome(db, registry, effects) == ResultOutcome(db, row, n, registry, effects);
        hide Completes, ResultOutcome;
        ResultDecides(db, row, n, registry, effects);
      } else if db.results[n] && n !in db.verifications {
        assert Outcome(db, registry, effects) == VerificationOutcome(db, row, n, registry, effects);
        hide Completes, VerificationOutcome;
        VerificationDecides(db, row, n, registry, effects);
      } else {
        assert Outcome(db, registry, effects) == db;
      }
    }
  }

  function Repeated(db: Db, registry: Registry, effects: Effects, times: nat): Db {
    if times == 0 then db else Outcome(Repeated(db, registry, effects, times - 1), registry, effects)
  }

  /** However often reconciliation is repeated, the first call decides. */
  lemma {:induction false} RepeatingDoesNotHelp(db: Db, registry: Registry, effects: Effects, times: nat)
    requires InSequence(db) && times > 0
    ensures InSequence(Repeated(db, registry, effects, times))
    ensures IsCompleted(Repeated(db, registry, effects, times)) <==> Completes(db, registry, effects)
    ensures Completes(Repeated(db, registry, effects, times), registry, effects) <==> Completes(db, registry, effects)
  {
    var before := Repeated(db, registry, effects, times - 1);
    if times > 1 { RepeatingDoesNotHelp(db, registry, effects, times - 1); }
    assert Completes(before, registry, effects) <==> Completes(db, registry, effects);
    CompletesIff(before, registry, effects);
    HistoryKept(before, registry, effects);
    var after := Outcome(before, registry, effects);
    if Completes(before, registry, effects) {
      assert IsCompleted(after) && Completes(after, registry, effects);
    } else {
      FirstCallDecides(before, registry, effects);
    }
  }
}
