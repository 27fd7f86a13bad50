/** The recovery policy: what a failure may lead to. */
module Recovery {
  import opened Domain

  datatype Decision =
    | Retry
    | Replan
    | WaitForApproval
    | Reconcile
    | HumanReview
    | Stop
    | BudgetExhausted
    | SecurityBlocked
    | NoAction

  function Evaluate(category: FailureCategory, sideEffect: bool, retryCount: nat, maxRetries: nat,
                    approvalRequired: bool,
                    replanPermitted: bool): Decision
  {
    if category.Security? then SecurityBlocked
    else if category.Budget? then BudgetExhausted
    else if category.Permission? then Stop
    else if category.Approval? then Stop
    else if approvalRequired then HumanReview
    else if category.Transient? || category.Tool? then
      if sideEffect then Reconcile else if retryCount >= maxRetries then BudgetExhausted else Retry
    else if category.Validation? then if replanPermitted then Replan else Stop
    else Reconcile
  }

  /** The four conditions of a retry, and that nothing else yields one. */
  lemma RetryIff(category: FailureCategory, sideEffect: bool, retryCount: nat, maxRetries: nat, approvalRequired: bool,
                 replan: bool)
    ensures Evaluate(category, sideEffect, retryCount, maxRetries, approvalRequired, replan) == Retry
       <==> (category.Transient? || category.Tool?) && !sideEffect && retryCount < maxRetries && !approvalRequired
  {
  }

  /** Every other decision by exactly what brings it about: security and budget failures
      before anything else, permission and approval failures never recovered,
      approval-gated actions never recovered without a human. */
  lemma DecisionByCause(category: FailureCategory, sideEffect: bool, retryCount: nat, maxRetries: nat,
                        approvalRequired: bool, replan: bool)
    ensures var d := Evaluate(category, sideEffect, retryCount, maxRetries, approvalRequired, replan);
            var retryable := category in {Transient, Tool};
            && (d == SecurityBlocked <==> category == Security)
            && (d == BudgetExhausted <==>
                  category == Budget || (retryable && !approvalRequired && !sideEffect && retryCount >= maxRetries))
            && (d == HumanReview <==>
                  approvalRequired && category in {Transient, Tool, Validation, Verification, Unknown})
            && (d == Replan <==> category == Validation && !approvalRequired && replan)
            && (d == Reconcile <==>
                  !approvalRequired && ((retryable && sideEffect) || category in {Verification, Unknown}))
            && (d == Stop <==>
                  category in {Permission, Approval} || (category == Validation && !approvalRequired && !replan))
  {
  }

  // ---------------------------------------------------------------- histories

  datatype Failure = Failure(category: FailureCategory, sideEffect: bool)

  /** A failure the policy would answer with a retry, retries permitting. */
  predicate Transitory(f: Failure) { (f.category.Transient? || f.category.Tool?) && !f.sideEffect }

  /** How many of an action's failures are answered by a retry, one after the other,
      before one is not. */
  function Retries(failures: seq<Failure>, retryCount: nat, maxRetries: nat, approvalRequired: bool): nat {
    if failures == [] then 0
    else if Evaluate(failures[0].category, failures[0].sideEffect, retryCount, maxRetries, approvalRequired,
                     true) != Retry then 0
    else 1 + Retries(failures[1..], retryCount + 1, maxRetries, approvalRequired)
  }

  /** The failures an action starts with that are transitory. */
  function Transitories(failures: seq<Failure>): nat {
    if failures == [] || !Transitory(failures[0]) then 0 else 1 + Transitories(failures[1..])
  }

  /** Over every history of failures: an approval-gated action is never retried; any
      other is retried once for each transitory failure until the first that is not,
      or until its retries are used up, whichever comes first. */
  lemma {:induction false} RetriesOverHistory(failures: seq<Failure>, retryCount: nat, maxRetries: nat,
                                              approvalRequired: bool)
    ensures var left := if retryCount < maxRetries then maxRetries - retryCount else 0;
            Retries(failures, retryCount, maxRetries, approvalRequired) ==
            if approvalRequired then 0 else if Transitories(failures) <= left then Transitories(failures) else left
  {
    if failures != [] {
      RetryIff(failures[0].category, failures[0].sideEffect, retryCount, maxRetries, approvalRequired, true);
      hide Evaluate;
      if Transitory(failures[0]) && retryCount < maxRetries && !approvalRequired {
        RetriesOverHistory(failures[1..], retryCount + 1, maxRetries, approvalRequired);
      }
    }
  }
}
