/** The budget ledger as a machine of interleaved callers. Every repository call
    of `reserve_and_consume` is one atomic step; a caller may crash between any
    two of them. The only atomic database operations are the version-guarded
    UPDATE of an account and the INSERT of an event under a unique key.
    Figures that are only reported back (limit, consumed, remaining) are not
    part of an outcome. */
module Ledger {
  import opened Domain

  const MAX_CAS_ATTEMPTS: nat := 5

  datatype BudgetType = ActionAttempts | Retries | Replans | ModelCalls | EstimatedCost

  datatype BudgetScope = ActionScope | PlanScope

  /** What the accounts table is unique on. */
  datatype Scope = Scope(kind: BudgetScope, owner: nat, budgetType: BudgetType)

  /** A structured idempotency key: budget, plan, subject and attempt number. */
  datatype Key = Key(budgetType: BudgetType, plan: nat, subject: nat, number: nat)

  datatype AccountStatus = Active | Exhausted

  datatype Account = Account(limit: real, consumed: real, status: AccountStatus, version: nat)

  datatype Event = Event(scope: Scope, key: Key, delta: real, applied: bool)

  datatype Request = Request(scope: Scope, amount: real, key: Key, defaultLimit: Option<real>)

  datatype Outcome =
    | Unlimited                 // no account for the scope and no default limit
    | Granted                   // charged, and the event claimed as applied
    | Denied                    // the amount would have exceeded the limit
    | Replayed(applied: bool)   // an earlier event under this key decided

  predicate IsGrant(outcome: Outcome) {
    outcome.Unlimited? || outcome.Granted? || (outcome.Replayed? && outcome.applied)
  }

  /** Where a caller stands; `seen` is the account row it read last. */
  datatype Phase =
    | LookUpEvent
    | LookUpScope
    | EnsureAccount
    | ReadFresh(tries: nat)
    | ClaimDenied(seen: Account)
    | Charge(seen: Account, tries: nat)
    | ClaimApplied(seen: Account)
    | BackOut(seen: Account)
    | ReadWinner
    | Done(outcome: Outcome)
    | Raised
    | Crashed

  /** `held` is what this caller has charged without an applied event of its own:
      an in-flight charge while the caller lives, a leaked one afterwards. */
  datatype Call = Call(request: Request, phase: Phase, held: real)

  datatype State = State(accounts: map<Scope, Account>, events: seq<Event>, calls: seq<Call>)

  datatype Step = Submit(request: Request) | Run(caller: nat) | Crash(caller: nat)

  // ---------------------------------------------------------------- database

  predicate Recorded(events: seq<Event>, key: Key) {
    exists i | 0 <= i < |events| :: events[i].key == key
  }

  /** Whether the event recorded under `key` was applied. */
  predicate AppliedUnder(events: seq<Event>, key: Key) {
    exists i | 0 <= i < |events| :: events[i].key == key && events[i].applied
  }

  ghost predicate AppliedFor(events: seq<Event>, request: Request) {
    exists i | 0 <= i < |events| ::
      events[i] == Event(request.scope, request.key, request.amount, true)
  }

  function WouldExceed(account: Account, amount: real): bool {
    account.consumed + amount > account.limit
  }

  /** The row a successful charge writes. */
  function Charged(seen: Account, amount: real): Account {
    var consumed := seen.consumed + amount;
    Account(seen.limit, consumed, if consumed >= seen.limit then Exhausted else Active, seen.version + 1)
  }

  /** The row a successful back-out writes over `Charged(seen, _)`. */
  function BackedOut(seen: Account): Account {
    seen.(version := seen.version + 2)
  }

  // ------------------------------------------------------------------- steps

  predicate Live(phase: Phase) {
    !phase.Done? && !phase.Raised? && !phase.Crashed?
  }

  function At(s: State, i: nat, phase: Phase, held: real): (r: State)
    requires i < |s.calls|
  {
    s.(calls := s.calls[i := s.calls[i].(phase := phase, held := held)])
  }

  /** INSERT of an event under its unique key; a lost race changes nothing. */
  function Claimed(s: State, request: Request, applied: bool): State {
    if Recorded(s.events, request.key) then s
    else s.(events := s.events + [Event(request.scope, request.key, request.amount, applied)])
  }

  /** The next repository call of caller `i`. */
  function RunCaller(s: State, i: nat): State
    requires i < |s.calls|
  {
    var call := s.calls[i];
    var request := call.request;
    match call.phase
    case LookUpEvent =>
      if Recorded(s.events, request.key)
      then At(s, i, Done(Replayed(AppliedUnder(s.events, request.key))), call.held)
      else At(s, i, LookUpScope, call.held)
    case LookUpScope =>
      if request.scope in s.accounts then At(s, i, ReadFresh(0), call.held)
      else if request.defaultLimit.None? then At(s, i, Done(Unlimited), call.held)
      else At(s, i, EnsureAccount, call.held)
    case EnsureAccount =>
      if request.scope in s.accounts || request.defaultLimit.None? then At(s, i, ReadFresh(0), call.held)
      else
        At(s.(accounts := s.accounts[request.scope := Account(request.defaultLimit.value, 0.0, Active, 1)]),
           i, ReadFresh(0), call.held)
    case ReadFresh(tries) =>
      if tries >= MAX_CAS_ATTEMPTS then At(s, i, Raised, call.held)
      else if request.scope !in s.accounts then s
      else if WouldExceed(s.accounts[request.scope], request.amount)
      then At(s, i, ClaimDenied(s.accounts[request.scope]), call.held)
      else At(s, i, Charge(s.accounts[request.scope], tries), call.held)
    case ClaimDenied(_) =>
      At(Claimed(s, request, false), i, Done(Denied), call.held)
    case Charge(seen, tries) =>
      if request.scope in s.accounts && s.accounts[request.scope].version == seen.version
      then At(s.(accounts := s.accounts[request.scope := Charged(seen, request.amount)]),
              i, ClaimApplied(seen), request.amount)
      else At(s, i, ReadFresh(tries + 1), call.held)
    case ClaimApplied(seen) =>
      if Recorded(s.events, request.key) then At(s, i, BackOut(seen), call.held)
      else At(Claimed(s, request, true), i, Done(Granted), 0.0)
    case BackOut(seen) =>
      if request.scope in s.accounts && s.accounts[request.scope].version == seen.version + 1
      then At(s.(accounts := s.accounts[request.scope := BackedOut(seen)]), i, ReadWinner, 0.0)
      else At(s, i, ReadWinner, call.held)
    case ReadWinner =>
      At(s, i, Done(Replayed(AppliedUnder(s.events, request.key))), call.held)
    case _ => s
  }

  function Next(s: State, step: Step): State {
    match step
    case Submit(request) => s.(calls := s.calls + [Call(request, LookUpEvent, 0.0)])
    case Run(i) => if i < |s.calls| then RunCaller(s, i) else s
    case Crash(i) =>
      if i < |s.calls| && Live(s.calls[i].phase) then At(s, i, Crashed, s.calls[i].held) else s
  }

  function Exec(s: State, steps: seq<Step>): State
    decreases |steps|
  {
    if steps == [] then s else Next(Exec(s, steps[..|steps| - 1]), steps[|steps| - 1])
  }

  predicate Init(s: State) {
    s.events == [] && s.calls == [] && forall scope | scope in s.accounts :: s.accounts[scope].consumed == 0.0
  }

  // -------------------------------------------------------------------- sums

  /** Sum of the applied deltas of one account. */
  function Applied(events: seq<Event>, scope: Scope): real {
    if events == [] then 0.0
    else
      var last := events[|events| - 1];
      Applied(events[..|events| - 1], scope) + (if last.applied && last.scope == scope then last.delta else 0.0)
  }

  function HeldBy(call: Call, scope: Scope): real {
    if call.request.scope == scope then call.held else 0.0
  }

  /** Everything charged to one account without an applied event. */
  function Held(calls: seq<Call>, scope: Scope): real {
    if calls == [] then 0.0
    else Held(calls[..|calls| - 1], scope) + HeldBy(calls[|calls| - 1], scope)
  }

  /** The part of `Held` whose caller still runs, and the part whose caller is gone. */
  function Part(calls: seq<Call>, scope: Scope, live: bool): real {
    if calls == [] then 0.0
    else
      var last := calls[|calls| - 1];
      Part(calls[..|calls| - 1], scope, live) + (if Live(last.phase) == live then HeldBy(last, scope) else 0.0)
  }

  lemma {:induction false} HeldUpdate(calls: seq<Call>, i: nat, call: Call, scope: Scope)
    requires i < |calls|
    ensures Held(calls[i := call], scope) == Held(calls, scope) - HeldBy(calls[i], scope) + HeldBy(call, scope)
  {
    var n := |calls| - 1;
    if i == n {
      assert calls[i := call][..n] == calls[..n];
    } else {
      assert calls[i := call][..n] == calls[..n][i := call];
      HeldUpdate(calls[..n], i, call, scope);
    }
  }

  lemma {:induction false} HeldIsInFlightPlusLeaked(calls: seq<Call>, scope: Scope)
    ensures Held(calls, scope) == Part(calls, scope, true) + Part(calls, scope, false)
  {
    if calls != [] {
      HeldIsInFlightPlusLeaked(calls[..|calls| - 1], scope);
    }
  }

  lemma {:induction false} HeldNonNegative(calls: seq<Call>, scope: Scope)
    requires forall i | 0 <= i < |calls| :: calls[i].held >= 0.0
    ensures Held(calls, scope) >= 0.0
  {
    if calls != [] {
      HeldNonNegative(calls[..|calls| - 1], scope);
    }
  }

  // --------------------------------------------------------------- invariant

  predicate UniqueKeys(events: seq<Event>) {
    forall i, j | 0 <= i < j < |events| :: events[i].key != events[j].key
  }

  predicate WithinLimit(account: Account) {
    account.consumed <= account.limit || account.consumed == 0.0
  }

  function ConsumedOf(s: State, scope: Scope): real {
    if scope in s.accounts then s.accounts[scope].consumed else 0.0
  }

  /** A row read earlier: the version never runs backwards and identifies the row. */
  predicate Remembers(s: State, scope: Scope, seen: Account) {
    && scope in s.accounts
    && seen.limit == s.accounts[scope].limit
    && seen.version <= s.accounts[scope].version
    && (seen.version == s.accounts[scope].version ==> s.accounts[scope] == seen)
    && WithinLimit(seen)
  }

  /** A row charged on top of `seen`: as long as nobody wrote since, it is there. */
  predicate HasCharged(s: State, scope: Scope, seen: Account, amount: real) {
    && scope in s.accounts
    && seen.limit == s.accounts[scope].limit
    && seen.version < s.accounts[scope].version
    && (seen.version + 1 == s.accounts[scope].version ==> s.accounts[scope].consumed == seen.consumed + amount)
    && WithinLimit(seen)
  }

  ghost predicate CallInv(s: State, call: Call) {
    var request := call.request;
    match call.phase
    case LookUpEvent => call.held == 0.0
    case LookUpScope => call.held == 0.0
    case EnsureAccount => call.held == 0.0 && request.defaultLimit.Some?
    case ReadFresh(_) => call.held == 0.0 && request.scope in s.accounts
    case ClaimDenied(_) => call.held == 0.0
    case Charge(seen, _) =>
      call.held == 0.0 && Remembers(s, request.scope, seen) && !WouldExceed(seen, request.amount)
    case ClaimApplied(seen) =>
      call.held == request.amount && HasCharged(s, request.scope, seen, request.amount)
    case BackOut(seen) =>
      && call.held == request.amount && HasCharged(s, request.scope, seen, request.amount)
      && Recorded(s.events, request.key)
    case ReadWinner => call.held in {0.0, request.amount} && Recorded(s.events, request.key)
    case Done(outcome) =>
      && call.held in {0.0, request.amount}
      && (outcome.Granted? ==> AppliedFor(s.events, request))
      && (outcome.Denied? ==> Recorded(s.events, request.key))
      && (outcome.Replayed? ==>
            Recorded(s.events, request.key) && outcome.applied == AppliedUnder(s.events, request.key))
    case Raised => call.held == 0.0
    case Crashed => call.held in {0.0, request.amount}
  }

  ghost predicate Conserved(s: State, scope: Scope) {
    ConsumedOf(s, scope) == Applied(s.events, scope) + Held(s.calls, scope)
  }

  ghost predicate Inv(s: State) {
    && UniqueKeys(s.events)
    && (forall scope | scope in s.accounts :: WithinLimit(s.accounts[scope]))
    && (forall i | 0 <= i < |s.calls| :: CallInv(s, s.calls[i]))
    && (forall scope :: Conserved(s, scope))
  }

  /** What any step does to the shared tables: accounts are never dropped, a
      limit never moves, a version never runs backwards and identifies the row,
      and the ledger only grows. */
  ghost predicate Grows(s: State, t: State) {
    && (forall scope | scope in s.accounts ::
          && scope in t.accounts
          && t.accounts[scope].limit == s.accounts[scope].limit
          && s.accounts[scope].version <= t.accounts[scope].version
          && (s.accounts[scope].version == t.accounts[scope].version ==>
                t.accounts[scope] == s.accounts[scope]))
    && |s.events| <= |t.events|
    && t.events[..|s.events|] == s.events
    && UniqueKeys(t.events)
  }

  // ------------------------------------------------------------------ proofs

  lemma StepGrows(s: State, step: Step)
    requires Inv(s)
    ensures Grows(s, Next(s, step))
  {
    var t := Next(s, step);
    if step.Run? && step.caller < |s.calls| {
      assert CallInv(s, s.calls[step.caller]);
    }
    assert t.events[..|s.events|] == s.events;
  }

  /** Which tables a step touches, and with whose data. */
  lemma {:induction false} StepShape(s: State, step: Step)
    ensures var t := Next(s, step);
            && s.accounts.Keys <= t.accounts.Keys
            && |s.calls| <= |t.calls|
            && (forall i | 0 <= i < |s.calls| :: t.calls[i].request == s.calls[i].request)
            && (forall i | |s.calls| <= i < |t.calls| ::
                step.Submit? && t.calls[i] == Call(step.request, LookUpEvent, 0.0))
            && (forall i | 0 <= i < |s.calls| && t.calls[i].phase == Done(Unlimited) ::
                  s.calls[i].phase == Done(Unlimited) || s.calls[i].request.scope !in s.accounts)
            && (t.events == s.events
                || (step.Run? && step.caller < |s.calls|
                    && var request := s.calls[step.caller].request;
                       exists applied ::
                           t.events == s.events + [Event(request.scope, request.key, request.amount, applied)]))
  {
    if step.Run? && step.caller < |s.calls| {
      var request := s.calls[step.caller].request;
      var t := Next(s, step);
      assert t.events == s.events
        || t.events == s.events
            + [Event(request.scope, request.key, request.amount, s.calls[step.caller].phase.ClaimApplied?)];
    }
  }

  lemma GrownEvents(s: State, t: State, key: Key)
    requires Grows(s, t) && Recorded(s.events, key)
    ensures Recorded(t.events, key)
    ensures AppliedUnder(t.events, key) == AppliedUnder(s.events, key)
  {
    var i :| 0 <= i < |s.events| && s.events[i].key == key;
    assert t.events[i] == s.events[i];
    if AppliedUnder(t.events, key) {
      var j :| 0 <= j < |t.events| && t.events[j].key == key && t.events[j].applied;
      assert i == j;
    }
    if AppliedUnder(s.events, key) {
      var j :| 0 <= j < |s.events| && s.events[j].key == key && s.events[j].applied;
      assert t.events[j] == s.events[j];
    }
  }

  /** What a caller knows survives every step of the others. */
  lemma CallStable(s: State, t: State, call: Call)
    requires Grows(s, t) && CallInv(s, call)
    ensures CallInv(t, call)
  {
    var request := call.request;
    if Recorded(s.events, request.key) {
      GrownEvents(s, t, request.key);
    }
    if AppliedFor(s.events, request) {
      var i :| 0 <= i < |s.events| && s.events[i] == Event(request.scope, request.key, request.amount, true);
      assert t.events[i] == s.events[i];
    }
  }

  /** What the caller that moved knows afterwards. */
  lemma CallAdvances(s: State, i: nat)
    requires Inv(s) && i < |s.calls|
    ensures CallInv(Next(s, Run(i)), Next(s, Run(i)).calls[i])
  {
    var t := Next(s, Run(i));
    var call := s.calls[i];
    assert CallInv(s, call);
    StepGrows(s, Run(i));
    if |t.events| > |s.events| {
      assert t.events[|s.events|] == Event(call.request.scope, call.request.key, call.request.amount,
                                           call.phase.ClaimApplied?);
    }
    hide Inv, Conserved;
    if t.calls[i] == call {
      CallStable(s, t, call);
    }
  }

  lemma AppliedAppend(events: seq<Event>, event: Event, scope: Scope)
    ensures Applied(events + [event], scope)
         == Applied(events, scope) + (if event.applied && event.scope == scope then event.delta else 0.0)
  {
    assert (events + [event])[..|events|] == events;
  }

  lemma RunShape(s: State, i: nat)
    requires i < |s.calls|
    ensures var t, call := Next(s, Run(i)), s.calls[i];
            && t == RunCaller(s, i) && |t.calls| == |s.calls| && t.calls == s.calls[i := t.calls[i]]
            && t.calls[i].request == call.request
            && (t.events == s.events
                || t.events == s.events
                    + [Event(call.request.scope, call.request.key, call.request.amount, call.phase.ClaimApplied?)])
  {
  }

  lemma {:induction false} RunConserves(s: State, i: nat, scope: Scope)
    requires Inv(s) && i < |s.calls|
    ensures Conserved(Next(s, Run(i)), scope)
  {
    var t, call := Next(s, Run(i)), s.calls[i];
    assert Conserved(s, scope);
    RunShape(s, i);
    RunBalances(s, i, scope);
    hide Inv, Next, RunCaller;
    HeldUpdate(s.calls, i, t.calls[i], scope);
    if t.events != s.events {
      AppliedAppend(s.events,
                    Event(call.request.scope, call.request.key, call.request.amount, call.phase.ClaimApplied?), scope);
    }
  }

  /** What a caller's step adds to the counter it also adds to the ledger or to
      what it holds. */
  lemma {:induction false} RunBalances(s: State, i: nat, scope: Scope)
    requires Inv(s) && i < |s.calls|
    ensures var t := RunCaller(s, i);
            var gained := if t.events != s.events && s.calls[i].phase.ClaimApplied? then s.calls[i].request.amount
                else 0.0;
            ConsumedOf(t, scope) - ConsumedOf(s, scope) ==
            (if s.calls[i].request.scope == scope then gained + t.calls[i].held - s.calls[i].held else 0.0)
  {
    assert CallInv(s, s.calls[i]);
  }

  lemma {:induction false} StepConserves(s: State, step: Step, scope: Scope)
    requires Inv(s)
    ensures Conserved(Next(s, step), scope)
  {
    var t := Next(s, step);
    assert Conserved(s, scope);
    match step
    case Submit(_) => assert t.calls[..|s.calls|] == s.calls;
    case Run(i) => if i < |s.calls| { RunConserves(s, i, scope); }
    case Crash(i) => if i < |s.calls| { HeldUpdate(s.calls, i, t.calls[i], scope); }
  }

  lemma {:induction false} StepKeepsCalls(s: State, step: Step, j: nat)
    requires Inv(s) && j < |Next(s, step).calls|
    ensures CallInv(Next(s, step), Next(s, step).calls[j])
  {
    var t := Next(s, step);
    StepGrows(s, step);
    if j < |s.calls| {
      assert CallInv(s, s.calls[j]);
      if step.Run? && step.caller == j {
        CallAdvances(s, j);
      } else {
        CallStable(s, t, s.calls[j]);
      }
    }
  }

  lemma {:induction false} StepKeepsLimits(s: State, step: Step, scope: Scope)
    requires Inv(s) && scope in Next(s, step).accounts
    ensures WithinLimit(Next(s, step).accounts[scope])
  {
    if step.Run? && step.caller < |s.calls| {
      assert CallInv(s, s.calls[step.caller]);
    }
  }

  /** One step of anybody keeps the invariant. */
  lemma {:induction false} StepKeepsInv(s: State, step: Step)
    requires Inv(s)
    ensures Inv(Next(s, step))
  {
    var t := Next(s, step);
    StepGrows(s, step);
    forall j | 0 <= j < |t.calls|
      ensures CallInv(t, t.calls[j])
    {
      StepKeepsCalls(s, step, j);
    }
    forall scope
      ensures Conserved(t, scope)
    {
      StepConserves(s, step, scope);
    }
    forall scope | scope in t.accounts
      ensures WithinLimit(t.accounts[scope])
    {
      StepKeepsLimits(s, step, scope);
    }
  }

  lemma {:induction false} RunsKeepInv(s: State, steps: seq<Step>)
    requires Inv(s)
    ensures Inv(Exec(s, steps))
    decreases |steps|
  {
    if steps != [] {
      RunsKeepInv(s, steps[..|steps| - 1]);
      StepKeepsInv(Exec(s, steps[..|steps| - 1]), steps[|steps| - 1]);
    }
  }

  lemma InitInv(s: State)
    requires Init(s)
    ensures Inv(s)
  {
    forall scope
      ensures Conserved(s, scope)
    {
    }
  }

  // -------------------------------------------------------------- theorems

  ghost predicate NonNegative(steps: seq<Step>) {
    forall i | 0 <= i < |steps| && steps[i].Submit? :: steps[i].request.amount >= 0.0
  }

  lemma {:induction false} NonNegativeRequests(s: State, steps: seq<Step>)
    requires Init(s) && NonNegative(steps)
    ensures forall i | 0 <= i < |Exec(s, steps).calls| :: Exec(s, steps).calls[i].request.amount >= 0.0
    decreases |steps|
  {
    if steps != [] {
      var before, step := Exec(s, steps[..|steps| - 1]), steps[|steps| - 1];
      NonNegativeRequests(s, steps[..|steps| - 1]);
      StepShape(before, step);
      hide Next;
      var t := Next(before, step);
      forall i | 0 <= i < |t.calls| ensures t.calls[i].request.amount >= 0.0 {
        if i < |before.calls| { assert t.calls[i].request == before.calls[i].request; }
      }
    }
  }

  /** Conservation over every run, whatever the interleaving and wherever callers
      crash: an account's counter is the applied events plus the in-flight charges
      plus the leaked ones. It never passes the limit (an account unspent with a
      negative limit stays at zero); and with non-negative amounts the applied
      events alone never do either, so the counter can over-count but never
      under-count the ledger. */
  lemma BudgetConserved(s: State, steps: seq<Step>, scope: Scope)
    requires Init(s)
    ensures var t := Exec(s, steps);
            && ConsumedOf(t, scope) == Applied(t.events, scope) + Part(t.calls, scope, true)
                + Part(t.calls, scope, false)
            && (scope in t.accounts ==>
                t.accounts[scope].consumed <= t.accounts[scope].limit || t.accounts[scope].consumed == 0.0)
            && (NonNegative(steps) ==> Applied(t.events, scope) <= ConsumedOf(t, scope))
  {
    var t := Exec(s, steps);
    InitInv(s);
    RunsKeepInv(s, steps);
    assert Conserved(t, scope);
    HeldIsInFlightPlusLeaked(t.calls, scope);
    if NonNegative(steps) {
      NonNegativeRequests(s, steps);
      forall i | 0 <= i < |t.calls|
        ensures t.calls[i].held >= 0.0
      {
        assert CallInv(t, t.calls[i]);
      }
      HeldNonNegative(t.calls, scope);
    }
  }

  /** What a caller is told is what the ledger holds, and keeps holding, in every
      reachable state: a seen grant has its own applied event for the full
      amount, a replay repeats the recorded verdict, a denial left a record. */
  lemma OutcomeIsRecorded(s: State, steps: seq<Step>, i: nat)
    requires Init(s) && i < |Exec(s, steps).calls| && Exec(s, steps).calls[i].phase.Done?
    ensures var t := Exec(s, steps);
            var request := t.calls[i].request;
            match t.calls[i].phase.outcome
            case Unlimited => true
            case Granted => AppliedFor(t.events, request) && AppliedUnder(t.events, request.key)
            case Denied => Recorded(t.events, request.key)
            case Replayed(applied) => Recorded(t.events, request.key) && applied == AppliedUnder(t.events, request.key)
  {
    InitInv(s);
    RunsKeepInv(s, steps);
    assert CallInv(Exec(s, steps), Exec(s, steps).calls[i]);
  }

  /** Caller `i` read its account at the `k`-th step of a run, and found this row. */
  ghost predicate ReadAt(s: State, steps: seq<Step>, i: nat, k: nat, row: Account) {
    && k < |steps| && steps[k] == Run(i)
    && var t := Exec(s, steps[..k]);
       && i < |t.calls| && t.calls[i].phase.ReadFresh? && t.calls[i].request.scope in t.accounts
       && t.accounts[t.calls[i].request.scope] == row
  }

  /** Caller `i` once found an account without room for this amount. */
  ghost predicate FoundFull(s: State, steps: seq<Step>, i: nat, amount: real) {
    exists k: nat, row :: ReadAt(s, steps, i, k, row) && row.consumed + amount > row.limit
  }

  /** Caller `i` once found an account with room for this amount. */
  ghost predicate FoundRoom(s: State, steps: seq<Step>, i: nat, amount: real) {
    exists k: nat, row :: ReadAt(s, steps, i, k, row) && row.consumed + amount <= row.limit
  }

  lemma ReadStays(s: State, front: seq<Step>, step: Step, i: nat, amount: real)
    ensures FoundFull(s, front, i, amount) ==> FoundFull(s, front + [step], i, amount)
    ensures FoundRoom(s, front, i, amount) ==> FoundRoom(s, front + [step], i, amount)
  {
    var steps := front + [step];
    forall k: nat, row | ReadAt(s, front, i, k, row) ensures ReadAt(s, steps, i, k, row) {
      assert steps[..k] == front[..k];
    }
  }

  /** The read a verdict rests on. */
  ghost predicate Warranted(s: State, steps: seq<Step>, i: nat, call: Call) {
    && (call.phase.ClaimDenied? || call.phase == Done(Denied) ==> FoundFull(s, steps, i, call.request.amount))
    && (call.phase.Charge? || call.phase.ClaimApplied? || call.phase == Done(Granted) ==>
          FoundRoom(s, steps, i, call.request.amount))
  }

  lemma ReadWarrants(s: State, front: seq<Step>, i: nat)
    requires var t := Exec(s, front); i < |t.calls| && t.calls[i].phase.ReadFresh?
    ensures Warranted(s, front + [Run(i)], i, Next(Exec(s, front), Run(i)).calls[i])
  {
    var t, steps := Exec(s, front), front + [Run(i)];
    assert steps[..|front|] == front;
    var scope := t.calls[i].request.scope;
    if scope in t.accounts { assert ReadAt(s, steps, i, |front|, t.accounts[scope]); }
  }

  /** A verdict is only ever reached from a read, or kept. */
  lemma OthersKeepVerdicts(t: State, step: Step, i: nat)
    requires i < |t.calls| && step != Run(i)
    ensures i < |Next(t, step).calls| && Next(t, step).calls[i].request == t.calls[i].request
    ensures Next(t, step).calls[i].phase in {t.calls[i].phase, Crashed}
  {
  }

  lemma OwnVerdictFollows(t: State, i: nat)
    requires i < |t.calls| && !t.calls[i].phase.ReadFresh?
    ensures |Next(t, Run(i)).calls| == |t.calls|
    ensures var before, after := t.calls[i], Next(t, Run(i)).calls[i];
            && after.request == before.request
            && (after.phase.ClaimDenied? || after.phase == Done(Denied) ==>
                  before.phase.ClaimDenied? || before.phase == Done(Denied))
            && (after.phase.Charge? || after.phase.ClaimApplied? || after.phase == Done(Granted) ==>
                  before.phase.Charge? || before.phase.ClaimApplied? || before.phase == Done(Granted))
  {
    hide WouldExceed, Charged, BackedOut, Recorded, AppliedUnder;
  }

  lemma {:induction false} VerdictsWarranted(s: State, steps: seq<Step>, i: nat)
    requires |s.calls| <= i < |Exec(s, steps).calls|
    ensures Warranted(s, steps, i, Exec(s, steps).calls[i])
    decreases |steps|
  {
    hide Next, FoundFull, FoundRoom;
    assert steps != [];
    var front, step := steps[..|steps| - 1], steps[|steps| - 1];
    var t := Exec(s, front);
    assert steps == front + [step];
    if i < |t.calls| {
      VerdictsWarranted(s, front, i);
      if step == Run(i) && t.calls[i].phase.ReadFresh? {
        hide Warranted;
        ReadWarrants(s, front, i);
      } else {
        if step == Run(i) { OwnVerdictFollows(t, i); } else { OthersKeepVerdicts(t, step, i); }
        ReadStays(s, front, step, i, t.calls[i].request.amount);
      }
    } else {
      NewcomerLooks(t, step, i);
    }
  }

  lemma NewcomerLooks(t: State, step: Step, i: nat)
    requires |t.calls| <= i < |Next(t, step).calls|
    ensures Next(t, step).calls[i].phase == LookUpEvent
  {
  }

  /** Verdicts are deserved. Over every run, whatever the others do: a caller that joined
      it and was denied once read its account and found `consumed + amount` above the
      limit; one that was granted found it within the limit. */
  lemma VerdictsDeserved(s: State, steps: seq<Step>, i: nat)
    requires |s.calls| <= i < |Exec(s, steps).calls|
    ensures var t := Exec(s, steps);
            var amount := t.calls[i].request.amount;
            && (t.calls[i].phase == Done(Denied) ==>
                  exists k: nat, row :: ReadAt(s, steps, i, k, row) && row.consumed + amount > row.limit)
            && (t.calls[i].phase == Done(Granted) ==>
                  exists k: nat, row :: ReadAt(s, steps, i, k, row) && row.consumed + amount <= row.limit)
  {
    VerdictsWarranted(s, steps, i);
  }

  /** `n` steps of caller `i`, with nobody in between. */
  function Alone(s: State, i: nat, n: nat): State {
    if n == 0 then s else Next(Alone(s, i, n - 1), Run(i))
  }

  /** Where an undisturbed caller ends, in terms of what it finds: an earlier verdict
      under its key, no account and no default limit, or an account, opened with the
      default limit if there is none, with or without room for the amount. */
  ghost predicate Decides(s: State, request: Request, t: State) {
    var i := |s.calls|;
    && |t.calls| == i + 1 && t.calls[..i] == s.calls && t.calls[i].request == request
    && if Recorded(s.events, request.key) then
         && t.calls[i].phase == Done(Replayed(AppliedUnder(s.events, request.key)))
         && t.accounts == s.accounts && t.events == s.events
       else if request.scope !in s.accounts && request.defaultLimit.None? then
         t.calls[i].phase == Done(Unlimited) && t.accounts == s.accounts && t.events == s.events
       else
         var (limit, consumed) := if request.scope in s.accounts
             then (s.accounts[request.scope].limit, s.accounts[request.scope].consumed)
             else (request.defaultLimit.value, 0.0);
         var fits := consumed + request.amount <= limit;
         && t.calls[i].phase == Done(if fits then Granted else Denied)
         && t.events == s.events + [Event(request.scope, request.key, request.amount, fits)]
         && request.scope in t.accounts && t.accounts[request.scope].limit == limit
         && t.accounts[request.scope].consumed == (if fits then consumed + request.amount else consumed)
         && (forall scope | scope != request.scope :: scope in t.accounts <==> scope in s.accounts)
         && (forall scope | scope != request.scope && scope in s.accounts :: t.accounts[scope] == s.accounts[scope])
  }

  lemma AloneFromRead(s: State, i: nat)
    requires i < |s.calls| && s.calls[i].phase == ReadFresh(0) && s.calls[i].request.scope in s.accounts
    requires !Recorded(s.events, s.calls[i].request.key)
    ensures var request, row, t := s.calls[i].request, s.accounts[s.calls[i].request.scope], Alone(s, i, 3);
            var fits := row.consumed + request.amount <= row.limit;
            && |t.calls| == |s.calls| && t.calls[i].request == request
            && (forall j | 0 <= j < |s.calls| && j != i :: t.calls[j] == s.calls[j])
            && t.calls[i].phase == Done(if fits then Granted else Denied)
            && t.events == s.events + [Event(request.scope, request.key, request.amount, fits)]
            && t.accounts == s.accounts[request.scope := if fits then Charged(row, request.amount) else row]
  {
    var request, row := s.calls[i].request, s.accounts[s.calls[i].request.scope];
    var read := Next(s, Run(i));
    assert Alone(s, i, 1) == read;
    assert Alone(s, i, 2) == Next(read, Run(i));
    assert Alone(s, i, 3) == Next(Next(read, Run(i)), Run(i));
    if row.consumed + request.amount > row.limit {
      assert read.calls[i].phase == ClaimDenied(row);
      assert s.accounts[request.scope := row] == s.accounts;
    } else {
      assert read.calls[i].phase == Charge(row, 0);
    }
  }

  lemma {:induction false} AloneAgain(s: State, i: nat, m: nat, n: nat)
    ensures Alone(Alone(s, i, m), i, n) == Alone(s, i, m + n)
  {
    hide Next;
    if n > 0 {
      AloneAgain(s, i, m, n - 1);
      assert m + n - 1 == m + (n - 1);
    }
  }

  lemma ReturnedStays(s: State, i: nat)
    requires i < |s.calls| && !Live(s.calls[i].phase)
    ensures Next(s, Run(i)) == s
  {
  }

  lemma {:induction false} AloneWhenReturned(s: State, i: nat, n: nat)
    requires i < |s.calls| && !Live(s.calls[i].phase)
    ensures Alone(s, i, n) == s
  {
    hide Next;
    if n > 0 {
      AloneWhenReturned(s, i, n - 1);
      ReturnedStays(s, i);
    }
  }

  /** From the submission to the first read of the account, where there is one. */
  lemma AloneToRead(s: State, request: Request)
    ensures var i, n := |s.calls|, if request.scope in s.accounts then 2 else 3;
            var t := Alone(Next(s, Submit(request)), i, n);
            && |t.calls| == i + 1 && t.calls[..i] == s.calls && t.calls[i].request == request && t.events == s.events
            && (if Recorded(s.events, request.key) then
                  && t.calls[i].phase == Done(Replayed(AppliedUnder(s.events, request.key)))
                  && t.accounts == s.accounts
                else if request.scope !in s.accounts && request.defaultLimit.None? then
                  t.calls[i].phase == Done(Unlimited) && t.accounts == s.accounts
                else
                  && t.calls[i].phase == ReadFresh(0)
                  && t.accounts == if request.scope in s.accounts then s.accounts
                     else s.accounts[request.scope := Account(request.defaultLimit.value, 0.0, Active, 1)])
  {
    var i, a := |s.calls|, Next(s, Submit(request));
    var b := Next(a, Run(i));
    assert Alone(a, i, 1) == b;
    assert Alone(a, i, 2) == Next(b, Run(i));
    assert Alone(a, i, 3) == Next(Next(b, Run(i)), Run(i));
  }

  lemma ReadDecides(s: State, request: Request, read: State)
    requires var i := |s.calls|;
             && |read.calls| == i + 1 && read.calls[..i] == s.calls && read.calls[i].request == request
             && read.events == s.events && !Recorded(s.events, request.key) && read.calls[i].phase == ReadFresh(0)
             && (request.scope in s.accounts || request.defaultLimit.Some?)
             && read.accounts == if request.scope in s.accounts then s.accounts
                else s.accounts[request.scope := Account(request.defaultLimit.value, 0.0, Active, 1)]
    ensures Decides(s, request, Alone(read, |s.calls|, 3)) && Alone(read, |s.calls|, 3).calls[|s.calls|].phase.Done?
  {
    AloneFromRead(read, |s.calls|);
    hide Alone, Recorded;
    var t := Alone(read, |s.calls|, 3);
    assert t.calls[..|s.calls|] == s.calls;
  }

  /** A caller that nobody disturbs is decided within six steps, and exactly as it
      should be: granted, and the counter raised by its amount, if `consumed + amount` is
      within the limit, and denied, with nothing charged, if it is not. */
  lemma UndisturbedDecides(s: State, request: Request, n: nat)
    requires n >= 6
    ensures Decides(s, request, Alone(Next(s, Submit(request)), |s.calls|, n))
  {
    hide Next, Alone, Recorded, AppliedUnder;
    var i, m := |s.calls|, if request.scope in s.accounts then 2 else 3;
    var a := Next(s, Submit(request));
    var read := Alone(a, i, m);
    AloneToRead(s, request);
    AloneAgain(a, i, m, n - m);
    if read.calls[i].phase.Done? {
      AloneWhenReturned(read, i, n - m);
    } else {
      ReadDecides(s, request, read);
      hide Decides;
      AloneAgain(read, i, 3, n - m - 3);
      AloneWhenReturned(Alone(read, i, 3), i, n - m - 3);
    }
  }

  /** Somebody was granted this key. */
  ghost predicate GrantedUnder(calls: seq<Call>, key: Key) {
    exists j | 0 <= j < |calls| :: calls[j].request.key == key && calls[j].phase == Done(Granted)
  }

  /** Whoever has returned has returned for good. */
  lemma DoneIsFinal(s: State, step: Step, j: nat)
    requires j < |s.calls| && s.calls[j].phase.Done?
    ensures j < |Next(s, step).calls| && Next(s, step).calls[j] == s.calls[j]
  {
    hide RunCaller;
    if step.Run? && step.caller < |s.calls| { OthersAsTheyWere(s, step.caller, j); }
  }

  lemma OthersAsTheyWere(s: State, i: nat, j: nat)
    requires i < |s.calls| && j < |s.calls| && (i == j ==> s.calls[j].phase.Done?)
    ensures |RunCaller(s, i).calls| == |s.calls| && RunCaller(s, i).calls[j] == s.calls[j]
  {
    hide WouldExceed, Charged, BackedOut, AppliedUnder, Recorded;
  }

  lemma GrantStays(s: State, step: Step, key: Key)
    requires GrantedUnder(s.calls, key)
    ensures GrantedUnder(Next(s, step).calls, key)
  {
    var j :| 0 <= j < |s.calls| && s.calls[j].request.key == key && s.calls[j].phase == Done(Granted);
    DoneIsFinal(s, step, j);
  }

  /** An applied event that a step adds is the grant of the caller that took it. */
  lemma NewEventIsGrant(s: State, step: Step, key: Key)
    requires AppliedUnder(Next(s, step).events, key) && !AppliedUnder(s.events, key)
    ensures GrantedUnder(Next(s, step).calls, key)
  {
    var t := Next(s, step);
    var i :| 0 <= i < |t.events| && t.events[i].key == key && t.events[i].applied;
    assert t.calls[step.caller].phase == Done(Granted) && t.calls[step.caller].request.key == key;
  }

  /** In every reachable state a key is applied exactly when a caller was granted it. */
  lemma {:induction false} AppliedIffGranted(s: State, steps: seq<Step>, key: Key)
    requires Init(s)
    ensures AppliedUnder(Exec(s, steps).events, key) <==> GrantedUnder(Exec(s, steps).calls, key)
    decreases |steps|
  {
    var t := Exec(s, steps);
    if steps != [] {
      var before, step := Exec(s, steps[..|steps| - 1]), steps[|steps| - 1];
      AppliedIffGranted(s, steps[..|steps| - 1], key);
      hide Next, Init;
      if AppliedUnder(before.events, key) {
        GrantStays(before, step, key);
      } else if AppliedUnder(t.events, key) {
        NewEventIsGrant(before, step, key);
      }
    }
    if GrantedUnder(t.calls, key) {
      var j :| 0 <= j < |t.calls| && t.calls[j].request.key == key && t.calls[j].phase == Done(Granted);
      OutcomeIsRecorded(s, steps, j);
    }
  }

  /** A denial can contradict the ledger. Over every run, a caller that was refused finds
      its key recorded as applied exactly when another caller of the same key was
      granted it; so a caller that shares its key with nobody is never contradicted. */
  lemma DenialContradictsLedgerIff(s: State, steps: seq<Step>, i: nat)
    requires Init(s) && i < |Exec(s, steps).calls| && Exec(s, steps).calls[i].phase == Done(Denied)
    ensures var t := Exec(s, steps);
            var key := t.calls[i].request.key;
            && (AppliedUnder(t.events, key) <==>
                  exists j | 0 <= j < |t.calls| && j != i ::
                      t.calls[j].request.key == key && t.calls[j].phase == Done(Granted))
            && ((forall j | 0 <= j < |t.calls| && j != i :: t.calls[j].request.key != key) ==>
                !AppliedUnder(t.events, key))
  {
    var t := Exec(s, steps);
    var key := t.calls[i].request.key;
    AppliedIffGranted(s, steps, key);
    hide Exec;
    if GrantedUnder(t.calls, key) {
      var j :| 0 <= j < |t.calls| && t.calls[j].request.key == key && t.calls[j].phase == Done(Granted);
      assert j != i;
    }
  }

  lemma ExtendRun(s: State, run: seq<Step>, step: Step)
    ensures Exec(s, run + [step]) == Next(Exec(s, run), step)
  {
    assert (run + [step])[..|run|] == run;
  }

  /** Stage `k` of a race of two callers for one key on a budget of one. */
  function Race(request: Request, k: nat): State {
    var account := Account(1.0, 0.0, Active, 1);
    var spent := Account(1.0, 1.0, Exhausted, 2);
    var slow := Call(request, ReadFresh(0), 0.0);
    var start := Call(request, LookUpEvent, 0.0);
    var event := Event(request.scope, request.key, 1.0, true);
    match k
    case 0 => State(map[request.scope := account], [], [])
    case 1 => State(map[request.scope := account], [], [start])
    case 2 => State(map[request.scope := account], [], [start, start])
    case 3 => State(map[request.scope := account], [], [start, Call(request, LookUpScope, 0.0)])
    case 4 => State(map[request.scope := account], [], [start, slow])
    case 5 => State(map[request.scope := account], [], [Call(request, LookUpScope, 0.0), slow])
    case 6 => State(map[request.scope := account], [], [slow, slow])
    case 7 => State(map[request.scope := account], [], [Call(request, Charge(account, 0), 0.0), slow])
    case 8 => State(map[request.scope := spent], [], [Call(request, ClaimApplied(account), 1.0), slow])
    case 9 => State(map[request.scope := spent], [event], [Call(request, Done(Granted), 0.0), slow])
    case 10 => State(map[request.scope := spent], [event],
                     [Call(request, Done(Granted), 0.0), Call(request, ClaimDenied(spent), 0.0)])
    case _ => State(map[request.scope := spent], [event],
                    [Call(request, Done(Granted), 0.0), Call(request, Done(Denied), 0.0)])
  }

  function RaceStep(request: Request, k: nat): Step {
    if k < 2 then Submit(request) else if k in {2, 3, 9, 10} then Run(1) else Run(0)
  }

  lemma RaceOpens(request: Request, k: nat)
    requires request.amount == 1.0 && k < 7
    ensures Next(Race(request, k), RaceStep(request, k)) == Race(request, k + 1)
  {
    var t := Next(Race(request, k), RaceStep(request, k));
    assert t.calls == Race(request, k + 1).calls;
    assert t.accounts == Race(request, k + 1).accounts;
  }

  lemma RaceCloses(request: Request, k: nat)
    requires request.amount == 1.0 && 7 <= k < 11
    ensures Next(Race(request, k), RaceStep(request, k)) == Race(request, k + 1)
  {
    var t := Next(Race(request, k), RaceStep(request, k));
    if k >= 9 {
      assert Race(request, k).events[0].key == request.key;
    }
    assert t.calls == Race(request, k + 1).calls;
    assert t.accounts == Race(request, k + 1).accounts;
    assert t.events == Race(request, k + 1).events;
  }

  lemma {:induction false} RaceRuns(request: Request, k: nat) returns (run: seq<Step>)
    requires request.amount == 1.0 && k <= 11
    ensures Exec(Race(request, 0), run) == Race(request, k)
  {
    if k == 0 {
      run := [];
    } else {
      run := RaceRuns(request, k - 1);
      ExtendRun(Race(request, 0), run, RaceStep(request, k - 1));
      if k <= 7 { RaceOpens(request, k - 1); } else { RaceCloses(request, k - 1); }
      run := run + [RaceStep(request, k - 1)];
    }
  }

  /** Two callers of one key on a budget of one: a reachable state in which the
      slow one was refused although the ledger shows the key as applied. */
  lemma RacingDenial(request: Request)
    requires request.amount == 1.0
    ensures Init(Race(request, 0))
    ensures exists run :: Exec(Race(request, 0), run) == Race(request, 11)
    ensures Race(request, 11).calls[1].phase == Done(Denied) && AppliedUnder(Race(request, 11).events, request.key)
  {
    var run := RaceRuns(request, 11);
    assert Race(request, 11).events[0].applied;
  }

  /** Own steps a caller may still need. */
  function Remaining(phase: Phase): nat {
    match phase
    case LookUpEvent => 17
    case LookUpScope => 16
    case EnsureAccount => 15
    case ReadFresh(tries) => if tries >= MAX_CAS_ATTEMPTS then 1 else 4 + 2 * (MAX_CAS_ATTEMPTS - tries)
    case Charge(_, tries) => if tries >= MAX_CAS_ATTEMPTS then 4 else 3 + 2 * (MAX_CAS_ATTEMPTS - tries)
    case ClaimDenied(_) => 1
    case ClaimApplied(_) => 3
    case BackOut(_) => 2
    case ReadWinner => 1
    case _ => 0
  }

  /** The retry loop is bounded: every own step of a live caller brings it closer
      to returning or raising, whatever the others did in between. */
  lemma CallerTerminates(s: State, i: nat)
    requires Inv(s) && i < |s.calls| && Live(s.calls[i].phase)
    ensures Remaining(Next(s, Run(i)).calls[i].phase) < Remaining(s.calls[i].phase)
  {
    assert CallInv(s, s.calls[i]);
  }

  /** A charge that comes too late changes nothing; it is tried again on the account as it now
      is, up to five times in all, and then the call raises. */
  lemma LostCharge(s: State, i: nat)
    requires i < |s.calls| && s.calls[i].phase.Charge? && s.calls[i].request.scope in s.accounts
    requires s.accounts[s.calls[i].request.scope].version != s.calls[i].phase.seen.version
    ensures var (call, t) := (s.calls[i], Next(Next(s, Run(i)), Run(i)));
            var account := s.accounts[call.request.scope];
            && t.accounts == s.accounts && t.events == s.events
            && t.calls[i].phase ==
               if call.phase.tries >= 4 then Raised
               else if account.consumed + call.request.amount > account.limit then ClaimDenied(account)
               else Charge(account, call.phase.tries + 1)
  {
  }
}
