/** `reserve_and_consume` as the imperative code it is: reads, one bounded loop of
    conditional updates, a claim and a back-out, with other callers running
    between any two repository calls. The method is proved to be a run of the
    `Ledger` machine, so every theorem about the machine holds of it. */
module BudgetStore {
  import opened Domain
  import opened Ledger

  lemma {:induction false} GrowsTransitive(s: State, t: State, u: State)
    requires Grows(s, t) && Grows(t, u)
    ensures Grows(s, u)
  {
    assert u.events[..|s.events|] == u.events[..|t.events|][..|s.events|];
  }

  lemma {:induction false} OthersLeaveMeAlone(s: State, step: Step, me: nat)
    requires Inv(s) && me < |s.calls| && step != Run(me) && step != Crash(me)
    ensures me < |Next(s, step).calls| && Next(s, step).calls[me] == s.calls[me]
  {
  }

  /** Nobody else runs. */
  ghost predicate Silent(schedule: nat -> seq<Step>) { forall k: nat :: schedule(k) == [] }

  /** The run goes on with steps of caller `me` only. */
  ghost predicate OwnSteps(before: seq<Step>, trace: seq<Step>, me: nat) {
    before <= trace && forall k | |before| <= k < |trace| :: trace[k] == Run(me)
  }

  lemma OwnGrows(schedule: nat -> seq<Step>, k: nat, before: seq<Step>, last: seq<Step>, trace: seq<Step>, me: nat)
    requires Silent(schedule) ==> OwnSteps(before, last, me)
    requires schedule(k) == [] ==> trace == last + [Run(me)]
    ensures Silent(schedule) ==> OwnSteps(before, trace, me)
  {
    if Silent(schedule) { assert schedule(k) == []; }
  }

  lemma OwnStart(schedule: nat -> seq<Step>, before: seq<Step>, me: nat)
    ensures Silent(schedule) ==> OwnSteps(before, before, me)
  {
  }

  lemma {:induction false} OwnRunIsAlone(s: State, trace: seq<Step>, request: Request, me: nat)
    requires OwnSteps([Submit(request)], trace, me)
    ensures Exec(s, trace) == Alone(Next(s, Submit(request)), me, |trace| - 1)
    decreases |trace|
  {
    hide Next;
    var front := trace[..|trace| - 1];
    if |trace| == 1 {
      assert front == [] && trace[0] == Submit(request);
    } else {
      assert OwnSteps([Submit(request)], front, me);
      OwnRunIsAlone(s, front, request, me);
    }
  }

  /** An undisturbed call that has returned has decided as it should. */
  lemma SilentDecides(s: State, trace: seq<Step>, request: Request)
    requires OwnSteps([Submit(request)], trace, |s.calls|)
    requires var t := Exec(s, trace); |s.calls| < |t.calls| && !Live(t.calls[|s.calls|].phase)
    ensures Decides(s, request, Exec(s, trace))
  {
    hide Next, Alone, Decides;
    var me, n := |s.calls|, |trace| - 1;
    OwnRunIsAlone(s, trace, request, me);
    AloneAgain(Next(s, Submit(request)), me, n, 6);
    AloneWhenReturned(Exec(s, trace), me, 6);
    UndisturbedDecides(s, request, n + 6);
  }

  /** The machine's charge, as the code makes it: over the row the caller has read. */
  lemma ChargeIs(s: State, me: nat, request: Request, seen: Account, tries: nat)
    requires Inv(s) && me < |s.calls| && s.calls[me] == Call(request, Charge(seen, tries), 0.0)
    ensures var scope := request.scope;
            var ok := scope in s.accounts && s.accounts[scope].version == seen.version;
            && (ok ==> s.accounts[scope].limit == seen.limit)
            && Next(s, Run(me)) ==
               if ok then State(s.accounts[scope := Charged(seen, request.amount)], s.events,
                                s.calls[me := Call(request, ClaimApplied(seen), request.amount)])
               else s.(calls := s.calls[me := Call(request, ReadFresh(tries + 1), 0.0)])
  {
    assert CallInv(s, s.calls[me]);
    hide Inv;
  }

  class Store {
    var accounts: map<Scope, Account>
    var events: seq<Event>
    var calls: seq<Call>  // every caller's position

    constructor (accounts: map<Scope, Account>)
      requires forall scope | scope in accounts :: accounts[scope].consumed == 0.0
      ensures this.accounts == accounts && Init(Now()) && Inv(Now())
    {
      this.accounts, events, calls := accounts, [], [];
      new;
      InitInv(Now());
    }

    function Now(): State
      reads this
    {
      State(accounts, events, calls)
    }

    /** The conditional UPDATE. */
    method UpdateIfVersionMatches(scope: Scope, expected: nat, consumed: real, status: AccountStatus) returns (ok: bool)
      modifies this`accounts
      ensures ok == (scope in old(accounts) && old(accounts)[scope].version == expected)
      ensures accounts == if ok
                          then old(accounts)[scope := Account(old(accounts)[scope].limit, consumed, status,
                                                              expected + 1)]
                          else old(accounts)
    {
      ok := scope in accounts && accounts[scope].version == expected;
      if ok {
        accounts := accounts[scope := Account(accounts[scope].limit, consumed, status, expected + 1)];
      }
    }

    /** The unique INSERT; false when the key is already recorded. */
    method Claim(event: Event) returns (ok: bool)
      modifies this`events
      ensures ok == !Recorded(old(events), event.key)
      ensures events == if ok then old(events) + [event] else old(events)
    {
      ok := !Recorded(events, event.key);
      if ok {
        events := events + [event];
      }
    }

    /** Get-or-create; an existing row keeps its limit. */
    method Ensure(scope: Scope, limit: real)
      modifies this`accounts
      ensures accounts == if scope in old(accounts) then old(accounts)
                          else old(accounts)[scope := Account(limit, 0.0, Active, 1)]
    {
      if scope !in accounts {
        accounts := accounts[scope := Account(limit, 0.0, Active, 1)];
      }
    }

    /** Other callers run `steps`; anything addressed to caller `me` is skipped. */
    method Others(me: nat, steps: seq<Step>, ghost start: State, ghost before: seq<Step>)
      returns (ghost trace: seq<Step>)
      requires Inv(Now()) && me < |calls| && Now() == Exec(start, before)
      modifies this
      ensures Inv(Now()) && Grows(old(Now()), Now()) && Now() == Exec(start, trace)
      ensures me < |calls| && calls[me] == old(calls[me])
      ensures steps == [] ==> trace == before
    {
      trace := before;
      for k := 0 to |steps|
        invariant Inv(Now()) && Grows(old(Now()), Now()) && Now() == Exec(start, trace)
        invariant me < |calls| && calls[me] == old(calls[me])
        invariant k == 0 ==> trace == before
      {
        if steps[k] != Run(me) && steps[k] != Crash(me) {
          ghost var s := Now();
          var t := Next(Now(), steps[k]);
          accounts, events, calls := t.accounts, t.events, t.calls;
          StepKeepsInv(s, steps[k]);
          StepGrows(s, steps[k]);
          OthersLeaveMeAlone(s, steps[k], me);
          GrowsTransitive(old(Now()), s, Now());
          ExtendRun(start, trace, steps[k]);
          trace := trace + [steps[k]];
        }
      }
    }

    /** Records where this caller now stands and what it holds. */
    method MoveTo(me: nat, phase: Phase, held: real)
      requires me < |calls|
      modifies this`calls
      ensures calls == old(calls)[me := old(calls)[me].(phase := phase, held := held)]
    {
      calls := calls[me := calls[me].(phase := phase, held := held)];
    }

    /** This caller is at `call`, and the store is where `trace` leads from `start`. */
    ghost predicate Stands(me: nat, call: Call, start: State, trace: seq<Step>)
      reads this
    {
      Inv(Now()) && Now() == Exec(start, trace) && me < |calls| && calls[me] == call
    }

    /** This caller has returned `result`, at the end of the run `trace`. */
    ghost predicate Ends(me: nat, request: Request, result: Option<Outcome>, start: State, trace: seq<Step>)
      reads this
    {
      && Inv(Now()) && Now() == Exec(start, trace)
      && me < |calls| && calls[me].request == request
      && calls[me].phase == if result.Some? then Done(result.value) else Raised
    }

    /** The code's last database operation was the machine's step of caller `me`. */
    ghost method Stepped(s: State, me: nat, start: State, before: seq<Step>) returns (trace: seq<Step>)
      requires Inv(s) && s == Exec(start, before) && me < |s.calls|
      requires Now() == Next(s, Run(me))
      ensures Inv(Now()) && Now() == Exec(start, trace) && trace == before + [Run(me)]
    {
      StepKeepsInv(s, Run(me));
      ExtendRun(start, before, Run(me));
      trace := before + [Run(me)];
    }

    method FindEvent(me: nat, request: Request, others: seq<Step>, ghost start: State, ghost before: seq<Step>)
      returns (recorded: Option<bool>, ghost trace: seq<Step>)
      requires Stands(me, Call(request, LookUpEvent, 0.0), start, before)
      modifies this
      ensures Stands(me, Call(request, if recorded.Some? then Done(Replayed(recorded.value)) else LookUpScope, 0.0),
                     start, trace)
      ensures others == [] ==> trace == before + [Run(me)]
    {
      trace := Others(me, others, start, before);
      ghost var s := Now();
      if Recorded(events, request.key) {
        recorded := Some(AppliedUnder(events, request.key));
        MoveTo(me, Done(Replayed(recorded.value)), 0.0);
      } else {
        recorded := None;
        MoveTo(me, LookUpScope, 0.0);
      }
      trace := Stepped(s, me, start, trace);
    }

    method FindAccount(me: nat, request: Request, others: seq<Step>, ghost start: State, ghost before: seq<Step>)
      returns (found: bool, ghost trace: seq<Step>)
      requires Stands(me, Call(request, LookUpScope, 0.0), start, before)
      modifies this
      ensures Stands(me, Call(request, if found then ReadFresh(0)
                                       else if request.defaultLimit.None? then Done(Unlimited) else EnsureAccount, 0.0),
                     start, trace)
      ensures others == [] ==> trace == before + [Run(me)]
    {
      trace := Others(me, others, start, before);
      ghost var s := Now();
      found := request.scope in accounts;
      MoveTo(me, if found then ReadFresh(0) else if request.defaultLimit.None? then Done(Unlimited)
             else EnsureAccount, 0.0);
      trace := Stepped(s, me, start, trace);
    }

    method OpenAccount(me: nat, request: Request, others: seq<Step>, ghost start: State, ghost before: seq<Step>)
      returns (ghost trace: seq<Step>)
      requires request.defaultLimit.Some? && Stands(me, Call(request, EnsureAccount, 0.0), start, before)
      modifies this
      ensures Stands(me, Call(request, ReadFresh(0), 0.0), start, trace)
      ensures others == [] ==> trace == before + [Run(me)]
    {
      trace := Others(me, others, start, before);
      ghost var s := Now();
      Ensure(request.scope, request.defaultLimit.value);
      MoveTo(me, ReadFresh(0), 0.0);
      trace := Stepped(s, me, start, trace);
    }

    method ReadAccount(me: nat, request: Request, tries: nat, others: seq<Step>, ghost start: State,
                       ghost before: seq<Step>)
      returns (seen: Account, ghost trace: seq<Step>)
      requires tries < MAX_CAS_ATTEMPTS && Stands(me, Call(request, ReadFresh(tries), 0.0), start, before)
      modifies this
      ensures Stands(me,
                     Call(request, if WouldExceed(seen, request.amount) then ClaimDenied(seen)
                          else Charge(seen, tries), 0.0),
                     start, trace)
      ensures others == [] ==> trace == before + [Run(me)]
    {
      trace := Others(me, others, start, before);
      ghost var s := Now();
      assert CallInv(s, calls[me]);
      seen := accounts[request.scope];
      MoveTo(me, if WouldExceed(seen, request.amount) then ClaimDenied(seen) else Charge(seen, tries), 0.0);
      trace := Stepped(s, me, start, trace);
    }

    method RecordDenial(me: nat, request: Request, seen: Account, others: seq<Step>, ghost start: State,
                        ghost before: seq<Step>)
      returns (ghost trace: seq<Step>)
      requires Stands(me, Call(request, ClaimDenied(seen), 0.0), start, before)
      modifies this
      ensures Stands(me, Call(request, Done(Denied), 0.0), start, trace)
      ensures others == [] ==> trace == before + [Run(me)]
    {
      trace := Others(me, others, start, before);
      ghost var s := Now();
      var _ := Claim(Event(request.scope, request.key, request.amount, false));
      MoveTo(me, Done(Denied), 0.0);
      trace := Stepped(s, me, start, trace);
    }

    method TryCharge(me: nat, request: Request, seen: Account, tries: nat, others: seq<Step>,
                     ghost start: State, ghost before: seq<Step>)
      returns (ok: bool, ghost trace: seq<Step>)
      requires Stands(me, Call(request, Charge(seen, tries), 0.0), start, before)
      modifies this
      ensures Stands(me, if ok then Call(request, ClaimApplied(seen), request.amount)
                         else Call(request, ReadFresh(tries + 1), 0.0), start, trace)
      ensures others == [] ==> trace == before + [Run(me)]
    {
      trace := Others(me, others, start, before);
      ghost var s := Now();
      ChargeIs(s, me, request, seen, tries);
      hide Next, Inv;
      var consumed := seen.consumed + request.amount;
      ok := UpdateIfVersionMatches(request.scope, seen.version, consumed,
                                   if consumed >= seen.limit then Exhausted else Active);
      if ok {
        MoveTo(me, ClaimApplied(seen), request.amount);
      } else {
        MoveTo(me, ReadFresh(tries + 1), 0.0);
      }
      trace := Stepped(s, me, start, trace);
    }

    method TryClaim(me: nat, request: Request, seen: Account, others: seq<Step>, ghost start: State,
                    ghost before: seq<Step>)
      returns (ok: bool, ghost trace: seq<Step>)
      requires Stands(me, Call(request, ClaimApplied(seen), request.amount), start, before)
      modifies this
      ensures Stands(me, if ok then Call(request, Done(Granted), 0.0) else Call(request, BackOut(seen), request.amount),
                     start, trace)
      ensures others == [] ==> trace == before + [Run(me)]
    {
      trace := Others(me, others, start, before);
      ghost var s := Now();
      ok := Claim(Event(request.scope, request.key, request.amount, true));
      if ok {
        MoveTo(me, Done(Granted), 0.0);
      } else {
        MoveTo(me, BackOut(seen), request.amount);
      }
      trace := Stepped(s, me, start, trace);
    }

    method Undo(me: nat, request: Request, seen: Account, others: seq<Step>, ghost start: State,
                ghost before: seq<Step>)
      returns (ok: bool, ghost trace: seq<Step>)
      requires Stands(me, Call(request, BackOut(seen), request.amount), start, before)
      modifies this
      ensures Stands(me, Call(request, ReadWinner, if ok then 0.0 else request.amount), start, trace)
      ensures others == [] ==> trace == before + [Run(me)]
    {
      trace := Others(me, others, start, before);
      ghost var s := Now();
      assert CallInv(s, calls[me]);
      ok := UpdateIfVersionMatches(request.scope, seen.version + 1, seen.consumed, seen.status);
      MoveTo(me, ReadWinner, if ok then 0.0 else request.amount);
      trace := Stepped(s, me, start, trace);
    }

    method ReplayWinner(me: nat, request: Request, held: real, others: seq<Step>, ghost start: State,
                        ghost before: seq<Step>)
      returns (applied: bool, ghost trace: seq<Step>)
      requires Stands(me, Call(request, ReadWinner, held), start, before)
      modifies this
      ensures Stands(me, Call(request, Done(Replayed(applied)), held), start, trace)
      ensures others == [] ==> trace == before + [Run(me)]
    {
      trace := Others(me, others, start, before);
      ghost var s := Now();
      applied := AppliedUnder(events, request.key);
      MoveTo(me, Done(Replayed(applied)), held);
      trace := Stepped(s, me, start, trace);
    }

    /** The consumption primitive. `schedule(k)` is what the others do before this
        caller's k-th repository call. `None` is BudgetConcurrencyError. The whole
        call is a run of the machine in which this caller is number |old(calls)|, its
        verdict rests on a read of the account that warrants it, and a call that nobody
        disturbs decides as it should. */
    method ReserveAndConsume(request: Request, schedule: nat -> seq<Step>)
      returns (result: Option<Outcome>, ghost trace: seq<Step>)
      requires Inv(Now())
      modifies this
      ensures Ends(|old(calls)|, request, result, old(Now()), trace)
      ensures result == Some(Denied) ==>
                exists k: nat, row :: ReadAt(old(Now()), trace, |old(calls)|, k, row)
                                      && row.consumed + request.amount > row.limit
      ensures result == Some(Granted) ==>
                exists k: nat, row :: ReadAt(old(Now()), trace, |old(calls)|, k, row)
                                      && row.consumed + request.amount <= row.limit
      ensures Silent(schedule) ==> result.Some? && Decides(old(Now()), request, Now())
    {
      result, trace := Consume(request, schedule);
      VerdictsDeserved(old(Now()), trace, |old(calls)|);
      if Silent(schedule) { SilentDecides(old(Now()), trace, request); }
    }

    method Consume(request: Request, schedule: nat -> seq<Step>)
      returns (result: Option<Outcome>, ghost trace: seq<Step>)
      requires Inv(Now())
      modifies this
      ensures Ends(|old(calls)|, request, result, old(Now()), trace)
      ensures Silent(schedule) ==> OwnSteps([Submit(request)], trace, |old(calls)|)
    {
      var me := |calls|;
      ghost var start := Now();
      trace := Begin(request);

      var recorded;
      recorded, trace := FindEvent(me, request, schedule(0), start, trace);
      if recorded.Some? {
        result := Some(Replayed(recorded.value));
        return;
      }

      var found;
      found, trace := FindAccount(me, request, schedule(1), start, trace);
      if !found {
        if request.defaultLimit.None? {
          result := Some(Unlimited);
          return;
        }
        trace := OpenAccount(me, request, schedule(2), start, trace);
      }

      result, trace := Spend(me, request, schedule, start, trace);
    }

    /** The bounded retry loop. */
    method Spend(me: nat, request: Request, schedule: nat -> seq<Step>, ghost start: State, ghost before: seq<Step>)
      returns (result: Option<Outcome>, ghost trace: seq<Step>)
      requires Stands(me, Call(request, ReadFresh(0), 0.0), start, before)
      modifies this
      ensures Ends(me, request, result, start, trace)
      ensures Silent(schedule) ==> OwnSteps(before, trace, me)
    {
      var tries := 0;
      trace := before;
      while tries < MAX_CAS_ATTEMPTS
        invariant tries <= MAX_CAS_ATTEMPTS
        invariant Stands(me, Call(request, ReadFresh(tries), 0.0), start, trace)
        invariant Silent(schedule) ==> OwnSteps(before, trace, me)
      {
        result, trace := Attempt(me, request, tries, schedule, start, trace);
        if result.Some? {
          return;
        }
        tries := tries + 1;
      }
      trace := GiveUp(me, request, start, trace);
      result := None;
    }

    /** One pass of the loop; `None` is a lost race for the account. */
    method Attempt(me: nat, request: Request, tries: nat, schedule: nat -> seq<Step>, ghost start: State,
                   ghost before: seq<Step>)
      returns (result: Option<Outcome>, ghost trace: seq<Step>)
      requires tries < MAX_CAS_ATTEMPTS && Stands(me, Call(request, ReadFresh(tries), 0.0), start, before)
      modifies this
      ensures result.Some? ==> Ends(me, request, result, start, trace)
      ensures result.None? ==> Stands(me, Call(request, ReadFresh(tries + 1), 0.0), start, trace)
      ensures Silent(schedule) ==> OwnSteps(before, trace, me)
    {
      hide OwnSteps, Silent, Stands, WouldExceed;
      OwnStart(schedule, before, me);
      var seen, ok;
      seen, trace := ReadAccount(me, request, tries, schedule(3 + 2 * tries), start, before);
      OwnGrows(schedule, 3 + 2 * tries, before, before, trace, me);
      ghost var last := trace;
      if WouldExceed(seen, request.amount) {
        trace := RecordDenial(me, request, seen, schedule(4 + 2 * tries), start, trace);
        OwnGrows(schedule, 4 + 2 * tries, before, last, trace, me);
        Standing(me, Call(request, Done(Denied), 0.0), start, trace);
        result := Some(Denied);
        return;
      }
      ok, trace := TryCharge(me, request, seen, tries, schedule(4 + 2 * tries), start, trace);
      OwnGrows(schedule, 4 + 2 * tries, before, last, trace, me);
      if !ok {
        result := None;
        return;
      }
      result, trace := Settle(me, request, seen, tries, schedule, start, before, trace);
    }

    /** The account is charged: claim the key, or back out and replay the winner. */
    method Settle(me: nat, request: Request, seen: Account, tries: nat, schedule: nat -> seq<Step>,
                  ghost start: State, ghost first: seq<Step>, ghost before: seq<Step>)
      returns (result: Option<Outcome>, ghost trace: seq<Step>)
      requires Stands(me, Call(request, ClaimApplied(seen), request.amount), start, before)
      requires Silent(schedule) ==> OwnSteps(first, before, me)
      modifies this
      ensures result.Some? && Ends(me, request, result, start, trace)
      ensures Silent(schedule) ==> OwnSteps(first, trace, me)
    {
      hide OwnSteps, Silent, Stands;
      var ok, applied;
      ghost var last := before;
      ok, trace := TryClaim(me, request, seen, schedule(5 + 2 * tries), start, before);
      OwnGrows(schedule, 5 + 2 * tries, first, last, trace, me);
      if ok {
        Standing(me, Call(request, Done(Granted), 0.0), start, trace);
        return Some(Granted), trace;
      }
      last := trace;
      ok, trace := Undo(me, request, seen, schedule(6 + 2 * tries), start, trace);
      OwnGrows(schedule, 6 + 2 * tries, first, last, trace, me);
      last := trace;
      var held := if ok then 0.0 else request.amount;
      applied, trace := ReplayWinner(me, request, held, schedule(7 + 2 * tries), start, trace);
      OwnGrows(schedule, 7 + 2 * tries, first, last, trace, me);
      Standing(me, Call(request, Done(Replayed(applied)), held), start, trace);
      result := Some(Replayed(applied));
    }

    /** Who stands where a call has returned has returned. */
    lemma Standing(me: nat, call: Call, start: State, trace: seq<Step>)
      requires Stands(me, call, start, trace) && call.phase.Done?
      ensures Ends(me, call.request, Some(call.phase.outcome), start, trace)
    {
    }

    method Begin(request: Request) returns (ghost trace: seq<Step>)
      requires Inv(Now())
      modifies this
      ensures Stands(|old(calls)|, Call(request, LookUpEvent, 0.0), old(Now()), trace)
      ensures trace == [Submit(request)]
    {
      ghost var start := Now();
      calls := calls + [Call(request, LookUpEvent, 0.0)];
      StepKeepsInv(start, Submit(request));
      trace := [Submit(request)];
      assert trace[..0] == [];
    }

    method GiveUp(me: nat, request: Request, ghost start: State,
                  ghost before: seq<Step>) returns (ghost trace: seq<Step>)
      requires Stands(me, Call(request, ReadFresh(MAX_CAS_ATTEMPTS), 0.0), start, before)
      modifies this
      ensures Stands(me, Call(request, Raised, 0.0), start, trace)
      ensures trace == before + [Run(me)]
    {
      ghost var s := Now();
      MoveTo(me, Raised, 0.0);
      trace := Stepped(s, me, start, before);
    }
  }
}
