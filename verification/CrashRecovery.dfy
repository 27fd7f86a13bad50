/** The executor's sequence of durable writes around one adapter call, cut off after
    any of them, and what reconciliation makes of the remains. */
module CrashRecovery {
  import opened Domain
  import opened Reconcile
  import O = Orchestrator

  /** What the adapter does when it is executed: its verdict and the world after. */
  datatype Call = Call(success: bool, effects: Effects)

  datatype World = World(db: Db, effects: Effects, executions: nat)

  function Put(db: Db, status: ActionStatus): Db
    requires db.row.Some?
  {
    db.(row := Some(db.row.value.(status := status, version := db.row.value.version + 1)))
  }

  /** Claim the attempt, mark it started, go to EXECUTING: `j` of these three. */
  function AfterClaim(db: Db, tool: string, j: nat): Db
    requires db.row.Some?
  {
    if j == 0 then db
    else if j == 1 then db.(attempts := db.attempts + [Attempt(tool, Claimed)])
    else
      var started := db.(attempts := db.attempts + [Attempt(tool, Started)]);
      if j == 2 then started else Put(started, Executing)
  }

  /** Execute the adapter, store its result, mark the attempt, move the row: `j` of
      these four. */
  function AfterCall(world: World, n: nat, call: Call, j: nat): World
    requires world.db.row.Some? && n < |world.db.attempts|
  {
    if j == 0 then world
    else
      var called := World(world.db, call.effects, world.executions + 1);
      var stored := world.db.(results := world.db.results[n := call.success]);
      var marked := Mark(stored, n, if call.success then AttemptSucceeded else AttemptFailed);
      if j == 1 then called
      else if j == 2 then called.(db := stored)
      else if j == 3 then called.(db := marked)
      else called.(db := Put(marked, if call.success then ExecutionSucceeded else Failed))
  }

  /** VERIFYING, mark, store the verification, mark, VERIFIED, COMPLETED: `j` of these
      six; a failed verification ends at the fifth. */
  function AfterVerification(db: Db, n: nat, passed: bool, j: nat): Db
    requires db.row.Some? && n < |db.attempts|
  {
    if j == 0 then db
    else
      var verifying := Put(db, Verifying);
      var checking := Mark(verifying, n, AttemptVerifying);
      var stored := checking.(verifications := db.verifications[n := passed]);
      var marked := Mark(stored, n, if passed then AttemptVerified else AttemptVerificationFailed);
      if j == 1 then verifying
      else if j == 2 then checking
      else if j == 3 then stored
      else if j == 4 then marked
      else if !passed then Put(marked, Failed)
      else if j == 5 then Put(marked, Verified)
      else Put(Put(marked, Verified), Completed)
  }

  /** The world as a crash after `k` of the thirteen steps leaves it. */
  function Crashed(world: World, tool: string, call: Call, passed: bool, k: nat): World
    requires world.db.row.Some?
  {
    var n := |world.db.attempts|;
    var claimed := world.(db := AfterClaim(world.db, tool, k));
    if k <= 3 then claimed
    else
      var called := AfterCall(claimed, n, call, k - 3);
      if k <= 7 || !call.success then called
      else called.(db := AfterVerification(called.db, n, passed, k - 7))
  }

  class Executor {
    var db: Db
    var effects: Effects
    var executions: nat
    var stepsLeft: nat

    constructor (world: World, stepsLeft: nat)
      ensures State() == world && this.stepsLeft == stepsLeft
    {
      db, effects, executions, this.stepsLeft := world.db, world.effects, world.executions, stepsLeft;
    }

    function State(): World
      reads this
    {
      World(db, effects, executions)
    }

    /** The process dies when a step is due and none is left. */
    method Survives() returns (alive: bool)
      modifies this`stepsLeft
      ensures alive <==> old(stepsLeft) > 0
      ensures stepsLeft == if alive then old(stepsLeft) - 1 else 0
    {
      alive := stepsLeft > 0;
      if alive { stepsLeft := stepsLeft - 1; }
    }

    method Claim(tool: string) returns (alive: bool)
      requires db.row.Some?
      modifies this`db, this`stepsLeft
      ensures db == AfterClaim(old(db), tool, old(stepsLeft))
      ensures alive <==> old(stepsLeft) >= 3
      ensures alive ==> stepsLeft == old(stepsLeft) - 3
    {
      var n := |db.attempts|;
      alive := Survives();
      if !alive { return; }
      db := db.(attempts := db.attempts + [Attempt(tool, Claimed)]);
      alive := Survives();
      if !alive { return; }
      db := Mark(db, n, Started);
      assert db.attempts == old(db.attempts) + [Attempt(tool, Started)];
      alive := Survives();
      if !alive { return; }
      db := Put(db, Executing);
    }

    method Perform(n: nat, call: Call) returns (alive: bool)
      requires db.row.Some? && n < |db.attempts|
      modifies this
      ensures State() == AfterCall(old(State()), n, call, old(stepsLeft))
      ensures alive <==> old(stepsLeft) >= 4
      ensures alive ==> stepsLeft == old(stepsLeft) - 4
    {
      alive := Survives();
      if !alive { return; }
      effects, executions := call.effects, executions + 1;
      alive := Survives();
      if !alive { return; }
      db := db.(results := db.results[n := call.success]);
      alive := Survives();
      if !alive { return; }
      db := Mark(db, n, if call.success then AttemptSucceeded else AttemptFailed);
      alive := Survives();
      if !alive { return; }
      db := Put(db, if call.success then ExecutionSucceeded else Failed);
    }

    /** The executor from its claim on; `call` is what the adapter will do and `passed`
        what its verification will say. It leaves `Crashed` at the step it dies at. */
    method ExecuteClaimed(tool: string, call: Call, passed: bool)
      requires db.row.Some?
      modifies this
      ensures State() == Crashed(old(State()), tool, call, passed, old(stepsLeft))
    {
      var n := |db.attempts|;
      var alive := Claim(tool);
      if !alive { return; }
      alive := Perform(n, call);
      if !alive || !call.success { return; }
      FinishVerification(n, passed);
    }

    /** The verification half. */
    method FinishVerification(n: nat, passed: bool)
      requires db.row.Some? && n < |db.attempts|
      modifies this`db, this`stepsLeft
      ensures db == AfterVerification(old(db), n, passed, old(stepsLeft))
    {
      var alive := Survives();
      if !alive { return; }
      db := Put(db, Verifying);
      alive := Survives();
      if !alive { return; }
      db := Mark(db, n, AttemptVerifying);
      alive := Survives();
      if !alive { return; }
      db := db.(verifications := db.verifications[n := passed]);
      alive := Survives();
      if !alive { return; }
      db := Mark(db, n, if passed then AttemptVerified else AttemptVerificationFailed);
      alive := Survives();
      if !alive { return; }
      db := Put(db, if passed then Verified else Failed);
      if !passed { return; }
      alive := Survives();
      if !alive { return; }
      db := Put(db, Completed);
    }
  }

  /** The status the row has after `k` steps. */
  function StatusAfter(before: ActionStatus, success: bool, passed: bool, k: nat): ActionStatus {
    if k < 3 then before
    else if k < 7 then Executing
    else if !success then Failed
    else if k < 8 then ExecutionSucceeded
    else if k < 12 then Verifying
    else if !passed then Failed
    else if k < 13 then Verified
    else Completed
  }

  /** How many of the first `k` steps write the row. */
  function RowWrites(success: bool, passed: bool, k: nat): nat {
    if k < 3 then 0
    else if k < 7 then 1
    else if !success || k < 8 then 2
    else if k < 12 then 3
    else if !passed || k < 13 then 4
    else 5
  }

  /** The statuses along the crash points are the hops of the dispatch model, one for
      each write of the row. */
  lemma CrashPointsAreHops(gate: ActionStatus, env: O.Env, k: nat)
    ensures var hops := [gate] + O.Executed(env);
            var writes := RowWrites(env.executed, env.verified, k);
            writes < |hops| && StatusAfter(gate, env.executed, env.verified, k) == hops[writes]
  {
  }

  lemma ClaimRemains(db: Db, tool: string, j: nat)
    requires db.row.Some? && j > 0
    ensures var after, n := AfterClaim(db, tool, j), |db.attempts|;
            && after.row.Some? && after.row.value.status == (if j < 3 then db.row.value.status else Executing)
            && |after.attempts| == n + 1 && after.attempts[n].tool == tool
            && after.results == db.results && after.verifications == db.verifications
  {
  }

  lemma CallRemains(world: World, n: nat, call: Call, j: nat)
    requires world.db.row.Some? && n < |world.db.attempts| && n !in world.db.results && j > 0
    ensures var after := AfterCall(world, n, call, j);
            && after.db.row.Some?
            && after.db.row.value.status ==
               (if j < 4 then world.db.row.value.status else if call.success then ExecutionSucceeded else Failed)
            && |after.db.attempts| == |world.db.attempts| && after.db.attempts[n].tool == world.db.attempts[n].tool
            && (n in after.db.results <==> j >= 2) && (j >= 2 ==> after.db.results[n] == call.success)
            && after.db.verifications == world.db.verifications
            && after.effects == call.effects && after.executions == world.executions + 1
  {
  }

  lemma VerificationRemains(db: Db, n: nat, passed: bool, j: nat)
    requires db.row.Some? && n < |db.attempts| && n !in db.verifications && j > 0
    ensures var after := AfterVerification(db, n, passed, j);
            && after.row.Some?
            && after.row.value.status == (if j < 5 then Verifying else if !passed then Failed
                                          else if j == 5 then Verified else Completed)
            && |after.attempts| == |db.attempts| && after.attempts[n].tool == db.attempts[n].tool
            && after.results == db.results
            && (n in after.verifications <==> j >= 3) && (j >= 3 ==> after.verifications[n] == passed)
  {
  }

  /** What a crash leaves, as far as reconciliation looks at it. */
  lemma Remains(world: World, tool: string, call: Call, passed: bool, k: nat)
    requires world.db.row.Some? && k > 0
    requires |world.db.attempts| !in world.db.results && |world.db.attempts| !in world.db.verifications
    ensures var after, n := Crashed(world, tool, call, passed, k), |world.db.attempts|;
            && after.db.row.Some?
            && after.db.row.value.status == StatusAfter(world.db.row.value.status, call.success, passed, k)
            && |after.db.attempts| == n + 1 && after.db.attempts[n].tool == tool
            && (n in after.db.results <==> k >= 5) && (k >= 5 ==> after.db.results[n] == call.success)
            && (n in after.db.verifications <==> k >= 10 && call.success)
            && (k >= 10 && call.success ==> after.db.verifications[n] == passed)
            && after.effects == (if k >= 4 then call.effects else world.effects)
            && after.executions == (if k >= 4 then world.executions + 1 else world.executions)
  {
    hide AfterClaim, AfterCall, AfterVerification;
    var n := |world.db.attempts|;
    var claimed := world.(db := AfterClaim(world.db, tool, k));
    ClaimRemains(world.db, tool, k);
    if k > 3 {
      CallRemains(claimed, n, call, k - 3);
      var called := AfterCall(claimed, n, call, k - 3);
      if k > 7 && call.success { VerificationRemains(called.db, n, passed, k - 7); }
    }
  }

  /** Which crash points of a run reconciliation brings to COMPLETED. With a capable
      adapter these are exactly: the effect made, or already there, but no result
      stored while EXECUTING; a result but no verification from EXECUTION_SUCCEEDED
      or VERIFYING; a passed verification at VERIFIED; and the finished run. A crash
      between storing the result and leaving EXECUTING (5, 6), or between storing
      the verification and leaving VERIFYING (10, 11), ends in human review. */
  lemma RecoverableCrashPoints(world: World, registry: Registry, tool: string, call: Call, k: nat)
    requires world.db.row.Some? && world.db.row.value.status in {PermissionChecked, ActionStatus.Approved}
    requires forall i | i in world.db.results || i in world.db.verifications :: i < |world.db.attempts|
    requires tool in registry && registry[tool].canInspect
    ensures var passed := registry[tool].verify(call.effects);
            var after := Crashed(world, tool, call, passed, k);
            k > 0 ==>
            (Completes(after.db, registry, after.effects) <==>
              || (k in {3, 4} && EffectMatches(registry[tool], after.effects) && registry[tool].verify(after.effects))
              || (k in {7, 8, 9} && call.success && passed)
              || (k >= 12 && call.success && passed))
  {
    if k > 0 {
      assert |world.db.attempts| !in world.db.results && |world.db.attempts| !in world.db.verifications;
      Remains(world, tool, call, registry[tool].verify(call.effects), k);
      hide Crashed, EffectMatches;
    }
  }

  /** Crash after `k` steps, then reconcile any number of times: the action ends
      COMPLETED exactly if the crash point is one of those. */
  lemma RecoveredIff(world: World, registry: Registry, tool: string, call: Call, k: nat, times: nat)
    requires world.db.row.Some? && world.db.row.value.status in {PermissionChecked, ActionStatus.Approved}
    requires forall i | i in world.db.results || i in world.db.verifications :: i < |world.db.attempts|
    requires InSequence(world.db) && tool in registry && registry[tool].canInspect && k > 0 && times > 0
    ensures var passed := registry[tool].verify(call.effects);
            var after := Crashed(world, tool, call, passed, k);
            IsCompleted(Repeated(after.db, registry, after.effects, times)) <==>
              || (k in {3, 4} && EffectMatches(registry[tool], after.effects) && registry[tool].verify(after.effects))
              || (k in {7, 8, 9} && call.success && passed)
              || (k >= 12 && call.success && passed)
  {
    var after := Crashed(world, tool, call, registry[tool].verify(call.effects), k);
    RecoverableCrashPoints(world, registry, tool, call, k);
    CrashedInSequence(world, tool, call, registry[tool].verify(call.effects), k);
    hide Crashed, EffectMatches, Completes;
    RepeatingDoesNotHelp(after.db, registry, after.effects, times);
  }

  lemma CrashedInSequence(world: World, tool: string, call: Call, passed: bool, k: nat)
    requires world.db.row.Some? && InSequence(world.db)
    ensures InSequence(Crashed(world, tool, call, passed, k).db)
  {
  }
}
