/** One action row and the two writers that compete for it with everybody else's:
    the executor's upsert loop and the retry authorization. */
module RowStore {
  import opened Domain

  /** `payload` stands for the columns the guards do not look at. */
  datatype Row = Row(status: ActionStatus, retryCount: nat, maxRetries: nat, payload: nat, version: nat)

  /** What a caller wants the row to say. */
  datatype Target = Target(status: ActionStatus, retryCount: nat, maxRetries: nat, payload: nat)

  /** The monotonic-progress guard. */
  predicate LeavesAlone(row: Row, target: Target) { Outranks(row.status, target.status) }

  predicate Retryable(row: Row) {
    RetrySource(row.status) && row.retryCount < row.maxRetries
  }

  /** What others may do to the row between two of a caller's repository calls. A
      guarded write takes effect only on the row version its guard was evaluated on. */
  datatype Write = Upsert(target: Target) | Retry | Patch(payload: nat)

  function Written(target: Target, version: nat): Row {
    Row(target.status, target.retryCount, target.maxRetries, target.payload, version)
  }

  /** The row after somebody's write, or `None` if it has no effect. */
  function Effect(row: Option<Row>, write: Write): Option<Row> {
    match write
    case Upsert(target) =>
      if row.None? then Some(Written(target, 1))
      else if LeavesAlone(row.value, target) then None
      else Some(Written(target, row.value.version + 1))
    case Retry =>
      if row.Some? && Retryable(row.value)
      then Some(row.value.(status := Validated, retryCount := row.value.retryCount + 1,
                           version := row.value.version + 1))
      else None
    case Patch(payload) =>
      if row.Some? then Some(row.value.(payload := payload, version := row.value.version + 1)) else None
  }

  /** One write further: a version later, and unless it is an authorized retry never
      back on the happy path nor over a terminal status. */
  predicate Follows(row: Row, next: Row) {
    && next.version == row.version + 1
    && ((Retryable(row)
         && next == row.(status := Validated, retryCount := row.retryCount + 1, version := row.version + 1))
        || ((Terminal(row.status) ==> next.status == row.status)
            && (!Terminal(next.status) ==> HappyRank(row.status) <= HappyRank(next.status))))
  }

  /** Every version the row has had. */
  predicate Chain(history: seq<Row>) {
    && (forall i | 0 < i < |history| :: Follows(history[i - 1], history[i]))
    && (history != [] ==> history[0].version == 1)
  }

  lemma {:induction false} VersionsCount(history: seq<Row>, i: nat)
    requires Chain(history) && i < |history|
    ensures history[i].version == i + 1
  {
    if i > 0 {
      VersionsCount(history, i - 1);
      assert Follows(history[i - 1], history[i]);
    }
  }

  /** So a version number identifies a row, and an unchanged version an unchanged row. */
  lemma VersionIdentifies(history: seq<Row>, i: nat, j: nat)
    requires Chain(history) && i < |history| && j < |history| && history[i].version == history[j].version
    ensures history[i] == history[j]
  {
    VersionsCount(history, i);
    VersionsCount(history, j);
  }

  lemma EffectFollows(row: Option<Row>, write: Write)
    ensures Effect(row, write).Some? ==>
              if row.Some? then Follows(row.value, Effect(row, write).value) else Effect(row, write).value.version == 1
  {
  }

  /** COMPLETED, REJECTED, CANCELLED and BLOCKED are for ever, whoever writes. */
  lemma {:induction false} TerminalKept(history: seq<Row>, i: nat, j: nat)
    requires Chain(history) && i <= j < |history|
    requires Terminal(history[i].status) && history[i].status != Failed
    ensures history[j].status == history[i].status
    decreases j
  {
    if i < j {
      TerminalKept(history, i, j - 1);
      assert Follows(history[j - 1], history[j]);
    }
  }

  /** A step back: off a terminal status, or to a lower rank on the happy path. */
  predicate FellBack(row: Row, next: Row) {
    || (Terminal(row.status) && next.status != row.status)
    || (!Terminal(row.status) && !Terminal(next.status) && HappyRank(next.status) < HappyRank(row.status))
  }

  /** Only an authorized retry moves a row back, and it stays within the bound. */
  lemma FallsBackOnlyByRetry(history: seq<Row>, i: nat)
    requires Chain(history) && 0 < i < |history| && FellBack(history[i - 1], history[i])
    ensures history[i - 1].status in {Failed, Executing, Approved} && history[i].status == Validated
    ensures history[i].retryCount == history[i - 1].retryCount + 1 <= history[i].maxRetries
  {
    assert Follows(history[i - 1], history[i]);
  }

  datatype RetryError = NotEligible | BudgetExhausted | StaleVersion

  class Store {
    var row: Option<Row>
    /** What others do before each repository call to come. */
    var schedule: seq<seq<Write>>
    ghost var history: seq<Row>

    ghost predicate Valid()
      reads this
    {
      && Chain(history)
      && (row.None? <==> history == [])
      && (row.Some? ==> row.value == history[|history| - 1])
    }

    constructor (schedule: seq<seq<Write>>)
      ensures Valid() && history == []
    {
      row, this.schedule, history := None, schedule, [];
    }

    /** A write lands. */
    method Land(next: Row)
      requires Valid() && (if row.Some? then Follows(row.value, next) else next.version == 1)
      modifies this`row, this`history
      ensures Valid() && history == old(history) + [next] && row == Some(next)
    {
      row, history := Some(next), history + [next];
    }

    /** The others' turn. */
    method Others()
      requires Valid()
      modifies this
      ensures Valid() && old(history) <= history
    {
      if schedule == [] { return; }
      var writes := schedule[0];
      schedule := schedule[1..];
      for i := 0 to |writes|
        invariant Valid() && old(history) <= history
      {
        var next := Effect(row, writes[i]);
        EffectFollows(row, writes[i]);
        if next.Some? { Land(next.value); }
      }
    }

    method Get() returns (found: Option<Row>)
      requires Valid()
      modifies this
      ensures Valid() && old(history) <= history && found == row
    {
      Others();
      found := row;
    }

    /** The upsert. It returns because the target is now one of the row's versions, or
        because it left alone a row that was terminal or further on; or it gives up,
        and then at least five writes of others came between its reads and its
        writes. Every version that appears follows the one before it. */
    method UpsertActionRecord(target: Target) returns (r: Result<Row, ()>)
      requires Valid()
      modifies this
      ensures Valid() && old(history) <= history
      ensures r.Ok? ==> r.value in history
      ensures r.Ok? ==> row.Some? && (LeavesAlone(r.value, target) || Wrote(old(history), history, target))
      ensures r.Err? ==> |history| >= |old(history)| + UPSERT_MAX_ATTEMPTS
    {
      for attempt := 0 to UPSERT_MAX_ATTEMPTS
        invariant Valid() && old(history) <= history && |history| >= |old(history)| + attempt
      {
        var existing := Get();
        if existing.Some? && LeavesAlone(existing.value, target) { return Ok(existing.value); }
        ghost var seen := history;
        Others();
        if existing.None? {
          if row.None? {
            ghost var before := history;
            Land(Written(target, 1));
            assert history[|before|] == Written(target, |before| + 1);
            return Ok(row.value);
          }
          assert seen == [] && |history| > 0;
        } else {
          VersionsCount(seen, |seen| - 1);
          VersionsCount(history, |history| - 1);
          if row.value.version == existing.value.version {
            ghost var before := history;
            assert history[|seen| - 1] == existing.value;
            assert row == existing;
            Land(Written(target, existing.value.version + 1));
            assert history[|before|] == Written(target, |before| + 1);
            ghost var landed := history;
            Others();
            assert history[..|landed|] == landed && history[|before|] == Written(target, |before| + 1);
            return Ok(row.value);
          }
        }
      }
      return Err(());
    }

    /** The retry authorization, on a row its caller read earlier: authorized exactly when
        that row was eligible, had a retry left and is still the current version; and
        then the retry count is one higher and still within its bound. */
    method AuthorizeRetry(observed: Row) returns (r: Result<Row, RetryError>)
      requires Valid() && observed in history
      modifies this
      ensures Valid() && old(history) <= history
      ensures r == Err(NotEligible) <==> observed.status !in {Failed, Executing, Approved}
      ensures r == Err(BudgetExhausted) <==>
                observed.status in {Failed, Executing, Approved} && observed.retryCount >= observed.maxRetries
      ensures r.Ok? ==>
                && r.value in history && Follows(observed, r.value)
                && r.value.status == Validated && r.value.retryCount == observed.retryCount + 1 <= observed.maxRetries
                && r.value.payload == observed.payload && r.value.maxRetries == observed.maxRetries
      ensures r == Err(StaleVersion) ==> Retryable(observed) && row != Some(observed)
    {
      if !RetrySource(observed.status) { return Err(NotEligible); }
      if observed.retryCount >= observed.maxRetries { return Err(BudgetExhausted); }
      ghost var i: nat :| i < |history| && history[i] == observed;
      Others();
      VersionIdentifiesLast(history, i);
      if row.value.version != observed.version { return Err(StaleVersion); }
      Land(row.value.(status := Validated, retryCount := observed.retryCount + 1, version := observed.version + 1));
      return Ok(row.value);
    }
  }

  /** One version that appeared is the target in every column, at the version it then had. */
  predicate Wrote(before: seq<Row>, after: seq<Row>, target: Target) {
    exists i | |before| <= i < |after| ::
      && after[i].version == i + 1 && after[i].status == target.status && after[i].retryCount == target.retryCount
      && after[i].maxRetries == target.maxRetries && after[i].payload == target.payload
  }

  lemma VersionIdentifiesLast(history: seq<Row>, i: nat)
    requires Chain(history) && i < |history|
    ensures history[|history| - 1].version == history[i].version ==> history[|history| - 1] == history[i]
  {
    VersionsCount(history, i);
    VersionsCount(history, |history| - 1);
  }
}
