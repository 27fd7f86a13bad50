/** Replanning: a FAILED action is replaced, its dependents are rewired, and the plan
    is re-frozen, in a sequence of separate durable writes. */
module Replan {
  import opened Domain
  import opened Graph
  import opened CycleDetection
  import H = PlanHash
  import S = PlanStatuses

  /** A row whose dependency list was too long to store is `depsCut` and cannot be read
      back. */
  datatype Row = Row(
    id: Id, sequence: nat, version: nat, status: ActionStatus, deps: seq<Id>, depsCut: bool, supersededBy: Option<Id>,
    payload: H.Payload)

  datatype ProposalStatus = Proposed | Applied | RejectedProposal | CancelledProposal

  datatype Proposal = Proposal(
    failed: Id, replacement: Id, deps: seq<Id>, payload: H.Payload, status: ProposalStatus, version: nat,
    stamped: bool, newRevision: Option<nat>)

  /** What the plan hash covers beside the actions. */
  datatype Header = Header(id: nat, policy: Option<string>)

  datatype Plan = Plan(header: Header, status: PlanStatus, version: nat, hash: H.Hash, revision: nat)

  /** `rows` are the plan's actions ordered by sequence, then id; `names` the texts of
      the ids. */
  datatype Db = Db(names: H.Names, rows: seq<Row>, plan: Plan, proposal: Option<Proposal>)

  function ActionsOf(rows: seq<Row>): seq<H.Action> {
    seq(|rows|, i requires 0 <= i < |rows| => H.Action(rows[i].id, rows[i].payload, rows[i].deps))
  }

  /** `compute_plan_hash` of the plan as loaded. */
  function HashOf(header: Header, rows: seq<Row>): H.Hash {
    H.ComputePlanHash(H.Plan(header.id, header.policy, ActionsOf(rows)))
  }

  predicate Has(rows: seq<Row>, id: Id) {
    exists i | 0 <= i < |rows| :: rows[i].id == id
  }

  /** Where `list_by_plan` puts a new row. */
  function InsertRow(rows: seq<Row>, row: Row): (r: seq<Row>)
    ensures |r| == |rows| + 1
  {
    if rows == [] || row.sequence < rows[0].sequence || (row.sequence == rows[0].sequence && row.id < rows[0].id)
    then [row] + rows
    else [rows[0]] + InsertRow(rows[1..], row)
  }

  lemma {:induction false} InsertedAt(rows: seq<Row>, row: Row) returns (k: nat)
    ensures k <= |rows| && InsertRow(rows, row) == rows[..k] + [row] + rows[k..]
  {
    if rows == [] || row.sequence < rows[0].sequence || (row.sequence == rows[0].sequence && row.id < rows[0].id) {
      k := 0;
    } else {
      var j := InsertedAt(rows[1..], row);
      k := j + 1;
      assert rows[..k] == [rows[0]] + rows[1..][..j] && rows[k..] == rows[1..][j..];
    }
  }

  /** As `list_by_plan` orders rows: by sequence, rows of one sequence by id. */
  predicate Before(a: Row, b: Row) { a.sequence < b.sequence || (a.sequence == b.sequence && a.id <= b.id) }

  predicate Ordered(rows: seq<Row>) { forall i, j | 0 <= i < j < |rows| :: Before(rows[i], rows[j]) }

  lemma OrderedFrom(first: Row, rest: seq<Row>)
    requires Ordered(rest) && (rest != [] ==> Before(first, rest[0]))
    ensures Ordered([first] + rest)
  {
    var rows := [first] + rest;
    forall i, j | 0 <= i < j < |rows| ensures Before(rows[i], rows[j]) {
      if i > 0 { assert Before(rest[i - 1], rest[j - 1]); } else if j > 1 { assert Before(rest[0], rest[j - 1]); }
    }
  }

  /** The replacement is put where `list_by_plan` will list it. */
  lemma {:induction false} InsertKeepsOrder(rows: seq<Row>, row: Row)
    requires Ordered(rows)
    ensures var r := InsertRow(rows, row);
            Ordered(r) && (r[0] == row || (rows != [] && r[0] == rows[0]))
  {
    if rows != [] {
      var (first, rest) := (rows[0], rows[1..]);
      forall i, j | 0 <= i < j < |rest| ensures Before(rest[i], rest[j]) { assert Before(rows[i + 1], rows[j + 1]); }
      InsertKeepsOrder(rest, row);
      assert Before(first, row) || Before(row, first);
      assert rest != [] ==> Before(first, rest[0]) by { if rest != [] { assert Before(rows[0], rows[1]); } }
      hide Ordered;
      if InsertRow(rows, row) == [row] + rows {
        assert rows == [first] + rest;
        if Before(row, first) { OrderedFrom(row, rows); }
      }
      if InsertRow(rows, row) == [first] + InsertRow(rest, row) && Before(first, row) {
        OrderedFrom(first, InsertRow(rest, row));
      }
    }
  }

  function NodesOf(rows: seq<Row>): seq<Node> {
    seq(|rows|, i requires 0 <= i < |rows| => Node(rows[i].id, rows[i].deps))
  }

  predicate Distinct(rows: seq<Row>) {
    forall i, j | 0 <= i < j < |rows| :: rows[i].id != rows[j].id
  }

  // -------------------------------------------------------------- proposing

  /** The plan as it would be after the replan. */
  function ProjectRow(row: Row, failed: Id, replacement: Id): Row {
    if row.id == failed || failed !in row.deps then row else row.(deps := Replaced(row.deps, failed, replacement))
  }

  function Project(rows: seq<Row>, failed: Id, replacement: Row): seq<Row> {
    seq(|rows|, i requires 0 <= i < |rows| => ProjectRow(rows[i], failed, replacement.id)) + [replacement]
  }

  /** The replacement comes last; every other action keeps its id, status and payload;
      and the graph is renamed at the failed action only: its dependents name the
      replacement instead of it, everybody else names what it named before. */
  method ProjectPostReplanActions(rows: seq<Row>, failed: Id, replacement: Row) returns (projected: seq<Row>)
    ensures projected == Project(rows, failed, replacement)
    ensures |projected| == |rows| + 1 && projected[|rows|] == replacement
    ensures forall i | 0 <= i < |rows| ::
              projected[i].id == rows[i].id && projected[i].status == rows[i].status
                  && projected[i].payload == rows[i].payload
    ensures forall i, x | 0 <= i < |rows| && rows[i].id != failed ::
              x in projected[i].deps <==>
                (x in rows[i].deps && x != failed) || (x == replacement.id && failed in rows[i].deps)
    ensures forall i | 0 <= i < |rows| && (rows[i].id == failed || failed !in rows[i].deps) :: projected[i] == rows[i]
  {
    projected := [];
    for i := 0 to |rows|
      invariant projected == Project(rows, failed, replacement)[..i]
    {
      var row := rows[i];
      if row.id == failed {
        projected := projected + [row];
      } else if failed in row.deps {
        projected := projected + [row.(deps := Replaced(row.deps, failed, replacement.id))];
      } else {
        projected := projected + [row];
      }
    }
    projected := projected + [replacement];
    forall i, x | 0 <= i < |rows| && rows[i].id != failed
      ensures x in projected[i].deps <==>
                (x in rows[i].deps && x != failed) || (x == replacement.id && failed in rows[i].deps)
    {
      RenamedAtFailed(rows[i], failed, replacement.id, x);
    }
  }

  lemma RenamedAtFailed(row: Row, failed: Id, replacement: Id, x: Id)
    requires row.id != failed
    ensures x in ProjectRow(row, failed, replacement).deps <==>
              (x in row.deps && x != failed) || (x == replacement && failed in row.deps)
  {
    var renamed := Replaced(row.deps, failed, replacement);
    if x in row.deps && x != failed {
      var i :| 0 <= i < |row.deps| && row.deps[i] == x;
      assert renamed[i] == x;
    }
    if failed in row.deps {
      var i :| 0 <= i < |row.deps| && row.deps[i] == failed;
      assert renamed[i] == replacement;
    }
  }

  datatype ReplanError = FailedActionNotFound | ActionNotFailed

  function ResolvedDeps(failed: Row, replacement: Row): seq<Id> {
    if replacement.deps != [] then replacement.deps else failed.deps
  }

  /** A proposal is REJECTED exactly when the plan it would lead to has a cycle. */
  method ProposeReplan(rows: seq<Row>, failed: Row, replacement: Row) returns (r: Result<Proposal, ReplanError>)
    ensures r == Err(FailedActionNotFound) <==> !Has(rows, failed.id)
    ensures r == Err(ActionNotFailed) <==> Has(rows, failed.id) && failed.status != Failed
    ensures r.Ok? ==>
              var projected := Project(rows, failed.id, replacement.(deps := ResolvedDeps(failed, replacement)));
              && r.value.failed == failed.id && r.value.replacement == replacement.id
              && r.value.deps == (if replacement.deps != [] then replacement.deps else failed.deps)
              && r.value.payload == replacement.payload
              && r.value.status in {Proposed, RejectedProposal}
              && (r.value.status == Proposed <==> Acyclic(SelfFree(GraphOf(NodesOf(projected)))))
  {
    if !Has(rows, failed.id) { return Err(FailedActionNotFound); }
    if failed.status != Failed { return Err(ActionNotFailed); }
    var deps := if replacement.deps != [] then replacement.deps else failed.deps;
    var projected := ProjectPostReplanActions(rows, failed.id, replacement.(deps := deps));
    var cycle := DetectDependencyCycle(NodesOf(projected));
    var status := if cycle.Some? then RejectedProposal else Proposed;
    return Ok(Proposal(failed.id, replacement.id, deps, replacement.payload, status, 1, false, None));
  }

  /** An id no action of the plan has or mentions. */
  predicate Unmentioned(rows: seq<Row>, id: Id) {
    forall i | 0 <= i < |rows| :: rows[i].id != id && id !in rows[i].deps
  }

  /** Reading the replacement as the action it replaces. */
  function Renamed(p: seq<Id>, replacement: Id, failed: Id): seq<Id> {
    seq(|p|, i requires 0 <= i < |p| => if p[i] == replacement then failed else p[i])
  }

  lemma ProjectedEdge(rows: seq<Row>, failed: nat, replacement: Row, x: Id, y: Id)
    requires Distinct(rows) && failed < |rows| && Unmentioned(rows, replacement.id)
    requires replacement.deps == rows[failed].deps
    requires Edge(GraphOf(NodesOf(Project(rows, rows[failed].id, replacement))), x, y)
    ensures Edge(GraphOf(NodesOf(rows)),
                 if x == replacement.id then rows[failed].id else x,
                 if y == replacement.id then rows[failed].id else y)
  {
    var projected := Project(rows, rows[failed].id, replacement);
    var i := GraphKeys(NodesOf(projected), x);
    var k := if i == |rows| then failed else i;
    GraphAt(NodesOf(rows), k);
  }

  /** Replacing a failed action by a fresh id that inherits its dependencies keeps an
      acyclic plan acyclic, so a default replan is never rejected. */
  lemma DefaultReplanAccepted(rows: seq<Row>, failed: nat, replacement: Row)
    requires Distinct(rows) && failed < |rows| && Unmentioned(rows, replacement.id)
    requires replacement.deps == rows[failed].deps
    requires Acyclic(GraphOf(NodesOf(rows)))
    ensures Acyclic(SelfFree(GraphOf(NodesOf(Project(rows, rows[failed].id, replacement)))))
  {
    var g := GraphOf(NodesOf(rows));
    var h := GraphOf(NodesOf(Project(rows, rows[failed].id, replacement)));
    forall p
      ensures !ClosedPath(h, p)
    {
      if ClosedPath(h, p) {
        var q := Renamed(p, replacement.id, rows[failed].id);
        forall i | 0 < i < |q| ensures Edge(g, q[i - 1], q[i]) {
          ProjectedEdge(rows, failed, replacement, p[i - 1], p[i]);
        }
        assert ClosedPath(g, q);
      }
    }
    SameEdgesSameCycles(SelfFree(h), h);
  }

  // --------------------------------------------------------------- applying

  /** The replacement as it is inserted, its texts within their bounds. */
  function ReplacementRow(names: H.Names, p: Proposal): Row {
    Row(p.replacement, 0, 1, Validated, p.deps, !H.Fits(names, p.deps), None, H.Bounded(p.payload))
  }

  /** A row once every write that concerns it is done. */
  function Settled(row: Row, p: Proposal): Row {
    if row.id == p.failed then
      if row.supersededBy.None? then row.(supersededBy := Some(p.replacement), version := row.version + 1) else row
    else if row.id != p.replacement && p.failed in row.deps then
      row.(deps := Sorted(Replaced(row.deps, p.failed, p.replacement)), version := row.version + 1)
    else row
  }

  function SettledRows(rows: seq<Row>, p: Proposal): seq<Row> {
    seq(|rows|, i requires 0 <= i < |rows| => Settled(rows[i], p))
  }

  function WithReplacement(names: H.Names, rows: seq<Row>, p: Proposal): seq<Row> {
    if Has(rows, p.replacement) then rows else InsertRow(rows, ReplacementRow(names, p))
  }

  /** The failed action marked, and nothing rewired. */
  function SupersededRow(row: Row, p: Proposal): Row { if row.id == p.failed then Settled(row, p) else row }

  function SupersededRows(rows: seq<Row>, p: Proposal): seq<Row> {
    seq(|rows|, i requires 0 <= i < |rows| => SupersededRow(rows[i], p))
  }

  /** Every dependency list can be read back. */
  predicate Readable(rows: seq<Row>) { forall i | 0 <= i < |rows| :: !rows[i].depsCut }

  predicate Revivable(status: PlanStatus) {
    status.PlanFailed? || status.Ready? || status.PlanWaitingForApproval? || status.PartiallyCompleted?
  }

  function Refrozen(plan: Plan, hash: H.Hash): Plan {
    if plan.hash == hash then plan
    else plan.(hash := hash, revision := plan.revision + 1, version := plan.version + 1)
  }

  function Revived(plan: Plan): Plan {
    if Revivable(plan.status) then plan.(status := PlanExecuting, version := plan.version + 1) else plan
  }

  function Flipped(p: Proposal): Proposal {
    if p.status == Proposed then p.(status := Applied, version := p.version + 1) else p
  }

  function Stamped(p: Proposal, revision: nat): Proposal {
    if p.stamped then p else p.(stamped := true, newRevision := Some(revision), version := p.version + 1)
  }

  predicate Live(db: Db) {
    db.proposal.Some? && (db.proposal.value.status.Proposed? || db.proposal.value.status.Applied?)
  }

  /** A proposal that is to be applied. */
  predicate Pending(db: Db) { Live(db) && db.plan.status != PlanCancelled }

  /** The replacement is there, or its inputs are short enough to store. */
  predicate Insertable(db: Db)
    requires db.proposal.Some?
  {
    var p := db.proposal.value;
    Has(db.rows, p.replacement) || p.payload.inputs.jsonChars <= H.MAX_INPUTS_JSON_CHARS
  }

  /** Nothing raises: the replacement can be inserted, and the plan then be read. */
  predicate Applies(db: Db) {
    && Pending(db) && Insertable(db)
    && Readable(WithReplacement(db.names, db.rows, db.proposal.value))
  }

  /** What the database looks like once the proposal is applied as far as it can be. */
  function Outcome(db: Db): Db {
    if !Live(db) then db
    else if db.plan.status == PlanCancelled
    then db.(proposal := Some(db.proposal.value.(status := RejectedProposal, version := db.proposal.value.version + 1)))
    else if !Insertable(db) then db
    else
      var p := db.proposal.value;
      var inserted := WithReplacement(db.names, db.rows, p);
      if !Readable(inserted) then db.(rows := SupersededRows(inserted, p)) else Closed(db, SettledRows(inserted, p))
  }

  /** The plan frozen and revived, and the proposal applied, over these rows. */
  function Closed(db: Db, rows: seq<Row>): Db
    requires db.proposal.Some?
  {
    var plan := Revived(Refrozen(db.plan, HashOf(db.plan.header, rows)));
    Db(db.names, rows, plan, Some(Stamped(Flipped(db.proposal.value), plan.revision)))
  }

  /** `Died` is no report at all: the process was cut off. */
  datatype Report =
    | Died
    | NotFound
    | Raised(error: H.PersistenceError)
    | Report(status: ProposalStatus, oldRevision: Option<nat>, newRevision: Option<nat>)

  /** The database and the number of writes the process lives to make. */
  class Store {
    var db: Db
    var writesLeft: nat

    constructor (db: Db, writesLeft: nat)
      ensures this.db == db && this.writesLeft == writesLeft
    {
      this.db, this.writesLeft := db, writesLeft;
    }

    /** One durable write, unless the process dies before it. */
    method Write(next: Db) returns (alive: bool)
      modifies this
      ensures alive <==> old(writesLeft) > 0
      ensures db == if alive then next else old(db)
    {
      if writesLeft == 0 { return false; }
      db, writesLeft := next, writesLeft - 1;
      return true;
    }

    /** Wherever it is cut off, an application has not changed what the outcome will
        be; if it is not cut off, that outcome is what the database holds. */
    method ApplyReplan() returns (report: Report)
      requires Sound(db)
      modifies this
      ensures Sound(db) && Outcome(db) == Outcome(old(db))
      ensures report != Died ==> db == Outcome(old(db)) && report == ReportOf(old(db))
      ensures report.Report? && report.status == Applied ==>
                var before := old(db).plan.status;
                db.plan.status == if before in {PlanFailed, Ready, PlanWaitingForApproval, PartiallyCompleted}
                    then PlanExecuting else before
      ensures report.Report? && report.status == RejectedProposal ==> db.plan == old(db).plan && db.rows == old(db).rows
    {
      StatusReported(db);
      if db.proposal.None? { return NotFound; }
      var p := db.proposal.value;
      if p.status.RejectedProposal? || p.status.CancelledProposal? { return Report(p.status, None, None); }
      var alive;
      if db.plan.status == PlanCancelled {
        alive := Write(db.(proposal := Some(p.(status := RejectedProposal, version := p.version + 1))));
        return if alive then Report(RejectedProposal, None, None) else Died;
      }
      alive, report := Carry(p);
      if !alive { return Died; }
    }

    /** The application proper: insertion, supersede marking, reading the plan back,
        rewiring, and the closing writes. */
    method Carry(p: Proposal) returns (alive: bool, report: Report)
      requires Applying(db, p)
      modifies this
      ensures Sound(db) && Outcome(db) == Outcome(old(db))
      ensures alive ==> db == Outcome(old(db)) && report == ReportOf(old(db))
    {
      hide Outcome, ReportOf, Readable, Has;
      report := Died;
      var oldRevision := db.plan.revision;
      if !Has(db.rows, p.replacement) {
        if p.payload.inputs.jsonChars > H.MAX_INPUTS_JSON_CHARS {
          TooLargeOutcome(db, p);
          return true, Raised(H.PayloadTooLarge);
        }
        InsertionKeepsOutcome(db);
        alive := Write(db.(rows := InsertRow(db.rows, ReplacementRow(db.names, p))));
        if !alive { return; }
      }
      alive := Supersede(p);
      if !alive { return; }
      var readable := LoadsBack();
      if !readable {
        UnreadableOutcome(db, p);
        return true, Raised(H.MalformedDependencies);
      }
      ReadableReport(db, p);
      alive := Rewire(p);
      if !alive { return; }
      alive := Finish(p);
      if !alive { return; }
      report := Report(Applied, Some(oldRevision), Some(db.plan.revision));
    }

    /** `load_plan_actions` raises at the first row it cannot read. */
    method LoadsBack() returns (readable: bool)
      ensures readable <==> Readable(db.rows)
    {
      for i := 0 to |db.rows|
        invariant forall j | 0 <= j < i :: !db.rows[j].depsCut
      {
        if db.rows[i].depsCut { return false; }
      }
      return true;
    }

    /** Restarting after every crash, however many there are and wherever they fall,
        converges: the run that finishes leaves exactly what one uncut run leaves. */
    method ApplyWithCrashes(cuts: seq<nat>) returns (report: Report)
      requires Sound(db)
      modifies this
      ensures Sound(db) && Outcome(db) == Outcome(old(db))
      ensures report != Died ==> db == Outcome(old(db))
    {
      report := Died;
      for i := 0 to |cuts|
        invariant Sound(db) && Outcome(db) == Outcome(old(db))
        invariant report != Died ==> db == Outcome(old(db))
      {
        writesLeft := cuts[i];
        report := ApplyReplan();
      }
    }

    /** Supersede marking on the failed action. */
    method Supersede(p: Proposal) returns (alive: bool)
      requires Applying(db, p) && Has(db.rows, p.replacement)
      modifies this
      ensures Applying(db, p) && Outcome(db) == Outcome(old(db)) && ReportOf(db) == ReportOf(old(db))
      ensures db.plan == old(db.plan)
      ensures alive ==> Has(db.rows, p.replacement) && Superseded(db.rows, p)
    {
      hide Outcome, Settled, ReportOf;
      for i := 0 to |db.rows|
        invariant db == old(db)
        invariant forall j | 0 <= j < i :: db.rows[j].id != p.failed
      {
        var row := db.rows[i];
        if row.id == p.failed {
          if row.supersededBy.None? {
            SupersedingKeepsOutcome(db, i);
            SettlingKeepsIds(db.rows, p, i);
            assert Settled(row, p).supersededBy.Some? by { FailedSettles(row, p); }
            alive := Write(db.(rows := db.rows[i := Settled(row, p)]));
            return;
          }
          return true;
        }
      }
      return true;
    }

    /** Dependency rewiring on every dependent action. */
    method Rewire(p: Proposal) returns (alive: bool)
      requires Applying(db, p) && Has(db.rows, p.replacement) && Superseded(db.rows, p) && Readable(db.rows)
      modifies this
      ensures Applying(db, p) && Outcome(db) == Outcome(old(db)) && db.plan == old(db.plan)
      ensures alive ==> Has(db.rows, p.replacement) && Readable(db.rows) && SettledRows(db.rows, p) == db.rows
    {
      hide Outcome, Settled, Has, Superseded, Readable;
      var loaded := db.rows;
      for i := 0 to |loaded|
        invariant |db.rows| == |loaded| && Applying(db, p) && Superseded(db.rows, p) && Has(db.rows, p.replacement)
        invariant Readable(db.rows)
        invariant Outcome(db) == Outcome(old(db)) && db.plan == old(db.plan)
        invariant forall j | 0 <= j < i :: Settled(db.rows[j], p) == db.rows[j]
        invariant forall j | i <= j < |loaded| :: db.rows[j] == loaded[j]
      {
        var row := loaded[i];
        SettledRow(row, p);
        if row.id != p.failed && row.id != p.replacement && p.failed in row.deps {
          SettlingKeepsOutcome(db, i);
          SettlingKeepsIds(db.rows, p, i);
          SettlingKeepsSuperseded(db.rows, p, i);
          SettlingKeepsReadable(db.rows, p, i);
          SettledOnce(row, p);
          alive := Write(db.(rows := db.rows[i := row.(deps := Sorted(Replaced(row.deps, p.failed, p.replacement)),
                                                       version := row.version + 1)]));
          if !alive { return; }
        } else {
          SupersededSettles(db.rows, p, i);
        }
      }
      return true;
    }

    /** Re-freezing, revival of the plan, and the proposal's own status. */
    method Finish(p: Proposal) returns (alive: bool)
      requires Applying(db, p) && Has(db.rows, p.replacement) && Readable(db.rows)
      requires SettledRows(db.rows, p) == db.rows
      modifies this
      ensures Sound(db) && Outcome(db) == Outcome(old(db))
      ensures alive ==> db == Outcome(old(db))
    {
      hide Outcome, HashOf, Has, Readable, SettledRows, Refrozen, Revived, Flipped, Stamped;
      var hash := HashOf(db.plan.header, db.rows);
      ClosingWrites(db, p);
      alive := true;
      if db.plan.hash != hash {
        alive := Write(db.(plan := Refrozen(db.plan, hash)));
        if !alive { return; }
      }
      if Revivable(db.plan.status) {
        alive := Write(db.(plan := Revived(db.plan)));
        if !alive { return; }
      }
      if p.status == Proposed {
        alive := Write(db.(proposal := Some(Flipped(p))));
        if !alive { return; }
      }
      if !db.proposal.value.stamped {
        alive := Write(db.(proposal := Some(Stamped(db.proposal.value, db.plan.revision))));
        if !alive { return; }
      }
    }
  }

  /** What an application that is not cut off reports. */
  function ReportOf(db: Db): Report {
    if db.proposal.None? then NotFound
    else if !Live(db) then Report(db.proposal.value.status, None, None)
    else if db.plan.status == PlanCancelled then Report(RejectedProposal, None, None)
    else if !Insertable(db) then Raised(H.PayloadTooLarge)
    else if !Readable(WithReplacement(db.names, db.rows, db.proposal.value)) then Raised(H.MalformedDependencies)
    else Report(Applied, Some(db.plan.revision), Some(Outcome(db).plan.revision))
  }

  /** Ids are unique and the replacement is another action than the failed one. */
  predicate Sound(db: Db) {
    && Distinct(db.rows)
    && (db.proposal.Some? ==> db.proposal.value.failed != db.proposal.value.replacement)
  }

  predicate Applying(db: Db, p: Proposal) {
    db.proposal == Some(p) && Pending(db) && p.failed != p.replacement && Distinct(db.rows)
  }

  predicate Superseded(rows: seq<Row>, p: Proposal) {
    forall i | 0 <= i < |rows| && rows[i].id == p.failed :: rows[i].supersededBy.Some?
  }

  lemma FailedSettles(row: Row, p: Proposal)
    requires row.id == p.failed
    ensures Settled(row, p).supersededBy.Some?
  {
  }

  lemma SettledRow(row: Row, p: Proposal)
    ensures row.id != p.failed && row.id != p.replacement && p.failed in row.deps ==>
              Settled(row, p) == row.(deps := Sorted(Replaced(row.deps, p.failed, p.replacement)),
                                      version := row.version + 1)
  {
  }

  lemma SupersededSettles(rows: seq<Row>, p: Proposal, i: nat)
    requires i < |rows| && Superseded(rows, p)
    requires rows[i].id == p.failed || rows[i].id == p.replacement || p.failed !in rows[i].deps
    ensures Settled(rows[i], p) == rows[i]
  {
  }

  lemma SettlingKeepsSuperseded(rows: seq<Row>, p: Proposal, i: nat)
    requires i < |rows| && Superseded(rows, p)
    ensures Superseded(rows[i := Settled(rows[i], p)], p)
  {
  }

  lemma SettlingKeepsReadable(rows: seq<Row>, p: Proposal, i: nat)
    requires i < |rows| && Readable(rows)
    ensures Readable(rows[i := Settled(rows[i], p)])
  {
  }

  /** Nothing can be inserted, and nothing is. */
  lemma TooLargeOutcome(db: Db, p: Proposal)
    requires Applying(db, p) && !Has(db.rows, p.replacement) && p.payload.inputs.jsonChars > H.MAX_INPUTS_JSON_CHARS
    ensures Outcome(db) == db && ReportOf(db) == Raised(H.PayloadTooLarge)
  {
    hide Has;
  }

  /** A row that cannot be read back ends the application after the supersede mark. */
  lemma UnreadableOutcome(db: Db, p: Proposal)
    requires Applying(db, p) && Has(db.rows, p.replacement) && Superseded(db.rows, p) && !Readable(db.rows)
    ensures Outcome(db) == db && ReportOf(db) == Raised(H.MalformedDependencies)
  {
    hide Has, Readable;
    assert SupersededRows(db.rows, p) == db.rows;
  }

  lemma ReadableReport(db: Db, p: Proposal)
    requires Applying(db, p) && Has(db.rows, p.replacement) && Readable(db.rows)
    ensures ReportOf(db) == Report(Applied, Some(db.plan.revision), Some(Outcome(db).plan.revision))
  {
    hide Has, Readable, Outcome;
  }

  /** On settled rows only the plan's and the proposal's own fields are left. */
  lemma OutcomeSettled(db: Db, p: Proposal)
    requires Pending(db) && Has(db.rows, p.replacement) && Readable(db.rows)
    requires SettledRows(db.rows, p) == db.rows
    requires db.proposal.value.failed == p.failed && db.proposal.value.replacement == p.replacement
    ensures Outcome(db) == Closed(db, db.rows)
  {
    hide Has, Readable, Closed;
    assert SettledRows(db.rows, db.proposal.value) == SettledRows(db.rows, p);
  }

  /** The four closing writes, each of them skipped where there is nothing to do,
      lead to the outcome without changing it. */
  lemma ClosingWrites(db: Db, p: Proposal)
    requires Applying(db, p) && Has(db.rows, p.replacement) && Readable(db.rows) && SettledRows(db.rows, p) == db.rows
    ensures var frozen := db.(plan := Refrozen(db.plan, HashOf(db.plan.header, db.rows)));
            var revived := frozen.(plan := Revived(frozen.plan));
            var flipped := revived.(proposal := Some(Flipped(p)));
            var stamped := flipped.(proposal := Some(Stamped(Flipped(p), flipped.plan.revision)));
            && Outcome(frozen) == Outcome(revived) == Outcome(flipped) == Outcome(stamped) == Outcome(db) == stamped
            && Sound(flipped) && Sound(stamped)
            && (db.plan.hash == HashOf(db.plan.header, db.rows) ==> frozen == db)
            && (!Revivable(frozen.plan.status) ==> revived == frozen)
            && (p.status != Proposed ==> flipped == revived)
            && (Flipped(p).stamped ==> stamped == flipped)
  {
    hide Outcome, HashOf, Has, SettledRows, Readable, Distinct;
    var frozen := db.(plan := Refrozen(db.plan, HashOf(db.plan.header, db.rows)));
    var revived := frozen.(plan := Revived(frozen.plan));
    var flipped := revived.(proposal := Some(Flipped(p)));
    var stamped := flipped.(proposal := Some(Stamped(Flipped(p), flipped.plan.revision)));
    OutcomeSettled(db, p);
    OutcomeSettled(frozen, p);
    OutcomeSettled(revived, p);
    OutcomeSettled(flipped, p);
    OutcomeSettled(stamped, p);
  }

  /** Settling a settled row changes nothing. */
  lemma SettledOnce(row: Row, p: Proposal)
    requires p.failed != p.replacement
    ensures Settled(Settled(row, p), p) == Settled(row, p)
  {
    var rewired := Replaced(row.deps, p.failed, p.replacement);
    SortedMembers(rewired, p.failed);
  }

  lemma SettlingKeepsIds(rows: seq<Row>, p: Proposal, i: nat)
    requires i < |rows|
    ensures var after := rows[i := Settled(rows[i], p)];
            && (Distinct(rows) ==> Distinct(after))
            && (forall id :: Has(rows, id) <==> Has(after, id))
  {
    var after := rows[i := Settled(rows[i], p)];
    assert forall j | 0 <= j < |rows| :: after[j].id == rows[j].id;
    forall id | Has(rows, id) ensures Has(after, id) {
      var j :| 0 <= j < |rows| && rows[j].id == id; assert after[j].id == id;
    }
    forall id | Has(after, id) ensures Has(rows, id) {
      var j :| 0 <= j < |after| && after[j].id == id; assert rows[j].id == id;
    }
  }

  lemma SettlingKeepsOutcome(db: Db, i: nat)
    requires Pending(db) && Applying(db, db.proposal.value) && Has(db.rows, db.proposal.value.replacement)
    requires Readable(db.rows) && i < |db.rows|
    ensures var p := db.proposal.value;
            var next := db.(rows := db.rows[i := Settled(db.rows[i], p)]);
            Outcome(next) == Outcome(db) && Distinct(next.rows)
  {
    var p := db.proposal.value;
    SettledOnce(db.rows[i], p);
    SettlingKeepsIds(db.rows, p, i);
    SettlingKeepsReadable(db.rows, p, i);
    assert SettledRows(db.rows[i := Settled(db.rows[i], p)], p) == SettledRows(db.rows, p);
    hide Settled, Has, Readable, HashOf;
  }

  /** The supersede mark anticipates nothing but itself, whether the plan can be read
      afterwards or not. */
  lemma SupersedingKeepsOutcome(db: Db, i: nat)
    requires Pending(db) && Applying(db, db.proposal.value) && Has(db.rows, db.proposal.value.replacement)
    requires i < |db.rows| && db.rows[i].id == db.proposal.value.failed
    ensures var p := db.proposal.value;
            var next := db.(rows := db.rows[i := Settled(db.rows[i], p)]);
            Outcome(next) == Outcome(db) && ReportOf(next) == ReportOf(db) && Distinct(next.rows)
  {
    var p := db.proposal.value;
    var marked := db.rows[i := Settled(db.rows[i], p)];
    SettledOnce(db.rows[i], p);
    SettlingKeepsIds(db.rows, p, i);
    SupersedingKeepsReadable(db.rows, p, i);
    assert SettledRows(marked, p) == SettledRows(db.rows, p);
    assert SupersededRows(marked, p) == SupersededRows(db.rows, p);
    hide Settled, Has, Readable, HashOf, SettledRows, SupersededRows;
  }

  lemma SupersedingKeepsReadable(rows: seq<Row>, p: Proposal, i: nat)
    requires i < |rows| && rows[i].id == p.failed
    ensures Readable(rows[i := Settled(rows[i], p)]) <==> Readable(rows)
  {
    var marked := rows[i := Settled(rows[i], p)];
    assert forall j | 0 <= j < |rows| :: marked[j].depsCut == rows[j].depsCut;
  }

  lemma InsertionKeepsOutcome(db: Db)
    requires Pending(db) && Applying(db, db.proposal.value) && !Has(db.rows, db.proposal.value.replacement)
    requires Insertable(db)
    ensures var p := db.proposal.value;
            var next := db.(rows := InsertRow(db.rows, ReplacementRow(db.names, p)));
            Outcome(next) == Outcome(db) && ReportOf(next) == ReportOf(db) && Distinct(next.rows)
            && Has(next.rows, p.replacement)
  {
    var p := db.proposal.value;
    var row := ReplacementRow(db.names, p);
    var k := InsertedAt(db.rows, row);
    InsertedDistinct(db.rows, k, row);
    assert InsertRow(db.rows, row)[k].id == p.replacement;
    assert Has(InsertRow(db.rows, row), p.replacement);
    hide Distinct, HashOf, SettledRows, SupersededRows, InsertRow, Readable, ReplacementRow, Has;
  }

  // ---------------------------------------------------------- the outcome

  lemma SettledRowsStable(rows: seq<Row>, p: Proposal)
    requires p.failed != p.replacement
    ensures SettledRows(SettledRows(rows, p), p) == SettledRows(rows, p)
    ensures Has(rows, p.replacement) ==> Has(SettledRows(rows, p), p.replacement)
  {
    var settled := SettledRows(rows, p);
    forall i | 0 <= i < |rows| ensures Settled(settled[i], p) == settled[i] && settled[i].id == rows[i].id {
      SettledOnce(rows[i], p);
    }
    hide Settled;
    if k :| 0 <= k < |rows| && rows[k].id == p.replacement { assert settled[k].id == p.replacement; }
  }

  lemma HasReplacement(names: H.Names, rows: seq<Row>, p: Proposal)
    ensures Has(WithReplacement(names, rows, p), p.replacement)
  {
    if !Has(rows, p.replacement) {
      var k := InsertedAt(rows, ReplacementRow(names, p));
      assert InsertRow(rows, ReplacementRow(names, p))[k].id == p.replacement;
    }
  }

  lemma SettledReadable(rows: seq<Row>, p: Proposal)
    ensures Readable(SettledRows(rows, p)) <==> Readable(rows)
    ensures Readable(SupersededRows(rows, p)) <==> Readable(rows)
  {
    assert forall i | 0 <= i < |rows| :: SettledRows(rows, p)[i].depsCut == rows[i].depsCut;
    assert forall i | 0 <= i < |rows| :: SupersededRows(rows, p)[i].depsCut == rows[i].depsCut;
  }

  /** The plan and the proposal of an outcome, in terms of its rows. */
  lemma OutcomePlan(db: Db)
    requires Applies(db)
    ensures var after := Outcome(db);
            && after.rows == SettledRows(WithReplacement(db.names, db.rows, db.proposal.value), db.proposal.value)
            && after == Closed(db, after.rows)
            && after.plan == Revived(Refrozen(db.plan, HashOf(db.plan.header, after.rows)))
            && after.proposal == Some(Stamped(Flipped(db.proposal.value), after.plan.revision))
  {
    hide HashOf, SettledRows, WithReplacement, Readable, Has;
  }

  lemma SupersededStable(rows: seq<Row>, p: Proposal)
    requires p.failed != p.replacement
    ensures SupersededRows(SupersededRows(rows, p), p) == SupersededRows(rows, p)
    ensures Has(rows, p.replacement) ==> Has(SupersededRows(rows, p), p.replacement)
  {
    var marked := SupersededRows(rows, p);
    forall i | 0 <= i < |rows| ensures SupersededRow(marked[i], p) == marked[i] && marked[i].id == rows[i].id {
      SettledOnce(rows[i], p);
    }
    hide Settled, SupersededRow;
    if k :| 0 <= k < |rows| && rows[k].id == p.replacement { assert marked[k].id == p.replacement; }
  }

  /** Applying a proposal that is already applied, or that raised, changes nothing. */
  lemma OutcomeStable(db: Db)
    requires Sound(db)
    ensures Outcome(Outcome(db)) == Outcome(db)
  {
    if Pending(db) && Insertable(db) {
      var p := db.proposal.value;
      var inserted := WithReplacement(db.names, db.rows, p);
      HasReplacement(db.names, db.rows, p);
      SettledReadable(inserted, p);
      if Readable(inserted) {
        OutcomePlan(db);
        SettledRowsStable(inserted, p);
        OutcomeSettled(Outcome(db), p);
      } else {
        SupersededStable(inserted, p);
      }
      hide Outcome, HashOf, SettledRows, SupersededRows, WithReplacement, Has, Distinct, Readable;
    }
  }

  /** An applied replan puts a plan that had stopped back to EXECUTING, and leaves every
      other status; a plan is not revived without an applied replan. */
  lemma PlanStatusAfter(db: Db)
    ensures var before, after := db.plan.status, Outcome(db).plan.status;
            && (Applies(db) && before in {PlanFailed, Ready, PlanWaitingForApproval, PartiallyCompleted} ==>
                after == PlanExecuting)
            && (Applies(db) && before in {Draft, Validating, PlanExecuting, PlanCompleted, PlanCancelled} ==>
                after == before)
            && (!Applies(db) ==> after == before)
  {
    hide HashOf, SettledRows, SupersededRows, WithReplacement, Readable, Has;
  }

  /** So a run of a plan that had stopped is orchestratable after an applied replan, and
      its guard lets it start. */
  lemma ReplannedPlanRuns(db: Db)
    requires Applies(db)
    requires db.plan.status in {PlanFailed, Ready, PlanWaitingForApproval, PartiallyCompleted, PlanExecuting}
    ensures var after := Outcome(db);
            && after.plan.status == PlanExecuting && S.Orchestratable(after.plan.status)
            && after.plan.hash == HashOf(after.plan.header, after.rows)
  {
    PlanStatusAfter(db);
    GuardSilentAfterReplan(db);
    hide Outcome, Applies, HashOf;
  }

  lemma StatusReported(db: Db)
    ensures var report := ReportOf(db);
            && (report.Report? && report.status == Applied && Live(db) ==> Applies(db))
            && (report.Report? && report.status == RejectedProposal ==>
                Outcome(db).plan == db.plan && Outcome(db).rows == db.rows)
    ensures var after := Outcome(db).plan.status;
            ReportOf(db).Report? && ReportOf(db).status == Applied ==>
              after == if db.plan.status in {PlanFailed, Ready, PlanWaitingForApproval, PartiallyCompleted}
                  then PlanExecuting else db.plan.status
  {
    PlanStatusAfter(db);
    hide HashOf, SettledRows, SupersededRows, WithReplacement, Readable, Has;
  }

  /** Exactly when an application raises, and what it then leaves: with inputs too long
      to store, everything as it was; with a dependency list too long to read back, its
      own or one that was there, a plan nobody can load any more, in which the failed
      action counts as superseded and its dependents still wait for it. The proposal
      stays as it was, and so does the plan's row. */
  lemma RaisesIff(db: Db)
    requires Sound(db) && Pending(db)
    ensures var p, after := db.proposal.value, Outcome(db);
            && (ReportOf(db).Raised? <==> !Applies(db))
            && (!Applies(db) ==> after.plan == db.plan && after.proposal == db.proposal)
            && (ReportOf(db) == Raised(H.PayloadTooLarge) <==>
                  !Has(db.rows, p.replacement) && p.payload.inputs.jsonChars > H.MAX_INPUTS_JSON_CHARS)
            && (ReportOf(db) == Raised(H.PayloadTooLarge) ==> after == db)
            && (ReportOf(db) == Raised(H.MalformedDependencies) ==>
                  && !Readable(after.rows) && Has(after.rows, p.replacement)
                  && after.rows == SupersededRows(WithReplacement(db.names, db.rows, p), p))
            && (Applies(db) ==> after.proposal.value.status == Applied && Readable(after.rows))
  {
    var p := db.proposal.value;
    var inserted := WithReplacement(db.names, db.rows, p);
    HasReplacement(db.names, db.rows, p);
    SettledReadable(inserted, p);
    SupersededStable(inserted, p);
    if Applies(db) { OutcomePlan(db); }
    hide HashOf, SettledRows, SupersededRows, WithReplacement, Has, Distinct, Readable;
  }

  /** A replacement whose dependency list is too long is one such case. */
  lemma CutReplacementRaises(db: Db)
    requires Sound(db) && Pending(db) && Insertable(db) && !Has(db.rows, db.proposal.value.replacement)
    requires !H.Fits(db.names, db.proposal.value.deps)
    ensures ReportOf(db) == Raised(H.MalformedDependencies)
  {
    var row := ReplacementRow(db.names, db.proposal.value);
    var k := InsertedAt(db.rows, row);
    assert InsertRow(db.rows, row)[k].depsCut;
    hide Outcome, Has;
  }

  lemma {:induction false} HashKeys(header: Header, rows: seq<Row>, id: Id)
    ensures id in HashOf(header, rows).entries <==> Has(rows, id)
  {
    if rows != [] {
      var n := |rows| - 1;
      HashKeys(header, rows[..n], id);
      assert ActionsOf(rows)[..n] == ActionsOf(rows[..n]);
      assert Has(rows[..n], id) ==> Has(rows, id);
      if Has(rows, id) && rows[n].id != id {
        var i :| 0 <= i < |rows| && rows[i].id == id;
        assert rows[..n][i].id == id;
      }
    }
  }

  lemma InsertedDistinct(rows: seq<Row>, k: nat, row: Row)
    requires Distinct(rows) && !Has(rows, row.id) && k <= |rows|
    ensures Distinct(rows[..k] + [row] + rows[k..])
  {
    var inserted := rows[..k] + [row] + rows[k..];
    forall i, j | 0 <= i < j < |inserted|
      ensures inserted[i].id != inserted[j].id
    {
      assert i < k ==> inserted[i] == rows[i];
      assert i > k ==> inserted[i] == rows[i - 1];
      assert j < k ==> inserted[j] == rows[j];
      assert j > k ==> inserted[j] == rows[j - 1];
    }
  }

  lemma SettledDistinct(rows: seq<Row>, p: Proposal)
    requires Distinct(rows)
    ensures Distinct(SettledRows(rows, p))
  {
    assert forall i | 0 <= i < |rows| :: SettledRows(rows, p)[i].id == rows[i].id;
  }

  lemma SettledSplit(rows: seq<Row>, k: nat, row: Row, p: Proposal)
    requires k <= |rows| && Settled(row, p) == row
    ensures SettledRows(rows[..k] + [row] + rows[k..], p) ==
            SettledRows(rows[..k], p) + [row] + SettledRows(rows[k..], p)
  {
    hide Settled;
  }

  /** The rows afterwards: every row settled, and the replacement among them. */
  lemma AppliedRows(db: Db) returns (k: nat)
    requires Sound(db) && Applies(db) && !Has(db.rows, db.proposal.value.replacement)
    ensures var p := db.proposal.value;
            var row := ReplacementRow(db.names, p);
            && k <= |db.rows| && Distinct(Outcome(db).rows)
            && row.id == p.replacement && row.status == Validated && row.supersededBy.None? && row.version == 1
            && row.deps == p.deps && row.payload == H.Bounded(p.payload)
            && Outcome(db).rows == SettledRows(db.rows[..k], p) + [row] + SettledRows(db.rows[k..], p)
  {
    var p := db.proposal.value;
    var row := ReplacementRow(db.names, p);
    k := InsertedAt(db.rows, row);
    InsertedDistinct(db.rows, k, row);
    SettledDistinct(db.rows[..k] + [row] + db.rows[k..], p);
    assert Settled(row, p) == row;
    hide Settled, SettledRows, Distinct, Has, Readable, HashOf;
    SettledSplit(db.rows, k, row, p);
    OutcomePlan(db);
    hide Outcome;
  }

  /** A replacement that was not there changes what is hashed. */
  lemma HashChanges(db: Db)
    requires Sound(db) && Applies(db) && !Has(db.rows, db.proposal.value.replacement)
    ensures HashOf(db.plan.header, Outcome(db).rows) != HashOf(db.plan.header, db.rows)
  {
    var p, after := db.proposal.value, Outcome(db).rows;
    hide Outcome, HashOf, WithReplacement, Settled, SettledRows;
    var k := AppliedRows(db);
    assert after[k] == ReplacementRow(db.names, p) by { AppliedAt(db.rows, k, p, ReplacementRow(db.names, p)); }
    hide Distinct;
    assert Has(after, p.replacement);
    HashKeys(db.plan.header, after, p.replacement);
    HashKeys(db.plan.header, db.rows, p.replacement);
  }

  /** Applying a fresh proposal to a frozen plan raises its revision by exactly one,
      however often it is interrupted, and freezes the hash of the new structure. */
  lemma RevisionGrowsByOne(db: Db)
    requires Sound(db) && Applies(db)
    requires db.plan.hash == HashOf(db.plan.header, db.rows) && !Has(db.rows, db.proposal.value.replacement)
    ensures var after := Outcome(db);
            && after.plan.revision == db.plan.revision + 1
            && after.plan.hash == HashOf(db.plan.header, after.rows)
            && after.proposal.value.status == Applied
            && (!db.proposal.value.stamped ==> after.proposal.value.newRevision == Some(db.plan.revision + 1))
  {
    OutcomePlan(db);
    HashChanges(db);
    hide Outcome, HashOf, WithReplacement, Settled, SettledRows, Has, Distinct;
  }

  /** A finished replan leaves the plan frozen, whatever it was before: the mutation
      guard is silent on the rows it leaves. */
  lemma GuardSilentAfterReplan(db: Db)
    requires Applies(db)
    ensures Outcome(db).plan.hash == HashOf(Outcome(db).plan.header, Outcome(db).rows)
  {
    OutcomePlan(db);
    hide Outcome, HashOf;
  }

  lemma AppliedAt(rows: seq<Row>, k: nat, p: Proposal, row: Row)
    requires k <= |rows|
    ensures (SettledRows(rows[..k], p) + [row] + SettledRows(rows[k..], p))[k] == row
  {
  }

  /** An edge of a list of rows, read off the rows. */
  ghost predicate RowEdge(rows: seq<Row>, x: Id, y: Id) {
    exists i | 0 <= i < |rows| :: rows[i].id == x && y in rows[i].deps
  }

  lemma EdgeOfRows(rows: seq<Row>, x: Id, y: Id)
    requires Distinct(rows)
    ensures Edge(GraphOf(NodesOf(rows)), x, y) <==> RowEdge(rows, x, y)
  {
    var nodes := NodesOf(rows);
    assert forall i | 0 <= i < |rows| :: nodes[i].id == rows[i].id;
    if Edge(GraphOf(nodes), x, y) {
      var i := GraphKeys(nodes, x);
      assert rows[i].id == x;
    }
    if RowEdge(rows, x, y) {
      var i :| 0 <= i < |rows| && rows[i].id == x && y in rows[i].deps;
      GraphAt(nodes, i);
    }
  }

  lemma SettledEdges(row: Row, p: Proposal, y: Id)
    requires row.id != p.replacement
    ensures y in Settled(row, p).deps <==> y in ProjectRow(row, p.failed, p.replacement).deps
    ensures Settled(row, p).id == ProjectRow(row, p.failed, p.replacement).id == row.id
  {
    SortedMembers(Replaced(row.deps, p.failed, p.replacement), y);
  }

  lemma RowEdgeJoins(rows: seq<Row>, more: seq<Row>, x: Id, y: Id)
    ensures RowEdge(rows + more, x, y) <==> RowEdge(rows, x, y) || RowEdge(more, x, y)
  {
    var all := rows + more;
    if RowEdge(rows, x, y) {
      var i :| 0 <= i < |rows| && rows[i].id == x && y in rows[i].deps;
      assert all[i].id == x;
    }
    if RowEdge(more, x, y) {
      var i :| 0 <= i < |more| && more[i].id == x && y in more[i].deps;
      assert all[|rows| + i].id == x;
    }
    if RowEdge(all, x, y) {
      var i :| 0 <= i < |all| && all[i].id == x && y in all[i].deps;
      assert if i < |rows| then rows[i] == all[i] else more[i - |rows|] == all[i];
    }
  }

  function ProjectRows(rows: seq<Row>, p: Proposal): seq<Row> {
    seq(|rows|, i requires 0 <= i < |rows| => ProjectRow(rows[i], p.failed, p.replacement))
  }

  lemma SettledRowEdges(rows: seq<Row>, p: Proposal, x: Id, y: Id)
    requires !Has(rows, p.replacement)
    ensures RowEdge(SettledRows(rows, p), x, y) <==> RowEdge(ProjectRows(rows, p), x, y)
  {
    hide Settled, ProjectRow;
    forall i | 0 <= i < |rows|
      ensures y in SettledRows(rows, p)[i].deps <==> y in ProjectRows(rows, p)[i].deps
      ensures SettledRows(rows, p)[i].id == ProjectRows(rows, p)[i].id
    {
      assert rows[i].id != p.replacement;
      SettledEdges(rows[i], p, y);
    }
  }

  /** The dependency graph that results is the projected one that was checked for
      cycles: edge for edge. */
  lemma AppliedGraphIsProjected(db: Db, x: Id, y: Id)
    requires Sound(db) && Applies(db) && !Has(db.rows, db.proposal.value.replacement)
    ensures var p := db.proposal.value;
            Edge(GraphOf(NodesOf(Outcome(db).rows)), x, y)
            <==> Edge(GraphOf(NodesOf(Project(db.rows, p.failed, ReplacementRow(db.names, p)))), x, y)
  {
    var p := db.proposal.value;
    var k := AppliedRows(db);
    var front, back := db.rows[..k], db.rows[k..];
    assert !Has(front, p.replacement) && !Has(back, p.replacement);
    assert db.rows == front + back;
    hide Outcome, Settled, ProjectRow, RowEdge;
    var projected := Project(db.rows, p.failed, ReplacementRow(db.names, p));
    assert projected == ProjectRows(front, p) + ProjectRows(back, p) + [ReplacementRow(db.names, p)];
    EdgeOfRows(Outcome(db).rows, x, y);
    ProjectedDistinct(db.rows, p, ReplacementRow(db.names, p));
    EdgeOfRows(projected, x, y);
    hide Distinct, Has, GraphOf, NodesOf, SettledRows, ProjectRows, Project;
    SameRowEdges(front, back, p, ReplacementRow(db.names, p), x, y);
  }

  lemma SameRowEdges(front: seq<Row>, back: seq<Row>, p: Proposal, row: Row, x: Id, y: Id)
    requires !Has(front, p.replacement) && !Has(back, p.replacement)
    ensures RowEdge(SettledRows(front, p) + [row] + SettledRows(back, p), x, y)
            <==> RowEdge(ProjectRows(front, p) + ProjectRows(back, p) + [row], x, y)
  {
    hide RowEdge, SettledRows, ProjectRows, Has;
    RowEdgeJoins(SettledRows(front, p) + [row], SettledRows(back, p), x, y);
    RowEdgeJoins(SettledRows(front, p), [row], x, y);
    RowEdgeJoins(ProjectRows(front, p) + ProjectRows(back, p), [row], x, y);
    RowEdgeJoins(ProjectRows(front, p), ProjectRows(back, p), x, y);
    SettledRowEdges(front, p, x, y);
    SettledRowEdges(back, p, x, y);
  }

  lemma ProjectedDistinct(rows: seq<Row>, p: Proposal, row: Row)
    requires Distinct(rows) && !Has(rows, row.id)
    ensures Distinct(Project(rows, p.failed, row))
  {
    var projected := Project(rows, p.failed, row);
    assert forall i | 0 <= i < |rows| :: projected[i].id == rows[i].id;
  }

  /** Hence what was proposed without a cycle is applied without one. */
  lemma AppliedIsAcyclic(db: Db)
    requires Sound(db) && Applies(db) && !Has(db.rows, db.proposal.value.replacement)
    ensures Acyclic(GraphOf(NodesOf(Outcome(db).rows)))
            <==> Acyclic(GraphOf(NodesOf(Project(db.rows, db.proposal.value.failed,
                                                 ReplacementRow(db.names, db.proposal.value)))))
  {
    var p := db.proposal.value;
    var g := GraphOf(NodesOf(Outcome(db).rows));
    var h := GraphOf(NodesOf(Project(db.rows, p.failed, ReplacementRow(db.names, p))));
    forall x, y ensures Edge(g, x, y) <==> Edge(h, x, y) { AppliedGraphIsProjected(db, x, y); }
    SameEdgesSameCycles(g, h);
    SameEdgesSameCycles(h, g);
  }

  /** What becomes of each action: the failed one stays, superseded; whoever depended on
      it depends on the replacement instead; nobody but the failed action and the
      replacement still names it; statuses and payloads are untouched. */
  lemma SettledMeans(row: Row, p: Proposal)
    requires p.failed != p.replacement
    ensures var after := Settled(row, p);
            && after.id == row.id && after.status == row.status && after.payload == row.payload
            && after.sequence == row.sequence
            && (row.id == p.failed ==> after.supersededBy.Some? && after.deps == row.deps)
            && (row.id == p.failed && row.supersededBy.None? ==> after.supersededBy == Some(p.replacement))
            && (row.id != p.failed ==> after.supersededBy == row.supersededBy)
            && (row.id !in {p.failed, p.replacement} ==>
                p.failed !in after.deps
                    && (p.replacement in after.deps <==> p.failed in row.deps || p.replacement in row.deps))
            && (after.version == row.version <==> after == row)
  {
    var rewired := Replaced(row.deps, p.failed, p.replacement);
    SortedMembers(rewired, p.failed);
    SortedMembers(rewired, p.replacement);
    if p.failed in row.deps {
      var i :| 0 <= i < |row.deps| && row.deps[i] == p.failed;
      assert rewired[i] == p.replacement;
    }
    if p.replacement in row.deps {
      var i :| 0 <= i < |row.deps| && row.deps[i] == p.replacement;
      assert rewired[i] == p.replacement;
    }
  }
}
