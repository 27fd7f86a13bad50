/** The plan-integrity hash, what persisting does to the text it covers, and exactly
    when the mutation guard therefore trips over a plan nobody has touched. */
module PlanHash {
  import opened Domain
  import G = Graph

  type Id = G.Id

  /** The text of an id; only its length matters here. */
  type Names = Id -> string

  const MAX_TEXT_FIELD_CHARS: nat := 4000
  const MAX_INPUTS_JSON_CHARS: nat := 200_000
  const TRUNCATION_MARKER: string := "...[truncated]"

  /** An opaque payload and the length of its JSON text. */
  datatype Inputs = Inputs(value: nat, jsonChars: nat)

  /** What an action commits to, beside its place in the graph. */
  datatype Payload = Payload(actionType: string, toolName: Option<string>, inputs: Inputs, expectedResult: string)

  datatype Action = Action(id: Id, payload: Payload, deps: seq<Id>)

  datatype Policy = StopOnFailure | ContinueIndependent

  datatype Plan = Plan(id: nat, failurePolicy: Option<string>, actions: seq<Action>)

  // ------------------------------------------------------------ normal forms

  function Upper(s: string): string {
    if s == [] then "" else [if 'a' <= s[0] <= 'z' then ((s[0] as int) - 32) as char else s[0]] + Upper(s[1..])
  }

  predicate Space(c: char) { c == ' ' || c == '\t' || c == '\n' || c == '\r' }

  function StripLeft(s: string): string {
    if s == [] || !Space(s[0]) then s else StripLeft(s[1..])
  }

  function StripRight(s: string): string {
    if s == [] || !Space(s[|s| - 1]) then s else StripRight(s[..|s| - 1])
  }

  function PolicyText(policy: Policy): string {
    match policy
    case StopOnFailure => "STOP_ON_FAILURE"
    case ContinueIndependent => "CONTINUE_INDEPENDENT"
  }

  /** Anything unrecognized is the safer policy. */
  function NormalizePolicy(value: Option<string>): Policy {
    if value.Some? && Upper(StripRight(StripLeft(value.value))) == PolicyText(ContinueIndependent)
    then ContinueIndependent else StopOnFailure
  }

  lemma {:induction false} UpperFixes(s: string)
    requires forall i | 0 <= i < |s| :: !('a' <= s[i] <= 'z')
    ensures Upper(s) == s
  {
    if s != [] { UpperFixes(s[1..]); }
  }

  lemma StripFixes(s: string)
    requires s != [] && !Space(s[0]) && !Space(s[|s| - 1])
    ensures StripLeft(s) == s && StripRight(s) == s
  {
  }

  /** Normal forms are upper case, without a space at either end. */
  lemma PolicyTextIsPlain(policy: Policy)
    ensures var text := PolicyText(policy);
            && text != [] && !Space(text[0]) && !Space(text[|text| - 1])
            && (forall i | 0 <= i < |text| :: !('a' <= text[i] <= 'z'))
            && |text| == if policy.StopOnFailure? then 15 else 20
  {
  }

  /** Normal forms are read back as themselves. */
  lemma PolicyRoundTrip(policy: Policy)
    ensures NormalizePolicy(Some(PolicyText(policy))) == policy
  {
    var text := PolicyText(policy);
    PolicyTextIsPlain(policy);
    PolicyTextIsPlain(ContinueIndependent);
    hide Upper, StripLeft, StripRight, PolicyText, Space;
    StripFixes(text);
    UpperFixes(text);
  }

  lemma {:induction false} StripSpaces(a: string, s: string, b: string)
    requires (forall i | 0 <= i < |a| :: Space(a[i])) && (forall i | 0 <= i < |b| :: Space(b[i]))
    requires s != [] && !Space(s[0]) && !Space(s[|s| - 1])
    ensures StripLeft(a + s) == s && StripRight(s + b) == s
    decreases |a| + |b|
  {
    if a != [] {
      assert (a + s)[1..] == a[1..] + s;
      StripSpaces(a[1..], s, b);
    } else if b != [] {
      assert (s + b)[..|s + b| - 1] == s + b[..|b| - 1];
      StripSpaces(a, s, b[..|b| - 1]);
    } else {
      assert a + s == s && s + b == s;
      StripFixes(s);
    }
  }

  function Raised(c: char): char { if 'a' <= c <= 'z' then ((c as int) - 32) as char else c }

  lemma {:induction false} UpperAt(s: string)
    ensures |Upper(s)| == |s| && forall i | 0 <= i < |s| :: Upper(s)[i] == Raised(s[i])
  {
    if s != [] { UpperAt(s[1..]); }
  }

  /** Neither case nor surrounding space matters to how a policy is read. */
  lemma PolicyIsForgiving(a: string, s: string, b: string)
    requires (forall i | 0 <= i < |a| :: Space(a[i])) && (forall i | 0 <= i < |b| :: Space(b[i]))
    requires s != [] && !Space(s[0]) && !Space(s[|s| - 1])
    ensures NormalizePolicy(Some(a + s + b)) == ContinueIndependent <==>
              |s| == 20 && forall i | 0 <= i < |s| :: Raised(s[i]) == PolicyText(ContinueIndependent)[i]
    ensures NormalizePolicy(None) == StopOnFailure
  {
    var text := PolicyText(ContinueIndependent);
    PolicyTextIsPlain(ContinueIndependent);
    hide Upper, StripLeft, StripRight, PolicyText, Space, Raised;
    SpacesGo(a, s, b);
    UpperAt(s);
    if |s| == 20 && forall i | 0 <= i < |s| :: Raised(s[i]) == text[i] {
      assert forall i | 0 <= i < |s| :: Upper(s)[i] == text[i];
      assert Upper(s) == text;
    }
  }

  lemma SpacesGo(a: string, s: string, b: string)
    requires (forall i | 0 <= i < |a| :: Space(a[i])) && (forall i | 0 <= i < |b| :: Space(b[i]))
    requires s != [] && !Space(s[0]) && !Space(s[|s| - 1])
    ensures StripRight(StripLeft(a + s + b)) == s
  {
    hide StripLeft, StripRight, Space;
    assert a + s + b == a + (s + b);
    StripFront(a, s + b);
    StripSpaces("", s, b);
  }

  lemma {:induction false} StripFront(a: string, s: string)
    requires (forall i | 0 <= i < |a| :: Space(a[i])) && s != [] && !Space(s[0])
    ensures StripLeft(a + s) == s
  {
    if a == [] {
      assert a + s == s;
    } else {
      assert (a + s)[1..] == a[1..] + s;
      StripFront(a[1..], s);
    }
  }

  /** Text that fits is kept; so a row that was loaded is never truncated again. */
  function BoundedText(value: string): (r: string)
    ensures |r| <= MAX_TEXT_FIELD_CHARS
    ensures r == value <==> |value| <= MAX_TEXT_FIELD_CHARS
  {
    if |value| <= MAX_TEXT_FIELD_CHARS then value
    else value[..MAX_TEXT_FIELD_CHARS - |TRUNCATION_MARKER|] + TRUNCATION_MARKER
  }

  /** The payload as it is stored. */
  function Bounded(payload: Payload): (r: Payload)
    ensures |r.expectedResult| <= MAX_TEXT_FIELD_CHARS
    ensures r == payload <==> |payload.expectedResult| <= MAX_TEXT_FIELD_CHARS
  {
    payload.(expectedResult := BoundedText(payload.expectedResult))
  }

  /** The length of `json.dumps` of a list of ids without characters to escape. */
  function JsonChars(names: Names, deps: seq<Id>): nat {
    if deps == [] then 2
    else |names(deps[0])| + 4 + (if |deps| == 1 then 0 else JsonChars(names, deps[1..]))
  }

  predicate Fits(names: Names, deps: seq<Id>) { JsonChars(names, deps) <= MAX_TEXT_FIELD_CHARS }

  /** The ids as they are quoted and listed between the brackets. */
  function Listed(names: Names, deps: seq<Id>): string {
    if deps == [] then ""
    else "\"" + names(deps[0]) + "\"" + (if |deps| == 1 then "" else ", ") + Listed(names, deps[1..])
  }

  function JsonText(names: Names, deps: seq<Id>): string { "[" + Listed(names, deps) + "]" }

  /** A dependency list fits its column exactly when its JSON text has at most 4000
      characters. */
  lemma {:induction false} FitsIff(names: Names, deps: seq<Id>)
    ensures |JsonText(names, deps)| == JsonChars(names, deps)
    ensures Fits(names, deps) <==> |JsonText(names, deps)| <= 4000
  {
    if deps != [] { FitsIff(names, deps[1..]); }
  }

  /** What does not fit is cut to 4000 characters that say so at their end. */
  lemma TruncationShows(value: string)
    requires |value| > 4000
    ensures var r := BoundedText(value);
            |r| == 4000 && r[..3986] == value[..3986] && r[3986..] == "...[truncated]"
  {
  }

  // -------------------------------------------------------------------- hash

  datatype Entry = Entry(payload: Payload, deps: seq<Id>)

  /** An ideal hash: equal exactly when everything it covers is equal. Entries are
      hashed by id, dependencies sorted. */
  datatype Hash = Hash(plan: nat, policy: Policy, entries: map<Id, Entry>)

  function EntryFor(payload: Payload, deps: seq<Id>): Entry { Entry(payload, G.Sorted(deps)) }

  function EntryOf(action: Action): Entry { EntryFor(action.payload, action.deps) }

  function Entries(actions: seq<Action>): map<Id, Entry> {
    if actions == [] then map[]
    else Entries(actions[..|actions| - 1])[actions[|actions| - 1].id := EntryOf(actions[|actions| - 1])]
  }

  function ComputePlanHash(plan: Plan): Hash {
    Hash(plan.id, NormalizePolicy(plan.failurePolicy), Entries(plan.actions))
  }

  predicate DistinctIds(actions: seq<Action>) {
    forall i, j | 0 <= i < j < |actions| :: actions[i].id != actions[j].id
  }

  lemma {:induction false} EntryAt(actions: seq<Action>, i: nat)
    requires DistinctIds(actions) && i < |actions|
    ensures actions[i].id in Entries(actions) && Entries(actions)[actions[i].id] == EntryOf(actions[i])
  {
    if i < |actions| - 1 { EntryAt(actions[..|actions| - 1], i); }
  }

  lemma {:induction false} EntriesFrom(actions: seq<Action>, id: Id) returns (i: nat)
    requires id in Entries(actions)
    ensures i < |actions| && actions[i].id == id && Entries(actions)[id] == EntryOf(actions[i])
  {
    var n := |actions| - 1;
    if actions[n].id == id { i := n; } else { i := EntriesFrom(actions[..n], id); }
  }

  /** Two plans hash alike exactly when they have the same id, policy and members, and
      each member the same type, tool, inputs, expected result and dependencies. */
  lemma SameHashIff(plan: Plan, other: Plan)
    requires DistinctIds(plan.actions) && DistinctIds(other.actions)
    ensures ComputePlanHash(plan) == ComputePlanHash(other) <==>
              && plan.id == other.id && NormalizePolicy(plan.failurePolicy) == NormalizePolicy(other.failurePolicy)
              && Matched(plan.actions, other.actions) && Matched(other.actions, plan.actions)
  {
    if Entries(plan.actions) == Entries(other.actions) {
      MatchedIfEqual(plan.actions, other.actions);
      MatchedIfEqual(other.actions, plan.actions);
    }
    if Matched(plan.actions, other.actions) && Matched(other.actions, plan.actions) {
      EqualIfMatched(plan.actions, other.actions);
      EqualIfMatched(other.actions, plan.actions);
      assert Entries(plan.actions) == Entries(other.actions);
    }
  }

  predicate Matched(actions: seq<Action>, others: seq<Action>) {
    forall i | 0 <= i < |actions| :: exists j | 0 <= j < |others| ::
        others[j].id == actions[i].id && EntryOf(others[j]) == EntryOf(actions[i])
  }

  lemma MatchedIfEqual(actions: seq<Action>, others: seq<Action>)
    requires DistinctIds(actions) && Entries(actions) == Entries(others)
    ensures Matched(actions, others)
  {
    forall i | 0 <= i < |actions|
      ensures exists j | 0 <= j < |others| :: others[j].id == actions[i].id && EntryOf(others[j]) == EntryOf(actions[i])
    {
      EntryAt(actions, i);
      var j := EntriesFrom(others, actions[i].id);
    }
  }

  lemma EqualIfMatched(actions: seq<Action>, others: seq<Action>)
    requires DistinctIds(others) && Matched(actions, others)
    ensures forall id | id in Entries(actions) :: id in Entries(others) && Entries(others)[id] == Entries(actions)[id]
  {
    forall id | id in Entries(actions)
      ensures id in Entries(others) && Entries(others)[id] == Entries(actions)[id]
    {
      var i := EntriesFrom(actions, id);
      var j :| 0 <= j < |others| && others[j].id == actions[i].id && EntryOf(others[j]) == EntryOf(actions[i]);
      EntryAt(others, j);
    }
  }

  // ------------------------------------------------------------- persistence

  /** The stored dependency list, or the marker that replaces one whose text is too long. */
  datatype StoredDeps = DepsList(deps: seq<Id>) | DepsTruncated(originalChars: nat)

  datatype ActionRecord = ActionRecord(id: Id, payload: Payload, deps: StoredDeps)

  datatype PlanRecord = PlanRecord(id: nat, failurePolicy: string, hash: Hash, actions: seq<ActionRecord>)

  datatype PersistenceError = PayloadTooLarge | MalformedDependencies

  function ToRecord(names: Names, action: Action): Result<ActionRecord, PersistenceError> {
    if action.payload.inputs.jsonChars > MAX_INPUTS_JSON_CHARS then Err(PayloadTooLarge)
    else
      Ok(ActionRecord(
           action.id, Bounded(action.payload),
           if Fits(names, action.deps) then DepsList(action.deps) else DepsTruncated(JsonChars(names, action.deps))))
  }

  function ToAction(record: ActionRecord): Result<Action, PersistenceError> {
    match record.deps
    case DepsTruncated(_) => Err(MalformedDependencies)
    case DepsList(deps) => Ok(Action(record.id, record.payload, deps))
  }

  /** Writing back what was loaded changes nothing: of every record that was ever
      written and can be loaded, the record of the loaded action is that record. */
  lemma RepersistIsIdentity(names: Names, action: Action)
    requires ToRecord(names, action).Ok? && ToAction(ToRecord(names, action).value).Ok?
    ensures var record := ToRecord(names, action).value;
            ToRecord(names, ToAction(record).value) == Ok(record)
  {
  }

  /** The row insertions of `persist_new_plan`; an oversized payload fails closed. */
  method PersistNewPlan(names: Names, plan: Plan) returns (r: Result<PlanRecord, PersistenceError>)
    ensures r == Persisted(names, plan)
  {
    var records: seq<ActionRecord> := [];
    for i := 0 to |plan.actions|
      invariant Records(names, plan.actions[..i]) == Ok(records)
    {
      assert plan.actions[..i + 1][..i] == plan.actions[..i];
      var record := ToRecord(names, plan.actions[i]);
      if record.Err? {
        OversizedFails(names, plan.actions, i);
        return Err(record.error);
      }
      records := records + [record.value];
    }
    assert plan.actions[..|plan.actions|] == plan.actions;
    return Ok(PlanRecord(plan.id, PolicyText(NormalizePolicy(plan.failurePolicy)), ComputePlanHash(plan), records));
  }

  function Records(names: Names, actions: seq<Action>): Result<seq<ActionRecord>, PersistenceError> {
    if actions == [] then Ok([])
    else
      var front := Records(names, actions[..|actions| - 1]);
      var last := ToRecord(names, actions[|actions| - 1]);
      if front.Err? then Err(front.error) else if last.Err? then Err(last.error) else Ok(front.value + [last.value])
  }

  function Actions(records: seq<ActionRecord>): Result<seq<Action>, PersistenceError> {
    if records == [] then Ok([])
    else
      var front := Actions(records[..|records| - 1]);
      var last := ToAction(records[|records| - 1]);
      if front.Err? then Err(front.error) else if last.Err? then Err(last.error) else Ok(front.value + [last.value])
  }

  function Persisted(names: Names, plan: Plan): Result<PlanRecord, PersistenceError> {
    var records := Records(names, plan.actions);
    if records.Err? then Err(records.error)
    else Ok(PlanRecord(plan.id, PolicyText(NormalizePolicy(plan.failurePolicy)), ComputePlanHash(plan), records.value))
  }

  function Loaded(record: PlanRecord): Result<Plan, PersistenceError> {
    var actions := Actions(record.actions);
    if actions.Err? then Err(actions.error) else Ok(Plan(record.id, Some(record.failurePolicy), actions.value))
  }

  lemma {:induction false} OversizedFails(names: Names, actions: seq<Action>, i: nat)
    requires i < |actions| && ToRecord(names, actions[i]).Err?
    ensures Records(names, actions) == Err(PayloadTooLarge)
  {
    var n := |actions| - 1;
    if i < n { OversizedFails(names, actions[..n], i); }
    else if Records(names, actions[..n]).Err? { FailsByOversize(names, actions[..n]); }
  }

  lemma {:induction false} FailsByOversize(names: Names, actions: seq<Action>)
    ensures Records(names, actions).Err? ==> Records(names, actions) == Err(PayloadTooLarge)
  {
    if actions != [] { FailsByOversize(names, actions[..|actions| - 1]); }
  }

  predicate Storable(actions: seq<Action>) {
    forall i | 0 <= i < |actions| :: actions[i].payload.inputs.jsonChars <= MAX_INPUTS_JSON_CHARS
  }

  predicate DepsFit(names: Names, actions: seq<Action>) {
    forall i | 0 <= i < |actions| :: Fits(names, actions[i].deps)
  }

  predicate TextsFit(actions: seq<Action>) {
    forall i | 0 <= i < |actions| :: |actions[i].payload.expectedResult| <= MAX_TEXT_FIELD_CHARS
  }

  /** What is loaded back: the same actions, texts bounded. */
  function Reloaded(actions: seq<Action>): (r: seq<Action>)
    ensures |r| == |actions|
  {
    seq(|actions|, i requires 0 <= i < |actions| => actions[i].(payload := Bounded(actions[i].payload)))
  }

  /** One action, written and read back. */
  lemma RecordLoads(names: Names, action: Action)
    ensures ToRecord(names, action).Ok? <==> action.payload.inputs.jsonChars <= MAX_INPUTS_JSON_CHARS
    ensures ToRecord(names, action).Ok? ==>
              if Fits(names, action.deps)
              then ToAction(ToRecord(names, action).value) == Ok(action.(payload := Bounded(action.payload)))
              else ToAction(ToRecord(names, action).value) == Err(MalformedDependencies)
  {
  }

  /** The conditions and the result of a load, one action further. */
  lemma OneFurther(names: Names, actions: seq<Action>)
    requires actions != []
    ensures var front, last := actions[..|actions| - 1], actions[|actions| - 1];
            && (DepsFit(names, actions) <==> DepsFit(names, front) && Fits(names, last.deps))
            && (Storable(actions) <==> Storable(front) && last.payload.inputs.jsonChars <= MAX_INPUTS_JSON_CHARS)
            && Reloaded(actions) == Reloaded(front) + [last.(payload := Bounded(last.payload))]
  {
    hide Fits, Bounded;
    var front, n := actions[..|actions| - 1], |actions| - 1;
    assert forall i | 0 <= i < n :: front[i] == actions[i];
  }

  lemma {:induction false} RecordsIff(names: Names, actions: seq<Action>)
    ensures Records(names, actions).Ok? <==> Storable(actions)
  {
    if actions != [] {
      RecordsIff(names, actions[..|actions| - 1]);
      OneFurther(names, actions);
      RecordLoads(names, actions[|actions| - 1]);
      hide ToRecord, ToAction, Fits, Bounded, Storable, DepsFit, Reloaded;
    }
  }

  lemma {:induction false} RecordsLoad(names: Names, actions: seq<Action>)
    requires Storable(actions)
    ensures Records(names, actions).Ok?
    ensures Actions(Records(names, actions).value) == if DepsFit(names, actions) then Ok(Reloaded(actions))
              else Err(MalformedDependencies)
  {
    if actions == [] {
      assert Reloaded(actions) == [];
    } else {
      var front, last := actions[..|actions| - 1], actions[|actions| - 1];
      OneFurther(names, actions);
      RecordLoads(names, last);
      hide ToRecord, ToAction, Fits, Bounded, Storable, DepsFit, Reloaded, Actions;
      RecordsLoad(names, front);
      assert Records(names, actions) == Ok(Records(names, front).value + [ToRecord(names, last).value]);
      hide Records;
      LoadsAppended(Records(names, front).value, ToRecord(names, last).value);
    }
  }

  lemma LoadsAppended(records: seq<ActionRecord>, last: ActionRecord)
    ensures Actions(records + [last]) ==
              if Actions(records).Err? then Err(Actions(records).error)
              else if ToAction(last).Err? then Err(ToAction(last).error)
              else Ok(Actions(records).value + [ToAction(last).value])
  {
    assert (records + [last])[..|records|] == records;
  }

  /** The guard at the start of every run, on a plan that was persisted and not touched
      since: loading succeeds exactly when every dependency list fits its column, and
      then the guard stays silent exactly when every expected result does too. */
  lemma GuardOnUntouchedPlan(names: Names, plan: Plan)
    requires DistinctIds(plan.actions)
    ensures Persisted(names, plan).Ok? <==> Storable(plan.actions)
    ensures Persisted(names, plan).Ok? ==> (Loaded(Persisted(names, plan).value).Ok? <==> DepsFit(names, plan.actions))
    ensures Persisted(names, plan).Ok? && Loaded(Persisted(names, plan).value).Ok? ==>
              (ComputePlanHash(Loaded(Persisted(names, plan).value).value) == Persisted(names, plan).value.hash <==>
               TextsFit(plan.actions))
  {
    RecordsIff(names, plan.actions);
    if Storable(plan.actions) { RecordsLoad(names, plan.actions); }
    if Persisted(names, plan).Ok? && Loaded(Persisted(names, plan).value).Ok? {
      var actions := plan.actions;
      var reloaded := Reloaded(actions);
      PolicyRoundTrip(NormalizePolicy(plan.failurePolicy));
      if TextsFit(actions) {
        assert reloaded == actions;
      } else {
        var i :| 0 <= i < |actions| && |actions[i].payload.expectedResult| > MAX_TEXT_FIELD_CHARS;
        EntryAt(actions, i);
        EntryAt(reloaded, i);
        assert EntryOf(reloaded[i]) != EntryOf(actions[i]);
      }
    }
  }

  /** A concrete plan the guard refuses although nobody has changed it. */
  lemma LongExpectationTripsGuard(names: Names)
    ensures var payload := Payload("sandbox_create", Some("sandbox_file_write"), Inputs(0, 2), seq(4001, i => 'x'));
            var plan := Plan(1, None, [Action(1, payload, [])]);
            && Persisted(names, plan).Ok? && Loaded(Persisted(names, plan).value).Ok?
            && ComputePlanHash(Loaded(Persisted(names, plan).value).value) != Persisted(names, plan).value.hash
  {
    var payload := Payload("sandbox_create", Some("sandbox_file_write"), Inputs(0, 2), seq(4001, i => 'x'));
    var plan := Plan(1, None, [Action(1, payload, [])]);
    GuardOnUntouchedPlan(names, plan);
    assert !TextsFit(plan.actions) by { assert |plan.actions[0].payload.expectedResult| == 4001; }
  }
}
