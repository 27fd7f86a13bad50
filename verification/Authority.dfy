/** The authority algebra: scopes and the bottom NO_AUTHORITY under `leq` and `meet`. */
module Authority {
  import opened Domain

  const SCHEMA_VERSION: int := 1
  const VOCABULARY_VERSION: int := 1
  const MAX_VERSION: int := 0x7fff_ffff_ffff_ffff
  const MAX_IDENTIFIER_LENGTH: nat := 256

  datatype Tier = P0 | P1 | P2 | P3 | P4 | P5

  function Rank(tier: Tier): nat {
    match tier
    case P0 => 0
    case P1 => 1
    case P2 => 2
    case P3 => 3
    case P4 => 4
    case P5 => 5
  }

  predicate TierLeq(a: Tier, b: Tier) { Rank(a) <= Rank(b) }

  /** The pinned vocabulary, with the tier each action type needs at least. */
  function Floor(actionType: string): Option<Tier> {
    if actionType in {"internal", "no_op", "manual", "decision_only"} then Some(P0)
    else if actionType == "read" then Some(P1)
    else if actionType in {"internal_create", "sandbox_create"} then Some(P2)
    else if actionType == "external_modify" then Some(P3)
    else if actionType in {"send", "publish", "delete"} then Some(P4)
    else if actionType in {"financial", "install", "privileged"} then Some(P5)
    else None
  }

  datatype Objective = Objective(id: string, version: int)

  /** A scope as a value; nothing says it went through the constructor. */
  datatype Scope = Scope(
    schema: int, vocabulary: int, ceiling: Tier, actions: set<string>, objective: Objective, expiresAt: int)

  datatype Authority = NoAuthority | Held(scope: Scope)

  datatype Refusal = InvalidScope

  // --------------------------------------------------------------- contracts

  predicate Alphanumeric(c: char) { 'a' <= c <= 'z' || 'A' <= c <= 'Z' || '0' <= c <= '9' }

  predicate ValidId(id: string) {
    && 0 < |id| <= MAX_IDENTIFIER_LENGTH
    && Alphanumeric(id[0]) && Alphanumeric(id[|id| - 1])
    && (forall i | 0 <= i < |id| :: Alphanumeric(id[i]) || id[i] in "._:-")
  }

  /** What the validated constructor accepts. */
  predicate ValidScope(s: Scope) {
    && s.schema == SCHEMA_VERSION && s.vocabulary == VOCABULARY_VERSION
    && s.ceiling != P5
    && s.actions != {}
    && (forall t | t in s.actions :: Floor(t).Some? && TierLeq(Floor(t).value, s.ceiling))
    && ValidId(s.objective.id) && 1 <= s.objective.version <= MAX_VERSION
  }

  predicate Valid(a: Authority) { a.NoAuthority? || ValidScope(a.scope) }

  // ----------------------------------------------------------------- algebra

  predicate VersionsMatch(a: Scope, b: Scope) { a.schema == b.schema && a.vocabulary == b.vocabulary }

  /** A version mismatch is decided before either side is revalidated. */
  function Leq(a: Authority, b: Authority): Result<bool, Refusal> {
    if a.NoAuthority? then Ok(true)
    else if b.NoAuthority? then Ok(false)
    else if !VersionsMatch(a.scope, b.scope) then Ok(false)
    else if !ValidScope(a.scope) || !ValidScope(b.scope) then Err(InvalidScope)
    else
      Ok(a.scope.objective == b.scope.objective && TierLeq(a.scope.ceiling, b.scope.ceiling)
         && a.scope.actions <= b.scope.actions && a.scope.expiresAt <= b.scope.expiresAt)
  }

  function Meet(a: Authority, b: Authority): Result<Authority, Refusal> {
    if a.NoAuthority? || b.NoAuthority? then Ok(NoAuthority)
    else if !VersionsMatch(a.scope, b.scope) then Ok(NoAuthority)
    else if !ValidScope(a.scope) || !ValidScope(b.scope) then Err(InvalidScope)
    else if a.scope.objective != b.scope.objective then Ok(NoAuthority)
    else if a.scope.actions * b.scope.actions == {} then Ok(NoAuthority)
    else
      Ok(Held(Scope(a.scope.schema, a.scope.vocabulary,
                    if TierLeq(a.scope.ceiling, b.scope.ceiling) then a.scope.ceiling else b.scope.ceiling,
                    a.scope.actions * b.scope.actions, a.scope.objective,
                    if a.scope.expiresAt <= b.scope.expiresAt then a.scope.expiresAt else b.scope.expiresAt)))
  }

  /** `a` grants no more than `b`. */
  predicate Below(a: Authority, b: Authority) { Leq(a, b) == Ok(true) }

  /** What `leq` means of two held scopes: both valid, of one version and objective, with a
      tier no higher, no more actions and an expiry no later. */
  lemma BelowMeans(a: Scope, b: Scope)
    ensures Below(Held(a), Held(b)) <==>
              && ValidScope(a) && ValidScope(b) && a.objective == b.objective
              && a.schema == b.schema && a.vocabulary == b.vocabulary
              && (match a.ceiling
                  case P0 => true
                  case P1 => b.ceiling in {P1, P2, P3, P4}
                  case P2 => b.ceiling in {P2, P3, P4}
                  case P3 => b.ceiling in {P3, P4}
                  case P4 => b.ceiling == P4
                  case P5 => false)
              && (forall t | t in a.actions :: t in b.actions) && a.expiresAt <= b.expiresAt
  {
    hide Floor, ValidId;
  }

  /** What a valid scope may name, by action type: nothing financial, installing or
      privileged, nothing unknown, and everything else only under a ceiling that reaches
      its tier. */
  lemma ScopeByType(s: Scope)
    requires ValidScope(s)
    ensures s.ceiling in {P0, P1, P2, P3, P4}
    ensures !("financial" in s.actions) && !("install" in s.actions) && !("privileged" in s.actions)
    ensures "send" in s.actions || "publish" in s.actions || "delete" in s.actions ==> s.ceiling == P4
    ensures "external_modify" in s.actions ==> s.ceiling in {P3, P4}
    ensures "internal_create" in s.actions || "sandbox_create" in s.actions ==> s.ceiling in {P2, P3, P4}
    ensures "read" in s.actions ==> s.ceiling != P0
    ensures forall t | t in s.actions ::
              t in {"internal", "no_op", "manual", "decision_only", "read", "internal_create", "sandbox_create",
                    "external_modify", "send", "publish", "delete"}
  {
    hide ValidId, Floor, TierLeq;
    forall t | t in s.actions
      ensures t in {"internal", "no_op", "manual", "decision_only", "read", "internal_create", "sandbox_create",
                    "external_modify", "send", "publish", "delete"}
      ensures t in {"send", "publish", "delete"} ==> s.ceiling == P4
      ensures t == "external_modify" ==> s.ceiling in {P3, P4}
      ensures t in {"internal_create", "sandbox_create"} ==> s.ceiling in {P2, P3, P4}
      ensures t == "read" ==> s.ceiling != P0
    {
      ReachedByType(t, s.ceiling);
    }
  }

  lemma ReachedByType(t: string, ceiling: Tier)
    requires ceiling != P5 && Floor(t).Some? && TierLeq(Floor(t).value, ceiling)
    ensures t in {"internal", "no_op", "manual", "decision_only", "read", "internal_create", "sandbox_create",
                  "external_modify", "send", "publish", "delete"}
    ensures t in {"send", "publish", "delete"} ==> ceiling == P4
    ensures t == "external_modify" ==> ceiling in {P3, P4}
    ensures t in {"internal_create", "sandbox_create"} ==> ceiling in {P2, P3, P4}
    ensures t == "read" ==> ceiling != P0
  {
  }

  /** Fail closed: a scope that would not pass the constructor never makes `leq` true
      (other than of NO_AUTHORITY) and never contributes to a meet. */
  lemma InvalidNeverContributes(a: Authority, b: Authority)
    ensures Below(a, b) ==> a.NoAuthority? || (Valid(a) && Valid(b))
    ensures Meet(a, b).Ok? && Meet(a, b).value.Held? ==> Valid(a) && Valid(b)
    ensures Meet(a, b).Err? <==> Leq(a, b).Err? && Leq(b, a).Err?
    ensures Meet(a, b).Err? <==> a.Held? && b.Held? && VersionsMatch(a.scope, b.scope) && !(Valid(a) && Valid(b))
  {
  }

  lemma Reflexive(a: Authority)
    requires Valid(a)
    ensures Below(a, a)
  {
  }

  lemma RankInjective(a: Tier, b: Tier)
    requires Rank(a) == Rank(b)
    ensures a == b
  {
  }

  lemma Antisymmetric(a: Authority, b: Authority)
    requires Below(a, b) && Below(b, a)
    ensures a == b
  {
    if a.Held? && b.Held? {
      RankInjective(a.scope.ceiling, b.scope.ceiling);
    }
  }

  lemma Transitive(a: Authority, b: Authority, c: Authority)
    requires Below(a, b) && Below(b, c)
    ensures Below(a, c)
  {
  }

  /** The meet of valid authorities exists and is valid: tier-consistent and never P5. */
  lemma MeetClosed(a: Authority, b: Authority)
    requires Valid(a) && Valid(b)
    ensures Meet(a, b).Ok? && Valid(Meet(a, b).value)
  {
  }

  /** And it is the greatest lower bound. */
  lemma MeetIsGlb(a: Authority, b: Authority, c: Authority)
    requires Valid(a) && Valid(b) && Valid(c)
    ensures Meet(a, b).Ok?
    ensures Below(c, Meet(a, b).value) <==> Below(c, a) && Below(c, b)
  {
    MeetClosed(a, b);
    if c.Held? && Below(c, a) && Below(c, b) {
      var t :| t in c.scope.actions;
      assert t in a.scope.actions * b.scope.actions;
    }
  }

  lemma MeetBelowBoth(a: Authority, b: Authority)
    requires Valid(a) && Valid(b)
    ensures Meet(a, b).Ok? && Below(Meet(a, b).value, a) && Below(Meet(a, b).value, b)
  {
    MeetClosed(a, b);
    MeetIsGlb(a, b, Meet(a, b).value);
    Reflexive(Meet(a, b).value);
  }

  // ------------------------------------------------------------------- chains

  predicate AllValid(xs: seq<Authority>) { forall i | 0 <= i < |xs| :: Valid(xs[i]) }

  /** `meet` folded over a chain, left to right. */
  function MeetAll(xs: seq<Authority>): Result<Authority, Refusal>
    requires |xs| > 0
  {
    if |xs| == 1 then Ok(xs[0])
    else
      var front := MeetAll(xs[..|xs| - 1]);
      if front.Err? then front else Meet(front.value, xs[|xs| - 1])
  }

  /** The fold is the greatest lower bound of its members. */
  lemma {:induction false} FoldIsGlb(xs: seq<Authority>, c: Authority)
    requires |xs| > 0 && AllValid(xs) && Valid(c)
    ensures MeetAll(xs).Ok? && Valid(MeetAll(xs).value)
    ensures Below(c, MeetAll(xs).value) <==> forall i | 0 <= i < |xs| :: Below(c, xs[i])
  {
    if |xs| > 1 {
      hide Leq, Meet, ValidScope, Below;
      var n := |xs| - 1;
      var front := xs[..n];
      FoldIsGlb(front, c);
      MeetClosed(MeetAll(front).value, xs[n]);
      MeetIsGlb(MeetAll(front).value, xs[n], c);
      assert forall i | 0 <= i < n :: front[i] == xs[i];
    }
  }

  lemma FoldBelowEach(xs: seq<Authority>, i: nat)
    requires AllValid(xs) && i < |xs|
    ensures MeetAll(xs).Ok? && Below(MeetAll(xs).value, xs[i])
  {
    FoldIsGlb(xs, NoAuthority);
    FoldIsGlb(xs, MeetAll(xs).value);
    Reflexive(MeetAll(xs).value);
  }

  /** Neither order nor repetition matters: two chains with the same members meet in
      the same authority. */
  lemma FoldOrderIndependent(xs: seq<Authority>, ys: seq<Authority>)
    requires |xs| > 0 && AllValid(xs) && AllValid(ys)
    requires forall x :: x in xs <==> x in ys
    ensures |ys| > 0 && MeetAll(xs) == MeetAll(ys)
  {
    assert xs[0] in ys;
    FoldIsGlb(xs, NoAuthority);
    FoldIsGlb(ys, NoAuthority);
    FoldsBelow(xs, ys);
    FoldsBelow(ys, xs);
    hide Below, MeetAll;
    Antisymmetric(MeetAll(xs).value, MeetAll(ys).value);
  }

  /** The fold of more members is below the fold of fewer. */
  lemma FoldsBelow(xs: seq<Authority>, ys: seq<Authority>)
    requires |xs| > 0 && |ys| > 0 && AllValid(xs) && AllValid(ys)
    requires forall y | y in ys :: y in xs
    ensures MeetAll(xs).Ok? && MeetAll(ys).Ok? && Below(MeetAll(xs).value, MeetAll(ys).value)
  {
    FoldIsGlb(xs, NoAuthority);
    forall i | 0 <= i < |ys|
      ensures Below(MeetAll(xs).value, ys[i])
    {
      assert ys[i] in xs;
      var j :| 0 <= j < |xs| && xs[j] == ys[i];
      FoldBelowEach(xs, j);
    }
    FoldIsGlb(ys, MeetAll(xs).value);
  }

  /** Delegation only narrows: when every child is below its parent, the leaf is below
      the root and the whole chain meets in the leaf. */
  lemma {:induction false} ChainNarrows(chain: seq<Authority>)
    requires |chain| > 0 && AllValid(chain)
    requires forall i | 0 < i < |chain| :: Below(chain[i], chain[i - 1])
    ensures Below(chain[|chain| - 1], chain[0])
    ensures MeetAll(chain) == Ok(chain[|chain| - 1])
  {
    var n := |chain| - 1;
    if n == 0 {
      Reflexive(chain[0]);
    } else {
      var front := chain[..n];
      ChainNarrows(front);
      Transitive(chain[n], chain[n - 1], chain[0]);
      MeetAbsorbs(chain[n - 1], chain[n]);
    }
  }

  lemma MeetAbsorbs(parent: Authority, child: Authority)
    requires Valid(parent) && Valid(child) && Below(child, parent)
    ensures Meet(parent, child) == Ok(child)
  {
    MeetBelowBoth(parent, child);
    Reflexive(child);
    MeetIsGlb(parent, child, child);
    Antisymmetric(Meet(parent, child).value, child);
  }
}
