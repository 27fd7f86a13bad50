/** The approval engine: creation, decision, expiry, validity, authorization and
    consumption of single-use approvals bound to one exact action payload.
    Hashes are ideal: two payloads hash alike only when they are equal. */
module Approval {
  import opened Domain
  import opened Permission

  /** The hashed fields of an action. */
  datatype Hash = Hash(actionType: string, toolName: Option<string>, inputs: nat, expectedResult: string, level: Level,
                       risk: Risk)

  datatype Status = Pending | Approved | Rejected | Expired | Cancelled

  datatype Kind = Approve | Reject | Cancel

  datatype Request = Request(
    actionId: nat, hash: Hash, requestedBy: string, status: Status, decidedBy: Option<string>,
    expiresAt: Option<int>, consumed: bool)

  datatype Error =
    | NotRequireApproval | InvalidActionState | Unauthoritative | IdentityRequired
    | AlreadyDecided | SelfApproval
    | NotExpirable | NotYetExpired
    | NotApproved | ActionIdMismatch | HashMismatch | AlreadyConsumed | ApprovalExpired
    | OutcomeNotFinal | BadTransition

  const DEFAULT_TTL: int := 24 * 3600

  /** What approvals look at in an action. */
  datatype Subject = Subject(id: nat, hash: Hash, status: ActionStatus)

  function Create(subject: Subject, decision: Decision, requestedBy: string, expiresAt: Option<int>,
                  now: int): Result<Request, Error> {
    if decision.outcome != RequireApproval || !decision.approvalRequired then Err(NotRequireApproval)
    else if subject.status != PermissionChecked then Err(InvalidActionState)
    else if subject.hash.level != decision.level || subject.hash.risk != decision.risk then Err(Unauthoritative)
    else if requestedBy == "" then Err(IdentityRequired)
    else Ok(Request(subject.id, subject.hash, requestedBy, Pending, None,
                    Some(if expiresAt.Some? then expiresAt.value else now + DEFAULT_TTL), false))
  }

  function Target(kind: Kind): Status {
    match kind
    case Approve => Status.Approved
    case Reject => Status.Rejected
    case Cancel => Status.Cancelled
  }

  function Decide(request: Request, kind: Kind, decidedBy: string): Result<Request, Error> {
    if decidedBy == "" then Err(IdentityRequired)
    else if request.status != Pending then Err(AlreadyDecided)
    else if kind == Approve && decidedBy == request.requestedBy then Err(SelfApproval)
    else Ok(request.(status := Target(kind), decidedBy := Some(decidedBy)))
  }

  /** Who may decide what, and what it makes of the request. Anybody with a name may reject
      or cancel a pending request, and anybody but the requester approve it; an approval
      ends APPROVED, a rejection REJECTED and a cancellation CANCELLED, with the decider's
      name on it and everything else as it was. */
  lemma DecideIff(request: Request, kind: Kind, who: string)
    ensures var r := Decide(request, kind, who);
            && (r.Ok? <==>
                  && request.status == Pending && who != ""
                  && (kind in {Reject, Cancel} || who != request.requestedBy))
            && (r.Ok? ==>
                  && (r.value.status == Status.Approved <==> kind == Approve)
                  && (r.value.status == Status.Rejected <==> kind == Reject)
                  && (r.value.status == Status.Cancelled <==> kind == Cancel)
                  && r.value == request.(status := r.value.status, decidedBy := Some(who)))
  {
  }

  predicate IsExpired(request: Request, now: int) {
    request.expiresAt.Some? && now >= request.expiresAt.value
  }

  function Expire(request: Request, now: int): Result<Request, Error> {
    if request.status != Pending then Err(AlreadyDecided)
    else if request.expiresAt.None? then Err(NotExpirable)
    else if now < request.expiresAt.value then Err(NotYetExpired)
    else Ok(request.(status := Status.Expired, decidedBy := Some("system:expiration_policy")))
  }

  /** Every failing check, in the order they are made; the first is the one raised. */
  function Objections(request: Request, subject: Option<Subject>, now: int): seq<Error> {
    (if request.status != Status.Approved then [NotApproved] else [])
    + (if subject.Some? && request.actionId != subject.value.id then [ActionIdMismatch] else [])
    + (if subject.Some? && subject.value.hash != request.hash then [HashMismatch] else [])
    + (if request.consumed then [AlreadyConsumed] else [])
    + (if IsExpired(request, now) then [ApprovalExpired] else [])
  }

  /** Consumption fails for the first reason there is: not approved, another action, another
      payload, consumed already, expired. */
  lemma ConsumeByCause(request: Request, subject: Option<Subject>, now: int)
    ensures var r := Consume(request, subject, now);
            var approved := request.status == Status.Approved;
            var same := subject.Some? ==> subject.value.id == request.actionId;
            var intact := subject.Some? ==> subject.value.hash == request.hash;
            var lapsed := request.expiresAt.Some? && request.expiresAt.value <= now;
            && (r == Err(NotApproved) <==> !approved)
            && (r == Err(ActionIdMismatch) <==> approved && !same)
            && (r == Err(HashMismatch) <==> approved && same && !intact)
            && (r == Err(AlreadyConsumed) <==> approved && same && intact && request.consumed)
            && (r == Err(ApprovalExpired) <==> approved && same && intact && !request.consumed && lapsed)
            && (r.Ok? <==> approved && same && intact && !request.consumed && !lapsed)
            && (r.Ok? ==> r.value == request.(consumed := true))
  {
  }

  /** A request lapses exactly while it is pending and from its time on. */
  lemma ExpireIff(request: Request, now: int)
    ensures var r := Expire(request, now);
            && (r.Ok? <==> request.status == Pending && request.expiresAt.Some? && request.expiresAt.value <= now)
            && (r.Ok? ==> r.value.status == Status.Expired && r.value.decidedBy.Some?
                          && r.value.(status := Pending, decidedBy := request.decidedBy) == request)
  {
  }

  predicate Valid(request: Request, subject: Subject, now: int) {
    Objections(request, Some(subject), now) == []
  }

  function Authorize(subject: Subject, request: Request, now: int): Result<ActionStatus, Error> {
    var objections := Objections(request, Some(subject), now);
    if objections != [] then Err(objections[0])
    else if !CanTransition(subject.status, ActionStatus.Approved) then Err(BadTransition)
    else Ok(ActionStatus.Approved)
  }

  function Finalize(subject: Subject, request: Request): Result<ActionStatus, Error> {
    if request.status !in {Status.Rejected, Status.Cancelled, Status.Expired} then Err(OutcomeNotFinal)
    else if request.actionId != subject.id then Err(ActionIdMismatch)
    else
      var target := if request.status == Status.Rejected then ActionStatus.Rejected else ActionStatus.Cancelled;
      if CanTransition(subject.status, target) then Ok(target) else Err(BadTransition)
  }

  function Consume(request: Request, subject: Option<Subject>, now: int): Result<Request, Error> {
    var objections := Objections(request, subject, now);
    if objections != [] then Err(objections[0]) else Ok(request.(consumed := true))
  }

  /** The durable single-consumer UPDATE's WHERE clause. */
  predicate Consumable(request: Request, actionId: nat, hash: Hash, now: int) {
    && !request.consumed && request.status == Status.Approved
    && request.actionId == actionId && request.hash == hash && !IsExpired(request, now)
  }

  /** The in-memory gate and the durable UPDATE agree: an approval is valid for an
      action exactly when the UPDATE for that action's id and hash would match. */
  lemma ValidIffConsumable(request: Request, subject: Subject, now: int)
    ensures Valid(request, subject, now) <==> Consumable(request, subject.id, subject.hash, now)
  {
  }

  /** Authorization succeeds exactly where the durable UPDATE would match, for an action
      that is waiting for it. */
  lemma AuthorizeIff(subject: Subject, request: Request, now: int)
    ensures Authorize(subject, request, now).Ok? <==>
              Consumable(request, subject.id, subject.hash, now) && subject.status == WaitingForApproval
    ensures Authorize(subject, request, now).Ok? ==> Authorize(subject, request, now).value == ActionStatus.Approved
  {
  }

  /** A refusal closes exactly these actions: a rejection one that has not been approved
      yet, a cancellation or an expiry one that has not ended, succeeded or gone into
      verification either; always its own request's action, and the action ends
      REJECTED or CANCELLED accordingly. */
  lemma FinalizeIff(subject: Subject, request: Request)
    ensures Finalize(subject, request) == Ok(ActionStatus.Rejected) <==>
              && request.actionId == subject.id && request.status == Status.Rejected
              && subject.status in {Planned, Validated, PermissionChecked, WaitingForApproval}
    ensures Finalize(subject, request) == Ok(ActionStatus.Cancelled) <==>
              && request.actionId == subject.id && request.status in {Status.Cancelled, Status.Expired}
              && subject.status in {Planned, Validated, PermissionChecked, WaitingForApproval, ActionStatus.Approved,
                                    Executing, Blocked}
    ensures Finalize(subject, request).Ok? ==>
              Finalize(subject, request).value in {ActionStatus.Rejected, ActionStatus.Cancelled}
  {
  }

  /** A request is created exactly for an authoritative, permission-checked action whose
      verdict demands one; it then names that action and payload and always expires. */
  lemma CreateIff(subject: Subject, decision: Decision, requestedBy: string, expiresAt: Option<int>, now: int)
    ensures var r := Create(subject, decision, requestedBy, expiresAt, now);
            && (r.Ok? <==>
                  && decision.outcome == RequireApproval && decision.approvalRequired
                  && subject.status == PermissionChecked
                  && subject.hash.level == decision.level && subject.hash.risk == decision.risk && requestedBy != "")
            && (r.Ok? ==>
                  && r.value.actionId == subject.id && r.value.hash == subject.hash
                  && r.value.requestedBy == requestedBy
                  && r.value.status == Pending && !r.value.consumed && r.value.decidedBy.None?
                  && (forall t :: IsExpired(r.value, t) <==> t >= if expiresAt.Some? then expiresAt.value
                      else now + DEFAULT_TTL))
  {
  }

  datatype Move = Decided(kind: Kind, who: string) | Lapse(now: int) | Use(subject: Option<Subject>, now: int)

  function Apply(request: Request, move: Move): Result<Request, Error> {
    match move
    case Decided(kind, who) => Decide(request, kind, who)
    case Lapse(now) => Expire(request, now)
    case Use(subject, now) => Consume(request, subject, now)
  }

  /** Moves that are refused leave the request as it was. */
  function Replay(request: Request, moves: seq<Move>): Request
    decreases |moves|
  {
    if moves == [] then request
    else
      var before := Replay(request, moves[..|moves| - 1]);
      var after := Apply(before, moves[|moves| - 1]);
      if after.Ok? then after.value else before
  }

  function Uses(request: Request, moves: seq<Move>): nat
    decreases |moves|
  {
    if moves == [] then 0
    else
      Uses(request, moves[..|moves| - 1])
      + (if moves[|moves| - 1].Use? && Apply(Replay(request, moves[..|moves| - 1]), moves[|moves| - 1]).Ok? then 1
         else 0)
  }

  /** Over every history of decisions, expiries and uses of a new request: it is bound
      for ever to the payload and requester it was made for, it is used at most
      once, it is consumed exactly when it was used, and a used one was approved by
      somebody else than the requester. */
  lemma {:induction false} SingleUse(request: Request, moves: seq<Move>)
    requires request.status == Pending && !request.consumed && request.decidedBy.None?
    ensures var last := Replay(request, moves);
            && last.actionId == request.actionId && last.hash == request.hash
            && last.requestedBy == request.requestedBy && last.expiresAt == request.expiresAt
            && Uses(request, moves) <= 1
            && (last.consumed <==> Uses(request, moves) == 1)
            && (last.status != Pending ==> last.decidedBy.Some? && last.decidedBy.value != "")
            && (last.status == Status.Approved ==> last.decidedBy.value != request.requestedBy)
            && (last.consumed ==> last.status == Status.Approved)
    decreases |moves|
  {
    if moves != [] {
      SingleUse(request, moves[..|moves| - 1]);
    }
  }
}
