/** The permission engine: an authoritative decision from the action type and the
    resolved tool, with the proposed levels only reported on. */
module Permission {
  import opened Domain

  datatype Level = Read | Write | ExternalAction | FinancialAction | Admin

  datatype Risk = Low | Medium | High | Critical

  datatype Outcome = Allow | AllowWithAudit | RequireApproval | Block

  datatype Tool = Tool(supported: set<string>, level: Level, risk: Risk, enabled: bool)

  type Registry = map<string, Tool>

  /** What the engine reads of an action; `level` and `risk` are proposals. */
  datatype Proposal = Proposal(actionType: string, toolName: Option<string>, level: Level, risk: Risk)

  datatype Decision = Decision(outcome: Outcome, level: Level, risk: Risk, approvalRequired: bool, reasons: seq<string>)

  function LevelRank(level: Level): nat {
    match level
    case Read => 0
    case Write => 1
    case ExternalAction => 2
    case FinancialAction => 3
    case Admin => 4
  }

  function RiskRank(risk: Risk): nat {
    match risk
    case Low => 0
    case Medium => 1
    case High => 2
    case Critical => 3
  }

  function MaxLevel(a: Level, b: Level): Level {
    if LevelRank(a) >= LevelRank(b) then a else b
  }

  function MaxRisk(a: Risk, b: Risk): Risk {
    if RiskRank(a) >= RiskRank(b) then a else b
  }

  predicate RequiresTool(actionType: string) {
    actionType !in {"internal", "no_op", "manual", "decision_only"}
  }

  /** The escalation floor of an action type; `None` for an unknown one. */
  function Floor(actionType: string): Option<(Level, Risk)> {
    if actionType == "read" then Some((Read, Low))
    else if actionType == "internal_create" || actionType == "sandbox_create" then Some((Write, Low))
    else if actionType == "external_modify" then Some((ExternalAction, Medium))
    else if actionType == "send" || actionType == "publish" || actionType == "delete" then Some((ExternalAction, High))
    else if actionType == "financial" then Some((FinancialAction, Critical))
    else if actionType == "install" || actionType == "privileged" then Some((Admin, Critical))
    else None
  }

  function OutcomeOf(level: Level): Outcome {
    match level
    case Read => Allow
    case Write => AllowWithAudit
    case ExternalAction => RequireApproval
    case FinancialAction => RequireApproval
    case Admin => Block
  }

  function EscalationReasons(proposal: Proposal, level: Level, risk: Risk): seq<string> {
    (if LevelRank(proposal.level) < LevelRank(level) then ["PERMISSION_ESCALATED"] else [])
    + (if RiskRank(proposal.risk) < RiskRank(risk) then ["RISK_ESCALATED"] else [])
  }

  function Refuse(level: Level, risk: Risk, reason: string): Decision {
    Decision(Block, level, risk, false, [reason, "POLICY_BLOCK"])
  }

  datatype Resolution = Resolved(tool: Tool) | UnknownTool | ToolDisabled | UnsupportedType

  function Resolve(registry: Registry, name: string, actionType: string): Resolution {
    if name !in registry then UnknownTool
    else if !registry[name].enabled then ToolDisabled
    else if actionType !in registry[name].supported then UnsupportedType
    else Resolved(registry[name])
  }

  function LeadingReasons(outcome: Outcome): seq<string> {
    match outcome
    case Allow => ["TOOL_ALLOWED"]
    case AllowWithAudit => ["TOOL_ALLOWED", "AUDIT_REQUIRED"]
    case RequireApproval => ["APPROVAL_REQUIRED"]
    case Block => ["FORBIDDEN_CAPABILITY", "POLICY_BLOCK"]
  }

  function EvaluateWithTool(proposal: Proposal, floor: (Level, Risk), tool: Tool): Decision {
    var level := MaxLevel(floor.0, tool.level);
    var risk := MaxRisk(floor.1, tool.risk);
    var outcome := OutcomeOf(level);
    Decision(outcome, level, risk, outcome == RequireApproval,
             LeadingReasons(outcome) + EscalationReasons(proposal, level, risk)
             + (if risk == High || risk == Critical then ["HIGH_RISK"] else []))
  }

  function Evaluate(proposal: Proposal, registry: Registry): Decision {
    if !RequiresTool(proposal.actionType) then
      Decision(Allow, Read, Low, false, ["TOOL_ALLOWED"] + EscalationReasons(proposal, Read, Low))
    else
      match Floor(proposal.actionType)
      case None => Refuse(Admin, Critical, "UNSUPPORTED_ACTION_TYPE")
      case Some(floor) =>
        if proposal.toolName.None? || proposal.toolName.value == "" then Refuse(floor.0, floor.1, "MISSING_TOOL")
        else
          match Resolve(registry, proposal.toolName.value, proposal.actionType)
          case UnknownTool => Refuse(floor.0, floor.1, "UNKNOWN_TOOL")
          case ToolDisabled => Refuse(floor.0, floor.1, "TOOL_DISABLED")
          case UnsupportedType => Refuse(floor.0, floor.1, "UNSUPPORTED_ACTION_TYPE")
          case Resolved(tool) => EvaluateWithTool(proposal, floor, tool)
  }

  /** The tool an action runs with, when the registry has one for it. */
  function RunnableTool(proposal: Proposal, registry: Registry): Option<Tool> {
    if proposal.toolName.Some? && proposal.toolName.value in registry
       && registry[proposal.toolName.value].enabled
       && proposal.actionType in registry[proposal.toolName.value].supported
    then Some(registry[proposal.toolName.value]) else None
  }

  /** Proposed levels cannot be used to negotiate: two proposals that differ only
      in them get the same verdict, and the leading reasons differ at most in the
      reported escalations. */
  lemma ProposedLevelsAreIgnored(proposal: Proposal, level: Level, risk: Risk, registry: Registry)
    ensures var a := Evaluate(proposal, registry);
            var b := Evaluate(proposal.(level := level, risk := risk), registry);
            a.outcome == b.outcome && a.level == b.level && a.risk == b.risk && a.approvalRequired == b.approvalRequired
  {
    match Floor(proposal.actionType)
    case None =>
    case Some(_) =>
  }

  /** The four outcomes, each by exactly what brings it about, in terms of the
      action's type floor and its tool alone. A verdict other than BLOCK always
      reports a level at or above both floors. */
  lemma OutcomeCharacterised(proposal: Proposal, registry: Registry)
    ensures var d := Evaluate(proposal, registry);
            var floor := Floor(proposal.actionType);
            var tool := RunnableTool(proposal, registry);
            var named := proposal.toolName.Some? && proposal.toolName.value != "";
            && (d.outcome == Block <==>
                  RequiresTool(proposal.actionType)
                  && (floor.None? || !named || tool.None? || floor.value.0 == Admin || tool.value.level == Admin))
            && (d.outcome == RequireApproval <==> d.approvalRequired)
            && (d.outcome == RequireApproval <==>
                  && RequiresTool(proposal.actionType) && floor.Some? && named && tool.Some?
                  && floor.value.0 != Admin && tool.value.level != Admin
                  && LevelRank(MaxLevel(floor.value.0, tool.value.level)) >= 2)
            && (d.outcome != Block && RequiresTool(proposal.actionType) ==>
                  && floor.Some? && tool.Some?
                  && LevelRank(d.level) >= LevelRank(floor.value.0) && LevelRank(d.level) >= LevelRank(tool.value.level)
                  && RiskRank(d.risk) >= RiskRank(floor.value.1) && RiskRank(d.risk) >= RiskRank(tool.value.risk)
                  && d.level in {floor.value.0, tool.value.level} && d.risk in {floor.value.1, tool.value.risk})
  {
    match Floor(proposal.actionType)
    case None =>
    case Some(_) =>
  }

  /** The outcome by action type, whatever is proposed. Internal work is allowed without a
      tool; reading is allowed, and creating allowed with an audit, with a tool of that
      level; external and financial actions are never allowed without an approval; and
      installing, privileged and unknown actions are always blocked. */
  lemma OutcomeByType(proposal: Proposal, registry: Registry)
    ensures var (actionType, d) := (proposal.actionType, Evaluate(proposal, registry));
            var known := {"internal", "no_op", "manual", "decision_only", "read", "internal_create", "sandbox_create",
                          "external_modify", "send", "publish", "delete", "financial", "install", "privileged"};
            var tool := if proposal.toolName == Some("") then None else RunnableTool(proposal, registry);
            && (actionType in {"internal", "no_op", "manual", "decision_only"} ==>
                d.outcome == Allow && d.level == Read && d.risk == Low)
            && (actionType == "read" ==>
                d.outcome == if tool.None? then Block else
                  match tool.value.level
                  case Read => Allow
                  case Write => AllowWithAudit
                  case Admin => Block
                  case _ => RequireApproval)
            && (actionType in {"internal_create", "sandbox_create"} ==>
                d.outcome == if tool.None? then Block else
                  match tool.value.level
                  case Read => AllowWithAudit
                  case Write => AllowWithAudit
                  case Admin => Block
                  case _ => RequireApproval)
            && (actionType in {"external_modify", "send", "publish", "delete", "financial"} ==>
                d.outcome == if tool.None? || tool.value.level == Admin then Block else RequireApproval)
            && (actionType in {"send", "publish", "delete"} ==> d.risk in {High, Critical})
            && (actionType == "financial" ==> d.risk == Critical)
            && (actionType in {"install", "privileged"} ==> d.outcome == Block)
            && (actionType !in known ==> d.outcome == Block)
  {
    match Floor(proposal.actionType)
    case None =>
    case Some(_) =>
  }

  lemma EscalationsMean(proposal: Proposal, level: Level, risk: Risk, reason: string)
    ensures reason in EscalationReasons(proposal, level, risk) <==>
              || (reason == "PERMISSION_ESCALATED" && LevelRank(proposal.level) < LevelRank(level))
              || (reason == "RISK_ESCALATED" && RiskRank(proposal.risk) < RiskRank(risk))
  {
    hide LevelRank, RiskRank;
  }

  lemma LeadingMean(outcome: Outcome, reason: string)
    ensures reason in LeadingReasons(outcome) <==>
              || (reason == "TOOL_ALLOWED" && outcome in {Allow, AllowWithAudit})
              || (reason == "AUDIT_REQUIRED" && outcome == AllowWithAudit)
              || (reason == "APPROVAL_REQUIRED" && outcome == RequireApproval)
              || (reason in {"FORBIDDEN_CAPABILITY", "POLICY_BLOCK"} && outcome == Block)
  {
  }

  /** The reasons of a verdict that rests on a tool: what follows from the outcome, what the
      proposal understated, and a risk that is high. */
  lemma ReasonsWithTool(proposal: Proposal, floor: (Level, Risk), tool: Tool, reason: string)
    ensures var d := EvaluateWithTool(proposal, floor, tool);
            reason in d.reasons <==>
              || (reason == "TOOL_ALLOWED" && d.outcome in {Allow, AllowWithAudit})
              || (reason == "AUDIT_REQUIRED" && d.outcome == AllowWithAudit)
              || (reason == "APPROVAL_REQUIRED" && d.outcome == RequireApproval)
              || (reason in {"FORBIDDEN_CAPABILITY", "POLICY_BLOCK"} && d.outcome == Block)
              || (reason == "PERMISSION_ESCALATED" && LevelRank(proposal.level) < LevelRank(d.level))
              || (reason == "RISK_ESCALATED" && RiskRank(proposal.risk) < RiskRank(d.risk))
              || (reason == "HIGH_RISK" && d.risk in {High, Critical})
  {
    hide LevelRank, RiskRank, MaxLevel, MaxRisk, OutcomeOf, LeadingReasons, EscalationReasons;
    var d := EvaluateWithTool(proposal, floor, tool);
    LeadingMean(d.outcome, reason);
    EscalationsMean(proposal, d.level, d.risk, reason);
  }

  /** Why a verdict is given, reason by reason, for every action type, tool and registry. A
      refusal names what is missing; what is done without a tool has nothing to report, and
      what is done with one is `ReasonsWithTool`. */
  lemma ReasonsByCause(proposal: Proposal, registry: Registry, reason: string)
    ensures var d := Evaluate(proposal, registry);
            var floor, named := Floor(proposal.actionType), proposal.toolName !in {None, Some("")};
            var tool := RunnableTool(proposal, registry);
            if !RequiresTool(proposal.actionType) then
              d.reasons == ["TOOL_ALLOWED"]
            else if floor.Some? && named && tool.Some? then
              d == EvaluateWithTool(proposal, floor.value, tool.value)
            else
              reason in d.reasons <==>
                || reason == "POLICY_BLOCK"
                || (reason == "UNSUPPORTED_ACTION_TYPE" &&
                      (floor.None? || (named && proposal.toolName.value in registry
                                             && registry[proposal.toolName.value].enabled)))
                || (reason == "MISSING_TOOL" && floor.Some? && !named)
                || (reason == "UNKNOWN_TOOL" && floor.Some? && named && proposal.toolName.value !in registry)
                || (reason == "TOOL_DISABLED" && floor.Some? && named && proposal.toolName.value in registry
                    && !registry[proposal.toolName.value].enabled)
  {
    hide RequiresTool, Floor, EvaluateWithTool;
  }
}
