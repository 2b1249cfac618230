/** The lines of the usage log as a reader sees them: src/plk_memory/usage_records.py:70-109 drops texts, numbers and
    lists of the wrong type, so that each is there, null or missing. The fields it does not check are only ever
    compared with texts, where any other value counts like none. */
module UsageRecords {
  import opened Domain
  import opened Ordering

  datatype Tool = SearchTool | IntentTool | DecisionTool | ActionTool | OtherTool

  /** A list that is iterated without a test for null. */
  datatype Ids = Missing | Null | Ids(ids: seq<string>)

  datatype IntentCommand = IntentCommand(
    traceId: string, operationType: string, intent: string, target: Option<string>, sideEffect: string,
    requirement: string, noSearchReason: Option<string>)

  datatype DecisionCommand = DecisionCommand(
    decisionId: string, searchIds: seq<string>, usedFactIds: seq<string>, effect: string,
    noUseReason: Option<string>, traceId: Option<string>)

  datatype ActionCommand = ActionCommand(
    eventId: string, actionId: string, traceId: string, phase: string, actionType: string, toolName: Option<string>,
    target: Option<string>, sideEffect: string, outcome: string, decisionId: Option<string>, errorCategory: Option<string>)

  /** What a request hash is taken over. The hash is injective, so the command stands for it. */
  datatype Request = IntentRequest(intent: IntentCommand) | DecisionRequest(decision: DecisionCommand) | ActionRequest(action: ActionCommand)

  /** One record. Any field can be absent, whatever the tool: the log may have been edited by hand. */
  datatype Record = Record(
    tool: Tool, client: Option<string>, outcome: Option<string>, hits: Option<int>, searchId: Option<string>,
    traceId: Option<string>, factIds: Ids, decisionId: Option<string>, searchIds: Ids,
    usedFactIds: Option<seq<string>>, effect: Option<string>, noUseReason: Option<string>, sideEffect: Option<string>,
    eventId: Option<string>, actionId: Option<string>, phase: Option<string>, request: Option<Request>)

  const BLANK := Record(OtherTool, None, None, None, None, None, Missing, None, Missing, None, None, None, None, None, None, None, None)

  const USING: set<string> := {"changed_action", "prevented_error", "confirmed"}
  const STRONG: set<string> := {"changed_action", "prevented_error"}
  const NO_USE: set<string> := {"irrelevant", "already_known", "stale", "conflict", "insufficient"}

  /** An effect and a reason for no use that the tool contract allows together with these facts. */
  predicate EffectFits(effect: string, used: seq<string>, noUse: Option<string>) {
    if effect == "none" then used == [] && noUse.Some? && noUse.value in NO_USE
    else effect in USING && used != [] && noUse.None?
  }

  ghost predicate ValidDecision(c: DecisionCommand) {
    && 1 <= |c.searchIds| <= 20 && |c.usedFactIds| <= 100
    && Distinct(c.searchIds) && Distinct(c.usedFactIds)
    && EffectFits(c.effect, c.usedFactIds, c.noUseReason)
  }

  predicate ValidIntent(c: IntentCommand) {
    && c.traceId != "" && |c.traceId| <= 64
    && c.sideEffect in {"read", "local_write", "external_write", "destructive"}
    && c.requirement in {"required", "optional", "not_required"}
    && (c.sideEffect in {"external_write", "destructive"} ==> c.requirement == "required")
    && (c.requirement == "not_required" <==> c.noSearchReason.Some?)
  }

  predicate ValidAction(c: ActionCommand) {
    && (c.phase == "attempted" || c.phase == "completed")
    && (c.phase == "attempted" <==> c.outcome == "pending")
    && (c.outcome != "failed" ==> c.errorCategory.None?)
  }
}
