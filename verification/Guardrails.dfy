/** The runtime guard's pre-check (guardrails.py). */
module Guardrails {
  import opened Values
  import opened Text
  import opened ToolPermissions

  datatype Risk = Low | Medium | High

  datatype ToolDefinition = ToolDefinition(
    riskLevel: Risk,
    requiresConfirmation: bool,
    allowedSourceTypes: set<string>,
    hasHandler: bool,
    enabled: bool)

  type Registry = map<string, ToolDefinition>

  /** `AgentToolRegistry.get`: disabled tools are not found. */
  function Lookup(registry: Registry, name: string): Option<ToolDefinition> {
    if name in registry && registry[name].enabled then Some(registry[name]) else None
  }

  /** The guard's own settings: the call budget and the names of the low-risk runtime capabilities. */
  datatype Settings = Settings(maxToolCalls: int, lowRiskTools: set<string>)

  const DEFAULT_SETTINGS := Settings(10, {
    "external.web_search", "database.company_search", "database.company_list", "database.company_profile",
    "database.job_search", "database.source_search", "local.company_database_overview",
    "local.job_source_overview", "offerio.sync_company_jobs", "skill_list", "skill_list_actions", "skill_read",
    "resume.tailor"})

  datatype ErrorCode =
    | ToolNotRegistered
    | ToolBudgetExceeded
    | ToolSkillDenied
    | ToolSkillConfirmationRequired
    | ToolSourceTypeNotAllowed
    | ToolUserConfirmationRequired

  datatype NextAction = Continue | Stop | SelectAlternativeTool | RequestUserConfirmation

  datatype GuardResult = Passed | Blocked(error: ErrorCode, next: NextAction, retryable: bool)

  datatype CallContext = CallContext(toolName: string, sourceType: Option<string>, toolCallCount: nat,
                                     userConfirmed: bool)

  /** `_allows_low_risk_runtime_capability`. */
  predicate AllowsLowRisk(c: CallContext, d: ToolDefinition, p: Policy, settings: Settings) {
    && c.toolName in settings.lowRiskTools
    && d.riskLevel != High
    && !d.requiresConfirmation
    && c.toolName !in p.askTools
    && c.toolName !in p.allowedTools
  }

  predicate SourceTypeAllowed(c: CallContext, d: ToolDefinition) {
    d.allowedSourceTypes == {} || (c.sourceType.Some? && c.sourceType.value in d.allowedSourceTypes)
  }

  /** `pre_check`: the first failing rule decides. */
  function PreCheck(c: CallContext, registry: Registry, policy: Option<Policy>, settings: Settings): GuardResult {
    var found := Lookup(registry, c.toolName);
    if found.None? then Blocked(ToolNotRegistered, Stop, false)
    else if c.toolCallCount >= settings.maxToolCalls then Blocked(ToolBudgetExceeded, Stop, false)
    else
      var d := found.value;
      var decision := if policy.Some? then Decide(policy.value, c.toolName, c.userConfirmed) else Allow;
      if decision == Deny then Blocked(ToolSkillDenied, Stop, false)
      else if decision == Ask && !AllowsLowRisk(c, d, policy.value, settings) then
        Blocked(ToolSkillConfirmationRequired, RequestUserConfirmation, true)
      else if !SourceTypeAllowed(c, d) then Blocked(ToolSourceTypeNotAllowed, SelectAlternativeTool, false)
      else if d.requiresConfirmation && !c.userConfirmed then
        Blocked(ToolUserConfirmationRequired, RequestUserConfirmation, true)
      else Passed
  }

  /**
   Exactly the calls that pass: registered, within budget, not denied, from an allowed source, and confirmed wherever a
   confirmation is due.
   */
  lemma PassesIff(c: CallContext, registry: Registry, policy: Option<Policy>, settings: Settings)
    ensures PreCheck(c, registry, policy, settings) == Passed <==>
            && Lookup(registry, c.toolName).Some?
            && c.toolCallCount < settings.maxToolCalls
            && (policy.Some? ==> Decide(policy.value, c.toolName, c.userConfirmed) != Deny)
            && SourceTypeAllowed(c, registry[c.toolName])
            && (registry[c.toolName].requiresConfirmation ==> c.userConfirmed)
            && (policy.Some? && Decide(policy.value, c.toolName, false) == Ask ==>
                  c.userConfirmed || AllowsLowRisk(c, registry[c.toolName], policy.value, settings))
  {
    hide Strip;
  }

  /**
   Confirmation is monotone: what passes unconfirmed passes confirmed, and a confirmed call is never sent back for
   confirmation. An unconfirmed call is sent for confirmation only when the same call, confirmed, passes or is refused
   for its source type.
   */
  lemma ConfirmationIsMonotone(c: CallContext, registry: Registry, policy: Option<Policy>, settings: Settings)
    ensures var asked := PreCheck(c.(userConfirmed := false), registry, policy, settings);
            var confirmed := PreCheck(c.(userConfirmed := true), registry, policy, settings);
            && (asked == Passed ==> confirmed == Passed)
            && (confirmed.Blocked? ==> confirmed.next != RequestUserConfirmation)
            && (asked.Blocked? && asked.next == RequestUserConfirmation ==>
                  confirmed == Passed || confirmed == Blocked(ToolSourceTypeNotAllowed, SelectAlternativeTool, false))
  {
    if policy.Some? { ConfirmationOnlyAllows(policy.value, c.toolName); }
  }

  /** Policies with the same three tool lists, as sets, guard every call alike. */
  lemma SameListsGuardAlike(c: CallContext, registry: Registry, settings: Settings, p: Policy, q: Policy)
    requires forall t :: t in p.allowedTools <==> t in q.allowedTools
    requires forall t :: t in p.askTools <==> t in q.askTools
    requires forall t :: t in p.disallowedTools <==> t in q.disallowedTools
    ensures PreCheck(c, registry, Some(p), settings) == PreCheck(c, registry, Some(q), settings)
  {
    if p.allowedTools != [] { assert p.allowedTools[0] in q.allowedTools; }
    if q.allowedTools != [] { assert q.allowedTools[0] in p.allowedTools; }
    assert Decide(p, c.toolName, c.userConfirmed) == Decide(q, c.toolName, c.userConfirmed);
    var found := Lookup(registry, c.toolName);
    if found.Some? {
      assert AllowsLowRisk(c, found.value, p, settings) <==> AllowsLowRisk(c, found.value, q, settings);
    }
  }

  /** The guard's verdict is the same for every order of the loaded skills, before and after the policy's snapshot. */
  lemma GuardIgnoresSkillOrderAndSnapshot(c: CallContext, registry: Registry, settings: Settings, skills: seq<Skill>,
                                          others: seq<Skill>)
    requires forall s :: s in skills <==> s in others
    ensures PreCheck(c, registry, Some(Merged(skills)), settings) ==
            PreCheck(c, registry, Some(Merged(others)), settings)
    ensures PreCheck(c, registry, Some(FromSnapshot(ToMetadata(Merged(skills)))), settings) ==
            PreCheck(c, registry, Some(Merged(skills)), settings)
  {
    forall t
      ensures t in Merged(skills).allowedTools <==> t in Merged(others).allowedTools
      ensures t in Merged(skills).askTools <==> t in Merged(others).askTools
      ensures t in Merged(skills).disallowedTools <==> t in Merged(others).disallowedTools
    {
      MergedTools(skills, AllowedTools, t);
      MergedTools(others, AllowedTools, t);
      MergedTools(skills, AskTools, t);
      MergedTools(others, AskTools, t);
      MergedTools(skills, DisallowedTools, t);
      MergedTools(others, DisallowedTools, t);
    }
    SameListsGuardAlike(c, registry, settings, Merged(skills), Merged(others));
    SnapshotKeepsDecisions(skills, c.toolName, c.userConfirmed);
    SameListsGuardAlike(c, registry, settings, FromSnapshot(ToMetadata(Merged(skills))), Merged(skills));
  }
}
