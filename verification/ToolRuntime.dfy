/**
 One entry of the tool node (graph_factory.py, agent_as_tool.py): validation, the guard, the runtime's own permission
 check, the executor, and the log and transcript that every recorded call leaves behind.

 Executors, argument completion and payload reading are oracles: each entry receives what they answered.
 */
module ToolRuntime {
  import opened Values
  import opened ToolPermissions
  import opened Guardrails
  import opened Checkpoints

  datatype Step = BuildContext | PlanOrReply | MaybeTool | WaitConfirmation | WaitUserInput | ApprovalRejected
      | FinalResponse

  function StepName(s: Step): (name: string)
    ensures name != ""
  {
    match s
    case BuildContext => "build_context"
    case PlanOrReply => "plan_or_reply"
    case MaybeTool => "maybe_tool"
    case WaitConfirmation => "wait_confirmation"
    case WaitUserInput => "wait_user_input"
    case ApprovalRejected => "approval_rejected"
    case FinalResponse => "final_response"
  }

  // ----- configuration -----

  datatype Capability = Capability(executorId: string, kindIsTool: bool, requiresConfirmation: bool,
                                   allowedSourceTypes: set<string>)

  /** The names the runtime treats specially. */
  datatype RuntimeNames = RuntimeNames(filesystemSkill: string, filesystemExecutor: string, registryExecutor: string,
                                       legacyFilesystem: set<string>)

  const REPOSITORY_NAMES := RuntimeNames("skill.filesystem", "skill_executor.filesystem", "agent_tool_registry", {
    "filesystem.list_dir", "filesystem.path_exists", "filesystem.path_stat", "filesystem.read_file",
    "filesystem.write_text", "filesystem.replace_text", "filesystem.copy_file", "filesystem.move_file",
    "filesystem.delete_path", "filesystem.make_dir"})

  /** One deployment: its registries, and the clock and row ids its checkpoint saves read. */
  datatype Config = Config(
    names: RuntimeNames,
    registry: Registry,
    capabilities: map<string, Capability>,
    agentExecutors: set<string>,
    settings: Settings,
    precision: Resolution,
    clock: nat -> int,
    rowId: nat -> int)

  // ----- state and database -----

  datatype Payload = Payload(
    requestedTool: string,
    sourceType: Option<string>,
    toolInput: Option<Fields>,
    sdk: bool,
    resumable: bool,
    outerTool: string)

  /** The part of the agent state the protocol reads and writes. */
  datatype RunState = RunState(
    run: nat,
    step: Step,
    toolCallIds: seq<nat>,
    llmMessages: seq<nat>,
    requestedTool: string,
    sourceType: string,
    approvalId: Option<nat>,
    policy: Option<Policy>,
    runtimeApproval: Option<Payload>,
    sdkApproval: Option<Payload>)

  datatype RunStatus = Running | WaitingUser | Completed | Canceled

  datatype Workflow = Workflow(status: RunStatus, step: Step, approvalId: Option<nat>)

  /** A deleted approval's row is gone: it can no longer be found. */
  datatype ApprovalStatus = Pending | Approved | Rejected | Deleted

  datatype Approval = Approval(run: nat, status: ApprovalStatus, actionType: string, payload: Payload)

  datatype LogStatus = Succeeded | Failed | BlockedLog

  datatype ToolLog = ToolLog(run: nat, tool: string, status: LogStatus)

  /** Transcript messages: a tool call and its result carry the log's id, and the result names its call as parent. */
  datatype Message = Chat | ToolCall(run: nat, logId: nat) | ToolResult(run: nat, logId: nat, parent: nat)

  datatype Db = Db(
    workflows: seq<Workflow>,
    approvals: seq<Approval>,
    rows: seq<Row<nat, RunState>>,
    toolLogs: seq<ToolLog>,
    messages: seq<Message>)

  // ----- commands, oracles, effects -----

  datatype Command = Command(tool: string, sourceType: string, confirmed: bool, input: Fields)

  datatype ApprovalRequest = ApprovalRequest(toolName: string, toolInput: Fields, resumable: bool)

  datatype Outcome = Raised | Returned(failed: bool, ok: bool, request: Option<ApprovalRequest>)

  /** What the unseen code answered for one entry of the node. */
  datatype NodeOracle = NodeOracle(input: Fields, invalid: bool, inputsMissing: bool, outcome: Outcome,
                                   waitsForInput: bool)

  /** What the outside world sees: entries of the node, executor calls, resumptions of a child agent. */
  datatype Effect =
    | Entered(run: nat, tool: string, confirmed: bool, input: Fields)
    | Executed(run: nat, tool: string, confirmed: bool, guarded: bool, logged: bool)
    | Resumed(run: nat, confirmed: bool)

  // ----- the runtime call -----

  datatype Called = Called(executed: bool, outcome: Outcome)

  predicate RuntimePermits(c: Capability, cmd: Command) {
    (c.allowedSourceTypes == {} || cmd.sourceType in c.allowedSourceTypes) && (c.requiresConfirmation ==> cmd.confirmed)
  }

  predicate ExecutorPresent(cfg: Config, id: string) {
    id == cfg.names.registryExecutor || id == cfg.names.filesystemExecutor || id in cfg.agentExecutors
  }

  /** `AgentRuntime.call`: the executor runs only past the legacy block, the input check and the permission check. */
  function RuntimeCall(cfg: Config, c: Capability, cmd: Command, o: NodeOracle): Called {
    if cmd.tool in cfg.names.legacyFilesystem && c.executorId == cfg.names.registryExecutor then
      Called(false, Returned(true, false, None))
    else if o.inputsMissing then Called(false, Returned(true, false, None))
    else if !RuntimePermits(c, cmd) then
      // An unconfirmed call waits for the user; its result is not marked failed.
      Called(false, Returned(!(c.allowedSourceTypes == {} || cmd.sourceType in c.allowedSourceTypes), false, None))
    else if !ExecutorPresent(cfg, c.executorId) then Called(false, Returned(true, false, None))
    else Called(true, o.outcome)
  }

  // ----- the tool node -----

  datatype Node = Node(db: Db, state: RunState, effects: seq<Effect>)

  function Find(capabilities: map<string, Capability>, tool: string): Option<Capability> {
    if tool in capabilities then Some(capabilities[tool]) else None
  }

  /** `record_tool_call` and `_append_tool_pair_messages`: one log, one adjacent pair. */
  function RecordPair(db: Db, run: nat, tool: string, status: LogStatus): Db {
    var id, at := |db.toolLogs|, |db.messages|;
    db.(toolLogs := db.toolLogs + [ToolLog(run, tool, status)],
        messages := db.messages + [ToolCall(run, id), ToolResult(run, id, at)])
  }

  /** The state after a recorded call; every branch but one also hands the pair to the model. */
  function Recorded(db: Db, s: RunState, step: Step, handed: bool): RunState {
    s.(step := step,
       toolCallIds := s.toolCallIds + [|db.toolLogs|],
       llmMessages := s.llmMessages + (if handed then [|db.messages|, |db.messages| + 1] else []))
  }

  /** Whether the guard checks the call: registered tools that are not agent-level capabilities. */
  predicate GuardApplies(cfg: Config, tool: string) {
    var capability := Find(cfg.capabilities, tool);
    && tool != cfg.names.filesystemSkill
    && Lookup(cfg.registry, tool).Some?
    && (capability.None? || capability.value.kindIsTool)
  }

  /** A registered tool without a handler, or an unknown capability, cannot be run. */
  predicate HandlerUnavailable(cfg: Config, tool: string) {
    var capability, definition := Find(cfg.capabilities, tool), Lookup(cfg.registry, tool);
    capability.None? ||
    (definition.Some? && !definition.value.hasHandler &&
     !(capability.value.executorId != cfg.names.registryExecutor &&
       (capability.value.executorId == cfg.names.filesystemExecutor ||
        capability.value.executorId in cfg.agentExecutors)))
  }

  /** What the guard stage decides: stop in a step without a log, or go on. */
  function GuardStage(cfg: Config, s: RunState, cmd: Command): Option<Step> {
    if GuardApplies(cfg, cmd.tool) then
      var verdict := PreCheck(CallContext(cmd.tool, Some(cmd.sourceType), |s.toolCallIds|, cmd.confirmed), cfg.registry,
                              s.policy, cfg.settings);
      if verdict == Passed then None
      else if verdict.next == RequestUserConfirmation then Some(WaitConfirmation)
      else Some(MaybeTool)
    else if Find(cfg.capabilities, cmd.tool).Some? then None
    else Some(MaybeTool)
  }

  /** The payload a filesystem pause leaves in the metadata. */
  function RuntimePayload(r: ApprovalRequest, cmd: Command): Payload {
    Payload(if r.toolName == "" then cmd.tool else r.toolName, None, Some(r.toolInput), false, false, cmd.tool)
  }

  function SdkPayload(r: ApprovalRequest, cmd: Command): Payload {
    Payload(r.toolName, None, Some(r.toolInput), true, r.resumable, cmd.tool)
  }

  /** How one call to the runtime ends. */
  datatype Ending =
    | PausedUnlogged(runtimePayload: Payload)
    | PausedBySdk(sdkPayload: Payload)
    | PausedForInput
    | Settled(status: LogStatus)

  function EndingOf(cfg: Config, executorId: string, cmd: Command, o: NodeOracle, called: Called): Ending {
    match called.outcome
    case Raised => Settled(Failed)
    case Returned(failed, ok, request) =>
      if executorId == cfg.names.filesystemExecutor && request.Some? then
        PausedUnlogged(RuntimePayload(request.value, cmd))
      else if request.Some? && request.value.toolName != "" then PausedBySdk(SdkPayload(request.value, cmd))
      else if called.executed && o.waitsForInput then PausedForInput
      else Settled(if !failed && ok then Succeeded else Failed)
  }

  /** The database and state after a call that ended so. */
  function Finish(db: Db, s: RunState, cmd: Command, ending: Ending): (Db, RunState) {
    match ending
    case PausedUnlogged(payload) => (db, s.(step := WaitConfirmation, runtimeApproval := Some(payload)))
    case PausedBySdk(payload) =>
      (RecordPair(db, s.run, cmd.tool, BlockedLog),
       Recorded(db, s, WaitConfirmation, true).(sdkApproval := Some(payload)))
    case PausedForInput => (RecordPair(db, s.run, cmd.tool, BlockedLog), Recorded(db, s, WaitUserInput, true))
    case Settled(status) => (RecordPair(db, s.run, cmd.tool, status), Recorded(db, s, MaybeTool, true))
  }

  function RunCapability(cfg: Config, db: Db, s: RunState, cmd: Command, o: NodeOracle): Node
    requires Find(cfg.capabilities, cmd.tool).Some?
  {
    var c := cfg.capabilities[cmd.tool];
    var called := RuntimeCall(cfg, c, cmd, o);
    var ending := EndingOf(cfg, c.executorId, cmd, o, called);
    var finished := Finish(db, s, cmd, ending);
    Node(finished.0, finished.1,
         if called.executed then
           [Executed(s.run, cmd.tool, cmd.confirmed, GuardApplies(cfg, cmd.tool), !ending.PausedUnlogged?)] else [])
  }

  /** `_maybe_tool_node`. */
  function ToolNode(cfg: Config, db: Db, s: RunState, cmd: Command, o: NodeOracle): Node {
    var entered := [Entered(s.run, cmd.tool, cmd.confirmed, cmd.input)];
    if (Find(cfg.capabilities, cmd.tool).Some? || Lookup(cfg.registry, cmd.tool).Some?) && o.invalid then
      Node(db, s.(step := WaitUserInput), entered)
    else if GuardStage(cfg, s, cmd).Some? then
      Node(db, s.(step := GuardStage(cfg, s, cmd).value), entered)
    else if HandlerUnavailable(cfg, cmd.tool) then
      Node(RecordPair(db, s.run, cmd.tool, Failed), Recorded(db, s, MaybeTool, false), entered)
    else
      var node := RunCapability(cfg, db, s, cmd, o);
      node.(effects := entered + node.effects)
  }

  // ----- what one entry, or a sequence of entries, keeps -----

  /** The ids of a run's logs, in order. */
  function LogIds(logs: seq<ToolLog>, run: nat): (ids: seq<nat>)
    ensures forall i: nat :: i in ids <==> i < |logs| && logs[i].run == run
    ensures forall i, j :: 0 <= i < j < |ids| ==> ids[i] < ids[j]
  {
    if logs == [] then []
    else
      var front := LogIds(logs[..|logs| - 1], run);
      assert forall k :: 0 <= k < |front| ==> front[k] in front;
      if logs[|logs| - 1].run == run then front + [|logs| - 1] else front
  }

  lemma LogIdsAppend(logs: seq<ToolLog>, log: ToolLog, run: nat)
    ensures LogIds(logs + [log], run) == LogIds(logs, run) + (if log.run == run then [|logs|] else [])
  {
    assert (logs + [log])[..|logs|] == logs;
  }

  /** Every call message is directly followed by its result. */
  ghost predicate CallsAnswered(db: Db) {
    forall k :: 0 <= k < |db.messages| && db.messages[k].ToolCall? ==>
      && db.messages[k].logId < |db.toolLogs|
      && db.toolLogs[db.messages[k].logId].run == db.messages[k].run
      && k + 1 < |db.messages|
      && db.messages[k + 1] == ToolResult(db.messages[k].run, db.messages[k].logId, k)
  }

  /** Every result directly follows its call and names it as parent. */
  ghost predicate ResultsFollow(db: Db) {
    forall k :: 0 <= k < |db.messages| && db.messages[k].ToolResult? ==>
      k > 0 && db.messages[k - 1] == ToolCall(db.messages[k].run, db.messages[k].logId) &&
        db.messages[k].parent == k - 1
  }

  ghost predicate CallAt(db: Db, log: nat) {
    exists k :: 0 <= k < |db.messages| && db.messages[k].ToolCall? && db.messages[k].logId == log
  }

  /** No log has two calls. */
  ghost predicate CallsDistinct(db: Db) {
    forall k, l :: 0 <= k < l < |db.messages| && db.messages[k].ToolCall? && db.messages[l].ToolCall? ==>
      db.messages[k].logId != db.messages[l].logId
  }

  /**
   Every tool log has exactly one call message, directly followed by its result, which names it as parent; no tool
   message is stray.
   */
  ghost predicate Paired(db: Db) {
    && CallsAnswered(db) && ResultsFollow(db) && CallsDistinct(db)
    && (forall i :: 0 <= i < |db.toolLogs| ==> CallAt(db, i))
  }

  lemma RecordKeepsAdjacent(db: Db, run: nat, tool: string, status: LogStatus)
    requires CallsAnswered(db) && ResultsFollow(db)
    ensures CallsAnswered(RecordPair(db, run, tool, status)) && ResultsFollow(RecordPair(db, run, tool, status))
  {
  }

  lemma RecordKeepsDistinct(db: Db, run: nat, tool: string, status: LogStatus)
    requires CallsAnswered(db) && CallsDistinct(db)
    ensures CallsDistinct(RecordPair(db, run, tool, status))
  {
  }

  lemma RecordKeepsPaired(db: Db, run: nat, tool: string, status: LogStatus)
    requires Paired(db)
    ensures Paired(RecordPair(db, run, tool, status))
  {
    hide CallsAnswered, ResultsFollow, CallsDistinct;
    RecordKeepsAdjacent(db, run, tool, status);
    RecordKeepsDistinct(db, run, tool, status);
    var after := RecordPair(db, run, tool, status);
    assert after.messages[|db.messages|] == ToolCall(run, |db.toolLogs|);
    forall i | 0 <= i < |after.toolLogs| ensures CallAt(after, i) {
      if i < |db.toolLogs| {
        assert CallAt(db, i);
        var k :| 0 <= k < |db.messages| && db.messages[k].ToolCall? && db.messages[k].logId == i;
        assert after.messages[k] == db.messages[k];
      }
    }
  }

  /** Executor calls that the guard let through and that left a log. */
  function GuardedLogged(effects: seq<Effect>): nat {
    if effects == [] then 0
    else GuardedLogged(effects[..|effects| - 1]) +
         (var e := effects[|effects| - 1]; if e.Executed? && e.guarded && e.logged then 1 else 0)
  }

  lemma {:induction false} GuardedLoggedConcat(a: seq<Effect>, b: seq<Effect>)
    ensures GuardedLogged(a + b) == GuardedLogged(a) + GuardedLogged(b)
  {
    if b == [] { assert a + b == a; }
    else {
      assert (a + b)[..|a + b| - 1] == a + b[..|b| - 1];
      GuardedLoggedConcat(a, b[..|b| - 1]);
    }
  }

  /**
   What every effect of a run's entries satisfies: a capability that requires confirmation is executed only confirmed,
   and nothing is confirmed unless `confirmed`.
   */
  predicate EffectOk(cfg: Config, e: Effect, run: nat, confirmed: bool) {
    match e
    case Entered(r, _, c, _) => r == run && (c ==> confirmed)
    case Executed(r, tool, c, guarded, logged) =>
      && r == run && (c ==> confirmed)
      && tool in cfg.capabilities && (cfg.capabilities[tool].requiresConfirmation ==> c)
      && guarded == GuardApplies(cfg, tool)
      && (!logged ==> cfg.capabilities[tool].executorId == cfg.names.filesystemExecutor)
    case Resumed(r, c) => r == run && (c ==> confirmed)
  }

  /** From (db, s), entries of the node led to (db', s') with these effects. */
  ghost predicate Advances(cfg: Config, db: Db, s: RunState, db': Db, s': RunState, effects: seq<Effect>,
                           confirmed: bool) {
    && db'.workflows == db.workflows && db'.approvals == db.approvals && db'.rows == db.rows
    && |db.toolLogs| <= |db'.toolLogs| && db'.toolLogs[..|db.toolLogs|] == db.toolLogs
    && (forall i :: |db.toolLogs| <= i < |db'.toolLogs| ==> db'.toolLogs[i].run == s.run)
    && db.messages <= db'.messages
    && s'.run == s.run && s'.approvalId == s.approvalId
    && (Paired(db) ==> Paired(db'))
    && (s.toolCallIds == LogIds(db.toolLogs, s.run) ==> s'.toolCallIds == LogIds(db'.toolLogs, s.run))
    && s.toolCallIds <= s'.toolCallIds
    && (forall e <- effects :: EffectOk(cfg, e, s.run, confirmed))
    && GuardedLogged(effects) <= |s'.toolCallIds| - |s.toolCallIds|
    && (GuardedLogged(effects) > 0 ==> |s.toolCallIds| + GuardedLogged(effects) <= cfg.settings.maxToolCalls)
  }

  lemma AdvancesNot(cfg: Config, db: Db, s: RunState, confirmed: bool)
    ensures Advances(cfg, db, s, db, s, [], confirmed)
  {
  }

  lemma AdvancesTwice(cfg: Config, d0: Db, s0: RunState, d1: Db, s1: RunState, d2: Db, s2: RunState, e: seq<Effect>,
                      f: seq<Effect>, confirmed: bool)
    requires Advances(cfg, d0, s0, d1, s1, e, confirmed) && Advances(cfg, d1, s1, d2, s2, f, confirmed)
    ensures Advances(cfg, d0, s0, d2, s2, e + f, confirmed)
  {
    GuardedLoggedConcat(e, f);
    assert d2.toolLogs[..|d0.toolLogs|] == d2.toolLogs[..|d1.toolLogs|][..|d0.toolLogs|];
    forall i | |d0.toolLogs| <= i < |d2.toolLogs| ensures d2.toolLogs[i].run == s0.run {
      if i < |d1.toolLogs| { assert d2.toolLogs[i] == d2.toolLogs[..|d1.toolLogs|][i]; }
    }
  }

  /** The step and request fields are the caller's to set before an entry. */
  lemma AdvancesFrom(cfg: Config, db: Db, s: RunState, t: RunState, db': Db, s': RunState, effects: seq<Effect>,
                     confirmed: bool)
    requires t.run == s.run && t.approvalId == s.approvalId && t.toolCallIds == s.toolCallIds
    requires Advances(cfg, db, s, db', s', effects, confirmed)
    ensures Advances(cfg, db, t, db', s', effects, confirmed)
  {
  }

  lemma RecordAdvances(cfg: Config, db: Db, s: RunState, tool: string, status: LogStatus, s': RunState,
                       effects: seq<Effect>, confirmed: bool)
    requires s'.run == s.run && s'.approvalId == s.approvalId && s'.toolCallIds == s.toolCallIds + [|db.toolLogs|]
    requires forall e <- effects :: EffectOk(cfg, e, s.run, confirmed)
    requires GuardedLogged(effects) <= 1 && (GuardedLogged(effects) > 0 ==> |s.toolCallIds| < cfg.settings.maxToolCalls)
    ensures Advances(cfg, db, s, RecordPair(db, s.run, tool, status), s', effects, confirmed)
  {
    var log := ToolLog(s.run, tool, status);
    LogIdsAppend(db.toolLogs, log, s.run);
    if Paired(db) { RecordKeepsPaired(db, s.run, tool, status); }
  }

  /** One entry of the node advances the run, ends in one of three steps, and enters once, first. */
  lemma NodeAdvances(cfg: Config, db: Db, s: RunState, cmd: Command, o: NodeOracle)
    ensures var n := ToolNode(cfg, db, s, cmd, o);
            && Advances(cfg, db, s, n.db, n.state, n.effects, cmd.confirmed)
            && (n.state.step == MaybeTool || n.state.step == WaitConfirmation || n.state.step == WaitUserInput)
            && 1 <= |n.effects| <= 2 && n.effects[0] == Entered(s.run, cmd.tool, cmd.confirmed, cmd.input)
            && (|n.effects| == 2 ==> n.effects[1].Executed? && n.effects[1].tool == cmd.tool)
  {
    var n := ToolNode(cfg, db, s, cmd, o);
    var entered := Entered(s.run, cmd.tool, cmd.confirmed, cmd.input);
    assert GuardedLogged([entered]) == 0 by { assert [entered][..0] == []; }
    if (Find(cfg.capabilities, cmd.tool).Some? || Lookup(cfg.registry, cmd.tool).Some?) && o.invalid {
    } else if GuardStage(cfg, s, cmd).Some? {
    } else if HandlerUnavailable(cfg, cmd.tool) {
      RecordAdvances(cfg, db, s, cmd.tool, Failed, n.state, n.effects, cmd.confirmed);
    } else {
      CapabilityAdvances(cfg, db, s, cmd, o);
    }
  }

  lemma CapabilityAdvances(cfg: Config, db: Db, s: RunState, cmd: Command, o: NodeOracle)
    requires GuardStage(cfg, s, cmd).None? && Find(cfg.capabilities, cmd.tool).Some?
    ensures var n := RunCapability(cfg, db, s, cmd, o);
            var entered := Entered(s.run, cmd.tool, cmd.confirmed, cmd.input);
            && Advances(cfg, db, s, n.db, n.state, [entered] + n.effects, cmd.confirmed)
            && (n.state.step == MaybeTool || n.state.step == WaitConfirmation || n.state.step == WaitUserInput)
  {
    var n := RunCapability(cfg, db, s, cmd, o);
    var entered := Entered(s.run, cmd.tool, cmd.confirmed, cmd.input);
    var c := cfg.capabilities[cmd.tool];
    var called := RuntimeCall(cfg, c, cmd, o);
    var ending := EndingOf(cfg, c.executorId, cmd, o, called);
    var effects := [entered] + n.effects;
    GuardedLoggedConcat([entered], n.effects);
    assert GuardedLogged([entered]) == 0 by { assert [entered][..0] == []; }
    assert GuardedLogged(n.effects) ==
           (if called.executed && GuardApplies(cfg, cmd.tool) && !ending.PausedUnlogged? then 1 else 0) by {
      if called.executed { assert n.effects[..0] == []; }
    }
    assert GuardApplies(cfg, cmd.tool) ==> |s.toolCallIds| < cfg.settings.maxToolCalls;
    if !ending.PausedUnlogged? {
      RecordAdvances(cfg, db, s, cmd.tool, if ending.Settled? then ending.status else BlockedLog, n.state, effects,
                     cmd.confirmed);
    }
  }

  /**
   What an entry records. At most one log, of this tool and run; it reports success exactly when the executor ran and
   returned an ok result that neither asks for an approval nor for input. Without a log the node stopped before the
   runtime, or a filesystem call paused.
   */
  lemma NodeReports(cfg: Config, db: Db, s: RunState, cmd: Command, o: NodeOracle)
    ensures var n := ToolNode(cfg, db, s, cmd, o);
            var ran := |n.effects| == 2;
            && (n.db.toolLogs == db.toolLogs ==>
                  n.state.toolCallIds == s.toolCallIds &&
                    (ran ==> n.state.step == WaitConfirmation && n.state.runtimeApproval.Some?))
            && (n.db.toolLogs != db.toolLogs ==>
                  && n.db.toolLogs[..|db.toolLogs|] == db.toolLogs && |n.db.toolLogs| == |db.toolLogs| + 1
                  && n.state.toolCallIds == s.toolCallIds + [|db.toolLogs|]
                  && var log := n.db.toolLogs[|db.toolLogs|];
                     && log.run == s.run && log.tool == cmd.tool
                     && (log.status == Succeeded <==>
                           && ran && o.outcome.Returned? && !o.outcome.failed && o.outcome.ok && !o.waitsForInput
                           && (o.outcome.request.Some? ==> o.outcome.request.value.toolName == "")))
  {
    hide PreCheck, GuardApplies, HandlerUnavailable, RuntimePermits;
    var n := ToolNode(cfg, db, s, cmd, o);
    assert n.db.toolLogs != db.toolLogs ==> n.db.toolLogs[..|db.toolLogs|] == db.toolLogs;
  }
}
