/**
 Continuations that are rolled back after acting. Their approval stays pending, so the same tool can be run again, and
 nothing of it is recorded: exactly which deployments keep the call budget whatever is rolled back.
 */
module RunReplays {
  import opened Values
  import opened Text
  import opened ToolPermissions
  import opened Guardrails
  import opened Checkpoints
  import opened ToolRuntime
  import opened ApprovalWorkflow
  import opened RunHistory
  import opened RunBudget
  import opened RunExecutions
  import opened RunOverspend

  const CRASHED := ContinueOracle(Answering(None), ResumeOracle(true, None), true)

  /** A start, and then n approved continuations of its approval, each rolled back. */
  function Replaying(start: Request, n: nat): (requests: seq<Request>)
    ensures |requests| == n + 1
  {
    if n == 0 then [start] else Replaying(start, n - 1) + [ContinueRun(0, true, CRASHED)]
  }

  // ----- a start that asks first -----

  /** Under this policy the guard asks before the tool's first call, and lets it pass once confirmed. */
  predicate AskedFirst(cfg: Config, tool: string, source: string, policy: Option<Policy>) {
    var asked := PreCheck(CallContext(tool, Some(source), 0, false), cfg.registry, policy, cfg.settings);
    && asked.Blocked? && asked.next == RequestUserConfirmation
    && PreCheck(CallContext(tool, Some(source), 0, true), cfg.registry, policy, cfg.settings) == Passed
  }

  function AskFor(tool: string): Option<Policy> {
    Some(Policy(None, [], [], [Strip(tool), tool], []))
  }

  /** A policy that asks for a tool asks first for every tool a continuation can run. */
  lemma AskPolicyAsks(cfg: Config, tool: string, source: string)
    requires Runnable(cfg, tool, source, true)
    ensures AskedFirst(cfg, tool, source, AskFor(tool))
  {
    hide Strip;
    PassesIff(CallContext(tool, Some(source), 0, true), cfg.registry, None, cfg.settings);
    PassesIff(CallContext(tool, Some(source), 0, true), cfg.registry, AskFor(tool), cfg.settings);
    assert Strip(tool) in AskFor(tool).value.askTools;
  }

  function Asking(tool: string, source: string): Command {
    Command(tool, source, false, map[])
  }

  function AskingOracle(policy: Option<Policy>): StartOracle {
    StartOracle(policy, None, Answering(None), NoRecovery, NO_LOOP, false, None, false)
  }

  /** A pause on the tool that nothing was executed for. */
  predicate Waiting(db: Db, tool: string, source: string, policy: Option<Policy>) {
    && CanContinue(db, 0)
    && db.approvals[0].run == 0 && db.approvals[0].payload == Payload(tool, Some(source), Some(map[]), false, false, "")
    && var s := PausedState(db, 0); s.policy == policy && s.toolCallIds == []
  }

  lemma AskedStartWaits(cfg: Config, tool: string, source: string, policy: Option<Policy>)
    requires tool != "" && Runnable(cfg, tool, source, true) && AskedFirst(cfg, tool, source, policy)
    ensures var r := RunWorkflow(cfg, EMPTY, Asking(tool, source), AskingOracle(policy));
            r.answer == Answered(0) && GuardedRuns(r.effects) == 0 && Waiting(r.db, tool, source, policy)
  {
    hide Planned, Work, Pause, RunWorkflow, CanContinue, PausedState, Runnable, PreCheck;
    var cmd, o := Asking(tool, source), AskingOracle(policy);
    var p := Planned(cfg, EMPTY, cmd, o);
    PlannedState(cfg, EMPTY, cmd, o);
    PlannedUnpaused(cfg, EMPTY, cmd, o);
    AskedNode(cfg, p.0, p.1, cmd);
    var n := Work(cfg, p.0, p.1, cmd, o);
    assert n == ToolNode(cfg, p.0, p.1, cmd, o.node) by { WorkStops(cfg, p.0, p.1, cmd, o); }
    TwoEffects(n.effects);
    StartPausesAt(cfg, cmd, o);
    PausePayload(cfg, n.db, n.state, cmd, o);
  }

  lemma PlannedUnpaused(cfg: Config, db: Db, cmd: Command, o: StartOracle)
    ensures var s := Planned(cfg, db, cmd, o).1; s.runtimeApproval == None && s.sdkApproval == None
  {
    hide SaveStep;
  }

  lemma AskedNode(cfg: Config, db: Db, s: RunState, cmd: Command)
    requires Runnable(cfg, cmd.tool, cmd.sourceType, true) && AskedFirst(cfg, cmd.tool, cmd.sourceType, s.policy)
    requires s.toolCallIds == [] && !cmd.confirmed
    ensures ToolNode(cfg, db, s, cmd, Answering(None)) ==
            Node(db, s.(step := WaitConfirmation), [Entered(s.run, cmd.tool, cmd.confirmed, cmd.input)])
  {
    hide PreCheck;
  }

  lemma WorkStops(cfg: Config, db: Db, s: RunState, cmd: Command, o: StartOracle)
    requires cmd.tool != "" && ToolNode(cfg, db, s, cmd, o.node).state.step == WaitConfirmation
    ensures Work(cfg, db, s, cmd, o) == ToolNode(cfg, db, s, cmd, o.node)
  {
    hide ToolNode;
  }

  lemma PausePayload(cfg: Config, db: Db, s: RunState, cmd: Command, o: StartOracle)
    requires s.run < |db.workflows| && db.workflows[s.run].approvalId == None && cmd.tool != ""
    requires s.runtimeApproval == None && s.sdkApproval == None
    ensures Pause(cfg, db, s, cmd, o).approvals ==
            db.approvals + [Approval(s.run, Pending, cmd.tool,
                                     Payload(cmd.tool, Some(cmd.sourceType), Some(o.pendingInput.GetOr(cmd.input)),
                                             false, false, ""))]
  {
    hide Save, StepName;
  }

  // ----- continuations rolled back after executing -----

  lemma ConfirmedNode(cfg: Config, db: Db, s: RunState, cmd: Command)
    requires Runnable(cfg, cmd.tool, cmd.sourceType, true) && AskedFirst(cfg, cmd.tool, cmd.sourceType, s.policy)
    requires s.toolCallIds == [] && cmd.confirmed
    ensures GuardedRuns(ToolNode(cfg, db, s, cmd, Answering(None)).effects) == 1
  {
    hide PreCheck, RecordPair;
    TwoEffects(ToolNode(cfg, db, s, cmd, Answering(None)).effects);
  }

  /** It executes the tool and leaves the database as it was. */
  lemma CrashedContinuationRuns(cfg: Config, db: Db, tool: string, source: string, policy: Option<Policy>)
    requires tool != "" && source != "" && Runnable(cfg, tool, source, true) && AskedFirst(cfg, tool, source, policy)
    requires Waiting(db, tool, source, policy)
    ensures var r := ContinueAfterApproval(cfg, db, 0, true, CRASHED);
            r.answer == RolledBack && r.db == db && GuardedRuns(r.effects) == 1 && r.effects != [] &&
              r.effects[0].run == 0
  {
    hide Runnable, AskedFirst, ToolNode, SaveStep, Finalize, GuardedRuns, Refresh, Latest, StepName, ResumeSdk;
    ContinuationIsChecked(cfg, db, 0, true, CRASHED);
    ContinuationEffects(cfg, db, 0, true, CRASHED);
    var s, a := PausedState(db, 0), db.approvals[0];
    var cmd := ContinuedCommand(a, s);
    var t := s.(step := MaybeTool, approvalId := Some(0), requestedTool := cmd.tool, sourceType := cmd.sourceType);
    ConfirmedNode(cfg, DecideApproval(db, 0, true), t, cmd);
    assert ContinueAfterApproval(cfg, db, 0, true, CRASHED).effects == Proceed(cfg, db, s, 0, true, CRASHED).1;
  }

  /** The start executes nothing; each rolled-back continuation executes once, and the approval stays as it was. */
  lemma {:induction false} ReplaysAddUp(cfg: Config, tool: string, source: string, policy: Option<Policy>, n: nat)
    requires tool != "" && source != "" && Runnable(cfg, tool, source, true) && AskedFirst(cfg, tool, source, policy)
    ensures var w := Play(cfg, Replaying(StartRun(Asking(tool, source), AskingOracle(policy)), n));
            Waiting(w.db, tool, source, policy) && Executions(w.served, 0) == n && Replays(w.served, 0) == n
  {
    hide Runnable, AskedFirst, Waiting, RunWorkflow, ContinueAfterApproval, GuardedRuns;
    var start := StartRun(Asking(tool, source), AskingOracle(policy));
    var requests := Replaying(start, n);
    PlayNext(cfg, requests);
    if n == 0 {
      AskedStartWaits(cfg, tool, source, policy);
      assert requests[..0] == [] && Play(cfg, []) == World(EMPTY, []);
      var r := RunWorkflow(cfg, EMPTY, start.cmd, start.start);
      CountsNext([], Served(start, r.answer, r.effects), 0);
    } else {
      ReplaysAddUp(cfg, tool, source, policy, n - 1);
      assert requests[..n] == Replaying(start, n - 1);
      var w := Play(cfg, Replaying(start, n - 1));
      CrashedContinuationRuns(cfg, w.db, tool, source, policy);
      var r := ContinueAfterApproval(cfg, w.db, 0, true, CRASHED);
      CountsNext(w.served, Served(ContinueRun(0, true, CRASHED), r.answer, r.effects), 0);
    }
  }

  // ----- exactly when nothing exceeds the budget -----

  predicate WithinBudget(cfg: Config, requests: seq<Request>, run: nat) {
    Executions(Play(cfg, requests).served, run) <= Cap(cfg)
  }

  lemma {:induction false} NothingReplayed(cfg: Config, requests: seq<Request>, run: nat)
    requires !Continuable(cfg)
    ensures Replays(Play(cfg, requests).served, run) == 0
  {
    hide Serve, Continuable, GuardedRuns, WorksOn;
    if requests == [] {
      assert Play(cfg, requests) == World(EMPTY, []);
    } else {
      hide Play, Inv, Within;
      var front, last := requests[..|requests| - 1], requests[|requests| - 1];
      var w := Play(cfg, front);
      NothingReplayed(cfg, front, run);
      PlayKeepsWorld(cfg, front);
      RolledBackRunsNothing(cfg, w.db, last, run);
      PlayNext(cfg, requests);
      var r := Serve(cfg, w.db, last);
      CountsNext(w.served, Served(last, r.answer, r.effects), run);
    }
  }

  lemma RolledBackRunsNothing(cfg: Config, db: Db, request: Request, run: nat)
    requires Inv(cfg, db) && !Continuable(cfg)
    ensures var r := Serve(cfg, db, request);
            WorksOn(Served(request, r.answer, r.effects), run) && r.answer.RolledBack? ==> GuardedRuns(r.effects) == 0
  {
    hide RunWorkflow, ContinueAfterApproval, CanContinue, Continuable, GuardedRuns, Inv;
    if request.ContinueRun? {
      ContinuationIsChecked(cfg, db, request.approvalId, request.approved, request.continued);
      if CanContinue(db, request.approvalId) {
        ContinueSpends(cfg, db, request.approvalId, request.approved, request.continued);
      }
    }
  }

  lemma RollbackBreaksBudget(cfg: Config) returns (requests: seq<Request>)
    requires "" !in cfg.capabilities && Continuable(cfg)
    ensures !WithinBudget(cfg, requests, 0)
  {
    hide Play, Executions, Replays, Runnable, AskedFirst, Waiting;
    var tool, source :| source != "" && Runnable(cfg, tool, source, true);
    RunnableNamed(cfg, tool, source, true);
    AskPolicyAsks(cfg, tool, source);
    ReplaysAddUp(cfg, tool, source, AskFor(tool), Cap(cfg) + 1);
    requests := Replaying(StartRun(Asking(tool, source), AskingOracle(AskFor(tool))), Cap(cfg) + 1);
  }

  lemma UncontinuableIsEnough(cfg: Config)
    requires !Continuable(cfg)
    ensures !CanOverspend(cfg)
  {
    hide Runnable;
    forall tool | tool in cfg.capabilities ensures !Pausable(cfg, tool, "agent_chat", false) {
      if Pausable(cfg, tool, "agent_chat", false) { ConfirmedRuns(cfg, tool, "agent_chat", false); }
    }
  }

  lemma NothingExceedsBudget(cfg: Config, requests: seq<Request>, run: nat)
    requires !Continuable(cfg)
    ensures WithinBudget(cfg, requests, run)
  {
    hide Play, Executions, CommittedRuns, Replays, Runnable;
    UncontinuableIsEnough(cfg);
    PlayKeepsWithin(cfg, requests, 0);
    assert AllWithin(cfg, Play(cfg, requests), run, 0);
    NothingReplayed(cfg, requests, run);
    ExecutionsSplit(cfg, requests, run);
  }

  /**
   Over all histories, whatever is rolled back, the executor calls that the guard lets through for a run stay within the
   call budget exactly when no continuation can run a tool that the guard checks. Capability ids are not blank.
   */
  lemma RollbackKeepsBudgetIff(cfg: Config)
    requires "" !in cfg.capabilities
    ensures (forall requests, run: nat :: WithinBudget(cfg, requests, run)) <==> !Continuable(cfg)
  {
    hide WithinBudget, Continuable;
    if Continuable(cfg) {
      var requests := RollbackBreaksBudget(cfg);
      assert !WithinBudget(cfg, requests, 0);
    } else {
      forall requests, run: nat ensures WithinBudget(cfg, requests, run) {
        NothingExceedsBudget(cfg, requests, run);
      }
    }
  }

  // ----- two deployments -----

  const ONE_TOOL := ToolDefinition(Low, true, {}, true, true)

  /** One tool of the registry that requires confirmation, on a budget of one call. */
  function OneToolConfig(clock: nat -> int, rowId: nat -> int): Config {
    Config(REPOSITORY_NAMES, map["t" := ONE_TOOL], map["t" := Capability("agent_tool_registry", true, true, {})], {},
           Settings(1, {}), SECOND, clock, rowId)
  }

  /**
   A deployment whose every committed call is logged, so that it cannot overspend, and a run of it that executes twice
   on a budget of one: an unconfirmed start, and its approved continuation rolled back twice.
   */
  lemma TwiceOnABudgetOfOne(clock: nat -> int, rowId: nat -> int)
    ensures var cfg := OneToolConfig(clock, rowId);
            var start := StartRun(Asking("t", "agent_chat"), AskingOracle(None));
            var requests := [start, ContinueRun(0, true, CRASHED), ContinueRun(0, true, CRASHED)];
            && !CanOverspend(cfg) && Cap(cfg) == 1
            && Executions(Play(cfg, requests).served, 0) == 2
  {
    hide Play, Executions, Pausable, Runnable, AskedFirst, OneToolConfig, Waiting;
    var cfg := OneToolConfig(clock, rowId);
    var start := StartRun(Asking("t", "agent_chat"), AskingOracle(None));
    OneToolRuns(clock, rowId);
    ReplaysAddUp(cfg, "t", "agent_chat", None, 2);
    assert Replaying(start, 2) == [start, ContinueRun(0, true, CRASHED), ContinueRun(0, true, CRASHED)];
  }

  lemma OneToolRuns(clock: nat -> int, rowId: nat -> int)
    ensures var cfg := OneToolConfig(clock, rowId);
            && Runnable(cfg, "t", "agent_chat", true) && AskedFirst(cfg, "t", "agent_chat", None)
            && (forall tool, source, confirmed :: !Pausable(cfg, tool, source, confirmed))
            && cfg.settings.maxToolCalls == 1
  {
    var cfg := OneToolConfig(clock, rowId);
    assert REPOSITORY_NAMES.filesystemExecutor[0] == 's' && cfg.capabilities["t"].executorId[0] == 'a';
    assert |REPOSITORY_NAMES.filesystemSkill| > 1;
    forall name | name in REPOSITORY_NAMES.legacyFilesystem ensures |name| > 1 {}
  }

  /**
   The repository's own names and guard settings, where nothing but the filesystem skill uses its executor: the skill is
   not checked by the guard, so no run executes more than ten calls under the guard, but for rolled-back continuations.
   */
  lemma RepositoryBudget(cfg: Config, requests: seq<Request>, run: nat)
    requires cfg.names == REPOSITORY_NAMES && cfg.settings == DEFAULT_SETTINGS
    requires forall c <- cfg.capabilities :: cfg.capabilities[c].executorId == "skill_executor.filesystem" ==>
             c == "skill.filesystem"
    ensures var served := Play(cfg, requests).served; Executions(served, run) <= 10 + Replays(served, run)
  {
    hide Play, Executions, Replays, Runnable;
    forall tool | tool in cfg.capabilities ensures !Pausable(cfg, tool, "agent_chat", false) {
      if Pausable(cfg, tool, "agent_chat", false) { RunnableNamed(cfg, tool, "agent_chat", false); }
    }
    HistoryStaysWithin(cfg, requests, run);
  }
}
