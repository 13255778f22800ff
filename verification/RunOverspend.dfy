/**
 Executor calls that leave no log. A tool the guard checks may be bound to the filesystem skill's executor; when such a
 call pauses for approval it has run, but nothing was recorded, so the guard does not count it. This module says exactly
 which deployments can exceed the call budget that way.
 */
module RunOverspend {
  import opened Values
  import opened Guardrails
  import opened Checkpoints
  import opened ToolRuntime
  import opened ApprovalWorkflow
  import opened RunHistory
  import opened RunBudget
  import opened RunExecutions

  /** A tool whose first call, from this source, the guard checks and lets through to its executor. */
  predicate Runnable(cfg: Config, tool: string, source: string, confirmed: bool) {
    && tool in cfg.capabilities
    && GuardApplies(cfg, tool) && !HandlerUnavailable(cfg, tool)
    && !(tool in cfg.names.legacyFilesystem && cfg.capabilities[tool].executorId == cfg.names.registryExecutor)
    && ExecutorPresent(cfg, cfg.capabilities[tool].executorId)
    && RuntimePermits(cfg.capabilities[tool], Command(tool, source, confirmed, map[]))
    && PreCheck(CallContext(tool, Some(source), 0, confirmed), cfg.registry, None, cfg.settings) == Passed
  }

  /** One that may run without leaving a log: the filesystem executor's calls may pause. */
  predicate Pausable(cfg: Config, tool: string, source: string, confirmed: bool) {
    Runnable(cfg, tool, source, confirmed) && cfg.capabilities[tool].executorId == cfg.names.filesystemExecutor
  }

  /** One that the model's own loop can call. */
  predicate LoopPausable(cfg: Config) {
    exists tool <- cfg.capabilities :: Pausable(cfg, tool, "agent_chat", false)
  }

  /**
   One that a start can call first, and one that the continuation of its pause can run: a continuation of a call from a
   blank source falls back to the model's own.
   */
  ghost predicate PauseThenRun(cfg: Config) {
    exists tool, next, source, confirmed :: PausesInto(cfg, tool, next, source, confirmed)
  }

  predicate PausesInto(cfg: Config, tool: string, next: string, source: string, confirmed: bool) {
    Pausable(cfg, tool, source, confirmed) && Runnable(cfg, next, FirstNonEmpty(source, "agent_chat"), true)
  }

  /** A tool that a continuation can run: confirmed, from a named source. */
  ghost predicate Continuable(cfg: Config) {
    exists tool, source :: source != "" && Runnable(cfg, tool, source, true)
  }

  /** What runs unconfirmed runs confirmed. */
  lemma ConfirmedRuns(cfg: Config, tool: string, source: string, confirmed: bool)
    requires Runnable(cfg, tool, source, confirmed)
    ensures Runnable(cfg, tool, source, true)
  {
    ConfirmationIsMonotone(CallContext(tool, Some(source), 0, confirmed), cfg.registry, None, cfg.settings);
  }

  /**
   A tool bound so that the loop can call it; or, where the budget is a single call, a first call and its continuation.
   */
  ghost predicate CanOverspend(cfg: Config) {
    LoopPausable(cfg) || (cfg.settings.maxToolCalls == 1 && PauseThenRun(cfg))
  }

  // ----- one entry of the node -----

  /** What passes at some count under some policy passes as the first call under none. */
  lemma FirstCallPasses(c: CallContext, cfg: Config, policy: Option<ToolPermissions.Policy>)
    requires PreCheck(c, cfg.registry, policy, cfg.settings) == Passed
    ensures PreCheck(c.(toolCallCount := 0), cfg.registry, None, cfg.settings) == Passed &&
            c.toolCallCount < cfg.settings.maxToolCalls
  {
    PassesIff(c, cfg.registry, policy, cfg.settings);
    PassesIff(c.(toolCallCount := 0), cfg.registry, None, cfg.settings);
  }

  /** What an unlogged call leaves in the state: its source, and a payload that names none. */
  predicate LeftUnlogged(s: RunState, after: RunState) {
    && after.step == WaitConfirmation && after.sourceType == s.sourceType
    && after.runtimeApproval.Some? && after.runtimeApproval.value.sourceType == None
  }

  /**
   A guarded execution needs a runnable tool and room in the budget, and is without a log only where a pausable tool
   pauses.
   */
  lemma NodeSpends(cfg: Config, db: Db, s: RunState, cmd: Command, o: NodeOracle)
    ensures var n := ToolNode(cfg, db, s, cmd, o);
            && GuardedLogged(n.effects) <= GuardedRuns(n.effects) <= 1
            && (GuardedRuns(n.effects) > 0 ==>
                  Runnable(cfg, cmd.tool, cmd.sourceType, cmd.confirmed) && |s.toolCallIds| < cfg.settings.maxToolCalls)
            && (GuardedRuns(n.effects) != GuardedLogged(n.effects) ==>
                  Pausable(cfg, cmd.tool, cmd.sourceType, cmd.confirmed) && n.state.step == WaitConfirmation &&
                  LeftUnlogged(s, n.state))
  {
    var n := ToolNode(cfg, db, s, cmd, o);
    NodeAdvances(cfg, db, s, cmd, o);
    TwoEffects(n.effects);
    if |n.effects| == 2 {
      Executes(cfg, db, s, cmd, o);
      if GuardApplies(cfg, cmd.tool) {
        FirstCallPasses(CallContext(cmd.tool, Some(cmd.sourceType), |s.toolCallIds|, cmd.confirmed), cfg, s.policy);
      }
    }
  }

  /** What an entry that executed went through. */
  lemma Executes(cfg: Config, db: Db, s: RunState, cmd: Command, o: NodeOracle)
    requires |ToolNode(cfg, db, s, cmd, o).effects| == 2
    ensures var e := ToolNode(cfg, db, s, cmd, o).effects[1];
            && e.Executed? && cmd.tool in cfg.capabilities && e.guarded == GuardApplies(cfg, cmd.tool)
            && !HandlerUnavailable(cfg, cmd.tool) && RuntimePermits(cfg.capabilities[cmd.tool], cmd)
            && ExecutorPresent(cfg, cfg.capabilities[cmd.tool].executorId)
            && !(cmd.tool in cfg.names.legacyFilesystem &&
                 cfg.capabilities[cmd.tool].executorId == cfg.names.registryExecutor)
            && (e.guarded ==>
                  PreCheck(CallContext(cmd.tool, Some(cmd.sourceType), |s.toolCallIds|, cmd.confirmed),
                           cfg.registry, s.policy, cfg.settings) == Passed)
            && (!e.logged ==> cfg.capabilities[cmd.tool].executorId == cfg.names.filesystemExecutor &&
                              LeftUnlogged(s, ToolNode(cfg, db, s, cmd, o).state))
  {
    hide PreCheck, RecordPair;
  }

  // ----- the tool work of a start -----

  /**
   From a state to the one reached: each guarded execution but possibly a last, pausing one adds an id, and each has
   room in the budget.
   */
  ghost predicate Fits(cfg: Config, s: RunState, reached: RunState, effects: seq<Effect>) {
    && GuardedLogged(effects) <= GuardedRuns(effects) <= GuardedLogged(effects) + (if Waits(reached.step) then 1 else 0)
    && |s.toolCallIds| + GuardedLogged(effects) <= |reached.toolCallIds|
    && (GuardedRuns(effects) > 0 ==> |s.toolCallIds| + GuardedRuns(effects) <= cfg.settings.maxToolCalls)
  }

  lemma NodeFits(cfg: Config, db: Db, s: RunState, cmd: Command, o: NodeOracle)
    ensures var n := ToolNode(cfg, db, s, cmd, o); Fits(cfg, s, n.state, n.effects)
  {
    hide ToolNode, Runnable, Pausable, GuardedRuns, GuardedLogged, Paired, LogIds, EffectOk;
    NodeSpends(cfg, db, s, cmd, o);
    NodeAdvances(cfg, db, s, cmd, o);
  }

  lemma FitsTwice(cfg: Config, s: RunState, t: RunState, u: RunState, e: seq<Effect>, f: seq<Effect>)
    requires Fits(cfg, s, t, e) && Fits(cfg, t, u, f) && GuardedRuns(e) == GuardedLogged(e)
    ensures Fits(cfg, s, u, e + f)
  {
    hide GuardedRuns, GuardedLogged;
    GuardedRunsConcat(e, f);
    GuardedLoggedConcat(e, f);
  }

  lemma {:induction false} LoopCallsFit(cfg: Config, db: Db, s: RunState, calls: seq<LoopCall>)
    ensures var n := LoopCalls(cfg, db, s, calls); Fits(cfg, s, n.state, n.effects)
  {
    hide ToolNode, GuardedRuns, GuardedLogged;
    if calls == [] {
      NoEffects();
    } else {
      var n, c := LoopCalls(cfg, db, s, calls[..|calls| - 1]), calls[|calls| - 1];
      LoopCallsFit(cfg, db, s, calls[..|calls| - 1]);
      if |calls| == 1 || !Waits(n.state.step) {
        var t := n.state.(requestedTool := c.tool, sourceType := "agent_chat");
        var m := ToolNode(cfg, n.db, t, LoopCommand(c), c.node);
        if |calls| == 1 { NoCalls(cfg, db, s); NoEffects(); }
        NodeFits(cfg, n.db, t, LoopCommand(c), c.node);
        FitsTwice(cfg, s, n.state, m.state, n.effects, m.effects);
      }
    }
  }

  lemma RecoverFits(cfg: Config, db: Db, s: RunState, recovery: Recovery) returns (reached: RunState)
    ensures Fits(cfg, s, reached, Recover(cfg, db, s, recovery).effects)
  {
    hide ToolNode, Fits, LoopCalls;
    match recovery
    case NoRecovery =>
      NothingFits(cfg, s);
      reached := s;
    case ContinueModelLoop(loop) =>
      LoopCallsFit(cfg, db, s, loop.calls);
      reached := LoopCalls(cfg, db, s, loop.calls).state;
    case CallRecovery(tool, input, node, follow) =>
      var t := s.(requestedTool := tool, sourceType := "agent_chat");
      var n := ToolNode(cfg, db, t, Command(tool, "agent_chat", false, input), node);
      NodeFits(cfg, db, t, Command(tool, "agent_chat", false, input), node);
      SameIdsFit(cfg, t, s, n.state, n.effects);
      reached := n.state;
      if !Waits(n.state.step) && follow.Some? && n.state.toolCallIds != [] {
        var m := Loop(cfg, n.db, n.state, follow.value);
        LoopCallsFit(cfg, n.db, n.state, follow.value.calls);
        reached := LoopCalls(cfg, n.db, n.state, follow.value.calls).state;
        FitsGoingOn(cfg, s, n.state, reached, n.effects, m.effects);
      }
  }

  lemma NothingFits(cfg: Config, s: RunState)
    ensures Fits(cfg, s, s, [])
  {
    NoEffects();
  }

  lemma SameIdsFit(cfg: Config, s: RunState, t: RunState, reached: RunState, effects: seq<Effect>)
    requires Fits(cfg, s, reached, effects) && t.toolCallIds == s.toolCallIds
    ensures Fits(cfg, t, reached, effects)
  {
  }

  lemma FitsGoingOn(cfg: Config, s: RunState, t: RunState, u: RunState, e: seq<Effect>, f: seq<Effect>)
    requires Fits(cfg, s, t, e) && Fits(cfg, t, u, f) && !Waits(t.step)
    ensures Fits(cfg, s, u, e + f)
  {
    hide GuardedRuns, GuardedLogged;
    FitsTwice(cfg, s, t, u, e, f);
  }

  lemma WorkFits(cfg: Config, db: Db, s: RunState, cmd: Command, o: StartOracle) returns (reached: RunState)
    ensures Fits(cfg, s, reached, Work(cfg, db, s, cmd, o).effects)
  {
    hide ToolNode, Fits, LoopCalls, Recover;
    if cmd.tool == "" {
      LoopCallsFit(cfg, db, s, o.loop.calls);
      reached := LoopCalls(cfg, db, s, o.loop.calls).state;
    } else {
      var n := ToolNode(cfg, db, s, cmd, o.node);
      NodeFits(cfg, db, s, cmd, o.node);
      reached := n.state;
      if n.state.step == MaybeTool {
        reached := RecoverFits(cfg, n.db, n.state, o.recovery);
        FitsGoingOn(cfg, s, n.state, reached, n.effects, Recover(cfg, n.db, n.state, o.recovery).effects);
      }
    }
  }

  /**
   A start keeps within the budget by itself, rolled back or not, and leaves at most its last execution without a log.
   */
  lemma StartAlone(cfg: Config, db: Db, cmd: Command, o: StartOracle)
    ensures var e := RunWorkflow(cfg, db, cmd, o).effects;
            GuardedRuns(e) <= Cap(cfg) && GuardedLogged(e) <= GuardedRuns(e) <= GuardedLogged(e) + 1
  {
    hide Planned, Work, Conclude, GuardedRuns, GuardedLogged, Refresh;
    var p := Planned(cfg, db, cmd, o);
    PlannedState(cfg, db, cmd, o);
    var reached := WorkFits(cfg, p.0, p.1, Chosen(cmd, o), o);
    assert RunWorkflow(cfg, db, cmd, o).effects == Work(cfg, p.0, p.1, Chosen(cmd, o), o).effects;
  }

  lemma {:induction false} LoopCallsSpend(cfg: Config, db: Db, s: RunState, calls: seq<LoopCall>)
    requires !LoopPausable(cfg)
    ensures GuardedRuns(LoopCalls(cfg, db, s, calls).effects) == GuardedLogged(LoopCalls(cfg, db, s, calls).effects)
  {
    if calls == [] {
    } else {
      hide ToolNode, Pausable, GuardedRuns, GuardedLogged;
      var n := LoopCalls(cfg, db, s, calls[..|calls| - 1]);
      LoopCallsSpend(cfg, db, s, calls[..|calls| - 1]);
      if |calls| == 1 || !Waits(n.state.step) {
        var c := calls[|calls| - 1];
        var t := n.state.(requestedTool := c.tool, sourceType := "agent_chat");
        ChatCallSpends(cfg, n.db, t, LoopCommand(c), c.node);
        var m := ToolNode(cfg, n.db, t, LoopCommand(c), c.node);
        GuardedRunsConcat(n.effects, m.effects);
        GuardedLoggedConcat(n.effects, m.effects);
      }
    }
  }

  /** An unconfirmed call from the model's loop or a recovery. */
  lemma ChatCallSpends(cfg: Config, db: Db, s: RunState, cmd: Command, o: NodeOracle)
    requires !LoopPausable(cfg) && cmd.sourceType == "agent_chat" && !cmd.confirmed
    ensures var n := ToolNode(cfg, db, s, cmd, o); GuardedRuns(n.effects) == GuardedLogged(n.effects)
  {
    hide ToolNode, GuardedRuns, GuardedLogged;
    NodeSpends(cfg, db, s, cmd, o);
  }

  lemma RecoverSpends(cfg: Config, db: Db, s: RunState, recovery: Recovery)
    requires !LoopPausable(cfg)
    ensures GuardedRuns(Recover(cfg, db, s, recovery).effects) == GuardedLogged(Recover(cfg, db, s, recovery).effects)
  {
    hide ToolNode, LoopPausable, GuardedRuns, GuardedLogged, LoopCalls;
    match recovery
    case NoRecovery => NoEffects();
    case ContinueModelLoop(loop) => LoopCallsSpend(cfg, db, s, loop.calls);
    case CallRecovery(tool, input, node, follow) =>
      var t := s.(requestedTool := tool, sourceType := "agent_chat");
      var cmd := Command(tool, "agent_chat", false, input);
      ChatCallSpends(cfg, db, t, cmd, node);
      var n := ToolNode(cfg, db, t, cmd, node);
      if follow.Some? {
        LoopCallsSpend(cfg, n.db, n.state, follow.value.calls);
        var m := Loop(cfg, n.db, n.state, follow.value);
        GuardedRunsConcat(n.effects, m.effects);
        GuardedLoggedConcat(n.effects, m.effects);
      }
  }

  /**
   Without a pausable tool in the loop's reach, only a start's own first call can run without a log, and then it is the
   only one.
   */
  lemma WorkSpends(cfg: Config, db: Db, s: RunState, cmd: Command, o: StartOracle)
    requires !LoopPausable(cfg)
    ensures var n := Work(cfg, db, s, cmd, o);
            GuardedRuns(n.effects) == GuardedLogged(n.effects) ||
            (GuardedRuns(n.effects) == 1 && GuardedLogged(n.effects) == 0 &&
             Pausable(cfg, cmd.tool, cmd.sourceType, cmd.confirmed) && cmd.tool != "" && LeftUnlogged(s, n.state))
  {
    hide ToolNode, LoopPausable, Pausable, GuardedRuns, GuardedLogged, LoopCalls, Recover;
    if cmd.tool == "" {
      LoopCallsSpend(cfg, db, s, o.loop.calls);
    } else {
      var n := ToolNode(cfg, db, s, cmd, o.node);
      NodeSpends(cfg, db, s, cmd, o.node);
      if n.state.step == MaybeTool {
        RecoverSpends(cfg, n.db, n.state, o.recovery);
        var m := Recover(cfg, n.db, n.state, o.recovery);
        GuardedRunsConcat(n.effects, m.effects);
        GuardedLoggedConcat(n.effects, m.effects);
      }
    }
  }

  lemma StartSpends(cfg: Config, db: Db, cmd: Command, o: StartOracle)
    requires !LoopPausable(cfg)
    ensures var e := RunWorkflow(cfg, db, cmd, o).effects;
            var p := Planned(cfg, db, cmd, o); var n := Work(cfg, p.0, p.1, Chosen(cmd, o), o);
            GuardedRuns(e) == GuardedLogged(e) ||
            (GuardedRuns(e) == 1 && GuardedLogged(e) == 0 && LeftUnlogged(p.1, n.state) &&
             Pausable(cfg, Chosen(cmd, o).tool, n.state.sourceType, cmd.confirmed))
  {
    hide Planned, Work, Conclude, LoopPausable, Pausable, GuardedRuns, GuardedLogged, Refresh;
    var p := Planned(cfg, db, cmd, o);
    PlannedState(cfg, db, cmd, o);
    WorkSpends(cfg, p.0, p.1, Chosen(cmd, o), o);
  }

  /** A continuation executes at most once under the guard, and only with room left by the run's logs. */
  lemma ContinueSpends(cfg: Config, db: Db, id: nat, approved: bool, o: ContinueOracle)
    requires Inv(cfg, db) && CanContinue(db, id)
    ensures var e := ContinueAfterApproval(cfg, db, id, approved, o).effects;
            && GuardedLogged(e) <= GuardedRuns(e) <= 1
            && var c := ContinuedCommand(db.approvals[id], PausedState(db, id));
               && (GuardedRuns(e) > 0 ==>
                     && Runnable(cfg, c.tool, c.sourceType, true) && Continuable(cfg)
                     && |LogIds(db.toolLogs, db.approvals[id].run)| < cfg.settings.maxToolCalls)
  {
    hide TableOk, Paired, LogIds, RowsTraced, Latest, StepName, Refresh, SaveStep, Finalize, ResumeSdk, ToolNode;
    hide Runnable, Pausable, GuardedRuns, GuardedLogged;
    var run := db.approvals[id].run;
    assert Complete(db, run);
    var k: nat :| PausedAt(db.rows, run, k) && ResumeOk(db, run, db.rows[k].state);
    PauseIsResumed(cfg, db.rows, run, k);
    var s, a := db.rows[k].state, db.approvals[id];
    if Resumable(a) {
      OneResumption(s.run, approved);
    } else if !approved {
      NoEffects();
    } else {
      var cmd := ContinuedCommand(a, s);
      var t := s.(step := MaybeTool, approvalId := Some(id), requestedTool := cmd.tool, sourceType := cmd.sourceType);
      NodeSpends(cfg, DecideApproval(db, id, approved), t, cmd, o.node);
      assert cmd.sourceType != "" && cmd.confirmed;
    }
  }

  // ----- whole histories that stay within the budget -----

  /** The run paused on an unlogged first call, from the source its state names. */
  ghost predicate UnloggedAt(cfg: Config, db: Db, run: nat, k: nat, tool: string, confirmed: bool)
    requires run < |db.workflows|
  {
    var id := db.workflows[run].approvalId;
    && PausedAt(db.rows, run, k) && Pausable(cfg, tool, db.rows[k].state.sourceType, confirmed)
    && id.Some? && id.value < |db.approvals| && db.approvals[id.value].payload.sourceType == None
  }

  ghost predicate Unlogged(cfg: Config, db: Db, run: nat)
    requires run < |db.workflows|
  {
    exists k: nat, tool, confirmed :: UnloggedAt(cfg, db, run, k, tool, confirmed)
  }

  /**
   Committed so far, logged or not: within the budget but for the slack, and while the run is paused covered by its logs
   but for the slack, or a single call that the run paused on.
   */
  ghost predicate AllWithin(cfg: Config, w: World, run: nat, slack: nat) {
    var spent := CommittedRuns(w.served, run);
    && spent <= Cap(cfg) + slack
    && (run >= |w.db.workflows| ==> spent == 0)
    && (run < |w.db.workflows| && RunBudget.Paused(w.db.workflows[run]) ==>
          spent <= |LogIds(w.db.toolLogs, run)| + slack || (spent <= 1 && Unlogged(cfg, w.db, run)))
  }

  /** One execution of slack is always enough, and none is needed where the deployment cannot overspend. */
  ghost predicate Enough(cfg: Config, slack: nat) {
    slack == 1 || (slack == 0 && !CanOverspend(cfg))
  }

  /** Another run's request leaves an unlogged pause where it was. */
  lemma UnloggedKept(cfg: Config, db: Db, after: Db, own: nat, run: nat)
    requires run < |db.workflows| && run < |after.workflows| && run != own && after.workflows[run] == db.workflows[run]
    requires OnlyRowsOf(db.rows, after.rows, own) && SamePayloads(db, after) && Unlogged(cfg, db, run)
    ensures Unlogged(cfg, after, run)
  {
    hide Pausable;
    var k: nat, tool, confirmed :| UnloggedAt(cfg, db, run, k, tool, confirmed);
    assert UnloggedAt(cfg, after, run, k, tool, confirmed);
  }

  /** Approvals keep their payloads. */
  ghost predicate SamePayloads(db: Db, after: Db) {
    |db.approvals| <= |after.approvals| &&
    forall i :: 0 <= i < |db.approvals| ==> after.approvals[i].payload == db.approvals[i].payload
  }

  /** A pausable tool can be called at all only with a positive budget. */
  lemma PausableNeedsBudget(cfg: Config, tool: string, source: string, confirmed: bool)
    requires Pausable(cfg, tool, source, confirmed)
    ensures cfg.settings.maxToolCalls > 0
  {
    PassesIff(CallContext(tool, Some(source), 0, confirmed), cfg.registry, None, cfg.settings);
  }

  /** A request committed for one run leaves the others as they were. */
  lemma OtherRunKept(cfg: Config, w: World, after: Db, s: Served, own: nat, run: nat, slack: nat)
    requires AllWithin(cfg, w, run, slack) && run != own && (s.answer.Answered? ==> s.answer.run == own)
    requires |w.db.workflows| <= |after.workflows|
    requires run < |after.workflows| ==> run < |w.db.workflows| && after.workflows[run] == w.db.workflows[run]
    requires OnlyRowsOf(w.db.rows, after.rows, own) && SamePayloads(w.db, after)
    requires w.db.toolLogs <= after.toolLogs
    requires forall i :: |w.db.toolLogs| <= i < |after.toolLogs| ==> after.toolLogs[i].run == own
    ensures AllWithin(cfg, World(after, w.served + [s]), run, slack)
  {
    hide LogIds, GuardedRuns, CommittedRuns, Executions, Replays, RolledBackOn, WorksOn, Cap, RunBudget.Paused;
    hide Unlogged, OnlyRowsOf, SamePayloads;
    CountsNext(w.served, s, run);
    if run < |after.workflows| {
      LogIdsGrow(w.db.toolLogs, after.toolLogs, run);
      if Unlogged(cfg, w.db, run) { UnloggedKept(cfg, w.db, after, own, run); }
    }
  }

  lemma StartKeepsWithin(cfg: Config, w: World, cmd: Command, o: StartOracle, slack: nat)
    requires Inv(cfg, w.db) && !o.crash && Enough(cfg, slack)
    requires forall run: nat :: AllWithin(cfg, w, run, slack)
    ensures forall run: nat :: AllWithin(cfg, Next(cfg, w, StartRun(cmd, o)), run, slack)
  {
    hide RunWorkflow, Inv, AllWithin, TouchesOnly, EffectOk, Enough;
    var newest := |w.db.workflows|;
    StartTouches(cfg, w.db, cmd, o);
    var r := RunWorkflow(cfg, w.db, cmd, o);
    var s := Served(StartRun(cmd, o), r.answer, r.effects);
    OnlyFreshRun(w.db, r.db, newest);
    StartKeepsInv(cfg, w.db, cmd, o);
    FreshKeepsPayloads(w.db, r.db, newest);
    forall run: nat ensures AllWithin(cfg, World(r.db, w.served + [s]), run, slack) {
      assert AllWithin(cfg, w, run, slack);
      if run == newest {
        NewRunWithin(cfg, w, cmd, o, slack);
      } else {
        OtherRunKept(cfg, w, r.db, s, newest, run, slack);
      }
    }
  }

  lemma FreshKeepsPayloads(db: Db, after: Db, run: nat)
    requires TouchesOnly(Created(db), after, run)
    ensures SamePayloads(db, after)
  {
    hide AddsLogs;
  }

  /** A start that pauses on an unlogged call leaves its run so. */
  lemma StartLeavesUnlogged(cfg: Config, db: Db, cmd: Command, o: StartOracle)
    requires Inv(cfg, db) && !o.crash
    requires var p := Planned(cfg, db, cmd, o); var n := Work(cfg, p.0, p.1, Chosen(cmd, o), o);
             LeftUnlogged(p.1, n.state) && Pausable(cfg, Chosen(cmd, o).tool, n.state.sourceType, cmd.confirmed)
    ensures var r := RunWorkflow(cfg, db, cmd, o);
            |db.workflows| < |r.db.workflows| && Unlogged(cfg, r.db, |db.workflows|)
  {
    hide Planned, Work, Pause, Conclude, TouchesOnly, Refresh, Inv, TableOk, NewRows, Below, LogIds, Advances, Pausable,
         PausedAt;
    var run := |db.workflows|;
    var p, chosen := Planned(cfg, db, cmd, o), Chosen(cmd, o);
    PlannedOk(cfg, db, cmd, o);
    PlannedTouches(cfg, db, cmd, o);
    var n := Work(cfg, p.0, p.1, chosen, o);
    var reached := StartWorks(cfg, db, cmd, o);
    AdvancesRows(cfg, p.0, p.1, n.db, reached, n.effects, cmd.confirmed);
    BelowGrows(n.db.rows, run, [], n.state.toolCallIds);
    PauseLeavesUnlogged(cfg, n.db, n.state, chosen, o);
    assert RunWorkflow(cfg, db, cmd, o).db == Committed(Pause(cfg, n.db, n.state, chosen, o)) by {
      ConcludePauses(cfg, n.db, n.state, chosen, o);
    }
    assert UnloggedAt(cfg, RunWorkflow(cfg, db, cmd, o).db, run, |n.db.rows|, chosen.tool, cmd.confirmed);
  }

  lemma ConcludePauses(cfg: Config, db: Db, s: RunState, cmd: Command, o: StartOracle)
    requires s.run < |db.workflows| && s.step == WaitConfirmation
    ensures Conclude(cfg, db, s, cmd, o) == Pause(cfg, db, s, cmd, o)
  {
    hide Pause;
  }

  lemma PauseLeavesUnlogged(cfg: Config, db: Db, s: RunState, cmd: Command, o: StartOracle)
    requires s.run < |db.workflows| && s.step == WaitConfirmation && s.runtimeApproval.Some?
    requires TableOk(cfg, db.rows) && Below(db.rows, s.run, s.toolCallIds) && NoPause(db.rows, s.run)
    ensures var after := Committed(Pause(cfg, db, s, cmd, o));
            && PausedAt(after.rows, s.run, |db.rows|) && after.rows[|db.rows|].state.sourceType == s.sourceType
            && s.run < |after.workflows| && after.workflows[s.run].approvalId == Some(|db.approvals|)
            && |db.approvals| < |after.approvals| && after.approvals[|db.approvals|].payload == s.runtimeApproval.value
  {
    hide SaveStep, TableOk, Below, NewRows, Refresh;
    var fallback :=
      if cmd.tool != "" then
        Payload(cmd.tool, Some(cmd.sourceType), Some(o.pendingInput.GetOr(cmd.input)), false, false, "")
      else Payload(s.requestedTool, Some(s.sourceType), Some(o.pendingInput.GetOr(map[])), false, false, "");
    var request := PauseRequest(s, FirstNonEmpty(fallback.requestedTool, "tool_choice_call"), fallback);
    var requested := RequestApproval(db, s.run, request.0, request.1);
    var t := s.(approvalId := Some(|db.approvals|));
    SaveStepOk(cfg, requested, t);
    WritesOneWorkflow(cfg, requested, t);
    var done := SaveStep(cfg, requested, t);
    NewRowIsLast(db.rows, done.rows, s.run, s.toolCallIds);
    RefreshKeepsPause(done.rows, s.run, |db.rows|);
    assert Refresh(done.rows)[|db.rows|].state == t by { RefreshKeepsState(done.rows, |db.rows|); }
  }

  lemma RefreshKeepsState(rows: seq<RunRow>, k: nat)
    requires k < |rows|
    ensures k < |Refresh(rows)| && Refresh(rows)[k].state == rows[k].state
  {
  }

  lemma NewRunWithin(cfg: Config, w: World, cmd: Command, o: StartOracle, slack: nat)
    requires Inv(cfg, w.db) && !o.crash && Enough(cfg, slack) && AllWithin(cfg, w, |w.db.workflows|, slack)
    ensures AllWithin(cfg, Next(cfg, w, StartRun(cmd, o)), |w.db.workflows|, slack)
  {
    hide RunWorkflow, Planned, Work, Inv, LogIds, GuardedRuns, GuardedLogged, TouchesOnly, CommittedRuns, EffectOk,
         LoopPausable, Pausable, PauseThenRun, Unlogged, LeftUnlogged, OnlyRowsOf;
    StartKeepsInv(cfg, w.db, cmd, o);
    StartTouches(cfg, w.db, cmd, o);
    StartAlone(cfg, w.db, cmd, o);
    var r := RunWorkflow(cfg, w.db, cmd, o);
    if slack == 0 {
      StartSpends(cfg, w.db, cmd, o);
      if GuardedRuns(r.effects) != GuardedLogged(r.effects) { StartLeavesUnlogged(cfg, w.db, cmd, o); }
    }
    CountsNext(w.served, Served(StartRun(cmd, o), r.answer, r.effects), |w.db.workflows|);
  }

  lemma ContinueKeepsWithin(cfg: Config, w: World, id: nat, approved: bool, o: ContinueOracle, slack: nat)
    requires Inv(cfg, w.db) && CanContinue(w.db, id) && !o.crash && Enough(cfg, slack)
    requires forall run: nat :: AllWithin(cfg, w, run, slack)
    ensures forall run: nat :: AllWithin(cfg, Next(cfg, w, ContinueRun(id, approved, o)), run, slack)
  {
    hide ContinueAfterApproval, Inv, AllWithin, Latest, StepName, Paired, Enough;
    var own := w.db.approvals[id].run;
    ContinuationIsChecked(cfg, w.db, id, approved, o);
    ContinueAddsLogs(cfg, w.db, id, approved, o);
    ContinueKeepsInv(cfg, w.db, id, approved, o);
    var r := ContinueAfterApproval(cfg, w.db, id, approved, o);
    var s := Served(ContinueRun(id, approved, o), r.answer, r.effects);
    assert AddsLogs(w.db, r.db, own);
    assert SamePayloads(w.db, r.db);
    forall run: nat ensures AllWithin(cfg, World(r.db, w.served + [s]), run, slack) {
      assert AllWithin(cfg, w, run, slack);
      if run == own {
        ContinuedRunWithin(cfg, w, id, approved, o, slack);
      } else {
        OtherRunKept(cfg, w, r.db, s, own, run, slack);
      }
    }
  }

  /** The continuation of an unlogged pause runs from the source of the call that paused. */
  lemma UnloggedRuns(cfg: Config, db: Db, id: nat)
    requires Inv(cfg, db) && CanContinue(db, id) && Unlogged(cfg, db, db.approvals[id].run)
    requires var c := ContinuedCommand(db.approvals[id], PausedState(db, id)); Runnable(cfg, c.tool, c.sourceType, true)
    ensures PauseThenRun(cfg)
  {
    hide Paired, LogIds, RowsTraced, Complete, Latest, StepName, Runnable, Pausable, ContinuedTool, TableOk;
    var run := db.approvals[id].run;
    var k: nat, tool, confirmed :| UnloggedAt(cfg, db, run, k, tool, confirmed);
    PauseIsResumed(cfg, db.rows, run, k);
    var s := db.rows[k].state;
    var c := ContinuedCommand(db.approvals[id], s);
    assert c.sourceType == FirstNonEmpty(s.sourceType, "agent_chat");
    assert PausesInto(cfg, tool, c.tool, s.sourceType, confirmed);
  }

  lemma ContinuedRunWithin(cfg: Config, w: World, id: nat, approved: bool, o: ContinueOracle, slack: nat)
    requires Inv(cfg, w.db) && CanContinue(w.db, id) && !o.crash && Enough(cfg, slack)
    requires AllWithin(cfg, w, w.db.approvals[id].run, slack)
    ensures AllWithin(cfg, Next(cfg, w, ContinueRun(id, approved, o)), w.db.approvals[id].run, slack)
  {
    hide ContinueAfterApproval, Inv, LogIds, GuardedRuns, GuardedLogged, CommittedRuns, Latest, StepName, Paired,
         LoopPausable, Continuable, Runnable, Pausable, Unlogged, PauseThenRun, PausedState, ContinuedCommand;
    ContinueSpends(cfg, w.db, id, approved, o);
    ContinuationIsChecked(cfg, w.db, id, approved, o);
    var r := ContinueAfterApproval(cfg, w.db, id, approved, o);
    var c := ContinuedCommand(w.db.approvals[id], PausedState(w.db, id));
    if Unlogged(cfg, w.db, w.db.approvals[id].run) && Runnable(cfg, c.tool, c.sourceType, true) {
      UnloggedRuns(cfg, w.db, id);
    }
    CountsNext(w.served, Served(ContinueRun(id, approved, o), r.answer, r.effects), w.db.approvals[id].run);
  }

  lemma UncommittedKeepsWithin(cfg: Config, w: World, noted: Db, s: Served, slack: nat)
    requires (forall run: nat :: AllWithin(cfg, w, run, slack)) && !s.answer.Answered?
    requires noted.workflows == w.db.workflows && noted.toolLogs == w.db.toolLogs
    requires noted.rows == w.db.rows && noted.approvals == w.db.approvals
    ensures forall run: nat :: AllWithin(cfg, World(noted, w.served + [s]), run, slack)
  {
    hide AllWithin;
    forall run: nat ensures AllWithin(cfg, World(noted, w.served + [s]), run, slack) {
      UncommittedKeepsOne(cfg, w, noted, s, run, slack);
    }
  }

  lemma UncommittedKeepsOne(cfg: Config, w: World, noted: Db, s: Served, run: nat, slack: nat)
    requires AllWithin(cfg, w, run, slack) && !s.answer.Answered?
    requires noted.workflows == w.db.workflows && noted.toolLogs == w.db.toolLogs
    requires noted.rows == w.db.rows && noted.approvals == w.db.approvals
    ensures AllWithin(cfg, World(noted, w.served + [s]), run, slack)
  {
    hide LogIds, GuardedRuns, CommittedRuns, Executions, Replays, RolledBackOn, WorksOn, Cap, RunBudget.Paused;
    hide Pausable;
    CountsNext(w.served, s, run);
    if run < |w.db.workflows| && Unlogged(cfg, w.db, run) {
      var k: nat, tool, confirmed :| UnloggedAt(cfg, w.db, run, k, tool, confirmed);
      assert UnloggedAt(cfg, noted, run, k, tool, confirmed);
    }
  }

  lemma NextKeepsWithin(cfg: Config, w: World, request: Request, slack: nat)
    requires Inv(cfg, w.db) && Enough(cfg, slack)
    requires forall run: nat :: AllWithin(cfg, w, run, slack)
    ensures forall run: nat :: AllWithin(cfg, Next(cfg, w, request), run, slack)
  {
    hide RunWorkflow, ContinueAfterApproval, Latest, StepName, Inv, TouchesOnly, EffectOk, AllWithin, Enough;
    var r := Serve(cfg, w.db, request);
    match request
    case StartRun(cmd, o) =>
      StartTouches(cfg, w.db, cmd, o);
      if o.crash {
        UncommittedKeepsWithin(cfg, w, w.db, Served(request, r.answer, r.effects), slack);
      } else {
        StartKeepsWithin(cfg, w, cmd, o, slack);
      }
    case ContinueRun(id, approved, o) =>
      ContinuationIsChecked(cfg, w.db, id, approved, o);
      if CanContinue(w.db, id) && !o.crash {
        ContinueKeepsWithin(cfg, w, id, approved, o, slack);
      } else {
        UncommittedKeepsWithin(cfg, w, w.db, Served(request, r.answer, r.effects), slack);
      }
    case ChatMessages(n) =>
      UncommittedKeepsWithin(cfg, w, w.db.(messages := w.db.messages + seq(n, _ => Chat)),
                             Served(request, r.answer, r.effects), slack);
  }

  lemma {:induction false} PlayKeepsWithin(cfg: Config, requests: seq<Request>, slack: nat)
    requires Enough(cfg, slack)
    ensures forall run: nat :: AllWithin(cfg, Play(cfg, requests), run, slack)
  {
    if requests == [] {
      EmptyWithin(cfg, slack);
    } else {
      hide Inv, Within, AllWithin, Enough, Next, Play;
      var front := requests[..|requests| - 1];
      PlayKeepsWithin(cfg, front, slack);
      PlayKeepsWorld(cfg, front);
      NextKeepsWithin(cfg, Play(cfg, front), requests[|requests| - 1], slack);
      PlayNext(cfg, requests);
    }
  }

  lemma EmptyWithin(cfg: Config, slack: nat)
    ensures forall run: nat :: AllWithin(cfg, Play(cfg, []), run, slack)
  {
    assert Play(cfg, []) == World(EMPTY, []);
  }

  lemma PlayNext(cfg: Config, requests: seq<Request>)
    requires requests != []
    ensures Play(cfg, requests) == Next(cfg, Play(cfg, requests[..|requests| - 1]), requests[|requests| - 1])
  {
    hide Serve;
  }

  // ----- histories that do not -----

  function Answering(request: Option<ApprovalRequest>): NodeOracle {
    NodeOracle(map[], false, false, Returned(false, true, request), false)
  }

  /** The executor asks for this tool. */
  function PauseFor(next: string): Option<ApprovalRequest> {
    Some(ApprovalRequest(next, map[], false))
  }

  /** A call of a runnable tool, while the budget has room, is logged when answered plainly. */
  lemma RunnableRuns(cfg: Config, db: Db, s: RunState, cmd: Command, first: bool)
    requires Runnable(cfg, cmd.tool, cmd.sourceType, first) && (first ==> cmd.confirmed)
    requires |s.toolCallIds| < cfg.settings.maxToolCalls && s.policy == None
    ensures var n := ToolNode(cfg, db, s, cmd, Answering(None));
            && GuardedRuns(n.effects) == 1
            && n.state.step == MaybeTool && |n.state.toolCallIds| == |s.toolCallIds| + 1 && n.state.policy == None
  {
    hide PreCheck, RecordPair;
    GuardLets(cfg, s, cmd, first);
    TwoEffects(ToolNode(cfg, db, s, cmd, Answering(None)).effects);
  }

  /** A call of a pausable one only pauses when answered by an approval request. */
  lemma PausableRuns(cfg: Config, db: Db, s: RunState, cmd: Command, first: bool, next: string)
    requires Pausable(cfg, cmd.tool, cmd.sourceType, first) && (first ==> cmd.confirmed)
    requires |s.toolCallIds| < cfg.settings.maxToolCalls && s.policy == None
    ensures var n := ToolNode(cfg, db, s, cmd, Answering(PauseFor(next)));
            && GuardedRuns(n.effects) == 1
            && n.state == s.(step := WaitConfirmation,
                             runtimeApproval := Some(RuntimePayload(PauseFor(next).value, cmd)))
  {
    hide PreCheck, RecordPair;
    GuardLets(cfg, s, cmd, first);
    TwoEffects(ToolNode(cfg, db, s, cmd, Answering(PauseFor(next))).effects);
  }

  lemma GuardLets(cfg: Config, s: RunState, cmd: Command, first: bool)
    requires Runnable(cfg, cmd.tool, cmd.sourceType, first) && (first ==> cmd.confirmed)
    requires |s.toolCallIds| < cfg.settings.maxToolCalls && s.policy == None
    ensures GuardStage(cfg, s, cmd).None? && RuntimePermits(cfg.capabilities[cmd.tool], cmd)
  {
    hide PreCheck;
    var now := CallContext(cmd.tool, Some(cmd.sourceType), |s.toolCallIds|, cmd.confirmed);
    PassesIff(now, cfg.registry, None, cfg.settings);
    PassesIff(CallContext(cmd.tool, Some(cmd.sourceType), 0, first), cfg.registry, None, cfg.settings);
  }

  /** The loop calls the tool n times, each call logged. */
  function Calls(tool: string, n: nat): seq<LoopCall> {
    if n == 0 then [] else Calls(tool, n - 1) + [LoopCall(tool, map[], Answering(None))]
  }

  lemma {:induction false} LoopFills(cfg: Config, db: Db, s: RunState, tool: string, n: nat)
    requires Runnable(cfg, tool, "agent_chat", false) && n <= cfg.settings.maxToolCalls
    requires s.toolCallIds == [] && s.policy == None && !Waits(s.step)
    ensures var r := LoopCalls(cfg, db, s, Calls(tool, n));
            && |r.state.toolCallIds| == n && r.state.policy == None && !Waits(r.state.step)
            && GuardedRuns(r.effects) == n
  {
    hide ToolNode, Runnable, GuardedRuns, LoopCalls;
    if n == 0 {
      NoEffects();
      NoCalls(cfg, db, s);
    } else {
      var calls, c := Calls(tool, n - 1), LoopCall(tool, map[], Answering(None));
      LoopFills(cfg, db, s, tool, n - 1);
      OneMoreCall(cfg, db, s, calls, c);
      var r := LoopCalls(cfg, db, s, calls);
      RunnableRuns(cfg, r.db, r.state.(requestedTool := tool, sourceType := "agent_chat"), LoopCommand(c), false);
    }
  }

  lemma NoCalls(cfg: Config, db: Db, s: RunState)
    ensures LoopCalls(cfg, db, s, []) == Node(db, s, [])
  {
  }

  /** One more call at the end of a loop that has not stopped. */
  lemma OneMoreCall(cfg: Config, db: Db, s: RunState, calls: seq<LoopCall>, c: LoopCall)
    requires !Waits(LoopCalls(cfg, db, s, calls).state.step)
    ensures var n := LoopCalls(cfg, db, s, calls);
            var m := ToolNode(cfg, n.db, n.state.(requestedTool := c.tool, sourceType := "agent_chat"), LoopCommand(c),
                              c.node);
            var longer := LoopCalls(cfg, db, s, calls + [c]);
            && longer.state == m.state && longer.db == m.db
            && GuardedRuns(longer.effects) == GuardedRuns(n.effects) + GuardedRuns(m.effects)
  {
    hide ToolNode, GuardedRuns;
    var longer := calls + [c];
    assert longer[..|longer| - 1] == calls && longer[|longer| - 1] == c;
    var n := LoopCalls(cfg, db, s, calls);
    var t := n.state.(requestedTool := c.tool, sourceType := "agent_chat");
    GuardedRunsConcat(n.effects, ToolNode(cfg, n.db, t, LoopCommand(c), c.node).effects);
  }

  /** A state paused on an unlogged call of the tool that asks for the next, with this many logged calls before. */
  predicate PausedFull(s: RunState, tool: string, next: string, source: string, logged: nat) {
    && s.step == WaitConfirmation && s.sourceType == source && s.policy == None && |s.toolCallIds| == logged
    && s.runtimeApproval == Some(Payload(next, None, Some(map[]), false, false, tool))
  }

  /**
   A start whose tool work ends waiting for confirmation leaves an approval that a continuation accepts, over the same
   state.
   */
  lemma StartPausesAt(cfg: Config, cmd: Command, o: StartOracle)
    requires !o.crash
    requires var p := Planned(cfg, EMPTY, cmd, o); Work(cfg, p.0, p.1, Chosen(cmd, o), o).state.step == WaitConfirmation
    ensures var p := Planned(cfg, EMPTY, cmd, o); var n := Work(cfg, p.0, p.1, Chosen(cmd, o), o);
            var r := RunWorkflow(cfg, EMPTY, cmd, o);
            && r.answer == Answered(0) && CanContinue(r.db, 0) && r.effects == n.effects
            && PausedState(r.db, 0) == n.state.(approvalId := Some(0))
            && n.state.run == 0 && n.db.approvals == [] && |n.db.workflows| == 1 && n.db.workflows[0].approvalId == None
            && r.db.approvals == Pause(cfg, n.db, n.state, Chosen(cmd, o), o).approvals
  {
    hide SaveStep, Work, Planned, TableOk, Below, NewRows, Refresh, TouchesOnly, EffectOk, Latest, StepName, Inv,
         CanContinue, Advances;
    hide Pause, PauseRequest;
    EmptyWorldOk(cfg);
    var p, chosen := Planned(cfg, EMPTY, cmd, o), Chosen(cmd, o);
    PlannedOk(cfg, EMPTY, cmd, o);
    PlannedKeepsApprovals(cfg, EMPTY, cmd, o);
    PlannedTouches(cfg, EMPTY, cmd, o);
    WorkKeepsRun(cfg, p.0, p.1, chosen, o);
    var n := Work(cfg, p.0, p.1, chosen, o);
    var reached := StartWorks(cfg, EMPTY, cmd, o);
    AdvancesRows(cfg, p.0, p.1, n.db, reached, n.effects, cmd.confirmed);
    BelowGrows(n.db.rows, 0, [], n.state.toolCallIds);
    PauseCanContinue(cfg, n.db, n.state, chosen, o);
    PauseIsOwn(cfg, n.db, n.state, chosen, o);
    StartTouches(cfg, EMPTY, cmd, o);
  }

  lemma PauseIsOwn(cfg: Config, db: Db, s: RunState, cmd: Command, o: StartOracle)
    requires s.run < |db.workflows|
    ensures var paused := Pause(cfg, db, s, cmd, o).approvals;
            |paused| == |db.approvals| + 1 && paused[|db.approvals|].run == s.run
  {
    hide Save, StepName, PauseRequest;
  }

  lemma StartPauses(cfg: Config, cmd: Command, o: StartOracle, tool: string, next: string, source: string, logged: nat)
    requires !o.crash && next != ""
    requires var p := Planned(cfg, EMPTY, cmd, o);
             PausedFull(Work(cfg, p.0, p.1, Chosen(cmd, o), o).state, tool, next, source, logged)
    ensures var r := RunWorkflow(cfg, EMPTY, cmd, o);
            && r.answer == Answered(0) && CanContinue(r.db, 0)
            && r.db.approvals[0].run == 0
            && r.db.approvals[0].payload == Payload(next, None, Some(map[]), false, false, tool)
            && PausedFull(PausedState(r.db, 0), tool, next, source, logged)
  {
    hide Work, Planned, Pause, CanContinue, PausedState, RunWorkflow;
    var p, chosen := Planned(cfg, EMPTY, cmd, o), Chosen(cmd, o);
    var n := Work(cfg, p.0, p.1, chosen, o);
    StartPausesAt(cfg, cmd, o);
    PauseApproval(cfg, n.db, n.state, chosen, o);
  }

  lemma PauseApproval(cfg: Config, db: Db, s: RunState, cmd: Command, o: StartOracle)
    requires s.run < |db.workflows| && db.workflows[s.run].approvalId == None
    requires s.runtimeApproval.Some? && s.runtimeApproval.value.requestedTool != ""
    ensures Pause(cfg, db, s, cmd, o).approvals ==
            db.approvals + [Approval(s.run, Pending, s.runtimeApproval.value.requestedTool, s.runtimeApproval.value)]
  {
    hide Save, StepName;
  }

  /** Its approved continuation calls the next tool. */
  lemma ContinuationRuns(cfg: Config, db: Db, tool: string, next: string, source: string, c: ContinueOracle)
    requires Runnable(cfg, next, FirstNonEmpty(source, "agent_chat"), true) && next != ""
    requires c == ContinueOracle(Answering(None), ResumeOracle(true, None), false)
    requires CanContinue(db, 0) && db.approvals[0].run == 0
    requires db.approvals[0].payload == Payload(next, None, Some(map[]), false, false, tool)
    requires cfg.settings.maxToolCalls > 0
    requires PausedFull(PausedState(db, 0), tool, next, source, cfg.settings.maxToolCalls - 1)
    ensures var r := ContinueAfterApproval(cfg, db, 0, true, c); r.answer == Answered(0) && GuardedRuns(r.effects) == 1
  {
    hide Runnable, ToolNode, SaveStep, Finalize, GuardedRuns, Refresh, Latest, StepName, ResumeSdk;
    ContinuationIsChecked(cfg, db, 0, true, c);
    var s, a := PausedState(db, 0), db.approvals[0];
    var cmd := ContinuedCommand(a, s);
    assert cmd.tool == next && cmd.sourceType == FirstNonEmpty(source, "agent_chat");
    var decided := DecideApproval(db, 0, true);
    var t := s.(step := MaybeTool, approvalId := Some(0), requestedTool := cmd.tool, sourceType := cmd.sourceType);
    RunnableRuns(cfg, decided, t, cmd, true);
    assert ContinueAfterApproval(cfg, db, 0, true, c).effects == Proceed(cfg, db, s, 0, true, c).1;
  }

  /** A start answered for run 0 and the continuation of approval 0 spend what their effects show. */
  lemma TwoServed(cfg: Config, cmd: Command, o: StartOracle, c: ContinueOracle)
    requires var started := RunWorkflow(cfg, EMPTY, cmd, o);
             && started.answer == Answered(0)
             && ContinueAfterApproval(cfg, started.db, 0, true, c).answer == Answered(0)
    ensures var started := RunWorkflow(cfg, EMPTY, cmd, o);
            var served := Play(cfg, [StartRun(cmd, o), ContinueRun(0, true, c)]).served;
            && CommittedRuns(served, 0) ==
               GuardedRuns(started.effects) + GuardedRuns(ContinueAfterApproval(cfg, started.db, 0, true, c).effects)
            && Replays(served, 0) == 0
  {
    hide RunWorkflow, ContinueAfterApproval, GuardedRuns, WorksOn;
    var first, second := StartRun(cmd, o), ContinueRun(0, true, c);
    var requests := [first, second];
    assert requests[..1] == [first] && [first][..0] == [];
    var started := RunWorkflow(cfg, EMPTY, cmd, o);
    var r := ContinueAfterApproval(cfg, started.db, 0, true, c);
    assert Play(cfg, []) == World(EMPTY, []);
    var w1, w2 := Play(cfg, [first]), Play(cfg, requests);
    assert w1 == World(started.db, [Served(first, started.answer, started.effects)]);
    assert w2.served == [Served(first, started.answer, started.effects), Served(second, r.answer, r.effects)];
    assert w1.served[..0] == [] && w2.served[..1] == w1.served;
    assert CommittedRuns(w1.served, 0) == GuardedRuns(started.effects) && Replays(w1.served, 0) == 0;
  }

  /** The committed requests of run 0 executed once more than the budget allows. */
  predicate OneOver(cfg: Config, requests: seq<Request>) {
    var served := Play(cfg, requests).served;
    CommittedRuns(served, 0) == Cap(cfg) + 1 && Replays(served, 0) == 0
  }

  /** A start that fills the budget with one call unlogged, and then its continuation: one call too many. */
  lemma OneTooMany(cfg: Config, cmd: Command, o: StartOracle, tool: string, next: string, source: string)
    requires !o.crash && next != ""
    requires Runnable(cfg, next, FirstNonEmpty(source, "agent_chat"), true) && cfg.settings.maxToolCalls > 0
    requires var p := Planned(cfg, EMPTY, cmd, o); var n := Work(cfg, p.0, p.1, Chosen(cmd, o), o);
             && PausedFull(n.state, tool, next, source, cfg.settings.maxToolCalls - 1)
             && GuardedRuns(n.effects) == cfg.settings.maxToolCalls
    ensures var c := ContinueOracle(Answering(None), ResumeOracle(true, None), false);
            OneOver(cfg, [StartRun(cmd, o), ContinueRun(0, true, c)])
  {
    hide Runnable, Planned, Work, Conclude, ContinueAfterApproval, GuardedRuns, CanContinue, CommittedRuns, Replays,
         Play,
         PausedState, PausedFull, Refresh;
    var c := ContinueOracle(Answering(None), ResumeOracle(true, None), false);
    StartPauses(cfg, cmd, o, tool, next, source, cfg.settings.maxToolCalls - 1);
    var started := RunWorkflow(cfg, EMPTY, cmd, o);
    ContinuationRuns(cfg, started.db, tool, next, source, c);
    TwoServed(cfg, cmd, o, c);
  }

  const NO_LOOP := LoopOracle([], false, false)

  /** The model's loop fills the budget, its last call unlogged. */
  lemma LoopOverspends(cfg: Config, tool: string) returns (requests: seq<Request>)
    requires tool != "" && Pausable(cfg, tool, "agent_chat", false)
    ensures OneOver(cfg, requests)
  {
    hide Runnable, Planned, GuardedRuns, OneOver, PausedFull, LoopCalls, ToolNode;
    PausableNeedsBudget(cfg, tool, "agent_chat", false);
    ConfirmedRuns(cfg, tool, "agent_chat", false);
    var n := cfg.settings.maxToolCalls - 1;
    var c := LoopCall(tool, map[], Answering(PauseFor(tool)));
    var cmd := Command("", "agent_chat", false, map[]);
    var o := StartOracle(None, None, Answering(None), NoRecovery, LoopOracle(Calls(tool, n) + [c], false, false), false,
                         None, false);
    var p := Planned(cfg, EMPTY, cmd, o);
    assert p.1.toolCallIds == [] && p.1.policy == None && p.1.step == PlanOrReply by {
      PlannedState(cfg, EMPTY, cmd, o);
    }
    LoopFills(cfg, p.0, p.1, tool, n);
    OneMoreCall(cfg, p.0, p.1, Calls(tool, n), c);
    var r := LoopCalls(cfg, p.0, p.1, Calls(tool, n));
    PausableRuns(cfg, r.db, r.state.(requestedTool := tool, sourceType := "agent_chat"), LoopCommand(c), false, tool);
    assert PausedFull(LoopCalls(cfg, p.0, p.1, Calls(tool, n) + [c]).state, tool, tool, "agent_chat", n) by {
      PausesFull(LoopCalls(cfg, p.0, p.1, Calls(tool, n) + [c]).state, tool, tool, "agent_chat", n);
    }
    OneTooMany(cfg, cmd, o, tool, tool, "agent_chat");
    requests := [StartRun(cmd, o),
                 ContinueRun(0, true, ContinueOracle(Answering(None), ResumeOracle(true, None), false))];
  }

  lemma PausesFull(s: RunState, tool: string, next: string, source: string, logged: nat)
    requires next != "" && s.step == WaitConfirmation && s.sourceType == source && s.policy == None
    requires |s.toolCallIds| == logged
    requires s.runtimeApproval == Some(RuntimePayload(PauseFor(next).value, Command(tool, source, false, map[]))) ||
             s.runtimeApproval == Some(RuntimePayload(PauseFor(next).value, Command(tool, source, true, map[])))
    ensures PausedFull(s, tool, next, source, logged)
  {
  }

  lemma PlannedState(cfg: Config, db: Db, cmd: Command, o: StartOracle)
    ensures var s := Planned(cfg, db, cmd, o).1;
            && s.toolCallIds == [] && s.policy == o.policy && s.step == PlanOrReply
            && (Chosen(cmd, o).tool != "" ==> s.sourceType == Chosen(cmd, o).sourceType)
  {
    hide SaveStep;
  }

  /** With a budget of one call, a start's own first call and its continuation are enough. */
  lemma FirstCallOverspends(cfg: Config, tool: string, next: string, source: string, confirmed: bool)
    returns (requests: seq<Request>)
    requires tool != "" && next != "" && cfg.settings.maxToolCalls == 1 &&
             PausesInto(cfg, tool, next, source, confirmed)
    ensures OneOver(cfg, requests)
  {
    hide Runnable, Planned, GuardedRuns, OneOver, ToolNode, Recover, PausedFull;
    var cmd := Command(tool, source, confirmed, map[]);
    var o := StartOracle(None, None, Answering(PauseFor(next)), NoRecovery, NO_LOOP, false, None, false);
    var p := Planned(cfg, EMPTY, cmd, o);
    PlannedState(cfg, EMPTY, cmd, o);
    PausableRuns(cfg, p.0, p.1, cmd, confirmed, next);
    PausesFull(ToolNode(cfg, p.0, p.1, cmd, o.node).state, tool, next, source, 0);
    OneTooMany(cfg, cmd, o, tool, next, source);
    requests := [StartRun(cmd, o),
                 ContinueRun(0, true, ContinueOracle(Answering(None), ResumeOracle(true, None), false))];
  }

  // ----- exactly when -----

  /** A run's executions stay within the budget but for those of its continuations that were rolled back. */
  predicate StaysWithin(cfg: Config, requests: seq<Request>, run: nat) {
    var served := Play(cfg, requests).served;
    Executions(served, run) <= Cap(cfg) + Replays(served, run)
  }

  /** Where no continuation of the run was rolled back after executing, they stay within the budget. */
  predicate StaysWithinUnlessReplayed(cfg: Config, requests: seq<Request>, run: nat) {
    var served := Play(cfg, requests).served;
    Replays(served, run) == 0 ==> Executions(served, run) <= Cap(cfg)
  }

  /**
   In every deployment and every history, a run's executions exceed the budget by at most one, not counting those of its
   continuations that were rolled back after executing, of which each executed once at most.
   */
  lemma NeverMoreThanOneOver(cfg: Config, requests: seq<Request>, run: nat)
    ensures var served := Play(cfg, requests).served;
            && Executions(served, run) <= Cap(cfg) + 1 + Replays(served, run)
            && Replays(served, run) <= RolledBackOn(served, run)
  {
    hide Play, Executions, CommittedRuns, Replays, RolledBackOn;
    PlayKeepsWithin(cfg, requests, 1);
    assert AllWithin(cfg, Play(cfg, requests), run, 1);
    ExecutionsSplit(cfg, requests, run);
  }

  /**
   All the executor calls that the guard lets through for a run, committed or rolled back, stay within the call budget
   plus those of its rolled-back continuations, in every history, exactly when the deployment cannot overspend. The same
   condition is exact for the budget alone, over the histories in which no continuation was rolled back after executing.
   Capability ids are not blank, which registration checks.
   */
  lemma BudgetHoldsIff(cfg: Config)
    requires "" !in cfg.capabilities
    ensures (forall requests, run: nat :: StaysWithin(cfg, requests, run)) <==>
            !CanOverspend(cfg)
    ensures (forall requests, run: nat :: StaysWithinUnlessReplayed(cfg, requests, run))
            <==> !CanOverspend(cfg)
  {
    hide CanOverspend, Executions, Replays, Play, StaysWithin, StaysWithinUnlessReplayed;
    if CanOverspend(cfg) {
      var requests := OverspendingHistory(cfg);
      assert !StaysWithin(cfg, requests, 0) && !StaysWithinUnlessReplayed(cfg, requests, 0);
    } else {
      forall requests, run: nat
        ensures StaysWithin(cfg, requests, run) && StaysWithinUnlessReplayed(cfg, requests, run)
      {
        HistoryStaysWithin(cfg, requests, run);
      }
    }
  }

  lemma OverspendingHistory(cfg: Config) returns (requests: seq<Request>)
    requires "" !in cfg.capabilities && CanOverspend(cfg)
    ensures !StaysWithin(cfg, requests, 0) && !StaysWithinUnlessReplayed(cfg, requests, 0)
  {
    hide CommittedRuns, Executions, Replays, Play, Runnable;
    if LoopPausable(cfg) {
      var tool :| tool in cfg.capabilities && Pausable(cfg, tool, "agent_chat", false);
      requests := LoopOverspends(cfg, tool);
    } else {
      var tool, next, source, confirmed :| PausesInto(cfg, tool, next, source, confirmed);
      RunnableNamed(cfg, tool, source, confirmed);
      RunnableNamed(cfg, next, FirstNonEmpty(source, "agent_chat"), true);
      requests := FirstCallOverspends(cfg, tool, next, source, confirmed);
    }
    ExecutionsSplit(cfg, requests, 0);
  }

  lemma RunnableNamed(cfg: Config, tool: string, source: string, confirmed: bool)
    requires Runnable(cfg, tool, source, confirmed)
    ensures tool in cfg.capabilities && tool != cfg.names.filesystemSkill
  {
  }

  lemma HistoryStaysWithin(cfg: Config, requests: seq<Request>, run: nat)
    requires !CanOverspend(cfg)
    ensures StaysWithin(cfg, requests, run) && StaysWithinUnlessReplayed(cfg, requests, run)
  {
    hide CanOverspend, Executions, CommittedRuns, Replays, Play, Unlogged;
    PlayKeepsWithin(cfg, requests, 0);
    assert AllWithin(cfg, Play(cfg, requests), run, 0);
    ExecutionsSplit(cfg, requests, run);
  }
}
