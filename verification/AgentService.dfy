/**
 The requests of the agent workflow as they run: rows updated in place, in the order the code writes them.
 Each method is proved against the function that specifies it.
 */
module AgentService {
  import opened Values
  import opened Guardrails
  import opened Checkpoints
  import opened ToolRuntime
  import opened ApprovalWorkflow
  import opened RunHistory
  import opened RunBudget
  import opened RunOverspend

  /** What every history keeps: the invariant of runs, and each paused run's approval ready to be continued. */
  ghost predicate Sound(cfg: Config, db: Db) {
    Inv(cfg, db) && forall run: nat :: run < |db.workflows| && Paused(db.workflows[run]) ==> Continues(db, run)
  }

  predicate Continues(db: Db, run: nat)
    requires run < |db.workflows|
  {
    var id := db.workflows[run].approvalId;
    id.Some? && CanContinue(db, id.value) && db.approvals[id.value].run == run
  }

  lemma HistoryIsSound(cfg: Config, requests: seq<Request>)
    ensures Sound(cfg, Play(cfg, requests).db)
  {
    hide Play, Inv, CanContinue, Within;
    PlayKeepsWorld(cfg, requests);
    var db := Play(cfg, requests).db;
    forall run: nat | run < |db.workflows| && Paused(db.workflows[run]) ensures Continues(db, run) {
      EveryPauseCanContinue(cfg, requests, run);
    }
  }

  /** No continuation accepted among these requests was for this run or this approval. */
  ghost predicate NoneAccepted(cfg: Config, requests: seq<Request>, run: nat, id: nat) {
    var served := Play(cfg, requests).served;
    forall s <- served :: Accepted(s) ==> s.answer.run != run && s.request.approvalId != id
  }

  /**
   One more request: what it leaves, and, if it is an accepted continuation, that it is the first of its run and
   approval.
   */
  lemma Followed(cfg: Config, requests: seq<Request>, request: Request)
    ensures var r := Serve(cfg, Play(cfg, requests).db, request);
            && Play(cfg, requests + [request]).db == r.db && Sound(cfg, r.db)
            && (request.ContinueRun? && r.answer.Answered? ==>
                NoneAccepted(cfg, requests, r.answer.run, request.approvalId))
  {
    hide Serve, Sound, Play;
    var longer := requests + [request];
    assert longer[..|requests|] == requests;
    PlayNext(cfg, longer);
    HistoryIsSound(cfg, longer);
    var before, after := Play(cfg, requests), Play(cfg, longer);
    var r := Serve(cfg, before.db, request);
    if request.ContinueRun? && r.answer.Answered? {
      forall s | s in before.served && Accepted(s)
        ensures s.answer.run != r.answer.run && s.request.approvalId != request.approvalId
      {
        var i: nat :| i < |before.served| && before.served[i] == s;
        PlayPrefix(cfg, longer, 0);
        AtMostOneContinuation(cfg, longer, i, |requests|);
        assert after.served[i] == s && after.served[|requests|] == Served(request, r.answer, r.effects);
      }
    }
  }

  lemma PausedIsAccepted(cfg: Config, requests: seq<Request>, id: nat)
    ensures var db := Play(cfg, requests).db;
            forall run: nat ::
                run < |db.workflows| && Paused(db.workflows[run]) && db.workflows[run].approvalId == Some(id) ==>
                  CanContinue(db, id)
  {
    hide Play, Inv, CanContinue;
    HistoryIsSound(cfg, requests);
  }

  class Service {
    const cfg: Config
    var workflows: seq<Workflow>
    var approvals: seq<Approval>
    var rows: seq<Row<nat, RunState>>
    var toolLogs: seq<ToolLog>
    var messages: seq<Message>
    ghost var requests: seq<Request>

    constructor (cfg: Config)
      ensures this.cfg == cfg && Valid() && requests == []
    {
      this.cfg := cfg;
      workflows, approvals, rows, toolLogs, messages := [], [], [], [], [];
      requests := [];
    }

    /** The tables are what the requests served so far left. */
    ghost predicate Valid()
      reads this
    {
      View() == Play(cfg, requests).db
    }

    function View(): Db
      reads this
    {
      Db(workflows, approvals, rows, toolLogs, messages)
    }

    // ----- single writes -----

    method SetWorkflowStatus(run: nat, status: RunStatus)
      requires run < |workflows|
      modifies this`workflows
      ensures View() == SetStatus(old(View()), run, status)
    {
      workflows := workflows[run := workflows[run].(status := status)];
    }

    method SaveState(s: RunState)
      requires s.run < |workflows|
      modifies this`workflows, this`rows
      ensures View() == SaveStep(cfg, old(View()), s)
    {
      hide StepName, Latest;
      workflows := workflows[s.run := workflows[s.run].(step := s.step)];
      var key, n := StepName(s.step), |rows|;
      var clock := cfg.clock(n);
      var latestBeforeSave := Latest(rows, key, s.run);
      rows := rows + [Row(cfg.rowId(n), s.run, key, s, clock, Stored(clock, cfg.precision))];
      if latestBeforeSave.Some? && rows[n].seen <= latestBeforeSave.value.seen {
        var moved := latestBeforeSave.value.seen + SECOND;
        rows := rows[n := rows[n].(seen := moved, createdAt := Stored(moved, cfg.precision))];
      }
    }

    method RequestUserApproval(run: nat, actionType: string, payload: Payload) returns (id: nat)
      requires run < |workflows|
      modifies this`workflows, this`approvals
      ensures View() == RequestApproval(old(View()), run, actionType, payload)
      ensures id == |old(approvals)|
    {
      id := |approvals|;
      var replaced := workflows[run].approvalId;
      if replaced.Some? && replaced.value < |approvals| {
        approvals := approvals[replaced.value := approvals[replaced.value].(status := Deleted)];
      }
      approvals := approvals + [Approval(run, Pending, actionType, payload)];
      workflows := workflows[run := workflows[run].(status := WaitingUser, approvalId := Some(id))];
    }

    method DecideUserApproval(id: nat, approved: bool)
      requires id < |approvals| && approvals[id].run < |workflows|
      modifies this`workflows, this`approvals
      ensures View() == DecideApproval(old(View()), id, approved)
    {
      approvals := approvals[id := approvals[id].(status := if approved then Approved else ApprovalStatus.Rejected)];
      var run := approvals[id].run;
      if approved {
        workflows := workflows[run := workflows[run].(status := Running)];
      } else {
        workflows := workflows[run := workflows[run].(status := Canceled, step := ApprovalRejected)];
      }
    }

    method RecordToolCall(run: nat, tool: string, status: LogStatus) returns (id: nat, call: nat)
      modifies this`toolLogs, this`messages
      ensures View() == RecordPair(old(View()), run, tool, status)
      ensures id == |old(toolLogs)| && call == |old(messages)|
    {
      id := |toolLogs|;
      toolLogs := toolLogs + [ToolLog(run, tool, status)];
      call := |messages|;
      messages := messages + [ToolCall(run, id)];
      messages := messages + [ToolResult(run, id, call)];
    }

    method FinalizeResponse(s: RunState)
      requires s.run < |workflows|
      modifies this`workflows, this`rows
      ensures View() == Finalize(cfg, old(View()), s)
    {
      hide SaveStep;
      SetWorkflowStatus(s.run, Completed);
      SaveState(s.(step := FinalResponse));
    }

    // ----- the tool node -----

    method MaybeToolNode(s: RunState, cmd: Command, o: NodeOracle) returns (state: RunState, effects: seq<Effect>)
      modifies this`toolLogs, this`messages
      ensures Node(View(), state, effects) == ToolNode(cfg, old(View()), s, cmd, o)
    {
      hide PreCheck, RuntimeCall, GuardApplies;
      effects := [Entered(s.run, cmd.tool, cmd.confirmed, cmd.input)];
      var capability, definition := Find(cfg.capabilities, cmd.tool), Lookup(cfg.registry, cmd.tool);
      if (capability.Some? || definition.Some?) && o.invalid {
        return s.(step := WaitUserInput), effects;
      }
      var stopped := GuardStage(cfg, s, cmd);
      if stopped.Some? {
        return s.(step := stopped.value), effects;
      }
      ghost var before := View();
      if HandlerUnavailable(cfg, cmd.tool) {
        var id, call := RecordToolCall(s.run, cmd.tool, Failed);
        return s.(step := MaybeTool, toolCallIds := s.toolCallIds + [id], llmMessages := s.llmMessages + []), effects;
      }
      var c := capability.value;
      var called := RuntimeCall(cfg, c, cmd, o);
      var ending := EndingOf(cfg, c.executorId, cmd, o, called);
      if called.executed {
        effects := effects +
          [Executed(s.run, cmd.tool, cmd.confirmed, GuardApplies(cfg, cmd.tool), !ending.PausedUnlogged?)];
      }
      if ending.PausedUnlogged? {
        return s.(step := WaitConfirmation, runtimeApproval := Some(ending.runtimePayload)), effects;
      }
      var id, call := RecordToolCall(s.run, cmd.tool, if ending.Settled? then ending.status else BlockedLog);
      state := s.(toolCallIds := s.toolCallIds + [id], llmMessages := s.llmMessages + [call, call + 1]);
      match ending {
        case PausedBySdk(payload) => state := state.(step := WaitConfirmation, sdkApproval := Some(payload));
        case PausedForInput => state := state.(step := WaitUserInput);
        case Settled(_) => state := state.(step := MaybeTool);
      }
    }

    // ----- continuing after a decision -----

    method ResumeSdkAgent(s: RunState, id: nat, o: ResumeOracle) returns (state: RunState)
      requires s.run < |workflows| && id < |approvals|
      modifies this`workflows, this`approvals, this`rows, this`toolLogs, this`messages
      ensures (View(), state) == ResumeSdk(old(View()), s, id, o)
    {
      hide PauseRequest;
      var a := approvals[id];
      var tool := FirstNonEmpty(FirstNonEmpty(a.payload.outerTool, a.actionType), s.requestedTool);
      state := s.(step := MaybeTool, approvalId := Some(id), requestedTool := tool);
      if o.next.Some? && o.next.value.toolName != "" {
        var payload := Payload(o.next.value.toolName, None, Some(o.next.value.toolInput), true, o.next.value.resumable,
                               tool);
        var log, call := RecordToolCall(s.run, tool, BlockedLog);
        state := state.(step := WaitConfirmation, toolCallIds := s.toolCallIds + [log],
        llmMessages := s.llmMessages + [call, call + 1], sdkApproval := Some(payload));
        var request := PauseRequest(state, FirstNonEmpty(payload.requestedTool, tool), payload);
        var requested := RequestUserApproval(s.run, request.0, request.1);
        workflows := workflows[s.run := workflows[s.run].(step := WaitConfirmation)];
        state := state.(approvalId := Some(requested));
      } else {
        var log, call := RecordToolCall(s.run, tool, if o.ok then Succeeded else Failed);
        state := state.(toolCallIds := s.toolCallIds + [log], llmMessages := s.llmMessages + [call, call + 1]);
      }
    }

    /** The writes of a continuation whose checks have passed. */
    method ProceedAfterApproval(s: RunState, id: nat, approved: bool, o: ContinueOracle) returns (effects: seq<Effect>)
      requires s.run < |workflows| && id < |approvals| && approvals[id].run == s.run
      modifies this`workflows, this`approvals, this`rows, this`toolLogs, this`messages
      ensures (View(), effects) == Proceed(cfg, old(View()), s, id, approved, o)
    {
      hide SaveStep, Finalize, ToolNode, ResumeSdk;
      DecideUserApproval(id, approved);
      ghost var decided := View();
      var a := approvals[id];
      if Resumable(a) {
        ResumeWrites(decided, s, id, o.resume);
        var state := ResumeSdkAgent(s, id, o.resume);
        WritesOneWorkflow(cfg, View(), state);
        SaveState(state);
        FinalizeResponse(state);
        return [Resumed(s.run, approved)];
      }
      if !approved {
        SetWorkflowStatus(s.run, Canceled);
        SaveState(s.(step := ApprovalRejected, approvalId := Some(id)));
        return [];
      }
      var cmd := ContinuedCommand(a, s);
      var t := s.(step := MaybeTool, approvalId := Some(id), requestedTool := cmd.tool, sourceType := cmd.sourceType);
      NodeAdvances(cfg, decided, t, cmd, o.node);
      var state;
      state, effects := MaybeToolNode(t, cmd, o.node);
      WritesOneWorkflow(cfg, View(), state);
      SaveState(state);
      FinalizeResponse(state);
    }

    /**
     A refused continuation writes nothing; a failed one is rolled back; an accepted one has ended its run. Over the
     requests served so far: the approval of a paused run is never refused, and a run or an approval that a continuation
     was accepted for is never accepted again.
     */
    method ContinueWorkflow(id: nat, approved: bool, o: ContinueOracle) returns (answer: Answer, effects: seq<Effect>)
      requires Valid()
      modifies this
      ensures Valid() && requests == old(requests) + [ContinueRun(id, approved, o)]
      ensures Reply(answer, View(), effects) == ContinueAfterApproval(cfg, old(View()), id, approved, o)
      ensures answer.Refused? <==> !old(CanContinue(View(), id))
      ensures answer.Refused? ==> View() == old(View()) && effects == []
      ensures forall run: nat ::
              run < old(|workflows|) && old(Paused(workflows[run])) && old(workflows[run].approvalId) == Some(id) ==>
                !answer.Refused?
      ensures answer.Answered? ==> NoneAccepted(cfg, old(requests), answer.run, id)
      ensures Sound(cfg, View())
    {
      hide Proceed, Latest, StepName, Decides, Play, Sound, NoneAccepted, Paused;
      hide CanContinue;
      ContinuationIsChecked(cfg, View(), id, approved, o);
      PausedIsAccepted(cfg, requests, id);
      Followed(cfg, requests, ContinueRun(id, approved, o));
      requests := requests + [ContinueRun(id, approved, o)];
      if id >= |approvals| || approvals[id].status == Deleted {
        return Refused(ApprovalNotFound), [];
      }
      var a := approvals[id];
      if a.run >= |workflows| {
        return Refused(CheckpointMissing), [];
      }
      var latest := Latest(rows, StepName(workflows[a.run].step), a.run);
      if latest.None? || latest.value.state.run != a.run {
        return Refused(CheckpointMissing), [];
      }
      var stale := Stale(a, id, workflows[a.run], latest.value.state);
      if stale.Some? {
        return Refused(stale.value), [];
      }
      var before := (workflows, approvals, rows, toolLogs, messages);
      effects := ProceedAfterApproval(latest.value.state, id, approved, o);
      if o.crash {
        workflows, approvals, rows, toolLogs, messages := before.0, before.1, before.2, before.3, before.4;
        return RolledBack, effects;
      }
      rows := Refresh(rows);
      return Answered(a.run), effects;
    }

    // ----- starting a run -----

    method ToolChoiceLoop(s: RunState, o: LoopOracle) returns (state: RunState, effects: seq<Effect>)
      modifies this`toolLogs, this`messages
      ensures Node(View(), state, effects) == Loop(cfg, old(View()), s, o)
    {
      hide ToolNode;
      state, effects := s, [];
      for i := 0 to |o.calls|
        invariant workflows == old(workflows) && approvals == old(approvals) && rows == old(rows)
        invariant Node(View(), state, effects) == LoopCalls(cfg, old(View()), s, o.calls[..i])
        invariant i > 0 ==> !Waits(state.step)
      {
        var c := o.calls[i];
        assert o.calls[..i + 1][..i] == o.calls[..i];
        var more;
        state, more := MaybeToolNode(state.(requestedTool := c.tool, sourceType := "agent_chat"), LoopCommand(c),
                                     c.node);
        effects := effects + more;
        if Waits(state.step) {
          LoopStops(cfg, old(View()), s, o.calls, i + 1);
          assert Node(View(), state, effects) == LoopCalls(cfg, old(View()), s, o.calls);
          break;
        }
        assert i + 1 == |o.calls| ==> o.calls[..i + 1] == o.calls;
      }
      assert |o.calls| == 0 ==> o.calls[..0] == o.calls;
      assert Node(View(), state, effects) == LoopCalls(cfg, old(View()), s, o.calls) by {
        assert o.calls[..|o.calls|] == o.calls;
      }
      if o.aborted {
        state := s;
      } else if o.waiting && state.step != WaitConfirmation {
        state := state.(step := WaitUserInput);
      }
    }

    method RecoverExplicitTool(s: RunState, recovery: Recovery) returns (state: RunState, effects: seq<Effect>)
      modifies this`toolLogs, this`messages
      ensures Node(View(), state, effects) == Recover(cfg, old(View()), s, recovery)
    {
      hide ToolNode, Loop;
      match recovery {
        case NoRecovery => return s, [];
        case ContinueModelLoop(loop) => state, effects := ToolChoiceLoop(s, loop);
        case CallRecovery(tool, input, node, follow) =>
          state, effects := MaybeToolNode(s.(requestedTool := tool, sourceType := "agent_chat"),
                                          Command(tool, "agent_chat", false, input), node);
          if state.step == WaitConfirmation || state.step == WaitUserInput {
            return;
          }
          if follow.Some? && state.toolCallIds != [] {
            var more;
            state, more := ToolChoiceLoop(state, follow.value);
            effects := effects + more;
          }
      }
    }

    method DoToolWork(s: RunState, cmd: Command, o: StartOracle) returns (state: RunState, effects: seq<Effect>)
      modifies this`toolLogs, this`messages
      ensures Node(View(), state, effects) == Work(cfg, old(View()), s, cmd, o)
    {
      hide ToolNode, Loop, Recover;
      if cmd.tool == "" {
        state, effects := ToolChoiceLoop(s, o.loop);
        return;
      }
      state, effects := MaybeToolNode(s, cmd, o.node);
      if state.step == MaybeTool {
        var more;
        state, more := RecoverExplicitTool(state, o.recovery);
        effects := effects + more;
      }
    }

    method PauseForApproval(s: RunState, cmd: Command, o: StartOracle)
      requires s.run < |workflows|
      modifies this`workflows, this`approvals, this`rows, this`toolLogs, this`messages
      ensures View() == Pause(cfg, old(View()), s, cmd, o)
    {
      hide SaveStep, PauseRequest;
      var fallback :=
        if cmd.tool != "" then
          Payload(cmd.tool, Some(cmd.sourceType), Some(o.pendingInput.GetOr(cmd.input)), false, false, "")
        else Payload(s.requestedTool, Some(s.sourceType), Some(o.pendingInput.GetOr(map[])), false, false, "");
      var request := PauseRequest(s, FirstNonEmpty(fallback.requestedTool, "tool_choice_call"), fallback);
      var id := RequestUserApproval(s.run, request.0, request.1);
      SaveState(s.(approvalId := Some(id)));
    }

    method ConcludeWork(state: RunState, chosen: Command, o: StartOracle)
      requires state.run < |workflows|
      modifies this`workflows, this`approvals, this`rows, this`toolLogs, this`messages
      ensures View() == Conclude(cfg, old(View()), state, chosen, o)
    {
      hide SaveStep, Finalize, Pause;
      if state.step == WaitConfirmation {
        PauseForApproval(state, chosen, o);
      } else if state.step == WaitUserInput {
        SetWorkflowStatus(state.run, WaitingUser);
        SaveState(state);
      } else {
        WritesOneWorkflow(cfg, View(), state);
        if chosen.tool != "" || o.prepared {
          SaveState(state);
        }
        FinalizeResponse(state);
      }
    }

    /** The run's row and its first two checkpoints. */
    method BeginRun(cmd: Command, chosen: Command, o: StartOracle) returns (state: RunState)
      requires chosen == Chosen(cmd, o)
      modifies this`workflows, this`approvals, this`rows, this`toolLogs, this`messages
      ensures (View(), state) == Planned(cfg, old(View()), cmd, o)
      ensures state.run < |workflows|
    {
      hide SaveStep;
      state := NewRun(View(), cmd, o);
      workflows := workflows + [Workflow(Running, BuildContext, None)];
      WritesOneWorkflow(cfg, View(), state);
      SaveState(state);
      if chosen.tool != "" {
        state := state.(requestedTool := chosen.tool, sourceType := chosen.sourceType);
      }
      state := state.(step := PlanOrReply);
      WritesOneWorkflow(cfg, View(), state);
      SaveState(state);
    }

    /** A start, committed or rolled back, keeps every paused run ready to be continued, its own included. */
    method RunAgentWorkflow(cmd: Command, o: StartOracle) returns (answer: Answer, effects: seq<Effect>)
      requires Valid()
      modifies this
      ensures Valid() && requests == old(requests) + [StartRun(cmd, o)]
      ensures Reply(answer, View(), effects) == RunWorkflow(cfg, old(View()), cmd, o)
      ensures Sound(cfg, View())
    {
      hide Planned, Work, Conclude, Play, Sound, NoneAccepted;
      Followed(cfg, requests, StartRun(cmd, o));
      requests := requests + [StartRun(cmd, o)];
      var before := (workflows, approvals, rows, toolLogs, messages);
      var chosen := Chosen(cmd, o);
      var state := BeginRun(cmd, chosen, o);
      var run := state.run;
      WorkKeepsRun(cfg, View(), state, chosen, o);
      state, effects := DoToolWork(state, chosen, o);
      if o.crash {
        workflows, approvals, rows, toolLogs, messages := before.0, before.1, before.2, before.3, before.4;
        return RolledBack, effects;
      }
      ConcludeWork(state, chosen, o);
      rows := Refresh(rows);
      return Answered(run), effects;
    }
  }
}
