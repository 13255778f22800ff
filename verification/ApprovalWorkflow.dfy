/**
 Whole requests on the agent workflow (graph_factory.py): a start that may pause for approval, and a continuation after
 the user's decision. A request that raises is rolled back; what its executors did stays done.
 */
module ApprovalWorkflow {
  import opened Values
  import opened ToolPermissions
  import opened Checkpoints
  import opened ToolRuntime

  // ----- writes -----

  /** `_save_step`: the workflow row takes the state's step, and the state is saved under it. */
  function SaveStep(cfg: Config, db: Db, s: RunState): Db
    requires s.run < |db.workflows|
  {
    var n := |db.rows|;
    db.(workflows := db.workflows[s.run := db.workflows[s.run].(step := s.step)],
        rows := Save(db.rows, StepName(s.step), s.run, StepName(s.step), s, cfg.rowId(n), cfg.clock(n), cfg.precision))
  }

  function SetStatus(db: Db, run: nat, status: RunStatus): Db
    requires run < |db.workflows|
  {
    db.(workflows := db.workflows[run := db.workflows[run].(status := status)])
  }

  /** A workflow holds one approval: the row it named before is deleted when it names another. */
  function WithoutReplaced(db: Db, run: nat): (approvals: seq<Approval>)
    requires run < |db.workflows|
    ensures |approvals| == |db.approvals|
  {
    var replaced := db.workflows[run].approvalId;
    if replaced.Some? && replaced.value < |db.approvals| then
      db.approvals[replaced.value := db.approvals[replaced.value].(status := Deleted)]
    else db.approvals
  }

  /** `request_user_approval`: a fresh pending row, named by the workflow, which waits for the user. */
  function RequestApproval(db: Db, run: nat, actionType: string, payload: Payload): Db
    requires run < |db.workflows|
  {
    db.(approvals := WithoutReplaced(db, run) + [Approval(run, Pending, actionType, payload)],
        workflows := db.workflows[run := db.workflows[run].(status := WaitingUser, approvalId := Some(|db.approvals|))])
  }

  /** `decide_approval`: the approval is decided, and its workflow runs again or is canceled. */
  function DecideApproval(db: Db, id: nat, approved: bool): Db
    requires id < |db.approvals| && db.approvals[id].run < |db.workflows|
  {
    var run := db.approvals[id].run;
    var w := db.workflows[run];
    db.(approvals := db.approvals[id := db.approvals[id].(status := if approved then Approved else Rejected)],
        workflows := db.workflows[run := if approved then w.(status := Running)
                                  else w.(status := Canceled, step := ApprovalRejected)])
  }

  /** `finalize_agent_workflow_response`. */
  function Finalize(cfg: Config, db: Db, s: RunState): Db
    requires s.run < |db.workflows|
  {
    SaveStep(cfg, SetStatus(db, s.run, Completed), s.(step := FinalResponse))
  }

  /** A later request sees the rows as the database stored them. */
  function Committed(db: Db): Db {
    db.(rows := Refresh(db.rows))
  }

  function FirstNonEmpty(a: string, b: string): string {
    if a != "" then a else b
  }

  /** `_approval_request_create_for_waiting_state`: a pause recorded in the metadata wins over the fallbacks. */
  function PauseRequest(s: RunState, fallbackAction: string, fallback: Payload): (string, Payload) {
    if s.runtimeApproval.Some? then
      (FirstNonEmpty(s.runtimeApproval.value.requestedTool, fallbackAction), s.runtimeApproval.value)
    else if s.sdkApproval.Some? then
      (FirstNonEmpty(s.sdkApproval.value.requestedTool, fallbackAction), s.sdkApproval.value)
    else (fallbackAction, fallback)
  }

  // ----- the model-driven loop -----

  datatype LoopCall = LoopCall(tool: string, input: Fields, node: NodeOracle)

  /** What the loop runner chose: the calls it would make, whether it aborts, and whether it stops to wait. */
  datatype LoopOracle = LoopOracle(calls: seq<LoopCall>, aborted: bool, waiting: bool)

  function LoopCommand(c: LoopCall): Command {
    Command(c.tool, "agent_chat", false, c.input)
  }

  predicate Waits(step: Step) {
    step == WaitConfirmation || step == WaitUserInput
  }

  /** The runner's calls in order, up to the first one that waits for the user. */
  function LoopCalls(cfg: Config, db: Db, s: RunState, calls: seq<LoopCall>): Node {
    if calls == [] then Node(db, s, [])
    else
      var n := LoopCalls(cfg, db, s, calls[..|calls| - 1]);
      var c := calls[|calls| - 1];
      if |calls| > 1 && Waits(n.state.step) then n else
      var m := ToolNode(cfg, n.db, n.state.(requestedTool := c.tool, sourceType := "agent_chat"), LoopCommand(c),
                        c.node);
      m.(effects := n.effects + m.effects)
  }

  /** A call that waits is the loop's last one. */
  lemma {:induction false} LoopStops(cfg: Config, db: Db, s: RunState, calls: seq<LoopCall>, i: nat)
    requires 0 < i <= |calls| && Waits(LoopCalls(cfg, db, s, calls[..i]).state.step)
    ensures LoopCalls(cfg, db, s, calls) == LoopCalls(cfg, db, s, calls[..i])
  {
    hide ToolNode;
    if i == |calls| {
      assert calls[..i] == calls;
    } else {
      assert calls[..|calls| - 1][..i] == calls[..i];
      LoopStops(cfg, db, s, calls[..|calls| - 1], i);
    }
  }

  /** `_tool_choice_loop_node`: an aborted loop returns the state it started from, though its logs are written. */
  function Loop(cfg: Config, db: Db, s: RunState, o: LoopOracle): Node {
    var n := LoopCalls(cfg, db, s, o.calls);
    if o.aborted then n.(state := s)
    else if o.waiting && n.state.step != WaitConfirmation then n.(state := n.state.(step := WaitUserInput))
    else n
  }

  // ----- starting a run -----

  datatype Recovery =
    | NoRecovery
    | ContinueModelLoop(loop: LoopOracle)
    | CallRecovery(tool: string, input: Fields, node: NodeOracle, follow: Option<LoopOracle>)

  datatype StartOracle = StartOracle(
    policy: Option<Policy>,
    auto: Option<Command>,
    node: NodeOracle,
    recovery: Recovery,
    loop: LoopOracle,
    prepared: bool,
    pendingInput: Option<Fields>,
    crash: bool)

  /** `_recover_explicit_tool_no_dead_end`. */
  function Recover(cfg: Config, db: Db, s: RunState, recovery: Recovery): Node {
    match recovery
    case NoRecovery => Node(db, s, [])
    case ContinueModelLoop(loop) => Loop(cfg, db, s, loop)
    case CallRecovery(tool, input, node, follow) =>
      var n := ToolNode(cfg, db, s.(requestedTool := tool, sourceType := "agent_chat"),
                        Command(tool, "agent_chat", false, input), node);
      if n.state.step == WaitConfirmation || n.state.step == WaitUserInput then n
      else if follow.Some? && n.state.toolCallIds != [] then
        var m := Loop(cfg, n.db, n.state, follow.value);
        m.(effects := n.effects + m.effects)
      else n
  }

  /** The tool work of a start: the requested tool and its recovery, or the model's own loop. */
  function Work(cfg: Config, db: Db, s: RunState, cmd: Command, o: StartOracle): Node {
    if cmd.tool == "" then Loop(cfg, db, s, o.loop)
    else
      var n := ToolNode(cfg, db, s, cmd, o.node);
      if n.state.step == MaybeTool then
        var m := Recover(cfg, n.db, n.state, o.recovery);
        m.(effects := n.effects + m.effects)
      else n
  }

  datatype Refusal =
    | ApprovalNotFound
    | CheckpointMissing
    | NotPending
    | NotWaitingUser
    | NotWaitConfirmation
    | ApprovalIdMismatch

  /** How a request is answered: refused before any write, rolled back after an exception, or committed for a run. */
  datatype Answer = Refused(reason: Refusal) | RolledBack | Answered(run: nat) | Unanswered

  datatype Reply = Reply(answer: Answer, db: Db, effects: seq<Effect>)

  /** The pause of a start: an approval is requested, and the state that names it is saved. */
  function Pause(cfg: Config, db: Db, s: RunState, cmd: Command, o: StartOracle): Db
    requires s.run < |db.workflows|
  {
    var fallback :=
      if cmd.tool != "" then
        Payload(cmd.tool, Some(cmd.sourceType), Some(o.pendingInput.GetOr(cmd.input)), false, false, "")
      else Payload(s.requestedTool, Some(s.sourceType), Some(o.pendingInput.GetOr(map[])), false, false, "");
    var action := FirstNonEmpty(fallback.requestedTool, "tool_choice_call");
    var request := PauseRequest(s, action, fallback);
    SaveStep(cfg, RequestApproval(db, s.run, request.0, request.1), s.(approvalId := Some(|db.approvals|)))
  }

  /** The database once the tool work is done: paused, waiting for input, or finished. */
  function Conclude(cfg: Config, db: Db, s: RunState, cmd: Command, o: StartOracle): Db
    requires s.run < |db.workflows|
  {
    if s.step == WaitConfirmation then Pause(cfg, db, s, cmd, o)
    else if s.step == WaitUserInput then SaveStep(cfg, SetStatus(db, s.run, WaitingUser), s)
    else if cmd.tool != "" || o.prepared then Finalize(cfg, SaveStep(cfg, db, s), s)
    else Finalize(cfg, db, s)
  }

  function NewRun(db: Db, cmd: Command, o: StartOracle): RunState {
    RunState(|db.workflows|, BuildContext, [], [], cmd.tool, cmd.sourceType, None, o.policy, None, None)
  }

  function Chosen(cmd: Command, o: StartOracle): Command {
    if cmd.tool == "" && o.auto.Some? then o.auto.value.(confirmed := cmd.confirmed) else cmd
  }

  /** The state and database when the tool work begins. */
  function Planned(cfg: Config, db: Db, cmd: Command, o: StartOracle): (Db, RunState) {
    var s := NewRun(db, cmd, o);
    var created := SaveStep(cfg, db.(workflows := db.workflows + [Workflow(Running, BuildContext, None)]), s);
    var chosen := Chosen(cmd, o);
    var t := s.(step := PlanOrReply,
                requestedTool := if chosen.tool != "" then chosen.tool else s.requestedTool,
                sourceType := if chosen.tool != "" then chosen.sourceType else s.sourceType);
    (SaveStep(cfg, created, t), t)
  }

  lemma WorkKeepsRun(cfg: Config, db: Db, s: RunState, cmd: Command, o: StartOracle)
    ensures var n := Work(cfg, db, s, cmd, o); n.state.run == s.run && n.db.workflows == db.workflows
  {
    var _ := WorkAdvances(cfg, db, s, cmd, o);
  }

  /** `run_agent_workflow`. */
  function RunWorkflow(cfg: Config, db: Db, cmd: Command, o: StartOracle): Reply {
    var planned := Planned(cfg, db, cmd, o);
    var chosen := Chosen(cmd, o);
    var n := Work(cfg, planned.0, planned.1, chosen, o);
    WorkKeepsRun(cfg, planned.0, planned.1, chosen, o);
    if o.crash then Reply(RolledBack, db, n.effects)
    else Reply(Answered(planned.1.run), Committed(Conclude(cfg, n.db, n.state, chosen, o)), n.effects)
  }

  // ----- what the tool work of a start keeps -----

  lemma {:induction false} LoopCallsAdvance(cfg: Config, db: Db, s: RunState, calls: seq<LoopCall>)
    ensures var n := LoopCalls(cfg, db, s, calls); Advances(cfg, db, s, n.db, n.state, n.effects, false)
  {
    if calls == [] {
      AdvancesNot(cfg, db, s, false);
    } else {
      hide ToolNode, Advances;
      var c := calls[|calls| - 1];
      var n := LoopCalls(cfg, db, s, calls[..|calls| - 1]);
      var t := n.state.(requestedTool := c.tool, sourceType := "agent_chat");
      LoopCallsAdvance(cfg, db, s, calls[..|calls| - 1]);
      if |calls| == 1 || !Waits(n.state.step) {
        var m := ToolNode(cfg, n.db, t, LoopCommand(c), c.node);
        NodeAdvances(cfg, n.db, t, LoopCommand(c), c.node);
        AdvancesFrom(cfg, n.db, t, n.state, m.db, m.state, m.effects, false);
        AdvancesTwice(cfg, db, s, n.db, n.state, m.db, m.state, n.effects, m.effects, false);
      }
    }
  }

  /** A confirmed command may do whatever an unconfirmed one may. */
  lemma AdvancesConfirmed(cfg: Config, db: Db, s: RunState, db': Db, s': RunState, effects: seq<Effect>,
                          confirmed: bool)
    requires Advances(cfg, db, s, db', s', effects, false)
    ensures Advances(cfg, db, s, db', s', effects, confirmed)
  {
    forall e | e in effects ensures EffectOk(cfg, e, s.run, confirmed) {
      assert EffectOk(cfg, e, s.run, false);
    }
  }

  /** What tool work ends in: the advanced state itself unless a loop aborted, and then a state that does not wait. */
  ghost predicate EndsFrom(reached: RunState, ended: RunState) {
    || (ended.toolCallIds == reached.toolCallIds && ended.run == reached.run && ended.approvalId == reached.approvalId)
    || (ended.toolCallIds <= reached.toolCallIds && ended.run == reached.run &&
        ended.approvalId == reached.approvalId &&
        ended.step != WaitConfirmation)
  }

  lemma LoopAdvances(cfg: Config, db: Db, s: RunState, o: LoopOracle) returns (reached: RunState)
    requires s.step != WaitConfirmation
    ensures var n := Loop(cfg, db, s, o);
            Advances(cfg, db, s, n.db, reached, n.effects, false) && EndsFrom(reached, n.state)
            && s.toolCallIds <= n.state.toolCallIds
  {
    LoopCallsAdvance(cfg, db, s, o.calls);
    reached := LoopCalls(cfg, db, s, o.calls).state;
  }

  lemma RecoverAdvances(cfg: Config, db: Db, s: RunState, recovery: Recovery) returns (reached: RunState)
    requires s.step == MaybeTool
    ensures var n := Recover(cfg, db, s, recovery);
            Advances(cfg, db, s, n.db, reached, n.effects, false) && EndsFrom(reached, n.state)
            && s.toolCallIds <= n.state.toolCallIds
  {
    match recovery
    case NoRecovery =>
      AdvancesNot(cfg, db, s, false);
      reached := s;
    case ContinueModelLoop(loop) =>
      reached := LoopAdvances(cfg, db, s, loop);
    case CallRecovery(tool, input, node, follow) =>
      var t := s.(requestedTool := tool, sourceType := "agent_chat");
      var cmd := Command(tool, "agent_chat", false, input);
      var n := ToolNode(cfg, db, t, cmd, node);
      NodeAdvances(cfg, db, t, cmd, node);
      AdvancesFrom(cfg, db, t, s, n.db, n.state, n.effects, false);
      reached := n.state;
      if n.state.step == MaybeTool && follow.Some? && n.state.toolCallIds != [] {
        var m := Loop(cfg, n.db, n.state, follow.value);
        reached := LoopAdvances(cfg, n.db, n.state, follow.value);
        AdvancesTwice(cfg, db, s, n.db, n.state, m.db, reached, n.effects, m.effects, false);
      }
  }

  lemma WorkAdvances(cfg: Config, db: Db, s: RunState, cmd: Command, o: StartOracle) returns (reached: RunState)
    ensures var n := Work(cfg, db, s, cmd, o);
            (s.step == PlanOrReply ==>
               Advances(cfg, db, s, n.db, reached, n.effects, cmd.confirmed) && EndsFrom(reached, n.state)
               && s.toolCallIds <= n.state.toolCallIds)
            && n.state.run == s.run && n.db.workflows == db.workflows
  {
    var n := Work(cfg, db, s, cmd, o);
    if cmd.tool == "" {
      LoopCallsAdvance(cfg, db, s, o.loop.calls);
      reached := s;
      if s.step == PlanOrReply {
        reached := LoopAdvances(cfg, db, s, o.loop);
        AdvancesConfirmed(cfg, db, s, n.db, reached, n.effects, cmd.confirmed);
      }
    } else {
      var m := ToolNode(cfg, db, s, cmd, o.node);
      NodeAdvances(cfg, db, s, cmd, o.node);
      reached := m.state;
      if m.state.step == MaybeTool {
        var r := Recover(cfg, m.db, m.state, o.recovery);
        reached := RecoverAdvances(cfg, m.db, m.state, o.recovery);
        AdvancesConfirmed(cfg, m.db, m.state, r.db, reached, r.effects, cmd.confirmed);
        AdvancesTwice(cfg, db, s, m.db, m.state, r.db, reached, m.effects, r.effects, cmd.confirmed);
      }
    }
  }

  // ----- continuing after a decision -----

  /** What the child agent's `resume_after_approval` answered. */
  datatype ResumeOracle = ResumeOracle(ok: bool, next: Option<ApprovalRequest>)

  datatype ContinueOracle = ContinueOracle(node: NodeOracle, resume: ResumeOracle, crash: bool)

  /** `_ensure_approval_can_continue`. */
  function Stale(a: Approval, id: nat, w: Workflow, s: RunState): Option<Refusal> {
    if a.status != Pending then Some(NotPending)
    else if w.status != WaitingUser then Some(NotWaitingUser)
    else if w.step != WaitConfirmation || s.step != WaitConfirmation then Some(NotWaitConfirmation)
    else if w.approvalId != Some(id) || s.approvalId != Some(id) then Some(ApprovalIdMismatch)
    else None
  }

  /** The tool a continuation runs: the payload's, or the approval's action type, or the checkpoint's. */
  function ContinuedTool(a: Approval, s: RunState): string {
    FirstNonEmpty(FirstNonEmpty(a.payload.requestedTool, a.actionType), s.requestedTool)
  }

  function ContinuedCommand(a: Approval, s: RunState): Command {
    Command(ContinuedTool(a, s),
            FirstNonEmpty(FirstNonEmpty(a.payload.sourceType.GetOr(""), s.sourceType), "agent_chat"),
            true,
            a.payload.toolInput.GetOr(map[]))
  }

  /**
   `_resume_sdk_agent_after_approval`: the child agent resumes; it may surface a new request, which is recorded and
   requested.
   */
  function ResumeSdk(db: Db, s: RunState, id: nat, o: ResumeOracle): (Db, RunState)
    requires s.run < |db.workflows| && id < |db.approvals|
  {
    var a := db.approvals[id];
    var tool := FirstNonEmpty(FirstNonEmpty(a.payload.outerTool, a.actionType), s.requestedTool);
    var t := s.(step := MaybeTool, approvalId := Some(id), requestedTool := tool);
    if o.next.Some? && o.next.value.toolName != "" then
      var payload := Payload(o.next.value.toolName, None, Some(o.next.value.toolInput), true, o.next.value.resumable,
                             tool);
      var waiting := Recorded(db, t, WaitConfirmation, true).(sdkApproval := Some(payload));
      var request := PauseRequest(waiting, FirstNonEmpty(payload.requestedTool, tool), payload);
      var requested := RequestApproval(RecordPair(db, s.run, tool, BlockedLog), s.run, request.0, request.1);
      (requested.(workflows := requested.workflows[s.run := requested.workflows[s.run].(step := WaitConfirmation)]),
       waiting.(approvalId := Some(|db.approvals|)))
    else
      (RecordPair(db, s.run, tool, if o.ok then Succeeded else Failed), Recorded(db, t, MaybeTool, true))
  }

  predicate Resumable(a: Approval) {
    a.payload.sdk && a.payload.resumable
  }

  /** The decided continuation, once every check has passed. */
  function Proceed(cfg: Config, db: Db, s: RunState, id: nat, approved: bool, o: ContinueOracle): (Db, seq<Effect>)
    requires id < |db.approvals| && s.run < |db.workflows| && db.approvals[id].run == s.run
  {
    var a := db.approvals[id];
    var decided := DecideApproval(db, id, approved);
    if Resumable(a) then
      var r := ResumeSdk(decided, s, id, o.resume);
      (Finalize(cfg, SaveStep(cfg, r.0, r.1), r.1), [Resumed(s.run, approved)])
    else if !approved then
      (SaveStep(cfg, SetStatus(decided, s.run, Canceled), s.(step := ApprovalRejected, approvalId := Some(id))), [])
    else
      var cmd := ContinuedCommand(a, s);
      var t := s.(step := MaybeTool, approvalId := Some(id), requestedTool := cmd.tool, sourceType := cmd.sourceType);
      var n := ToolNode(cfg, decided, t, cmd, o.node);
      NodeAdvances(cfg, decided, t, cmd, o.node);
      (Finalize(cfg, SaveStep(cfg, n.db, n.state), n.state), n.effects)
  }

  /** `continue_agent_workflow_after_approval`. */
  function ContinueAfterApproval(cfg: Config, db: Db, id: nat, approved: bool, o: ContinueOracle): Reply {
    if id >= |db.approvals| || db.approvals[id].status == Deleted then Reply(Refused(ApprovalNotFound), db, [])
    else
      var a := db.approvals[id];
      if a.run >= |db.workflows| then Reply(Refused(CheckpointMissing), db, [])
      else
        var w := db.workflows[a.run];
        var latest := Latest(db.rows, StepName(w.step), a.run);
        if latest.None? || latest.value.state.run != a.run then Reply(Refused(CheckpointMissing), db, [])
        else
          var stale := Stale(a, id, w, latest.value.state);
          if stale.Some? then Reply(Refused(stale.value), db, [])
          else
            var done := Proceed(cfg, db, latest.value.state, id, approved, o);
            if o.crash then Reply(RolledBack, db, done.1)
            else Reply(Answered(a.run), Committed(done.0), done.1)
  }
}
