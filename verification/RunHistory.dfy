/** Every history of starts and continuations of one database: approvals, confirmations, logs and budgets. */
module RunHistory {
  import opened Values
  import opened Checkpoints
  import opened ToolRuntime
  import opened ApprovalWorkflow

  datatype Request =
    | StartRun(cmd: Command, start: StartOracle)
    | ContinueRun(approvalId: nat, approved: bool, continued: ContinueOracle)
    | ChatMessages(count: nat)

  datatype Served = Served(request: Request, answer: Answer, effects: seq<Effect>)

  datatype World = World(db: Db, served: seq<Served>)

  const EMPTY := Db([], [], [], [], [])

  function Serve(cfg: Config, db: Db, request: Request): Reply {
    match request
    case StartRun(cmd, o) => RunWorkflow(cfg, db, cmd, o)
    case ContinueRun(id, approved, o) => ContinueAfterApproval(cfg, db, id, approved, o)
    case ChatMessages(n) => Reply(Unanswered, db.(messages := db.messages + seq(n, _ => Chat)), [])
  }

  /** The world after serving the requests in order, from an empty database. */
  function Play(cfg: Config, requests: seq<Request>): World {
    if requests == [] then World(EMPTY, [])
    else
      var w := Play(cfg, requests[..|requests| - 1]);
      var r := Serve(cfg, w.db, requests[|requests| - 1]);
      World(r.db, w.served + [Served(requests[|requests| - 1], r.answer, r.effects)])
  }

  lemma {:induction false} PlayPrefix(cfg: Config, requests: seq<Request>, i: nat)
    requires i < |requests|
    ensures |Play(cfg, requests).served| == |requests|
    ensures var r := Serve(cfg, Play(cfg, requests[..i]).db, requests[i]);
            Play(cfg, requests).served[i] == Served(requests[i], r.answer, r.effects)
  {
    hide Serve;
    var front := requests[..|requests| - 1];
    if i < |front| {
      PlayPrefix(cfg, front, i);
      assert front[..i] == requests[..i];
    } else {
      if front != [] { PlayPrefix(cfg, front, 0); }
    }
  }

  // ----- one continuation -----

  /** The only databases in which a continuation of this approval is accepted. */
  predicate CanContinue(db: Db, id: nat) {
    id < |db.approvals| && db.approvals[id].status == Pending && PausedOn(db, db.approvals[id].run, id)
  }

  /** The workflow row and the latest checkpoint of a run both wait for confirmation of this approval. */
  predicate PausedOn(db: Db, run: nat, id: nat) {
    var latest := Latest(db.rows, StepName(WaitConfirmation), run);
    && run < |db.workflows| && db.workflows[run] == Workflow(WaitingUser, WaitConfirmation, Some(id))
    && latest.Some? && latest.value.state.run == run
    && latest.value.state.step == WaitConfirmation && latest.value.state.approvalId == Some(id)
  }

  /** Saving a step moves one workflow's step; finalizing completes one workflow. */
  lemma WritesOneWorkflow(cfg: Config, db: Db, s: RunState)
    requires s.run < |db.workflows|
    ensures SaveStep(cfg, db, s).workflows == db.workflows[s.run := db.workflows[s.run].(step := s.step)]
    ensures SaveStep(cfg, db, s).approvals == db.approvals
    ensures Finalize(cfg, db, s).workflows ==
            db.workflows[s.run := db.workflows[s.run].(status := Completed, step := FinalResponse)]
    ensures Finalize(cfg, db, s).approvals == db.approvals
  {
    hide Save, StepName;
  }

  /**
   The decided approval keeps its verdict, unless the resumed child asked again: the new approval replaces its row.
   */
  function DecidedStatus(db: Db, done: Db, approved: bool): ApprovalStatus {
    if |done.approvals| > |db.approvals| then Deleted else if approved then Approved else ApprovalStatus.Rejected
  }

  /** What a decided continuation of this run may change among workflows and approvals. */
  ghost predicate Decides(db: Db, done: Db, run: nat, id: nat, approved: bool) {
    && id < |db.approvals| && run < |db.workflows|
    && |done.workflows| == |db.workflows|
    && done.workflows[run].status == (if approved || Resumable(db.approvals[id]) then Completed else Canceled)
    && (forall x :: 0 <= x < |db.workflows| && x != run ==> done.workflows[x] == db.workflows[x])
    && |db.approvals| <= |done.approvals|
    && done.approvals[id] == db.approvals[id].(status := DecidedStatus(db, done, approved))
    && (forall x :: 0 <= x < |db.approvals| && x != id ==> done.approvals[x] == db.approvals[x])
    && (forall x :: |db.approvals| <= x < |done.approvals| ==> done.approvals[x].run == run)
    && (|done.approvals| > |db.approvals| ==> Resumable(db.approvals[id]))
  }

  lemma ProceedDecides(cfg: Config, db: Db, s: RunState, id: nat, approved: bool, o: ContinueOracle)
    requires id < |db.approvals| && s.run < |db.workflows| && db.approvals[id].run == s.run
    requires db.workflows[s.run].approvalId == Some(id)
    ensures Decides(db, Proceed(cfg, db, s, id, approved, o).0, s.run, id, approved)
  {
    hide SaveStep, Finalize, ToolNode, ResumeSdk;
    var a := db.approvals[id];
    var decided := DecideApproval(db, id, approved);
    if Resumable(a) {
      var r := ResumeSdk(decided, s, id, o.resume);
      ResumeWrites(decided, s, id, o.resume);
      WritesOneWorkflow(cfg, r.0, r.1);
      WritesOneWorkflow(cfg, SaveStep(cfg, r.0, r.1), r.1);
    } else if !approved {
      WritesOneWorkflow(cfg, SetStatus(decided, s.run, Canceled), s.(step := ApprovalRejected, approvalId := Some(id)));
    } else {
      var cmd := ContinuedCommand(a, s);
      var t := s.(step := MaybeTool, approvalId := Some(id), requestedTool := cmd.tool, sourceType := cmd.sourceType);
      NodeAdvances(cfg, decided, t, cmd, o.node);
      var n := ToolNode(cfg, decided, t, cmd, o.node);
      WritesOneWorkflow(cfg, n.db, n.state);
      WritesOneWorkflow(cfg, SaveStep(cfg, n.db, n.state), n.state);
    }
  }

  lemma ResumeWrites(db: Db, s: RunState, id: nat, o: ResumeOracle)
    requires s.run < |db.workflows| && id < |db.approvals|
    ensures var r := ResumeSdk(db, s, id, o);
            && r.1.run == s.run
            && |r.0.workflows| == |db.workflows|
            && (forall x :: 0 <= x < |db.workflows| && x != s.run ==> r.0.workflows[x] == db.workflows[x])
            && |db.approvals| <= |r.0.approvals|
            && (forall x :: 0 <= x < |db.approvals| && db.workflows[s.run].approvalId != Some(x) ==>
                r.0.approvals[x] == db.approvals[x])
            && (db.workflows[s.run].approvalId == Some(id) ==>
                  r.0.approvals[id] == if |r.0.approvals| > |db.approvals| then db.approvals[id].(status := Deleted)
                    else db.approvals[id])
            && (forall x :: |db.approvals| <= x < |r.0.approvals| ==> r.0.approvals[x].run == s.run)
  {
  }

  /**
   A continuation is refused before any write or effect unless the approval is pending and both its workflow and the
   latest checkpoint are paused on it. If it is answered the run has ended: canceled when rejected and nothing could
   resume, else completed; and this approval, no other, is decided.
   */
  lemma ContinuationIsChecked(cfg: Config, db: Db, id: nat, approved: bool, o: ContinueOracle)
    ensures var r := ContinueAfterApproval(cfg, db, id, approved, o);
            && !r.answer.Unanswered?
            && (r.answer.Refused? <==> !CanContinue(db, id))
            && (r.answer.Refused? ==> r.db == db && r.effects == [])
            && (r.answer.RolledBack? <==> CanContinue(db, id) && o.crash)
            && (r.answer.RolledBack? ==> r.db == db)
            && (r.answer.Answered? ==>
                r.answer.run == db.approvals[id].run && Decides(db, r.db, r.answer.run, id, approved))
  {
    hide Proceed, Latest, Refresh, StepName;
    if id < |db.approvals| && db.approvals[id].run < |db.workflows| {
      var a := db.approvals[id];
      var w := db.workflows[a.run];
      var latest := Latest(db.rows, StepName(w.step), a.run);
      if latest.Some? && latest.value.state.run == a.run && Stale(a, id, w, latest.value.state).None? {
        var s := latest.value.state;
        ProceedDecides(cfg, db, s, id, approved, o);
        DecidesCommitted(db, Proceed(cfg, db, s, id, approved, o).0, s.run, id, approved);
      }
    }
  }

  lemma DecidesCommitted(db: Db, done: Db, run: nat, id: nat, approved: bool)
    requires Decides(db, done, run, id, approved)
    ensures Decides(db, Committed(done), run, id, approved)
  {
    hide Refresh;
    var c := Committed(done);
    assert c.workflows == done.workflows && c.approvals == done.approvals;
  }

  /**
   What a continuation does to the world: a rejected one runs nothing, an approved one enters the tool node exactly
   once, confirmed, with the tool and input its approval names; a resumable child agent is resumed once and no node is
   entered.
   */
  lemma ContinuationEffects(cfg: Config, db: Db, id: nat, approved: bool, o: ContinueOracle)
    requires CanContinue(db, id)
    ensures var a := db.approvals[id]; var e := ContinueAfterApproval(cfg, db, id, approved, o).effects;
            var s := Latest(db.rows, StepName(WaitConfirmation), a.run).value.state;
            if Resumable(a) then e == [Resumed(a.run, approved)]
            else if !approved then e == []
            else
              && 1 <= |e| <= 2
              && e[0] == Entered(a.run, ContinuedTool(a, s), true, a.payload.toolInput.GetOr(map[]))
              && (|e| == 2 ==>
                  e[1].Executed? && e[1].run == a.run && e[1].tool == ContinuedTool(a, s) &&
                    EffectOk(cfg, e[1], a.run, true))
  {
    hide ToolNode, SaveStep, Finalize, ResumeSdk, Latest, StepName, Refresh;
    var a := db.approvals[id];
    var s := Latest(db.rows, StepName(WaitConfirmation), a.run).value.state;
    if !Resumable(a) && approved {
      var decided := DecideApproval(db, id, approved);
      var cmd := ContinuedCommand(a, s);
      var t := s.(step := MaybeTool, approvalId := Some(id), requestedTool := cmd.tool, sourceType := cmd.sourceType);
      NodeAdvances(cfg, decided, t, cmd, o.node);
      var n := ToolNode(cfg, decided, t, cmd, o.node);
      if |n.effects| == 2 { assert n.effects[1] in n.effects; }
    }
  }

  // ----- what every request keeps -----

  predicate Ended(w: Workflow) {
    w.status == Completed || w.status == Canceled
  }

  /**
   From db to after, only one run's workflow changed; approvals, logs and messages were only added, all for that run.
   */
  ghost predicate TouchesOnly(db: Db, after: Db, run: nat) {
    && |after.workflows| == |db.workflows|
    && (forall r :: 0 <= r < |db.workflows| && r != run ==> after.workflows[r] == db.workflows[r])
    && db.approvals <= after.approvals
    && (forall i :: |db.approvals| <= i < |after.approvals| ==> after.approvals[i].run == run)
    && AddsLogs(db, after, run)
  }

  /** Logs and messages were only added, the logs all of one run, and stay paired. */
  ghost predicate AddsLogs(db: Db, after: Db, run: nat) {
    && db.toolLogs <= after.toolLogs
    && (forall i :: |db.toolLogs| <= i < |after.toolLogs| ==> after.toolLogs[i].run == run)
    && db.messages <= after.messages
    && (Paired(db) ==> Paired(after))
  }

  lemma AddsLogsTwice(d0: Db, d1: Db, d2: Db, run: nat)
    requires AddsLogs(d0, d1, run) && AddsLogs(d1, d2, run)
    ensures AddsLogs(d0, d2, run)
  {
    hide Paired;
  }

  lemma PairedSame(db: Db, after: Db)
    requires Paired(db) && after.toolLogs == db.toolLogs && after.messages == db.messages
    ensures Paired(after)
  {
    forall i | 0 <= i < |after.toolLogs| ensures CallAt(after, i) { assert CallAt(db, i); }
  }

  lemma SameLogs(db: Db, after: Db, run: nat)
    requires after.toolLogs == db.toolLogs && after.messages == db.messages
    ensures AddsLogs(db, after, run)
  {
    hide Paired;
    if Paired(db) { PairedSame(db, after); }
  }

  lemma AdvancesAddsLogs(cfg: Config, db: Db, s: RunState, after: Db, s': RunState, effects: seq<Effect>,
                         confirmed: bool)
    requires Advances(cfg, db, s, after, s', effects, confirmed)
    ensures TouchesOnly(db, after, s.run)
  {
    hide Paired, LogIds, GuardedLogged;
  }

  lemma TouchesTwice(d0: Db, d1: Db, d2: Db, run: nat)
    requires TouchesOnly(d0, d1, run) && TouchesOnly(d1, d2, run)
    ensures TouchesOnly(d0, d2, run)
  {
    hide AddsLogs;
    AddsLogsTwice(d0, d1, d2, run);
  }

  lemma SaveTouches(cfg: Config, db: Db, s: RunState)
    requires s.run < |db.workflows|
    ensures TouchesOnly(db, SaveStep(cfg, db, s), s.run)
    ensures TouchesOnly(db, Finalize(cfg, db, s), s.run)
  {
    hide Save, StepName, Paired, AddsLogs;
    SameLogs(db, SaveStep(cfg, db, s), s.run);
    SameLogs(db, Finalize(cfg, db, s), s.run);
  }

  lemma ConcludeTouches(cfg: Config, db: Db, s: RunState, cmd: Command, o: StartOracle)
    requires s.run < |db.workflows| && db.workflows[s.run].approvalId == None
    ensures TouchesOnly(db, Conclude(cfg, db, s, cmd, o), s.run)
  {
    hide SaveStep, Finalize, AddsLogs, PauseRequest;
    if s.step == WaitConfirmation {
      var fallback :=
        if cmd.tool != "" then
          Payload(cmd.tool, Some(cmd.sourceType), Some(o.pendingInput.GetOr(cmd.input)), false, false, "")
        else Payload(s.requestedTool, Some(s.sourceType), Some(o.pendingInput.GetOr(map[])), false, false, "");
      var request := PauseRequest(s, FirstNonEmpty(fallback.requestedTool, "tool_choice_call"), fallback);
      var requested := RequestApproval(db, s.run, request.0, request.1);
      SameLogs(db, requested, s.run);
      assert TouchesOnly(db, requested, s.run);
      SaveTouches(cfg, requested, s.(approvalId := Some(|db.approvals|)));
      TouchesTwice(db, requested, Conclude(cfg, db, s, cmd, o), s.run);
    } else if s.step == WaitUserInput {
      var waiting := SetStatus(db, s.run, WaitingUser);
      SameLogs(db, waiting, s.run);
      SaveTouches(cfg, waiting, s);
      TouchesTwice(db, waiting, SaveStep(cfg, waiting, s), s.run);
    } else {
      SaveTouches(cfg, db, s);
      SaveTouches(cfg, SaveStep(cfg, db, s), s);
      TouchesTwice(db, SaveStep(cfg, db, s), Finalize(cfg, SaveStep(cfg, db, s), s), s.run);
    }
  }

  /** The database a start works on first: the old one with a new workflow row. */
  function Created(db: Db): Db {
    db.(workflows := db.workflows + [Workflow(Running, BuildContext, None)])
  }

  lemma PlannedTouches(cfg: Config, db: Db, cmd: Command, o: StartOracle)
    ensures var p := Planned(cfg, db, cmd, o);
            TouchesOnly(Created(db), p.0, |db.workflows|) && p.1.run == |db.workflows| && p.1.step == PlanOrReply
    ensures var p := Planned(cfg, db, cmd, o).0;
            |p.workflows| == |db.workflows| + 1 && p.workflows[|db.workflows|].approvalId == None
  {
    hide SaveStep, AddsLogs, TouchesOnly;
    var s := NewRun(db, cmd, o);
    var p := Planned(cfg, db, cmd, o);
    SaveTouches(cfg, Created(db), s);
    WritesOneWorkflow(cfg, Created(db), s);
    WritesOneWorkflow(cfg, SaveStep(cfg, Created(db), s), p.1);
    SaveTouches(cfg, SaveStep(cfg, Created(db), s), p.1);
    TouchesTwice(Created(db), SaveStep(cfg, Created(db), s), p.0, |db.workflows|);
  }

  /** The tool work of a start, with the state it reached and the database it concludes in. */
  lemma StartWorks(cfg: Config, db: Db, cmd: Command, o: StartOracle) returns (reached: RunState)
    ensures var p := Planned(cfg, db, cmd, o); var n := Work(cfg, p.0, p.1, Chosen(cmd, o), o);
            && p.1.run == n.state.run == |db.workflows| && |db.workflows| < |n.db.workflows|
            && Advances(cfg, p.0, p.1, n.db, reached, n.effects, cmd.confirmed) && EndsFrom(reached, n.state)
            && TouchesOnly(Created(db), Conclude(cfg, n.db, n.state, Chosen(cmd, o), o), |db.workflows|)
  {
    hide Planned, Work, Conclude, AddsLogs, TouchesOnly, EffectOk, Advances, EndsFrom;
    var run := |db.workflows|;
    var p := Planned(cfg, db, cmd, o);
    PlannedTouches(cfg, db, cmd, o);
    var chosen := Chosen(cmd, o);
    reached := WorkAdvances(cfg, p.0, p.1, chosen, o);
    var n := Work(cfg, p.0, p.1, chosen, o);
    AdvancesAddsLogs(cfg, p.0, p.1, n.db, reached, n.effects, chosen.confirmed);
    TouchesTwice(Created(db), p.0, n.db, run);
    WorkKeepsRun(cfg, p.0, p.1, chosen, o);
    ConcludeTouches(cfg, n.db, n.state, chosen, o);
    TouchesTwice(Created(db), n.db, Conclude(cfg, n.db, n.state, chosen, o), run);
  }

  /**
   A start is never refused; rolled back it leaves the database as it was, and committed it touches only its new run.
   */
  lemma StartTouches(cfg: Config, db: Db, cmd: Command, o: StartOracle)
    ensures var r := RunWorkflow(cfg, db, cmd, o);
            && r.answer == (if o.crash then RolledBack else Answered(|db.workflows|))
            && (if o.crash then r.db == db else TouchesOnly(Created(db), r.db, |db.workflows|))
            && (forall e <- r.effects :: EffectOk(cfg, e, |db.workflows|, cmd.confirmed))
  {
    hide Planned, Work, Conclude, AddsLogs, TouchesOnly, Refresh, EffectOk, Advances;
    var p := Planned(cfg, db, cmd, o);
    var n := Work(cfg, p.0, p.1, Chosen(cmd, o), o);
    var reached := StartWorks(cfg, db, cmd, o);
    EffectsOk(cfg, p.0, p.1, n.db, reached, n.effects, cmd.confirmed);
    var done := Conclude(cfg, n.db, n.state, Chosen(cmd, o), o);
    CommittedTouches(done, |db.workflows|);
    TouchesTwice(Created(db), done, Committed(done), |db.workflows|);
  }

  lemma EffectsOk(cfg: Config, db: Db, s: RunState, after: Db, s': RunState, effects: seq<Effect>, confirmed: bool)
    requires Advances(cfg, db, s, after, s', effects, confirmed)
    ensures forall e <- effects :: EffectOk(cfg, e, s.run, confirmed)
  {
    hide EffectOk, Paired, LogIds, GuardedLogged;
  }

  lemma CommittedTouches(db: Db, run: nat)
    ensures TouchesOnly(db, Committed(db), run)
  {
    hide Refresh, AddsLogs;
    SameLogs(db, Committed(db), run);
  }

  /** A later database: rows are only added, ended runs and decided approvals stay as they are. */
  ghost predicate Grows(db: Db, after: Db) {
    && |db.workflows| <= |after.workflows|
    && (forall r :: 0 <= r < |db.workflows| && Ended(db.workflows[r]) ==> after.workflows[r] == db.workflows[r])
    && |db.approvals| <= |after.approvals|
    && (forall i :: 0 <= i < |db.approvals| ==>
          if db.approvals[i].status == Pending then after.approvals[i].(status := Pending) == db.approvals[i]
          else after.approvals[i] == db.approvals[i])
    && db.toolLogs <= after.toolLogs
    && db.messages <= after.messages
  }

  lemma GrowsTwice(d0: Db, d1: Db, d2: Db)
    requires Grows(d0, d1) && Grows(d1, d2)
    ensures Grows(d0, d2)
  {
  }

  lemma ProceedAddsLogs(cfg: Config, db: Db, s: RunState, id: nat, approved: bool, o: ContinueOracle)
    requires id < |db.approvals| && s.run < |db.workflows| && db.approvals[id].run == s.run
    ensures AddsLogs(db, Proceed(cfg, db, s, id, approved, o).0, s.run)
  {
    hide SaveStep, Finalize, ToolNode, ResumeSdk, AddsLogs, TouchesOnly;
    var a := db.approvals[id];
    var decided := DecideApproval(db, id, approved);
    SameLogs(db, decided, s.run);
    var done := Proceed(cfg, db, s, id, approved, o).0;
    if Resumable(a) {
      var r := ResumeSdk(decided, s, id, o.resume);
      ResumeWrites(decided, s, id, o.resume);
      ResumeAddsLogs(decided, s, id, o.resume);
      FinishAddsLogs(cfg, r.0, r.1);
      AddsLogsTwice(decided, r.0, done, s.run);
    } else if !approved {
      var canceled := SetStatus(decided, s.run, Canceled);
      SameLogs(decided, canceled, s.run);
      var t := s.(step := ApprovalRejected, approvalId := Some(id));
      SaveTouches(cfg, canceled, t);
      assert AddsLogs(canceled, done, s.run) by { TouchesAddsLogs(canceled, done, s.run); }
      AddsLogsTwice(decided, canceled, done, s.run);
    } else {
      var cmd := ContinuedCommand(a, s);
      var t := s.(step := MaybeTool, approvalId := Some(id), requestedTool := cmd.tool, sourceType := cmd.sourceType);
      NodeAdvances(cfg, decided, t, cmd, o.node);
      var n := ToolNode(cfg, decided, t, cmd, o.node);
      AdvancesAddsLogs(cfg, decided, t, n.db, n.state, n.effects, true);
      TouchesAddsLogs(decided, n.db, s.run);
      FinishAddsLogs(cfg, n.db, n.state);
      AddsLogsTwice(decided, n.db, done, s.run);
    }
    AddsLogsTwice(db, decided, done, s.run);
  }

  lemma TouchesAddsLogs(db: Db, after: Db, run: nat)
    requires TouchesOnly(db, after, run)
    ensures AddsLogs(db, after, run)
  {
    hide AddsLogs;
  }

  lemma ResumeAddsLogs(db: Db, s: RunState, id: nat, o: ResumeOracle)
    requires s.run < |db.workflows| && id < |db.approvals|
    ensures AddsLogs(db, ResumeSdk(db, s, id, o).0, s.run)
  {
    hide Paired, PauseRequest;
    var a := db.approvals[id];
    var tool := FirstNonEmpty(FirstNonEmpty(a.payload.outerTool, a.actionType), s.requestedTool);
    var status := if o.next.Some? && o.next.value.toolName != "" then BlockedLog else if o.ok then Succeeded
    else Failed;
    if Paired(db) {
      RecordKeepsPaired(db, s.run, tool, status);
      PairedSame(RecordPair(db, s.run, tool, status), ResumeSdk(db, s, id, o).0);
    }
  }

  lemma FinishAddsLogs(cfg: Config, db: Db, s: RunState)
    requires s.run < |db.workflows|
    ensures AddsLogs(db, Finalize(cfg, SaveStep(cfg, db, s), s), s.run)
  {
    hide SaveStep, Finalize, AddsLogs, TouchesOnly;
    WritesOneWorkflow(cfg, db, s);
    SaveTouches(cfg, db, s);
    SaveTouches(cfg, SaveStep(cfg, db, s), s);
    TouchesTwice(db, SaveStep(cfg, db, s), Finalize(cfg, SaveStep(cfg, db, s), s), s.run);
    TouchesAddsLogs(db, Finalize(cfg, SaveStep(cfg, db, s), s), s.run);
  }

  lemma ContinueAddsLogs(cfg: Config, db: Db, id: nat, approved: bool, o: ContinueOracle)
    requires CanContinue(db, id)
    ensures AddsLogs(db, ContinueAfterApproval(cfg, db, id, approved, o).db, db.approvals[id].run)
  {
    hide Proceed, Latest, Refresh, StepName, AddsLogs;
    var run := db.approvals[id].run;
    var s := Latest(db.rows, StepName(WaitConfirmation), run).value.state;
    if o.crash {
      SameLogs(db, db, run);
    } else {
      ProceedAddsLogs(cfg, db, s, id, approved, o);
      var done := Proceed(cfg, db, s, id, approved, o).0;
      SameLogs(done, Committed(done), run);
      AddsLogsTwice(db, done, Committed(done), run);
    }
  }

  lemma TouchesGrows(db: Db, after: Db, run: nat)
    requires TouchesOnly(Created(db), after, run) && run == |db.workflows|
    ensures Grows(db, after)
  {
    hide Paired;
  }

  lemma GrowsNot(db: Db)
    ensures Grows(db, db)
  {
  }

  lemma DecidesGrows(db: Db, after: Db, run: nat, id: nat, approved: bool)
    requires Decides(db, after, run, id, approved) && AddsLogs(db, after, run)
    requires db.approvals[id].status == Pending && db.workflows[run].status == WaitingUser
    ensures Grows(db, after)
  {
    hide Paired;
  }

  lemma ServeGrows(cfg: Config, db: Db, request: Request)
    ensures Grows(db, Serve(cfg, db, request).db)
  {
    hide RunWorkflow, ContinueAfterApproval, TouchesOnly, Latest, Paired;
    match request
    case StartRun(cmd, o) =>
      StartTouches(cfg, db, cmd, o);
      if !o.crash { TouchesGrows(db, RunWorkflow(cfg, db, cmd, o).db, |db.workflows|); }
    case ContinueRun(id, approved, o) =>
      ContinuationIsChecked(cfg, db, id, approved, o);
      if CanContinue(db, id) && !o.crash {
        ContinueAddsLogs(cfg, db, id, approved, o);
        DecidesGrows(db, ContinueAfterApproval(cfg, db, id, approved, o).db, db.approvals[id].run, id, approved);
      } else {
        GrowsNot(db);
      }
    case ChatMessages(n) =>
  }

  /** Over a whole history, ended runs, decided approvals, logs and messages are never rewritten. */
  lemma {:induction false} PlayGrows(cfg: Config, requests: seq<Request>, i: nat)
    requires i <= |requests|
    ensures Grows(Play(cfg, requests[..i]).db, Play(cfg, requests).db)
  {
    hide Serve, Grows;
    if i == |requests| {
      assert requests[..i] == requests;
      GrowsNot(Play(cfg, requests).db);
    } else {
      var front := requests[..|requests| - 1];
      PlayGrows(cfg, front, i);
      assert front[..i] == requests[..i];
      ServeGrows(cfg, Play(cfg, front).db, requests[|requests| - 1]);
      GrowsTwice(Play(cfg, requests[..i]).db, Play(cfg, front).db, Play(cfg, requests).db);
    }
  }

  /** A continuation that was accepted: it returned instead of raising. */
  predicate Accepted(s: Served) {
    s.request.ContinueRun? && s.answer.Answered?
  }

  /** An accepted continuation found its approval pending, ended its run and decided the approval. */
  predicate Concludes(before: Db, s: Served, after: Db) {
    && s.request.ContinueRun?
    && CanContinue(before, s.request.approvalId)
    && s.answer == Answered(before.approvals[s.request.approvalId].run)
    && s.request.approvalId < |after.approvals| && after.approvals[s.request.approvalId].status != Pending
    && s.answer.run < |after.workflows| && Ended(after.workflows[s.answer.run])
  }

  lemma AcceptedNow(cfg: Config, requests: seq<Request>, i: nat)
    requires i < |requests|
    ensures |Play(cfg, requests).served| == |requests| && Play(cfg, requests).served[i].request == requests[i]
    ensures Accepted(Play(cfg, requests).served[i]) ==>
              Concludes(Play(cfg, requests[..i]).db, Play(cfg, requests).served[i], Play(cfg, requests[..i + 1]).db)
  {
    hide Serve, Concludes;
    PlayPrefix(cfg, requests, i);
    assert requests[..i + 1][..i] == requests[..i];
    var before := Play(cfg, requests[..i]).db;
    ServedContinuation(cfg, before, requests[i]);
  }

  lemma ServedContinuation(cfg: Config, db: Db, request: Request)
    ensures var r := Serve(cfg, db, request);
            Accepted(Served(request, r.answer, r.effects)) ==> Concludes(db, Served(request, r.answer, r.effects), r.db)
  {
    hide RunWorkflow, ContinueAfterApproval, Latest, StepName;
    if request.ContinueRun? { ContinuationIsChecked(cfg, db, request.approvalId, request.approved, request.continued); }
  }

  /**
   In every history each run accepts at most one continuation and each approval is decided by at most one, whatever
   else is requested in between, even when the resumed step paused again and left a second pending approval.
   */
  lemma AtMostOneContinuation(cfg: Config, requests: seq<Request>, i: nat, j: nat)
    requires i < j < |requests|
    ensures var served := Play(cfg, requests).served;
            |served| == |requests| &&
            (Accepted(served[i]) && Accepted(served[j]) ==>
               served[i].answer.run != served[j].answer.run &&
                 served[i].request.approvalId != served[j].request.approvalId)
  {
    hide Serve, Play, Latest, StepName;
    AcceptedNow(cfg, requests, i);
    AcceptedNow(cfg, requests, j);
    PlayGrows(cfg, requests[..j], i + 1);
    assert requests[..j][..i + 1] == requests[..i + 1];
  }

  // ----- how often an approval is acted on -----

  function Entries(effects: seq<Effect>): nat {
    if effects == [] then 0 else Entries(effects[..|effects| - 1]) + (if effects[|effects| - 1].Entered? then 1 else 0)
  }

  function Resumptions(effects: seq<Effect>): nat {
    if effects == [] then 0
    else Resumptions(effects[..|effects| - 1]) + (if effects[|effects| - 1].Resumed? then 1 else 0)
  }

  /** What a history's continuations of one approval did, rolled-back ones included, and how many were not refused. */
  datatype Tally = Tally(entries: nat, resumptions: nat, approving: nat, rejecting: nat, accepted: nat)

  function TallyOf(served: seq<Served>, id: nat): Tally {
    if served == [] then Tally(0, 0, 0, 0, 0)
    else
      var t, s := TallyOf(served[..|served| - 1], id), served[|served| - 1];
      if s.request.ContinueRun? && s.request.approvalId == id then
        var tried := !s.answer.Refused?;
        Tally(t.entries + Entries(s.effects),
              t.resumptions + Resumptions(s.effects),
              t.approving + (if tried && s.request.approved then 1 else 0),
              t.rejecting + (if tried && !s.request.approved then 1 else 0),
              t.accepted + (if s.answer.Answered? then 1 else 0))
      else t
  }

  /** Whether a tally is what this database's approval allows. */
  predicate TallyFits(db: Db, id: nat, t: Tally) {
    && t.accepted <= 1
    && (id >= |db.approvals| ==> t == Tally(0, 0, 0, 0, 0))
    && (id < |db.approvals| ==>
          && (t.accepted == 1 ==> db.approvals[id].status != Pending)
          && (if Resumable(db.approvals[id]) then t.entries == 0 && t.resumptions == t.approving + t.rejecting
              else t.entries == t.approving && t.resumptions == 0))
  }

  lemma TallyNext(served: seq<Served>, s: Served, id: nat)
    ensures var t, u := TallyOf(served, id), TallyOf(served + [s], id);
            if s.request.ContinueRun? && s.request.approvalId == id then
              var tried := !s.answer.Refused?;
              u == Tally(t.entries + Entries(s.effects), t.resumptions + Resumptions(s.effects),
                         t.approving + (if tried && s.request.approved then 1 else 0),
                         t.rejecting + (if tried && !s.request.approved then 1 else 0),
                         t.accepted + (if s.answer.Answered? then 1 else 0))
            else u == t
  {
    hide Entries, Resumptions;
    assert (served + [s])[..|served|] == served;
  }

  lemma EffectsTallied(effects: seq<Effect>)
    ensures effects == [] ==> Entries(effects) == 0 && Resumptions(effects) == 0
    ensures |effects| == 1 && effects[0].Resumed? ==> Entries(effects) == 0 && Resumptions(effects) == 1
    ensures 1 <= |effects| <= 2 && effects[0].Entered? && (|effects| == 2 ==> effects[1].Executed?) ==>
              Entries(effects) == 1 && Resumptions(effects) == 0
  {
    if effects != [] {
      assert effects[..1] == [effects[0]] && effects[..1][..0] == [] && effects[..0] == [];
      assert effects[..|effects|] == effects;
    }
  }

  /** What one more continuation of an approval adds. */
  lemma ContinuationTallied(cfg: Config, db: Db, id: nat, approved: bool, o: ContinueOracle)
    ensures var r := ContinueAfterApproval(cfg, db, id, approved, o);
            && (r.answer.Refused? ==> Entries(r.effects) == 0 && Resumptions(r.effects) == 0)
            && (!r.answer.Refused? ==>
                  && CanContinue(db, id) && id < |r.db.approvals|
                  && (r.answer.Answered? ==> r.db.approvals[id].status != Pending)
                  && Resumptions(r.effects) == (if Resumable(db.approvals[id]) then 1 else 0)
                  && Entries(r.effects) == (if !Resumable(db.approvals[id]) && approved then 1 else 0))
  {
    hide ContinueAfterApproval, Latest, StepName, Entries, Resumptions, ContinuedTool;
    var r := ContinueAfterApproval(cfg, db, id, approved, o);
    ContinuationIsChecked(cfg, db, id, approved, o);
    EffectsTallied(r.effects);
    if CanContinue(db, id) { ContinuationEffects(cfg, db, id, approved, o); }
  }

  lemma NextFits(cfg: Config, w: World, request: Request, id: nat)
    requires TallyFits(w.db, id, TallyOf(w.served, id))
    ensures var r := Serve(cfg, w.db, request);
            TallyFits(r.db, id, TallyOf(w.served + [Served(request, r.answer, r.effects)], id))
  {
    hide RunWorkflow, ContinueAfterApproval, CanContinue, Entries, Resumptions, TallyOf, Paired;
    var r := Serve(cfg, w.db, request);
    TallyNext(w.served, Served(request, r.answer, r.effects), id);
    ServeGrows(cfg, w.db, request);
    if request.ContinueRun? {
      ContinuationTallied(cfg, w.db, request.approvalId, request.approved, request.continued);
      ContinuationIsChecked(cfg, w.db, request.approvalId, request.approved, request.continued);
      PendingToContinue(w.db, request.approvalId);
    }
  }

  lemma PendingToContinue(db: Db, id: nat)
    ensures CanContinue(db, id) ==> id < |db.approvals| && db.approvals[id].status == Pending
  {
  }

  /**
   Over every history, an approval's tool is entered exactly once for each approving continuation that is not refused,
   rolled-back ones included, or its child agent resumed once for each continuation that is not refused; at most one of
   them is accepted. So an approval acts more than once only through continuations that were rolled back after acting.
   */
  lemma {:induction false} EachAttemptActsOnce(cfg: Config, requests: seq<Request>, id: nat)
    ensures TallyFits(Play(cfg, requests).db, id, TallyOf(Play(cfg, requests).served, id))
  {
    if requests == [] {
      assert Play(cfg, requests) == World(EMPTY, []);
    } else {
      hide Serve, TallyFits, TallyOf;
      var front := requests[..|requests| - 1];
      EachAttemptActsOnce(cfg, front, id);
      NextFits(cfg, Play(cfg, front), requests[|requests| - 1], id);
    }
  }

  // ----- confirmation -----

  /** The state the latest checkpoint of a paused run holds. */
  function PausedState(db: Db, id: nat): RunState
    requires CanContinue(db, id)
  {
    Latest(db.rows, StepName(WaitConfirmation), db.approvals[id].run).value.state
  }

  /**
   What may be done in the world with confirmation: a capability that requires it is executed only confirmed, and an
   effect is confirmed only in a start the user confirmed outright or in the approved continuation of a pending
   approval, for that approval's run and, in the tool node, for the tool it names.
   */
  predicate Authorised(cfg: Config, before: Db, s: Served, e: Effect) {
    && (e.Executed? ==> e.tool in cfg.capabilities && (cfg.capabilities[e.tool].requiresConfirmation ==> e.confirmed))
    && (e.confirmed ==>
          match s.request
          case StartRun(cmd, _) => cmd.confirmed
          case ContinueRun(id, approved, _) =>
            && approved && CanContinue(before, id) && e.run == before.approvals[id].run
            && (!e.Resumed? ==> e.tool == ContinuedTool(before.approvals[id], PausedState(before, id)))
          case ChatMessages(_) => false)
  }

  lemma ServedIsAuthorised(cfg: Config, db: Db, request: Request, e: Effect)
    requires e in Serve(cfg, db, request).effects
    ensures var r := Serve(cfg, db, request); Authorised(cfg, db, Served(request, r.answer, r.effects), e)
  {
    hide RunWorkflow, ContinueAfterApproval, Latest, StepName, TouchesOnly, ContinuedTool;
    match request
    case StartRun(cmd, o) =>
      StartTouches(cfg, db, cmd, o);
      assert EffectOk(cfg, e, |db.workflows|, cmd.confirmed);
    case ContinueRun(id, approved, o) =>
      ContinuationIsChecked(cfg, db, id, approved, o);
      ContinuationEffects(cfg, db, id, approved, o);
    case ChatMessages(_) =>
  }

  /**
   Every effect of every history is authorised by the request that caused it, even when that request was rolled back.
   */
  lemma EveryEffectIsAuthorised(cfg: Config, requests: seq<Request>, i: nat, e: Effect)
    requires i < |requests|
    ensures |Play(cfg, requests).served| == |requests|
    ensures e in Play(cfg, requests).served[i].effects ==>
              Authorised(cfg, Play(cfg, requests[..i]).db, Play(cfg, requests).served[i], e)
  {
    hide Serve, Authorised;
    PlayPrefix(cfg, requests, i);
    if e in Play(cfg, requests).served[i].effects {
      ServedIsAuthorised(cfg, Play(cfg, requests[..i]).db, requests[i], e);
    }
  }
}
