/**
 Over every history, under any clock: what paused runs resume from, identifiers, logs, transcript and budget of each
 run.
 */
module RunBudget {
  import opened Values
  import opened Checkpoints
  import opened ToolRuntime
  import opened ApprovalWorkflow
  import opened RunHistory

  type RunRow = Row<nat, RunState>

  // ----- the checkpoint table -----

  /** Along a run's checkpoints the tool call ids only grow by appending. */
  ghost predicate MonotoneIds(rows: seq<RunRow>) {
    forall i, j :: 0 <= i < j < |rows| && rows[i].run == rows[j].run ==>
        rows[i].state.toolCallIds <= rows[j].state.toolCallIds
  }

  /** Rows carry their state's step as their key, no run's stamps fall, and its ids only grow. */
  ghost predicate TableOk(cfg: Config, rows: seq<RunRow>) {
    && Coherent(rows, cfg.precision) && (forall run :: Rising(rows, run)) && MonotoneIds(rows)
    && (forall i :: 0 <= i < |rows| ==> rows[i].key == StepName(rows[i].state.step))
  }

  /** No checkpoint of the run waits for confirmation. */
  ghost predicate NoPause(rows: seq<RunRow>, run: nat) {
    forall i :: 0 <= i < |rows| && rows[i].run == run ==> rows[i].state.step != WaitConfirmation
  }

  /** The run's last checkpoint is its only one that waits for confirmation. */
  ghost predicate PausedAt(rows: seq<RunRow>, run: nat, k: nat) {
    && LastAt(rows, run, k) && rows[k].state.step == WaitConfirmation
    && forall j :: 0 <= j < k && rows[j].run == run ==> rows[j].state.step != WaitConfirmation
  }

  lemma StepNamesDiffer(s: Step)
    ensures StepName(s) == StepName(WaitConfirmation) ==> s == WaitConfirmation
  {
    assert "wait_user_input"[5] == 'u' && StepName(WaitConfirmation)[5] == 'c';
  }

  /** No checkpoint of the run holds more than these ids. */
  ghost predicate Below(rows: seq<RunRow>, run: nat, ids: seq<nat>) {
    forall i :: 0 <= i < |rows| && rows[i].run == run ==> rows[i].state.toolCallIds <= ids
  }

  ghost predicate LastAt(rows: seq<RunRow>, run: nat, k: nat) {
    k < |rows| && rows[k].run == run && forall j :: k < j < |rows| ==> rows[j].run != run
  }

  /** Rows were only added, all of one run, none holding more than these ids. */
  ghost predicate NewRows(rows: seq<RunRow>, after: seq<RunRow>, run: nat, ids: seq<nat>) {
    && rows <= after
    && forall i :: |rows| <= i < |after| ==>
       after[i].run == run && after[i].state.run == run && after[i].state.toolCallIds <= ids
  }

  /** Rows were only added, all of one run; the others hold what they held, under their stored stamps. */
  ghost predicate OnlyRowsOf(rows: seq<RunRow>, after: seq<RunRow>, run: nat) {
    && |rows| <= |after|
    && (forall i :: 0 <= i < |rows| ==> after[i].run == rows[i].run && after[i].state == rows[i].state)
    && (forall i :: |rows| <= i < |after| ==> after[i].run == run)
  }

  lemma RefreshedRows(rows: seq<RunRow>, done: seq<RunRow>, run: nat, ids: seq<nat>)
    requires NewRows(rows, done, run, ids)
    ensures OnlyRowsOf(rows, Refresh(done), run)
  {
  }

  lemma SaveOk(cfg: Config, rows: seq<RunRow>, step: string, s: RunState, n: nat)
    requires TableOk(cfg, rows) && Below(rows, s.run, s.toolCallIds) && step == StepName(s.step)
    ensures var after := Save(rows, step, s.run, step, s, cfg.rowId(n), cfg.clock(n), cfg.precision);
            && TableOk(cfg, after) && Below(after, s.run, s.toolCallIds)
            && NewRows(rows, after, s.run, s.toolCallIds) && |after| == |rows| + 1 && after[|rows|].state == s
  {
    hide Latest, Stamp, Stored, Coherent, Rising, StepName;
    var after := Save(rows, step, s.run, step, s, cfg.rowId(n), cfg.clock(n), cfg.precision);
    SaveKeepsRising(rows, step, s.run, step, s, cfg.rowId(n), cfg.clock(n), cfg.precision);
    forall run ensures Rising(after, run) {
      if run != s.run { OtherRunsRise(rows, after[|rows|], run); }
    }
  }

  lemma SaveStepOk(cfg: Config, db: Db, s: RunState)
    requires s.run < |db.workflows|
    requires TableOk(cfg, db.rows) && Below(db.rows, s.run, s.toolCallIds)
    ensures var after := SaveStep(cfg, db, s).rows;
            && TableOk(cfg, after) && Below(after, s.run, s.toolCallIds)
            && NewRows(db.rows, after, s.run, s.toolCallIds) && |after| == |db.rows| + 1 && after[|db.rows|].state == s
  {
    hide Save, TableOk, Below, NewRows, StepName;
    SaveOk(cfg, db.rows, StepName(s.step), s, |db.rows|);
  }

  lemma FinalizeOk(cfg: Config, db: Db, s: RunState)
    requires s.run < |db.workflows|
    requires TableOk(cfg, db.rows) && Below(db.rows, s.run, s.toolCallIds)
    ensures var after := Finalize(cfg, db, s).rows;
            TableOk(cfg, after) && NewRows(db.rows, after, s.run, s.toolCallIds)
  {
    hide SaveStep, TableOk, Below, NewRows;
    SaveStepOk(cfg, SetStatus(db, s.run, Completed), s.(step := FinalResponse));
  }

  lemma NewRowsTwice(a: seq<RunRow>, b: seq<RunRow>, c: seq<RunRow>, run: nat, ids: seq<nat>, more: seq<nat>)
    requires NewRows(a, b, run, ids) && NewRows(b, c, run, more) && ids <= more
    ensures NewRows(a, c, run, more)
  {
  }

  lemma SaveThenFinalizeOk(cfg: Config, db: Db, s: RunState)
    requires s.run < |db.workflows|
    requires TableOk(cfg, db.rows) && Below(db.rows, s.run, s.toolCallIds)
    ensures var after := Finalize(cfg, SaveStep(cfg, db, s), s).rows;
            TableOk(cfg, after) && NewRows(db.rows, after, s.run, s.toolCallIds)
  {
    hide SaveStep, Finalize, TableOk, Below, NewRows;
    SaveStepOk(cfg, db, s);
    WritesOneWorkflow(cfg, db, s);
    FinalizeOk(cfg, SaveStep(cfg, db, s), s);
    NewRowsTwice(db.rows, SaveStep(cfg, db, s).rows, Finalize(cfg, SaveStep(cfg, db, s), s).rows, s.run, s.toolCallIds,
                 s.toolCallIds);
  }

  lemma RefreshOk(cfg: Config, rows: seq<RunRow>)
    requires TableOk(cfg, rows)
    ensures TableOk(cfg, Refresh(rows))
  {
    hide Coherent, Rising, StepName;
    RefreshKeepsCoherent(rows, cfg.precision);
    forall run ensures Rising(Refresh(rows), run) { RefreshKeepsRising(rows, run); }
    forall i, j | 0 <= i < j < |rows| && Refresh(rows)[i].run == Refresh(rows)[j].run
      ensures Refresh(rows)[i].state.toolCallIds <= Refresh(rows)[j].state.toolCallIds
    {
      assert rows[i].run == rows[j].run;
    }
  }

  // ----- what holds between requests -----

  predicate Paused(w: Workflow) {
    w.status == WaitingUser && w.step == WaitConfirmation
  }

  /** The workflow and this state of it wait for the same pending approval of the run. */
  predicate NamesApproval(db: Db, run: nat, s: RunState)
    requires run < |db.workflows|
  {
    && s.run == run && s.approvalId.Some? && db.workflows[run].approvalId == s.approvalId
    && s.approvalId.value < |db.approvals|
    && db.approvals[s.approvalId.value].status == Pending && db.approvals[s.approvalId.value].run == run
  }

  /**
   The checkpoint a paused run resumes from is its pause, names its pending approval and holds the ids of all its logs.
   */
  ghost predicate Complete(db: Db, run: nat) {
    run < |db.workflows| &&
    exists k: nat :: PausedAt(db.rows, run, k) && ResumeOk(db, run, db.rows[k].state)
  }

  ghost predicate ResumeOk(db: Db, run: nat, s: RunState)
    requires run < |db.workflows|
  {
    s.toolCallIds == LogIds(db.toolLogs, run) && NamesApproval(db, run, s)
  }

  ghost predicate Inv(cfg: Config, db: Db) {
    && (forall i :: 0 <= i < |db.approvals| ==> db.approvals[i].run < |db.workflows|)
    && (forall i :: 0 <= i < |db.toolLogs| ==> db.toolLogs[i].run < |db.workflows|)
    && Paired(db)
    && TableOk(cfg, db.rows)
    && RowsTraced(db)
    && (forall run :: 0 <= run < |db.workflows| && Paused(db.workflows[run]) ==> Complete(db, run))
  }

  /** Every checkpoint belongs to a run, and its tool call ids are the first ids of that run's logs, in order. */
  ghost predicate RowsTraced(db: Db) {
    forall i :: 0 <= i < |db.rows| ==>
      db.rows[i].run < |db.workflows| && db.rows[i].state.run == db.rows[i].run &&
      db.rows[i].state.toolCallIds <= LogIds(db.toolLogs, db.rows[i].run)
  }

  lemma {:induction false} LogIdsGrow(logs: seq<ToolLog>, after: seq<ToolLog>, run: nat)
    requires logs <= after
    ensures LogIds(logs, run) <= LogIds(after, run)
    ensures (forall i :: |logs| <= i < |after| ==> after[i].run != run) ==> LogIds(after, run) == LogIds(logs, run)
  {
    if |after| > |logs| {
      var front := after[..|after| - 1];
      LogIdsGrow(logs, front, run);
      LogIdsAppend(front, after[|after| - 1], run);
      assert front + [after[|after| - 1]] == after;
    } else {
      assert logs == after;
    }
  }

  /** One request's commit, seen from outside: one run's workflow, approvals, logs and rows. */
  ghost predicate Commits(db: Db, after: Db, run: nat, ids: seq<nat>) {
    && |db.workflows| <= |after.workflows| && run < |after.workflows|
    && (forall r :: 0 <= r < |after.workflows| && r != run ==>
        r < |db.workflows| && after.workflows[r] == db.workflows[r])
    && |db.approvals| <= |after.approvals|
    && (forall i :: 0 <= i < |db.approvals| ==> after.approvals[i].run == db.approvals[i].run)
    && (forall i :: 0 <= i < |db.approvals| && db.approvals[i].run != run ==> after.approvals[i] == db.approvals[i])
    && (forall i :: |db.approvals| <= i < |after.approvals| ==> after.approvals[i].run == run)
    && AddsLogs(db, after, run)
    && NewRows(db.rows, after.rows, run, ids)
    && ids <= LogIds(after.toolLogs, run)
  }

  lemma CompleteKept(db: Db, after: Db, run: nat, ids: seq<nat>, other: nat)
    requires Commits(db, after, run, ids) && other != run && other < |after.workflows| && Complete(db, other)
    ensures Complete(after, other)
  {
    hide Paired, LogIds;
    assert AddsLogs(db, after, run) && NewRows(db.rows, after.rows, run, ids);
    LogIdsGrow(db.toolLogs, after.toolLogs, other);
    var k: nat :| PausedAt(db.rows, other, k) && ResumeOk(db, other, db.rows[k].state);
    assert PausedAt(after.rows, other, k) && ResumeOk(after, other, after.rows[k].state);
  }

  lemma RowsStayTraced(db: Db, after: Db, run: nat, ids: seq<nat>)
    requires RowsTraced(db) && Commits(db, after, run, ids)
    ensures RowsTraced(after)
  {
    hide Paired, LogIds;
    assert AddsLogs(db, after, run) && NewRows(db.rows, after.rows, run, ids);
    forall i | 0 <= i < |after.rows|
      ensures after.rows[i].run < |after.workflows| && after.rows[i].state.run == after.rows[i].run
      ensures after.rows[i].state.toolCallIds <= LogIds(after.toolLogs, after.rows[i].run)
    {
      if i < |db.rows| {
        assert after.rows[i] == db.rows[i];
        LogIdsGrow(db.toolLogs, after.toolLogs, db.rows[i].run);
      }
    }
  }

  /** Committing keeps the invariant, given the table's own and the completeness of the run if it is left paused. */
  lemma CommitKeepsInv(cfg: Config, db: Db, after: Db, run: nat, ids: seq<nat>)
    requires Inv(cfg, db) && Commits(db, after, run, ids) && TableOk(cfg, after.rows)
    requires Paused(after.workflows[run]) ==> Complete(after, run)
    ensures Inv(cfg, after)
  {
    hide Paired, TableOk, LogIds, RowsTraced, NewRows, Complete;
    RowsStayTraced(db, after, run, ids);
    assert AddsLogs(db, after, run);
    forall r | 0 <= r < |after.workflows| && Paused(after.workflows[r]) ensures Complete(after, r) {
      if r != run { CompleteKept(db, after, run, ids, r); }
    }
    forall i | 0 <= i < |after.toolLogs| ensures after.toolLogs[i].run < |after.workflows| {
      if i < |db.toolLogs| { assert after.toolLogs[i] == db.toolLogs[i]; }
    }
  }

  lemma RefreshKeepsInv(cfg: Config, db: Db)
    requires Inv(cfg, db)
    ensures Inv(cfg, Committed(db))
  {
    hide Paired, TableOk, LogIds, Refresh;
    RefreshOk(cfg, db.rows);
    var after := Committed(db);
    PairedSame(db, after);
    assert RowsTraced(after) by {
      forall i | 0 <= i < |after.rows|
        ensures after.rows[i].run < |after.workflows| && after.rows[i].state.run == after.rows[i].run
        ensures after.rows[i].state.toolCallIds <= LogIds(after.toolLogs, after.rows[i].run)
      {
        assert after.rows[i].state == db.rows[i].state;
      }
    }
    forall run | 0 <= run < |after.workflows| && Paused(after.workflows[run]) ensures Complete(after, run) {
      assert Complete(db, run);
      var k: nat :| PausedAt(db.rows, run, k) && ResumeOk(db, run, db.rows[k].state);
      assert PausedAt(after.rows, run, k) && ResumeOk(after, run, after.rows[k].state);
    }
  }

  // ----- a start -----

  lemma ConcludeOk(cfg: Config, db: Db, s: RunState, cmd: Command, o: StartOracle)
    requires s.run < |db.workflows|
    requires TableOk(cfg, db.rows) && Below(db.rows, s.run, s.toolCallIds) && NoPause(db.rows, s.run)
    ensures var after := Conclude(cfg, db, s, cmd, o);
            && TableOk(cfg, after.rows) && NewRows(db.rows, after.rows, s.run, s.toolCallIds)
            && s.run < |after.workflows|
            && (Paused(after.workflows[s.run]) ==>
                  && s.step == WaitConfirmation && PausedAt(after.rows, s.run, |db.rows|)
                  && after.rows[|db.rows|].state == s.(approvalId := Some(|db.approvals|))
                  && NamesApproval(after, s.run, after.rows[|db.rows|].state))
  {
    hide SaveStep, Finalize, TableOk, Below, NewRows, PauseRequest;
    if s.step == WaitConfirmation {
      var fallback :=
        if cmd.tool != "" then
          Payload(cmd.tool, Some(cmd.sourceType), Some(o.pendingInput.GetOr(cmd.input)), false, false, "")
        else Payload(s.requestedTool, Some(s.sourceType), Some(o.pendingInput.GetOr(map[])), false, false, "");
      var request := PauseRequest(s, FirstNonEmpty(fallback.requestedTool, "tool_choice_call"), fallback);
      var requested := RequestApproval(db, s.run, request.0, request.1);
      var t := s.(approvalId := Some(|db.approvals|));
      SaveStepOk(cfg, requested, t);
      WritesOneWorkflow(cfg, requested, t);
      NewRowIsLast(db.rows, SaveStep(cfg, requested, t).rows, s.run, s.toolCallIds);
    } else if s.step == WaitUserInput {
      var waiting := SetStatus(db, s.run, WaitingUser);
      SaveStepOk(cfg, waiting, s);
      WritesOneWorkflow(cfg, waiting, s);
    } else {
      SaveThenFinalizeOk(cfg, db, s);
      FinalizeOk(cfg, db, s);
      WritesOneWorkflow(cfg, db, s);
      WritesOneWorkflow(cfg, SaveStep(cfg, db, s), s);
    }
  }

  lemma NewRowIsLast(rows: seq<RunRow>, after: seq<RunRow>, run: nat, ids: seq<nat>)
    requires NewRows(rows, after, run, ids) && |after| == |rows| + 1
    requires NoPause(rows, run) && after[|rows|].state.step == WaitConfirmation
    ensures PausedAt(after, run, |rows|)
  {
  }

  lemma PlannedOk(cfg: Config, db: Db, cmd: Command, o: StartOracle)
    requires Inv(cfg, db)
    ensures var p := Planned(cfg, db, cmd, o);
            && TableOk(cfg, p.0.rows) && NewRows(db.rows, p.0.rows, |db.workflows|, []) &&
               Below(p.0.rows, |db.workflows|, [])
            && NoPause(p.0.rows, |db.workflows|)
            && p.1.toolCallIds == [] && p.1.run == |db.workflows|
            && p.0.toolLogs == db.toolLogs && p.0.messages == db.messages
  {
    hide SaveStep, TableOk, NewRows, Paired, LogIds;
    var s := NewRun(db, cmd, o);
    assert Below(db.rows, |db.workflows|, []) && NoPause(db.rows, |db.workflows|);
    SaveStepOk(cfg, Created(db), s);
    var first := SaveStep(cfg, Created(db), s);
    WritesOneWorkflow(cfg, Created(db), s);
    SavesOnly(cfg, Created(db), s);
    var p := Planned(cfg, db, cmd, o);
    SaveStepOk(cfg, first, p.1);
    SavesOnly(cfg, first, p.1);
    NewRowsTwice(db.rows, first.rows, p.0.rows, |db.workflows|, [], []);
    StillNoPause(db.rows, first.rows, |db.workflows|, []);
    StillNoPause(first.rows, p.0.rows, |db.workflows|, []);
  }

  lemma StillNoPause(rows: seq<RunRow>, after: seq<RunRow>, run: nat, ids: seq<nat>)
    requires NewRows(rows, after, run, ids) && |after| == |rows| + 1
    requires NoPause(rows, run) && after[|rows|].state.step != WaitConfirmation
    ensures NoPause(after, run)
  {
  }

  lemma SavesOnly(cfg: Config, db: Db, s: RunState)
    requires s.run < |db.workflows|
    ensures SaveStep(cfg, db, s).toolLogs == db.toolLogs && SaveStep(cfg, db, s).messages == db.messages
  {
    hide Save, StepName;
  }

  function Cap(cfg: Config): nat {
    if cfg.settings.maxToolCalls > 0 then cfg.settings.maxToolCalls else 0
  }

  lemma NoLogsYet(cfg: Config, db: Db, run: nat)
    requires Inv(cfg, db) && run >= |db.workflows|
    ensures LogIds(db.toolLogs, run) == []
  {
    hide Paired, TableOk, RowsTraced, Complete;
    LogIdsGrow([], db.toolLogs, run);
  }

  lemma BelowGrows(rows: seq<RunRow>, run: nat, ids: seq<nat>, more: seq<nat>)
    requires Below(rows, run, ids) && ids <= more
    ensures Below(rows, run, more)
  {
  }

  lemma AdvancesIds(cfg: Config, db: Db, s: RunState, after: Db, s': RunState, effects: seq<Effect>, confirmed: bool)
    requires Advances(cfg, db, s, after, s', effects, confirmed) && s.toolCallIds == LogIds(db.toolLogs, s.run)
    ensures s'.toolCallIds == LogIds(after.toolLogs, s.run) && s.toolCallIds <= s'.toolCallIds && after.rows == db.rows
    ensures GuardedLogged(effects) <= |s'.toolCallIds| - |s.toolCallIds|
    ensures GuardedLogged(effects) > 0 ==> |s.toolCallIds| + GuardedLogged(effects) <= cfg.settings.maxToolCalls
  {
    hide Paired, LogIds, GuardedLogged, EffectOk;
  }

  lemma StartCommits(db: Db, done: Db, run: nat, ids: seq<nat>)
    requires TouchesOnly(Created(db), done, run) && run == |db.workflows|
    requires NewRows(db.rows, done.rows, run, ids) && ids <= LogIds(done.toolLogs, run)
    ensures Commits(db, done, run, ids)
  {
    hide Paired, LogIds, NewRows;
    if Paired(db) { PairedSame(db, Created(db)); }
  }

  lemma ConcludeKeepsLogs(cfg: Config, db: Db, s: RunState, cmd: Command, o: StartOracle)
    requires s.run < |db.workflows|
    ensures Conclude(cfg, db, s, cmd, o).toolLogs == db.toolLogs
  {
    hide Save, StepName, PauseRequest;
  }

  /** A committed start keeps the invariant and stays within the budget. */
  lemma StartKeepsInv(cfg: Config, db: Db, cmd: Command, o: StartOracle)
    requires Inv(cfg, db) && !o.crash
    ensures var r := RunWorkflow(cfg, db, cmd, o); var run := |db.workflows|;
            && Inv(cfg, r.db) && run < |r.db.workflows| && OnlyRowsOf(db.rows, r.db.rows, run)
            && GuardedLogged(r.effects) <= Cap(cfg)
            && (Paused(r.db.workflows[run]) ==> GuardedLogged(r.effects) <= |LogIds(r.db.toolLogs, run)|)
  {
    hide Planned, Work, Conclude, TouchesOnly, Refresh, Paired, Inv, TableOk, NewRows, Below, LogIds, Commits, Advances,
         GuardedLogged;
    var run := |db.workflows|;
    var p, chosen := Planned(cfg, db, cmd, o), Chosen(cmd, o);
    PlannedOk(cfg, db, cmd, o);
    var n := Work(cfg, p.0, p.1, chosen, o);
    var reached := StartWorks(cfg, db, cmd, o);
    NoLogsYet(cfg, db, run);
    AdvancesIds(cfg, p.0, p.1, n.db, reached, n.effects, cmd.confirmed);
    var ids := n.state.toolCallIds;
    BelowGrows(n.db.rows, run, [], ids);
    ConcludeOk(cfg, n.db, n.state, chosen, o);
    ConcludeKeepsLogs(cfg, n.db, n.state, chosen, o);
    var done := Conclude(cfg, n.db, n.state, chosen, o);
    NewRowsTwice(db.rows, p.0.rows, done.rows, run, [], ids);
    StartCommits(db, done, run, ids);
    if Paused(done.workflows[run]) { assert Complete(done, run); }
    CommitKeepsInv(cfg, db, done, run, ids);
    RefreshKeepsInv(cfg, done);
    RefreshedRows(db.rows, done.rows, run, ids);
  }

  // ----- a continuation -----

  /** Under any clock, a paused run resumes from its pause. */
  lemma PauseIsResumed(cfg: Config, rows: seq<RunRow>, run: nat, k: nat)
    requires TableOk(cfg, rows) && PausedAt(rows, run, k)
    ensures Latest(rows, StepName(WaitConfirmation), run) == Some(rows[k])
    ensures Below(rows, run, rows[k].state.toolCallIds)
  {
    hide Latest, Coherent, Rising, StepName;
    forall j | 0 <= j < |rows| && j != k && rows[j].run == run
      ensures j < k && rows[j].key != StepName(WaitConfirmation)
    {
      StepNamesDiffer(rows[j].state.step);
    }
    OnlyStepRowIsResumed(rows, run, k, StepName(WaitConfirmation));
  }

  /** The decided continuation of a paused run: its rows, its ids, and how much of the budget it used. */
  lemma ProceedOk(cfg: Config, db: Db, s: RunState, id: nat, approved: bool, o: ContinueOracle) returns (ids: seq<nat>)
    requires id < |db.approvals| && s.run < |db.workflows| && db.approvals[id].run == s.run
    requires TableOk(cfg, db.rows) && Below(db.rows, s.run, s.toolCallIds) &&
             s.toolCallIds == LogIds(db.toolLogs, s.run)
    ensures var done := Proceed(cfg, db, s, id, approved, o);
            && TableOk(cfg, done.0.rows) && NewRows(db.rows, done.0.rows, s.run, ids)
            && ids == LogIds(done.0.toolLogs, s.run)
            && (GuardedLogged(done.1) > 0 ==> |s.toolCallIds| + GuardedLogged(done.1) <= cfg.settings.maxToolCalls)
  {
    hide SaveStep, Finalize, ToolNode, ResumeSdk, TableOk, Below, NewRows, LogIds, GuardedLogged, Advances;
    var a := db.approvals[id];
    var decided := DecideApproval(db, id, approved);
    if Resumable(a) {
      var r := ResumeSdk(decided, s, id, o.resume);
      ResumeIds(decided, s, id, o.resume);
      ResumeWrites(decided, s, id, o.resume);
      ids := r.1.toolCallIds;
      BelowGrows(db.rows, s.run, s.toolCallIds, ids);
      SaveThenFinalizeOk(cfg, r.0, r.1);
      FinishKeepsLogs(cfg, r.0, r.1);
      NoneGuarded([Resumed(s.run, approved)]);
    } else if !approved {
      var canceled := SetStatus(decided, s.run, Canceled);
      var t := s.(step := ApprovalRejected, approvalId := Some(id));
      ids := s.toolCallIds;
      SaveStepOk(cfg, canceled, t);
      SavesOnly(cfg, canceled, t);
      NoneGuarded([]);
    } else {
      var cmd := ContinuedCommand(a, s);
      var t := s.(step := MaybeTool, approvalId := Some(id), requestedTool := cmd.tool, sourceType := cmd.sourceType);
      NodeAdvances(cfg, decided, t, cmd, o.node);
      var n := ToolNode(cfg, decided, t, cmd, o.node);
      AdvancesIds(cfg, decided, t, n.db, n.state, n.effects, true);
      AdvancesRun(cfg, decided, t, n.db, n.state, n.effects, true);
      ids := n.state.toolCallIds;
      BelowGrows(db.rows, s.run, s.toolCallIds, ids);
      SaveThenFinalizeOk(cfg, n.db, n.state);
      FinishKeepsLogs(cfg, n.db, n.state);
    }
  }

  lemma AdvancesRun(cfg: Config, db: Db, s: RunState, after: Db, s': RunState, effects: seq<Effect>, confirmed: bool)
    requires Advances(cfg, db, s, after, s', effects, confirmed)
    ensures s'.run == s.run && after.workflows == db.workflows
  {
    hide Paired, LogIds, GuardedLogged, EffectOk;
  }

  lemma NoneGuarded(effects: seq<Effect>)
    requires |effects| <= 1 && forall e <- effects :: e.Resumed?
    ensures GuardedLogged(effects) == 0
  {
    if effects != [] {
      assert effects[..|effects| - 1] == [];
      assert effects[0] in effects;
    }
  }

  lemma ResumeIds(db: Db, s: RunState, id: nat, o: ResumeOracle)
    requires s.run < |db.workflows| && id < |db.approvals| && s.toolCallIds == LogIds(db.toolLogs, s.run)
    ensures var r := ResumeSdk(db, s, id, o);
            r.0.rows == db.rows && r.1.toolCallIds == LogIds(r.0.toolLogs, s.run) && s.toolCallIds <= r.1.toolCallIds
  {
    hide PauseRequest;
    var tool := FirstNonEmpty(FirstNonEmpty(db.approvals[id].payload.outerTool, db.approvals[id].actionType),
                              s.requestedTool);
    var status := if o.next.Some? && o.next.value.toolName != "" then BlockedLog else if o.ok then Succeeded
    else Failed;
    LogIdsAppend(db.toolLogs, ToolLog(s.run, tool, status), s.run);
  }

  lemma FinishKeepsLogs(cfg: Config, db: Db, s: RunState)
    requires s.run < |db.workflows|
    ensures Finalize(cfg, SaveStep(cfg, db, s), s).toolLogs == db.toolLogs
  {
    hide Save, StepName;
  }

  lemma ContinueCommits(db: Db, done: Db, run: nat, id: nat, approved: bool, ids: seq<nat>)
    requires Decides(db, done, run, id, approved) && db.approvals[id].run == run && AddsLogs(db, done, run)
    requires NewRows(db.rows, done.rows, run, ids) && ids == LogIds(done.toolLogs, run)
    ensures Commits(db, done, run, ids)
  {
    hide Paired, LogIds, NewRows;
  }

  /** A committed continuation keeps the invariant, and what it spends fits what its run had left. */
  lemma ContinueKeepsInv(cfg: Config, db: Db, id: nat, approved: bool, o: ContinueOracle)
    requires Inv(cfg, db) && CanContinue(db, id) && !o.crash
    ensures var r := ContinueAfterApproval(cfg, db, id, approved, o); var run := db.approvals[id].run;
            && Inv(cfg, r.db) && OnlyRowsOf(db.rows, r.db.rows, run)
            && (GuardedLogged(r.effects) > 0 ==>
                |LogIds(db.toolLogs, run)| + GuardedLogged(r.effects) <= cfg.settings.maxToolCalls)
  {
    hide Proceed, Latest, Refresh, StepName, TableOk, Paired, LogIds, GuardedLogged, NewRows, Below, Commits, AddsLogs;
    var run := db.approvals[id].run;
    assert Complete(db, run);
    var k: nat :| PausedAt(db.rows, run, k) && ResumeOk(db, run, db.rows[k].state);
    PauseIsResumed(cfg, db.rows, run, k);
    var s := db.rows[k].state;
    var ids := ProceedOk(cfg, db, s, id, approved, o);
    ProceedDecides(cfg, db, s, id, approved, o);
    ProceedAddsLogs(cfg, db, s, id, approved, o);
    var done := Proceed(cfg, db, s, id, approved, o).0;
    ContinueCommits(db, done, run, id, approved, ids);
    assert !Paused(done.workflows[run]);
    CommitKeepsInv(cfg, db, done, run, ids);
    RefreshKeepsInv(cfg, done);
    RefreshedRows(db.rows, done.rows, run, ids);
  }

  // ----- whole histories -----

  lemma ChatKeepsPaired(db: Db, n: nat)
    requires Paired(db)
    ensures Paired(db.(messages := db.messages + seq(n, _ => Chat)))
  {
    var after := db.(messages := db.messages + seq(n, _ => Chat));
    forall i | 0 <= i < |after.toolLogs| ensures CallAt(after, i) {
      assert CallAt(db, i);
      var k :| 0 <= k < |db.messages| && db.messages[k].ToolCall? && db.messages[k].logId == i;
      assert after.messages[k] == db.messages[k];
    }
  }

  lemma ServeKeepsPaired(cfg: Config, db: Db, request: Request)
    requires Paired(db)
    ensures Paired(Serve(cfg, db, request).db)
  {
    hide RunWorkflow, ContinueAfterApproval, Latest, StepName, Paired;
    match request
    case StartRun(cmd, o) =>
      StartTouches(cfg, db, cmd, o);
      PairedSame(db, Created(db));
      if !o.crash { TouchesAddsLogs(Created(db), RunWorkflow(cfg, db, cmd, o).db, |db.workflows|); }
    case ContinueRun(id, approved, o) =>
      ContinuationIsChecked(cfg, db, id, approved, o);
      if CanContinue(db, id) { ContinueAddsLogs(cfg, db, id, approved, o); }
    case ChatMessages(n) => ChatKeepsPaired(db, n);
  }

  /**
   In every history, under any clock: each tool log has exactly one call message, directly followed by its own result.
   */
  lemma {:induction false} TranscriptIsPaired(cfg: Config, requests: seq<Request>)
    ensures Paired(Play(cfg, requests).db)
  {
    hide Serve;
    if requests == [] {
    } else {
      hide Paired;
      TranscriptIsPaired(cfg, requests[..|requests| - 1]);
      ServeKeepsPaired(cfg, Play(cfg, requests[..|requests| - 1]).db, requests[|requests| - 1]);
    }
  }

  /** Logged executor calls that the guard let through, over the committed requests of a run. */
  function Spent(served: seq<Served>, run: nat): nat {
    if served == [] then 0
    else
      var last := served[|served| - 1];
      Spent(served[..|served| - 1], run) + (if last.answer == Answered(run) then GuardedLogged(last.effects) else 0)
  }

  ghost predicate Within(cfg: Config, w: World, run: nat) {
    && Spent(w.served, run) <= Cap(cfg)
    && (run >= |w.db.workflows| ==> Spent(w.served, run) == 0)
    && (run < |w.db.workflows| && Paused(w.db.workflows[run]) ==> Spent(w.served, run) <= |LogIds(w.db.toolLogs, run)|)
  }

  ghost predicate WorldOk(cfg: Config, w: World) {
    Inv(cfg, w.db) && forall run: nat :: Within(cfg, w, run)
  }

  function Next(cfg: Config, w: World, request: Request): World {
    var r := Serve(cfg, w.db, request);
    World(r.db, w.served + [Served(request, r.answer, r.effects)])
  }

  lemma SpentNext(served: seq<Served>, s: Served, run: nat)
    ensures Spent(served + [s], run) == Spent(served, run) +
            (if s.answer == Answered(run) then GuardedLogged(s.effects) else 0)
  {
    hide GuardedLogged;
    assert (served + [s])[..|served|] == served;
  }

  /** A request that commits nothing spends nothing. */
  lemma UncommittedKeepsWorld(cfg: Config, w: World, s: Served)
    requires WorldOk(cfg, w) && !s.answer.Answered?
    ensures WorldOk(cfg, World(w.db, w.served + [s]))
  {
    hide Inv, LogIds, GuardedLogged;
    forall run: nat ensures Within(cfg, World(w.db, w.served + [s]), run) {
      assert Within(cfg, w, run);
      SpentNext(w.served, s, run);
    }
  }

  lemma StartKeepsWorld(cfg: Config, w: World, cmd: Command, o: StartOracle)
    requires WorldOk(cfg, w) && !o.crash
    ensures WorldOk(cfg, Next(cfg, w, StartRun(cmd, o)))
  {
    hide RunWorkflow, Inv, LogIds, GuardedLogged, TouchesOnly, Spent, Cap, EffectOk;
    var newest := |w.db.workflows|;
    StartKeepsInv(cfg, w.db, cmd, o);
    StartTouches(cfg, w.db, cmd, o);
    var r := RunWorkflow(cfg, w.db, cmd, o);
    var s := Served(StartRun(cmd, o), r.answer, r.effects);
    OnlyFreshRun(w.db, r.db, newest);
    forall run: nat ensures Within(cfg, World(r.db, w.served + [s]), run) {
      assert Within(cfg, w, run);
      SpentNext(w.served, s, run);
      if run < newest { LogIdsGrow(w.db.toolLogs, r.db.toolLogs, run); }
    }
  }

  lemma OnlyFreshRun(db: Db, after: Db, run: nat)
    requires TouchesOnly(Created(db), after, run) && run == |db.workflows|
    ensures |after.workflows| == run + 1 && forall x :: 0 <= x < run ==> after.workflows[x] == db.workflows[x]
    ensures db.toolLogs <= after.toolLogs && forall i :: |db.toolLogs| <= i < |after.toolLogs| ==>
            after.toolLogs[i].run == run
  {
    hide Paired;
    assert AddsLogs(Created(db), after, run);
  }

  lemma ContinueKeepsWorld(cfg: Config, w: World, id: nat, approved: bool, o: ContinueOracle)
    requires WorldOk(cfg, w) && CanContinue(w.db, id) && !o.crash
    ensures WorldOk(cfg, Next(cfg, w, ContinueRun(id, approved, o)))
  {
    hide ContinueAfterApproval, Inv, LogIds, GuardedLogged, Spent, Latest, StepName, Paired;
    var own := w.db.approvals[id].run;
    ContinueKeepsInv(cfg, w.db, id, approved, o);
    ContinuationIsChecked(cfg, w.db, id, approved, o);
    ContinueAddsLogs(cfg, w.db, id, approved, o);
    var r := ContinueAfterApproval(cfg, w.db, id, approved, o);
    var s := Served(ContinueRun(id, approved, o), r.answer, r.effects);
    assert AddsLogs(w.db, r.db, own);
    forall run: nat ensures Within(cfg, World(r.db, w.served + [s]), run) {
      assert Within(cfg, w, run);
      SpentNext(w.served, s, run);
      if run < |w.db.workflows| && run != own { LogIdsGrow(w.db.toolLogs, r.db.toolLogs, run); }
    }
  }

  lemma ChatKeepsInv(cfg: Config, db: Db, n: nat)
    requires Inv(cfg, db)
    ensures Inv(cfg, db.(messages := db.messages + seq(n, _ => Chat)))
  {
    hide Paired, TableOk, LogIds;
    ChatKeepsPaired(db, n);
    var after := db.(messages := db.messages + seq(n, _ => Chat));
    forall run | 0 <= run < |after.workflows| && Paused(after.workflows[run]) ensures Complete(after, run) {
      assert Complete(db, run);
    }
  }

  lemma NextKeepsWorld(cfg: Config, w: World, request: Request)
    requires WorldOk(cfg, w)
    ensures WorldOk(cfg, Next(cfg, w, request))
  {
    hide RunWorkflow, ContinueAfterApproval, Latest, StepName, Inv, TouchesOnly, EffectOk, Within;
    match request
    case StartRun(cmd, o) =>
      StartTouches(cfg, w.db, cmd, o);
      if o.crash {
        var r := RunWorkflow(cfg, w.db, cmd, o);
        UncommittedKeepsWorld(cfg, w, Served(request, r.answer, r.effects));
      } else {
        StartKeepsWorld(cfg, w, cmd, o);
      }
    case ContinueRun(id, approved, o) =>
      ContinuationIsChecked(cfg, w.db, id, approved, o);
      if CanContinue(w.db, id) && !o.crash {
        ContinueKeepsWorld(cfg, w, id, approved, o);
      } else {
        var r := ContinueAfterApproval(cfg, w.db, id, approved, o);
        UncommittedKeepsWorld(cfg, w, Served(request, r.answer, r.effects));
      }
    case ChatMessages(n) =>
      ChatKeepsInv(cfg, w.db, n);
      var noted := World(w.db.(messages := w.db.messages + seq(n, _ => Chat)), w.served);
      assert WorldOk(cfg, noted) by { ChatKeepsWithin(cfg, w, noted); }
      UncommittedKeepsWorld(cfg, noted, Served(request, Unanswered, []));
  }

  lemma ChatKeepsWithin(cfg: Config, w: World, noted: World)
    requires forall run: nat :: Within(cfg, w, run)
    requires noted.served == w.served && noted.db.workflows == w.db.workflows && noted.db.toolLogs == w.db.toolLogs
    ensures forall run: nat :: Within(cfg, noted, run)
  {
    hide LogIds, Spent;
    forall run: nat ensures Within(cfg, noted, run) { assert Within(cfg, w, run); }
  }

  lemma {:induction false} PlayKeepsWorld(cfg: Config, requests: seq<Request>)
    ensures WorldOk(cfg, Play(cfg, requests))
  {
    hide Serve;
    if requests == [] {
      EmptyWorldOk(cfg);
    } else {
      hide WorldOk;
      var front := requests[..|requests| - 1];
      PlayKeepsWorld(cfg, front);
      NextKeepsWorld(cfg, Play(cfg, front), requests[|requests| - 1]);
    }
  }

  lemma EmptyWorldOk(cfg: Config)
    ensures WorldOk(cfg, World(EMPTY, []))
  {
    assert forall run: nat :: Within(cfg, World(EMPTY, []), run);
  }

  /**
   Over every history, continuations from checkpoints included: along the checkpoints of a run the tool call ids only
   grow by appending, each checkpoint's ids are the first ids of the run's own logs in order, and the logged executor
   calls that the guard let through never exceed the call budget.
   */
  lemma EveryRunIsTraced(cfg: Config, requests: seq<Request>, run: nat)
    ensures MonotoneIds(Play(cfg, requests).db.rows)
    ensures RowsTraced(Play(cfg, requests).db)
    ensures Spent(Play(cfg, requests).served, run) <= Cap(cfg)
  {
    hide Play, Paired, RowsTraced, Complete, MonotoneIds, Coherent, Rising, StepName, Spent, Cap;
    PlayKeepsWorld(cfg, requests);
    var w := Play(cfg, requests);
    assert Inv(cfg, w.db) && Within(cfg, w, run);
    assert TableOk(cfg, w.db.rows);
  }

  // ----- what a pause allows -----

  /**
   Over every history, under any clock: a run that waits for confirmation names a pending approval of its own, and that
   approval can be continued. No pause is lost to other requests, to ties of its stamp, or to later saves.
   */
  lemma EveryPauseCanContinue(cfg: Config, requests: seq<Request>, run: nat)
    requires run < |Play(cfg, requests).db.workflows| && Paused(Play(cfg, requests).db.workflows[run])
    ensures var db := Play(cfg, requests).db; var id := db.workflows[run].approvalId;
            id.Some? && id.value < |db.approvals| && db.approvals[id.value].run == run && CanContinue(db, id.value)
            && PausedState(db, id.value).toolCallIds == LogIds(db.toolLogs, run)
  {
    hide Play, Paired, RowsTraced, TableOk, Latest, StepName, Within, LogIds;
    PlayKeepsWorld(cfg, requests);
    var db := Play(cfg, requests).db;
    assert Inv(cfg, db) && Complete(db, run);
    var k: nat :| PausedAt(db.rows, run, k) && ResumeOk(db, run, db.rows[k].state);
    PauseIsResumed(cfg, db.rows, run, k);
  }

  lemma PauseCanContinue(cfg: Config, db: Db, s: RunState, cmd: Command, o: StartOracle)
    requires s.run < |db.workflows| && s.step == WaitConfirmation
    requires TableOk(cfg, db.rows) && Below(db.rows, s.run, s.toolCallIds) && NoPause(db.rows, s.run)
    ensures CanContinue(Committed(Pause(cfg, db, s, cmd, o)), |db.approvals|)
    ensures Latest(Committed(Pause(cfg, db, s, cmd, o)).rows, StepName(WaitConfirmation), s.run).value.state ==
            s.(approvalId := Some(|db.approvals|))
  {
    hide SaveStep, TableOk, Below, NewRows, PauseRequest, StepName, Latest, Refresh;
    var fallback :=
      if cmd.tool != "" then
        Payload(cmd.tool, Some(cmd.sourceType), Some(o.pendingInput.GetOr(cmd.input)), false, false, "")
      else Payload(s.requestedTool, Some(s.sourceType), Some(o.pendingInput.GetOr(map[])), false, false, "");
    var request := PauseRequest(s, FirstNonEmpty(fallback.requestedTool, "tool_choice_call"), fallback);
    var requested := RequestApproval(db, s.run, request.0, request.1);
    var t := s.(approvalId := Some(|db.approvals|));
    SaveStepOk(cfg, requested, t);
    WritesOneWorkflow(cfg, requested, t);
    var done := SaveStep(cfg, requested, t);
    NewRowIsLast(db.rows, done.rows, s.run, s.toolCallIds);
    RefreshOk(cfg, done.rows);
    RefreshKeepsPause(done.rows, s.run, |db.rows|);
    PauseIsResumed(cfg, Refresh(done.rows), s.run, |db.rows|);
  }

  lemma RefreshKeepsPause(rows: seq<RunRow>, run: nat, k: nat)
    requires PausedAt(rows, run, k)
    ensures PausedAt(Refresh(rows), run, k)
  {
    hide Refresh;
  }

  lemma NoPauseNoApproval(cfg: Config, db: Db, s: RunState, cmd: Command, o: StartOracle)
    requires s.run < |db.workflows| && s.step != WaitConfirmation
    ensures Conclude(cfg, db, s, cmd, o).approvals == db.approvals
  {
    hide Save, StepName;
  }

  lemma PlannedKeepsApprovals(cfg: Config, db: Db, cmd: Command, o: StartOracle)
    ensures Planned(cfg, db, cmd, o).0.approvals == db.approvals
  {
    hide Save, StepName;
  }

  /**
   A committed start leaves its new approval ready to be continued exactly when its tool work ended waiting for
   confirmation: the check of a continuation refuses no pause that is still current.
   */
  lemma PausedStartCanContinue(cfg: Config, db: Db, cmd: Command, o: StartOracle)
    requires Inv(cfg, db) && !o.crash
    ensures var p := Planned(cfg, db, cmd, o); var n := Work(cfg, p.0, p.1, Chosen(cmd, o), o);
            CanContinue(RunWorkflow(cfg, db, cmd, o).db, |db.approvals|) <==> n.state.step == WaitConfirmation
  {
    hide Planned, Work, Pause, Refresh, TouchesOnly, Inv, TableOk, NewRows, Below, LogIds, Advances, PausedOn;
    var run := |db.workflows|;
    var p, chosen := Planned(cfg, db, cmd, o), Chosen(cmd, o);
    PlannedOk(cfg, db, cmd, o);
    PlannedKeepsApprovals(cfg, db, cmd, o);
    var n := Work(cfg, p.0, p.1, chosen, o);
    var reached := StartWorks(cfg, db, cmd, o);
    AdvancesRows(cfg, p.0, p.1, n.db, reached, n.effects, cmd.confirmed);
    BelowGrows(n.db.rows, run, [], n.state.toolCallIds);
    if n.state.step == WaitConfirmation {
      PauseCanContinue(cfg, n.db, n.state, chosen, o);
    } else {
      hide Conclude;
      NoPauseNoApproval(cfg, n.db, n.state, chosen, o);
    }
  }

  lemma AdvancesRows(cfg: Config, db: Db, s: RunState, after: Db, s': RunState, effects: seq<Effect>, confirmed: bool)
    requires Advances(cfg, db, s, after, s', effects, confirmed)
    ensures after.rows == db.rows && after.approvals == db.approvals
  {
    hide Paired, LogIds, GuardedLogged, EffectOk;
  }
}
