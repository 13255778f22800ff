/** How often the guard let a run's tools through, over a whole history, whatever became of the requests. */
module RunExecutions {
  import opened Values
  import opened Checkpoints
  import opened ToolRuntime
  import opened ApprovalWorkflow
  import opened RunHistory
  import opened RunBudget

  /** All executor calls that the guard let through, logged or paused. */
  function GuardedRuns(effects: seq<Effect>): nat {
    if effects == [] then 0
    else GuardedRuns(effects[..|effects| - 1]) +
         (var e := effects[|effects| - 1]; if e.Executed? && e.guarded then 1 else 0)
  }

  lemma {:induction false} GuardedRunsConcat(a: seq<Effect>, b: seq<Effect>)
    ensures GuardedRuns(a + b) == GuardedRuns(a) + GuardedRuns(b)
  {
    if b == [] {
      assert a + b == a;
    } else {
      assert (a + b)[..|a + b| - 1] == a + b[..|b| - 1];
      GuardedRunsConcat(a, b[..|b| - 1]);
    }
  }

  lemma NoEffects()
    ensures GuardedRuns([]) == 0 && GuardedLogged([]) == 0
  {
  }

  lemma TwoEffects(effects: seq<Effect>)
    requires 1 <= |effects| <= 2 && effects[0].Entered?
    ensures |effects| == 1 ==> GuardedRuns(effects) == 0 && GuardedLogged(effects) == 0
    ensures |effects| == 2 ==>
              && GuardedRuns(effects) == (if effects[1].Executed? && effects[1].guarded then 1 else 0)
              && GuardedLogged(effects) ==
                 (if effects[1].Executed? && effects[1].guarded && effects[1].logged then 1 else 0)
  {
    assert effects[..1] == [effects[0]] && effects[..1][..0] == [];
    assert effects[..|effects|] == effects;
  }

  lemma OneResumption(run: nat, approved: bool)
    ensures GuardedRuns([Resumed(run, approved)]) == 0 && GuardedLogged([Resumed(run, approved)]) == 0
  {
    assert [Resumed(run, approved)][..0] == [];
  }

  // ----- the requests of one run -----

  /**
   Whether a request worked on this run. A rolled-back start worked on no run: the row it created is gone, and the next
   start takes the same place. A continuation that was not refused worked on its approval's run, rolled back or not.
   */
  predicate WorksOn(s: Served, run: nat) {
    match s.request
    case StartRun(_, _) => s.answer == Answered(run)
    case ContinueRun(_, _, _) => s.effects != [] && s.effects[0].run == run
    case ChatMessages(_) => false
  }

  /** The executions of a run under the guard, over all the requests that worked on it. */
  function Executions(served: seq<Served>, run: nat): nat {
    if served == [] then 0
    else
      var last := served[|served| - 1];
      Executions(served[..|served| - 1], run) + (if WorksOn(last, run) then GuardedRuns(last.effects) else 0)
  }

  /** Those of its committed requests. */
  function CommittedRuns(served: seq<Served>, run: nat): nat {
    if served == [] then 0
    else
      var last := served[|served| - 1];
      CommittedRuns(served[..|served| - 1], run) +
        (if last.answer == Answered(run) then GuardedRuns(last.effects) else 0)
  }

  /**
   Those of its continuations that were rolled back after executing: their approval stays pending and can run again.
   */
  function Replays(served: seq<Served>, run: nat): nat {
    if served == [] then 0
    else
      var last := served[|served| - 1];
      Replays(served[..|served| - 1], run) +
      (if WorksOn(last, run) && last.answer.RolledBack? then GuardedRuns(last.effects) else 0)
  }

  /** How many continuations that worked on the run were rolled back. */
  function RolledBackOn(served: seq<Served>, run: nat): nat {
    if served == [] then 0
    else
      var last := served[|served| - 1];
      RolledBackOn(served[..|served| - 1], run) + (if WorksOn(last, run) && last.answer.RolledBack? then 1 else 0)
  }

  lemma CountsNext(served: seq<Served>, s: Served, run: nat)
    ensures Executions(served + [s], run) == Executions(served, run) +
            (if WorksOn(s, run) then GuardedRuns(s.effects) else 0)
    ensures CommittedRuns(served + [s], run) ==
            CommittedRuns(served, run) + (if s.answer == Answered(run) then GuardedRuns(s.effects) else 0)
    ensures Replays(served + [s], run) ==
            Replays(served, run) + (if WorksOn(s, run) && s.answer.RolledBack? then GuardedRuns(s.effects) else 0)
    ensures RolledBackOn(served + [s], run) ==
            RolledBackOn(served, run) + (if WorksOn(s, run) && s.answer.RolledBack? then 1 else 0)
  {
    hide GuardedRuns, WorksOn;
    assert (served + [s])[..|served|] == served;
  }

  /** A continuation executes at most once under the guard, for the run it answers for. */
  lemma ContinuationOnce(cfg: Config, db: Db, id: nat, approved: bool, o: ContinueOracle)
    ensures var r := ContinueAfterApproval(cfg, db, id, approved, o);
            && GuardedRuns(r.effects) <= 1
            && (r.effects == [] ==> GuardedRuns(r.effects) == 0)
            && (r.answer.Answered? && r.effects != [] ==> r.effects[0].run == r.answer.run)
  {
    hide ContinueAfterApproval, Latest, StepName, GuardedRuns, ContinuedTool;
    var e := ContinueAfterApproval(cfg, db, id, approved, o).effects;
    ContinuationIsChecked(cfg, db, id, approved, o);
    NoEffects();
    if CanContinue(db, id) {
      ContinuationEffects(cfg, db, id, approved, o);
      OneResumption(db.approvals[id].run, approved);
      if e != [] && e[0].Entered? { TwoEffects(e); }
    }
  }

  /** What one served request adds to the counts. */
  lemma ServedSplits(cfg: Config, db: Db, request: Request, run: nat)
    ensures var r := Serve(cfg, db, request); var s := Served(request, r.answer, r.effects);
            && (s.answer == Answered(run) && GuardedRuns(s.effects) > 0 ==> WorksOn(s, run))
            && (WorksOn(s, run) && GuardedRuns(s.effects) > 0 ==> s.answer == Answered(run) || s.answer.RolledBack?)
            && (WorksOn(s, run) && s.answer.RolledBack? ==> GuardedRuns(s.effects) <= 1)
  {
    hide RunWorkflow, ContinueAfterApproval, GuardedRuns, CanContinue, TouchesOnly, EffectOk;
    match request
    case StartRun(cmd, o) => StartTouches(cfg, db, cmd, o);
    case ContinueRun(id, approved, o) =>
      ContinuationIsChecked(cfg, db, id, approved, o);
      ContinuationOnce(cfg, db, id, approved, o);
    case ChatMessages(_) =>
  }

  /** Every execution of a run belongs to a committed request or to a continuation that was rolled back, once each. */
  lemma {:induction false} ExecutionsSplit(cfg: Config, requests: seq<Request>, run: nat)
    ensures var served := Play(cfg, requests).served;
            && Executions(served, run) == CommittedRuns(served, run) + Replays(served, run)
            && Replays(served, run) <= RolledBackOn(served, run)
  {
    hide Serve, GuardedRuns, WorksOn;
    if requests == [] {
      assert Play(cfg, requests) == World(EMPTY, []);
    } else {
      var front, last := requests[..|requests| - 1], requests[|requests| - 1];
      var w := Play(cfg, front);
      var r := Serve(cfg, w.db, last);
      ExecutionsSplit(cfg, front, run);
      ServedSplits(cfg, w.db, last, run);
      CountsNext(w.served, Served(last, r.answer, r.effects), run);
    }
  }
}
