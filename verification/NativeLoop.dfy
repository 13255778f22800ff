/**
 The native tool loop (graph_factory.py) under its bounded policy (react_strategy.py): each round asks the model once,
 enters the tool node at most once, and retries with patched inputs while the shared reflection budget lasts.

 The model, the node's executors and the result evaluator are oracles: any answer, at any point, depending on nothing.
 */
module NativeLoop {
  import opened Values
  import opened Text
  import opened Guardrails
  import opened ToolRuntime
  import ToolAliases

  // ----- the policy -----

  const WEB_SEARCH := "external.web_search"
  const MAX_STEPS: nat := 5
  const MAX_RETRIES: nat := 3

  /**
   `intent_frame.entities.company_names` counts only when it is a list; a retry budget may be missing or unreadable.
   */
  datatype ContextPack = ContextPack(allowed: seq<string>, lowRisk: bool, companyNames: Option<nat>,
                                     retryBudget: Option<Option<int>>)

  function Min(a: int, b: int): int { if a < b then a else b }

  function Max(a: int, b: int): int { if a < b then b else a }

  /** `_native_tool_loop_max_tool_calls`. */
  function RequestedSteps(pack: ContextPack): int {
    if pack.companyNames.Some? && pack.companyNames.value > 1 then Min(5, Max(2, pack.companyNames.value)) else 1
  }

  function Nonblank(names: seq<string>): seq<string> {
    if names == [] then []
    else Nonblank(names[..|names| - 1]) + (if Blank(names[|names| - 1]) then [] else [names[|names| - 1]])
  }

  /** `BoundedReActPolicy.from_context_pack`: the steps of an enabled policy. */
  function PolicySteps(pack: ContextPack): Option<nat> {
    var names := Nonblank(pack.allowed);
    if pack.lowRisk && names != [] && (forall n <- names :: n == WEB_SEARCH) then
      Some(Min(MAX_STEPS, Max(1, RequestedSteps(pack))))
    else None
  }

  /** `_native_tool_loop_reflection_retry_budget`. */
  function RetryBudget(pack: ContextPack): nat {
    if WEB_SEARCH !in Nonblank(pack.allowed) then 0
    else match pack.retryBudget
      case Some(Some(n)) => Max(0, Min(MAX_RETRIES, n))
      case _ => MAX_RETRIES
  }

  // ----- one run's surroundings -----

  /**
   A completion fails with one of the two caught exceptions, answers, or calls a tool whose input the schema may refuse.
   */
  datatype Completion = CompletionFailed | Content(text: string) | Calls(name: string, input: Fields, valid: bool)

  /**
   What building a trace entry met: a caught exception, or the evaluator's patch and whether the schema accepts it.
   */
  datatype Observation = ObservationFailed | Observed(patch: Option<Fields>, valid: bool)

  datatype Env = Env(
    cfg: Config,
    allowed: seq<string>,
    resolve: map<string, string>,
    maxSteps: nat,
    budget: nat,
    model: nat -> Completion,
    node: nat -> NodeOracle,
    observe: nat -> Observation)

  // ----- progress -----

  datatype Action = CallTool | WaitUser

  datatype Entry = Entry(iteration: nat, action: Action, capability: string, callId: Option<nat>)

  datatype Stop = ModelFinal | BudgetExhausted

  datatype Exit =
    | Going
    | Silent
    | AnsweredBy(text: string)
    | WaitingForUser
    | Aborted
    | Finalized(answer: string, stop: Stop, lastCall: nat)
    | FinalFailed

  /** The loop's own variables, the state it threads and the database it writes. */
  datatype Progress = Progress(
    db: Db,
    state: RunState,
    effects: seq<Effect>,
    trace: seq<Entry>,
    executed: seq<string>,
    attempts: nat,
    retries: nat,
    completions: nat,
    seen: Observation,
    exit: Exit)

  function Start(db: Db, s: RunState): Progress {
    Progress(db, s, [], [], [], 0, 0, 0, ObservationFailed, Going)
  }

  function LastId(ids: seq<nat>): Option<nat> {
    if ids == [] then None else Some(ids[|ids| - 1])
  }

  // ----- the loop's steps -----

  /** `_prepare_native_tool_call`: the capability to run, if it is allowed, registered and its input valid. */
  function Resolved(env: Env, name: string): string {
    if name in env.resolve then env.resolve[name] else name
  }

  predicate Prepared(env: Env, c: Completion)
    requires c.Calls?
  {
    Resolved(env, c.name) in env.allowed && Find(env.cfg.capabilities, Resolved(env, c.name)).Some? && c.valid
  }

  /** `_blocked_native_tool_call_response`: a blocked call is logged and traced, but not executed. */
  function Block(p: Progress, tool: string): Progress {
    p.(db := RecordPair(p.db, p.state.run, tool, BlockedLog),
       state := Recorded(p.db, p.state, MaybeTool, true).(requestedTool := tool),
       trace := p.trace +
         [Entry(|p.trace| + 1, WaitUser, if tool == "" then "unknown_tool" else tool, Some(|p.db.toolLogs|))])
  }

  /** One entry of the tool node and its trace entry, first try and retry alike. */
  function Attempt(env: Env, p: Progress, tool: string, input: Fields): (q: Progress)
    ensures q.retries == p.retries && q.completions == p.completions && q.attempts == p.attempts + 1
  {
    var n := ToolNode(env.cfg, p.db, p.state.(requestedTool := tool, sourceType := "agent_chat"),
                      Command(tool, "agent_chat", false, input), env.node(p.attempts));
    var entry := Entry(|p.trace| + 1, CallTool, tool, LastId(n.state.toolCallIds));
    var q := p.(db := n.db, state := n.state, effects := p.effects + n.effects, attempts := p.attempts + 1,
                seen := env.observe(p.attempts));
    if n.state.step == WaitConfirmation || n.state.toolCallIds == [] then
      if q.seen.ObservationFailed? then q.(exit := Aborted) else q.(trace := p.trace + [entry], exit := WaitingForUser)
    else if q.seen.ObservationFailed? then q.(executed := p.executed + [tool], exit := Aborted)
    else q.(executed := p.executed + [tool], trace := p.trace + [entry])
  }

  /** `_loop_agent_reflection_retry_input`. */
  function RetryInput(env: Env, tool: string, input: Fields, seen: Observation): Option<Fields> {
    if tool != WEB_SEARCH || !seen.Observed? || seen.patch.None? || seen.patch.value == map[] then None
    else
      var next := input + seen.patch.value;
      if next == input || Lookup(env.cfg.registry, tool).None? || !seen.valid then None else Some(next)
  }

  /** The inner loop, entered after an attempt with this input. */
  function Retry(env: Env, p: Progress, tool: string, input: Fields): Progress
    decreases env.budget - p.retries
  {
    var next := RetryInput(env, tool, input, p.seen);
    if p.exit != Going || next.None? || p.retries >= env.budget then p
    else Retry(env, Attempt(env, p.(retries := p.retries + 1), tool, next.value), tool, next.value)
  }

  /** One round of the outer loop. */
  function Round(env: Env, p: Progress): Progress {
    var q := p.(completions := p.completions + 1);
    match env.model(p.completions)
    case CompletionFailed => q.(exit := Aborted)
    case Content(text) => q.(exit := if Strip(text) == "" then Silent else AnsweredBy(Strip(text)))
    case Calls(name, input, valid) =>
      var tool := Resolved(env, name);
      if Prepared(env, env.model(p.completions)) then Retry(env, Attempt(env, q, tool, input), tool, input)
      else Block(q, tool)
  }

  function Rounds(env: Env, p: Progress, left: nat): Progress
    decreases left
  {
    if left == 0 || p.exit != Going then p else Rounds(env, Round(env, p), left - 1)
  }

  function TextOf(c: Completion): string {
    if c.Content? then c.text else ""
  }

  /** `_finalize_native_tool_loop_completion` and the closing metadata, which names the last recorded call. */
  function Finish(env: Env, p: Progress): Progress
    requires p.state.toolCallIds != []
  {
    var id := LastId(p.state.toolCallIds).value;
    var first, second := env.model(p.completions), env.model(p.completions + 1);
    if first.CompletionFailed? then p.(completions := p.completions + 1, exit := FinalFailed)
    else if env.maxSteps > 1 && first.Calls? then
      p.(completions := p.completions + 2,
         exit := if second.CompletionFailed? then FinalFailed else Finalized(TextOf(second), BudgetExhausted, id))
    else p.(completions := p.completions + 1, exit := Finalized(TextOf(first), ModelFinal, id))
  }

  // ----- what every run of the loop keeps -----

  /** The capabilities of the CALL_TOOL entries, in order; `executed_step_count` is their number. */
  function Called(trace: seq<Entry>): seq<string> {
    if trace == [] then []
    else
      Called(trace[..|trace| - 1]) +
      (if trace[|trace| - 1].action == CallTool then [trace[|trace| - 1].capability] else [])
  }

  function Executions(effects: seq<Effect>): nat {
    if effects == [] then 0
    else Executions(effects[..|effects| - 1]) + (if effects[|effects| - 1].Executed? then 1 else 0)
  }

  lemma {:induction false} ExecutionsConcat(a: seq<Effect>, b: seq<Effect>)
    ensures Executions(a + b) == Executions(a) + Executions(b)
  {
    if b == [] {
      assert a + b == a;
    } else {
      assert (a + b)[..|a + b| - 1] == a + b[..|b| - 1];
      ExecutionsConcat(a, b[..|b| - 1]);
    }
  }

  lemma CalledLonger(trace: seq<Entry>, entry: Entry)
    ensures Called(trace + [entry]) == Called(trace) + (if entry.action == CallTool then [entry.capability] else [])
  {
    assert (trace + [entry])[..|trace|] == trace;
  }

  /** Trace iterations are exactly 1, 2, 3, ... */
  predicate NumberedFromOne(trace: seq<Entry>) {
    forall i :: 0 <= i < |trace| ==> trace[i].iteration == i + 1
  }

  /**
   The trace and the executed names agree; a pause traces one call that the names leave out, an abort may leave one out
   of the trace.
   */
  predicate Agree(p: Progress) {
    && NumberedFromOne(p.trace)
    && |Called(p.trace)| <= p.attempts <= |Called(p.trace)| + (if p.exit == Aborted then 1 else 0)
    && (p.exit == WaitingForUser ==> p.executed <= Called(p.trace) && |Called(p.trace)| == |p.executed| + 1)
    && (p.exit == Aborted ==> Called(p.trace) <= p.executed && |p.executed| <= p.attempts)
    && (p.exit != WaitingForUser && p.exit != Aborted ==> p.executed == Called(p.trace))
  }

  /** Every entry of the node is for an allowed capability, unconfirmed, and each executes at most once. */
  predicate Contained(env: Env, p: Progress) {
    && (forall e <- p.effects :: e.Entered? ==> e.tool in env.allowed && !e.confirmed)
    && Executions(p.effects) <= p.attempts <= p.completions + p.retries
    && p.retries <= env.budget
  }

  ghost predicate Kept(env: Env, db: Db, s: RunState, p: Progress) {
    && Advances(env.cfg, db, s, p.db, p.state, p.effects, false)
    && Agree(p) && Contained(env, p)
    && !p.exit.Finalized? && !p.exit.FinalFailed?
  }

  lemma NothingDone(env: Env, db: Db, s: RunState)
    ensures Kept(env, db, s, Start(db, s))
  {
    AdvancesNot(env.cfg, db, s, false);
  }

  lemma BlockKeeps(env: Env, db: Db, s: RunState, p: Progress, tool: string)
    requires Kept(env, db, s, p) && p.exit == Going
    ensures Kept(env, db, s, Block(p, tool)) && Block(p, tool).state.toolCallIds != []
  {
    hide Advances;
    var q := Block(p, tool);
    assert GuardedLogged([]) == 0;
    RecordAdvances(env.cfg, p.db, p.state, tool, BlockedLog, q.state, [], false);
    AdvancesTwice(env.cfg, db, s, p.db, p.state, q.db, q.state, p.effects, [], false);
    assert p.effects + [] == p.effects;
    CalledLonger(p.trace, q.trace[|p.trace|]);
  }

  /** The node's part of an attempt. */
  lemma NodeKeeps(env: Env, db: Db, s: RunState, p: Progress, tool: string, input: Fields)
    requires Advances(env.cfg, db, s, p.db, p.state, p.effects, false) && Contained(env, p) && tool in env.allowed
    requires p.attempts + 1 <= p.completions + p.retries
    ensures var q := Attempt(env, p, tool, input);
            Advances(env.cfg, db, s, q.db, q.state, q.effects, false) && Contained(env, q)
  {
    hide Advances, ToolNode, Executions;
    var t := p.state.(requestedTool := tool, sourceType := "agent_chat");
    var cmd := Command(tool, "agent_chat", false, input);
    var n := ToolNode(env.cfg, p.db, t, cmd, env.node(p.attempts));
    NodeAdvances(env.cfg, p.db, t, cmd, env.node(p.attempts));
    AdvancesFrom(env.cfg, p.db, t, p.state, n.db, n.state, n.effects, false);
    AdvancesTwice(env.cfg, db, s, p.db, p.state, n.db, n.state, p.effects, n.effects, false);
    ExecutionsConcat(p.effects, n.effects);
    ExecutesOnce(n.effects);
  }

  /** An attempt on an allowed tool. */
  lemma AttemptKeeps(env: Env, db: Db, s: RunState, p: Progress, tool: string, input: Fields)
    requires Kept(env, db, s, p) && p.exit == Going && tool in env.allowed
    requires p.attempts + 1 <= p.completions + p.retries
    ensures var q := Attempt(env, p, tool, input);
            Kept(env, db, s, q) && (q.exit == Going ==> q.state.toolCallIds != [])
  {
    hide Advances, Contained, ToolNode, Called;
    NodeKeeps(env, db, s, p, tool, input);
    var t := p.state.(requestedTool := tool, sourceType := "agent_chat");
    var n := ToolNode(env.cfg, p.db, t, Command(tool, "agent_chat", false, input), env.node(p.attempts));
    CalledLonger(p.trace, Entry(|p.trace| + 1, CallTool, tool, LastId(n.state.toolCallIds)));
  }

  lemma ExecutesOnce(effects: seq<Effect>)
    requires 1 <= |effects| <= 2 && effects[0].Entered?
    ensures Executions(effects) <= 1
  {
    var first := effects[..1];
    assert first[..0] == [] && Executions(first) == 0;
    assert |effects| == 1 ==> effects == first;
    assert |effects| == 2 ==> effects[..|effects| - 1] == first;
  }

  lemma {:induction false} RetryKeeps(env: Env, db: Db, s: RunState, p: Progress, tool: string, input: Fields)
    requires Kept(env, db, s, p) && tool in env.allowed
    requires p.exit == Going ==> p.state.toolCallIds != []
    ensures var q := Retry(env, p, tool, input);
            && Kept(env, db, s, q) && q.completions == p.completions && (q.exit == Going ==> q.state.toolCallIds != [])
    decreases env.budget - p.retries
  {
    hide Advances, Agree, Attempt, Executions;
    var next := RetryInput(env, tool, input, p.seen);
    if p.exit == Going && next.Some? && p.retries < env.budget {
      var r := p.(retries := p.retries + 1);
      assert Agree(r) by { RetryAgrees(p); }
      AttemptKeeps(env, db, s, r, tool, next.value);
      RetryKeeps(env, db, s, Attempt(env, r, tool, next.value), tool, next.value);
    }
  }

  lemma RetryAgrees(p: Progress)
    requires Agree(p)
    ensures Agree(p.(retries := p.retries + 1)) && Agree(p.(completions := p.completions + 1))
  {
    hide Called;
  }

  lemma AskedKeeps(env: Env, db: Db, s: RunState, p: Progress)
    requires Kept(env, db, s, p)
    ensures Kept(env, db, s, p.(completions := p.completions + 1)) && p.attempts <= p.completions + p.retries
  {
    hide Advances, Executions, Called;
    RetryAgrees(p);
  }

  lemma EndedKeeps(env: Env, db: Db, s: RunState, p: Progress, exit: Exit)
    requires Kept(env, db, s, p) && p.exit == Going && (exit == Aborted || exit == Silent || exit.AnsweredBy?)
    ensures Kept(env, db, s, p.(exit := exit))
  {
    hide Advances, Executions, Called;
  }

  lemma RoundKeeps(env: Env, db: Db, s: RunState, p: Progress)
    requires Kept(env, db, s, p) && p.exit == Going
    ensures var q := Round(env, p);
            && Kept(env, db, s, q) && q.completions == p.completions + 1 &&
               (q.exit == Going ==> q.state.toolCallIds != [])
  {
    hide Kept, Attempt, Block, Retry, Resolved;
    var q := p.(completions := p.completions + 1);
    AskedKeeps(env, db, s, p);
    match env.model(p.completions)
    case CompletionFailed => EndedKeeps(env, db, s, q, Aborted);
    case Content(text) => EndedKeeps(env, db, s, q, if Strip(text) == "" then Silent else AnsweredBy(Strip(text)));
    case Calls(name, input, _) =>
      var tool := Resolved(env, name);
      if Prepared(env, env.model(p.completions)) {
        AttemptKeeps(env, db, s, q, tool, input);
        RetryKeeps(env, db, s, Attempt(env, q, tool, input), tool, input);
      } else {
        BlockKeeps(env, db, s, q, tool);
        BlockCounts(q, tool);
      }
  }

  lemma BlockCounts(p: Progress, tool: string)
    ensures Block(p, tool).completions == p.completions && Block(p, tool).exit == p.exit
  {
  }

  lemma {:induction false} RoundsKeep(env: Env, db: Db, s: RunState, p: Progress, left: nat)
    requires Kept(env, db, s, p) && (p.completions > 0 && p.exit == Going ==> p.state.toolCallIds != [])
    ensures var q := Rounds(env, p, left);
            && Kept(env, db, s, q)
            && q.completions <= p.completions + left
            && (q.exit == Going && left > 0 ==> q.state.toolCallIds != [])
    decreases left
  {
    hide Kept, Round;
    if left > 0 && p.exit == Going {
      RoundKeeps(env, db, s, p);
      RoundsKeep(env, db, s, Round(env, p), left - 1);
    }
  }

  /** After every round the last recorded call exists, so the closing metadata can name it. */
  lemma RoundsFrom(env: Env, db: Db, s: RunState)
    requires env.maxSteps >= 1
    ensures var q := Rounds(env, Start(db, s), env.maxSteps);
            && Kept(env, db, s, q) && q.completions <= env.maxSteps && (q.exit == Going ==> q.state.toolCallIds != [])
  {
    hide Kept, Rounds;
    NothingDone(env, db, s);
    RoundsKeep(env, db, s, Start(db, s), env.maxSteps);
  }

  /** The loop of an enabled policy, which always allows a step. */
  function Whole(env: Env, db: Db, s: RunState): Progress
    requires env.maxSteps >= 1
  {
    RoundsFrom(env, db, s);
    var p := Rounds(env, Start(db, s), env.maxSteps);
    if p.exit == Going then Finish(env, p) else p
  }

  /**
   Whatever the model, the tools and the evaluator answer, the loop ends; its node entries are at most the steps and the
   shared retry budget together, each on an allowed capability and unconfirmed, each executing at most once; it asks the
   model at most two times more than it has steps; trace iterations are 1..n; the executed step count is the number of
   node entries, unless an exception kept one out of the trace; and the run's logs, transcript and ids stay in step.
   */
  lemma LoopIsBounded(env: Env, db: Db, s: RunState)
    requires env.maxSteps >= 1
    ensures var p := Whole(env, db, s);
            && p.retries <= env.budget
            && p.attempts <= env.maxSteps + env.budget && Executions(p.effects) <= p.attempts
            && p.completions <= env.maxSteps + (if env.maxSteps > 1 then 2 else 1)
            && (forall e <- p.effects :: e.Entered? ==> e.tool in env.allowed && !e.confirmed)
            && Advances(env.cfg, db, s, p.db, p.state, p.effects, false)
            && p.exit != Going
    ensures Agree(Whole(env, db, s))
  {
    hide Advances, Rounds, Executions, Called;
    RoundsFrom(env, db, s);
  }

  /** A loop that closes names the last call it recorded, and its names are those of its CALL_TOOL entries. */
  lemma ClosingNamesLastCall(env: Env, db: Db, s: RunState)
    requires env.maxSteps >= 1 && Whole(env, db, s).exit.Finalized?
    ensures var p := Whole(env, db, s);
            && p.executed == Called(p.trace)
            && p.state.toolCallIds != [] && p.exit.lastCall == p.state.toolCallIds[|p.state.toolCallIds| - 1]
            && (p.exit.stop == BudgetExhausted ==> env.maxSteps > 1)
  {
    hide Rounds, Called, Advances;
    RoundsFrom(env, db, s);
  }

  // ----- the node -----

  /** What the policy of a context pack allows the loop: nothing unless every allowed name is the web search. */
  lemma PolicyIsBounded(pack: ContextPack)
    ensures PolicySteps(pack).Some? ==>
            1 <= PolicySteps(pack).value <= MAX_STEPS && forall n <- Nonblank(pack.allowed) :: n == WEB_SEARCH
    ensures RetryBudget(pack) <= MAX_RETRIES
  {
  }

  /** The outer and the inner loop, over the loop's own variables. */
  method RunLoop(env: Env, db: Db, s: RunState) returns (p: Progress)
    requires env.maxSteps >= 1
    ensures p == Whole(env, db, s)
  {
    hide Attempt, Block, Finish;
    p := Start(db, s);
    for i := 0 to env.maxSteps
      invariant p.exit == Going && Rounds(env, p, env.maxSteps - i) == Rounds(env, Start(db, s), env.maxSteps)
    {
      var before := p;
      var completion := env.model(p.completions);
      p := p.(completions := p.completions + 1);
      if completion.CompletionFailed? {
        p := p.(exit := Aborted);
        return;
      }
      if completion.Content? {
        var content := Strip(completion.text);
        p := p.(exit := if content == "" then Silent else AnsweredBy(content));
        return;
      }
      var tool, input := Resolved(env, completion.name), completion.input;
      if !Prepared(env, completion) {
        p := Block(p, tool);
        BlockCounts(before.(completions := before.completions + 1), tool);
        continue;
      }
      p := Attempt(env, p, tool, input);
      p := RetryWhile(env, p, tool, input);
      if p.exit != Going {
        return;
      }
    }
    RoundsFrom(env, db, s);
    p := Finish(env, p);
  }

  /** The inner loop: it stops on an exit, on a result that needs no retry, or when the budget is spent. */
  method RetryWhile(env: Env, first: Progress, tool: string, firstInput: Fields) returns (p: Progress)
    ensures p == Retry(env, first, tool, firstInput)
  {
    hide Attempt;
    p := first;
    var input := firstInput;
    while p.exit == Going && RetryInput(env, tool, input, p.seen).Some? && p.retries < env.budget
      invariant Retry(env, p, tool, input) == Retry(env, first, tool, firstInput)
      decreases env.budget - p.retries
    {
      input := RetryInput(env, tool, input, p.seen).value;
      p := Attempt(env, p.(retries := p.retries + 1), tool, input);
    }
  }

  /**
   `_native_tool_loop_node`: no change without an enabled policy and a registered tool, at most eight executions with
   one.
   */
  method NativeToolLoopNode(
      cfg: Config, pack: ContextPack, model: nat -> Completion, node: nat -> NodeOracle, observe: nat -> Observation,
      db: Db, s: RunState) returns (p: Progress)
    ensures PolicySteps(pack).None? || WEB_SEARCH !in cfg.capabilities ==> p == Start(db, s)
    ensures Executions(p.effects) <= p.attempts <= MAX_STEPS + MAX_RETRIES && p.completions <= MAX_STEPS + 2
    ensures forall e <- p.effects :: e.Entered? ==> e.tool == WEB_SEARCH && !e.confirmed
    ensures Advances(cfg, db, s, p.db, p.state, p.effects, false) && Agree(p)
  {
    hide Advances, Agree, Rounds, Executions, Whole, PolicySteps, RetryBudget, Nonblank;
    hide ToolAliases.OffersFor, ToolAliases.Known, ToolAliases.Resolution;
    p := Start(db, s);
    assert Advances(cfg, db, s, db, s, [], false) by { AdvancesNot(cfg, db, s, false); }
    assert Executions([]) == 0 && Agree(p) by { NothingCounted(db, s); }
    var steps := PolicySteps(pack);
    if steps.None? { return; }
    var allowed := Nonblank(pack.allowed);
    var offers, resolve := ToolAliases.BuildBundle(cfg.capabilities.Keys, allowed);
    PolicyIsBounded(pack);
    assert WEB_SEARCH !in cfg.capabilities ==> offers == [] by {
      if WEB_SEARCH !in cfg.capabilities {
        ToolAliases.NothingKnown(allowed, cfg.capabilities.Keys);
        ToolAliases.OffersMatch(offers, []);
      }
    }
    if offers == [] { return; }
    var env := Env(cfg, allowed, resolve, steps.value, RetryBudget(pack), model, node, observe);
    p := RunLoop(env, db, s);
    LoopIsBounded(env, db, s);
  }

  lemma NothingCounted(db: Db, s: RunState)
    ensures Executions([]) == 0 && Agree(Start(db, s))
  {
  }
}
