/**
 The delegation summaries of a run's events (runtimeDelegations.ts). An optional field that is missing, null or empty is
 "" here: the source treats the three alike.
 */
module Delegations {

  datatype EventType = SubagentStarted | SubagentFinished | SubagentToolStarted | SubagentToolFinished | OtherEvent

  datatype Event = Event(
    id: string,
    eventType: EventType,
    toolCallId: string,
    delegationId: string,
    toolName: string,
    parentCapability: string,
    executorId: string,
    agentName: string,
    status: string)

  datatype Status = Running | Succeeded | Failed | WaitingUser | Unknown

  datatype Summary = Summary(id: string, capability: string, name: string, status: Status, mcpCallCount: nat,
                             lastEvent: Event)

  // ----- what one event says -----

  /** JavaScript's `||` on strings. */
  function Or(a: string, b: string): string {
    if a != "" then a else b
  }

  predicate Lifecycle(e: Event) {
    e.eventType == SubagentStarted || e.eventType == SubagentFinished
  }

  predicate Relevant(e: Event) {
    e.eventType != OtherEvent
  }

  function RunId(e: Event): string {
    Or(e.delegationId,
       "legacy:" + Or(Or(e.parentCapability, e.toolName), "subagent") + ":" + Or(e.agentName, "unknown"))
  }

  function CapabilityOf(e: Event): (c: string)
    ensures c != ""
  {
    Or(Or(Or(e.parentCapability, if "agent." <= e.toolName then e.toolName else ""), e.toolName), "子 Agent")
  }

  predicate Includes(s: string, part: string) {
    exists i :: 0 <= i <= |s| && part <= s[i..]
  }

  function FallbackName(capability: string, executorId: string): string {
    if capability == "agent.google_chrome" then "Google Chrome Agent"
    else if capability == "agent.dbx_readonly" then "DBX 只读 Agent"
    else if Includes(executorId, "openai") then "OpenAI SDK Agent"
    else if Includes(executorId, "claude") then "Claude SDK Agent"
    else "能力子 Agent"
  }

  function NameIn(e: Event): string {
    Or(e.agentName, FallbackName(CapabilityOf(e), e.executorId))
  }

  predicate Placeholder(name: string) {
    name == "能力子 Agent" || name == "子 Agent"
  }

  /** `lifecycleStatus`. */
  function LifecycleStatus(e: Event): Status {
    if e.eventType == SubagentStarted then Running
    else if e.status == "waiting_user" || e.status == "needs_approval" then WaitingUser
    else if e.status == "failed" || e.status == "error" then Failed
    else if e.status == "succeeded" || e.status == "success" then Succeeded
    else Unknown
  }

  function CallKey(e: Event): string {
    Or(e.toolCallId, e.id)
  }

  // ----- the group-by -----

  /** The events of one run, in order. */
  function Group(events: seq<Event>, id: string): seq<Event> {
    if events == [] then []
    else
      var last := events[|events| - 1];
      Group(events[..|events| - 1], id) + (if Relevant(last) && RunId(last) == id then [last] else [])
  }

  /** The runs, in the order they first appear. */
  function Order(events: seq<Event>): seq<string> {
    if events == [] then []
    else
      var front, last := Order(events[..|events| - 1]), events[|events| - 1];
      if Relevant(last) && RunId(last) !in front then front + [RunId(last)] else front
  }

  /** The first name that is not a placeholder, or else the last event's. */
  function NameOf(group: seq<Event>): string
    requires group != []
  {
    if !Placeholder(NameIn(group[0])) || |group| == 1 then NameIn(group[0]) else NameOf(group[1..])
  }

  /** The last lifecycle event decides. */
  function StatusOf(group: seq<Event>): Status {
    if group == [] then Unknown
    else if Lifecycle(group[|group| - 1]) then LifecycleStatus(group[|group| - 1])
    else StatusOf(group[..|group| - 1])
  }

  function CallKeys(group: seq<Event>): set<string> {
    set e | e in group && e.eventType == SubagentToolStarted :: CallKey(e)
  }

  function SummaryOf(id: string, group: seq<Event>): Summary
    requires group != []
  {
    Summary(id, CapabilityOf(group[0]), NameOf(group), StatusOf(group), |CallKeys(group)|, group[|group| - 1])
  }

  lemma {:induction false} OrderIsDistinct(events: seq<Event>)
    ensures forall i, j :: 0 <= i < j < |Order(events)| ==> Order(events)[i] != Order(events)[j]
    ensures forall id :: id in Order(events) <==> Group(events, id) != []
  {
    if events == [] {
    } else {
      OrderIsDistinct(events[..|events| - 1]);
    }
  }

  function Summaries(events: seq<Event>): (s: seq<Summary>)
    ensures |s| == |Order(events)|
    ensures forall i :: 0 <= i < |s| ==>
            Group(events, Order(events)[i]) != [] &&
              s[i] == SummaryOf(Order(events)[i], Group(events, Order(events)[i]))
  {
    OrderIsDistinct(events);
    seq(|Order(events)|,
        i requires 0 <= i < |Order(events)| => SummaryOf(Order(events)[i], Group(events, Order(events)[i])))
  }

  // ----- one more event -----

  lemma {:induction false} NameGrows(group: seq<Event>, e: Event)
    requires group != []
    ensures NameOf(group + [e]) == (if Placeholder(NameOf(group)) then NameIn(e) else NameOf(group))
  {
    if !Placeholder(NameIn(group[0])) {
    } else if |group| == 1 {
      assert (group + [e])[1..] == [e];
    } else {
      assert (group + [e])[1..] == group[1..] + [e];
      NameGrows(group[1..], e);
    }
  }

  lemma CallsGrow(group: seq<Event>, e: Event)
    ensures CallKeys(group + [e]) == CallKeys(group) + (if e.eventType == SubagentToolStarted then {CallKey(e)} else {})
  {
    forall k | k in CallKeys(group) + (if e.eventType == SubagentToolStarted then {CallKey(e)} else {})
      ensures k in CallKeys(group + [e])
    {
      if k in CallKeys(group) {
        var x :| x in group && x.eventType == SubagentToolStarted && CallKey(x) == k;
        assert x in group + [e];
      } else {
        assert e in group + [e];
      }
    }
  }

  /** How one more event of its run changes a summary. */
  function Updated(s: Summary, e: Event, newCall: bool): Summary {
    Summary(s.id, s.capability,
            if Placeholder(s.name) then NameIn(e) else s.name,
            if Lifecycle(e) then LifecycleStatus(e) else s.status,
            if newCall then s.mcpCallCount + 1 else s.mcpCallCount,
            e)
  }

  lemma SummaryGrows(id: string, group: seq<Event>, e: Event)
    requires group != []
    ensures SummaryOf(id, group + [e]) ==
            Updated(SummaryOf(id, group), e, e.eventType == SubagentToolStarted && CallKey(e) !in CallKeys(group))
  {
    hide NameOf, StatusOf, CallKeys, NameIn, CapabilityOf;
    NameGrows(group, e);
    CallCountGrows(group, e);
    StatusGrows(group, e);
  }

  lemma CallCountGrows(group: seq<Event>, e: Event)
    ensures |CallKeys(group + [e])| ==
            |CallKeys(group)| + (if e.eventType == SubagentToolStarted && CallKey(e) !in CallKeys(group) then 1 else 0)
  {
    hide CallKeys;
    CallsGrow(group, e);
    if e.eventType == SubagentToolStarted && CallKey(e) in CallKeys(group) {
      assert CallKeys(group) + {CallKey(e)} == CallKeys(group);
    }
  }

  lemma StatusGrows(group: seq<Event>, e: Event)
    ensures StatusOf(group + [e]) == (if Lifecycle(e) then LifecycleStatus(e) else StatusOf(group))
  {
    assert (group + [e])[..|group|] == group;
  }

  /** A run's first event. */
  lemma SummaryStarts(id: string, e: Event)
    ensures CallKeys([e]) == (if e.eventType == SubagentToolStarted then {CallKey(e)} else {})
    ensures SummaryOf(id, [e]) ==
            Summary(id, CapabilityOf(e), NameIn(e), if Lifecycle(e) then LifecycleStatus(e) else Unknown,
                    if e.eventType == SubagentToolStarted then 1 else 0, e)
  {
    hide NameOf, StatusOf, CallKeys, NameIn, CapabilityOf;
    assert [] + [e] == [e];
    CallsGrow([], e);
    CallCountGrows([], e);
    StatusGrows([], e);
    NothingCalled();
    NameOfOne(e);
  }

  lemma NothingCalled()
    ensures CallKeys([]) == {} && StatusOf([]) == Unknown
  {
  }

  lemma NameOfOne(e: Event)
    ensures NameOf([e]) == NameIn(e)
  {
  }

  // ----- the fold -----

  /** A summary under construction, with the call keys it has counted. */
  datatype MutableSummary = MutableSummary(summary: Summary, mcpCallKeys: set<string>)

  function Built(id: string, group: seq<Event>): MutableSummary
    requires group != []
  {
    MutableSummary(SummaryOf(id, group), CallKeys(group))
  }

  /** The entries of the map, after some events: a map iterates in the order its keys were first set. */
  ghost predicate Holds(keys: seq<string>, runs: map<string, MutableSummary>, events: seq<Event>) {
    && keys == Order(events)
    && (forall id :: id in runs <==> id in keys)
    && (forall id <- runs :: Group(events, id) != [] && runs[id] == Built(id, Group(events, id)))
  }

  /** A summary before its first event is counted. */
  function Fresh(id: string, e: Event): MutableSummary {
    MutableSummary(Summary(id, CapabilityOf(e), NameIn(e), Unknown, 0, e), {})
  }

  /** One turn of the loop on a relevant event, whether its run is new or not. */
  method AddEvent(current: MutableSummary, e: Event) returns (run: MutableSummary)
    requires current.summary.capability != ""
    ensures run.summary ==
            Updated(current.summary, e, e.eventType == SubagentToolStarted && CallKey(e) !in current.mcpCallKeys)
    ensures run.mcpCallKeys == current.mcpCallKeys + (if e.eventType == SubagentToolStarted then {CallKey(e)} else {})
  {
    var capability := CapabilityOf(e);
    var summary, keys := current.summary, current.mcpCallKeys;
    summary := summary.(capability := Or(summary.capability, capability));
    if summary.name == "能力子 Agent" || summary.name == "子 Agent" {
      summary := summary.(name := Or(e.agentName, FallbackName(capability, e.executorId)));
    }
    summary := summary.(lastEvent := e);
    if e.eventType == SubagentToolStarted {
      var key := CallKey(e);
      if key !in keys {
        keys := keys + {key};
        summary := summary.(mcpCallCount := summary.mcpCallCount + 1);
      }
    }
    if Lifecycle(e) {
      summary := summary.(status := LifecycleStatus(e));
    }
    run := MutableSummary(summary, keys);
  }

  /** Adding an event to a run built so far, or to a fresh one, builds the run with that event. */
  lemma AddedIsBuilt(id: string, group: seq<Event>, e: Event, current: MutableSummary, run: MutableSummary)
    requires current == (if group == [] then Fresh(id, e) else Built(id, group))
    requires run.summary ==
             Updated(current.summary, e, e.eventType == SubagentToolStarted && CallKey(e) !in current.mcpCallKeys)
    requires run.mcpCallKeys == current.mcpCallKeys + (if e.eventType == SubagentToolStarted then {CallKey(e)} else {})
    ensures run == Built(id, group + [e])
  {
    hide NameOf, StatusOf, CallKeys, NameIn;
    CallsGrow(group, e);
    if group == [] {
      SummaryStarts(id, e);
      assert group + [e] == [e];
    } else {
      SummaryGrows(id, group, e);
    }
  }

  /** `summarizeRuntimeDelegations`: the fold over a mutable map is the group-by. */
  method SummarizeRuntimeDelegations(events: seq<Event>) returns (summaries: seq<Summary>)
    ensures summaries == Summaries(events)
  {
    hide Group, Order, SummaryOf, RunId, CallKeys, Summaries;
    var keys: seq<string>, runs: map<string, MutableSummary> := [], map[];
    NothingYet();
    for i := 0 to |events|
      invariant Holds(keys, runs, events[..i])
    {
      var e := events[i];
      var id := RunId(e);
      assert events[..i + 1] == events[..i] + [e];
      if !Relevant(e) {
        IrrelevantHolds(keys, runs, events[..i], e);
        continue;
      }
      OrderIsDistinct(events[..i]);
      var current := if id in runs then runs[id] else Fresh(id, e);
      BuiltHasCapability(id, Group(events[..i], id));
      var run := AddEvent(current, e);
      AddedIsBuilt(id, Group(events[..i], id), e, current, run);
      RelevantHolds(keys, runs, events[..i], e, run);
      keys := if id in runs then keys else keys + [id];
      runs := runs[id := run];
    }
    assert events[..|events|] == events;
    summaries := Values(keys, runs, events);
  }

  /** `Array.from(runs.values())`, without the keys counted. */
  method Values(keys: seq<string>, runs: map<string, MutableSummary>, ghost events: seq<Event>)
    returns (values: seq<Summary>)
    requires Holds(keys, runs, events)
    ensures values == Summaries(events)
  {
    hide Group, Order, SummaryOf, CallKeys;
    values := [];
    for i := 0 to |keys|
      invariant |values| == i && forall k :: 0 <= k < i ==> values[k] == Summaries(events)[k]
    {
      values := values + [runs[keys[i]].summary];
    }
  }

  lemma BuiltHasCapability(id: string, group: seq<Event>)
    ensures group != [] ==> Built(id, group).summary.capability != ""
  {
  }

  lemma NothingYet()
    ensures Holds([], map[], [])
  {
  }

  lemma IrrelevantHolds(keys: seq<string>, runs: map<string, MutableSummary>, events: seq<Event>, e: Event)
    requires Holds(keys, runs, events) && !Relevant(e)
    ensures Holds(keys, runs, events + [e])
  {
    hide RunId, SummaryOf, CallKeys;
    AppendGroups(events, e);
  }

  /** One more event: only its own run's group grows. */
  lemma AppendGroups(events: seq<Event>, e: Event)
    ensures forall id ::
            Group(events + [e], id) ==
              (if Relevant(e) && RunId(e) == id then Group(events, id) + [e] else Group(events, id))
    ensures Order(events + [e]) ==
            (if Relevant(e) && RunId(e) !in Order(events) then Order(events) + [RunId(e)] else Order(events))
  {
    hide RunId;
    assert (events + [e])[..|events|] == events;
  }

  lemma RelevantHolds(keys: seq<string>, runs: map<string, MutableSummary>, events: seq<Event>, e: Event,
                      run: MutableSummary)
    requires Holds(keys, runs, events) && Relevant(e) && run == Built(RunId(e), Group(events, RunId(e)) + [e])
    ensures Holds(if RunId(e) in runs then keys else keys + [RunId(e)], runs[RunId(e) := run], events + [e])
  {
    hide RunId, SummaryOf, CallKeys, Group, Order;
    AppendGroups(events, e);
  }

  // ----- what the summaries do not depend on -----

  /** An event changes the summary of its own run only, and adds at most that run, at the end. */
  lemma AppendTouchesOneRun(events: seq<Event>, e: Event)
    ensures var before, after := Summaries(events), Summaries(events + [e]);
            && |before| <= |after| <= |before| + 1
            && (!Relevant(e) ==> after == before)
            && (forall i :: 0 <= i < |before| ==>
                after[i].id == before[i].id && (before[i].id != RunId(e) ==> after[i] == before[i]))
            && (|after| > |before| ==> after[|before|].id == RunId(e))
  {
    hide RunId, Group, Order, NameOf, StatusOf, CallKeys;
    AppendGroups(events, e);
  }

  /** Events may be reordered as long as each run keeps its own order: then the same summaries come out, run by run. */
  lemma ReorderingKeepsSummaries(a: seq<Event>, b: seq<Event>)
    requires forall id :: Group(a, id) == Group(b, id)
    ensures multiset(Summaries(a)) == multiset(Summaries(b))
  {
    hide RunId, Group, Order, SummaryOf;
    OrderIsDistinct(a);
    OrderIsDistinct(b);
    SummariesAreDistinct(a);
    SummariesAreDistinct(b);
    forall s | s in Summaries(a) ensures s in Summaries(b) { SummaryFound(a, b, s); }
    forall s | s in Summaries(b) ensures s in Summaries(a) { SummaryFound(b, a, s); }
    forall s ensures multiset(Summaries(a))[s] == multiset(Summaries(b))[s] {
      OnceAtMost(Summaries(a), s);
      OnceAtMost(Summaries(b), s);
    }
  }

  lemma SummariesAreDistinct(events: seq<Event>)
    ensures forall i, j :: 0 <= i < j < |Summaries(events)| ==> Summaries(events)[i] != Summaries(events)[j]
  {
    hide Group, Order;
    OrderIsDistinct(events);
  }

  lemma SummaryFound(a: seq<Event>, b: seq<Event>, s: Summary)
    requires (forall id :: Group(a, id) == Group(b, id)) && s in Summaries(a)
    ensures s in Summaries(b)
  {
    hide RunId, Group, Order, SummaryOf;
    OrderIsDistinct(b);
    var i :| 0 <= i < |Summaries(a)| && Summaries(a)[i] == s;
    assert Order(a)[i] in Order(b);
    var j :| 0 <= j < |Order(b)| && Order(b)[j] == Order(a)[i];
    assert Summaries(b)[j] == s;
  }

  lemma {:induction false} OnceAtMost<T>(s: seq<T>, x: T)
    requires forall i, j :: 0 <= i < j < |s| ==> s[i] != s[j]
    ensures multiset(s)[x] == (if x in s then 1 else 0)
  {
    if s == [] {
    } else {
      OnceAtMost(s[1..], x);
      assert s == [s[0]] + s[1..];
    }
  }

  /** Swapping two neighbouring events of different runs keeps every run's order. */
  lemma SwapKeepsGroups(before: seq<Event>, x: Event, y: Event, rest: seq<Event>, id: string)
    requires RunId(x) != RunId(y) || !Relevant(x) || !Relevant(y)
    ensures Group(before + [x, y] + rest, id) == Group(before + [y, x] + rest, id)
  {
    hide RunId;
    AppendGroups(before, x);
    AppendGroups(before, y);
    AppendGroups(before + [x], y);
    AppendGroups(before + [y], x);
    assert before + [x] + [y] == before + [x, y] && before + [y] + [x] == before + [y, x];
    GroupConcat(before + [x, y], rest, id);
    GroupConcat(before + [y, x], rest, id);
  }

  lemma {:induction false} GroupConcat(a: seq<Event>, b: seq<Event>, id: string)
    ensures Group(a + b, id) == Group(a, id) + Group(b, id)
  {
    hide RunId;
    if b == [] {
      assert a + b == a;
    } else {
      assert (a + b)[..|a + b| - 1] == a + b[..|b| - 1];
      GroupConcat(a, b[..|b| - 1], id);
    }
  }

  /** A repeated start of a call already started does not count again. */
  lemma RepeatedStartCountsOnce(id: string, group: seq<Event>, e: Event)
    requires e in group && e.eventType == SubagentToolStarted
    ensures SummaryOf(id, group + [e]).mcpCallCount == SummaryOf(id, group).mcpCallCount
  {
    SummaryGrows(id, group, e);
  }
}
