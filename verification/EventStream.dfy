/**
 Reading the agent's event stream (agent.ts): decoded chunks are buffered, cut on empty lines and dispatched.
 The format is a subset of "Parsing an event stream" and "Interpreting an event stream", sections 9.2.5 and 9.2.6 of the
 WHATWG HTML Standard: one `event:` line and one `data:` line per event, and line feeds only.
 */
module EventStream {
  import opened Values

  // ----- cutting a text -----

  /** `text.split("\n\n")`. */
  function Parts(s: string): (r: seq<string>)
    ensures |r| > 0
  {
    if |s| < 2 then [s]
    else if s[0] == '\n' && s[1] == '\n' then [""] + Parts(s[2..])
    else
      var rest := Parts(s[1..]);
      [[s[0]] + rest[0]] + rest[1..]
  }

  function Last(parts: seq<string>): string
    requires parts != []
  {
    parts[|parts| - 1]
  }

  function ButLast(parts: seq<string>): seq<string>
    requires parts != []
  {
    parts[..|parts| - 1]
  }

  /** Cutting a text and then cutting its open last part together with what follows is cutting the whole. */
  lemma {:induction false} CutThenContinue(a: string, b: string)
    ensures Parts(a + b) == ButLast(Parts(a)) + Parts(Last(Parts(a)) + b)
  {
    if |a| < 2 {
    } else if a[0] == '\n' && a[1] == '\n' {
      assert (a + b)[2..] == a[2..] + b;
      CutThenContinue(a[2..], b);
    } else {
      assert (a + b)[1..] == a[1..] + b;
      CutThenContinue(a[1..], b);
      if |Parts(a[1..])| == 1 {
        OnePart(a[1..]);
        assert a == [a[0]] + a[1..];
      } else {
        FirstOfMany(a[0], Parts(a[1..]), Parts(Last(Parts(a[1..])) + b));
      }
    }
  }

  /** A character put before the first of several parts stays clear of the last. */
  lemma FirstOfMany(c: char, parts: seq<string>, more: seq<string>)
    requires |parts| > 1
    ensures var longer := [[c] + parts[0]] + parts[1..]; var all := ButLast(parts) + more;
            Last(longer) == Last(parts) && [[c] + all[0]] + all[1..] == ButLast(longer) + more
  {
  }

  lemma {:induction false} OnePart(s: string)
    requires |Parts(s)| == 1
    ensures Parts(s) == [s]
  {
    if |s| >= 2 {
      OnePart(s[1..]);
      assert s == [s[0]] + s[1..];
    }
  }

  /** The open last part holds no further cut. */
  lemma {:induction false} LastIsUncut(s: string)
    ensures Parts(Last(Parts(s))) == [Last(Parts(s))]
  {
    CutThenContinue(s, "");
    assert s + "" == s;
    assert Last(Parts(s)) + "" == Last(Parts(s));
    var p, l := Parts(s), Last(Parts(s));
    assert p == ButLast(p) + Parts(l);
    assert |Parts(l)| == 1;
    OnePart(l);
  }

  /** Text without line feeds extends the last part. */
  lemma {:induction false} PlainTailIsUncut(s: string, tail: string)
    requires Parts(s) == [s] && '\n' !in tail
    ensures Parts(s + tail) == [s + tail]
  {
    if s == "" {
      PlainIsUncut(tail);
      assert s + tail == tail;
    } else if |s| == 1 {
      PlainIsUncut(tail);
      assert (s + tail)[1..] == tail && s + tail == [s[0]] + tail;
      if |tail| > 0 { assert tail[0] in tail && (s + tail)[1] == tail[0]; }
    } else {
      assert Parts(s) == [[s[0]] + Parts(s[1..])[0]] + Parts(s[1..])[1..];
      OnePart(s[1..]);
      assert (s + tail)[1..] == s[1..] + tail && s + tail == [s[0]] + (s[1..] + tail);
      PlainTailIsUncut(s[1..], tail);
    }
  }

  lemma {:induction false} PlainIsUncut(s: string)
    requires '\n' !in s
    ensures Parts(s) == [s]
  {
    if |s| >= 2 {
      assert s[0] in s && s == [s[0]] + s[1..];
      forall c | c in s[1..] ensures c in s { }
      PlainIsUncut(s[1..]);
    }
  }

  // ----- one event -----

  /** The characters `trim` removes. */
  predicate IsJsSpace(c: char) {
    var n := c as int;
    || 9 <= n <= 13 || n == 32 || n == 0xA0 || n == 0x1680 || 0x2000 <= n <= 0x200A
    || n == 0x2028 || n == 0x2029 || n == 0x202F || n == 0x205F || n == 0x3000 || n == 0xFEFF
  }

  function TrimStart(s: string): string {
    if s != "" && IsJsSpace(s[0]) then TrimStart(s[1..]) else s
  }

  function TrimEnd(s: string): string {
    if s != "" && IsJsSpace(s[|s| - 1]) then TrimEnd(s[..|s| - 1]) else s
  }

  function Trim(s: string): string {
    TrimEnd(TrimStart(s))
  }

  function Lines(s: string): (r: seq<string>)
    ensures |r| > 0
  {
    if s == "" then [""]
    else
      var rest := Lines(s[1..]);
      if s[0] == '\n' then [""] + rest else [[s[0]] + rest[0]] + rest[1..]
  }

  /** `lines.find(line => line.startsWith(prefix))`, without the prefix. */
  function FieldOf(lines: seq<string>, prefix: string): Option<string> {
    if lines == [] then None
    else if prefix <= lines[0] then Some(lines[0][|prefix|..])
    else FieldOf(lines[1..], prefix)
  }

  /** What the type guards read off the parsed data. */
  datatype Data =
    | NullData
    | Data(message: bool, content: Option<string>, approval: bool, outerEvent: bool, toolEvent: bool, assistant: bool,
           error: Option<string>)

  /** The handlers' calls. */
  datatype Call = UserMessage | Token(content: string) | ApprovalRequired | OuterSessionEvent | ToolEvent | Done
      | StreamError(message: string)

  /** What dispatching one part did: the handlers called, whether the event was terminal, whether it threw. */
  datatype Effect = Effect(calls: seq<Call>, terminal: bool, threw: bool)

  const SILENT := Effect([], false, false)

  function Handle(name: string, data: Data): Effect {
    if data.NullData? then
      // Reading a member of null throws; the guards of the other events accept null and answer false.
      if name == "user_message" || name == "token" || name == "done" then Effect([], false, true)
      else if name == "error" then Effect([], true, true)
      else SILENT
    else if name == "user_message" && data.message then Effect([UserMessage], false, false)
    else if name == "token" && data.content.Some? then Effect([Token(data.content.value)], false, false)
    else if name == "approval_required" && data.approval then Effect([ApprovalRequired], true, false)
    else if name == "outer_session_event" && data.outerEvent then Effect([OuterSessionEvent], false, false)
    else if name == "tool_event" && data.toolEvent then Effect([ToolEvent], false, false)
    else if name == "done" && data.assistant then Effect([Done], true, false)
    else if name == "error" then Effect([StreamError(data.error.GetOr("Agent stream failed"))], true, false)
    else SILENT
  }

  /** `dispatchAgentStreamEvent`; `parse` is JSON.parse, None when it throws. */
  function Dispatch(part: string, parse: string -> Option<Data>): Effect {
    var lines := Lines(part);
    var event, data := FieldOf(lines, "event:"), FieldOf(lines, "data:");
    if event.None? || Trim(event.value) == "" || data.None? then SILENT
    else
      var parsed := parse(Trim(data.value));
      if parsed.None? then Effect([], false, true) else Handle(Trim(event.value), parsed.value)
  }

  /** Dispatching parts in order; an exception stops everything. */
  function Run(parts: seq<string>, parse: string -> Option<Data>): Effect {
    if parts == [] then SILENT
    else
      var before := Run(parts[..|parts| - 1], parse);
      if before.threw then before
      else
        var e := Dispatch(parts[|parts| - 1], parse);
        Effect(before.calls + e.calls, before.terminal || e.terminal, e.threw)
  }

  lemma {:induction false} RunThenRun(a: seq<string>, b: seq<string>, parse: string -> Option<Data>)
    ensures Run(a + b, parse) ==
            if Run(a, parse).threw then Run(a, parse)
            else Effect(Run(a, parse).calls + Run(b, parse).calls, Run(a, parse).terminal || Run(b, parse).terminal,
                        Run(b, parse).threw)
  {
    hide Dispatch;
    if b == [] {
      assert a + b == a;
    } else {
      assert (a + b)[..|a + b| - 1] == a + b[..|b| - 1];
      RunThenRun(a, b[..|b| - 1], parse);
    }
  }

  // ----- the whole stream -----

  function Joined(chunks: seq<string>): string {
    if chunks == [] then "" else Joined(chunks[..|chunks| - 1]) + chunks[|chunks| - 1]
  }

  /** What a stream that ends without a terminal event reports. */
  const INCOMPLETE := "Agent 流式连接提前结束，未收到完成状态。"

  /** The parts of a whole text that are dispatched: all but a blank last one. */
  function Dispatched(text: string): seq<string> {
    var parts := Parts(text);
    if Trim(Last(parts)) == "" then ButLast(parts) else parts
  }

  datatype Outcome = Completed | Truncated | Threw

  /** What reading a whole text does: the handlers' calls in order, and how it ends. */
  function Reading(text: string, parse: string -> Option<Data>): (seq<Call>, Outcome) {
    var e := Run(Dispatched(text), parse);
    if e.threw then (e.calls, Threw)
    else if e.terminal then (e.calls, Completed)
    else (e.calls + [StreamError(INCOMPLETE)], Truncated)
  }

  /** The terminal flag shared with the dispatcher. */
  class TerminalState {
    var seen: bool
    var calls: seq<Call>

    constructor ()
      ensures !seen && calls == []
    {
      seen, calls := false, [];
    }

    method DispatchPart(part: string, parse: string -> Option<Data>) returns (threw: bool)
      modifies this
      ensures var e := Dispatch(part, parse);
              seen == (old(seen) || e.terminal) && calls == old(calls) + e.calls && threw == e.threw
    {
      var e := Dispatch(part, parse);
      if e.terminal { seen := true; }
      calls := calls + e.calls;
      threw := e.threw;
    }

    /** `parts.forEach(...)`, up to the first exception. */
    method DispatchAll(parts: seq<string>, parse: string -> Option<Data>) returns (threw: bool)
      modifies this
      ensures var e := Run(parts, parse);
              seen == (old(seen) || e.terminal) && calls == old(calls) + e.calls && threw == e.threw
    {
      hide Dispatch;
      threw := false;
      for i := 0 to |parts|
        invariant !threw
        invariant var e := Run(parts[..i], parse);
                  seen == (old(seen) || e.terminal) && calls == old(calls) + e.calls && !e.threw
      {
        assert parts[..i + 1][..i] == parts[..i];
        threw := DispatchPart(parts[i], parse);
        if threw {
          assert Run(parts[..i + 1], parse).threw;
          assert parts == parts[..i + 1] + parts[i + 1..];
          RunThenRun(parts[..i + 1], parts[i + 1..], parse);
          return;
        }
      }
      assert parts[..|parts|] == parts;
    }
  }

  /**
   `streamAgentMessage` on decoded chunks; `flush` is what the decoder still held, which is never a line feed.
   However the text was cut into chunks, the handlers' calls and the ending are those of the whole text.
   */
  method StreamMessages(chunks: seq<string>, flush: string, parse: string -> Option<Data>)
    returns (calls: seq<Call>, outcome: Outcome)
    requires '\n' !in flush
    ensures (calls, outcome) == Reading(Joined(chunks) + flush, parse)
  {
    hide Parts, Run, Dispatch, Trim;
    var buffer := "";
    var terminal := new TerminalState();
    ghost var text := "";
    assert Parts("") == [""] && Run([], parse) == SILENT by { NothingYet(parse); }
    for i := 0 to |chunks|
      invariant text == Joined(chunks[..i])
      invariant buffer == Last(Parts(text))
      invariant Run(ButLast(Parts(text)), parse) == Effect(terminal.calls, terminal.seen, false)
    {
      assert chunks[..i + 1][..i] == chunks[..i];
      CutThenContinue(text, chunks[i]);
      buffer := buffer + chunks[i];
      var parts := Parts(buffer);
      buffer := Last(parts);
      RunThenRun(ButLast(Parts(text)), ButLast(parts), parse);
      var threw := terminal.DispatchAll(ButLast(parts), parse);
      ghost var before := text;
      text := text + chunks[i];
      assert Parts(text) == ButLast(Parts(before)) + parts;
      assert ButLast(Parts(text)) == ButLast(Parts(before)) + ButLast(parts);
      if threw {
        ThrewEarly(text, Joined(chunks[i + 1..]) + flush, parse);
        JoinedSplit(chunks, i + 1);
        assert Joined(chunks) + flush == text + (Joined(chunks[i + 1..]) + flush);
        return terminal.calls, Threw;
      }
    }
    assert chunks[..|chunks|] == chunks;
    Flushed(text, flush);
    buffer := buffer + flush;
    if Trim(buffer) != "" {
      RunThenRun(ButLast(Parts(text)), [buffer], parse);
      RunOne(buffer, parse);
      var threw := terminal.DispatchPart(buffer, parse);
      if threw {
        return terminal.calls, Threw;
      }
    }
    if !terminal.seen {
      return terminal.calls + [StreamError(INCOMPLETE)], Truncated;
    }
    return terminal.calls, Completed;
  }

  lemma NothingYet(parse: string -> Option<Data>)
    ensures Parts("") == [""] && Run([], parse) == SILENT
  {
  }

  lemma RunOne(part: string, parse: string -> Option<Data>)
    ensures Run([part], parse) == Dispatch(part, parse)
  {
    hide Dispatch;
    assert [part][..0] == [];
  }

  lemma {:induction false} JoinedSplit(chunks: seq<string>, i: nat)
    requires i <= |chunks|
    ensures Joined(chunks) == Joined(chunks[..i]) + Joined(chunks[i..])
  {
    if i == |chunks| {
      assert chunks[..i] == chunks;
    } else {
      var front := chunks[..|chunks| - 1];
      JoinedSplit(front, i);
      assert front[..i] == chunks[..i] && chunks[i..][..|chunks[i..]| - 1] == front[i..];
    }
  }

  /** The decoder's last characters only extend the open part. */
  lemma Flushed(text: string, flush: string)
    requires '\n' !in flush
    ensures Parts(text + flush) == ButLast(Parts(text)) + [Last(Parts(text)) + flush]
  {
    CutThenContinue(text, flush);
    LastIsUncut(text);
    PlainTailIsUncut(Last(Parts(text)), flush);
  }

  /** An exception in the parts read so far is the exception of the whole text. */
  lemma ThrewEarly(text: string, more: string, parse: string -> Option<Data>)
    requires Run(ButLast(Parts(text)), parse).threw
    ensures Run(Dispatched(text + more), parse) == Run(ButLast(Parts(text)), parse)
  {
    hide Parts, Run;
    CutThenContinue(text, more);
    var rest := Parts(Last(Parts(text)) + more);
    var done := ButLast(Parts(text));
    assert ButLast(Parts(text + more)) == done + ButLast(rest);
    RunThenRun(done, rest, parse);
    RunThenRun(done, ButLast(rest), parse);
  }

  lemma {:induction false} RunSummary(parts: seq<string>, parse: string -> Option<Data>)
    ensures Run(parts, parse).threw <==> exists i :: 0 <= i < |parts| && Dispatch(parts[i], parse).threw
    ensures !Run(parts, parse).threw ==>
              (Run(parts, parse).terminal <==> exists i :: 0 <= i < |parts| && Dispatch(parts[i], parse).terminal)
  {
    hide Dispatch;
    if parts == [] {
    } else {
      var front := parts[..|parts| - 1];
      RunSummary(front, parse);
      if i :| 0 <= i < |front| && Dispatch(front[i], parse).threw { assert Dispatch(parts[i], parse).threw; }
      if i :| 0 <= i < |front| && Dispatch(front[i], parse).terminal { assert Dispatch(parts[i], parse).terminal; }
      if i :| 0 <= i < |parts| && Dispatch(parts[i], parse).threw { if i < |front| { assert front[i] == parts[i]; } }
      if i :| 0 <= i < |parts| && Dispatch(parts[i], parse).terminal { if i < |front| { assert front[i] == parts[i]; } }
    }
  }

  /** Reading ends normally exactly when no dispatched part throws and some dispatched part is a terminal event. */
  lemma CompletesIff(text: string, parse: string -> Option<Data>)
    ensures Reading(text, parse).1 == Completed <==>
            && (forall i :: 0 <= i < |Dispatched(text)| ==> !Dispatch(Dispatched(text)[i], parse).threw)
            && (exists i :: 0 <= i < |Dispatched(text)| && Dispatch(Dispatched(text)[i], parse).terminal)
  {
    hide Dispatch, Run, Dispatched;
    RunSummary(Dispatched(text), parse);
  }
}
