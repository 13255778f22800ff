/**
 The final-answer filter (output_sanitizer.py), from the text its two block patterns leave: lines of internal protocol
 and removal markers go, with the blank lines around them; the rest is kept in order, compacted and trimmed.
 */
module OutputSanitizer {
  import opened Values
  import opened Text

  // ----- what is protocol -----

  /** The patterns and library calls: matched on stripped text, as the source matches them. */
  datatype Rules = Rules(
    protocolLine: string -> bool,
    assistantLabel: string -> bool,
    internalToolName: string -> bool,
    parseJson: string -> Option<Value>,
    lower: string -> string)

  const MARKER := "__OFFERMASTER_INTERNAL_PROTOCOL_REMOVED__"

  const PROTOCOL_KEYS := {"tool_call", "tool_calls", "tool_name", "run_result", "tool_result"}

  predicate HasKey(rules: Rules, fields: Fields, names: set<string>) {
    exists k <- fields :: rules.lower(k) in names
  }

  /** A dictionary that is itself a piece of tool protocol. */
  predicate ProtocolObject(rules: Rules, v: Value) {
    v.Dict? &&
    (HasKey(rules, v.fields, PROTOCOL_KEYS) ||
     (var name := if Truthy(Get(v.fields, "name")) then Get(v.fields, "name") else Get(v.fields, "tool");
      name.Str? && rules.internalToolName(name.s) && HasKey(rules, v.fields, {"arguments", "input"})))
  }

  /** `_json_looks_like_tool_protocol`. */
  predicate JsonProtocol(rules: Rules, v: Value) {
    match v
    case List(items) => exists i :: 0 <= i < |items| && JsonProtocol(rules, items[i])
    case Dict(fields) => ProtocolObject(rules, v) || exists k :: k in fields && JsonProtocol(rules, fields[k])
    case _ => false
  }

  /** A value inside another, reached by list positions and dictionary keys. */
  datatype Place = At(index: nat) | Under(key: string)

  function Inside(v: Value, path: seq<Place>): Option<Value> {
    if path == [] then Some(v)
    else match v
      case List(items) =>
        if path[0].At? && path[0].index < |items| then Inside(items[path[0].index], path[1..]) else None
      case Dict(fields) =>
        if path[0].Under? && path[0].key in fields then Inside(fields[path[0].key], path[1..]) else None
      case _ => None
  }

  /** A value looks like protocol exactly when a protocol object is somewhere inside it. */
  lemma JsonProtocolIffInside(rules: Rules, v: Value)
    ensures JsonProtocol(rules, v) <==>
            exists path :: Inside(v, path).Some? && ProtocolObject(rules, Inside(v, path).value)
  {
    if JsonProtocol(rules, v) { var _ := ProtocolPath(rules, v); }
    forall path | Inside(v, path).Some? && ProtocolObject(rules, Inside(v, path).value) ensures JsonProtocol(rules, v) {
      PathIsProtocol(rules, v, path);
    }
  }

  lemma {:induction false} ProtocolPath(rules: Rules, v: Value) returns (path: seq<Place>)
    requires JsonProtocol(rules, v)
    ensures Inside(v, path).Some? && ProtocolObject(rules, Inside(v, path).value)
  {
    path := [];
    if !ProtocolObject(rules, v) {
      match v
      case List(items) =>
        var i :| 0 <= i < |items| && JsonProtocol(rules, items[i]);
        var rest := ProtocolPath(rules, items[i]);
        path := [At(i)] + rest;
        assert path[1..] == rest;
      case Dict(fields) =>
        var k :| k in fields && JsonProtocol(rules, fields[k]);
        var rest := ProtocolPath(rules, fields[k]);
        path := [Under(k)] + rest;
        assert path[1..] == rest;
    }
  }

  lemma {:induction false} PathIsProtocol(rules: Rules, v: Value, path: seq<Place>)
    requires Inside(v, path).Some? && ProtocolObject(rules, Inside(v, path).value)
    ensures JsonProtocol(rules, v)
    decreases |path|
  {
    if path == [] {
    } else {
      match v
      case List(items) => PathIsProtocol(rules, items[path[0].index], path[1..]);
      case Dict(fields) => PathIsProtocol(rules, fields[path[0].key], path[1..]);
    }
  }

  predicate Contains(s: string, part: string) {
    exists i :: 0 <= i <= |s| && part <= s[i..]
  }

  /** `_looks_like_internal_protocol`. */
  predicate InternalProtocol(rules: Rules, text: string) {
    var stripped := Strip(text);
    var lowered := rules.lower(stripped);
    stripped != "" &&
    (if "tool call:" <= lowered || "tool result:" <= lowered then true
     else if Contains(lowered, "[tool") || Contains(lowered, "[/tool") || Contains(lowered, "[run_result]") then true
     else match rules.parseJson(stripped)
       case Some(value) => JsonProtocol(rules, value)
       case None =>
         && (exists m <- ["tool_call", "tool_calls", "tool_name", "run_result"] :: Contains(lowered, m))
         && (Contains(lowered, "arguments") || Contains(lowered, "result")))
  }

  /** `_looks_like_internal_protocol_line`. */
  predicate ProtocolLine(rules: Rules, line: string) {
    var stripped := Strip(line);
    stripped != "" &&
    (rules.protocolLine(stripped) ||
     (stripped[0] == '{' && stripped[|stripped| - 1] == '}' && InternalProtocol(rules, stripped)))
  }

  predicate Removed(rules: Rules, line: string) {
    Strip(line) == MARKER || ProtocolLine(rules, line)
  }

  predicate BlankLine(line: string) {
    Strip(line) == ""
  }

  // ----- the line stage -----

  /** Nothing but blank and removed lines from i up to j. */
  predicate Quiet(rules: Rules, lines: seq<string>, i: int, j: int) {
    forall k :: 0 <= i <= k < j <= |lines| ==> BlankLine(lines[k]) || Removed(rules, lines[k])
  }

  /** A blank line survives when no removed line is next to it, over blank and removed lines, on either side. */
  predicate Survives(rules: Rules, lines: seq<string>, i: nat)
    requires i < |lines|
  {
    && !Removed(rules, lines[i])
    && (BlankLine(lines[i]) ==>
          && (forall r :: 0 <= r < i && Removed(rules, lines[r]) ==> !Quiet(rules, lines, r, i))
          && (forall r :: i < r < |lines| && Removed(rules, lines[r]) ==> !Quiet(rules, lines, i, r)))
  }

  /** The surviving ones of the first n lines. */
  function Survivors(rules: Rules, lines: seq<string>, n: nat): seq<string>
    requires n <= |lines|
  {
    if n == 0 then []
    else Survivors(rules, lines, n - 1) + (if Survives(rules, lines, n - 1) then [lines[n - 1]] else [])
  }

  function Kept(rules: Rules, lines: seq<string>): seq<string> {
    Survivors(rules, lines, |lines|)
  }

  /** The stripped protocol lines; a marker's own block was recorded when it was cut. */
  function Fragments(rules: Rules, lines: seq<string>): seq<string> {
    if lines == [] then []
    else
      var last := lines[|lines| - 1];
      Fragments(rules, lines[..|lines| - 1]) +
        (if Removed(rules, last) && Strip(last) != MARKER then [Strip(last)] else [])
  }

  function PopBlanks(lines: seq<string>): seq<string> {
    if lines != [] && BlankLine(lines[|lines| - 1]) then PopBlanks(lines[..|lines| - 1]) else lines
  }

  /** A removed line is pending: blank lines that follow it are skipped. */
  predicate Skipping(rules: Rules, lines: seq<string>) {
    exists r :: 0 <= r < |lines| && Removed(rules, lines[r]) && Quiet(rules, lines, r, |lines|)
  }

  /** The loop over the lines. */
  method LineStage(rules: Rules, lines: seq<string>, before: seq<string>)
    returns (kept: seq<string>, removed: seq<string>)
    ensures kept == Kept(rules, lines) && removed == before + Fragments(rules, lines)
  {
    hide Removed, BlankLine, Skipping, Kept, Fragments, PopBlanks, Strip;
    kept, removed := [], before;
    var skip := false;
    NothingKept(rules);
    for i := 0 to |lines|
      invariant kept == Kept(rules, lines[..i]) && removed == before + Fragments(rules, lines[..i])
      invariant skip == Skipping(rules, lines[..i])
    {
      var line := lines[i];
      assert lines[..i + 1] == lines[..i] + [line];
      FragmentsStep(rules, lines[..i], line);
      if Removed(rules, line) {
        if Strip(line) != MARKER {
          removed := removed + [Strip(line)];
        }
        RemovedStep(rules, lines[..i], line);
        kept := PopTrailing(kept);
        skip := true;
        continue;
      }
      if skip && BlankLine(line) {
        BlankStep(rules, lines[..i], line);
        continue;
      }
      if BlankLine(line) { BlankStep(rules, lines[..i], line); } else { TextStep(rules, lines[..i], line); }
      skip := false;
      kept := kept + [line];
    }
    assert lines[..|lines|] == lines;
  }

  method PopTrailing(lines: seq<string>) returns (kept: seq<string>)
    ensures kept == PopBlanks(lines)
  {
    kept := lines;
    while kept != [] && BlankLine(kept[|kept| - 1])
      invariant PopBlanks(kept) == PopBlanks(lines)
    {
      kept := kept[..|kept| - 1];
    }
  }

  lemma FragmentsStep(rules: Rules, lines: seq<string>, line: string)
    ensures Fragments(rules, lines + [line]) ==
            Fragments(rules, lines) + (if Removed(rules, line) && Strip(line) != MARKER then [Strip(line)] else [])
    ensures BlankLine(line) <==> Strip(line) == ""
  {
    hide Removed, Strip;
    assert (lines + [line])[..|lines|] == lines;
  }

  lemma NothingKept(rules: Rules)
    ensures Kept(rules, []) == [] && !Skipping(rules, []) && Fragments(rules, []) == []
  {
  }

  /** A line with text: earlier lines survive as before, and it does. */
  lemma TextStep(rules: Rules, lines: seq<string>, line: string)
    requires !Removed(rules, line) && !BlankLine(line)
    ensures Kept(rules, lines + [line]) == Kept(rules, lines) + [line] && !Skipping(rules, lines + [line])
  {
    hide Removed, BlankLine;
    var longer := lines + [line];
    forall i | 0 <= i < |lines| ensures Survives(rules, longer, i) <==> Survives(rules, lines, i) {
      SameQuiet(rules, lines, line);
    }
    SurvivorsAgree(rules, longer, lines, |lines|);
    assert longer[|lines|] == line;
  }

  /** A blank line: it survives unless a removal is pending. */
  lemma BlankStep(rules: Rules, lines: seq<string>, line: string)
    requires !Removed(rules, line) && BlankLine(line)
    ensures Kept(rules, lines + [line]) == Kept(rules, lines) + (if Skipping(rules, lines) then [] else [line])
    ensures Skipping(rules, lines + [line]) <==> Skipping(rules, lines)
  {
    hide Removed, BlankLine;
    var longer := lines + [line];
    SameQuiet(rules, lines, line);
    forall i | 0 <= i < |lines| ensures Survives(rules, longer, i) <==> Survives(rules, lines, i) {}
    SurvivorsAgree(rules, longer, lines, |lines|);
    assert longer[|lines|] == line;
    forall r | 0 <= r < |lines| ensures Quiet(rules, longer, r, |longer|) <==> Quiet(rules, lines, r, |lines|) {}
  }

  /** Within the earlier lines nothing changes when one is added. */
  lemma SameQuiet(rules: Rules, lines: seq<string>, line: string)
    ensures forall i, j :: 0 <= i <= j <= |lines| ==>
            (Quiet(rules, lines + [line], i, j) <==> Quiet(rules, lines, i, j))
  {
    hide Removed, BlankLine;
    var longer := lines + [line];
    assert forall k :: 0 <= k < |lines| ==> longer[k] == lines[k];
  }

  lemma {:induction false} SurvivorsAgree(rules: Rules, a: seq<string>, b: seq<string>, n: nat)
    requires n <= |a| && n <= |b| && a[..n] == b[..n]
    requires forall i :: 0 <= i < n ==> (Survives(rules, a, i) <==> Survives(rules, b, i))
    ensures Survivors(rules, a, n) == Survivors(rules, b, n)
  {
    hide Survives;
    if n == 0 {
    } else {
      assert a[..n][n - 1] == b[..n][n - 1];
      assert a[..n - 1] == a[..n][..n - 1] && b[..n - 1] == b[..n][..n - 1];
      SurvivorsAgree(rules, a, b, n - 1);
    }
  }

  /** A removed line takes the blank lines that reach it. */
  lemma SurvivesRemoval(rules: Rules, lines: seq<string>, line: string, i: nat)
    requires Removed(rules, line) && i < |lines|
    ensures Survives(rules, lines + [line], i) <==>
            Survives(rules, lines, i) && !(BlankLine(lines[i]) && Quiet(rules, lines, i, |lines|))
  {
    hide Removed, BlankLine;
    SameQuiet(rules, lines, line);
    var longer := lines + [line];
    assert longer[|lines|] == line && longer[i] == lines[i];
    assert forall r :: 0 <= r < |lines| ==> longer[r] == lines[r];
  }

  lemma QuietFrom(rules: Rules, lines: seq<string>, i: nat)
    requires i < |lines|
    ensures Quiet(rules, lines, i, |lines|) <==>
            Quiet(rules, lines, i + 1, |lines|) && (BlankLine(lines[i]) || Removed(rules, lines[i]))
  {
    hide Removed, BlankLine;
  }

  /** So the first n lines lose their last blank survivors if nothing but blank and removed lines follows them. */
  lemma {:induction false} RemovedPops(rules: Rules, lines: seq<string>, line: string, n: nat)
    requires Removed(rules, line) && n <= |lines|
    ensures Survivors(rules, lines + [line], n) ==
            (if Quiet(rules, lines, n, |lines|) then PopBlanks(Survivors(rules, lines, n))
             else Survivors(rules, lines, n))
  {
    hide Removed, BlankLine, Quiet, Survives;
    if n == 0 {
    } else {
      RemovedPops(rules, lines, line, n - 1);
      SurvivesRemoval(rules, lines, line, n - 1);
      QuietFrom(rules, lines, n - 1);
      assert (lines + [line])[n - 1] == lines[n - 1];
      RemovedDoNotSurvive(rules, lines, n - 1);
      PopLast(Survivors(rules, lines, n - 1), lines[n - 1]);
      assert Survivors(rules, lines, n - 1) + [] == Survivors(rules, lines, n - 1);
      assert Survivors(rules, lines + [line], n - 1) + [] == Survivors(rules, lines + [line], n - 1);
    }
  }

  lemma RemovedDoNotSurvive(rules: Rules, lines: seq<string>, i: nat)
    requires i < |lines|
    ensures Survives(rules, lines, i) ==> !Removed(rules, lines[i])
    ensures !Removed(rules, lines[i]) && !BlankLine(lines[i]) ==> Survives(rules, lines, i)
  {
  }

  lemma PopLast(lines: seq<string>, line: string)
    ensures PopBlanks(lines + [line]) == (if BlankLine(line) then PopBlanks(lines) else lines + [line])
  {
    assert (lines + [line])[..|lines|] == lines;
  }

  /** A removed line: the blank lines kept last go with it. */
  lemma RemovedStep(rules: Rules, lines: seq<string>, line: string)
    requires Removed(rules, line)
    ensures Kept(rules, lines + [line]) == PopBlanks(Kept(rules, lines)) && Skipping(rules, lines + [line])
  {
    hide Removed, BlankLine;
    var longer := lines + [line];
    assert longer[|lines|] == line;
    assert Quiet(rules, longer, |lines|, |longer|);
    RemovedPops(rules, lines, line, |lines|);
    assert Survivors(rules, longer, |longer|) == Survivors(rules, longer, |lines|);
  }

  // ----- what the line stage keeps -----

  /** Stripped, nonblank lines, in order: what a reader sees of some lines. */
  function Essence(lines: seq<string>): seq<string> {
    if lines == [] then []
    else (if BlankLine(lines[0]) then [] else [Strip(lines[0])]) + Essence(lines[1..])
  }

  function Unremoved(rules: Rules, lines: seq<string>): seq<string> {
    if lines == [] then []
    else
      Unremoved(rules, lines[..|lines| - 1]) +
      (if Removed(rules, lines[|lines| - 1]) then [] else [lines[|lines| - 1]])
  }

  lemma {:induction false} EssenceConcat(a: seq<string>, b: seq<string>)
    ensures Essence(a + b) == Essence(a) + Essence(b)
  {
    hide BlankLine, Strip;
    if a == [] {
      assert a + b == b;
    } else {
      assert (a + b)[1..] == a[1..] + b;
      EssenceConcat(a[1..], b);
    }
  }

  lemma EssenceOfOne(line: string)
    ensures Essence([line]) == (if BlankLine(line) then [] else [Strip(line)])
  {
    hide Strip;
    assert [line][1..] == [];
  }

  /** Every nonblank line that is neither protocol nor a marker is kept, in order, and no other one is. */
  lemma {:induction false} KeptEssence(rules: Rules, lines: seq<string>, n: nat)
    requires n <= |lines|
    ensures Essence(Survivors(rules, lines, n)) == Essence(Unremoved(rules, lines[..n]))
    ensures forall line <- Survivors(rules, lines, n) :: !Removed(rules, line)
  {
    hide Removed, BlankLine, Survives, Strip;
    if n == 0 {
    } else {
      var line := lines[n - 1];
      KeptEssence(rules, lines, n - 1);
      RemovedDoNotSurvive(rules, lines, n - 1);
      assert lines[..n][..n - 1] == lines[..n - 1] && lines[..n][n - 1] == line;
      EssenceConcat(Survivors(rules, lines, n - 1), [line]);
      EssenceConcat(Unremoved(rules, lines[..n - 1]), [line]);
      EssenceOfOne(line);
      assert Survivors(rules, lines, n - 1) + [] == Survivors(rules, lines, n - 1);
      assert Unremoved(rules, lines[..n - 1]) + [] == Unremoved(rules, lines[..n - 1]);
    }
  }

  /** Run on what it kept, the line stage keeps it all and removes nothing. */
  lemma {:induction false} StageIsIdempotent(rules: Rules, lines: seq<string>)
    requires forall line <- lines :: !Removed(rules, line)
    ensures Kept(rules, lines) == lines && Fragments(rules, lines) == []
  {
    hide Removed, BlankLine;
    if lines == [] {
    } else {
      var front, last := lines[..|lines| - 1], lines[|lines| - 1];
      assert lines == front + [last];
      StageIsIdempotent(rules, front);
      FragmentsStep(rules, front, last);
      assert !Skipping(rules, front);
      if BlankLine(last) { BlankStep(rules, front, last); } else { TextStep(rules, front, last); }
    }
  }

  // ----- lines and text -----

  function Split(text: string): (lines: seq<string>)
    ensures lines != []
  {
    if text == "" then [""]
    else if text[0] == '\n' then [""] + Split(text[1..])
    else
      var rest := Split(text[1..]);
      [[text[0]] + rest[0]] + rest[1..]
  }

  function Join(lines: seq<string>): string {
    if lines == [] then "" else if |lines| == 1 then lines[0] else lines[0] + "\n" + Join(lines[1..])
  }

  predicate OneLine(line: string) {
    '\n' !in line
  }

  lemma {:induction false} SplitIsLines(text: string)
    ensures forall line <- Split(text) :: OneLine(line)
  {
    if text == "" {
    } else {
      SplitIsLines(text[1..]);
      assert Split(text[1..])[0] in Split(text[1..]);
    }
  }

  lemma {:induction false} SplitLine(line: string, text: string)
    requires OneLine(line)
    ensures Split(line) == [line] && Split(line + "\n" + text) == [line] + Split(text)
  {
    if line == "" {
      assert line + "\n" + text == "\n" + text && ("\n" + text)[1..] == text;
    } else {
      assert line[0] in line;
      assert OneLine(line[1..]) by { assert forall c <- line[1..] :: c in line; }
      SplitLine(line[1..], text);
      assert (line + "\n" + text)[1..] == line[1..] + "\n" + text;
      assert line == [line[0]] + line[1..];
    }
  }

  lemma {:induction false} SplitJoin(lines: seq<string>)
    requires forall line <- lines :: OneLine(line)
    ensures lines != [] ==> Split(Join(lines)) == lines
  {
    hide Split, OneLine;
    if |lines| == 1 {
      SplitLine(lines[0], "");
      assert lines == [lines[0]];
    } else if lines != [] {
      SplitJoin(lines[1..]);
      SplitLine(lines[0], Join(lines[1..]));
      assert lines == [lines[0]] + lines[1..];
    }
  }

  /** Joining says what the lines say; no lines say nothing, and neither does the empty text. */
  lemma JoinKeepsEssence(lines: seq<string>)
    requires forall line <- lines :: OneLine(line)
    ensures Essence(Split(Join(lines))) == Essence(lines)
  {
    hide Split, OneLine, Strip;
    SplitJoin(lines);
    if lines == [] {
      EmptySplit();
      EssenceOfOne("");
      StripIsStripped("");
    }
  }

  lemma EmptySplit()
    ensures Split("") == [""] && Join([]) == ""
  {
  }

  /** `_compact_blank_lines`: of three or more line feeds in a row, two stay. */
  function CompactBlankLines(text: string): string {
    if text == "" then ""
    else if "\n\n\n" <= text then CompactBlankLines(text[1..])
    else [text[0]] + CompactBlankLines(text[1..])
  }

  predicate FeedsAt(text: string, i: nat) {
    i + 3 <= |text| && text[i] == '\n' && text[i + 1] == '\n' && text[i + 2] == '\n'
  }

  predicate NoThreeFeeds(text: string) {
    forall i :: 0 <= i < |text| ==> !FeedsAt(text, i)
  }

  lemma FeedsInRest(text: string)
    requires text != ""
    ensures NoThreeFeeds(text) <==> !FeedsAt(text, 0) && NoThreeFeeds(text[1..])
  {
    forall i | 0 <= i < |text| - 1 ensures FeedsAt(text[1..], i) <==> FeedsAt(text, i + 1) {}
    if !FeedsAt(text, 0) && NoThreeFeeds(text[1..]) {
      forall i | 0 <= i < |text| ensures !FeedsAt(text, i) {
        if i > 0 { assert FeedsAt(text[1..], i - 1) <==> FeedsAt(text, i); }
      }
    }
  }

  /** It leaves no three line feeds in a row, and text without them as it is. */
  lemma {:induction false} CompactingCompacts(text: string)
    ensures var c := CompactBlankLines(text);
            && NoThreeFeeds(c) && (NoThreeFeeds(text) ==> c == text)
            && (text != "" ==> c != "" && c[0] == text[0])
            && (|text| >= 2 && text[0] == '\n' ==> |c| >= 2 && (c[1] == '\n' <==> text[1] == '\n'))
            && |c| <= |text|
  {
    if text == "" {
    } else {
      var rest := text[1..];
      CompactingCompacts(rest);
      FeedsInRest(text);
      if FeedsAt(text, 0) {
        assert rest[0] == '\n' && rest[1] == '\n';
      } else {
        var c := CompactBlankLines(text);
        assert c == [text[0]] + CompactBlankLines(rest) && c[1..] == CompactBlankLines(rest);
        FeedsInRest(c);
        assert text == [text[0]] + rest;
      }
    }
  }

  // ----- the text a reader sees -----

  lemma EssenceLonger(line: string, lines: seq<string>)
    ensures Essence([line] + lines) == (if BlankLine(line) then [] else [Strip(line)]) + Essence(lines)
  {
    hide Strip;
    assert ([line] + lines)[1..] == lines;
  }

  /** Compacting drops empty lines only. */
  lemma {:induction false} CompactingKeepsEssence(text: string)
    ensures var c, lines := Split(CompactBlankLines(text)), Split(text);
            c[0] == lines[0] && Essence(c[1..]) == Essence(lines[1..])
  {
    hide Essence, Strip;
    if text == "" {
    } else {
      var rest := text[1..];
      CompactingKeepsEssence(rest);
      if "\n\n\n" <= text {
        assert rest[0] == '\n' && Split(rest)[0] == "";
        assert Split(text)[1..] == Split(rest) == [""] + Split(rest)[1..];
        EssenceLonger("", Split(rest)[1..]);
        StripIsStripped("");
      } else {
        var c := CompactBlankLines(rest);
        assert CompactBlankLines(text) == [text[0]] + c && ([text[0]] + c)[1..] == c;
        if text[0] == '\n' {
          assert Split(text)[1..] == Split(rest) == [Split(rest)[0]] + Split(rest)[1..];
          assert Split([text[0]] + c)[1..] == Split(c) == [Split(c)[0]] + Split(c)[1..];
          EssenceLonger(Split(rest)[0], Split(rest)[1..]);
          EssenceLonger(Split(c)[0], Split(c)[1..]);
        }
      }
    }
  }

  lemma SpaceInFront(c: char, rest: string)
    requires IsSpace(c)
    ensures Essence(Split([c] + rest)) == Essence(Split(rest))
  {
    hide Essence, Strip;
    var lines := Split(rest);
    assert ([c] + rest)[1..] == rest;
    if c == '\n' {
      EssenceLonger("", lines);
      StripIsStripped("");
    } else {
      StripLeftOne(c, lines[0]);
      EssenceLonger([c] + lines[0], lines[1..]);
      EssenceLonger(lines[0], lines[1..]);
      assert lines == [lines[0]] + lines[1..];
    }
  }

  /** Leading white space is on blank lines or in front of a line's text. */
  lemma {:induction false} StripLeftKeepsEssence(text: string)
    ensures Essence(Split(StripLeft(text))) == Essence(Split(text))
  {
    hide Essence, Split;
    if text != "" && IsSpace(text[0]) {
      StripLeftKeepsEssence(text[1..]);
      SpaceInFront(text[0], text[1..]);
      assert text == [text[0]] + text[1..];
    }
  }

  lemma StripLeftOne(c: char, s: string)
    requires IsSpace(c)
    ensures Strip([c] + s) == Strip(s)
  {
    hide StripRight;
    assert ([c] + s)[1..] == s;
  }

  lemma {:induction false} StripLeftSnoc(s: string, c: char)
    requires IsSpace(c)
    ensures StripLeft(s + [c]) == (if StripLeft(s) == "" then "" else StripLeft(s) + [c])
  {
    if s == "" {
      assert s + [c] == [c] && [c][1..] == "";
    } else if IsSpace(s[0]) {
      assert (s + [c])[1..] == s[1..] + [c];
      StripLeftSnoc(s[1..], c);
    }
  }

  lemma StripRightOne(s: string, c: char)
    requires IsSpace(c)
    ensures Strip(s + [c]) == Strip(s)
  {
    hide StripLeft;
    StripLeftSnoc(s, c);
    var l := StripLeft(s);
    assert (l + [c])[..|l|] == l;
  }

  /** One more character behind the last line. */
  function Behind(lines: seq<string>, c: char): seq<string>
    requires lines != []
  {
    if c == '\n' then lines + [""] else lines[..|lines| - 1] + [lines[|lines| - 1] + [c]]
  }

  lemma BehindCommutes(lines: seq<string>, d: char, c: char)
    requires lines != []
    ensures [""] + Behind(lines, c) == Behind([""] + lines, c)
    ensures [[d] + Behind(lines, c)[0]] + Behind(lines, c)[1..] == Behind([[d] + lines[0]] + lines[1..], c)
  {
    if |lines| == 1 {
      assert lines == [lines[0]] && lines[1..] == [];
      assert [d] + (lines[0] + [c]) == ([d] + lines[0]) + [c];
    } else {
      var longer := [[d] + lines[0]] + lines[1..];
      assert longer[..|longer| - 1] == [[d] + lines[0]] + lines[1..][..|lines| - 2];
    }
  }

  lemma {:induction false} SplitSnoc(text: string, c: char)
    ensures Split(text + [c]) == Behind(Split(text), c)
  {
    if text == "" {
      assert text + [c] == [c] && [c][1..] == "";
      assert "" + [c] == [c] && [c] + "" == [c] && [""][..0] == [];
      assert [[c]] + [] == [[c]] && [""] + [""] == ["", ""];
    } else {
      hide Behind;
      assert (text + [c])[1..] == text[1..] + [c] && (text + [c])[0] == text[0];
      SplitSnoc(text[1..], c);
      BehindCommutes(Split(text[1..]), text[0], c);
    }
  }

  /** Trailing white space is on blank lines or behind a line's text. */
  lemma {:induction false} StripRightKeepsEssence(text: string)
    ensures Essence(Split(StripRight(text))) == Essence(Split(text))
  {
    hide Essence, Strip, Split;
    if text != "" && IsSpace(text[|text| - 1]) {
      var front, c := text[..|text| - 1], text[|text| - 1];
      assert text == front + [c];
      StripRightKeepsEssence(front);
      SplitSnoc(front, c);
      var lines := Split(front);
      var last := lines[|lines| - 1];
      assert lines == lines[..|lines| - 1] + [last];
      StripIsStripped("");
      StripRightOne(last, c);
      EssenceConcat(lines, [""]);
      EssenceConcat(lines[..|lines| - 1], [last]);
      EssenceConcat(lines[..|lines| - 1], [last + [c]]);
      EssenceOfOne("");
      EssenceOfOne(last);
      EssenceOfOne(last + [c]);
      assert Essence(lines) + [] == Essence(lines);
    }
  }

  /** Compaction and trimming change no nonblank line but for the white space around it. */
  lemma TidyingKeepsEssence(text: string)
    ensures Essence(Split(Strip(CompactBlankLines(text)))) == Essence(Split(text))
  {
    hide Essence, Split, CompactBlankLines, StripLeft, StripRight;
    var c := CompactBlankLines(text);
    CompactingKeepsEssence(text);
    assert Split(c) == [Split(c)[0]] + Split(c)[1..] && Split(text) == [Split(text)[0]] + Split(text)[1..];
    EssenceLonger(Split(c)[0], Split(c)[1..]);
    EssenceLonger(Split(text)[0], Split(text)[1..]);
    StripLeftKeepsEssence(c);
    StripRightKeepsEssence(StripLeft(c));
  }

  // ----- the whole filter -----

  datatype SanitizedOutput = SanitizedOutput(
    content: string,
    removedInternalProtocol: bool,
    needsRegeneration: bool,
    removedFragments: seq<string>)

  function Nonempty(fragments: seq<string>): seq<string> {
    if fragments == [] then []
    else
      Nonempty(fragments[..|fragments| - 1]) +
      (if fragments[|fragments| - 1] == "" then [] else [fragments[|fragments| - 1]])
  }

  /** `_is_only_assistant_shell`. */
  predicate OnlyShell(rules: Rules, text: string) {
    forall line <- Essence(Split(text)) :: rules.assistantLabel(line)
  }

  /** What the lines that are neither protocol nor markers say. */
  function Visible(rules: Rules, cleaned: string): seq<string> {
    Essence(Unremoved(rules, Split(cleaned)))
  }

  /** Nothing is said but the assistant's own label. */
  predicate SaysNothing(rules: Rules, cleaned: string) {
    forall line <- Visible(rules, cleaned) :: rules.assistantLabel(line)
  }

  function Fragmented(rules: Rules, cleaned: string, blocks: seq<string>): seq<string> {
    blocks + Fragments(rules, Split(cleaned))
  }

  /**
   `sanitize_agent_final_answer`, after its block patterns. The answer says exactly what the unremoved lines say, or
   nothing where something was removed and only the label is left; and only then is it to be written again.
   */
  method SanitizeAgentFinalAnswer(rules: Rules, cleaned: string, blocks: seq<string>) returns (out: SanitizedOutput)
    ensures out.removedInternalProtocol <==> Fragmented(rules, cleaned, blocks) != []
    ensures out.removedFragments == Nonempty(Fragmented(rules, cleaned, blocks))
    ensures Essence(Split(out.content)) ==
            (if out.removedInternalProtocol && SaysNothing(rules, cleaned) then [] else Visible(rules, cleaned))
    ensures out.needsRegeneration <==> out.removedInternalProtocol && SaysNothing(rules, cleaned)
    ensures Stripped(out.content) && NoThreeFeeds(out.content)
    ensures forall line <- Split(out.content) :: !Removed(rules, line)
  {
    hide Kept, Fragments, Essence, Split, Join, CompactBlankLines, Strip, Unremoved, Removed, NoThreeFeeds, Nonempty,
         Stripped;
    var lines := Split(cleaned);
    var kept, removed := LineStage(rules, lines, blocks);
    var content := Strip(CompactBlankLines(Join(kept)));
    TidiedSays(rules, cleaned, kept);
    if removed != [] && OnlyShell(rules, content) {
      content := "";
    }
    NothingSaid(content);
    forall line | line in Split(content) ensures !Removed(rules, line) {
      NoProtocolLeft(rules, cleaned, content, line);
    }
    out := SanitizedOutput(content, removed != [], removed != [] && content == "", Nonempty(removed));
  }

  lemma TidiedSays(rules: Rules, cleaned: string, kept: seq<string>)
    requires kept == Kept(rules, Split(cleaned))
    ensures var content := Strip(CompactBlankLines(Join(kept)));
            Essence(Split(content)) == Visible(rules, cleaned) && Stripped(content) && NoThreeFeeds(content)
  {
    hide Essence, Split, Join, CompactBlankLines, Strip, Unremoved, Removed, NoThreeFeeds, Survives;
    var lines := Split(cleaned);
    KeptEssence(rules, lines, |lines|);
    assert lines[..|lines|] == lines;
    KeptAreLines(rules, cleaned);
    JoinKeepsEssence(kept);
    TidyingKeepsEssence(Join(kept));
    CompactingCompacts(Join(kept));
    StripIsStripped(CompactBlankLines(Join(kept)));
    StripKeepsNoFeeds(CompactBlankLines(Join(kept)));
  }

  lemma KeptAreLines(rules: Rules, cleaned: string)
    ensures forall line <- Kept(rules, Split(cleaned)) :: OneLine(line)
  {
    hide Split, OneLine, Survives;
    SplitIsLines(cleaned);
    SurvivorsAreLines(rules, Split(cleaned), |Split(cleaned)|);
  }

  lemma {:induction false} SurvivorsAreLines(rules: Rules, lines: seq<string>, n: nat)
    requires n <= |lines|
    ensures forall line <- Survivors(rules, lines, n) :: line in lines
  {
    hide Survives;
    if n > 0 { SurvivorsAreLines(rules, lines, n - 1); }
  }

  lemma StripKeepsNoFeeds(text: string)
    requires NoThreeFeeds(text)
    ensures NoThreeFeeds(Strip(text))
  {
    var l := StripLeft(text);
    forall i | 0 <= i < |Strip(text)| ensures !FeedsAt(Strip(text), i) {
      assert FeedsAt(Strip(text), i) ==> FeedsAt(text, |text| - |l| + i);
    }
  }

  /** Text says nothing exactly when it is blank; stripped, when it is empty. */
  lemma NothingSaid(text: string)
    ensures Essence(Split("")) == []
    ensures Stripped(text) ==> (text == "" <==> Essence(Split(text)) == [])
    ensures Stripped("") && NoThreeFeeds("")
  {
    EssenceOfOne("");
    StripIsStripped("");
    if text != "" && Stripped(text) { FirstLineSays(text); }
  }

  lemma FirstLineSays(text: string)
    requires text != "" && !IsSpace(text[0])
    ensures Essence(Split(text)) != []
  {
    hide Strip;
    var first := Split(text)[0];
    assert first[0] == text[0];
    StripIsStripped(first);
    assert first[0] in first;
  }

  /** No line of the answer is protocol or a marker. */
  lemma NoProtocolLeft(rules: Rules, cleaned: string, content: string, line: string)
    requires (Essence(Split(content)) == Visible(rules, cleaned) || Essence(Split(content)) == []) &&
             line in Split(content)
    ensures !Removed(rules, line)
  {
    hide Split, Unremoved, Removed, Strip, Essence, BlankLine;
    if !BlankLine(line) {
      EssenceHas(Split(content), line);
      UnremovedEssence(rules, Split(cleaned), Strip(line));
      var kept :| !Removed(rules, kept) && Strip(kept) == Strip(line);
      RemovedByText(rules, kept, line);
    } else {
      BlankIsNotRemoved(rules, line);
    }
  }

  /** Whether a line is removed depends on its stripped text only. */
  lemma RemovedByText(rules: Rules, a: string, b: string)
    requires Strip(a) == Strip(b)
    ensures Removed(rules, a) <==> Removed(rules, b)
  {
    hide Strip, InternalProtocol;
  }

  lemma BlankIsNotRemoved(rules: Rules, line: string)
    requires BlankLine(line)
    ensures !Removed(rules, line)
  {
  }

  lemma {:induction false} EssenceHas(lines: seq<string>, line: string)
    requires line in lines && !BlankLine(line)
    ensures Strip(line) in Essence(lines)
  {
    hide Strip;
    if line != lines[0] {
      assert lines == [lines[0]] + lines[1..];
      EssenceHas(lines[1..], line);
    }
  }

  lemma {:induction false} UnremovedEssence(rules: Rules, lines: seq<string>, said: string)
    requires said in Essence(Unremoved(rules, lines))
    ensures exists line :: !Removed(rules, line) && Strip(line) == said
  {
    hide Strip, Removed, BlankLine;
    if lines == [] {
    } else {
      var front, last := lines[..|lines| - 1], lines[|lines| - 1];
      if Removed(rules, last) {
        assert Unremoved(rules, lines) == Unremoved(rules, front);
        UnremovedEssence(rules, front, said);
      } else {
        EssenceConcat(Unremoved(rules, front), [last]);
        EssenceOfOne(last);
        if said in Essence(Unremoved(rules, front)) { UnremovedEssence(rules, front, said); }
      }
    }
  }

  /** A marker alone, with no block recorded, is dropped without asking for another answer. */
  lemma MarkerAloneIsSilent(rules: Rules)
    ensures Fragmented(rules, MARKER, []) == [] && Visible(rules, MARKER) == []
  {
    hide Strip, Split, Essence, ProtocolLine;
    assert OneLine(MARKER);
    SplitLine(MARKER, "");
    MarkerIsStripped();
    var lines := Split(MARKER);
    assert lines == [MARKER] && lines[|lines| - 1] == MARKER && lines[..|lines| - 1] == [];
    assert Removed(rules, MARKER);
    assert Unremoved(rules, lines) == [];
    assert Fragments(rules, lines) == [];
    NothingSaidByNoLines();
  }

  lemma NothingSaidByNoLines()
    ensures Essence([]) == []
  {
  }

  lemma MarkerIsStripped()
    ensures Strip(MARKER) == MARKER
  {
    hide Strip;
    StripIsStripped(MARKER);
  }
}
